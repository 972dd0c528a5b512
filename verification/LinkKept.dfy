/** Every step of every transaction keeps the link invariant, foreign re-entrancy included. */
module LinkKept {
  import opened Types
  import opened Wire
  import opened Subscribers
  import opened Chain
  import opened Link
  import opened Sales
  import Dealer

  // ---------- pairs under a step that is not about them ----------

  /** A head that is neither a notice for the pair nor the reply that introduces its child. */
  predicate Unrelated(w: World, stack: seq<Task>, d: Addr, c: Addr)
    requires Pair(w, d, c)
  {
    && stack != []
    && !Next(stack, ToDealer(w, d, c)) && !Next(stack, ToChild(w, d, c))
    && !Next(stack, Reply(d, Dealer.INSTANTIATE_SNIP721_REPLY_ID, c))
  }

  lemma UnrelatedHolds(api: Api, w: World, stack: seq<Task>, d: Addr, c: Addr)
    requires Pair(w, d, c) && api.Valid(d) && api.Valid(c)
    requires PairOk(api, w, stack, d, c) && Unrelated(w, stack, d, c)
    ensures Holds(api, w, d, c)
  {
  }

  /** What an account, a contract of a pair or a foreign contract may call or send. */
  ghost predicate Sendable(api: Api, w: World, t: Task) {
    Waiting(w, t) || FromOutside(api, w, t) || ChildSpeaks(w, t)
  }

  /** A message delivered to the dealer of a pair leaves the link holding: either it held, or the
      message is the notice that was due. */
  lemma DealerStepHolds(api: Api, w: World, o: Oracle, stack: seq<Task>, d: Addr, c: Addr)
    requires Inv(api, w, stack) && Pair(w, d, c) && stack != []
    requires var t := stack[0];
             && t.Call? && t.out.Execute? && t.out.contract == d
             && Sendable(api, w, t) && Step(api, w, o, t).Ok?
    ensures var w' := Step(api, w, o, stack[0]).value.world;
            Pair(w', d, c) && Holds(api, w', d, c)
  {
    var t := stack[0];
    assert PairOk(api, w, stack, d, c) && Following(api, w, stack, d, c);
    var s := DealerAt(w, d);
    var info := MessageInfo(t.sender, t.out.funds);
    var m := DecodeDealer(t.out.msg).value;
    ExecuteChangesOnly(api, w, o, t);
    PairsStay(w, Step(api, w, o, t).value.world, d);
    DealerAttemptsCommute(t.out.msg);
    DealerKeepsLockstep(api, s, info, m);
    if Next(stack, ToDealer(w, d, c)) {
      ListenerRoundTrip(MigrationComplete(Info(w, c), None));
    }
    if m.DealerListener? {
      CanonInjective(api, t.sender, c);
    }
  }

  lemma ChildStepHolds(api: Api, w: World, o: Oracle, stack: seq<Task>, d: Addr, c: Addr)
    requires Inv(api, w, stack) && Pair(w, d, c) && stack != []
    requires var t := stack[0];
             && t.Call? && t.out.Execute? && t.out.contract == c
             && Sendable(api, w, t) && Step(api, w, o, t).Ok?
    ensures var w' := Step(api, w, o, stack[0]).value.world;
            Pair(w', d, c) && Holds(api, w', d, c)
  {
    var t := stack[0];
    assert PairOk(api, w, stack, d, c) && Following(api, w, stack, d, c);
    var s := ChildAt(w, c);
    var m := DecodeChild(t.out.msg).value;
    ExecuteChangesOnly(api, w, o, t);
    PairsStay(w, Step(api, w, o, t).value.world, c);
    ChildAttemptsCommute(t.out.msg);
    ChildKeepsItsList(api, s, t.sender, m);
    if Next(stack, ToChild(w, d, c)) {
      ListenerRoundTrip(MigrationComplete(Info(w, d), None));
    }
    if m.ChildListener? && api.Canon(t.sender) == api.Canon(d) {
      CanonInjective(api, t.sender, d);
    }
  }

  lemma HoldsElsewhere(api: Api, w: World, w': World, k: Addr, d: Addr, c: Addr)
    requires ChangesOnly(w, w', k) && Pair(w, d, c) && k != d && k != c
    requires api.Valid(d) && api.Valid(c) && Holds(api, w, d, c)
    ensures Pair(w', d, c) && Holds(api, w', d, c)
  {
    PairsStay(w, w', k);
  }

  /** After any delivery every pair's link holds. */
  lemma ExecuteHolds(api: Api, w: World, o: Oracle, stack: seq<Task>, d: Addr, c: Addr)
    requires Inv(api, w, stack) && Pair(w, d, c) && stack != []
    requires var t := stack[0];
             t.Call? && t.out.Execute? && Sendable(api, w, t) && Step(api, w, o, t).Ok?
    ensures var w' := Step(api, w, o, stack[0]).value.world;
            Pair(w', d, c) && Holds(api, w', d, c)
  {
    var t := stack[0];
    if t.out.contract == d {
      DealerStepHolds(api, w, o, stack, d, c);
    } else if t.out.contract == c {
      ChildStepHolds(api, w, o, stack, d, c);
    } else {
      assert PairOk(api, w, stack, d, c);
      UnrelatedHolds(api, w, stack, d, c);
      ExecuteChangesOnly(api, w, o, t);
      HoldsElsewhere(api, w, Step(api, w, o, t).value.world, t.out.contract, d, c);
    }
  }

  // ---------- what a step emits ----------

  /** A dealer that has a child is asked for a mint. */
  ghost predicate StartsSale(w: World, t: Task) {
    exists d, c :: Pair(w, d, c) && Buys(t, d)
  }

  lemma ExecuteEmitsWaiting(api: Api, w: World, o: Oracle, t: Task)
    requires t.Call? && t.out.Execute? && Step(api, w, o, t).Ok? && !StartsSale(w, t)
    ensures var s := Step(api, w, o, t).value;
            forall e | e in s.emitted :: Waiting(s.world, e)
  {
    ExecuteChangesOnly(api, w, o, t);
    var a := t.out.contract;
    PairsStay(w, Step(api, w, o, t).value.world, a);
    match w.contracts[a].storage
    case DealerStorage(dealer) =>
      var info := MessageInfo(t.sender, t.out.funds);
      DealerAttemptsCommute(t.out.msg);
      ExecutesAreQuiet(api, dealer, info, DecodeDealer(t.out.msg).value);
      assert forall c :: Pair(w, a, c) ==> !Buys(t, a);
    case ChildStorage(_) =>
    case ForeignStorage =>
  }

  /** Gluing what was emitted in front of what was waiting. */
  lemma Queue(api: Api, w: World, w': World, emitted: seq<Task>, stack: seq<Task>)
    requires stack != [] && forall i | 0 < i < |stack| :: Waiting(w, stack[i])
    requires forall t :: Waiting(w, t) ==> Waiting(w', t)
    requires forall e | e in emitted :: Waiting(w', e)
    ensures var next := emitted + stack[1..];
            && (forall i | 0 < i < |next| :: Waiting(w', next[i]))
            && (next != [] ==> HeadOk(api, w', next))
  {
  }

  /** A call keeps the invariant. */
  lemma ExecuteKeepsInv(api: Api, w: World, o: Oracle, stack: seq<Task>)
    requires Inv(api, w, stack) && stack != [] && stack[0].Call? && stack[0].out.Execute?
    requires Step(api, w, o, stack[0]).Ok? && !StartsSale(w, stack[0])
    ensures var s := Step(api, w, o, stack[0]).value;
            Inv(api, s.world, s.emitted + stack[1..])
  {
    var t := stack[0];
    assert HeadOk(api, w, stack);
    var s := Step(api, w, o, t).value;
    ExecuteChangesOnly(api, w, o, t);
    PairsStay(w, s.world, t.out.contract);
    ExecuteEmitsWaiting(api, w, o, t);
    Queue(api, w, s.world, s.emitted, stack);
    forall d, c | Pair(s.world, d, c) ensures PairOk(api, s.world, s.emitted + stack[1..], d, c) {
      ExecuteHolds(api, w, o, stack, d, c);
    }
  }

  lemma SendKeepsInv(api: Api, w: World, o: Oracle, stack: seq<Task>)
    requires Inv(api, w, stack) && stack != [] && stack[0].Call? && stack[0].out.BankSend?
    requires Step(api, w, o, stack[0]).Ok?
    ensures var s := Step(api, w, o, stack[0]).value;
            Inv(api, s.world, s.emitted + stack[1..])
  {
    var s := Step(api, w, o, stack[0]).value;
    PairsStay(w, s.world, stack[0].sender);
    Queue(api, w, s.world, s.emitted, stack);
    forall d, c | Pair(s.world, d, c) ensures PairOk(api, s.world, s.emitted + stack[1..], d, c) {
      assert Pair(w, d, c);
      UnrelatedHolds(api, w, stack, d, c);
    }
  }

  // ---------- migrations ----------

  lemma WithCodeKeepsPairs(w: World, k: Addr, codeHash: CodeHash)
    requires k in w.contracts
    ensures var w' := WithCode(w, k, codeHash);
            && (forall d, c :: Pair(w', d, c) <==> Pair(w, d, c))
            && (forall a :: Ours(w', a) <==> Ours(w, a))
            && (forall a :: InForeignHands(w', a) <==> InForeignHands(w, a))
            && (forall a | a in w.contracts && a != k :: w'.contracts[a] == w.contracts[a])
            && (InForeignHands(w, k) ==> forall t :: Waiting(w, t) ==> Waiting(w', t))
  {
  }

  /** Announcements are calls, and a contract that is no child of a pair may have them wait. */
  lemma AnnouncementsMayWait(api: Api, w: World, k: Addr, subscribers: Option<SubscriberList>)
    requires Ours(w, k) && Announced(api, Info(w, k), subscribers).Ok? && forall d :: !Pair(w, d, k)
    ensures forall e | e in Stamped(k, Announced(api, Info(w, k), subscribers).value) :: Waiting(w, e)
  {
  }

  /** The child of a pair has one listener to tell; from anything else only tasks come that may
      wait. */
  lemma MigrateEmits(api: Api, w: World, o: Oracle, sender: Addr, k: Addr, codeHash: CodeHash)
    requires MigrateStep(api, w, o, sender, k, codeHash).Ok?
    ensures var s := MigrateStep(api, w, o, sender, k, codeHash).value;
            && s.world == WithCode(w, k, codeHash)
            && ((forall d :: !Pair(w, d, k)) ==> forall e | e in s.emitted :: Waiting(s.world, e))
  {
    WithCodeKeepsPairs(w, k, codeHash);
    if forall d :: !Pair(w, d, k) {
      match w.contracts[k].storage
      case DealerStorage(s) => AnnouncementsMayWait(api, WithCode(w, k, codeHash), k, s.subscribers);
      case ChildStorage(s) => AnnouncementsMayWait(api, WithCode(w, k, codeHash), k, s.subscribers);
      case ForeignStorage =>
    }
  }

  lemma ChildMigrationTells(api: Api, w: World, o: Oracle, sender: Addr, d: Addr, c: Addr, codeHash: CodeHash)
    requires Pair(w, d, c) && api.Valid(d) && api.Valid(c) && Shape(api, w, d, c)
    requires MigrateStep(api, w, o, sender, c, codeHash).Ok?
    ensures MigrateStep(api, w, o, sender, c, codeHash).value.emitted == [ToDealer(WithCode(w, c, codeHash), d, c)]
  {
    var env := ContractInfo(c, codeHash);
    var list := ChildAt(w, c).subscribers.value;
    SoleRecipient(api, env, list[0], ContractInfo(d, list[0].codeHash));
    assert list == [list[0]];
    assert Stamped(c, [Notification(ContractInfo(d, list[0].codeHash), env)]) ==
           [ToDealer(WithCode(w, c, codeHash), d, c)];
  }

  /** Where the tasks of a migration meet those that were waiting. */
  lemma MigrationQueues(api: Api, w: World, o: Oracle, sender: Addr, k: Addr, codeHash: CodeHash, stack: seq<Task>)
    requires ValidContracts(api, w) && MigrateStep(api, w, o, sender, k, codeHash).Ok? && stack != []
    requires forall d, c | Pair(w, d, c) :: Holds(api, w, d, c)
    requires forall i | 0 < i < |stack| :: Waiting(w, stack[i])
    requires InForeignHands(w, k) || |stack| == 1
    ensures var s := MigrateStep(api, w, o, sender, k, codeHash).value;
            var next := s.emitted + stack[1..];
            && (forall i | 0 < i < |next| :: Waiting(s.world, next[i]))
            && (next != [] ==> HeadOk(api, s.world, next))
            && (forall d | Pair(w, d, k) :: Next(next, ToDealer(s.world, d, k)))
  {
    var s := MigrateStep(api, w, o, sender, k, codeHash).value;
    MigrateEmits(api, w, o, sender, k, codeHash);
    WithCodeKeepsPairs(w, k, codeHash);
    forall d | Pair(w, d, k) ensures s.emitted == [ToDealer(s.world, d, k)] {
      ChildMigrationTells(api, w, o, sender, d, k, codeHash);
    }
    var next := s.emitted + stack[1..];
    forall i | 0 <= i < |next| && (i > 0 || forall d :: !Pair(w, d, k)) ensures Waiting(s.world, next[i]) {
      if i >= |s.emitted| {
        assert next[i] == stack[i - |s.emitted| + 1];
      } else {
        assert next[i] in s.emitted;
      }
    }
    if d :| Pair(w, d, k) {
      assert Pair(s.world, d, k) && ChildSpeaks(s.world, next[0]);
    }
  }

  /** A contract can only migrate what is in the hands of a foreign contract. */
  lemma MigrateKeepsInv(api: Api, w: World, o: Oracle, stack: seq<Task>)
    requires Inv(api, w, stack) && stack != [] && stack[0].Call? && stack[0].out.Migrate?
    requires Step(api, w, o, stack[0]).Ok?
    ensures var s := Step(api, w, o, stack[0]).value;
            Inv(api, s.world, s.emitted + stack[1..])
  {
    var k, codeHash := stack[0].out.contract, stack[0].out.codeHash;
    assert HeadOk(api, w, stack);
    assert InForeignHands(w, k);
    forall d, c | Pair(w, d, c) ensures Holds(api, w, d, c) {
      UnrelatedHolds(api, w, stack, d, c);
    }
    MigrationKeepsInv(api, w, o, stack[0].sender, k, codeHash, stack);
  }

  /** Migrations ordered by an account, then the whole stack, or by a foreign contract. */
  lemma MigrationKeepsInv(api: Api, w: World, o: Oracle, sender: Addr, k: Addr, codeHash: CodeHash, stack: seq<Task>)
    requires ValidContracts(api, w) && OneChildEach(w)
    requires MigrateStep(api, w, o, sender, k, codeHash).Ok? && stack != []
    requires forall d, c | Pair(w, d, c) :: Holds(api, w, d, c)
    requires forall i | 0 < i < |stack| :: Waiting(w, stack[i])
    requires InForeignHands(w, k) || |stack| == 1
    ensures var s := MigrateStep(api, w, o, sender, k, codeHash).value;
            Inv(api, s.world, s.emitted + stack[1..])
  {
    var s := MigrateStep(api, w, o, sender, k, codeHash).value;
    MigrateEmits(api, w, o, sender, k, codeHash);
    WithCodeKeepsPairs(w, k, codeHash);
    MigrationQueues(api, w, o, sender, k, codeHash, stack);
    var next := s.emitted + stack[1..];
    forall d, c | Pair(s.world, d, c) ensures PairOk(api, s.world, next, d, c) {
      assert Pair(w, d, c) && Holds(api, w, d, c);
      if k == d {
        DealerMigrationTells(api, w, o, sender, d, c, codeHash);
        assert Next(next, ToChild(s.world, d, c));
      }
      MigrationLeavesPairOk(api, w, k, codeHash, next, d, c);
    }
  }

  /** Whichever side moves, the other one hears of it next. */
  lemma MigrationLeavesPairOk(api: Api, w: World, k: Addr, codeHash: CodeHash, next: seq<Task>, d: Addr, c: Addr)
    requires k in w.contracts && Pair(w, d, c) && api.Valid(d) && api.Valid(c) && Holds(api, w, d, c)
    requires Pair(WithCode(w, k, codeHash), d, c)
    requires k == d ==> Next(next, ToChild(WithCode(w, k, codeHash), d, c))
    requires k == c ==> Next(next, ToDealer(WithCode(w, k, codeHash), d, c))
    ensures PairOk(api, WithCode(w, k, codeHash), next, d, c)
  {
    WithCodeKeepsPairs(w, k, codeHash);
  }

  /** The first notice of a dealer's migration goes to its child. */
  lemma DealerMigrationTells(api: Api, w: World, o: Oracle, sender: Addr, d: Addr, c: Addr, codeHash: CodeHash)
    requires Pair(w, d, c) && api.Valid(d) && api.Valid(c) && Shape(api, w, d, c) && DealerIsCurrent(w, d, c)
    requires MigrateStep(api, w, o, sender, d, codeHash).Ok?
    ensures Next(MigrateStep(api, w, o, sender, d, codeHash).value.emitted, ToChild(WithCode(w, d, codeHash), d, c))
  {
  }

  // ---------- new contracts ----------

  /** A new contract forms a pair only with the dealer that created it; no other relation is lost. */
  lemma PlusKeepsOld(api: Api, w: World, a: Addr, x: Contract)
    requires Unused(api, w, a) && a != x.creator
    ensures var w' := Plus(w, a, x);
            && (forall d, c :: Pair(w', d, c) <==>
                  || Pair(w, d, c)
                  || (c == a && d == x.creator && x.storage.ChildStorage?
                      && d in w.contracts && w.contracts[d].storage.DealerStorage?))
            && (forall k | k in w.contracts :: (InForeignHands(w, k) ==> InForeignHands(w', k)))
            && (forall k | k in w.contracts :: w'.contracts[k] == w.contracts[k])
  {
  }

  lemma PlusKeepsWaiting(api: Api, w: World, a: Addr, x: Contract, t: Task)
    requires Unused(api, w, a) && a != x.creator && Waiting(w, t)
    requires x.creator in w.contracts && w.contracts[x.creator].storage.DealerStorage? ==> !Involves(t, x.creator)
    ensures Waiting(Plus(w, a, x), t)
    ensures !Involves(t, a)
  {
    PlusKeepsOld(api, w, a, x);
  }

  lemma PlusKeepsHolds(api: Api, w: World, a: Addr, x: Contract, d: Addr, c: Addr)
    requires ValidContracts(api, w) && Unused(api, w, a) && a != x.creator
    requires Pair(w, d, c) && Holds(api, w, d, c)
    ensures Pair(Plus(w, a, x), d, c) && Holds(api, Plus(w, a, x), d, c)
  {
    PlusKeepsOld(api, w, a, x);
  }

  /** The contract at `a`, asked for by `t`, has entered the world: it is in no pair yet; if it is
      a dealer, the request for its child comes first. */
  ghost predicate Entered(api: Api, w: World, t: Task, a: Addr, s: Stepped) {
    && Unused(api, w, a) && t.Call? && a != t.sender && a in s.world.contracts
    && s.world == Plus(w, a, s.world.contracts[a]) && s.world.contracts[a].creator == t.sender
    && (s.world.contracts[a].storage.DealerStorage? ==>
          s.emitted != [] && Birth(s.world, s.emitted[0]) && s.emitted[0].sender == a)
    && forall i | 0 <= i < |s.emitted| && (i > 0 || !s.world.contracts[a].storage.DealerStorage?) ::
         Waiting(s.world, s.emitted[i])
         && (s.world.contracts[a].storage.DealerStorage? ==> !Involves(s.emitted[i], a))
  }

  /** A reply goes to a foreign contract, which is in no pair. */
  lemma RepliesMayWait(api: Api, w: World, t: Task, a: Addr, x: Contract)
    requires ValidContracts(api, w) && t.Call? && t.out.Instantiate? && (Waiting(w, t) || FromOutside(api, w, t))
    requires Unused(api, w, a) && a != t.sender && x.creator == t.sender
    ensures forall c :: !Pair(Plus(w, a, x), a, c)
    ensures forall d :: !Pair(Plus(w, a, x), d, a)
    ensures t.out.replyId.Some? ==> forall id :: Waiting(Plus(w, a, x), Reply(t.sender, id, a))
  {
    PlusKeepsOld(api, w, a, x);
  }

  lemma DealerEnters(api: Api, w: World, o: Oracle, t: Task)
    requires ValidContracts(api, w) && t.Call? && t.out.Instantiate?
    requires (Waiting(w, t) || FromOutside(api, w, t)) && Step(api, w, o, t).Ok?
    requires w.codes[t.out.codeHash] == DealerProgram
    ensures Entered(api, w, t, o.addresses[0], Step(api, w, o, t).value)
  {
    var s, a := Step(api, w, o, t).value, o.addresses[0];
    var x := s.world.contracts[a];
    assert s.world == Plus(w, a, x);
    RepliesMayWait(api, w, t, a, x);
  }

  lemma OtherEnters(api: Api, w: World, o: Oracle, t: Task)
    requires ValidContracts(api, w) && t.Call? && t.out.Instantiate?
    requires (Waiting(w, t) || FromOutside(api, w, t)) && Step(api, w, o, t).Ok?
    requires w.codes[t.out.codeHash] != DealerProgram
    ensures Entered(api, w, t, o.addresses[0], Step(api, w, o, t).value)
  {
    var s, a := Step(api, w, o, t).value, o.addresses[0];
    var x := s.world.contracts[a];
    assert s.world == Plus(w, a, x);
    RepliesMayWait(api, w, t, a, x);
  }

  /** What an account or a foreign contract asks for enters so. */
  lemma InstantiateEmits(api: Api, w: World, o: Oracle, t: Task)
    requires ValidContracts(api, w) && t.Call? && t.out.Instantiate?
    requires (Waiting(w, t) || FromOutside(api, w, t)) && Step(api, w, o, t).Ok?
    ensures o.addresses != [] && Entered(api, w, t, o.addresses[0], Step(api, w, o, t).value)
  {
    if w.codes[t.out.codeHash].DealerProgram? {
      DealerEnters(api, w, o, t);
    } else {
      OtherEnters(api, w, o, t);
    }
  }

  lemma EnteredQueues(api: Api, w: World, stack: seq<Task>, a: Addr, s: Stepped)
    requires stack != [] && Entered(api, w, stack[0], a, s) && !Ours(w, stack[0].sender)
    requires forall i | 0 < i < |stack| :: Waiting(w, stack[i])
    ensures var next := s.emitted + stack[1..];
            && (forall i | 0 < i < |next| :: Waiting(s.world, next[i]))
            && (next != [] ==> HeadOk(api, s.world, next))
  {
    var x := s.world.contracts[a];
    var next := s.emitted + stack[1..];
    forall i | 0 <= i < |next| && (i > 0 || !x.storage.DealerStorage?)
      ensures Waiting(s.world, next[i]) && (x.storage.DealerStorage? ==> !Involves(next[i], a))
    {
      if i >= |s.emitted| {
        assert next[i] == stack[i - |s.emitted| + 1];
        PlusKeepsWaiting(api, w, a, x, next[i]);
      }
    }
    if x.storage.DealerStorage? {
      assert next[0] == s.emitted[0];
      forall u | u in next[1..] ensures !Involves(u, a) {
        var i :| 0 <= i < |next[1..]| && next[1..][i] == u;
        assert next[i + 1] == u;
      }
    }
  }

  lemma InstantiateKeepsInv(api: Api, w: World, o: Oracle, stack: seq<Task>)
    requires Inv(api, w, stack) && stack != [] && stack[0].Call? && stack[0].out.Instantiate?
    requires (Waiting(w, stack[0]) || FromOutside(api, w, stack[0])) && Step(api, w, o, stack[0]).Ok?
    ensures var s := Step(api, w, o, stack[0]).value;
            Inv(api, s.world, s.emitted + stack[1..])
  {
    var t := stack[0];
    var s := Step(api, w, o, t).value;
    InstantiateEmits(api, w, o, t);
    var a := o.addresses[0];
    EnteredQueues(api, w, stack, a, s);
    PlusKeepsOld(api, w, a, s.world.contracts[a]);
    forall d, c | Pair(s.world, d, c) ensures PairOk(api, s.world, s.emitted + stack[1..], d, c) {
      assert Pair(w, d, c);
      UnrelatedHolds(api, w, stack, d, c);
      PlusKeepsHolds(api, w, a, s.world.contracts[a], d, c);
    }
  }

  // ---------- the handshake ----------

  lemma BirthEmits(api: Api, w: World, o: Oracle, t: Task)
    requires ValidContracts(api, w) && Birth(w, t) && Step(api, w, o, t).Ok?
    ensures o.addresses != []
    ensures var s := Step(api, w, o, t).value;
            var a, d := o.addresses[0], t.sender;
            && Unused(api, w, a) && a != d && a in s.world.contracts
            && s.world == Plus(w, a, s.world.contracts[a])
            && s.world.contracts[a].creator == d && s.world.contracts[a].codeHash == t.out.codeHash
            && !s.world.contracts[a].storage.DealerStorage?
            && (s.world.contracts[a].storage.ChildStorage? ==>
                  && Unsubscribed(ChildAt(s.world, a))
                  && s.emitted == [Reply(d, Dealer.INSTANTIATE_SNIP721_REPLY_ID, a)])
            && (s.world.contracts[a].storage.ForeignStorage? ==> forall e | e in s.emitted :: Waiting(s.world, e))
  {
    var s := Step(api, w, o, t).value;
    var a := o.addresses[0];
    assert s.world == Plus(w, a, s.world.contracts[a]);
    PlusKeepsOld(api, w, a, s.world.contracts[a]);
  }

  lemma BirthLeavesWaiting(api: Api, w: World, o: Oracle, stack: seq<Task>)
    requires Inv(api, w, stack) && stack != [] && Birth(w, stack[0]) && Step(api, w, o, stack[0]).Ok?
    ensures var s := Step(api, w, o, stack[0]).value;
            var next := s.emitted + stack[1..];
            && o.addresses != [] && o.addresses[0] in s.world.contracts
            && (forall i | 0 < i < |next| :: Waiting(s.world, next[i]))
            && (s.world.contracts[o.addresses[0]].storage.ForeignStorage? && next != [] ==> Waiting(s.world, next[0]))
  {
    var s := Step(api, w, o, stack[0]).value;
    BirthEmits(api, w, o, stack[0]);
    var a := o.addresses[0];
    var x := s.world.contracts[a];
    var next := s.emitted + stack[1..];
    assert HeadOk(api, w, stack);
    forall i | 0 <= i < |next| && (i > 0 || x.storage.ForeignStorage?) ensures Waiting(s.world, next[i]) {
      if i >= |s.emitted| {
        var u := stack[i - |s.emitted| + 1];
        assert next[i] == u && u in stack[1..];
        PlusKeepsWaiting(api, w, a, x, u);
      } else {
        assert next[i] in s.emitted;
      }
    }
  }

  /** Over child code the new contract is introduced to its dealer; over foreign code the
      dealer stays without a pair, whatever the foreign constructor does. */
  lemma BirthKeepsInv(api: Api, w: World, o: Oracle, stack: seq<Task>)
    requires Inv(api, w, stack) && stack != [] && Birth(w, stack[0]) && Step(api, w, o, stack[0]).Ok?
    ensures var s := Step(api, w, o, stack[0]).value;
            Inv(api, s.world, s.emitted + stack[1..])
  {
    var s := Step(api, w, o, stack[0]).value;
    BirthEmits(api, w, o, stack[0]);
    BirthLeavesWaiting(api, w, o, stack);
    var a := o.addresses[0];
    PlusKeepsOld(api, w, a, s.world.contracts[a]);
    forall d, c | Pair(s.world, d, c) ensures PairOk(api, s.world, s.emitted + stack[1..], d, c) {
      BirthLeavesPairOk(api, w, o, stack, d, c);
    }
  }

  lemma BirthLeavesPairOk(api: Api, w: World, o: Oracle, stack: seq<Task>, d: Addr, c: Addr)
    requires Inv(api, w, stack) && stack != [] && Birth(w, stack[0]) && Step(api, w, o, stack[0]).Ok?
    requires ValidContracts(api, Step(api, w, o, stack[0]).value.world)
    requires Pair(Step(api, w, o, stack[0]).value.world, d, c)
    ensures var s := Step(api, w, o, stack[0]).value;
            PairOk(api, s.world, s.emitted + stack[1..], d, c)
  {
    var s := Step(api, w, o, stack[0]).value;
    BirthEmits(api, w, o, stack[0]);
    var a := o.addresses[0];
    var x := s.world.contracts[a];
    PlusKeepsOld(api, w, a, x);
    if c == a {
      assert Introduced(s.world, s.emitted + stack[1..], d, c);
    } else {
      assert Pair(w, d, c);
      UnrelatedHolds(api, w, stack, d, c);
      PlusKeepsHolds(api, w, a, x, d, c);
    }
  }

  /** A reply to a contract that has no child. */
  lemma ReplyKeepsInv(api: Api, w: World, o: Oracle, stack: seq<Task>)
    requires Inv(api, w, stack) && stack != [] && stack[0].Reply? && Waiting(w, stack[0])
    requires Step(api, w, o, stack[0]).Ok?
    ensures var s := Step(api, w, o, stack[0]).value;
            Inv(api, s.world, s.emitted + stack[1..])
  {
    var t := stack[0];
    var s := Step(api, w, o, t).value;
    assert ChangesOnly(w, s.world, t.contract);
    PairsStay(w, s.world, t.contract);
    if w.contracts[t.contract].storage.DealerStorage? {
      RepliesAreQuiet(api, Info(w, t.contract), DealerAt(w, t.contract), t.id, t.instantiated);
    }
    Queue(api, w, s.world, s.emitted, stack);
    forall d, c | Pair(s.world, d, c) ensures PairOk(api, s.world, s.emitted + stack[1..], d, c) {
      assert Pair(w, d, c) && PairOk(api, w, stack, d, c);
      UnrelatedHolds(api, w, stack, d, c);
      HoldsElsewhere(api, w, s.world, t.contract, d, c);
    }
  }
}
