/** When a migration commits, what it commits to, and why the order of migrations on the two
    sides of a pair does not matter. */
module Migration {
  import opened Types
  import opened Wire
  import opened Subscribers
  import opened Chain
  import opened Link
  import opened Conserved
  import opened Runs

  /** What the chain asks of a migration before any contract code runs. */
  predicate Authorised(w: World, sender: Addr, k: Addr, codeHash: CodeHash) {
    && k in w.contracts && w.contracts[k].wasmAdmin == Some(sender)
    && codeHash in w.codes && w.codes[codeHash] == ProgramOf(w.contracts[k].storage)
  }

  // ---------- when a broadcast goes through ----------

  /** The recipient exists under the stored code hash and its listener takes a notice from `k`:
      a child takes any, a dealer only one from the contract it holds as its child. */
  predicate Takes(api: Api, w: World, k: Addr, recipient: ContractInfo)
    requires api.Valid(k)
  {
    && recipient.address in w.contracts
    && w.contracts[recipient.address].codeHash == recipient.codeHash
    && (w.contracts[recipient.address].storage.DealerStorage? ==>
          w.contracts[recipient.address].storage.dealer.childAddress == Some(api.Canon(k)))
  }

  function Notice(w: World, k: Addr, recipient: ContractInfo): Task
    requires k in w.contracts
  {
    Call(k, Notification(recipient, Info(w, k)))
  }

  /** Foreign contracts that only accept or refuse; what they would send is not considered. */
  predicate Silent(o: Oracle) {
    forall r | r in o.reactions :: r == Reject || r == Emit([])
  }

  /** The same of the next one that is called. */
  predicate NextIsSilent(o: Oracle) {
    o.reactions == [] || o.reactions[0] == Reject || o.reactions[0] == Emit([])
  }

  predicate Refuses(o: Oracle) {
    o.reactions != [] && o.reactions[0] == Reject
  }

  function Answered(o: Oracle, byForeign: bool): Oracle {
    if byForeign && o.reactions != [] then o.(reactions := o.reactions[1..]) else o
  }

  lemma NoticeIsTaken(api: Api, w: World, o: Oracle, k: Addr, recipient: ContractInfo)
    requires k in w.contracts && api.Valid(k) && (IsForeign(w, recipient.address) ==> NextIsSilent(o))
    ensures var s := Step(api, w, o, Notice(w, k, recipient));
            && (s.Ok? <==> Takes(api, w, k, recipient) && (IsForeign(w, recipient.address) ==> !Refuses(o)))
            && (s.Ok? ==> s.value.oracle == Answered(o, IsForeign(w, recipient.address)) && s.value.emitted == [])
  {
    var l := MigrationComplete(Info(w, k), None);
    ListenerRoundTrip(l);
    ChildAttemptsCommute(EncodeListener(l));
    DealerAttemptsCommute(EncodeListener(l));
  }

  /** A delivered notice leaves the other recipients as willing as they were. */
  lemma NoticeKeepsTakes(api: Api, w: World, o: Oracle, k: Addr, recipient: ContractInfo)
    requires k in w.contracts && api.Valid(k)
    requires Step(api, w, o, Notice(w, k, recipient)).Ok?
    ensures var w' := Step(api, w, o, Notice(w, k, recipient)).value.world;
            && Info(w', k) == Info(w, k)
            && (forall r :: Takes(api, w', k, r) <==> Takes(api, w, k, r))
            && forall a :: IsForeign(w', a) <==> IsForeign(w, a)
  {
    var l := MigrationComplete(Info(w, k), None);
    ListenerRoundTrip(l);
    DealerAttemptsCommute(EncodeListener(l));
    ExecuteChangesOnly(api, w, o, Notice(w, k, recipient));
  }

  function ForeignAmong(w: World, recipients: seq<ContractInfo>): nat
    decreases |recipients|
  {
    if recipients == [] then 0
    else (if IsForeign(w, recipients[0].address) then 1 else 0) + ForeignAmong(w, recipients[1..])
  }

  /** None of the first `n` foreign answers is a refusal. */
  predicate NoRefusal(o: Oracle, n: nat) {
    forall i | 0 <= i < |o.reactions| && i < n :: o.reactions[i] != Reject
  }

  lemma NoRefusalSplits(o: Oracle, foreign: bool, n: nat)
    ensures var count := if foreign then 1 + n else n;
            NoRefusal(o, count) <==> (foreign ==> !Refuses(o)) && NoRefusal(Answered(o, foreign), n)
  {
  }

  lemma ForeignAmongStays(w: World, w': World, recipients: seq<ContractInfo>)
    requires forall a :: IsForeign(w', a) <==> IsForeign(w, a)
    ensures ForeignAmong(w', recipients) == ForeignAmong(w, recipients)
    decreases |recipients|
  {
  }

  lemma SilentComesNext(o: Oracle)
    requires Silent(o)
    ensures NextIsSilent(o)
  {
    assert o.reactions != [] ==> o.reactions[0] in o.reactions;
  }

  lemma AnswersStaySilent(o: Oracle, byForeign: bool)
    requires Silent(o)
    ensures Silent(Answered(o, byForeign))
  {
    if byForeign && o.reactions != [] {
      assert forall r | r in o.reactions[1..] :: r in o.reactions;
    }
  }

  function Notices(w: World, k: Addr, recipients: seq<ContractInfo>): seq<Task>
    requires k in w.contracts
  {
    Stamped(k, Broadcast(Info(w, k), recipients))
  }

  lemma FirstIsDelivered(api: Api, w: World, o: Oracle, k: Addr, recipients: seq<ContractInfo>) returns (w1: World)
    requires k in w.contracts && api.Valid(k) && Silent(o) && recipients != []
    requires Takes(api, w, k, recipients[0]) && (IsForeign(w, recipients[0].address) ==> !Refuses(o))
    ensures k in w1.contracts && Info(w1, k) == Info(w, k)
    ensures Run(api, w, o, Notices(w, k, recipients)) ==
            Run(api, w1, Answered(o, IsForeign(w, recipients[0].address)), Notices(w1, k, recipients[1..]))
    ensures forall r :: Takes(api, w1, k, r) <==> Takes(api, w, k, r)
    ensures forall a :: IsForeign(w1, a) <==> IsForeign(w, a)
  {
    var task := Notice(w, k, recipients[0]);
    var rest := Notices(w, k, recipients[1..]);
    assert Notices(w, k, recipients) == [task] + rest;
    SilentComesNext(o);
    NoticeIsTaken(api, w, o, k, recipients[0]);
    NoticeKeepsTakes(api, w, o, k, recipients[0]);
    var s := Step(api, w, o, task).value;
    RunFollows(api, w, o, task, rest, s);
    assert s.emitted + rest == rest;
    w1 := s.world;
  }

  lemma FirstIsRefused(api: Api, w: World, o: Oracle, k: Addr, recipients: seq<ContractInfo>)
    requires k in w.contracts && api.Valid(k) && Silent(o) && recipients != []
    requires !(Takes(api, w, k, recipients[0]) && (IsForeign(w, recipients[0].address) ==> !Refuses(o)))
    ensures Run(api, w, o, Notices(w, k, recipients)).Err?
  {
    var task := Notice(w, k, recipients[0]);
    var rest := Notices(w, k, recipients[1..]);
    assert Notices(w, k, recipients) == [task] + rest;
    SilentComesNext(o);
    NoticeIsTaken(api, w, o, k, recipients[0]);
    RunStops(api, w, o, task, rest);
  }

  lemma {:induction false} BroadcastGoesThrough(api: Api, w: World, o: Oracle, k: Addr, recipients: seq<ContractInfo>)
    requires k in w.contracts && api.Valid(k) && Silent(o)
    ensures Run(api, w, o, Notices(w, k, recipients)).Ok? <==>
            (forall r | r in recipients :: Takes(api, w, k, r)) && NoRefusal(o, ForeignAmong(w, recipients))
    decreases |recipients|
  {
    if recipients != [] {
      var first, others := recipients[0], recipients[1..];
      assert forall r :: r in recipients <==> r == first || r in others;
      NoRefusalSplits(o, IsForeign(w, first.address), ForeignAmong(w, others));
      if Takes(api, w, k, first) && (IsForeign(w, first.address) ==> !Refuses(o)) {
        var w1 := FirstIsDelivered(api, w, o, k, recipients);
        ForeignAmongStays(w, w1, others);
        AnswersStaySilent(o, IsForeign(w, first.address));
        BroadcastGoesThrough(api, w1, Answered(o, IsForeign(w, first.address)), k, others);
      } else {
        FirstIsRefused(api, w, o, k, recipients);
      }
    }
  }

  function StoredSubscribers(s: Storage): SubscriberList {
    match s
    case DealerStorage(x) => x.subscribers.GetOr([])
    case ChildStorage(x) => x.subscribers.GetOr([])
    case ForeignStorage => []
  }

  /** A stored subscriber that a notice from `k` reaches. */
  predicate Hears(api: Api, w: World, k: Addr, e: CanonicalContractInfo)
    requires api.Valid(k)
  {
    var r := api.HumanizeInfo(e);
    r.Ok? && Takes(api, w, k, r.value)
  }

  /** A stored subscriber that a migration of `k` to `codeHash` will reach. */
  predicate Reachable(api: Api, w: World, k: Addr, codeHash: CodeHash, e: CanonicalContractInfo)
    requires api.Valid(k) && k in w.contracts
  {
    Hears(api, WithCode(w, k, codeHash), k, e)
  }

  function HumanForm(api: Api, list: SubscriberList): seq<ContractInfo> {
    match HumanizeAll(api, list)
    case Ok(infos) => infos
    case Err => []
  }

  /** Main result: when foreign subscribers do no more than accept or refuse, a migration of
      either contract commits exactly when the chain allows it, every stored subscriber can be
      reached, and no foreign one refuses. */
  lemma MigrationCommitsIff(api: Api, w: World, o: Oracle, sender: Addr, k: Addr, codeHash: CodeHash)
    requires Ours(w, k) && api.Valid(k) && Silent(o)
    ensures var list := StoredSubscribers(w.contracts[k].storage);
            Run(api, w, o, [Call(sender, Migrate(k, codeHash))]).Ok? <==>
            && Authorised(w, sender, k, codeHash)
            && (forall e | e in list :: Reachable(api, w, k, codeHash, e))
            && NoRefusal(o, ForeignAmong(w, HumanForm(api, list)))
  {
    var t := Call(sender, Migrate(k, codeHash));
    RunLast(api, w, o, t);
    if Authorised(w, sender, k, codeHash) {
      var w' := WithCode(w, k, codeHash);
      var list := StoredSubscribers(w.contracts[k].storage);
      HumanizeAllIsPointwise(api, list);
      if HumanizeAll(api, list).Ok? {
        var recipients := HumanizeAll(api, list).value;
        BroadcastGoesThrough(api, w', o, k, recipients);
        ForeignAmongStays(w, w', recipients);
        EachRecipientIsStored(api, w', k, list, recipients);
      }
    }
  }

  lemma EachRecipientIsStored(api: Api, w: World, k: Addr, list: SubscriberList, recipients: seq<ContractInfo>)
    requires api.Valid(k) && |recipients| == |list|
    requires forall i | 0 <= i < |list| :: api.HumanizeInfo(list[i]) == Ok(recipients[i])
    ensures (forall r | r in recipients :: Takes(api, w, k, r)) <==>
            (forall e | e in list :: Hears(api, w, k, e))
  {
    assert forall i | 0 <= i < |list| :: Hears(api, w, k, list[i]) <==> Takes(api, w, k, recipients[i]);
    assert forall i | 0 <= i < |list| :: list[i] in list && recipients[i] in recipients;
  }

  // ---------- what a pair's migration commits to ----------

  /** The pair `d`, `c` moved to the code hashes `hd` and `hc`, everything else untouched. */
  function Relinked(api: Api, w: World, d: Addr, c: Addr, hd: CodeHash, hc: CodeHash): World
    requires Pair(w, d, c) && api.Valid(d) && api.Valid(c)
  {
    var child := CanonicalContractInfo(api.Canon(c), hc);
    var s := DealerAt(w, d).(
             childCodeHash := Some(hc),
             subscribers := UpdatedStored(DealerAt(w, d).subscribers, api.Canon(c), child));
    var t := ChildAt(w, c).(subscribers := Some([CanonicalContractInfo(api.Canon(d), hd)]));
    w.(contracts := w.contracts[
       d := w.contracts[d].(codeHash := hd, storage := DealerStorage(s))][
       c := w.contracts[c].(codeHash := hc, storage := ChildStorage(t))])
  }

  /** The dealer has no subscriber but its child. */
  predicate Exclusive(w: World, d: Addr)
    requires d in w.contracts && w.contracts[d].storage.DealerStorage?
  {
    var s := DealerAt(w, d).subscribers;
    s.Some? && |s.value| == 1
  }

  lemma RelinkedIsLinked(api: Api, w: World, d: Addr, c: Addr, hd: CodeHash, hc: CodeHash)
    requires Pair(w, d, c) && api.Valid(d) && api.Valid(c) && Linked(api, w, d, c)
    ensures var w' := Relinked(api, w, d, c, hd, hc);
            && Pair(w', d, c) && Linked(api, w', d, c)
            && Info(w', d).codeHash == hd && Info(w', c).codeHash == hc
            && (Exclusive(w, d) ==> Exclusive(w', d))
  {
  }

  /** A dealer that its child knows hears of the child's migration and cannot make it fail. */
  lemma DealerFollows(api: Api, w: World, o: Oracle, d: Addr, c: Addr, hc: CodeHash)
    requires Pair(w, d, c) && api.Valid(d) && api.Valid(c) && Linked(api, w, d, c)
    ensures var w1 := WithCode(w, c, hc);
            Run(api, w1, o, [Notice(w1, c, Info(w, d))]) ==
            Ok(Relinked(api, w, d, c, w.contracts[d].codeHash, hc))
  {
    var w1 := WithCode(w, c, hc);
    var l := MigrationComplete(Info(w1, c), None);
    ListenerRoundTrip(l);
    DealerAttemptsCommute(EncodeListener(l));
    RunLast(api, w1, o, Notice(w1, c, Info(w, d)));
    var w2 := Step(api, w1, o, Notice(w1, c, Info(w, d))).value.world;
    var w3 := Relinked(api, w, d, c, w.contracts[d].codeHash, hc);
    assert ChildAt(w, c).subscribers.value == ChildAt(w3, c).subscribers.value;
    assert w2.contracts[d] == w3.contracts[d] && w2.contracts[c] == w3.contracts[c];
    assert w2.contracts == w3.contracts;
  }

  lemma ChildFollows(api: Api, w: World, o: Oracle, d: Addr, c: Addr, hd: CodeHash)
    requires Pair(w, d, c) && api.Valid(d) && api.Valid(c) && Holds(api, w, d, c) && Exclusive(w, d)
    ensures var w1 := WithCode(w, d, hd);
            Run(api, w1, o, [Notice(w1, d, Info(w, c))]) ==
            Ok(Relinked(api, w, d, c, hd, w.contracts[c].codeHash))
  {
    var w1 := WithCode(w, d, hd);
    var l := MigrationComplete(Info(w1, d), None);
    ListenerRoundTrip(l);
    ChildAttemptsCommute(EncodeListener(l));
    RunLast(api, w1, o, Notice(w1, d, Info(w, c)));
    var w2 := Step(api, w1, o, Notice(w1, d, Info(w, c))).value.world;
    var w3 := Relinked(api, w, d, c, hd, w.contracts[c].codeHash);
    assert DealerAt(w, d).subscribers.value == DealerAt(w3, d).subscribers.value;
    assert ChildAt(w2, c).subscribers.value == ChildAt(w3, c).subscribers.value;
    assert w2.contracts[d] == w3.contracts[d] && w2.contracts[c] == w3.contracts[c];
    assert w2.contracts == w3.contracts;
  }

  /** Main result: a child's migration commits if and only if the chain allows it and the child
      knows its dealer's current hash; both sides then know each other. */
  lemma ChildMigrationIsExact(api: Api, w: World, o: Oracle, sender: Addr, d: Addr, c: Addr, hc: CodeHash)
    requires Pair(w, d, c) && api.Valid(d) && api.Valid(c) && Holds(api, w, d, c)
    ensures Run(api, w, o, [Call(sender, Migrate(c, hc))]) ==
            if Authorised(w, sender, c, hc) && ChildIsCurrent(w, d, c)
            then Ok(Relinked(api, w, d, c, w.contracts[d].codeHash, hc)) else Err
  {
    var t := Call(sender, Migrate(c, hc));
    RunLast(api, w, o, t);
    if Authorised(w, sender, c, hc) {
      var w1 := WithCode(w, c, hc);
      var list := ChildAt(w, c).subscribers.value;
      var dealer := ContractInfo(d, list[0].codeHash);
      assert list == [list[0]];
      SoleRecipient(api, Info(w1, c), list[0], dealer);
      assert Stamped(c, [Notification(dealer, Info(w1, c))]) == [Notice(w1, c, dealer)];
      if ChildIsCurrent(w, d, c) {
        DealerFollows(api, w, o, d, c, hc);
      } else {
        RunLast(api, w1, o, Notice(w1, c, dealer));
      }
    }
  }

  /** The migration of a dealer with no other subscriber commits if and only if the chain allows
      it, and repairs what the child may have missed. */
  lemma DealerMigrationIsExact(api: Api, w: World, o: Oracle, sender: Addr, d: Addr, c: Addr, hd: CodeHash)
    requires Pair(w, d, c) && api.Valid(d) && api.Valid(c) && Holds(api, w, d, c) && Exclusive(w, d)
    ensures Run(api, w, o, [Call(sender, Migrate(d, hd))]) ==
            if Authorised(w, sender, d, hd)
            then Ok(Relinked(api, w, d, c, hd, w.contracts[c].codeHash)) else Err
  {
    var t := Call(sender, Migrate(d, hd));
    RunLast(api, w, o, t);
    if Authorised(w, sender, d, hd) {
      var w1 := WithCode(w, d, hd);
      var list := DealerAt(w, d).subscribers.value;
      assert list == [list[0]];
      SoleRecipient(api, Info(w1, d), list[0], Info(w, c));
      assert Stamped(d, [Notification(Info(w, c), Info(w1, d))]) == [Notice(w1, d, Info(w, c))];
      ChildFollows(api, w, o, d, c, hd);
    }
  }

  /** Main result: in every reachable world a child's migration commits exactly when the chain
      allows it and the child is up to date, which it is unless a foreign contract can migrate
      the dealer: the dealer never stands in the way. */
  lemma ChildMigrationsGoThrough(api: Api, w: World, txs: seq<Tx>, o: Oracle, sender: Addr,
                                 d: Addr, c: Addr, hc: CodeHash)
    requires AllLinked(api, w) && Proper(api, w, txs) && Pair(w, d, c)
    ensures var w' := History(api, w, txs);
            && Pair(w', d, c) && ValidContracts(api, w')
            && (InForeignHands(w', d) || ChildIsCurrent(w', d, c))
            && Run(api, w', o, [Call(sender, Migrate(c, hc))]) ==
               if Authorised(w', sender, c, hc) && ChildIsCurrent(w', d, c)
               then Ok(Relinked(api, w', d, c, w'.contracts[d].codeHash, hc)) else Err
  {
    var w' := History(api, w, txs);
    EveryHistoryLinks(api, w, txs);
    HistorySettles(api, w, txs);
    SettledPairsStay(w, w');
    ChildMigrationIsExact(api, w', o, sender, d, c, hc);
  }

  // ---------- interleavings ----------

  datatype Side = OnDealer | OnChild

  datatype Upgrade = Upgrade(side: Side, sender: Addr, codeHash: CodeHash, oracle: Oracle)

  function SideAddr(side: Side, d: Addr, c: Addr): Addr {
    if side == OnDealer then d else c
  }

  /** A sequence of migrations of either side; a refused one leaves no trace. */
  function Upgraded(api: Api, w: World, d: Addr, c: Addr, ops: seq<Upgrade>): World
    decreases |ops|
  {
    if ops == [] then w
    else
      var op := ops[0];
      match Run(api, w, op.oracle, [Call(op.sender, Migrate(SideAddr(op.side, d, c), op.codeHash))])
      case Ok(w') => Upgraded(api, w', d, c, ops[1..])
      case Err => Upgraded(api, w, d, c, ops[1..])
  }

  /** The migrations of one side, in their own order. */
  function Only(ops: seq<Upgrade>, side: Side): seq<Upgrade>
    decreases |ops|
  {
    if ops == [] then []
    else if ops[0].side == side then [ops[0]] + Only(ops[1..], side)
    else Only(ops[1..], side)
  }

  /** The hash of the last migration of one side that the chain allows. */
  function LastHash(w: World, k: Addr, side: Side, ops: seq<Upgrade>, current: CodeHash): CodeHash
    decreases |ops|
  {
    if ops == [] then current
    else if ops[0].side == side && Authorised(w, ops[0].sender, k, ops[0].codeHash)
    then LastHash(w, k, side, ops[1..], ops[0].codeHash)
    else LastHash(w, k, side, ops[1..], current)
  }

  lemma {:induction false} LastHashSeesOneSide(w: World, k: Addr, side: Side, ops: seq<Upgrade>, current: CodeHash)
    ensures LastHash(w, k, side, ops, current) == LastHash(w, k, side, Only(ops, side), current)
    decreases |ops|
  {
    if ops != [] {
      var next := if ops[0].side == side && Authorised(w, ops[0].sender, k, ops[0].codeHash)
      then ops[0].codeHash else current;
      LastHashSeesOneSide(w, k, side, ops[1..], next);
      if ops[0].side == side {
        assert Only(ops, side)[1..] == Only(ops[1..], side);
      }
    }
  }

  lemma RelinkedTwice(api: Api, w: World, d: Addr, c: Addr, hd: CodeHash, hc: CodeHash, hd': CodeHash, hc': CodeHash)
    requires Pair(w, d, c) && api.Valid(d) && api.Valid(c)
    ensures Pair(Relinked(api, w, d, c, hd, hc), d, c)
    ensures Relinked(api, Relinked(api, w, d, c, hd, hc), d, c, hd', hc') == Relinked(api, w, d, c, hd', hc')
  {
    var a := Relinked(api, Relinked(api, w, d, c, hd, hc), d, c, hd', hc');
    var b := Relinked(api, w, d, c, hd', hc');
    var s := DealerAt(w, d).subscribers;
    if s.Some? {
      var x, y := CanonicalContractInfo(api.Canon(c), hc), CanonicalContractInfo(api.Canon(c), hc');
      assert Updated(Updated(s.value, api.Canon(c), x), api.Canon(c), y) == Updated(s.value, api.Canon(c), y);
    }
    assert a.contracts[d] == b.contracts[d];
    assert a.contracts == b.contracts;
  }

  lemma RelinkedToItself(api: Api, w: World, d: Addr, c: Addr)
    requires Pair(w, d, c) && api.Valid(d) && api.Valid(c) && Linked(api, w, d, c) && Exclusive(w, d)
    ensures Relinked(api, w, d, c, w.contracts[d].codeHash, w.contracts[c].codeHash) == w
  {
    var w' := Relinked(api, w, d, c, w.contracts[d].codeHash, w.contracts[c].codeHash);
    assert DealerAt(w', d).subscribers.value == DealerAt(w, d).subscribers.value;
    assert ChildAt(w', c).subscribers.value == ChildAt(w, c).subscribers.value;
    assert w'.contracts == w.contracts;
  }

  lemma AuthorityStays(api: Api, w: World, d: Addr, c: Addr, hd: CodeHash, hc: CodeHash)
    requires Pair(w, d, c) && api.Valid(d) && api.Valid(c)
    ensures forall sender, k, h ::
              Authorised(Relinked(api, w, d, c, hd, hc), sender, k, h) <==> Authorised(w, sender, k, h)
  {
  }

  lemma LastHashStays(w: World, w': World, k: Addr, side: Side, ops: seq<Upgrade>, current: CodeHash)
    requires forall sender, h :: Authorised(w', sender, k, h) <==> Authorised(w, sender, k, h)
    ensures LastHash(w', k, side, ops, current) == LastHash(w, k, side, ops, current)
    decreases |ops|
  {
  }

  /** Any interleaving ends in the world that the last allowed migration of each side names. */
  lemma {:induction false} UpgradesHaveAClosedForm(api: Api, w: World, d: Addr, c: Addr, ops: seq<Upgrade>)
    requires Pair(w, d, c) && api.Valid(d) && api.Valid(c) && Linked(api, w, d, c) && Exclusive(w, d)
    ensures Upgraded(api, w, d, c, ops) ==
            Relinked(api, w, d, c, LastHash(w, d, OnDealer, ops, w.contracts[d].codeHash),
                     LastHash(w, c, OnChild, ops, w.contracts[c].codeHash))
    decreases |ops|
  {
    var hd, hc := w.contracts[d].codeHash, w.contracts[c].codeHash;
    if ops == [] {
      RelinkedToItself(api, w, d, c);
    } else {
      var op := ops[0];
      var k := SideAddr(op.side, d, c);
      if op.side == OnDealer {
        DealerMigrationIsExact(api, w, op.oracle, op.sender, d, c, op.codeHash);
      } else {
        ChildMigrationIsExact(api, w, op.oracle, op.sender, d, c, op.codeHash);
      }
      if Authorised(w, op.sender, k, op.codeHash) {
        var hd' := if op.side == OnDealer then op.codeHash else hd;
        var hc' := if op.side == OnDealer then hc else op.codeHash;
        var w' := Relinked(api, w, d, c, hd', hc');
        RelinkedIsLinked(api, w, d, c, hd', hc');
        UpgradesHaveAClosedForm(api, w', d, c, ops[1..]);
        AuthorityStays(api, w, d, c, hd', hc');
        LastHashStays(w, w', d, OnDealer, ops[1..], hd');
        LastHashStays(w, w', c, OnChild, ops[1..], hc');
        RelinkedTwice(api, w, d, c, hd', hc', LastHash(w, d, OnDealer, ops[1..], hd'),
                      LastHash(w, c, OnChild, ops[1..], hc'));
      } else {
        UpgradesHaveAClosedForm(api, w, d, c, ops[1..]);
      }
    }
  }

  /** Main result: two interleavings of the same migrations per side end in the same world. */
  lemma InterleavingDoesNotMatter(api: Api, w: World, d: Addr, c: Addr, ops: seq<Upgrade>, ops': seq<Upgrade>)
    requires Pair(w, d, c) && api.Valid(d) && api.Valid(c) && Linked(api, w, d, c) && Exclusive(w, d)
    requires Only(ops, OnDealer) == Only(ops', OnDealer) && Only(ops, OnChild) == Only(ops', OnChild)
    ensures Upgraded(api, w, d, c, ops) == Upgraded(api, w, d, c, ops')
  {
    UpgradesHaveAClosedForm(api, w, d, c, ops);
    UpgradesHaveAClosedForm(api, w, d, c, ops');
    LastHashSeesOneSide(w, d, OnDealer, ops, w.contracts[d].codeHash);
    LastHashSeesOneSide(w, d, OnDealer, ops', w.contracts[d].codeHash);
    LastHashSeesOneSide(w, c, OnChild, ops, w.contracts[c].codeHash);
    LastHashSeesOneSide(w, c, OnChild, ops', w.contracts[c].codeHash);
  }
}
