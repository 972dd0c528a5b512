/** Exactly which pairs stay linked: if a foreign contract can come to migrate the dealer, an
    outside account can have the link broken; otherwise nothing breaks it. */
module Apart {
  import opened Types
  import opened Wire
  import opened Subscribers
  import opened Chain
  import opened Logs
  import opened Link
  import opened Conserved
  import opened Handshake
  import opened LinkKept
  import opened Runs
  import opened Migration

  // ---------- who can come to be a foreign contract ----------

  /** It is one, or the chain can still hand its address out to one. */
  predicate CanBecomeForeign(api: Api, w: World, a: Addr) {
    IsForeign(w, a) || (Unused(api, w, a) && exists h | h in w.codes :: w.codes[h] == ForeignProgram)
  }

  /** The dealer's migrator is or can become a foreign contract. */
  predicate InReach(api: Api, w: World, d: Addr) {
    d in w.contracts && w.contracts[d].wasmAdmin.Some? && CanBecomeForeign(api, w, w.contracts[d].wasmAdmin.value)
  }

  /** A new contract gets an unused address, and its code from the store. */
  lemma NewcomersAreUnused(api: Api, w: World, o: Oracle, t: Task, a: Addr)
    requires Step(api, w, o, t).Ok? && a !in w.contracts && a in Step(api, w, o, t).value.world.contracts
    ensures Unused(api, w, a) && t.Call? && t.out.Instantiate? && t.out.codeHash in w.codes
    ensures ProgramOf(Step(api, w, o, t).value.world.contracts[a].storage) == w.codes[t.out.codeHash]
  {
    if t.Call? && t.out.Execute? {
      ExecuteChangesOnly(api, w, o, t);
    }
  }

  lemma StepBringsNoneInReach(api: Api, e: Entry, a: Addr)
    requires IsStep(api, e) && CanBecomeForeign(api, e.after, a)
    ensures CanBecomeForeign(api, e.before, a)
  {
    StepSettles(api, e.before, e.oracle, e.task);
    if a !in e.before.contracts && a in e.after.contracts {
      NewcomersAreUnused(api, e.before, e.oracle, e.task, a);
    }
  }

  /** Over any steps an address that cannot become a foreign contract stays so. */
  lemma {:induction false} LogBringsNoneInReach(api: Api, w: World, log: seq<Entry>, w': World, a: Addr)
    requires Chained(api, w, log, w') && CanBecomeForeign(api, w', a)
    ensures CanBecomeForeign(api, w, a)
    decreases |log|
  {
    if log != [] {
      LogBringsNoneInReach(api, log[0].after, log[1..], w', a);
      StepBringsNoneInReach(api, log[0], a);
    }
  }

  /** At the end of every history. */
  ghost predicate StaysLinked(api: Api, w: World, d: Addr, c: Addr) {
    forall txs | Proper(api, w, txs) ::
      var w' := History(api, w, txs);
      Pair(w', d, c) && api.Valid(d) && api.Valid(c) && Linked(api, w', d, c)
  }

  lemma OutOfReachStaysLinked(api: Api, w: World, d: Addr, c: Addr)
    requires AllLinked(api, w) && Pair(w, d, c) && !InReach(api, w, d)
    ensures StaysLinked(api, w, d, c)
  {
    forall txs | Proper(api, w, txs)
      ensures var w' := History(api, w, txs); Pair(w', d, c) && Linked(api, w', d, c)
    {
      var w' := History(api, w, txs);
      EveryHistoryLinks(api, w, txs);
      HistorySettles(api, w, txs);
      SettledPairsStay(w, w');
      if InForeignHands(w', d) {
        HistoryIsChained(api, w, txs);
        LogBringsNoneInReach(api, w, HistoryLog(api, w, txs), w', w'.contracts[d].wasmAdmin.value);
      }
    }
  }

  // ---------- the scene of a parting ----------

  /** A pair `d`, `c` whose dealer the foreign contract `x` may migrate, and the dealer's list. */
  datatype Scene = Scene(api: Api, d: Addr, c: Addr, x: Addr, list: SubscriberList) {
    /** The dealer runs the code `hd`, the child believes it to run `seen`, and everybody on the
        dealer's list can be told. */
    predicate At(w: World, hd: CodeHash, seen: CodeHash) {
      && ValidContracts(api, w) && Pair(w, d, c) && w.contracts[d].codeHash == hd
      && w.contracts[d].wasmAdmin == Some(x) && IsForeign(w, x)
      && DealerAt(w, d).childAddress == Some(api.Canon(c)) && DealerAt(w, d).subscribers == Some(list)
      && ChildAt(w, c).subscribers == Some([CanonicalContractInfo(api.Canon(d), seen)])
      && forall e | e in list :: Hears(api, w, d, e)
    }

    /** The list starts with the child and ends with `x` and the child once more. */
    predicate Crowded(w: World, others: SubscriberList) {
      && c in w.contracts && x in w.contracts && api.Valid(c) && api.Valid(x)
      && list == [Stored(w, c)] + others + [Stored(w, x), Stored(w, c)]
    }

    function Stored(w: World, k: Addr): CanonicalContractInfo
      requires k in w.contracts && api.Valid(k)
    {
      CanonicalContractInfo(api.Canon(k), w.contracts[k].codeHash)
    }

    function Told(w: World, k: Addr, hd: CodeHash): Task
      requires k in w.contracts
    {
      Call(d, Notification(Info(w, k), ContractInfo(d, hd)))
    }

    function Upgrading(hd: CodeHash): Task {
      Call(x, Migrate(d, hd))
    }

    /** Nothing but what the dealer and the child have stored, and the dealer's code, is new. */
    ghost predicate SameSet(w: World, w': World) {
      && w'.codes == w.codes && (forall a :: IsForeign(w', a) <==> IsForeign(w, a))
      && (c in w.contracts ==> c in w'.contracts && w'.contracts[c].codeHash == w.contracts[c].codeHash)
      && (x in w.contracts ==> x in w'.contracts && w'.contracts[x].codeHash == w.contracts[x].codeHash)
    }
  }

  lemma ChildHears(s: Scene, w: World, hd: CodeHash, seen: CodeHash, told: CodeHash, o: Oracle) returns (w': World)
    requires s.At(w, hd, seen)
    ensures Step(s.api, w, o, s.Told(w, s.c, told)) == Ok(Stepped(w', o, []))
    ensures s.At(w', hd, told) && s.SameSet(w, w')
  {
    var l := MigrationComplete(ContractInfo(s.d, told), None);
    ListenerRoundTrip(l);
    ChildAttemptsCommute(EncodeListener(l));
    var t := s.Told(w, s.c, told);
    w' := Step(s.api, w, o, t).value.world;
    ExecuteChangesOnly(s.api, w, o, t);
    var from, entry := s.api.Canon(s.d), CanonicalContractInfo(s.api.Canon(s.d), told);
    assert Updated(ChildAt(w, s.c).subscribers.value, from, entry) == [entry];
    forall e | e in s.list ensures Hears(s.api, w', s.d, e) {
      assert Hears(s.api, w, s.d, e);
    }
  }

  lemma ChildListens(s: Scene, w: World, hd: CodeHash, seen: CodeHash, told: CodeHash, o: Oracle, rest: seq<Task>)
    returns (w': World)
    requires s.At(w, hd, seen)
    ensures Run(s.api, w, o, [s.Told(w, s.c, told)] + rest) == Run(s.api, w', o, rest)
    ensures s.At(w', hd, told) && s.SameSet(w, w')
  {
    w' := ChildHears(s, w, hd, seen, told, o);
    RunFollows(s.api, w, o, s.Told(w, s.c, told), rest, Stepped(w', o, []));
    assert [] + rest == rest;
  }

  /** A notice of the present code changes nothing that matters here. */
  lemma SceneGoesOn(s: Scene, w: World, hd: CodeHash, o: Oracle, r: ContractInfo)
    requires s.At(w, hd, hd) && Takes(s.api, w, s.d, r) && Step(s.api, w, o, Notice(w, s.d, r)).Ok?
    ensures var w' := Step(s.api, w, o, Notice(w, s.d, r)).value.world;
            s.At(w', hd, hd) && s.SameSet(w, w')
  {
    var t := Notice(w, s.d, r);
    var w' := Step(s.api, w, o, t).value.world;
    ExecuteChangesOnly(s.api, w, o, t);
    NoticeKeepsTakes(s.api, w, o, s.d, r);
    assert r.address != s.d by {
      if r.address == s.d {
        CanonInjective(s.api, s.c, s.d);
      }
    }
    if r.address == s.c {
      var next := ChildHears(s, w, hd, hd, hd, o);
    }
    forall e | e in s.list ensures Hears(s.api, w', s.d, e) {
      assert Hears(s.api, w, s.d, e);
    }
  }

  /** The first `n` foreign answers are acceptance and silence. */
  predicate Patient(o: Oracle, n: nat) {
    forall i | 0 <= i < |o.reactions| && i < n :: o.reactions[i] == Emit([])
  }

  function Later(o: Oracle, n: nat): Oracle {
    o.(reactions := if n <= |o.reactions| then o.reactions[n..] else [])
  }

  lemma PatientFirst(o: Oracle, foreign: bool, n: nat)
    requires Patient(o, if foreign then 1 + n else n)
    ensures foreign ==> NextIsSilent(o) && !Refuses(o)
    ensures Patient(Answered(o, foreign), n)
    ensures Later(Answered(o, foreign), n) == Later(o, if foreign then 1 + n else n)
  {
  }

  /** Notices of the present code go through to everybody who can be told. */
  lemma {:induction false} Broadcasted(s: Scene, w: World, hd: CodeHash, recipients: seq<ContractInfo>, o: Oracle,
                                       rest: seq<Task>) returns (w': World)
    requires s.At(w, hd, hd) && (forall r | r in recipients :: Takes(s.api, w, s.d, r))
    requires Patient(o, ForeignAmong(w, recipients))
    ensures Run(s.api, w, o, Notices(w, s.d, recipients) + rest) ==
            Run(s.api, w', Later(o, ForeignAmong(w, recipients)), rest)
    ensures s.At(w', hd, hd) && s.SameSet(w, w')
    decreases |recipients|
  {
    if recipients == [] {
      w' := w;
      assert Notices(w, s.d, recipients) + rest == rest;
    } else {
      var first, others := recipients[0], recipients[1..];
      var foreign := IsForeign(w, first.address);
      assert first in recipients && forall r | r in others :: r in recipients;
      PatientFirst(o, foreign, ForeignAmong(w, others));
      NoticeIsTaken(s.api, w, o, s.d, first);
      NoticeKeepsTakes(s.api, w, o, s.d, first);
      SceneGoesOn(s, w, hd, o, first);
      var w1 := Step(s.api, w, o, Notice(w, s.d, first)).value.world;
      ForeignAmongStays(w, w1, others);
      FirstNoticeGoes(s.api, w, o, s.d, recipients, rest);
      w' := Broadcasted(s, w1, hd, others, Answered(o, foreign), rest);
    }
  }

  lemma FirstNoticeGoes(api: Api, w: World, o: Oracle, k: Addr, recipients: seq<ContractInfo>, rest: seq<Task>)
    requires k in w.contracts && recipients != [] && Step(api, w, o, Notice(w, k, recipients[0])).Ok?
    requires var s := Step(api, w, o, Notice(w, k, recipients[0])).value;
             s.emitted == [] && k in s.world.contracts && Info(s.world, k) == Info(w, k)
    ensures var s := Step(api, w, o, Notice(w, k, recipients[0])).value;
            Run(api, w, o, Notices(w, k, recipients) + rest) ==
            Run(api, s.world, s.oracle, Notices(s.world, k, recipients[1..]) + rest)
  {
    var t := Notice(w, k, recipients[0]);
    var s := Step(api, w, o, t).value;
    assert Notices(w, k, recipients) == [t] + Notices(w, k, recipients[1..]);
    assert Notices(w, k, recipients) + rest == [t] + (Notices(w, k, recipients[1..]) + rest);
    assert Notices(s.world, k, recipients[1..]) == Notices(w, k, recipients[1..]);
    RunFollows(api, w, o, t, Notices(w, k, recipients[1..]) + rest, s);
    assert [] + (Notices(w, k, recipients[1..]) + rest) == Notices(w, k, recipients[1..]) + rest;
  }

  lemma HumanFormJoins(api: Api, a: SubscriberList, b: SubscriberList)
    requires forall e | e in a + b :: api.HumanizeInfo(e).Ok?
    ensures HumanForm(api, a + b) == HumanForm(api, a) + HumanForm(api, b)
    ensures |HumanForm(api, a + b)| == |a| + |b|
    ensures forall i | 0 <= i < |a + b| :: api.HumanizeInfo((a + b)[i]) == Ok(HumanForm(api, a + b)[i])
    ensures HumanizeAll(api, a + b).Ok?
  {
    assert forall e :: e in a + b <==> e in a || e in b;
    HumanizeAllIsPointwise(api, a + b);
    HumanizeAllIsPointwise(api, a);
    HumanizeAllIsPointwise(api, b);
    var x, y := HumanForm(api, a + b), HumanForm(api, a) + HumanForm(api, b);
    forall i | 0 <= i < |a + b| ensures x[i] == y[i] {
      assert (a + b)[i] == if i < |a| then a[i] else b[i - |a|];
    }
  }

  lemma SceneMoves(s: Scene, w: World, hd: CodeHash, seen: CodeHash, next: CodeHash)
    requires s.At(w, hd, seen)
    ensures s.At(WithCode(w, s.d, next), next, seen) && s.SameSet(w, WithCode(w, s.d, next))
  {
    var w' := WithCode(w, s.d, next);
    forall e | e in s.list ensures Hears(s.api, w', s.d, e) {
      assert Hears(s.api, w, s.d, e);
      if s.api.HumanizeInfo(e).value.address == s.d {
        CanonInjective(s.api, s.c, s.d);
      }
    }
  }

  /** In human form, the child comes first and last. */
  lemma CrowdIsHuman(s: Scene, w: World, others: SubscriberList)
    requires s.Crowded(w, others) && forall e | e in s.list :: s.api.HumanizeInfo(e).Ok?
    ensures HumanizeAll(s.api, s.list) ==
            Ok([Info(w, s.c)] + HumanForm(s.api, others) + [Info(w, s.x), Info(w, s.c)])
  {
    var c, x := s.Stored(w, s.c), s.Stored(w, s.x);
    assert s.list == ([c] + others) + [x, c] && [x, c] == [x] + [c];
    HumanFormJoins(s.api, [c] + others, [x, c]);
    HumanFormJoins(s.api, [c], others);
    HumanFormJoins(s.api, [x], [c]);
    HumanFormJoins(s.api, [], [c]);
    HumanFormJoins(s.api, [], [x]);
    assert [] + [c] == [c] && [] + [x] == [x];
    assert HumanForm(s.api, [c]) == [Info(w, s.c)];
    assert HumanForm(s.api, [x]) == [Info(w, s.x)];
    assert HumanForm(s.api, [x, c]) == [Info(w, s.x), Info(w, s.c)];
  }

  lemma OthersTake(s: Scene, w: World, others: SubscriberList, hd: CodeHash, seen: CodeHash)
    requires s.At(w, hd, seen) && s.Crowded(w, others)
    ensures forall r | r in HumanForm(s.api, others) :: Takes(s.api, w, s.d, r)
  {
    forall e | e in others ensures Hears(s.api, w, s.d, e) {
      assert e in s.list;
    }
    HumanizeAllIsPointwise(s.api, others);
    forall r | r in HumanForm(s.api, others) ensures Takes(s.api, w, s.d, r) {
      var i :| 0 <= i < |HumanForm(s.api, others)| && HumanForm(s.api, others)[i] == r;
      assert Hears(s.api, w, s.d, others[i]);
    }
  }

  /** The notices of a migration, the child's first. */
  lemma NoticesSplit(w: World, k: Addr, first: ContractInfo, others: seq<ContractInfo>, x: ContractInfo,
                     c: ContractInfo, rest: seq<Task>)
    requires k in w.contracts
    ensures Notices(w, k, [first] + others + [x, c]) + rest ==
            [Notice(w, k, first)] + (Notices(w, k, others) + ([Notice(w, k, x)] + ([Notice(w, k, c)] + rest)))
  {
  }

  lemma MoveAnnounces(s: Scene, w: World, hd: CodeHash, seen: CodeHash, next: CodeHash, o: Oracle,
                      recipients: seq<ContractInfo>)
    requires s.At(w, hd, seen) && next in w.codes && w.codes[next] == DealerProgram
    requires HumanizeAll(s.api, s.list) == Ok(recipients)
    ensures var w' := WithCode(w, s.d, next);
            Step(s.api, w, o, s.Upgrading(next)) == Ok(Stepped(w', o, Notices(w', s.d, recipients)))
  {
  }

  /** The foreign contract moves the dealer: the child is told first and last. */
  lemma DealerMoves(s: Scene, w: World, others: SubscriberList, hd: CodeHash, seen: CodeHash, next: CodeHash,
                    o: Oracle, rest: seq<Task>) returns (w': World)
    requires s.At(w, hd, seen) && s.Crowded(w, others) && next in w.codes && w.codes[next] == DealerProgram
    ensures s.At(w', next, seen) && s.SameSet(w, w')
    ensures Run(s.api, w, o, [s.Upgrading(next)] + rest) ==
            Run(s.api, w', o, [s.Told(w', s.c, next)] + (Notices(w', s.d, HumanForm(s.api, others)) +
                              ([s.Told(w', s.x, next)] + ([s.Told(w', s.c, next)] + rest))))
  {
    w' := WithCode(w, s.d, next);
    SceneMoves(s, w, hd, seen, next);
    assert forall e | e in s.list :: Hears(s.api, w, s.d, e);
    CrowdIsHuman(s, w, others);
    var recipients := [Info(w, s.c)] + HumanForm(s.api, others) + [Info(w, s.x), Info(w, s.c)];
    MoveAnnounces(s, w, hd, seen, next, o, recipients);
    RunFollows(s.api, w, o, s.Upgrading(next), rest, Stepped(w', o, Notices(w', s.d, recipients)));
    NoticesSplit(w', s.d, Info(w, s.c), HumanForm(s.api, others), Info(w, s.x), Info(w, s.c), rest);
  }

  /** A migration of the dealer, up to the notice for `x`. */
  lemma Spread(s: Scene, w: World, others: SubscriberList, hd: CodeHash, seen: CodeHash, next: CodeHash,
               o: Oracle, rest: seq<Task>) returns (w': World)
    requires s.At(w, hd, seen) && s.Crowded(w, others) && next in w.codes && w.codes[next] == DealerProgram
    requires Patient(o, ForeignAmong(w, HumanForm(s.api, others)))
    ensures s.At(w', next, next) && s.SameSet(w, w')
    ensures Run(s.api, w, o, [s.Upgrading(next)] + rest) ==
            Run(s.api, w', Later(o, ForeignAmong(w, HumanForm(s.api, others))),
                [s.Told(w', s.x, next)] + ([s.Told(w', s.c, next)] + rest))
  {
    var humans := HumanForm(s.api, others);
    var w1 := DealerMoves(s, w, others, hd, seen, next, o, rest);
    var tail := [s.Told(w1, s.x, next)] + ([s.Told(w1, s.c, next)] + rest);
    var w2 := ChildListens(s, w1, next, seen, next, o, Notices(w1, s.d, humans) + tail);
    assert Notices(w2, s.d, humans) == Notices(w1, s.d, humans);
    OthersTake(s, w2, others, next, next);
    ForeignAmongStays(w, w2, humans);
    w' := Broadcasted(s, w2, next, humans, o, tail);
  }

  lemma ForeignReacts(s: Scene, w: World, hd: CodeHash, seen: CodeHash, sender: Addr, msg: Json, next: CodeHash,
                      o: Oracle, rest: seq<Task>)
    requires s.At(w, hd, seen) && o.reactions != [] && o.reactions[0] == Emit([Migrate(s.d, next)])
    ensures Run(s.api, w, o, [Call(sender, Execute(s.x, w.contracts[s.x].codeHash, msg, []))] + rest) ==
            Run(s.api, w, o.(reactions := o.reactions[1..]), [s.Upgrading(next)] + rest)
  {
  }

  lemma ForeignIsSilent(s: Scene, w: World, hd: CodeHash, seen: CodeHash, told: CodeHash, o: Oracle, rest: seq<Task>)
    requires s.At(w, hd, seen) && o.reactions == []
    ensures Run(s.api, w, o, [s.Told(w, s.x, told)] + rest) == Run(s.api, w, o, rest)
  {
    var t := s.Told(w, s.x, told);
    RunFollows(s.api, w, o, t, rest, Step(s.api, w, o, t).value);
    assert [] + rest == rest;
  }

  /** The tail of the outer broadcast arrives after the inner one and overwrites it. */
  lemma InnerBroadcastIsOverwritten(s: Scene, w: World, others: SubscriberList, h1: CodeHash, h2: CodeHash, o: Oracle)
    returns (w': World)
    requires s.At(w, h1, h1) && s.Crowded(w, others) && h2 in w.codes && w.codes[h2] == DealerProgram
    requires o.reactions == []
    ensures Run(s.api, w, o, [s.Upgrading(h2)] + [s.Told(w, s.c, h1)]) == Ok(w') && s.At(w', h2, h1)
  {
    var late := [s.Told(w, s.c, h1)];
    var w1 := Spread(s, w, others, h1, h1, h2, o, late);
    ForeignIsSilent(s, w1, h2, h2, h2, o, [s.Told(w1, s.c, h2)] + late);
    var w2 := ChildListens(s, w1, h2, h2, h2, o, late);
    assert late == [s.Told(w2, s.c, h1)] + [];
    w' := ChildListens(s, w2, h2, h2, h1, o, []);
  }

  lemma OuterBroadcastIsInterrupted(s: Scene, w: World, others: SubscriberList, hd: CodeHash, seen: CodeHash,
                                    h1: CodeHash, h2: CodeHash, o: Oracle) returns (w': World)
    requires s.At(w, hd, seen) && s.Crowded(w, others)
    requires {h1, h2} <= w.codes.Keys && w.codes[h1] == w.codes[h2] == DealerProgram
    requires o.reactions == Patience(ForeignAmong(w, HumanForm(s.api, others))) + [Emit([Migrate(s.d, h2)])]
    ensures Run(s.api, w, o, [s.Upgrading(h1)] + []) == Ok(w') && s.At(w', h2, h1)
  {
    var n := ForeignAmong(w, HumanForm(s.api, others));
    var w1 := Spread(s, w, others, hd, seen, h1, o, []);
    var o1 := Later(o, n);
    assert o1.reactions == [Emit([Migrate(s.d, h2)])];
    var late := [s.Told(w1, s.c, h1)];
    assert late + [] == late;
    var msg := EncodeListener(MigrationComplete(ContractInfo(s.d, h1), None));
    ForeignReacts(s, w1, h1, h1, s.d, msg, h2, o1, late);
    w' := InnerBroadcastIsOverwritten(s, w1, others, h1, h2, o1.(reactions := o1.reactions[1..]));
  }

  function Patience(n: nat): seq<Reaction> {
    seq(n, _ => Emit([]))
  }

  // ---------- the history ----------

  const QUIET := Oracle([], [])

  /** Anyone subscribes `k` at the dealer `d`. */
  function SubscribeTx(w: World, signer: Addr, d: Addr, k: Addr): Tx
    requires d in w.contracts && k in w.contracts
  {
    Tx(signer, Execute(d, w.contracts[d].codeHash, EncodeMigratable(Subscribe(k, w.contracts[k].codeHash)), []), QUIET)
  }

  /** A call on the foreign contract `x`, which answers it by migrating the dealer, lets `n` notices
      pass, and answers one more in the same way. */
  function ProvokeTx(w: World, signer: Addr, d: Addr, x: Addr, n: nat, h1: CodeHash, h2: CodeHash): Tx
    requires x in w.contracts
  {
    Tx(signer, Execute(x, w.contracts[x].codeHash, Null, []),
       Oracle([], [Emit([Migrate(d, h1)])] + Patience(n) + [Emit([Migrate(d, h2)])]))
  }

  /** Everybody on the dealer's list can be told. */
  predicate AllHear(api: Api, w: World, d: Addr)
    requires d in w.contracts && w.contracts[d].storage.DealerStorage? && api.Valid(d)
  {
    forall e | e in DealerAt(w, d).subscribers.GetOr([]) :: Hears(api, w, d, e)
  }

  function Subscribed(api: Api, w: World, d: Addr, k: Addr): World
    requires d in w.contracts && w.contracts[d].storage.DealerStorage? && k in w.contracts && api.Valid(k)
  {
    var entry := CanonicalContractInfo(api.Canon(k), w.contracts[k].codeHash);
    WithStorage(w, d, DealerStorage(DealerAt(w, d).(subscribers := Added(DealerAt(w, d).subscribers, entry))))
  }

  lemma Subscribes(api: Api, w: World, signer: Addr, d: Addr, k: Addr)
    requires d in w.contracts && w.contracts[d].storage.DealerStorage? && k in w.contracts && api.Valid(k)
    requires DealerAt(w, d).slots == None
    ensures Commit(api, w, SubscribeTx(w, signer, d, k)) == Subscribed(api, w, d, k)
  {
    var tx := SubscribeTx(w, signer, d, k);
    var m := Subscribe(k, w.contracts[k].codeHash);
    MigratableRoundTrip(m);
    DealerAttemptsCommute(EncodeMigratable(m));
    RunLast(api, w, QUIET, Root(tx));
  }

  /** What is asked of a pair to be parted: its link holds, a foreign contract may migrate the
      dealer, whose list has no limit and only subscribers that can be told. */
  predicate Partable(api: Api, w: World, d: Addr, c: Addr) {
    && ValidContracts(api, w) && Pair(w, d, c) && Holds(api, w, d, c) && InForeignHands(w, d)
    && DealerAt(w, d).slots == None && AllHear(api, w, d)
  }

  /** Two subscriptions, and a call on the dealer's migrator. */
  function Parting(api: Api, w: World, d: Addr, c: Addr, signer: Addr, h1: CodeHash, h2: CodeHash): seq<Tx>
    requires Partable(api, w, d, c)
  {
    var x, others := w.contracts[d].wasmAdmin.value, HumanForm(api, DealerAt(w, d).subscribers.value[1..]);
    [SubscribeTx(w, signer, d, x), SubscribeTx(w, signer, d, c),
     ProvokeTx(w, signer, d, x, ForeignAmong(w, others), h1, h2)]
  }

  lemma SceneIsSet(api: Api, w: World, d: Addr, c: Addr, x: Addr) returns (s: Scene, w': World)
    requires Partable(api, w, d, c) && w.contracts[d].wasmAdmin == Some(x)
    ensures w' == Subscribed(api, Subscribed(api, w, d, x), d, c)
    ensures s.api == api && s.d == d && s.c == c && s.x == x
    ensures s.At(w', w.contracts[d].codeHash, LastHeard(w, c)) && s.SameSet(w, w')
    ensures s.Crowded(w', DealerAt(w, d).subscribers.value[1..])
  {
    w' := Subscribed(api, Subscribed(api, w, d, x), d, c);
    var list := DealerAt(w, d).subscribers.value;
    s := Scene(api, d, c, x, list + [CanonicalContractInfo(api.Canon(x), w.contracts[x].codeHash)] +
                             [CanonicalContractInfo(api.Canon(c), w.contracts[c].codeHash)]);
    assert list == [list[0]] + list[1..] && list[0] == s.Stored(w', c);
    assert s.list == [s.Stored(w', c)] + list[1..] + [s.Stored(w', x), s.Stored(w', c)];
    assert ChildAt(w, c).subscribers.value == [CanonicalContractInfo(api.Canon(d), LastHeard(w, c))];
    forall e | e in s.list ensures Hears(api, w', d, e) {
      assert e in list ==> Hears(api, w, d, e);
      if Hears(api, w, d, e) && api.HumanizeInfo(e).value.address == d {
        CanonInjective(api, c, d);
      }
    }
  }

  lemma Provoked(s: Scene, w: World, others: SubscriberList, hd: CodeHash, seen: CodeHash, signer: Addr, n: nat,
                 h1: CodeHash, h2: CodeHash) returns (w': World)
    requires s.At(w, hd, seen) && s.Crowded(w, others) && n == ForeignAmong(w, HumanForm(s.api, others))
    requires {h1, h2} <= w.codes.Keys && w.codes[h1] == w.codes[h2] == DealerProgram
    ensures Commit(s.api, w, ProvokeTx(w, signer, s.d, s.x, n, h1, h2)) == w' && s.At(w', h2, h1)
  {
    var tx := ProvokeTx(w, signer, s.d, s.x, n, h1, h2);
    var o := tx.oracle;
    var o' := o.(reactions := o.reactions[1..]);
    assert o'.reactions == Patience(n) + [Emit([Migrate(s.d, h2)])];
    assert [Root(tx)] == [Root(tx)] + [];
    ForeignReacts(s, w, hd, seen, signer, Null, h1, o, []);
    w' := OuterBroadcastIsInterrupted(s, w, others, hd, seen, h1, h2, o');
  }

  lemma HistoryFollows(api: Api, w: World, tx: Tx, rest: seq<Tx>)
    ensures Proper(api, w, [tx] + rest) <==> Signed(api, w, tx) && Proper(api, Commit(api, w, tx), rest)
    ensures History(api, w, [tx] + rest) == History(api, Commit(api, w, tx), rest)
  {
    assert ([tx] + rest)[0] == tx && ([tx] + rest)[1..] == rest;
  }

  lemma ThreeCommits(api: Api, w: World, txs: seq<Tx>, w1: World, w2: World, w3: World)
    requires |txs| == 3 && Commit(api, w, txs[0]) == w1
    requires Commit(api, w1, txs[1]) == w2 && Commit(api, w2, txs[2]) == w3
    requires Signed(api, w, txs[0]) && Signed(api, w1, txs[1]) && Signed(api, w2, txs[2])
    ensures Proper(api, w, txs) && History(api, w, txs) == w3
  {
    assert txs == [txs[0]] + ([txs[1]] + ([txs[2]] + []));
    HistoryFollows(api, w2, txs[2], []);
    HistoryFollows(api, w1, txs[1], [txs[2]] + []);
    HistoryFollows(api, w, txs[0], [txs[1]] + ([txs[2]] + []));
  }

  /** Main result: whoever else is on the dealer's list, as long as all of them can be told, two
      subscriptions and one call, all signed by an outside account, leave the child with a code
      hash that its dealer does not have. */
  lemma ForeignHandsPartThem(api: Api, w: World, d: Addr, c: Addr, signer: Addr, h1: CodeHash, h2: CodeHash)
    requires Partable(api, w, d, c) && api.Valid(signer) && signer !in w.contracts
    requires {h1, h2} <= w.codes.Keys && w.codes[h1] == w.codes[h2] == DealerProgram && h1 != h2
    ensures var txs := Parting(api, w, d, c, signer, h1, h2);
            var w' := History(api, w, txs);
            && Proper(api, w, txs) && Pair(w', d, c) && api.Valid(d) && api.Valid(c) && !Linked(api, w', d, c)
            && w'.contracts[d].codeHash == h2 && LastHeard(w', c) == h1
  {
    var txs := Parting(api, w, d, c, signer, h1, h2);
    var x, others := w.contracts[d].wasmAdmin.value, DealerAt(w, d).subscribers.value[1..];
    var s, w2 := SceneIsSet(api, w, d, c, x);
    var w1 := Subscribed(api, w, d, x);
    Subscribes(api, w, signer, d, x);
    Subscribes(api, w1, signer, d, c);
    ForeignAmongStays(w, w2, HumanForm(api, others));
    var w3 := Provoked(s, w2, others, w.contracts[d].codeHash, LastHeard(w, c), signer,
                       ForeignAmong(w, HumanForm(api, others)), h1, h2);
    ThreeCommits(api, w, txs, w1, w2, w3);
  }

  // ---------- the exact condition ----------

  /** An outside account puts a foreign contract at the address `x`. */
  function ArriveTx(signer: Addr, x: Addr, codeHash: CodeHash): Tx {
    Tx(signer, Instantiate(None, codeHash, InitChild(ChildInit(None, 0)), None), Oracle([x], []))
  }

  function Arrived(w: World, signer: Addr, x: Addr, codeHash: CodeHash): World {
    Plus(w, x, Contract(codeHash, signer, None, ForeignStorage))
  }

  lemma ForeignArrives(api: Api, w: World, signer: Addr, x: Addr, codeHash: CodeHash)
    requires Unused(api, w, x) && x != signer && codeHash in w.codes && w.codes[codeHash] == ForeignProgram
    ensures Commit(api, w, ArriveTx(signer, x, codeHash)) == Arrived(w, signer, x, codeHash)
  {
    var tx := ArriveTx(signer, x, codeHash);
    RunLast(api, w, tx.oracle, Root(tx));
    assert Stamped(x, []) + [] == [];
  }

  lemma ArrivalMakesPartable(api: Api, w: World, d: Addr, c: Addr, signer: Addr, x: Addr, codeHash: CodeHash)
    requires ValidContracts(api, w) && Pair(w, d, c) && Holds(api, w, d, c)
    requires DealerAt(w, d).slots == None && AllHear(api, w, d)
    requires w.contracts[d].wasmAdmin == Some(x) && Unused(api, w, x) && x != signer
    ensures Partable(api, Arrived(w, signer, x, codeHash), d, c)
  {
    var w' := Arrived(w, signer, x, codeHash);
    PlusKeepsHolds(api, w, x, Contract(codeHash, signer, None, ForeignStorage), d, c);
    forall e | e in DealerAt(w', d).subscribers.GetOr([]) ensures Hears(api, w', d, e) {
      assert Hears(api, w, d, e);
    }
  }

  lemma InReachComesApart(api: Api, w: World, d: Addr, c: Addr, signer: Addr, h1: CodeHash, h2: CodeHash)
    requires ValidContracts(api, w) && Pair(w, d, c) && Holds(api, w, d, c)
    requires DealerAt(w, d).slots == None && AllHear(api, w, d) && InReach(api, w, d)
    requires api.Valid(signer) && signer !in w.contracts && Some(signer) != w.contracts[d].wasmAdmin
    requires {h1, h2} <= w.codes.Keys && w.codes[h1] == w.codes[h2] == DealerProgram && h1 != h2
    ensures !StaysLinked(api, w, d, c)
  {
    var x := w.contracts[d].wasmAdmin.value;
    if IsForeign(w, x) {
      ForeignHandsPartThem(api, w, d, c, signer, h1, h2);
      assert Proper(api, w, Parting(api, w, d, c, signer, h1, h2));
    } else {
      var f :| f in w.codes && w.codes[f] == ForeignProgram;
      var w' := Arrived(w, signer, x, f);
      ForeignArrives(api, w, signer, x, f);
      ArrivalMakesPartable(api, w, d, c, signer, x, f);
      ForeignHandsPartThem(api, w', d, c, signer, h1, h2);
      var rest := Parting(api, w', d, c, signer, h1, h2);
      HistoryFollows(api, w, ArriveTx(signer, x, f), rest);
      assert Proper(api, w, [ArriveTx(signer, x, f)] + rest);
    }
  }

  /** Main result: a pair stays linked over all histories if and only if the dealer's migrator
      neither is a foreign contract nor can become one; given that the dealer's list has no limit
      and only subscribers that can be told, and an outside account other than the migrator. */
  lemma StaysLinkedIff(api: Api, w: World, d: Addr, c: Addr, signer: Addr, h1: CodeHash, h2: CodeHash)
    requires AllLinked(api, w) && Pair(w, d, c) && DealerAt(w, d).slots == None && AllHear(api, w, d)
    requires api.Valid(signer) && signer !in w.contracts && Some(signer) != w.contracts[d].wasmAdmin
    requires {h1, h2} <= w.codes.Keys && w.codes[h1] == w.codes[h2] == DealerProgram && h1 != h2
    ensures StaysLinked(api, w, d, c) <==> !InReach(api, w, d)
  {
    if InReach(api, w, d) {
      assert Holds(api, w, d, c);
      InReachComesApart(api, w, d, c, signer, h1, h2);
    } else {
      OutOfReachStaysLinked(api, w, d, c);
    }
  }

  /** The migrator named for the dealer that a handshake opens. */
  predicate Risky(api: Api, w: World, o: Oracle, signer: Addr, wasmAdmin: Option<Addr>)
    requires |o.addresses| >= 2
  {
    && wasmAdmin.Some? && CanBecomeForeign(api, w, wasmAdmin.value)
    && wasmAdmin.value !in {signer, o.addresses[0], o.addresses[1]}
  }

  lemma OpenedIsInReachIff(api: Api, w: World, o: Oracle, signer: Addr, wasmAdmin: Option<Addr>,
                           codeHash: CodeHash, init: DealerInit)
    requires CanOpen(api, w, o, signer, wasmAdmin, codeHash, init) && signer !in w.contracts
    ensures InReach(api, Opened(api, w, o, signer, wasmAdmin, codeHash, init), o.addresses[0]) <==>
            Risky(api, w, o, signer, wasmAdmin)
  {
    var w' := Opened(api, w, o, signer, wasmAdmin, codeHash, init);
    var d, c := o.addresses[0], o.addresses[1];
    if wasmAdmin.Some? {
      var x := wasmAdmin.value;
      assert w'.contracts[d].creator == signer && w'.contracts[c].creator == d;
      assert forall k | k in w.contracts :: k in w'.contracts && w'.contracts[k] == w.contracts[k];
      assert forall k | k in w'.contracts :: k == d || k == c || k in w.contracts;
    }
  }

  /** Main result: whether a newly opened dealer and its child stay linked over all histories is
      settled by the migrator named when the dealer is instantiated: none, or the signer himself,
      is safe; a foreign contract, or an address at which one can still be put, is not. */
  lemma OpenedStaysLinkedIff(api: Api, w: World, o: Oracle, signer: Addr, wasmAdmin: Option<Addr>,
                             codeHash: CodeHash, init: DealerInit, h1: CodeHash, h2: CodeHash)
    requires AllLinked(api, w) && api.Valid(signer) && signer !in w.contracts
    requires CanOpen(api, w, o, signer, wasmAdmin, codeHash, init)
    requires w.codes[init.snip721CodeHash] == ChildProgram
    requires {h1, h2} <= w.codes.Keys && w.codes[h1] == w.codes[h2] == DealerProgram && h1 != h2
    ensures StaysLinked(api, Opened(api, w, o, signer, wasmAdmin, codeHash, init), o.addresses[0], o.addresses[1]) <==>
            !Risky(api, w, o, signer, wasmAdmin)
  {
    var w' := Opened(api, w, o, signer, wasmAdmin, codeHash, init);
    var d, c := o.addresses[0], o.addresses[1];
    var tx := Tx(signer, Instantiate(wasmAdmin, codeHash, InitDealer(init), None), o);
    HandshakeIsExact(api, w, o, signer, wasmAdmin, codeHash, init);
    CommitKeepsLinks(api, w, tx);
    HandshakeLinks(api, w, o, signer, wasmAdmin, codeHash, init);
    OpenedIsInReachIff(api, w, o, signer, wasmAdmin, codeHash, init);
    if InReach(api, w', d) {
      OpenedAllHear(api, w, o, signer, wasmAdmin, codeHash, init);
      InReachComesApart(api, w', d, c, signer, h1, h2);
    } else {
      OutOfReachStaysLinked(api, w', d, c);
    }
  }

  lemma OpenedAllHear(api: Api, w: World, o: Oracle, signer: Addr, wasmAdmin: Option<Addr>,
                      codeHash: CodeHash, init: DealerInit)
    requires CanOpen(api, w, o, signer, wasmAdmin, codeHash, init)
    ensures AllHear(api, Opened(api, w, o, signer, wasmAdmin, codeHash, init), o.addresses[0])
  {
  }
}
