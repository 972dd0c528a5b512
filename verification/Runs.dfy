/** Whole histories of transactions, and what holds over all of them. */
module Runs {
  import opened Types
  import opened Wire
  import opened Chain
  import opened Logs
  import opened Link
  import opened Sales
  import opened Conserved
  import opened Rules
  import opened Administration
  import opened LinkKept
  import opened LinkRuns
  import Child
  import Dealer

  /** A transaction: a message signed by an outside account, and whatever the outside decides
      while it is being dispatched. */
  datatype Tx = Tx(signer: Addr, out: Out, oracle: Oracle)

  /** Contracts do not sign transactions; accounts receive no replies and catch no failures. */
  predicate Signed(api: Api, w: World, tx: Tx) {
    && api.Valid(tx.signer) && tx.signer !in w.contracts
    && !tx.out.Attempt? && (tx.out.Instantiate? ==> tx.out.replyId.None?)
  }

  function Root(tx: Tx): Task {
    Call(tx.signer, tx.out)
  }

  function Dispatch(api: Api, w: World, tx: Tx): Result<World> {
    Run(api, w, tx.oracle, [Root(tx)])
  }

  /** All or nothing: a transaction that fails anywhere leaves the world as it was. */
  function Commit(api: Api, w: World, tx: Tx): World {
    Dispatch(api, w, tx).GetOr(w)
  }

  function CommitLog(api: Api, w: World, tx: Tx): seq<Entry> {
    if Dispatch(api, w, tx).Ok? then Log(api, w, tx.oracle, [Root(tx)]) else []
  }

  function History(api: Api, w: World, txs: seq<Tx>): World
    decreases |txs|
  {
    if txs == [] then w else History(api, Commit(api, w, txs[0]), txs[1..])
  }

  /** Every step that took effect in a history. */
  function HistoryLog(api: Api, w: World, txs: seq<Tx>): seq<Entry>
    decreases |txs|
  {
    if txs == [] then [] else CommitLog(api, w, txs[0]) + HistoryLog(api, Commit(api, w, txs[0]), txs[1..])
  }

  predicate Proper(api: Api, w: World, txs: seq<Tx>)
    decreases |txs|
  {
    txs != [] ==> Signed(api, w, txs[0]) && Proper(api, Commit(api, w, txs[0]), txs[1..])
  }

  /** The link of every pair holds, and no dealer has two children. */
  ghost predicate AllLinked(api: Api, w: World) {
    && ValidContracts(api, w) && OneChildEach(w)
    && forall d, c | Pair(w, d, c) :: Holds(api, w, d, c)
  }

  // ---------- one transaction ----------

  /** A migration ordered by an account: after its first step the invariant holds. */
  lemma MigrationStarts(api: Api, w: World, tx: Tx) returns (s: Stepped)
    requires AllLinked(api, w) && Signed(api, w, tx) && tx.out.Migrate? && Step(api, w, tx.oracle, Root(tx)).Ok?
    ensures Step(api, w, tx.oracle, Root(tx)) == Ok(s)
    ensures Inv(api, s.world, s.emitted + [])
    ensures Dispatch(api, w, tx) == Run(api, s.world, s.oracle, s.emitted)
  {
    s := Step(api, w, tx.oracle, Root(tx)).value;
    MigrationKeepsInv(api, w, tx.oracle, tx.signer, tx.out.contract, tx.out.codeHash, [Root(tx)]);
    assert s.emitted + [Root(tx)][1..] == s.emitted + [];
    RunLast(api, w, tx.oracle, Root(tx));
  }

  lemma OtherwiseStarts(api: Api, w: World, tx: Tx)
    requires AllLinked(api, w) && Signed(api, w, tx) && !tx.out.Migrate?
    ensures Inv(api, w, [Root(tx)] + [])
  {
    assert [Root(tx)] + [] == [Root(tx)];
    assert FromOutside(api, w, Root(tx));
  }

  lemma CommitKeepsLinks(api: Api, w: World, tx: Tx)
    requires AllLinked(api, w) && Signed(api, w, tx)
    ensures AllLinked(api, Commit(api, w, tx))
  {
    if !tx.out.Migrate? {
      OtherwiseStarts(api, w, tx);
      RunKeepsInv(api, w, tx.oracle, [Root(tx)], []);
    } else if Step(api, w, tx.oracle, Root(tx)).Ok? {
      var s := MigrationStarts(api, w, tx);
      RunKeepsInv(api, s.world, s.oracle, s.emitted, []);
    } else {
      RunLast(api, w, tx.oracle, Root(tx));
    }
  }

  /** Main result: at every step of every transaction from a linked world, failed and undone ones
      included, the messages of the two contracts to each other carry the code hash that their
      recipient has when they are delivered. */
  lemma EveryMessageIsAddressed(api: Api, w: World, tx: Tx)
    requires AllLinked(api, w) && Signed(api, w, tx)
    ensures Served(api, w, tx.oracle, [Root(tx)])
  {
    var root := Root(tx);
    assert [root] + [] == [root];
    if !tx.out.Migrate? {
      OtherwiseStarts(api, w, tx);
      RunIsServed(api, w, tx.oracle, [root], []);
    } else {
      AddressedWhileHolding(api, w, root);
      if Step(api, w, tx.oracle, root).Ok? {
        var s := MigrationStarts(api, w, tx);
        RunIsServed(api, s.world, s.oracle, s.emitted, []);
        assert s.emitted + [] == s.emitted;
        ServedFollows(api, w, tx.oracle, root, [], s);
      } else {
        ServedStops(api, w, tx.oracle, root, []);
      }
    }
  }

  lemma CommitIsOrderly(api: Api, w: World, tx: Tx, d: Addr, c: Addr)
    requires AllLinked(api, w) && Signed(api, w, tx) && Pair(w, d, c)
    ensures Orderly(api, CommitLog(api, w, tx), d, c)
  {
    var root := Root(tx);
    if Dispatch(api, w, tx).Ok? {
      if !tx.out.Migrate? {
        OtherwiseStarts(api, w, tx);
        RunIsOrderly(api, w, tx.oracle, [root], [], d, c);
      } else {
        RunLast(api, w, tx.oracle, root);
        var s := MigrationStarts(api, w, tx);
        StepSettles(api, w, tx.oracle, root);
        SettledPairsStay(w, s.world);
        RunIsOrderly(api, s.world, s.oracle, s.emitted, [], d, c);
        assert [root] + [] == [root] && s.emitted + [] == s.emitted;
        LogFollows(api, w, tx.oracle, root, [], s);
        var first := [Entry(w, tx.oracle, root, s.world)];
        assert Orderly(api, first, d, c);
        OrderlyJoins(api, first, Log(api, s.world, s.oracle, s.emitted), d, c);
      }
    }
  }

  // ---------- histories ----------

  /** Main result: after every committed transaction of every history, with any number of
      dealers and children, any interleaving of migrations, purchases, subscriptions and foreign
      notices, and foreign contracts that answer with anything at all, every dealer knows the
      child it created as that child is; and the child knows its dealer as it is, unless a
      foreign contract can migrate the dealer. */
  lemma {:induction false} EveryHistoryLinks(api: Api, w: World, txs: seq<Tx>)
    requires AllLinked(api, w) && Proper(api, w, txs)
    ensures AllLinked(api, History(api, w, txs))
    ensures var w' := History(api, w, txs);
            forall d, c | Pair(w', d, c) && !InForeignHands(w', d) :: Linked(api, w', d, c)
    decreases |txs|
  {
    if txs != [] {
      CommitKeepsLinks(api, w, txs[0]);
      EveryHistoryLinks(api, Commit(api, w, txs[0]), txs[1..]);
    }
  }

  /** A chain on which no dealer or child exists yet is a start. */
  lemma GenesisIsLinked(api: Api, w: World)
    requires ValidContracts(api, w)
    requires forall a | a in w.contracts :: w.contracts[a].storage.ForeignStorage?
    ensures AllLinked(api, w)
  {
  }

  lemma {:induction false} HistoryIsChained(api: Api, w: World, txs: seq<Tx>)
    ensures Chained(api, w, HistoryLog(api, w, txs), History(api, w, txs))
    decreases |txs|
  {
    if txs != [] {
      var w' := Commit(api, w, txs[0]);
      if Dispatch(api, w, txs[0]).Ok? {
        LogIsChained(api, w, txs[0].oracle, [Root(txs[0])]);
      }
      HistoryIsChained(api, w', txs[1..]);
      ChainsJoin(api, w, CommitLog(api, w, txs[0]), w', HistoryLog(api, w', txs[1..]), History(api, w, txs));
    }
  }

  /** Main result: over every history terms of sale, creators and migrators stay what they were,
      a child's subscribers and free slots together are constant, and coins are conserved. */
  lemma HistorySettles(api: Api, w: World, txs: seq<Tx>)
    ensures Settles(w, History(api, w, txs))
    ensures forall denom :: Supply(History(api, w, txs).bank, denom) == Supply(w.bank, denom)
  {
    HistoryIsChained(api, w, txs);
    LogSettles(api, w, HistoryLog(api, w, txs), History(api, w, txs));
    forall denom ensures Supply(History(api, w, txs).bank, denom) == Supply(w.bank, denom) {
      LogConserves(api, w, HistoryLog(api, w, txs), History(api, w, txs), denom);
    }
  }

  /** A child born with `n` slots never has more than `n` subscribers. */
  lemma SubscribersAreBounded(api: Api, w: World, txs: seq<Tx>, c: Addr, n: U8)
    requires c in w.contracts && w.contracts[c].storage.ChildStorage?
    requires ChildAt(w, c).subscribers.None? && ChildAt(w, c).slots == Some(n)
    ensures var w' := History(api, w, txs);
            && c in w'.contracts && w'.contracts[c].storage.ChildStorage?
            && |ChildAt(w', c).subscribers.GetOr([])| <= n
  {
    HistorySettles(api, w, txs);
  }

  /** `t` instantiates child code with a limit of `n` subscribers. */
  predicate OpensChild(w: World, t: Task, n: U8) {
    && t.Call? && t.out.Instantiate? && t.out.init.InitChild? && t.out.init.child.maxSubscribers == n
    && t.out.codeHash in w.codes && w.codes[t.out.codeHash] == ChildProgram
  }

  /** Anyone can have a child of his own: it opens exactly if the chain has an unused address and
      the administrator, the sender unless one is named, is an address; the limit is its free slots. */
  lemma ChildOpens(api: Api, w: World, o: Oracle, t: Task, n: U8)
    requires OpensChild(w, t, n)
    ensures var init := t.out.init.child;
            var admin := if init.admin == None then t.sender else init.admin.value;
            var s := Step(api, w, o, t);
            && (s.Ok? <==> o.addresses != [] && Unused(api, w, o.addresses[0]) && o.addresses[0] != t.sender
                           && api.Valid(admin))
            && (s.Ok? ==>
                  var child := Child.ChildState(None, Some(n), api.Canon(admin), {api.Canon(admin)}, 0, map[], Normal);
                  && s.value.world == Plus(w, o.addresses[0], Contract(t.out.codeHash, t.sender, t.out.wasmAdmin,
                                                                       ChildStorage(child)))
                  && s.value.emitted == if t.out.replyId == None then []
                                        else [Reply(t.sender, t.out.replyId.value, o.addresses[0])])
  {
    ChildIsInstantiated(api, t.sender, t.out.init.child);
  }

  lemma {:induction false} ChainAfter(api: Api, w: World, log: seq<Entry>, w': World, i: nat)
    requires Chained(api, w, log, w') && i < |log|
    ensures IsStep(api, log[i]) && Chained(api, log[i].after, log[i + 1..], w')
    decreases i
  {
    if i > 0 {
      ChainAfter(api, log[0].after, log[1..], w', i - 1);
      assert log[1..][i..] == log[i + 1..];
    }
  }

  /** Main result: a child that is instantiated at any point of any history, by anyone, with a limit
      of `n`, has at the end of that history exactly `n` subscribers and free slots together. */
  lemma LimitIsFromInstantiation(api: Api, w: World, txs: seq<Tx>, i: nat, n: U8)
    requires i < |HistoryLog(api, w, txs)|
    requires var e := HistoryLog(api, w, txs)[i]; OpensChild(e.before, e.task, n)
    ensures var e, w' := HistoryLog(api, w, txs)[i], History(api, w, txs);
            && e.oracle.addresses != []
            && var c := e.oracle.addresses[0];
            && c in w'.contracts && w'.contracts[c].storage.ChildStorage? && ChildAt(w', c).slots.Some?
            && |ChildAt(w', c).subscribers.GetOr([])| + ChildAt(w', c).slots.value == n
  {
    var log, w' := HistoryLog(api, w, txs), History(api, w, txs);
    HistoryIsChained(api, w, txs);
    ChainAfter(api, w, log, w', i);
    ChildOpens(api, log[i].before, log[i].oracle, log[i].task, n);
    LogSettles(api, log[i].after, log[i + 1..], w');
  }

  /** Main result: if a child's administrator, minters or status differ at the end of a history,
      its administrator of some moment has sent it a message that administers. */
  lemma HistoryIsAdministered(api: Api, w: World, txs: seq<Tx>, c: Addr)
    requires IsChild(w, c)
    ensures var w' := History(api, w, txs);
            && IsChild(w', c)
            && (SameAdministration(ChildAt(w, c), ChildAt(w', c)) ||
                exists e | e in HistoryLog(api, w, txs) :: FromAdmin(api, e, c) && Administers(e))
  {
    HistoryIsChained(api, w, txs);
    LogIsAdministered(api, w, HistoryLog(api, w, txs), History(api, w, txs), c);
  }

  lemma {:induction false} HistoryIsOrderly(api: Api, w: World, txs: seq<Tx>, d: Addr, c: Addr)
    requires AllLinked(api, w) && Proper(api, w, txs) && Pair(w, d, c)
    ensures Orderly(api, HistoryLog(api, w, txs), d, c)
    decreases |txs|
  {
    if txs != [] {
      var w' := Commit(api, w, txs[0]);
      CommitKeepsLinks(api, w, txs[0]);
      CommitIsOrderly(api, w, txs[0], d, c);
      HistorySettles(api, w, [txs[0]]);
      assert [txs[0]][1..] == [] && History(api, w, [txs[0]]) == w';
      SettledPairsStay(w, w');
      HistoryIsOrderly(api, w', txs[1..], d, c);
      OrderlyJoins(api, CommitLog(api, w, txs[0]), HistoryLog(api, w', txs[1..]), d, c);
    }
  }

  // ---------- the stored reference as a cache ----------

  /** The specification the dealer caches: look its child up in the chain's contract table. */
  ghost predicate OnRecord(w: World, d: Addr, info: ContractInfo) {
    info.address in w.contracts && Pair(w, d, info.address) && info == Info(w, info.address)
  }

  /** Main result: in every reachable world the query of every dealer that has a child answers
      exactly what a lookup in the contract table would, without looking. */
  lemma QueryRefinesLookup(api: Api, w: World, txs: seq<Tx>, d: Addr, info: ContractInfo)
    requires AllLinked(api, w) && Proper(api, w, txs)
    requires var w' := History(api, w, txs); exists c :: Pair(w', d, c)
    ensures var w' := History(api, w, txs);
            Dealer.QueryChild(api, DealerAt(w', d)) == Ok(info) <==> OnRecord(w', d, info)
  {
    var w' := History(api, w, txs);
    EveryHistoryLinks(api, w, txs);
    var c :| Pair(w', d, c);
    assert Holds(api, w', d, c);
  }
}
