/** What every step keeps, whoever causes it, and with it every log of steps. */
module Conserved {
  import opened Types
  import opened Wire
  import opened Chain
  import opened Logs
  import opened Link
  import Child
  import Dealer

  // ---------- money ----------

  /** All coins of one denom. */
  ghost function Supply(bank: Bank, denom: Denom): nat
    decreases |bank|
  {
    if bank == map[] then 0
    else
      var k :| k in bank;
      Held(bank, k, denom) + Supply(bank - {k}, denom)
  }

  function Held(bank: Bank, k: (Addr, Denom), denom: Denom): nat {
    if k in bank && k.1 == denom then bank[k] else 0
  }

  lemma {:induction false} SupplySplits(bank: Bank, k: (Addr, Denom), denom: Denom)
    requires k in bank
    ensures Supply(bank, denom) == Held(bank, k, denom) + Supply(bank - {k}, denom)
    decreases |bank|
  {
    var first :| first in bank && Supply(bank, denom) == Held(bank, first, denom) + Supply(bank - {first}, denom);
    if first != k {
      var a, b := bank - {first}, bank - {k};
      assert a[k] == bank[k] && b[first] == bank[first];
      SupplySplits(a, k, denom);
      SupplySplits(b, first, denom);
      assert a - {k} == b - {first};
      assert Held(a, k, denom) == Held(bank, k, denom) && Held(b, first, denom) == Held(bank, first, denom);
      assert Supply(a - {k}, denom) == Supply(b - {first}, denom);
    }
  }

  lemma SupplyAfterUpdate(bank: Bank, k: (Addr, Denom), v: nat, denom: Denom)
    ensures Supply(bank[k := v], denom) == Supply(bank, denom) - Held(bank, k, denom) + (if k.1 == denom then v else 0)
  {
    SupplySplits(bank[k := v], k, denom);
    assert bank[k := v] - {k} == bank - {k};
    if k in bank {
      SupplySplits(bank, k, denom);
    } else {
      assert bank - {k} == bank;
    }
  }

  lemma TransferConserves(bank: Bank, from: Addr, to: Addr, coin: Coin, denom: Denom)
    requires Transfer(bank, from, to, coin).Ok?
    ensures Supply(Transfer(bank, from, to, coin).value, denom) == Supply(bank, denom)
  {
    var left := Balance(bank, from, coin.denom) - coin.amount;
    var debited := bank[(from, coin.denom) := left];
    SupplyAfterUpdate(bank, (from, coin.denom), left, denom);
    SupplyAfterUpdate(debited, (to, coin.denom), Balance(debited, to, coin.denom) + coin.amount, denom);
  }

  lemma {:induction false} TransferAllConserves(bank: Bank, from: Addr, to: Addr, coins: seq<Coin>, denom: Denom)
    requires TransferAll(bank, from, to, coins).Ok?
    ensures Supply(TransferAll(bank, from, to, coins).value, denom) == Supply(bank, denom)
    decreases |coins|
  {
    if coins != [] {
      TransferConserves(bank, from, to, coins[0], denom);
      TransferAllConserves(Transfer(bank, from, to, coins[0]).value, from, to, coins[1..], denom);
    }
  }

  lemma StepConserves(api: Api, w: World, o: Oracle, t: Task, denom: Denom)
    requires Step(api, w, o, t).Ok?
    ensures Supply(Step(api, w, o, t).value.world.bank, denom) == Supply(w.bank, denom)
  {
    match t
    case Call(sender, Execute(a, _, _, funds)) => TransferAllConserves(w.bank, sender, a, funds, denom);
    case Call(sender, BankSend(to, amount)) => TransferAllConserves(w.bank, sender, to, amount, denom);
    case Call(_, Instantiate(_, _, _, _)) =>
    case Call(_, Migrate(_, _)) =>
    case Call(_, Attempt(_, _)) =>
    case Reply(_, _, _) =>
  }

  lemma {:induction false} LogConserves(api: Api, w: World, log: seq<Entry>, w': World, denom: Denom)
    requires Chained(api, w, log, w')
    ensures Supply(w'.bank, denom) == Supply(w.bank, denom)
    decreases |log|
  {
    if log != [] {
      StepConserves(api, w, log[0].oracle, log[0].task, denom);
      LogConserves(api, log[0].after, log[1..], w', denom);
    }
  }

  // ---------- terms of sale and capacities ----------

  /** A dealer's admin, prices and metadata. */
  predicate SameTerms(s: Dealer.DealerState, s': Dealer.DealerState) {
    s'.admin == s.admin && s'.prices == s.prices && s'.metadata == s.metadata
  }

  /** A child's subscribers and free slots together, and no subscriber lost. */
  predicate SameCapacity(t: Child.ChildState, t': Child.ChildState) {
    t.slots.Some? ==>
      && t'.slots.Some?
      && |t'.subscribers.GetOr([])| + t'.slots.value == |t.subscribers.GetOr([])| + t.slots.value
      && |t'.subscribers.GetOr([])| >= |t.subscribers.GetOr([])|
  }

  /** Nobody's terms of sale, capacity, creator or migrator changes, and no contract disappears
      or turns into one of another kind. */
  predicate Settles(w: World, w': World) {
    && w'.codes == w.codes
    && forall a | a in w.contracts ::
         && a in w'.contracts
         && w'.contracts[a].creator == w.contracts[a].creator
         && w'.contracts[a].wasmAdmin == w.contracts[a].wasmAdmin
         && match w.contracts[a].storage
            case DealerStorage(s) =>
              w'.contracts[a].storage.DealerStorage? && SameTerms(s, w'.contracts[a].storage.dealer)
            case ChildStorage(t) =>
              w'.contracts[a].storage.ChildStorage? && SameCapacity(t, w'.contracts[a].storage.child)
            case ForeignStorage => w'.contracts[a].storage.ForeignStorage?
  }

  /** So a pair stays one, and who is in foreign hands stays there. */
  lemma SettledPairsStay(w: World, w': World)
    requires Settles(w, w')
    ensures forall d, c | Pair(w, d, c) :: Pair(w', d, c) && SameTerms(DealerAt(w, d), DealerAt(w', d))
    ensures forall k | InForeignHands(w, k) :: InForeignHands(w', k)
  {
  }

  lemma DealerKeepsTerms(api: Api, s: Dealer.DealerState, info: MessageInfo, m: DealerExecuteMsg)
    ensures Dealer.Executed(api, s, info, m).Ok? ==> SameTerms(s, Dealer.Executed(api, s, info, m).value.0)
  {
  }

  lemma ChildKeepsCapacity(api: Api, t: Child.ChildState, sender: Addr, m: ChildExecuteMsg)
    ensures Child.Executed(api, t, sender, m).Ok? ==> SameCapacity(t, Child.Executed(api, t, sender, m).value)
  {
  }

  lemma ExecuteSettles(api: Api, w: World, o: Oracle, t: Task)
    requires t.Call? && t.out.Execute? && Step(api, w, o, t).Ok?
    ensures Settles(w, Step(api, w, o, t).value.world)
  {
    ExecuteChangesOnly(api, w, o, t);
    match w.contracts[t.out.contract].storage
    case DealerStorage(s) =>
      DealerKeepsTerms(api, s, MessageInfo(t.sender, t.out.funds), DecodeDealer(t.out.msg).value);
    case ChildStorage(s) =>
      ChildKeepsCapacity(api, s, t.sender, DecodeChild(t.out.msg).value);
    case ForeignStorage =>
  }

  lemma InstantiateSettles(api: Api, w: World, o: Oracle, t: Task)
    requires t.Call? && t.out.Instantiate? && Step(api, w, o, t).Ok?
    ensures Settles(w, Step(api, w, o, t).value.world)
  {
    var w' := Step(api, w, o, t).value.world;
    assert w'.codes == w.codes && forall a | a in w.contracts :: a in w'.contracts && w'.contracts[a] == w.contracts[a];
  }

  lemma MigrateSettles(api: Api, w: World, o: Oracle, t: Task)
    requires t.Call? && t.out.Migrate? && Step(api, w, o, t).Ok?
    ensures Settles(w, Step(api, w, o, t).value.world)
  {
    assert Step(api, w, o, t).value.world == WithCode(w, t.out.contract, t.out.codeHash);
  }

  lemma ReplySettles(api: Api, w: World, o: Oracle, t: Task)
    requires t.Reply? && Step(api, w, o, t).Ok?
    ensures Settles(w, Step(api, w, o, t).value.world)
  {
    var a := t.contract;
    assert Step(api, w, o, t).value.world == WithStorage(w, a, Step(api, w, o, t).value.world.contracts[a].storage);
  }

  lemma SendSettles(api: Api, w: World, o: Oracle, t: Task)
    requires t.Call? && t.out.BankSend? && Step(api, w, o, t).Ok?
    ensures Settles(w, Step(api, w, o, t).value.world)
  {
  }

  lemma StepSettles(api: Api, w: World, o: Oracle, t: Task)
    requires Step(api, w, o, t).Ok?
    ensures Settles(w, Step(api, w, o, t).value.world)
  {
    match t
    case Call(_, Execute(_, _, _, _)) => ExecuteSettles(api, w, o, t);
    case Call(_, Instantiate(_, _, _, _)) => InstantiateSettles(api, w, o, t);
    case Call(_, Migrate(_, _)) => MigrateSettles(api, w, o, t);
    case Call(_, BankSend(_, _)) => SendSettles(api, w, o, t);
    case Call(_, Attempt(_, _)) =>
    case Reply(_, _, _) => ReplySettles(api, w, o, t);
  }

  lemma SettlesIsTransitive(w1: World, w2: World, w3: World)
    requires Settles(w1, w2) && Settles(w2, w3)
    ensures Settles(w1, w3)
  {
  }

  lemma {:induction false} LogSettles(api: Api, w: World, log: seq<Entry>, w': World)
    requires Chained(api, w, log, w')
    ensures Settles(w, w')
    decreases |log|
  {
    if log != [] {
      StepSettles(api, w, log[0].oracle, log[0].task);
      LogSettles(api, log[0].after, log[1..], w');
      SettlesIsTransitive(w, log[0].after, w');
    }
  }
}
