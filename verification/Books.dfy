/** The books of a dealer over any history: purchases, payments and tokens, whoever buys, from
    wherever, with whatever else going on. */
module Books {
  import opened Types
  import opened Wire
  import opened Chain
  import opened Logs
  import opened Link
  import opened Sales
  import opened Conserved
  import opened Administration
  import opened Runs
  import Child
  import Dealer

  // ---------- what the log says of a dealer ----------

  datatype Sale = Sale(buyer: Addr, coin: Coin)

  datatype Payment = Payment(to: Addr, coins: seq<Coin>)

  datatype Request = Request(contract: Addr, msg: BaseMsg)

  /** The purchases that took effect, in order. */
  function SalesOf(log: seq<Entry>, d: Addr): seq<Sale>
    decreases |log|
  {
    if log == [] then []
    else
      var t := log[0].task;
      (if Buys(t, d) && |t.out.funds| == 1 then [Sale(t.sender, t.out.funds[0])] else []) + SalesOf(log[1..], d)
  }

  /** The payments that the dealer made. */
  function PaymentsOf(log: seq<Entry>, d: Addr): seq<Payment>
    decreases |log|
  {
    if log == [] then []
    else
      var t := log[0].task;
      (if t.Call? && t.sender == d && t.out.BankSend? then [Payment(t.out.to, t.out.amount)] else []) +
      PaymentsOf(log[1..], d)
  }

  /** The mints that the dealer had made. */
  function MintsOf(log: seq<Entry>, d: Addr): seq<Request>
    decreases |log|
  {
    if log == [] then []
    else
      var t := log[0].task;
      (if t.Call? && t.sender == d && t.out.Execute? && Mints(t.out.msg)
       then [Request(t.out.contract, DecodeBase(t.out.msg).value)] else []) + MintsOf(log[1..], d)
  }

  function PaymentsFor(sales: seq<Sale>, admin: Addr): seq<Payment> {
    seq(|sales|, i requires 0 <= i < |sales| => Payment(admin, [sales[i].coin]))
  }

  /** A mint for the buyer with the metadata and nothing else: no id, serial number, royalties,
      transferability, memo or padding. */
  function PlainMint(buyer: Addr, metadata: PurchasableMetadata): BaseMsg {
    MintNft(None, Some(buyer), metadata.publicMetadata, metadata.privateMetadata, None, None, None, None, None)
  }

  function MintsFor(sales: seq<Sale>, child: Addr, metadata: PurchasableMetadata): seq<Request> {
    seq(|sales|, i requires 0 <= i < |sales| => Request(child, PlainMint(sales[i].buyer, metadata)))
  }

  predicate AtListPrice(s: Dealer.DealerState, sales: seq<Sale>) {
    forall x | x in sales :: ExactPrice(s, [x.coin])
  }

  /** Purchases, payments and mints correspond one to one and in order, all at list price and on
      the dealer's terms; a dealer without terms sells, pays and mints nothing. */
  predicate Matched(api: Api, s: Dealer.DealerState, child: Addr, log: seq<Entry>, d: Addr) {
    var sales := SalesOf(log, d);
    if Trading(api, s)
    then
      && AtListPrice(s, sales)
      && PaymentsOf(log, d) == PaymentsFor(sales, AdminOf(api, s))
      && MintsOf(log, d) == MintsFor(sales, child, s.metadata.value)
    else sales == [] && PaymentsOf(log, d) == [] && MintsOf(log, d) == []
  }

  // ---------- they match ----------

  lemma SaleIsEntered(api: Api, log: seq<Entry>, d: Addr, c: Addr)
    requires |log| >= 3 && IsSale(api, log[0], log[1], log[2], d, c)
    ensures var s, t := DealerAt(log[0].before, d), log[0].task;
            && SalesOf(log, d) == [Sale(t.sender, t.out.funds[0])] + SalesOf(log[3..], d)
            && PaymentsOf(log, d) == [Payment(AdminOf(api, s), t.out.funds)] + PaymentsOf(log[3..], d)
            && MintsOf(log, d) == [Request(c, PlainMint(t.sender, s.metadata.value))] + MintsOf(log[3..], d)
  {
    BaseRoundTrip(Dealer.MintFor(log[0].task.sender, DealerAt(log[0].before, d).metadata.value));
    assert log[1..][1..] == log[2..] && log[2..][1..] == log[3..];
    assert SalesOf(log[2..], d) == SalesOf(log[3..], d) && SalesOf(log[1..], d) == SalesOf(log[2..], d);
    assert PaymentsOf(log[2..], d) == PaymentsOf(log[3..], d);
    assert MintsOf(log[1..], d) == MintsOf(log[2..], d);
  }

  lemma OneMore(sale: Sale, sales: seq<Sale>, admin: Addr, child: Addr, metadata: PurchasableMetadata)
    ensures PaymentsFor([sale] + sales, admin) == [Payment(admin, [sale.coin])] + PaymentsFor(sales, admin)
    ensures MintsFor([sale] + sales, child, metadata) ==
            [Request(child, PlainMint(sale.buyer, metadata))] + MintsFor(sales, child, metadata)
  {
  }

  /** The dealer of a sale under the terms `s` that it has had all along. */
  lemma MatchedAfterSale(api: Api, s: Dealer.DealerState, log: seq<Entry>, d: Addr, c: Addr)
    requires |log| >= 3 && IsSale(api, log[0], log[1], log[2], d, c)
    requires SameTerms(s, DealerAt(log[0].before, d)) && Matched(api, s, c, log[3..], d)
    ensures Matched(api, s, c, log, d)
  {
    var t := log[0].task;
    var sale := Sale(t.sender, t.out.funds[0]);
    SaleIsEntered(api, log, d, c);
    assert [sale.coin] == t.out.funds;
    OneMore(sale, SalesOf(log[3..], d), AdminOf(api, s), c, s.metadata.value);
  }

  lemma IdleIsNotEntered(api: Api, s: Dealer.DealerState, log: seq<Entry>, d: Addr, c: Addr)
    requires log != [] && Idle(api, log[0].task, d) && !Buys(log[0].task, d) && Matched(api, s, c, log[1..], d)
    ensures Matched(api, s, c, log, d) && SalesOf(log, d) == SalesOf(log[1..], d)
  {
    assert [] + SalesOf(log[1..], d) == SalesOf(log[1..], d);
    assert [] + PaymentsOf(log[1..], d) == PaymentsOf(log[1..], d);
    assert [] + MintsOf(log[1..], d) == MintsOf(log[1..], d);
  }

  /** Where a sale has led, three entries on. */
  lemma ChainAfterSale(api: Api, w: World, log: seq<Entry>, w': World, d: Addr, c: Addr)
    requires Chained(api, w, log, w') && |log| >= 3 && Pair(w, d, c)
    ensures log[0].before == w && Chained(api, log[2].after, log[3..], w')
    ensures Settles(w, log[2].after) && Pair(log[2].after, d, c)
    ensures SameTerms(DealerAt(w, d), DealerAt(log[2].after, d))
  {
    assert log[1..][1..] == log[2..] && log[2..][1..] == log[3..];
    assert Chained(api, log[1].after, log[2..], w');
    assert Chained(api, w, log[..3], log[2].after) by {
      assert log[..3][1..] == log[1..3] && log[1..3][1..] == log[2..3] && log[2..3][1..] == [];
      assert Chained(api, log[1].after, log[2..3], log[2].after);
      assert Chained(api, log[0].after, log[1..3], log[2].after);
    }
    LogSettles(api, w, log[..3], log[2].after);
    SettledPairsStay(w, log[2].after);
  }

  lemma ChainAfterIdle(api: Api, w: World, log: seq<Entry>, w': World, d: Addr, c: Addr)
    requires Chained(api, w, log, w') && log != [] && Pair(w, d, c)
    ensures log[0].before == w && Settles(w, log[0].after) && Pair(log[0].after, d, c)
    ensures SameTerms(DealerAt(w, d), DealerAt(log[0].after, d))
  {
    StepSettles(api, w, log[0].oracle, log[0].task);
    SettledPairsStay(w, log[0].after);
  }

  lemma {:induction false} LogMatches(api: Api, w: World, log: seq<Entry>, w': World, s: Dealer.DealerState,
                                      d: Addr, c: Addr)
    requires Chained(api, w, log, w') && Orderly(api, log, d, c) && Pair(w, d, c) && SameTerms(s, DealerAt(w, d))
    ensures Matched(api, s, c, log, d)
    decreases |log|
  {
    if log == [] {
    } else if Buys(log[0].task, d) {
      ChainAfterSale(api, w, log, w', d, c);
      LogMatches(api, log[2].after, log[3..], w', s, d, c);
      MatchedAfterSale(api, s, log, d, c);
    } else {
      ChainAfterIdle(api, w, log, w', d, c);
      LogMatches(api, log[0].after, log[1..], w', s, d, c);
      IdleIsNotEntered(api, s, log, d, c);
    }
  }

  /** Main result: over every history from a linked world the accepted purchases of a dealer, the
      payments it hands on to its admin and the mints it has its child make correspond one to one
      and in order, at list price and on the terms of the start. Each takes three steps in a
      row, with the payment handed on before anything else happens. */
  lemma BooksBalance(api: Api, w: World, txs: seq<Tx>, d: Addr, c: Addr)
    requires AllLinked(api, w) && Proper(api, w, txs) && Pair(w, d, c)
    ensures var log := HistoryLog(api, w, txs);
            Chained(api, w, log, History(api, w, txs)) && Orderly(api, log, d, c)
            && Matched(api, DealerAt(w, d), c, log, d)
  {
    HistoryIsChained(api, w, txs);
    HistoryIsOrderly(api, w, txs, d, c);
    LogMatches(api, w, HistoryLog(api, w, txs), History(api, w, txs), DealerAt(w, d), d, c);
  }

  // ---------- how much ----------

  function SalesIn(sales: seq<Sale>, denom: Denom): nat
    decreases |sales|
  {
    if sales == [] then 0 else (if sales[0].coin.denom == denom then 1 else 0) + SalesIn(sales[1..], denom)
  }

  function Total(coins: seq<Coin>, denom: Denom): nat
    decreases |coins|
  {
    if coins == [] then 0 else (if coins[0].denom == denom then coins[0].amount else 0) + Total(coins[1..], denom)
  }

  /** What an account has been paid by the dealer. */
  function Forwarded(payments: seq<Payment>, to: Addr, denom: Denom): nat
    decreases |payments|
  {
    if payments == [] then 0
    else (if payments[0].to == to then Total(payments[0].coins, denom) else 0) + Forwarded(payments[1..], to, denom)
  }

  lemma OneCoinTotals(coin: Coin, denom: Denom)
    ensures Total([coin], denom) == if coin.denom == denom then coin.amount else 0
  {
    assert [coin][1..] == [];
  }

  lemma OneMoreTimes(n: nat, price: nat)
    ensures (1 + n) * price == price + n * price
  {
  }

  lemma {:induction false} ForwardedIsSalesTimesPrice(s: Dealer.DealerState, sales: seq<Sale>, admin: Addr,
                                                      denom: Denom)
    requires AtListPrice(s, sales) && s.prices.Some?
    ensures Forwarded(PaymentsFor(sales, admin), admin, denom) ==
            SalesIn(sales, denom) * Dealer.Listed(s.prices.value, denom).GetOr(0)
    ensures Dealer.Listed(s.prices.value, denom).None? ==> SalesIn(sales, denom) == 0
    decreases |sales|
  {
    if sales != [] {
      ForwardedIsSalesTimesPrice(s, sales[1..], admin, denom);
      assert PaymentsFor(sales, admin)[1..] == PaymentsFor(sales[1..], admin);
      assert sales[0] in sales && ExactPrice(s, [sales[0].coin]);
      OneCoinTotals(sales[0].coin, denom);
      OneMoreTimes(SalesIn(sales[1..], denom), Dealer.Listed(s.prices.value, denom).GetOr(0));
    }
  }

  /** Main result: for each denom, what the dealer has handed on to its admin over a history is
      the number of its sales in that denom times the listed price. */
  lemma ForwardedTotals(api: Api, w: World, txs: seq<Tx>, d: Addr, c: Addr, denom: Denom)
    requires AllLinked(api, w) && Proper(api, w, txs) && Pair(w, d, c) && Trading(api, DealerAt(w, d))
    ensures var s, log := DealerAt(w, d), HistoryLog(api, w, txs);
            Forwarded(PaymentsOf(log, d), AdminOf(api, s), denom) ==
            SalesIn(SalesOf(log, d), denom) * Dealer.Listed(s.prices.value, denom).GetOr(0)
  {
    BooksBalance(api, w, txs, d, c);
    var sales := SalesOf(HistoryLog(api, w, txs), d);
    ForwardedIsSalesTimesPrice(DealerAt(w, d), sales, AdminOf(api, DealerAt(w, d)), denom);
  }

  // ---------- the dealer's own balance ----------

  /** What a step moves out of one account and into another. */
  function Outflow(t: Task, a: Addr, denom: Denom): nat {
    match t
    case Call(sender, Execute(_, _, _, funds)) => if sender == a then Total(funds, denom) else 0
    case Call(sender, BankSend(_, amount)) => if sender == a then Total(amount, denom) else 0
    case _ => 0
  }

  function Inflow(t: Task, a: Addr, denom: Denom): nat {
    match t
    case Call(_, Execute(to, _, _, funds)) => if to == a then Total(funds, denom) else 0
    case Call(_, BankSend(to, amount)) => if to == a then Total(amount, denom) else 0
    case _ => 0
  }

  lemma {:induction false} TransferAllMoves(bank: Bank, from: Addr, to: Addr, coins: seq<Coin>, a: Addr, denom: Denom)
    requires TransferAll(bank, from, to, coins).Ok?
    ensures var after := TransferAll(bank, from, to, coins).value;
            Balance(after, a, denom) + (if a == from then Total(coins, denom) else 0) ==
            Balance(bank, a, denom) + (if a == to then Total(coins, denom) else 0)
    decreases |coins|
  {
    if coins != [] {
      TransferMoves(bank, from, to, coins[0]);
      TransferAllMoves(Transfer(bank, from, to, coins[0]).value, from, to, coins[1..], a, denom);
    }
  }

  lemma StepMovesCoins(api: Api, e: Entry, a: Addr, denom: Denom)
    requires IsStep(api, e)
    ensures Balance(e.after.bank, a, denom) + Outflow(e.task, a, denom) ==
            Balance(e.before.bank, a, denom) + Inflow(e.task, a, denom)
  {
    match e.task
    case Call(sender, Execute(to, _, _, funds)) => TransferAllMoves(e.before.bank, sender, to, funds, a, denom);
    case Call(sender, BankSend(to, amount)) => TransferAllMoves(e.before.bank, sender, to, amount, a, denom);
    case Call(_, Instantiate(_, _, _, _)) =>
    case Call(_, Migrate(_, _)) =>
    case Call(_, Attempt(_, _)) =>
    case Reply(_, _, _) =>
  }

  /** What the dealer has been sent without buying anything. */
  function Gifts(log: seq<Entry>, d: Addr, denom: Denom): nat
    decreases |log|
  {
    if log == [] then 0
    else if Buys(log[0].task, d) && |log| >= 3 then Gifts(log[3..], d, denom)
    else Inflow(log[0].task, d, denom) + Gifts(log[1..], d, denom)
  }

  lemma {:induction false} LogKeepsNoPayment(api: Api, w: World, log: seq<Entry>, w': World, s: Dealer.DealerState,
                                             d: Addr, c: Addr, denom: Denom)
    requires Chained(api, w, log, w') && Orderly(api, log, d, c) && Pair(w, d, c) && SameTerms(s, DealerAt(w, d))
    requires Trading(api, s) ==> AdminOf(api, s) != d
    ensures Balance(w'.bank, d, denom) == Balance(w.bank, d, denom) + Gifts(log, d, denom)
    decreases |log|
  {
    if log == [] {
    } else if Buys(log[0].task, d) {
      ChainAfterSale(api, w, log, w', d, c);
      LogKeepsNoPayment(api, log[2].after, log[3..], w', s, d, c, denom);
    } else {
      ChainAfterIdle(api, w, log, w', d, c);
      StepMovesCoins(api, log[0], d, denom);
      LogKeepsNoPayment(api, log[0].after, log[1..], w', s, d, c, denom);
    }
  }

  /** Main result: whatever is sold, a dealer that is not its own admin holds what it held and
      what it was given besides: no payment stays with it, and nothing else ever leaves it. */
  lemma DealerKeepsNoPayment(api: Api, w: World, txs: seq<Tx>, d: Addr, c: Addr, denom: Denom)
    requires AllLinked(api, w) && Proper(api, w, txs) && Pair(w, d, c)
    requires Trading(api, DealerAt(w, d)) ==> AdminOf(api, DealerAt(w, d)) != d
    ensures Balance(History(api, w, txs).bank, d, denom) ==
            Balance(w.bank, d, denom) + Gifts(HistoryLog(api, w, txs), d, denom)
  {
    BooksBalance(api, w, txs, d, c);
    LogKeepsNoPayment(api, w, HistoryLog(api, w, txs), History(api, w, txs), DealerAt(w, d), d, c, denom);
  }

  // ---------- the tokens ----------

  /** A message that would change who may mint. */
  predicate ChangesMinters(t: Task, c: Addr) {
    && t.Call? && t.out.Execute? && t.out.contract == c && DecodeBase(t.out.msg).Ok?
    && var m := DecodeBase(t.out.msg).value;
       m.AddMinters? || m.RemoveMinters? || m.SetMinters?
  }

  /** No such message of the child's administrator took effect. */
  predicate MintersLeftAlone(api: Api, log: seq<Entry>, c: Addr) {
    forall e | e in log :: FromAdmin(api, e, c) ==> !ChangesMinters(e.task, c)
  }

  predicate SoleMinter(api: Api, w: World, d: Addr, c: Addr)
    requires Pair(w, d, c) && api.Valid(d)
  {
    ChildAt(w, c).minters == {api.Canon(d)}
  }

  predicate Issued(id: string, lo: nat, hi: nat) {
    exists n :: lo <= n < hi && Child.Numeral(n) == id
  }

  predicate TokenIs(api: Api, tokens: map<string, Child.Token>, n: nat, metadata: PurchasableMetadata, buyer: Addr) {
    api.Valid(buyer) && Child.Numeral(n) in tokens && tokens[Child.Numeral(n)] == TokenFor(api, metadata, buyer)
  }

  /** The `i`-th sale's token carries the next free number and belongs to its buyer. */
  predicate TokensSold(api: Api, metadata: PurchasableMetadata, t: Child.ChildState, t': Child.ChildState,
                       sales: seq<Sale>) {
    && t'.mintCount == t.mintCount + |sales|
    && forall i | 0 <= i < |sales| :: TokenIs(api, t'.tokens, t.mintCount + i, metadata, sales[i].buyer)
  }

  /** No other token has come, gone or changed. */
  predicate NoOtherTokens(t: Child.ChildState, t': Child.ChildState) {
    && (forall id | id in t.tokens :: id in t'.tokens && t'.tokens[id] == t.tokens[id])
    && (forall id | id in t'.tokens :: id in t.tokens || Issued(id, t.mintCount, t'.mintCount))
  }

  predicate TokensMatch(api: Api, s: Dealer.DealerState, t: Child.ChildState, t': Child.ChildState, sales: seq<Sale>) {
    && NoOtherTokens(t, t')
    && (if s.metadata.Some? then TokensSold(api, s.metadata.value, t, t', sales)
        else sales == [] && t'.mintCount == t.mintCount)
  }

  lemma SoldAfterSale(api: Api, metadata: PurchasableMetadata, t: Child.ChildState, t': Child.ChildState,
                      sale: Sale, rest: seq<Sale>)
    requires api.Valid(sale.buyer) && t.mintCount + 1 < U32_LIMIT
    requires var mid := WithMint(t, TokenFor(api, metadata, sale.buyer));
             TokensSold(api, metadata, mid, t', rest) && NoOtherTokens(mid, t')
    ensures TokensSold(api, metadata, t, t', [sale] + rest)
  {
  }

  lemma OthersAfterSale(t: Child.ChildState, t': Child.ChildState, token: Child.Token)
    requires t.mintCount + 1 < U32_LIMIT && Child.Numeral(t.mintCount) !in t.tokens
    requires NoOtherTokens(WithMint(t, token), t') && t'.mintCount > t.mintCount
    ensures NoOtherTokens(t, t')
  {
  }

  lemma TokensAfterSale(api: Api, s: Dealer.DealerState, t: Child.ChildState, t': Child.ChildState,
                        sale: Sale, rest: seq<Sale>, minter: CanonicalAddr)
    requires s.metadata.Some? && api.Valid(sale.buyer) && MintReady(t, minter)
    requires TokensMatch(api, s, WithMint(t, TokenFor(api, s.metadata.value, sale.buyer)), t', rest)
    ensures TokensMatch(api, s, t, t', [sale] + rest)
  {
    SoldAfterSale(api, s.metadata.value, t, t', sale, rest);
    OthersAfterSale(t, t', TokenFor(api, s.metadata.value, sale.buyer));
  }

  /** Nothing but numbers and tokens counts. */
  lemma TokensAfterIdle(api: Api, s: Dealer.DealerState, t: Child.ChildState, mid: Child.ChildState,
                        t': Child.ChildState, sales: seq<Sale>)
    requires mid.tokens == t.tokens && mid.mintCount == t.mintCount && TokensMatch(api, s, mid, t', sales)
    ensures TokensMatch(api, s, t, t', sales)
  {
  }

  /** Only its one minter adds tokens to a child. */
  lemma OthersMintNothing(api: Api, t: Child.ChildState, sender: Addr, d: Addr, m: ChildExecuteMsg)
    requires api.Valid(sender) && api.Valid(d) && t.minters == {api.Canon(d)}
    requires api.Canon(sender) == t.admin && m.ChildBase? ==>
               !m.base.AddMinters? && !m.base.RemoveMinters? && !m.base.SetMinters?
    requires m.ChildBase? && m.base.MintNft? ==> sender != d
    requires Child.Executed(api, t, sender, m).Ok?
    ensures var t' := Child.Executed(api, t, sender, m).value;
            t'.tokens == t.tokens && t'.mintCount == t.mintCount && t'.minters == t.minters
  {
  }

  lemma IdleKeepsTokens(api: Api, e: Entry, d: Addr, c: Addr)
    requires IsStep(api, e) && Pair(e.before, d, c) && api.Valid(d) && SoleMinter(api, e.before, d, c)
    requires Idle(api, e.task, d) && Pair(e.after, d, c) && (FromAdmin(api, e, c) ==> !ChangesMinters(e.task, c))
    ensures var t, t' := ChildAt(e.before, c), ChildAt(e.after, c);
            t'.tokens == t.tokens && t'.mintCount == t.mintCount && t'.minters == t.minters
  {
    var t := e.task;
    if t.Call? && t.out.Execute? {
      ExecuteChangesOnly(api, e.before, e.oracle, t);
      if t.out.contract == c {
        ChildAttemptsCommute(t.out.msg);
        OthersMintNothing(api, ChildAt(e.before, c), t.sender, d, DecodeChild(t.out.msg).value);
      }
    }
  }

  lemma SaleMints(api: Api, w: World, log: seq<Entry>, s: Dealer.DealerState, t': Child.ChildState, d: Addr, c: Addr)
    requires |log| >= 3 && IsSale(api, log[0], log[1], log[2], d, c) && log[0].before == w && Pair(log[2].after, d, c)
    requires SameTerms(s, DealerAt(w, d)) && SoleMinter(api, w, d, c)
    ensures SoleMinter(api, log[2].after, d, c)
    ensures TokensMatch(api, s, ChildAt(log[2].after, c), t', SalesOf(log[3..], d)) ==>
              TokensMatch(api, s, ChildAt(w, c), t', SalesOf(log, d))
  {
    var sale := Sale(log[0].task.sender, log[0].task.out.funds[0]);
    SaleIsEntered(api, log, d, c);
    if TokensMatch(api, s, ChildAt(log[2].after, c), t', SalesOf(log[3..], d)) {
      TokensAfterSale(api, s, ChildAt(w, c), t', sale, SalesOf(log[3..], d), api.Canon(d));
    }
  }

  lemma IdleSellsNothing(log: seq<Entry>, d: Addr)
    requires log != [] && !Buys(log[0].task, d)
    ensures SalesOf(log, d) == SalesOf(log[1..], d)
  {
    assert [] + SalesOf(log[1..], d) == SalesOf(log[1..], d);
  }

  lemma IdleMintsNothing(api: Api, w: World, log: seq<Entry>, s: Dealer.DealerState, t': Child.ChildState,
                         d: Addr, c: Addr)
    requires log != [] && IsStep(api, log[0]) && log[0].before == w && Pair(w, d, c) && Pair(log[0].after, d, c)
    requires Idle(api, log[0].task, d) && !Buys(log[0].task, d)
    requires FromAdmin(api, log[0], c) ==> !ChangesMinters(log[0].task, c)
    requires api.Valid(d) && SoleMinter(api, w, d, c)
    ensures SoleMinter(api, log[0].after, d, c)
    ensures TokensMatch(api, s, ChildAt(log[0].after, c), t', SalesOf(log[1..], d)) ==>
              TokensMatch(api, s, ChildAt(w, c), t', SalesOf(log, d))
  {
    IdleKeepsTokens(api, log[0], d, c);
    IdleSellsNothing(log, d);
    var sales := SalesOf(log, d);
    if TokensMatch(api, s, ChildAt(log[0].after, c), t', sales) {
      TokensAfterIdle(api, s, ChildAt(w, c), ChildAt(log[0].after, c), t', sales);
    }
  }

  lemma {:induction false} LogKeepsTokens(api: Api, w: World, log: seq<Entry>, w': World, s: Dealer.DealerState,
                                          d: Addr, c: Addr)
    requires Chained(api, w, log, w') && Orderly(api, log, d, c) && Pair(w, d, c) && Pair(w', d, c)
    requires SameTerms(s, DealerAt(w, d))
    requires api.Valid(d) && SoleMinter(api, w, d, c) && MintersLeftAlone(api, log, c)
    ensures SoleMinter(api, w', d, c)
    ensures TokensMatch(api, s, ChildAt(w, c), ChildAt(w', c), SalesOf(log, d))
    decreases |log|
  {
    if log == [] {
    } else if Buys(log[0].task, d) {
      ChainAfterSale(api, w, log, w', d, c);
      SaleMints(api, w, log, s, ChildAt(w', c), d, c);
      LogKeepsTokens(api, log[2].after, log[3..], w', s, d, c);
    } else {
      assert log[0] in log;
      ChainAfterIdle(api, w, log, w', d, c);
      IdleMintsNothing(api, w, log, s, ChildAt(w', c), d, c);
      LogKeepsTokens(api, log[0].after, log[1..], w', s, d, c);
    }
  }

  /** Main result: as long as nobody changes the minters, the tokens that a history adds are those
      of its sales: numbered in the order of the sales, owned by the buyers, with the metadata
      of the start. */
  lemma TokensMatchSales(api: Api, w: World, txs: seq<Tx>, d: Addr, c: Addr)
    requires AllLinked(api, w) && Proper(api, w, txs) && Pair(w, d, c) && SoleMinter(api, w, d, c)
    requires MintersLeftAlone(api, HistoryLog(api, w, txs), c)
    ensures var w' := History(api, w, txs);
            && Pair(w', d, c) && SoleMinter(api, w', d, c)
            && TokensMatch(api, DealerAt(w, d), ChildAt(w, c), ChildAt(w', c), SalesOf(HistoryLog(api, w, txs), d))
  {
    BooksBalance(api, w, txs, d, c);
    HistorySettles(api, w, txs);
    SettledPairsStay(w, History(api, w, txs));
    LogKeepsTokens(api, w, HistoryLog(api, w, txs), History(api, w, txs), DealerAt(w, d), d, c);
  }

  // ---------- whoever else mints ----------

  /** No token is taken away or changed. */
  predicate KeepsTokens(t: Child.ChildState, t': Child.ChildState) {
    forall id | id in t.tokens :: id in t'.tokens && t'.tokens[id] == t.tokens[id]
  }

  lemma ChildKeepsTokens(api: Api, t: Child.ChildState, sender: Addr, m: ChildExecuteMsg)
    requires Child.Executed(api, t, sender, m).Ok?
    ensures KeepsTokens(t, Child.Executed(api, t, sender, m).value)
  {
  }

  lemma StepKeepsOldTokens(api: Api, e: Entry, d: Addr, c: Addr)
    requires IsStep(api, e) && Pair(e.before, d, c) && Pair(e.after, d, c)
    ensures KeepsTokens(ChildAt(e.before, c), ChildAt(e.after, c))
  {
    var t := e.task;
    if t.Call? && t.out.Execute? {
      ExecuteChangesOnly(api, e.before, e.oracle, t);
      if t.out.contract == c {
        ChildKeepsTokens(api, ChildAt(e.before, c), t.sender, DecodeChild(t.out.msg).value);
      }
    }
  }

  lemma {:induction false} LogKeepsOldTokens(api: Api, w: World, log: seq<Entry>, w': World, d: Addr, c: Addr)
    requires Chained(api, w, log, w') && Pair(w, d, c)
    ensures Pair(w', d, c) && KeepsTokens(ChildAt(w, c), ChildAt(w', c))
    decreases |log|
  {
    if log != [] {
      ChainAfterIdle(api, w, log, w', d, c);
      StepKeepsOldTokens(api, log[0], d, c);
      LogKeepsOldTokens(api, log[0].after, log[1..], w', d, c);
    }
  }

  /** Every sale of the log has its token among `tokens`: under the number that was next when it
      was sold, with the buyer as owner and the dealer's metadata. */
  predicate Fulfilled(api: Api, s: Dealer.DealerState, log: seq<Entry>, d: Addr, c: Addr,
                      tokens: map<string, Child.Token>)
    decreases |log|
  {
    log == [] ||
    (if Buys(log[0].task, d)
     then
       && |log| >= 3 && Pair(log[0].before, d, c) && s.metadata.Some?
       && TokenIs(api, tokens, ChildAt(log[0].before, c).mintCount, s.metadata.value, log[0].task.sender)
       && Fulfilled(api, s, log[3..], d, c, tokens)
     else Fulfilled(api, s, log[1..], d, c, tokens))
  }

  lemma {:induction false} LogFulfils(api: Api, w: World, log: seq<Entry>, w': World, s: Dealer.DealerState,
                                      d: Addr, c: Addr)
    requires Chained(api, w, log, w') && Orderly(api, log, d, c) && Pair(w, d, c) && Pair(w', d, c)
    requires SameTerms(s, DealerAt(w, d))
    ensures Fulfilled(api, s, log, d, c, ChildAt(w', c).tokens)
    decreases |log|
  {
    if log == [] {
    } else if Buys(log[0].task, d) {
      ChainAfterSale(api, w, log, w', d, c);
      LogKeepsOldTokens(api, log[2].after, log[3..], w', d, c);
      LogFulfils(api, log[2].after, log[3..], w', s, d, c);
    } else {
      ChainAfterIdle(api, w, log, w', d, c);
      LogFulfils(api, log[0].after, log[1..], w', s, d, c);
    }
  }

  /** Main result: whoever else may mint or comes to, at the end of every history every purchase has
      its token. */
  lemma EverySaleIsFulfilled(api: Api, w: World, txs: seq<Tx>, d: Addr, c: Addr)
    requires AllLinked(api, w) && Proper(api, w, txs) && Pair(w, d, c)
    ensures var w' := History(api, w, txs);
            && Pair(w', d, c)
            && Fulfilled(api, DealerAt(w, d), HistoryLog(api, w, txs), d, c, ChildAt(w', c).tokens)
  {
    BooksBalance(api, w, txs, d, c);
    LogKeepsOldTokens(api, w, HistoryLog(api, w, txs), History(api, w, txs), d, c);
    LogFulfils(api, w, HistoryLog(api, w, txs), History(api, w, txs), DealerAt(w, d), d, c);
  }
}
