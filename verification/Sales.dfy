/** One purchase, wherever in a transaction it happens: when it is accepted, what it leads to. */
module Sales {
  import opened Types
  import opened Wire
  import opened Chain
  import opened Logs
  import opened Link
  import Child
  import Dealer

  // ---------- the money side ----------

  function Credit(account: Addr, denom: Denom, payee: Addr, coin: Coin): nat {
    if account == payee && denom == coin.denom then coin.amount else 0
  }

  lemma TransferMoves(bank: Bank, from: Addr, to: Addr, coin: Coin)
    ensures Transfer(bank, from, to, coin).Ok? <==> Balance(bank, from, coin.denom) >= coin.amount
    ensures Transfer(bank, from, to, coin).Ok? ==>
              forall a, denom :: Balance(Transfer(bank, from, to, coin).value, a, denom) ==
                                 Balance(bank, a, denom) - Credit(a, denom, from, coin) + Credit(a, denom, to, coin)
  {
  }

  lemma OneCoin(bank: Bank, from: Addr, to: Addr, coin: Coin)
    ensures TransferAll(bank, from, to, [coin]) == Transfer(bank, from, to, coin)
  {
  }

  /** `after` is `before` with `coin` moved from one account to another. */
  ghost predicate Paid(before: Bank, after: Bank, from: Addr, to: Addr, coin: Coin) {
    forall a, denom :: Balance(after, a, denom) ==
                       Balance(before, a, denom) - Credit(a, denom, from, coin) + Credit(a, denom, to, coin)
  }

  /** Payment through the dealer: what arrives leaves again at once. */
  lemma PaymentPassesThrough(bank: Bank, buyer: Addr, dealer: Addr, admin: Addr, coin: Coin)
    ensures TransferAll(bank, buyer, dealer, [coin]).Ok? <==> Balance(bank, buyer, coin.denom) >= coin.amount
    ensures TransferAll(bank, buyer, dealer, [coin]).Ok? ==>
              var mid := TransferAll(bank, buyer, dealer, [coin]).value;
              var last := TransferAll(mid, dealer, admin, [coin]);
              last.Ok? && Paid(bank, last.value, buyer, admin, coin)
  {
    OneCoin(bank, buyer, dealer, coin);
    TransferMoves(bank, buyer, dealer, coin);
    if TransferAll(bank, buyer, dealer, [coin]).Ok? {
      var mid := TransferAll(bank, buyer, dealer, [coin]).value;
      assert Balance(mid, dealer, coin.denom) >= coin.amount;
      OneCoin(mid, dealer, admin, coin);
      TransferMoves(mid, dealer, admin, coin);
    }
  }

  // ---------- one purchase ----------

  /** The dealer's terms are on record, as they are from instantiation on. */
  predicate Trading(api: Api, s: Dealer.DealerState) {
    && s.prices.Some? && s.metadata.Some?
    && s.admin.Some? && api.humanize(s.admin.value).Ok?
  }

  function AdminOf(api: Api, s: Dealer.DealerState): Addr
    requires Trading(api, s)
  {
    api.humanize(s.admin.value).value
  }

  /** The child will mint for `minter` under the next free number. */
  predicate MintReady(t: Child.ChildState, minter: CanonicalAddr) {
    && t.status == Normal && minter in t.minters
    && Child.Numeral(t.mintCount) !in t.tokens && t.mintCount + 1 < U32_LIMIT
  }

  function TokenFor(api: Api, metadata: PurchasableMetadata, buyer: Addr): Child.Token
    requires api.Valid(buyer)
  {
    Child.Token(api.Canon(buyer), metadata.publicMetadata, metadata.privateMetadata)
  }

  function WithMint(t: Child.ChildState, token: Child.Token): Child.ChildState
    requires t.mintCount + 1 < U32_LIMIT
  {
    t.(tokens := t.tokens[Child.Numeral(t.mintCount) := token], mintCount := t.mintCount + 1)
  }

  /** Exactly one coin, of a listed denom, in exactly the listed amount. */
  predicate ExactPrice(s: Dealer.DealerState, funds: seq<Coin>) {
    s.prices.Some? && |funds| == 1 && Dealer.Listed(s.prices.value, funds[0].denom) == Some(funds[0].amount)
  }

  /** Somebody, account or contract, asks the dealer for a mint. */
  predicate Buys(t: Task, d: Addr) {
    t.Call? && t.out.Execute? && t.out.contract == d && DecodePurchase(t.out.msg).Ok?
  }

  function Purchase(buyer: Addr, d: Addr, codeHash: CodeHash, funds: seq<Coin>): Task {
    Call(buyer, Execute(d, codeHash, EncodePurchase(PurchaseMint), funds))
  }

  function ForwardTask(api: Api, w: World, d: Addr, funds: seq<Coin>): Task
    requires d in w.contracts && w.contracts[d].storage.DealerStorage? && Trading(api, DealerAt(w, d))
  {
    Call(d, BankSend(AdminOf(api, DealerAt(w, d)), funds))
  }

  function MintTask(api: Api, w: World, d: Addr, c: Addr, buyer: Addr): Task
    requires Pair(w, d, c) && Trading(api, DealerAt(w, d))
  {
    Call(d, Execute(c, w.contracts[c].codeHash, EncodeBase(Dealer.MintFor(buyer, DealerAt(w, d).metadata.value)), []))
  }

  /** The world `w` with its next token minted for the buyer. */
  function Minted(api: Api, w: World, d: Addr, c: Addr, buyer: Addr): World
    requires Pair(w, d, c) && Trading(api, DealerAt(w, d)) && api.Valid(buyer)
    requires ChildAt(w, c).mintCount + 1 < U32_LIMIT
  {
    WithStorage(w, c, ChildStorage(WithMint(ChildAt(w, c), TokenFor(api, DealerAt(w, d).metadata.value, buyer))))
  }

  lemma MintIsExact(api: Api, w: World, o: Oracle, d: Addr, c: Addr, buyer: Addr)
    requires Pair(w, d, c) && Trading(api, DealerAt(w, d)) && api.Valid(d) && api.Valid(buyer)
    ensures Step(api, w, o, MintTask(api, w, d, c, buyer)) ==
            if MintReady(ChildAt(w, c), api.Canon(d)) then Ok(Stepped(Minted(api, w, d, c, buyer), o, [])) else Err
  {
    var m := Dealer.MintFor(buyer, DealerAt(w, d).metadata.value);
    BaseRoundTrip(m);
    ChildAttemptsCommute(EncodeBase(m));
  }

  /** The dealer's answer to a purchase. */
  lemma PurchaseIsAnswered(api: Api, s: Dealer.DealerState, info: MessageInfo, child: Addr)
    requires s.childAddress.Some? && s.childCodeHash.Some? && api.humanize(s.childAddress.value) == Ok(child)
    ensures Dealer.Purchased(api, s, info).Ok? <==> ExactPrice(s, info.funds) && Trading(api, s)
    ensures Dealer.Purchased(api, s, info).Ok? ==>
              Dealer.Purchased(api, s, info).value ==
              [BankSend(AdminOf(api, s), info.funds),
               Execute(child, s.childCodeHash.value, EncodeBase(Dealer.MintFor(info.sender, s.metadata.value)), [])]
  {
  }

  /** A purchase is accepted exactly when it names the dealer's current hash, the price is exact
      and the buyer can pay; the payment handed on and the mint are then what comes next. */
  lemma PurchaseStep(api: Api, w: World, o: Oracle, t: Task, d: Addr, c: Addr)
    requires Buys(t, d) && Pair(w, d, c) && api.Valid(d) && api.Valid(c) && KnowsItsChild(api, w, d, c)
    ensures var s, funds := DealerAt(w, d), t.out.funds;
            var r := Step(api, w, o, t);
            && (r.Ok? <==> t.out.codeHash == w.contracts[d].codeHash && ExactPrice(s, funds) && Trading(api, s)
                           && TransferAll(w.bank, t.sender, d, funds).Ok?)
            && (r.Ok? ==>
                  r.value == Stepped(w.(bank := TransferAll(w.bank, t.sender, d, funds).value), o,
                                     [ForwardTask(api, w, d, funds), MintTask(api, w, d, c, t.sender)]))
  {
    DealerAttemptsCommute(t.out.msg);
    var s := DealerAt(w, d);
    PurchaseIsAnswered(api, s, MessageInfo(t.sender, t.out.funds), c);
    if Trading(api, s) {
      StampedPair(d, BankSend(AdminOf(api, s), t.out.funds),
                  Execute(c, w.contracts[c].codeHash, EncodeBase(Dealer.MintFor(t.sender, s.metadata.value)), []));
    }
  }

  /** The three steps of a purchase accepted by a dealer that knows its child: the worlds after
      the first and the second; the third mints or fails. */
  lemma SaleSteps(api: Api, w: World, o: Oracle, t: Task, d: Addr, c: Addr) returns (paid: World, forwarded: World)
    requires Buys(t, d) && Pair(w, d, c) && api.Valid(d) && api.Valid(c) && api.Valid(t.sender)
    requires KnowsItsChild(api, w, d, c) && Step(api, w, o, t).Ok?
    ensures Trading(api, DealerAt(w, d)) && ExactPrice(DealerAt(w, d), t.out.funds)
    ensures paid == w.(bank := paid.bank) && forwarded == w.(bank := forwarded.bank)
    ensures Paid(w.bank, forwarded.bank, t.sender, AdminOf(api, DealerAt(w, d)), t.out.funds[0])
    ensures var send, mint := ForwardTask(api, w, d, t.out.funds), MintTask(api, w, d, c, t.sender);
            && Step(api, w, o, t) == Ok(Stepped(paid, o, [send, mint]))
            && Step(api, paid, o, send) == Ok(Stepped(forwarded, o, []))
            && Step(api, forwarded, o, mint) ==
               if MintReady(ChildAt(w, c), api.Canon(d))
               then Ok(Stepped(Minted(api, forwarded, d, c, t.sender), o, [])) else Err
  {
    var funds := t.out.funds;
    PurchaseStep(api, w, o, t, d, c);
    paid := w.(bank := TransferAll(w.bank, t.sender, d, funds).value);
    assert funds == [funds[0]];
    PaymentPassesThrough(w.bank, t.sender, d, AdminOf(api, DealerAt(w, d)), funds[0]);
    forwarded := w.(bank := TransferAll(paid.bank, d, AdminOf(api, DealerAt(w, d)), funds).value);
    assert MintTask(api, forwarded, d, c, t.sender) == MintTask(api, w, d, c, t.sender);
    MintIsExact(api, forwarded, o, d, c, t.sender);
  }

  // ---------- purchases in a log ----------

  predicate Mints(msg: Json) {
    DecodeBase(msg).Ok? && DecodeBase(msg).value.MintNft?
  }

  /** The dealer `d` neither pays nor mints here, and the sender is an address. */
  predicate Idle(api: Api, t: Task, d: Addr) {
    t.Call? ==>
      && api.Valid(t.sender)
      && (t.sender == d ==> t.out.Execute? && t.out.funds == [] && !Mints(t.out.msg))
  }

  /** An accepted purchase: exactly the listed price comes in and goes on to the admin, then the
      child mints for the buyer under the next number; the buyer has paid, the admin has been
      paid, and no other balance, the dealer's included, is moved. */
  ghost predicate IsSale(api: Api, bought: Entry, sent: Entry, minted: Entry, d: Addr, c: Addr) {
    var w, t := bought.before, bought.task;
    && Pair(w, d, c) && Buys(t, d) && api.Valid(t.sender) && t.sender != d && api.Valid(d)
    && Trading(api, DealerAt(w, d)) && ExactPrice(DealerAt(w, d), t.out.funds)
    && sent.before == bought.after && minted.before == sent.after
    && sent.task == ForwardTask(api, w, d, t.out.funds)
    && minted.task == MintTask(api, w, d, c, t.sender)
    && Paid(w.bank, minted.after.bank, t.sender, AdminOf(api, DealerAt(w, d)), t.out.funds[0])
    && MintReady(ChildAt(w, c), api.Canon(d))
    && minted.after == Minted(api, w, d, c, t.sender).(bank := minted.after.bank)
  }

  /** What the three steps of a sale enter in the log, when the third one mints. */
  lemma SaleEntries(api: Api, w: World, o: Oracle, t: Task, d: Addr, c: Addr)
    returns (ok: bool, paid: World, forwarded: World)
    requires Buys(t, d) && Pair(w, d, c) && api.Valid(d) && api.Valid(c) && api.Valid(t.sender) && t.sender != d
    requires KnowsItsChild(api, w, d, c) && Step(api, w, o, t).Ok?
    ensures Trading(api, DealerAt(w, d)) && ExactPrice(DealerAt(w, d), t.out.funds)
    ensures paid == w.(bank := paid.bank) && forwarded == w.(bank := forwarded.bank)
    ensures ok ==> ChildAt(w, c).mintCount + 1 < U32_LIMIT
    ensures var send, mint := ForwardTask(api, w, d, t.out.funds), MintTask(api, w, d, c, t.sender);
            && Step(api, w, o, t) == Ok(Stepped(paid, o, [send, mint]))
            && Step(api, paid, o, send) == Ok(Stepped(forwarded, o, []))
            && (if ok
                then Step(api, forwarded, o, mint) == Ok(Stepped(Minted(api, forwarded, d, c, t.sender), o, []))
                else Step(api, forwarded, o, mint).Err?)
            && (ok ==> IsSale(api, Entry(w, o, t, paid), Entry(paid, o, send, forwarded),
                              Entry(forwarded, o, mint, Minted(api, forwarded, d, c, t.sender)), d, c))
  {
    paid, forwarded := SaleSteps(api, w, o, t, d, c);
    ok := MintReady(ChildAt(w, c), api.Canon(d));
  }

  /** The dealer pays and mints as it sells and not otherwise: a log is made of complete sales
      and of entries in which the dealer is idle. */
  ghost predicate Orderly(api: Api, log: seq<Entry>, d: Addr, c: Addr)
    decreases |log|
  {
    log == [] ||
    (if Buys(log[0].task, d)
     then |log| >= 3 && IsSale(api, log[0], log[1], log[2], d, c) && Orderly(api, log[3..], d, c)
     else Idle(api, log[0].task, d) && Orderly(api, log[1..], d, c))
  }

  lemma {:induction false} OrderlyJoins(api: Api, a: seq<Entry>, b: seq<Entry>, d: Addr, c: Addr)
    requires Orderly(api, a, d, c) && Orderly(api, b, d, c)
    ensures Orderly(api, a + b, d, c)
    decreases |a|
  {
    if a == [] {
      assert a + b == b;
    } else if Buys(a[0].task, d) {
      assert (a + b)[3..] == a[3..] + b;
      OrderlyJoins(api, a[3..], b, d, c);
    } else {
      assert (a + b)[1..] == a[1..] + b;
      OrderlyJoins(api, a[1..], b, d, c);
    }
  }

  // ---------- a purchase as a transaction ----------

  predicate Sells(api: Api, w: World, d: Addr, c: Addr, buyer: Addr, codeHash: CodeHash, funds: seq<Coin>)
    requires Pair(w, d, c) && api.Valid(d)
  {
    && codeHash == w.contracts[d].codeHash
    && ExactPrice(DealerAt(w, d), funds)
    && Balance(w.bank, buyer, funds[0].denom) >= funds[0].amount
    && MintReady(ChildAt(w, c), api.Canon(d))
  }

  /** Main result: a purchase from a dealer that knows its child commits exactly when the price
      is exact, the buyer can pay and the child will mint; then the money is with the admin, the
      token with the buyer, and nothing else has changed. A refused mint undoes the payment. */
  lemma PurchaseIsExact(api: Api, w: World, o: Oracle, d: Addr, c: Addr, buyer: Addr, codeHash: CodeHash,
                        funds: seq<Coin>)
    requires Pair(w, d, c) && api.Valid(d) && api.Valid(c) && KnowsItsChild(api, w, d, c)
    requires Trading(api, DealerAt(w, d)) && api.Valid(buyer)
    ensures var r := Run(api, w, o, [Purchase(buyer, d, codeHash, funds)]);
            && (r.Ok? <==> Sells(api, w, d, c, buyer, codeHash, funds))
            && (r.Ok? ==>
                  && r.value == Minted(api, w, d, c, buyer).(bank := r.value.bank)
                  && Paid(w.bank, r.value.bank, buyer, AdminOf(api, DealerAt(w, d)), funds[0]))
  {
    var root := Purchase(buyer, d, codeHash, funds);
    PurchaseRoundTrip(PurchaseMint);
    RunLast(api, w, o, root);
    PurchaseStep(api, w, o, root, d, c);
    if ExactPrice(DealerAt(w, d), funds) {
      assert funds == [funds[0]];
      PaymentPassesThrough(w.bank, buyer, d, AdminOf(api, DealerAt(w, d)), funds[0]);
    }
    if Step(api, w, o, root).Ok? {
      var paid, forwarded := SaleSteps(api, w, o, root, d, c);
      var send, mint := ForwardTask(api, w, d, funds), MintTask(api, w, d, c, buyer);
      assert [send, mint] == [send] + [mint] && [] + [mint] == [mint];
      RunFollows(api, paid, o, send, [mint], Stepped(forwarded, o, []));
      RunLast(api, forwarded, o, mint);
    }
  }
}
