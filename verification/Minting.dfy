/** The dealer's right to mint, over every history in which nobody takes it away. */
module Minting {
  import opened Types
  import opened Wire
  import opened Chain
  import opened Logs
  import opened Link
  import opened Sales
  import opened Conserved
  import opened Administration
  import opened Handshake
  import opened Runs
  import opened Books
  import Child

  /** Tokens carry the numerals below the counter and nothing else. */
  predicate Dense(t: Child.ChildState) {
    forall id | id in t.tokens :: Issued(id, 0, t.mintCount)
  }

  /** A mint without a token id cannot collide. */
  lemma NextNumberIsFree(t: Child.ChildState)
    requires Dense(t)
    ensures Child.Numeral(t.mintCount) !in t.tokens
  {
    if Child.Numeral(t.mintCount) in t.tokens {
      assert Issued(Child.Numeral(t.mintCount), 0, t.mintCount);
      var n :| 0 <= n < t.mintCount && Child.Numeral(n) == Child.Numeral(t.mintCount);
      Child.NumeralInjective(n, t.mintCount);
    }
  }

  /** The dealer is the only one to mint, and has not picked a token id. */
  predicate Guarded(api: Api, w: World, d: Addr, c: Addr) {
    Pair(w, d, c) && api.Valid(d) && SoleMinter(api, w, d, c) && Dense(ChildAt(w, c))
  }

  /** The handshake itself leaves the child so. */
  lemma HandshakeGuards(api: Api, w: World, o: Oracle, signer: Addr, wasmAdmin: Option<Addr>,
                        codeHash: CodeHash, init: DealerInit)
    requires CanOpen(api, w, o, signer, wasmAdmin, codeHash, init)
    ensures Guarded(api, Opened(api, w, o, signer, wasmAdmin, codeHash, init), o.addresses[0], o.addresses[1])
  {
  }

  lemma DenseStays(t: Child.ChildState, t': Child.ChildState)
    requires Dense(t) && NoOtherTokens(t, t') && t.mintCount <= t'.mintCount
    ensures Dense(t')
  {
    forall id | id in t'.tokens ensures Issued(id, 0, t'.mintCount) {
      var lo := if id in t.tokens then 0 else t.mintCount;
      var hi := if id in t.tokens then t.mintCount else t'.mintCount;
      assert Issued(id, lo, hi);
      var n :| lo <= n < hi && Child.Numeral(n) == id;
    }
  }

  /** Purchases, migrations, subscriptions, a change of the administrator, a stop and a restart:
      nothing but a change of the minters takes the right to mint from the dealer. */
  lemma HistoryStaysGuarded(api: Api, w: World, txs: seq<Tx>, d: Addr, c: Addr)
    requires AllLinked(api, w) && Proper(api, w, txs) && Guarded(api, w, d, c)
    requires MintersLeftAlone(api, HistoryLog(api, w, txs), c)
    ensures Guarded(api, History(api, w, txs), d, c)
  {
    TokensMatchSales(api, w, txs, d, c);
    DenseStays(ChildAt(w, c), ChildAt(History(api, w, txs), c));
  }

  /** Main result: after any history in which nobody changed the minters, every purchase at the
      price listed at the start, by a buyer who can pay it, commits and mints if and only if the
      child is then in normal status and numbers last. */
  lemma ExactPurchasesCommit(api: Api, w: World, txs: seq<Tx>, d: Addr, c: Addr,
                             buyer: Addr, funds: seq<Coin>, o: Oracle)
    requires AllLinked(api, w) && Proper(api, w, txs) && Guarded(api, w, d, c)
    requires MintersLeftAlone(api, HistoryLog(api, w, txs), c)
    requires Trading(api, DealerAt(w, d)) && ExactPrice(DealerAt(w, d), funds)
    requires api.Valid(buyer) && Balance(History(api, w, txs).bank, buyer, funds[0].denom) >= funds[0].amount
    ensures var w' := History(api, w, txs);
            && Pair(w', d, c)
            && var t := ChildAt(w', c);
               var r := Run(api, w', o, [Purchase(buyer, d, w'.contracts[d].codeHash, funds)]);
            && (r.Ok? <==> t.status.Normal? && t.mintCount + 1 < U32_LIMIT)
            && (r.Ok? ==>
                  && c in r.value.contracts
                  && r.value.contracts[c].storage ==
                     ChildStorage(WithMint(t, TokenFor(api, DealerAt(w, d).metadata.value, buyer)))
                  && Paid(w'.bank, r.value.bank, buyer, AdminOf(api, DealerAt(w, d)), funds[0]))
  {
    var w' := History(api, w, txs);
    EveryHistoryLinks(api, w, txs);
    HistorySettles(api, w, txs);
    HistoryStaysGuarded(api, w, txs, d, c);
    NextNumberIsFree(ChildAt(w', c));
    assert Holds(api, w', d, c);
    PurchaseIsExact(api, w', o, d, c, buyer, w'.contracts[d].codeHash, funds);
  }

  // ---------- with other minters ----------

  /** A message that takes the right to mint from the dealer. */
  predicate DropsMinter(api: Api, t: Task, d: Addr, c: Addr)
    requires api.Valid(d)
  {
    && t.Call? && t.out.Execute? && t.out.contract == c && DecodeBase(t.out.msg).Ok?
    && match DecodeBase(t.out.msg).value
       case RemoveMinters(minters, _) => api.Canon(d) in Child.CanonicalizeSet(api, minters).GetOr({})
       case SetMinters(minters, _) => api.Canon(d) !in Child.CanonicalizeSet(api, minters).GetOr({})
       case _ => false
  }

  /** The child's administrator issues no such message. */
  predicate DealerIsLeftMinter(api: Api, log: seq<Entry>, d: Addr, c: Addr)
    requires api.Valid(d)
  {
    forall e | e in log :: FromAdmin(api, e, c) ==> !DropsMinter(api, e.task, d, c)
  }

  predicate MayMint(api: Api, w: World, d: Addr, c: Addr)
    requires Pair(w, d, c) && api.Valid(d)
  {
    api.Canon(d) in ChildAt(w, c).minters
  }

  lemma ChildKeepsMinter(api: Api, t: Child.ChildState, sender: Addr, m: ChildExecuteMsg, minter: CanonicalAddr)
    requires Child.Executed(api, t, sender, m).Ok? && minter in t.minters
    requires api.canonicalize(sender) == Ok(t.admin) && m.ChildBase? && m.base.RemoveMinters? ==>
               minter !in Child.CanonicalizeSet(api, m.base.minters).GetOr({})
    requires api.canonicalize(sender) == Ok(t.admin) && m.ChildBase? && m.base.SetMinters? ==>
               minter in Child.CanonicalizeSet(api, m.base.minters).GetOr({})
    ensures minter in Child.Executed(api, t, sender, m).value.minters
  {
  }

  lemma StepKeepsMinter(api: Api, e: Entry, d: Addr, c: Addr)
    requires IsStep(api, e) && Pair(e.before, d, c) && Pair(e.after, d, c) && api.Valid(d)
    requires MayMint(api, e.before, d, c) && (FromAdmin(api, e, c) ==> !DropsMinter(api, e.task, d, c))
    ensures MayMint(api, e.after, d, c)
  {
    var t := e.task;
    if t.Call? && t.out.Execute? {
      ExecuteChangesOnly(api, e.before, e.oracle, t);
      if t.out.contract == c {
        ChildAttemptsCommute(t.out.msg);
        ChildKeepsMinter(api, ChildAt(e.before, c), t.sender, DecodeChild(t.out.msg).value, api.Canon(d));
      }
    }
  }

  lemma {:induction false} LogKeepsMinter(api: Api, w: World, log: seq<Entry>, w': World, d: Addr, c: Addr)
    requires Chained(api, w, log, w') && Pair(w, d, c) && api.Valid(d)
    requires MayMint(api, w, d, c) && DealerIsLeftMinter(api, log, d, c)
    ensures Pair(w', d, c) && MayMint(api, w', d, c)
    decreases |log|
  {
    if log != [] {
      assert log[0] in log;
      ChainAfterIdle(api, w, log, w', d, c);
      StepKeepsMinter(api, log[0], d, c);
      LogKeepsMinter(api, log[0].after, log[1..], w', d, c);
    }
  }

  /** Main result: whoever is made a minter besides, as long as the dealer is not dropped, every
      purchase at the price listed at the start, by a buyer who can pay it, commits if and only if
      the child is in normal status, its next number is free and its counter lasts. */
  lemma PurchasesCommitWhileMinter(api: Api, w: World, txs: seq<Tx>, d: Addr, c: Addr,
                                   buyer: Addr, funds: seq<Coin>, o: Oracle)
    requires AllLinked(api, w) && Proper(api, w, txs) && Pair(w, d, c) && MayMint(api, w, d, c)
    requires DealerIsLeftMinter(api, HistoryLog(api, w, txs), d, c)
    requires Trading(api, DealerAt(w, d)) && ExactPrice(DealerAt(w, d), funds)
    requires api.Valid(buyer) && Balance(History(api, w, txs).bank, buyer, funds[0].denom) >= funds[0].amount
    ensures var w' := History(api, w, txs);
            && Pair(w', d, c) && MayMint(api, w', d, c)
            && var t := ChildAt(w', c);
               var r := Run(api, w', o, [Purchase(buyer, d, w'.contracts[d].codeHash, funds)]);
            && (r.Ok? <==> t.status.Normal? && Child.Numeral(t.mintCount) !in t.tokens && t.mintCount + 1 < U32_LIMIT)
            && (r.Ok? ==>
                  && c in r.value.contracts
                  && r.value.contracts[c].storage ==
                     ChildStorage(WithMint(t, TokenFor(api, DealerAt(w, d).metadata.value, buyer)))
                  && Paid(w'.bank, r.value.bank, buyer, AdminOf(api, DealerAt(w, d)), funds[0]))
  {
    var w' := History(api, w, txs);
    EveryHistoryLinks(api, w, txs);
    HistorySettles(api, w, txs);
    SettledPairsStay(w, w');
    HistoryIsChained(api, w, txs);
    LogKeepsMinter(api, w, HistoryLog(api, w, txs), w', d, c);
    assert Holds(api, w', d, c);
    PurchaseIsExact(api, w', o, d, c, buyer, w'.contracts[d].codeHash, funds);
  }
}
