/** Each message on its own: exactly when a contract accepts it, and everything it then changes or
    sends, said of the stored items and of messages as their recipients read them. */
module Rules {
  import opened Types
  import opened Wire
  import opened Subscribers
  import Child
  import Dealer

  // ---------- the child ----------

  /** The limit of subscribers is the one in the message; the administrator, the sender if none is
      named, is the only minter. */
  lemma ChildIsInstantiated(api: Api, sender: Addr, init: ChildInit)
    ensures var r := Child.BaseInstantiated(api, sender, init);
            var admin := if init.admin == None then sender else init.admin.value;
            && (r.Ok? <==> api.Valid(admin))
            && (r.Ok? ==>
                  && r.value.slots == Some(init.maxSubscribers) && r.value.subscribers == None
                  && r.value.admin == api.Canon(admin) && r.value.minters == {api.Canon(admin)}
                  && r.value.tokens == map[] && r.value.mintCount == 0 && r.value.status == Normal)
  {
  }

  lemma ChildSubscribes(api: Api, s: Child.ChildState, sender: Addr, address: Addr, codeHash: CodeHash)
    ensures var r := Child.Executed(api, s, sender, ChildMigrate(Subscribe(address, codeHash)));
            && (r.Ok? <==> api.canonicalize(address).Ok? && s.slots != Some(0))
            && (r.Ok? ==>
                  && r.value == s.(subscribers := r.value.subscribers, slots := r.value.slots)
                  && r.value.subscribers == Some(s.subscribers.GetOr([]) +
                                                 [CanonicalContractInfo(api.canonicalize(address).value, codeHash)])
                  && (if s.slots.Some? then r.value.slots.Some? && r.value.slots.value + 1 == s.slots.value
                      else r.value.slots.None?))
  {
    RegisteredIff(api, s.subscribers, s.slots, address, codeHash);
  }

  /** The list `after` is the list `before` with every entry of the sender pointing to `to`. */
  predicate Follows(before: Option<SubscriberList>, after: Option<SubscriberList>, from: CanonicalAddr,
                    to: CanonicalContractInfo) {
    match before
    case None => after == None
    case Some(b) =>
      && after.Some? && |after.value| == |b|
      && forall i | 0 <= i < |b| :: after.value[i] == if b[i].address == from then to else b[i]
  }

  /** A notice is taken from anyone about anyone, with any slots and any list. */
  lemma ChildIsNotified(api: Api, s: Child.ChildState, sender: Addr, l: ListenerMsg)
    ensures var r := Child.Executed(api, s, sender, ChildListener(l));
            && (r.Ok? <==> api.canonicalize(sender).Ok? && api.canonicalize(l.to.address).Ok?)
            && (r.Ok? ==>
                  && r.value == s.(subscribers := r.value.subscribers)
                  && Follows(s.subscribers, r.value.subscribers, api.canonicalize(sender).value,
                             CanonicalContractInfo(api.canonicalize(l.to.address).value, l.to.codeHash)))
  {
  }

  lemma RequestsAreRefused(api: Api, s: Child.ChildState, t: Dealer.DealerState, info: MessageInfo, content: Payload)
    ensures Child.Executed(api, s, info.sender, ChildMigrate(MigrateRequest(content))).Err?
    ensures Dealer.Executed(api, t, info, DealerMigrate(MigrateRequest(content))).Err?
  {
  }

  /** A mint takes the given id or the numeral of the counter, the given owner or the sender. */
  lemma ChildMints(api: Api, s: Child.ChildState, sender: Addr, m: BaseMsg)
    requires m.MintNft?
    ensures var r := Child.Executed(api, s, sender, ChildBase(m));
            var id := if m.tokenId == None then Child.Numeral(s.mintCount) else m.tokenId.value;
            var owner := if m.owner == None then sender else m.owner.value;
            && (r.Ok? <==>
                  && s.status == Normal
                  && api.canonicalize(sender).Ok? && api.canonicalize(sender).value in s.minters
                  && api.Valid(owner) && id !in s.tokens && s.mintCount < 0xFFFF_FFFF)
            && (r.Ok? ==>
                  && r.value == s.(tokens := r.value.tokens, mintCount := s.mintCount + 1)
                  && r.value.tokens ==
                     s.tokens[id := Child.Token(api.Canon(owner), m.publicMetadata, m.privateMetadata)])
  {
  }

  /** Everything else of the base is for the administrator alone. */
  lemma OnlyTheAdminAdministers(api: Api, s: Child.ChildState, sender: Addr, m: ChildExecuteMsg)
    ensures var r := Child.Executed(api, s, sender, m);
            && (m.ChildBase? && !m.base.MintNft? && api.canonicalize(sender) != Ok(s.admin) ==> r.Err?)
            && (r.Ok? && (api.canonicalize(sender) != Ok(s.admin) || !m.ChildBase? || m.base.MintNft?) ==>
                  r.value.admin == s.admin && r.value.minters == s.minters && r.value.status == s.status)
  {
  }

  /** Every address of the list is one, and these are their canonical forms. */
  lemma {:induction false} MintersAreCanonicalized(api: Api, xs: seq<string>)
    ensures Child.CanonicalizeSet(api, xs).Ok? <==> forall x | x in xs :: api.Valid(x)
    ensures Child.CanonicalizeSet(api, xs).Ok? ==>
              forall raw :: raw in Child.CanonicalizeSet(api, xs).value <==>
                            exists x | x in xs && api.Valid(x) :: api.Canon(x) == raw
  {
    if xs != [] {
      MintersAreCanonicalized(api, xs[1..]);
      assert forall x :: x in xs <==> x == xs[0] || x in xs[1..];
    }
  }

  predicate Named(api: Api, xs: seq<string>, raw: CanonicalAddr) {
    exists x | x in xs && api.Valid(x) :: api.Canon(x) == raw
  }

  /** What the administrator's word does. The status can be set at any time, anything else only
      while the child is not stopped altogether. */
  lemma AdminSetsStatus(api: Api, s: Child.ChildState, sender: Addr, level: Level, padding: Option<string>)
    requires api.canonicalize(sender) == Ok(s.admin)
    ensures Child.Executed(api, s, sender, ChildBase(SetContractStatus(level, padding))) == Ok(s.(status := level))
  {
  }

  lemma AdminChangesAdmin(api: Api, s: Child.ChildState, sender: Addr, address: Addr, padding: Option<string>)
    requires api.canonicalize(sender) == Ok(s.admin)
    ensures var r := Child.Executed(api, s, sender, ChildBase(ChangeAdmin(address, padding)));
            && (r.Ok? <==> s.status != StopAll && api.Valid(address))
            && (r.Ok? ==> r.value == s.(admin := api.Canon(address)))
  {
  }

  lemma AdminChangesMinters(api: Api, s: Child.ChildState, sender: Addr, xs: seq<string>, padding: Option<string>)
    requires api.canonicalize(sender) == Ok(s.admin)
    ensures var added := Child.Executed(api, s, sender, ChildBase(AddMinters(xs, padding)));
            var removed := Child.Executed(api, s, sender, ChildBase(RemoveMinters(xs, padding)));
            var replaced := Child.Executed(api, s, sender, ChildBase(SetMinters(xs, padding)));
            var ok := s.status != StopAll && forall x | x in xs :: api.Valid(x);
            && (added.Ok? <==> ok) && (removed.Ok? <==> ok) && (replaced.Ok? <==> ok)
            && (ok ==>
                  && added.value == s.(minters := added.value.minters)
                  && removed.value == s.(minters := removed.value.minters)
                  && replaced.value == s.(minters := replaced.value.minters)
                  && forall raw ::
                       && (raw in added.value.minters <==> raw in s.minters || Named(api, xs, raw))
                       && (raw in removed.value.minters <==> raw in s.minters && !Named(api, xs, raw))
                       && (raw in replaced.value.minters <==> Named(api, xs, raw)))
  {
    MintersAreCanonicalized(api, xs);
  }

  // ---------- the dealer ----------

  /** What is saved comes from the message; the child is asked for with the true administrator as
      its migrator, the dealer as its first administrator and one slot. */
  lemma DealerIsInstantiated(api: Api, env: ContractInfo, sender: Addr, init: DealerInit)
    requires api.Valid(sender)
    ensures var r := Dealer.Instantiated(api, env, sender, init);
            var admin := if init.admin == None then sender else init.admin.value;
            && (r.Ok? <==> init.prices != [] && api.Valid(admin))
            && (r.Ok? ==>
                  && r.value.0 == Dealer.DealerState(
                       Some(api.Canon(admin)), Some(init.prices), Some(init.snip721CodeHash), None,
                       Some(PurchasableMetadata(init.publicMetadata, init.privateMetadata)), None, None)
                  && r.value.1 == [Instantiate(Some(admin), init.snip721CodeHash,
                                               InitChild(ChildInit(Some(env.address), 1)), Some(1))])
  {
  }

  /** A call without funds that the recipient, a child, reads as `m`. */
  predicate Says(out: Out, to: Addr, codeHash: CodeHash, m: ChildExecuteMsg) {
    && out.Execute? && out.contract == to && out.codeHash == codeHash && out.funds == []
    && DecodeChild(out.msg) == Ok(m)
  }

  lemma DealerIsReplied(api: Api, env: ContractInfo, s: Dealer.DealerState, id: nat, a: Addr)
    ensures var r := Dealer.Replied(api, env, s, id, a);
            && (r.Ok? <==>
                  && id == 1 && api.Valid(a) && s.childCodeHash.Some?
                  && s.admin.Some? && api.humanize(s.admin.value).Ok?)
            && (r.Ok? ==>
                  && r.value.0 == s.(childAddress := Some(api.Canon(a)),
                                     subscribers := Some(s.subscribers.GetOr([]) +
                                                         [CanonicalContractInfo(api.Canon(a), s.childCodeHash.value)]))
                  && |r.value.1| == 2
                  && Says(r.value.1[0], a, s.childCodeHash.value, ChildMigrate(Subscribe(env.address, env.codeHash)))
                  && Says(r.value.1[1], a, s.childCodeHash.value,
                          ChildBase(ChangeAdmin(api.humanize(s.admin.value).value, None))))
  {
    ChildRoundTrip(ChildMigrate(Subscribe(env.address, env.codeHash)));
    if s.admin.Some? && api.humanize(s.admin.value).Ok? {
      ChildRoundTrip(ChildBase(ChangeAdmin(api.humanize(s.admin.value).value, None)));
    }
  }

  lemma DealerSubscribes(api: Api, s: Dealer.DealerState, info: MessageInfo, address: Addr, codeHash: CodeHash)
    ensures var r := Dealer.Executed(api, s, info, DealerMigrate(Subscribe(address, codeHash)));
            && (r.Ok? <==> api.canonicalize(address).Ok? && s.slots != Some(0))
            && (r.Ok? ==>
                  && r.value.1 == []
                  && r.value.0 == s.(subscribers := r.value.0.subscribers, slots := r.value.0.slots)
                  && r.value.0.subscribers == Some(s.subscribers.GetOr([]) +
                                                   [CanonicalContractInfo(api.canonicalize(address).value, codeHash)])
                  && (if s.slots.Some? then r.value.0.slots.Some? && r.value.0.slots.value + 1 == s.slots.value
                      else r.value.0.slots.None?))
  {
    RegisteredIff(api, s.subscribers, s.slots, address, codeHash);
  }

  /** Whatever else is stored, a notice is taken from the stored child alone, and moves the
      reference and the sender's entries to what it names. */
  lemma DealerIsNotified(api: Api, s: Dealer.DealerState, info: MessageInfo, l: ListenerMsg)
    ensures var r := Dealer.Executed(api, s, info, DealerListener(l));
            && (r.Ok? <==>
                  && s.childAddress.Some? && api.canonicalize(info.sender) == Ok(s.childAddress.value)
                  && api.canonicalize(l.to.address).Ok?)
            && (r.Ok? ==>
                  var to := CanonicalContractInfo(api.canonicalize(l.to.address).value, l.to.codeHash);
                  && r.value.1 == []
                  && r.value.0 == s.(childAddress := Some(to.address), childCodeHash := Some(to.codeHash),
                                     subscribers := r.value.0.subscribers)
                  && Follows(s.subscribers, r.value.0.subscribers, s.childAddress.value, to))
  {
  }

  /** A purchase needs exactly one coin, in the amount of the first entry of its denom; it stores
      nothing, hands the coin on, and asks the child for a token of the buyer with the saved
      metadata and nothing else said. */
  lemma DealerSells(api: Api, s: Dealer.DealerState, info: MessageInfo)
    ensures var r := Dealer.Executed(api, s, info, DealerBase(PurchaseMint));
            && (r.Ok? <==>
                  && s.prices.Some? && |info.funds| == 1
                  && (exists i | 0 <= i < |s.prices.value| :: IsFirst(s.prices.value, i, info.funds[0]))
                  && s.admin.Some? && api.humanize(s.admin.value).Ok? && s.metadata.Some?
                  && s.childCodeHash.Some? && s.childAddress.Some? && api.humanize(s.childAddress.value).Ok?)
            && (r.Ok? ==>
                  && r.value.0 == s && |r.value.1| == 2
                  && r.value.1[0] == BankSend(api.humanize(s.admin.value).value, info.funds)
                  && Says(r.value.1[1], api.humanize(s.childAddress.value).value, s.childCodeHash.value,
                          ChildBase(MintNft(None, Some(info.sender), s.metadata.value.publicMetadata,
                                            s.metadata.value.privateMetadata, None, None, None, None, None))))
  {
    if s.metadata.Some? {
      ChildRoundTrip(ChildBase(Dealer.MintFor(info.sender, s.metadata.value)));
    }
    if s.prices.Some? && |info.funds| == 1 {
      ListedIff(s.prices.value, info.funds[0]);
    }
  }

  /** The `i`-th price is the first of its denom, and this coin meets it. */
  predicate IsFirst(prices: seq<Coin>, i: nat, coin: Coin)
    requires i < |prices|
  {
    prices[i] == coin && forall j | 0 <= j < i :: prices[j].denom != coin.denom
  }

  lemma {:induction false} ListedIff(prices: seq<Coin>, coin: Coin)
    ensures Dealer.Listed(prices, coin.denom) == Some(coin.amount) <==>
            exists i | 0 <= i < |prices| :: IsFirst(prices, i, coin)
  {
    if prices != [] {
      ListedIff(prices[1..], coin);
      if prices[0].denom == coin.denom {
        assert prices[0] == coin ==> IsFirst(prices, 0, coin);
      } else {
        if i :| 0 <= i < |prices[1..]| && IsFirst(prices[1..], i, coin) {
          assert IsFirst(prices, i + 1, coin);
        }
        if i :| 0 <= i < |prices| && IsFirst(prices, i, coin) {
          assert IsFirst(prices[1..], i - 1, coin);
        }
      }
    }
  }

  lemma DealerAnswers(api: Api, s: Dealer.DealerState, info: ContractInfo)
    ensures Dealer.QueryChild(api, s) == Ok(info) <==>
            && s.childAddress.Some? && api.humanize(s.childAddress.value) == Ok(info.address)
            && s.childCodeHash == Some(info.codeHash)
  {
  }
}
