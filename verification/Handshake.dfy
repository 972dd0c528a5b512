/** The whole dispatch tree of a dealer's instantiation: instantiate the child, reply,
    subscribe at the child, hand the child's administration over. */
module Handshake {
  import opened Types
  import opened Wire
  import opened Subscribers
  import opened Chain
  import opened Link
  import Child
  import Dealer

  function InstantiateDealer(signer: Addr, wasmAdmin: Option<Addr>, codeHash: CodeHash, init: DealerInit): Task {
    Call(signer, Instantiate(wasmAdmin, codeHash, InitDealer(init), None))
  }

  /** What the caller can check beforehand: a price is listed, the admin is a real address, the
      code exists, and the chain has two unused addresses to give. */
  predicate CanOpen(api: Api, w: World, o: Oracle, signer: Addr, wasmAdmin: Option<Addr>,
                    codeHash: CodeHash, init: DealerInit) {
    && init.prices != []
    && api.Valid(init.admin.GetOr(signer))
    && codeHash in w.codes && w.codes[codeHash] == DealerProgram
    && init.snip721CodeHash in w.codes
    && |o.addresses| >= 2
    && Unused(api, w, o.addresses[0]) && o.addresses[0] != signer
    && Unused(api, w, o.addresses[1]) && o.addresses[1] != o.addresses[0] && o.addresses[1] != signer
  }

  function OpenedDealer(api: Api, c: Addr, admin: Addr, init: DealerInit): Dealer.DealerState
    requires api.Valid(c) && api.Valid(admin)
  {
    Dealer.DealerState(
      Some(api.Canon(admin)), Some(init.prices), Some(init.snip721CodeHash), Some(api.Canon(c)),
      Some(PurchasableMetadata(init.publicMetadata, init.privateMetadata)),
      Some([CanonicalContractInfo(api.Canon(c), init.snip721CodeHash)]), None)
  }

  /** Admin is the true admin, minter is the dealer, and the only slot is the dealer's. */
  function OpenedChild(api: Api, d: Addr, dealerHash: CodeHash, admin: Addr): Child.ChildState
    requires api.Valid(d) && api.Valid(admin)
  {
    Child.ChildState(
      Some([CanonicalContractInfo(api.Canon(d), dealerHash)]), Some(0),
      api.Canon(admin), {api.Canon(d)}, 0, map[], Normal)
  }

  /** The world after the handshake, written down from the parameters of the call alone. */
  function Opened(api: Api, w: World, o: Oracle, signer: Addr, wasmAdmin: Option<Addr>,
                  codeHash: CodeHash, init: DealerInit): World
    requires CanOpen(api, w, o, signer, wasmAdmin, codeHash, init)
  {
    var d, c := o.addresses[0], o.addresses[1];
    var admin := init.admin.GetOr(signer);
    w.(contracts := w.contracts[
       d := Contract(codeHash, signer, wasmAdmin, DealerStorage(OpenedDealer(api, c, admin, init)))][
       c := Contract(init.snip721CodeHash, d, Some(admin), ChildStorage(OpenedChild(api, d, codeHash, admin)))])
  }

  // ---------- the steps ----------

  function BornDealer(api: Api, admin: Addr, init: DealerInit): Dealer.DealerState
    requires api.Valid(admin)
  {
    Dealer.EMPTY.(
    admin := Some(api.Canon(admin)), prices := Some(init.prices),
    childCodeHash := Some(init.snip721CodeHash),
    metadata := Some(PurchasableMetadata(init.publicMetadata, init.privateMetadata)))
  }

  function BornChild(api: Api, d: Addr): Child.ChildState
    requires api.Valid(d)
  {
    Child.ChildState(None, Some(1), api.Canon(d), {api.Canon(d)}, 0, map[], Normal)
  }

  lemma WithStorageTwice(w: World, a: Addr, s: Storage, t: Storage)
    requires a in w.contracts
    ensures WithStorage(WithStorage(w, a, s), a, t) == WithStorage(w, a, t)
  {
  }

  lemma UnusedAfter(api: Api, w: World, d: Addr, c: Contract, a: Addr)
    requires d !in w.contracts
    ensures Unused(api, Plus(w, d, c), a) <==>
            Unused(api, w, a) && a != d && a != c.creator
  {
    var w' := Plus(w, d, c);
    assert w'.contracts[d] == c;
    if Unused(api, w', a) {
      forall k | k in w.contracts ensures w.contracts[k].creator != a {
        assert w'.contracts[k] == w.contracts[k];
      }
    }
  }

  lemma DealerIsBorn(api: Api, w: World, o: Oracle, signer: Addr, wasmAdmin: Option<Addr>,
                     codeHash: CodeHash, init: DealerInit)
    requires codeHash in w.codes && w.codes[codeHash] == DealerProgram && api.Valid(signer)
    ensures var s := Step(api, w, o, InstantiateDealer(signer, wasmAdmin, codeHash, init));
            && (s.Ok? <==> init.prices != [] && api.Valid(init.admin.GetOr(signer)) && |o.addresses| >= 1
                           && Unused(api, w, o.addresses[0]) && o.addresses[0] != signer)
            && (s.Ok? ==>
                  var d, admin := o.addresses[0], init.admin.GetOr(signer);
                  s.value == Stepped(
                    Plus(w, d, Contract(codeHash, signer, wasmAdmin, DealerStorage(BornDealer(api, admin, init)))),
                    o.(addresses := o.addresses[1..]),
                    [Call(d, Dealer.InstantiateChild(ContractInfo(d, codeHash), admin, init.snip721CodeHash))]))
  {
  }

  lemma ChildIsBorn(api: Api, w: World, o: Oracle, d: Addr, dealerHash: CodeHash, admin: Addr, codeHash: CodeHash)
    requires api.Valid(d) && codeHash in w.codes && w.codes[codeHash] == ChildProgram
    ensures var s := Step(api, w, o, Call(d, Dealer.InstantiateChild(ContractInfo(d, dealerHash), admin, codeHash)));
            && (s.Ok? <==> o.addresses != [] && Unused(api, w, o.addresses[0]) && o.addresses[0] != d)
            && (s.Ok? ==>
                  var c := o.addresses[0];
                  var t := BornChild(api, d);
                  s.value == Stepped(
                    Plus(w, c, Contract(codeHash, d, Some(admin), ChildStorage(t))),
                    o.(addresses := o.addresses[1..]),
                    [Reply(d, 1, c)]))
  {
  }

  lemma DealerIsReplied(api: Api, w: World, o: Oracle, d: Addr, c: Addr, admin: Addr, init: DealerInit)
    requires api.Valid(c) && api.Valid(admin)
    requires d in w.contracts && w.contracts[d].storage == DealerStorage(BornDealer(api, admin, init))
    ensures Step(api, w, o, Reply(d, 1, c)) ==
            Ok(Stepped(WithStorage(w, d, DealerStorage(OpenedDealer(api, c, admin, init))), o,
                       [Call(d, Dealer.SubscribeAtChild(Info(w, d), c, init.snip721CodeHash)),
                        Call(d, Dealer.HandOver(c, init.snip721CodeHash, admin))]))
  {
    var s := BornDealer(api, admin, init);
    var entry := CanonicalContractInfo(api.Canon(c), init.snip721CodeHash);
    assert Added(s.subscribers, entry) == Some([entry]) by {
      assert [] + [entry] == [entry];
    }
    assert Dealer.Replied(api, Info(w, d), s, 1, c) ==
           Ok((OpenedDealer(api, c, admin, init),
               [Dealer.SubscribeAtChild(Info(w, d), c, init.snip721CodeHash),
                Dealer.HandOver(c, init.snip721CodeHash, admin)]));
    StampedPair(d, Dealer.SubscribeAtChild(Info(w, d), c, init.snip721CodeHash),
                Dealer.HandOver(c, init.snip721CodeHash, admin));
  }

  lemma ChildIsSubscribed(api: Api, w: World, o: Oracle, d: Addr, c: Addr)
    requires d in w.contracts && api.Valid(d)
    requires c in w.contracts && w.contracts[c].storage.ChildStorage?
    requires ChildAt(w, c).slots == Some(1) && ChildAt(w, c).subscribers == None
    ensures var t := ChildAt(w, c).(
                     subscribers := Some([CanonicalContractInfo(api.Canon(d), w.contracts[d].codeHash)]),
                     slots := Some(0));
            Step(api, w, o, Call(d, Dealer.SubscribeAtChild(Info(w, d), c, w.contracts[c].codeHash))) ==
            Ok(Stepped(WithStorage(w, c, ChildStorage(t)), o, []))
  {
    var m := Subscribe(d, w.contracts[d].codeHash);
    MigratableRoundTrip(m);
    ChildAttemptsCommute(EncodeMigratable(m));
    var entry := CanonicalContractInfo(api.Canon(d), w.contracts[d].codeHash);
    assert Added(ChildAt(w, c).subscribers, entry) == Some([entry]) by {
      assert [] + [entry] == [entry];
    }
    assert Registered(api, None, Some(1), d, w.contracts[d].codeHash) == Ok((Some([entry]), Some(0)));
  }

  /** The handover is accepted only because its sender is still the administrator. */
  lemma AdminIsHandedOver(api: Api, w: World, o: Oracle, d: Addr, c: Addr, admin: Addr)
    requires api.Valid(d) && api.Valid(admin)
    requires c in w.contracts && w.contracts[c].storage.ChildStorage?
    ensures var s := Step(api, w, o, Call(d, Dealer.HandOver(c, w.contracts[c].codeHash, admin)));
            && (s.Ok? <==> ChildAt(w, c).admin == api.Canon(d) && ChildAt(w, c).status != StopAll)
            && (s.Ok? ==> s.value == Stepped(
                  WithStorage(w, c, ChildStorage(ChildAt(w, c).(admin := api.Canon(admin)))), o, []))
  {
    BaseRoundTrip(ChangeAdmin(admin, None));
    ChildAttemptsCommute(EncodeBase(ChangeAdmin(admin, None)));
  }

  // ---------- the same steps between any dealer and the child it is introduced to ----------

  /** The reply to an introduced child's dealer: it notes its child in both places, and the
      subscription and the handover are what comes next. */
  lemma ReplyAdvances(api: Api, w: World, o: Oracle, d: Addr, c: Addr) returns (known: World, admin: Addr)
    requires ValidContracts(api, w) && Pair(w, d, c)
    requires DealerAt(w, d).subscribers == None && DealerIsCurrent(w, d, c)
    requires Step(api, w, o, Reply(d, Dealer.INSTANTIATE_SNIP721_REPLY_ID, c)).Ok?
    ensures ChangesOnly(w, known, d) && Pair(known, d, c) && known.contracts[c] == w.contracts[c]
    ensures Lockstep(DealerAt(known, d)) && KnowsItsChild(api, known, d, c)
    ensures Step(api, w, o, Reply(d, Dealer.INSTANTIATE_SNIP721_REPLY_ID, c)) ==
            Ok(Stepped(known, o, [Call(d, Dealer.SubscribeAtChild(Info(w, d), c, w.contracts[c].codeHash)),
                                  Call(d, Dealer.HandOver(c, w.contracts[c].codeHash, admin))]))
  {
    var env, hash := Info(w, d), w.contracts[c].codeHash;
    var r := Dealer.Replied(api, env, DealerAt(w, d), Dealer.INSTANTIATE_SNIP721_REPLY_ID, c).value;
    admin := api.humanize(DealerAt(w, d).admin.value).value;
    StampedPair(d, Dealer.SubscribeAtChild(env, c, hash), Dealer.HandOver(c, hash, admin));
    known := WithStorage(w, d, DealerStorage(r.0));
    PairsStay(w, known, d);
  }

  /** The dealer's subscription cannot fail, takes the child's only slot and completes the link. */
  lemma SubscriptionLinks(api: Api, w: World, o: Oracle, d: Addr, c: Addr) returns (subscribed: World)
    requires Pair(w, d, c) && api.Valid(d) && api.Valid(c)
    requires Lockstep(DealerAt(w, d)) && KnowsItsChild(api, w, d, c) && Unsubscribed(ChildAt(w, c))
    ensures ChangesOnly(w, subscribed, c) && Pair(subscribed, d, c) && Linked(api, subscribed, d, c)
    ensures Step(api, w, o, Call(d, Dealer.SubscribeAtChild(Info(w, d), c, w.contracts[c].codeHash))) ==
            Ok(Stepped(subscribed, o, []))
  {
    ChildIsSubscribed(api, w, o, d, c);
    subscribed := Step(api, w, o, Call(d, Dealer.SubscribeAtChild(Info(w, d), c, w.contracts[c].codeHash))).value.world;
    PairsStay(w, subscribed, c);
  }

  lemma HandOverHolds(api: Api, w: World, o: Oracle, d: Addr, c: Addr, hash: CodeHash, admin: Addr)
    requires Pair(w, d, c) && api.Valid(d) && api.Valid(c) && Linked(api, w, d, c)
    requires Step(api, w, o, Call(d, Dealer.HandOver(c, hash, admin))).Ok?
    ensures var s := Step(api, w, o, Call(d, Dealer.HandOver(c, hash, admin))).value;
            && s.oracle == o && s.emitted == [] && ChangesOnly(w, s.world, c)
            && Pair(s.world, d, c) && Linked(api, s.world, d, c)
  {
    var m := ChangeAdmin(admin, None);
    BaseRoundTrip(m);
    ChildAttemptsCommute(EncodeBase(m));
    var t := Call(d, Dealer.HandOver(c, hash, admin));
    ExecuteChangesOnly(api, w, o, t);
    PairsStay(w, Step(api, w, o, t).value.world, c);
    ChildKeepsItsList(api, ChildAt(w, c), d, ChildBase(m));
  }

  // ---------- the transaction ----------

  lemma HandOverCompletes(api: Api, w: World, o: Oracle, d: Addr, c: Addr, admin: Addr)
    requires api.Valid(d) && api.Valid(admin)
    requires c in w.contracts && w.contracts[c].storage.ChildStorage?
    requires ChildAt(w, c).admin == api.Canon(d) && ChildAt(w, c).status == Normal
    ensures Run(api, w, o, [Call(d, Dealer.HandOver(c, w.contracts[c].codeHash, admin))]) ==
            Ok(WithStorage(w, c, ChildStorage(ChildAt(w, c).(admin := api.Canon(admin)))))
  {
    RunLast(api, w, o, Call(d, Dealer.HandOver(c, w.contracts[c].codeHash, admin)));
    AdminIsHandedOver(api, w, o, d, c, admin);
  }

  lemma SubscriptionCompletes(api: Api, w: World, o: Oracle, d: Addr, c: Addr, admin: Addr)
    requires api.Valid(d) && api.Valid(admin) && d in w.contracts && d != c
    requires c in w.contracts && w.contracts[c].storage == ChildStorage(BornChild(api, d))
    ensures var hash := w.contracts[c].codeHash;
            Run(api, w, o, [Call(d, Dealer.SubscribeAtChild(Info(w, d), c, hash)),
                            Call(d, Dealer.HandOver(c, hash, admin))]) ==
            Ok(WithStorage(w, c, ChildStorage(OpenedChild(api, d, w.contracts[d].codeHash, admin))))
  {
    var hash := w.contracts[c].codeHash;
    var subscribe := Call(d, Dealer.SubscribeAtChild(Info(w, d), c, hash));
    var handOver := Call(d, Dealer.HandOver(c, hash, admin));
    ChildIsSubscribed(api, w, o, d, c);
    var s := Step(api, w, o, subscribe).value;
    RunFollows(api, w, o, subscribe, [handOver], s);
    assert [subscribe] + [handOver] == [subscribe, handOver];
    assert s.emitted + [handOver] == [handOver];
    HandOverCompletes(api, s.world, o, d, c, admin);
    WithStorageTwice(w, c, s.world.contracts[c].storage,
                     ChildStorage(OpenedChild(api, d, w.contracts[d].codeHash, admin)));
  }

  /** From the reply on, the handshake cannot fail. */
  lemma ReplyCompletes(api: Api, w: World, o: Oracle, d: Addr, c: Addr, admin: Addr, init: DealerInit)
    requires api.Valid(c) && api.Valid(admin) && api.Valid(d) && d != c
    requires d in w.contracts && w.contracts[d].storage == DealerStorage(BornDealer(api, admin, init))
    requires c in w.contracts && w.contracts[c].codeHash == init.snip721CodeHash
    requires w.contracts[c].storage == ChildStorage(BornChild(api, d))
    ensures Run(api, w, o, [Reply(d, 1, c)]) ==
            Ok(WithStorage(WithStorage(w, d, DealerStorage(OpenedDealer(api, c, admin, init))),
                           c, ChildStorage(OpenedChild(api, d, w.contracts[d].codeHash, admin))))
  {
    RunLast(api, w, o, Reply(d, 1, c));
    DealerIsReplied(api, w, o, d, c, admin, init);
    SubscriptionCompletes(api, WithStorage(w, d, DealerStorage(OpenedDealer(api, c, admin, init))), o, d, c, admin);
  }

  lemma BirthCompletes(api: Api, w: World, o: Oracle, d: Addr, admin: Addr, init: DealerInit)
    requires api.Valid(admin) && api.Valid(d) && d in w.contracts
    requires w.contracts[d].storage == DealerStorage(BornDealer(api, admin, init))
    requires init.snip721CodeHash in w.codes && w.codes[init.snip721CodeHash] == ChildProgram
    ensures var r := Run(api, w, o, [Call(d, Dealer.InstantiateChild(Info(w, d), admin, init.snip721CodeHash))]);
            && (r.Ok? <==> o.addresses != [] && Unused(api, w, o.addresses[0]))
            && (r.Ok? ==>
                  var c := o.addresses[0];
                  var t := OpenedChild(api, d, w.contracts[d].codeHash, admin);
                  r.value == Plus(WithStorage(w, d, DealerStorage(OpenedDealer(api, c, admin, init))),
                                  c, Contract(init.snip721CodeHash, d, Some(admin), ChildStorage(t))))
  {
    var task := Call(d, Dealer.InstantiateChild(Info(w, d), admin, init.snip721CodeHash));
    RunLast(api, w, o, task);
    ChildIsBorn(api, w, o, d, w.contracts[d].codeHash, admin, init.snip721CodeHash);
    if Step(api, w, o, task).Ok? {
      var s := Step(api, w, o, task).value;
      ReplyCompletes(api, s.world, s.oracle, d, o.addresses[0], admin, init);
    }
  }

  lemma OpenedInTwoSteps(api: Api, w: World, o: Oracle, signer: Addr, wasmAdmin: Option<Addr>,
                         codeHash: CodeHash, init: DealerInit)
    requires CanOpen(api, w, o, signer, wasmAdmin, codeHash, init)
    ensures var d, c, admin := o.addresses[0], o.addresses[1], init.admin.GetOr(signer);
            var w1 := Plus(w, d, Contract(codeHash, signer, wasmAdmin, DealerStorage(BornDealer(api, admin, init))));
            Plus(WithStorage(w1, d, DealerStorage(OpenedDealer(api, c, admin, init))),
                 c, Contract(init.snip721CodeHash, d, Some(admin),
                             ChildStorage(OpenedChild(api, d, codeHash, admin)))) ==
            Opened(api, w, o, signer, wasmAdmin, codeHash, init)
  {
  }

  /** Main result: instantiating a dealer over child code commits exactly when `CanOpen` holds,
      and commits to exactly the world `Opened` describes. */
  lemma HandshakeIsExact(api: Api, w: World, o: Oracle, signer: Addr, wasmAdmin: Option<Addr>,
                         codeHash: CodeHash, init: DealerInit)
    requires api.Valid(signer)
    requires codeHash in w.codes && w.codes[codeHash] == DealerProgram
    requires init.snip721CodeHash in w.codes && w.codes[init.snip721CodeHash] == ChildProgram
    ensures var r := Run(api, w, o, [InstantiateDealer(signer, wasmAdmin, codeHash, init)]);
            && (r.Ok? <==> CanOpen(api, w, o, signer, wasmAdmin, codeHash, init))
            && (r.Ok? ==> r.value == Opened(api, w, o, signer, wasmAdmin, codeHash, init))
  {
    var root := InstantiateDealer(signer, wasmAdmin, codeHash, init);
    RunLast(api, w, o, root);
    DealerIsBorn(api, w, o, signer, wasmAdmin, codeHash, init);
    if Step(api, w, o, root).Ok? {
      var s := Step(api, w, o, root).value;
      var d := o.addresses[0];
      BirthCompletes(api, s.world, s.oracle, d, init.admin.GetOr(signer), init);
      if |o.addresses| >= 2 {
        UnusedAfter(api, w, d, s.world.contracts[d], o.addresses[1]);
      }
      if CanOpen(api, w, o, signer, wasmAdmin, codeHash, init) {
        OpenedInTwoSteps(api, w, o, signer, wasmAdmin, codeHash, init);
      }
    }
  }

  /** In the committed world the pair is linked, the child's admin is the dealer's saved admin,
      the dealer is its only minter and the only slot is taken. */
  lemma HandshakeLinks(api: Api, w: World, o: Oracle, signer: Addr, wasmAdmin: Option<Addr>,
                       codeHash: CodeHash, init: DealerInit)
    requires CanOpen(api, w, o, signer, wasmAdmin, codeHash, init)
    ensures var d, c := o.addresses[0], o.addresses[1];
            var w' := Opened(api, w, o, signer, wasmAdmin, codeHash, init);
            && Pair(w', d, c) && Linked(api, w', d, c)
            && DealerAt(w', d).admin == Some(ChildAt(w', c).admin)
            && ChildAt(w', c).admin == api.Canon(init.admin.GetOr(signer))
            && ChildAt(w', c).minters == {api.Canon(d)}
            && ChildAt(w', c).slots == Some(0)
            && DealerAt(w', d).subscribers == Some([CanonicalContractInfo(api.Canon(c), init.snip721CodeHash)])
            && (InForeignHands(w', d) <==> wasmAdmin.Some? && IsForeign(w, wasmAdmin.value))
  {
  }
}
