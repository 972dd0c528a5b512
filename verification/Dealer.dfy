/** The `snip721-dealer` contract. */
module Dealer {
  import opened Types
  import opened Wire
  import opened Subscribers

  const INSTANTIATE_SNIP721_REPLY_ID := 1

  /** One field per storage item; `None` is an item that was never saved. */
  datatype DealerState = DealerState(
    admin: Option<CanonicalAddr>,
    prices: Option<seq<Coin>>,
    childCodeHash: Option<CodeHash>,
    childAddress: Option<CanonicalAddr>,
    metadata: Option<PurchasableMetadata>,
    subscribers: Option<SubscriberList>,
    slots: Option<U8>)

  const EMPTY := DealerState(None, None, None, None, None, None, None)

  function Load<T>(item: Option<T>): Result<T> {
    match item
    case Some(v) => Ok(v)
    case None => Err
  }

  // ---------- instantiation ----------

  function TrueAdmin(api: Api, sender: Addr, init: DealerInit): Result<Addr> {
    match init.admin
    case Some(a) => api.Validate(a)
    case None => Ok(sender)
  }

  function InstantiateChild(env: ContractInfo, admin: Addr, codeHash: CodeHash): Out {
    Instantiate(Some(admin), codeHash, InitChild(ChildInit(Some(env.address), 1)),
                Some(INSTANTIATE_SNIP721_REPLY_ID))
  }

  function Instantiated(api: Api, env: ContractInfo, sender: Addr, init: DealerInit): Result<(DealerState, seq<Out>)> {
    if init.prices == [] then Err
    else
      var admin :- TrueAdmin(api, sender, init);
      var raw :- api.canonicalize(admin);
      Ok((EMPTY.(
          admin := Some(raw),
          prices := Some(init.prices),
          childCodeHash := Some(init.snip721CodeHash),
          metadata := Some(PurchasableMetadata(init.publicMetadata, init.privateMetadata))),
          [InstantiateChild(env, admin, init.snip721CodeHash)]))
  }

  // ---------- the reply ----------

  function SubscribeAtChild(env: ContractInfo, child: Addr, codeHash: CodeHash): Out {
    Execute(child, codeHash, EncodeMigratable(Subscribe(env.address, env.codeHash)), [])
  }

  function HandOver(child: Addr, codeHash: CodeHash, admin: Addr): Out {
    Execute(child, codeHash, EncodeBase(ChangeAdmin(admin, None)), [])
  }

  function Replied(api: Api, env: ContractInfo, s: DealerState, id: nat, address: Addr)
    : Result<(DealerState, seq<Out>)>
  {
    if id != INSTANTIATE_SNIP721_REPLY_ID then Err
    else
      var child :- api.Validate(address);
      var raw :- api.canonicalize(child);
      var codeHash :- Load(s.childCodeHash);
      var rawAdmin :- Load(s.admin);
      var admin :- api.humanize(rawAdmin);
      Ok((s.(childAddress := Some(raw),
          subscribers := Added(s.subscribers, CanonicalContractInfo(raw, codeHash))),
          [SubscribeAtChild(env, child, codeHash), HandOver(child, codeHash, admin)]))
  }

  // ---------- following the child ----------

  function ChildUpdated(api: Api, s: DealerState, sender: Addr, to: ContractInfo): Result<DealerState> {
    var current :- Load(s.childAddress);
    var raw :- api.canonicalize(sender);
    if raw != current then Err
    else
      var next :- api.CanonicalizeInfo(to);
      Ok(s.(childAddress := Some(next.address),
         childCodeHash := Some(next.codeHash),
         subscribers := UpdatedStored(s.subscribers, raw, next)))
  }

  // ---------- selling ----------

  /** The amount of the first entry of the price list that has the denom, if there is one. */
  function Listed(prices: seq<Coin>, denom: Denom): Option<nat> {
    if prices == [] then None
    else if prices[0].denom == denom then Some(prices[0].amount)
    else Listed(prices[1..], denom)
  }

  /** The price of a denom is that of its first entry, whatever later entries say. */
  lemma {:induction false} ListedIsTheFirst(prices: seq<Coin>, denom: Denom, i: nat)
    requires i < |prices| && prices[i].denom == denom
    requires forall j | 0 <= j < i :: prices[j].denom != denom
    ensures Listed(prices, denom) == Some(prices[i].amount)
  {
    if i > 0 {
      ListedIsTheFirst(prices[1..], denom, i - 1);
    }
  }

  lemma {:induction false} UnlistedDenom(prices: seq<Coin>, denom: Denom)
    ensures Listed(prices, denom).None? <==> forall c | c in prices :: c.denom != denom
  {
    if prices != [] {
      UnlistedDenom(prices[1..], denom);
      assert forall c :: c in prices <==> c == prices[0] || c in prices[1..];
    }
  }

  function MintFor(buyer: Addr, metadata: PurchasableMetadata): BaseMsg {
    MintNft(None, Some(buyer), metadata.publicMetadata, metadata.privateMetadata,
            None, None, None, None, None)
  }

  /** The dealer's storage is not written by a purchase; only messages come out. */
  function Purchased(api: Api, s: DealerState, info: MessageInfo): Result<seq<Out>> {
    if |info.funds| != 1 then Err
    else
      var fund := info.funds[0];
      var prices :- Load(s.prices);
      if Listed(prices, fund.denom) != Some(fund.amount) then Err
      else
        var rawAdmin :- Load(s.admin);
        var admin :- api.humanize(rawAdmin);
        var metadata :- Load(s.metadata);
        var codeHash :- Load(s.childCodeHash);
        var rawChild :- Load(s.childAddress);
        var child :- api.humanize(rawChild);
        Ok([BankSend(admin, info.funds),
            Execute(child, codeHash, EncodeBase(MintFor(info.sender, metadata)), [])])
  }

  function Executed(api: Api, s: DealerState, info: MessageInfo, msg: DealerExecuteMsg)
    : Result<(DealerState, seq<Out>)>
  {
    match msg
    case DealerBase(PurchaseMint) =>
      var outs :- Purchased(api, s, info);
      Ok((s, outs))
    case DealerMigrate(Subscribe(address, codeHash)) =>
      var r :- Registered(api, s.subscribers, s.slots, address, codeHash);
      Ok((s.(subscribers := r.0, slots := r.1), []))
    case DealerMigrate(MigrateRequest(_)) => Err
    case DealerListener(l) =>
      var next :- ChildUpdated(api, s, info.sender, l.to);
      Ok((next, []))
  }

  /** The answer of `query_child_snip721`. */
  function QueryChild(api: Api, s: DealerState): Result<ContractInfo> {
    var raw :- Load(s.childAddress);
    var address :- api.humanize(raw);
    var codeHash :- Load(s.childCodeHash);
    Ok(ContractInfo(address, codeHash))
  }

  /** Storage of the contract. A method that returns `Err` may have written already: the host
      discards those writes, so nothing is promised about the fields in that case. */
  class DealerContract {
    var admin: Option<CanonicalAddr>
    var prices: Option<seq<Coin>>
    var childCodeHash: Option<CodeHash>
    var childAddress: Option<CanonicalAddr>
    var metadata: Option<PurchasableMetadata>
    var subscribers: Option<SubscriberList>
    var slots: Option<U8>

    ghost function State(): DealerState
      reads this
    {
      DealerState(admin, prices, childCodeHash, childAddress, metadata, subscribers, slots)
    }

    constructor ()
      ensures State() == EMPTY
    {
      admin, prices, childCodeHash, childAddress := None, None, None, None;
      metadata, subscribers, slots := None, None, None;
    }

    method Instantiate(api: Api, env: ContractInfo, info: MessageInfo, msg: DealerInit) returns (r: Result<seq<Out>>)
      requires State() == EMPTY
      modifies this
      ensures r.Ok? <==> Instantiated(api, env, info.sender, msg).Ok?
      ensures r.Ok? ==> Instantiated(api, env, info.sender, msg) == Ok((State(), r.value))
    {
      if |msg.prices| == 0 {
        return Err;
      }
      var trueAdmin := info.sender;
      if msg.admin.Some? {
        var validated := api.Validate(msg.admin.value);
        if validated.Err? {
          return Err;
        }
        trueAdmin := validated.value;
      }
      var raw := api.canonicalize(trueAdmin);
      if raw.Err? {
        return Err;
      }
      admin := Some(raw.value);
      prices := Some(msg.prices);
      childCodeHash := Some(msg.snip721CodeHash);
      metadata := Some(PurchasableMetadata(msg.publicMetadata, msg.privateMetadata));
      r := Ok([InstantiateChild(env, trueAdmin, msg.snip721CodeHash)]);
    }

    method Reply(api: Api, env: ContractInfo, id: nat, contractAddress: Addr) returns (r: Result<seq<Out>>)
      modifies this
      ensures r.Ok? <==> Replied(api, env, old(State()), id, contractAddress).Ok?
      ensures r.Ok? ==> Replied(api, env, old(State()), id, contractAddress) == Ok((State(), r.value))
    {
      if id != INSTANTIATE_SNIP721_REPLY_ID {
        return Err;
      }
      var child := api.Validate(contractAddress);
      if child.Err? {
        return Err;
      }
      var raw := api.canonicalize(child.value);
      childAddress := Some(raw.value);
      if childCodeHash.None? || admin.None? {
        return Err;
      }
      var trueAdmin := api.humanize(admin.value);
      if trueAdmin.Err? {
        return Err;
      }
      subscribers := Added(subscribers, CanonicalContractInfo(raw.value, childCodeHash.value));
      r := Ok([SubscribeAtChild(env, child.value, childCodeHash.value),
               HandOver(child.value, childCodeHash.value, trueAdmin.value)]);
    }

    method Execute(api: Api, info: MessageInfo, msg: DealerExecuteMsg) returns (r: Result<seq<Out>>)
      modifies this
      ensures r.Ok? <==> Executed(api, old(State()), info, msg).Ok?
      ensures r.Ok? ==> Executed(api, old(State()), info, msg) == Ok((State(), r.value))
    {
      match msg {
        case DealerBase(PurchaseMint) =>
          r := PurchaseAndMint(api, info);
        case DealerMigrate(Subscribe(address, codeHash)) =>
          var reg := Registered(api, subscribers, slots, address, codeHash);
          if reg.Err? {
            return Err;
          }
          subscribers, slots := reg.value.0, reg.value.1;
          r := Ok([]);
        case DealerMigrate(MigrateRequest(_)) =>
          r := Err;
        case DealerListener(l) =>
          r := UpdateChildSnip721(api, info, l.to);
      }
    }

    method UpdateChildSnip721(api: Api, info: MessageInfo, to: ContractInfo) returns (r: Result<seq<Out>>)
      modifies this
      ensures r.Ok? <==> ChildUpdated(api, old(State()), info.sender, to).Ok?
      ensures r.Ok? ==> r.value == [] && ChildUpdated(api, old(State()), info.sender, to) == Ok(State())
    {
      if childAddress.None? {
        return Err;
      }
      var rawSender := api.canonicalize(info.sender);
      if rawSender.Err? || rawSender.value != childAddress.value {
        return Err;
      }
      var next := api.CanonicalizeInfo(to);
      if next.Err? {
        return Err;
      }
      childAddress := Some(next.value.address);
      childCodeHash := Some(next.value.codeHash);
      if subscribers.Some? {
        var list := UpdateMigrated(subscribers.value, rawSender.value, next.value);
        subscribers := Some(list);
      }
      r := Ok([]);
    }

    method PurchaseAndMint(api: Api, info: MessageInfo) returns (r: Result<seq<Out>>)
      ensures r == Purchased(api, State(), info)
    {
      if |info.funds| != 1 || prices.None? {
        return Err;
      }
      var fund := info.funds[0];
      var i := 0;
      while i < |prices.value| && prices.value[i].denom != fund.denom
        invariant 0 <= i <= |prices.value|
        invariant Listed(prices.value, fund.denom) == Listed(prices.value[i..], fund.denom)
      {
        i := i + 1;
      }
      if i == |prices.value| || prices.value[i].amount != fund.amount {
        return Err;
      }
      if admin.None? || metadata.None? || childCodeHash.None? || childAddress.None? {
        return Err;
      }
      var adminAddr := api.humanize(admin.value);
      var child := api.humanize(childAddress.value);
      if adminAddr.Err? || child.Err? {
        return Err;
      }
      r := Ok([BankSend(adminAddr.value, info.funds),
               Out.Execute(child.value, childCodeHash.value, EncodeBase(MintFor(info.sender, metadata.value)), [])]);
    }

    method QueryChildSnip721(api: Api) returns (r: Result<ContractInfo>)
      ensures r == QueryChild(api, State())
    {
      if childAddress.None? || childCodeHash.None? {
        return Err;
      }
      var address := api.humanize(childAddress.value);
      if address.Err? {
        return Err;
      }
      r := Ok(ContractInfo(address.value, childCodeHash.value));
    }
  }
}
