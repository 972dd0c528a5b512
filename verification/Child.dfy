/** The `snip721-migratable` contract: subscriber bookkeeping around a minimal SNIP-721 base. */
module Child {
  import opened Types
  import opened Wire
  import opened Subscribers

  datatype Token = Token(
    owner: CanonicalAddr,
    publicMetadata: Option<Metadata>,
    privateMetadata: Option<Metadata>)

  datatype ChildState = ChildState(
    subscribers: Option<SubscriberList>,
    slots: Option<U8>,
    admin: CanonicalAddr,
    minters: set<CanonicalAddr>,
    mintCount: U32,
    tokens: map<string, Token>,
    status: Level)

  // ---------- token numbering ----------

  function Digit(n: nat): char
    requires n < 10
  {
    "0123456789"[n]
  }

  /** The decimal numeral used as the id of a token minted without one. */
  function Numeral(n: nat): string {
    if n < 10 then [Digit(n)] else Numeral(n / 10) + [Digit(n % 10)]
  }

  lemma {:induction false} NumeralInjective(m: nat, n: nat)
    requires Numeral(m) == Numeral(n)
    ensures m == n
    decreases m
  {
    var s, t := Numeral(m), Numeral(n);
    assert s[|s| - 1] == Digit(m % 10) && t[|t| - 1] == Digit(n % 10);
    NumeralNonEmpty(m / 10);
    NumeralNonEmpty(n / 10);
    if m >= 10 && n >= 10 {
      assert s[..|s| - 1] == Numeral(m / 10) && t[..|t| - 1] == Numeral(n / 10);
      NumeralInjective(m / 10, n / 10);
    }
  }

  predicate IsDigits(s: string) {
    forall i | 0 <= i < |s| :: '0' <= s[i] <= '9'
  }

  function ValueOf(s: string): nat
    requires IsDigits(s)
  {
    if s == [] then 0 else 10 * ValueOf(s[..|s| - 1]) + (s[|s| - 1] as int - '0' as int)
  }

  /** The first token is "0"; the id of every token reads back as its number, without leading zeros. */
  lemma {:induction false} NumeralIsDecimal(n: nat)
    ensures |Numeral(n)| > 0 && IsDigits(Numeral(n)) && ValueOf(Numeral(n)) == n
    ensures Numeral(n)[0] == '0' <==> n == 0
    decreases n
  {
    var s := Numeral(n);
    if n < 10 {
      assert s[..0] == [];
    } else {
      NumeralIsDecimal(n / 10);
      assert s[..|s| - 1] == Numeral(n / 10) && s[|s| - 1] == Digit(n % 10);
    }
  }

  lemma NumeralNonEmpty(n: nat)
    ensures |Numeral(n)| > 0
  {
  }

  // ---------- the SNIP-721 base ----------

  function CanonicalizeSet(api: Api, xs: seq<string>): Result<set<CanonicalAddr>> {
    if xs == [] then Ok({})
    else
      var _ :- api.Validate(xs[0]);
      var first :- api.canonicalize(xs[0]);
      var rest :- CanonicalizeSet(api, xs[1..]);
      Ok({first} + rest)
  }

  function BaseInstantiated(api: Api, sender: Addr, init: ChildInit): Result<ChildState> {
    var admin :- api.Validate(init.admin.GetOr(sender));
    var raw :- api.canonicalize(admin);
    Ok(ChildState(None, Some(init.maxSubscribers), raw, {raw}, 0, map[], Normal))
  }

  function Minted(api: Api, s: ChildState, sender: Addr, m: BaseMsg): Result<ChildState>
    requires m.MintNft?
  {
    var raw :- api.canonicalize(sender);
    var id := m.tokenId.GetOr(Numeral(s.mintCount));
    var owner :- api.Validate(m.owner.GetOr(sender));
    var rawOwner :- api.canonicalize(owner);
    if s.status != Normal || raw !in s.minters || id in s.tokens || s.mintCount + 1 == U32_LIMIT then Err
    else Ok(s.(tokens := s.tokens[id := Token(rawOwner, m.publicMetadata, m.privateMetadata)],
               mintCount := s.mintCount + 1))
  }

  function BaseExecuted(api: Api, s: ChildState, sender: Addr, m: BaseMsg): Result<ChildState> {
    if m.MintNft? then Minted(api, s, sender, m)
    else
      var raw :- api.canonicalize(sender);
      if raw != s.admin || m.OtherBase? then Err
      else if m.SetContractStatus? then Ok(s.(status := m.level))
      else if s.status == StopAll then Err
      else if m.ChangeAdmin? then
        var address :- api.Validate(m.address);
        var admin :- api.canonicalize(address);
        Ok(s.(admin := admin))
      else
        var named :- CanonicalizeSet(api, m.minters);
        match m
        case AddMinters(_, _) => Ok(s.(minters := s.minters + named))
        case RemoveMinters(_, _) => Ok(s.(minters := s.minters - named))
        case SetMinters(_, _) => Ok(s.(minters := named))
  }

  // ---------- the entry points ----------

  function DependencyUpdated(api: Api, s: ChildState, sender: Addr, to: ContractInfo): Result<ChildState> {
    var from :- api.canonicalize(sender);
    var raw :- api.CanonicalizeInfo(to);
    Ok(s.(subscribers := UpdatedStored(s.subscribers, from, raw)))
  }

  /** No arm of `execute` asks the chain for anything: the response is always empty. */
  function Executed(api: Api, s: ChildState, sender: Addr, msg: ChildExecuteMsg): Result<ChildState> {
    match msg
    case ChildBase(b) => BaseExecuted(api, s, sender, b)
    case ChildMigrate(Subscribe(address, codeHash)) =>
      var r :- Registered(api, s.subscribers, s.slots, address, codeHash);
      Ok(s.(subscribers := r.0, slots := r.1))
    case ChildMigrate(MigrateRequest(_)) => Err
    case ChildListener(l) => DependencyUpdated(api, s, sender, l.to)
  }

  /** Storage of the contract. A method that returns `Err` may have written already: the host
      discards those writes, so nothing is promised about the fields in that case. */
  class ChildContract {
    var subscribers: Option<SubscriberList>
    var slots: Option<U8>
    var admin: CanonicalAddr
    var minters: set<CanonicalAddr>
    var mintCount: U32
    var tokens: map<string, Token>
    var status: Level

    function State(): ChildState
      reads this
    {
      ChildState(subscribers, slots, admin, minters, mintCount, tokens, status)
    }

    /** Storage before instantiation: nothing has been saved. */
    constructor ()
      ensures subscribers == None && slots == None && mintCount == 0 && tokens == map[] && status == Normal
    {
      subscribers, slots := None, None;
      admin, minters := CanonicalAddr(""), {};
      mintCount, tokens, status := 0, map[], Normal;
    }

    method Instantiate(api: Api, info: MessageInfo, init: ChildInit) returns (r: Result<seq<Out>>)
      requires subscribers == None && mintCount == 0 && tokens == map[] && status == Normal
      modifies this
      ensures r.Ok? <==> BaseInstantiated(api, info.sender, init).Ok?
      ensures r.Ok? ==> r.value == [] && BaseInstantiated(api, info.sender, init) == Ok(State())
    {
      slots := Some(init.maxSubscribers);
      var validated := api.Validate(init.admin.GetOr(info.sender));
      if validated.Err? {
        return Err;
      }
      admin := api.canonicalize(validated.value).value;
      minters := {admin};
      r := Ok([]);
    }

    method Execute(api: Api, info: MessageInfo, msg: ChildExecuteMsg) returns (r: Result<seq<Out>>)
      modifies this
      ensures r.Ok? <==> Executed(api, old(State()), info.sender, msg).Ok?
      ensures r.Ok? ==> r.value == [] && Executed(api, old(State()), info.sender, msg) == Ok(State())
    {
      match msg {
        case ChildBase(base) =>
          var s := BaseExecuted(api, State(), info.sender, base);
          if s.Err? {
            return Err;
          }
          admin, minters, mintCount := s.value.admin, s.value.minters, s.value.mintCount;
          tokens, status := s.value.tokens, s.value.status;
          subscribers, slots := s.value.subscribers, s.value.slots;
          r := Ok([]);
        case ChildMigrate(Subscribe(address, codeHash)) =>
          r := RegisterToNotify(api, address, codeHash);
        case ChildMigrate(MigrateRequest(_)) =>
          r := Err;
        case ChildListener(l) =>
          r := UpdateMigratedDependency(api, info, l.to);
      }
    }

    method RegisterToNotify(api: Api, address: Addr, codeHash: CodeHash) returns (r: Result<seq<Out>>)
      modifies this`subscribers, this`slots
      ensures r.Ok? <==> Registered(api, old(subscribers), old(slots), address, codeHash).Ok?
      ensures r.Ok? ==>
                && r.value == []
                && Registered(api, old(subscribers), old(slots), address, codeHash) == Ok((subscribers, slots))
    {
      var raw := api.canonicalize(address);
      if raw.Err? {
        return Err;
      }
      if slots.Some? {
        if slots.value == 0 {
          return Err;
        }
        slots := Some(slots.value - 1);
      }
      subscribers := Added(subscribers, CanonicalContractInfo(raw.value, codeHash));
      r := Ok([]);
    }

    method UpdateMigratedDependency(api: Api, info: MessageInfo, to: ContractInfo) returns (r: Result<seq<Out>>)
      modifies this`subscribers
      ensures r.Ok? <==> DependencyUpdated(api, old(State()), info.sender, to).Ok?
      ensures r.Ok? ==> r.value == [] && DependencyUpdated(api, old(State()), info.sender, to) == Ok(State())
    {
      var from := api.canonicalize(info.sender);
      if from.Err? {
        return Err;
      }
      var raw := api.CanonicalizeInfo(to);
      if raw.Err? {
        return Err;
      }
      if subscribers.Some? {
        var list := UpdateMigrated(subscribers.value, from.value, raw.value);
        subscribers := Some(list);
      }
      r := Ok([]);
    }
  }
}
