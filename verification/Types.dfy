/** Values shared by both contracts, by the libraries they call and by the chain. */
module Types {

  datatype Option<+T> = None | Some(value: T) {
    function GetOr(default: T): T {
      match this
      case Some(v) => v
      case None => default
    }
  }

  /** `StdResult`: error wording is dropped, only failure is kept. */
  datatype Result<+T> = Ok(value: T) | Err {
    predicate IsFailure() {
      Err?
    }

    function PropagateFailure<U>(): Result<U>
      requires Err?
    {
      Err
    }

    function Extract(): T
      requires Ok?
    {
      value
    }

    function GetOr(default: T): T {
      match this
      case Ok(v) => v
      case Err => default
    }
  }

  type Addr = string
  type CodeHash = string
  type Denom = string

  const U8_LIMIT := 0x100
  const U32_LIMIT := 0x1_0000_0000

  type U8 = n: nat | n < U8_LIMIT
  type U32 = n: nat | n < U32_LIMIT

  datatype CanonicalAddr = CanonicalAddr(raw: string)

  /** Coin amounts are only compared and moved by the contracts, never added or scaled. */
  datatype Coin = Coin(denom: Denom, amount: nat)

  datatype ContractInfo = ContractInfo(address: Addr, codeHash: CodeHash)

  datatype CanonicalContractInfo = CanonicalContractInfo(address: CanonicalAddr, codeHash: CodeHash)

  datatype Metadata = Metadata(tokenUri: Option<string>, extension: Option<string>)

  datatype PurchasableMetadata =
    PurchasableMetadata(publicMetadata: Option<Metadata>, privateMetadata: Option<Metadata>)

  datatype MessageInfo = MessageInfo(sender: Addr, funds: seq<Coin>)

  /** The host's address functions. Either direction may fail, and several spellings
      of an address may share one canonical form. */
  datatype Api = Api(canonicalize: Addr -> Result<CanonicalAddr>, humanize: CanonicalAddr -> Result<Addr>) {

    /** `a` is the normal spelling of an address. */
    predicate Valid(a: Addr) {
      canonicalize(a).Ok? && humanize(canonicalize(a).value) == Ok(a)
    }

    function Validate(a: Addr): Result<Addr> {
      if Valid(a) then Ok(a) else Err
    }

    /** The canonical form of an address in normal spelling. */
    function Canon(a: Addr): CanonicalAddr
      requires Valid(a)
    {
      canonicalize(a).value
    }

    function CanonicalizeInfo(info: ContractInfo): Result<CanonicalContractInfo> {
      var raw :- canonicalize(info.address);
      Ok(CanonicalContractInfo(raw, info.codeHash))
    }

    function HumanizeInfo(info: CanonicalContractInfo): Result<ContractInfo> {
      var address :- humanize(info.address);
      Ok(ContractInfo(address, info.codeHash))
    }
  }

  /** What a contract can ask the chain to do in its response. `Attempt` is a sub-message whose
      failure is caught in a reply; what the outside decides while it runs comes with it. */
  datatype Out =
    | Execute(contract: Addr, codeHash: CodeHash, msg: Json, funds: seq<Coin>)
    | BankSend(to: Addr, amount: seq<Coin>)
    | Instantiate(wasmAdmin: Option<Addr>, codeHash: CodeHash, init: InitMsg, replyId: Option<nat>)
    | Migrate(contract: Addr, codeHash: CodeHash)
    | Attempt(out: Out, oracle: Oracle)

  /** What a foreign contract does when it is called: refuse, or accept and send messages. */
  datatype Reaction = Reject | Emit(outs: seq<Out>)

  /** Everything the outside decides during one transaction: the addresses handed out for new
      contracts, and the reactions of foreign contracts in the order they are called.
      When the reactions run out, foreign contracts accept and stay silent. */
  datatype Oracle = Oracle(addresses: seq<Addr>, reactions: seq<Reaction>)

  datatype InitMsg =
    | InitDealer(dealer: DealerInit)
    | InitChild(child: ChildInit)

  datatype DealerInit = DealerInit(
    snip721CodeHash: CodeHash,
    prices: seq<Coin>,
    publicMetadata: Option<Metadata>,
    privateMetadata: Option<Metadata>,
    admin: Option<Addr>)

  datatype ChildInit = ChildInit(admin: Option<Addr>, maxSubscribers: U8)

  /** A parsed JSON value: the byte syntax is abstracted away. */
  datatype Json =
    | Null
    | Bool(b: bool)
    | Num(n: int)
    | Str(s: string)
    | Arr(items: seq<Json>)
    | Obj(fields: map<string, Json>)
}
