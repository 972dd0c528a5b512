/** The chain the contracts live on: contract table, code store, bank, and the depth-first
    dispatch of messages and their sub-messages inside one atomic transaction. */
module Chain {
  import opened Types
  import opened Wire
  import opened Subscribers
  import Child
  import Dealer

  datatype Program = DealerProgram | ChildProgram | ForeignProgram

  datatype Storage =
    | DealerStorage(dealer: Dealer.DealerState)
    | ChildStorage(child: Child.ChildState)
    | ForeignStorage

  /** `creator` and `wasmAdmin` are the chain's own metadata: the address that instantiated
      the contract and the one allowed to migrate it. */
  datatype Contract = Contract(codeHash: CodeHash, creator: Addr, wasmAdmin: Option<Addr>, storage: Storage)

  type Bank = map<(Addr, Denom), nat>

  datatype World = World(contracts: map<Addr, Contract>, codes: map<CodeHash, Program>, bank: Bank)

  /** One pending step of a transaction. */
  datatype Task =
    | Call(sender: Addr, out: Out)
    | Reply(contract: Addr, id: nat, instantiated: Addr)

  datatype Stepped = Stepped(world: World, oracle: Oracle, emitted: seq<Task>)

  // ---------- the bank ----------

  function Balance(bank: Bank, account: Addr, denom: Denom): nat {
    if (account, denom) in bank then bank[(account, denom)] else 0
  }

  function Transfer(bank: Bank, from: Addr, to: Addr, coin: Coin): Result<Bank> {
    if Balance(bank, from, coin.denom) < coin.amount then Err
    else
      var debited := bank[(from, coin.denom) := Balance(bank, from, coin.denom) - coin.amount];
      Ok(debited[(to, coin.denom) := Balance(debited, to, coin.denom) + coin.amount])
  }

  function TransferAll(bank: Bank, from: Addr, to: Addr, coins: seq<Coin>): Result<Bank>
    decreases |coins|
  {
    if coins == [] then Ok(bank)
    else
      var next :- Transfer(bank, from, to, coins[0]);
      TransferAll(next, from, to, coins[1..])
  }

  // ---------- one step ----------

  function ProgramOf(s: Storage): Program {
    match s
    case DealerStorage(_) => DealerProgram
    case ChildStorage(_) => ChildProgram
    case ForeignStorage => ForeignProgram
  }

  function Info(w: World, a: Addr): ContractInfo
    requires a in w.contracts
  {
    ContractInfo(a, w.contracts[a].codeHash)
  }

  function Plus(w: World, a: Addr, c: Contract): World {
    w.(contracts := w.contracts[a := c])
  }

  function WithStorage(w: World, a: Addr, s: Storage): World
    requires a in w.contracts
  {
    w.(contracts := w.contracts[a := w.contracts[a].(storage := s)])
  }

  function WithCode(w: World, a: Addr, codeHash: CodeHash): World
    requires a in w.contracts
  {
    w.(contracts := w.contracts[a := w.contracts[a].(codeHash := codeHash)])
  }

  /** Messages leave a contract under its own name. */
  function Stamped(sender: Addr, outs: seq<Out>): seq<Task> {
    seq(|outs|, i requires 0 <= i < |outs| => Call(sender, outs[i]))
  }

  function React(o: Oracle): Result<(Oracle, seq<Out>)> {
    if o.reactions == [] then Ok((o, []))
    else
      match o.reactions[0]
      case Reject => Err
      case Emit(outs) => Ok((o.(reactions := o.reactions[1..]), outs))
  }

  /** Delivery of an execute message whose funds have already arrived. */
  function Delivered(api: Api, w: World, o: Oracle, info: MessageInfo, a: Addr, msg: Json): Result<Stepped>
    requires a in w.contracts
  {
    match w.contracts[a].storage
    case DealerStorage(s) =>
      var m :- DecodeDealer(msg);
      var r :- Dealer.Executed(api, s, info, m);
      Ok(Stepped(WithStorage(w, a, DealerStorage(r.0)), o, Stamped(a, r.1)))
    case ChildStorage(s) =>
      var m :- DecodeChild(msg);
      var next :- Child.Executed(api, s, info.sender, m);
      Ok(Stepped(WithStorage(w, a, ChildStorage(next)), o, []))
    case ForeignStorage =>
      var r :- React(o);
      Ok(Stepped(w, r.0, Stamped(a, r.1)))
  }

  /** An execute is refused unless it names the recipient's current code hash. */
  function ExecuteStep(api: Api, w: World, o: Oracle, sender: Addr, a: Addr, codeHash: CodeHash,
                       msg: Json, funds: seq<Coin>): Result<Stepped> {
    if a !in w.contracts || w.contracts[a].codeHash != codeHash then Err
    else
      var bank :- TransferAll(w.bank, sender, a, funds);
      Delivered(api, w.(bank := bank), o, MessageInfo(sender, funds), a, msg)
  }

  /** The chain never hands out an address that is in use or has created a contract. */
  predicate Unused(api: Api, w: World, a: Addr) {
    && api.Valid(a) && a !in w.contracts
    && forall k | k in w.contracts :: w.contracts[k].creator != a
  }

  function InstantiateStep(api: Api, w: World, o: Oracle, sender: Addr, wasmAdmin: Option<Addr>,
                           codeHash: CodeHash, init: InitMsg, replyId: Option<nat>): Result<Stepped> {
    if codeHash !in w.codes || o.addresses == [] || !Unused(api, w, o.addresses[0]) || o.addresses[0] == sender
    then Err
    else
      var a := o.addresses[0];
      var o' := o.(addresses := o.addresses[1..]);
      var replies := match replyId case Some(id) => [Reply(sender, id, a)] case None => [];
      match w.codes[codeHash]
      case DealerProgram =>
        if !init.InitDealer? then Err
        else
          var r :- Dealer.Instantiated(api, ContractInfo(a, codeHash), sender, init.dealer);
          var c := Contract(codeHash, sender, wasmAdmin, DealerStorage(r.0));
          Ok(Stepped(Plus(w, a, c), o', Stamped(a, r.1) + replies))
      case ChildProgram =>
        if !init.InitChild? then Err
        else
          var s :- Child.BaseInstantiated(api, sender, init.child);
          var c := Contract(codeHash, sender, wasmAdmin, ChildStorage(s));
          Ok(Stepped(Plus(w, a, c), o', replies))
      case ForeignProgram =>
        var r :- React(o');
        var c := Contract(codeHash, sender, wasmAdmin, ForeignStorage);
        Ok(Stepped(Plus(w, a, c), r.0, Stamped(a, r.1) + replies))
  }

  /** Migration in place: same address and storage, new code hash, then the `migrate` entry
      point. The new code is assumed to run the same handlers as the old one. */
  function MigrateStep(api: Api, w: World, o: Oracle, sender: Addr, a: Addr, codeHash: CodeHash): Result<Stepped> {
    if a !in w.contracts || w.contracts[a].wasmAdmin != Some(sender) || codeHash !in w.codes
       || w.codes[codeHash] != ProgramOf(w.contracts[a].storage) then Err
    else
      var w' := WithCode(w, a, codeHash);
      match w.contracts[a].storage
      case DealerStorage(s) =>
        var outs :- Announced(api, Info(w', a), s.subscribers);
        Ok(Stepped(w', o, Stamped(a, outs)))
      case ChildStorage(s) =>
        var outs :- Announced(api, Info(w', a), s.subscribers);
        Ok(Stepped(w', o, Stamped(a, outs)))
      case ForeignStorage =>
        var r :- React(o);
        Ok(Stepped(w', r.0, Stamped(a, r.1)))
  }

  function ReplyStep(api: Api, w: World, o: Oracle, a: Addr, id: nat, instantiated: Addr): Result<Stepped> {
    if a !in w.contracts then Err
    else
      match w.contracts[a].storage
      case DealerStorage(s) =>
        var r :- Dealer.Replied(api, Info(w, a), s, id, instantiated);
        Ok(Stepped(WithStorage(w, a, DealerStorage(r.0)), o, Stamped(a, r.1)))
      case ChildStorage(_) => Err
      case ForeignStorage =>
        var r :- React(o);
        Ok(Stepped(w, r.0, Stamped(a, r.1)))
  }

  function Step(api: Api, w: World, o: Oracle, t: Task): Result<Stepped> {
    match t
    case Reply(a, id, instantiated) => ReplyStep(api, w, o, a, id, instantiated)
    case Call(sender, Execute(a, codeHash, msg, funds)) => ExecuteStep(api, w, o, sender, a, codeHash, msg, funds)
    case Call(sender, BankSend(to, amount)) =>
      var bank :- TransferAll(w.bank, sender, to, amount);
      Ok(Stepped(w.(bank := bank), o, []))
    case Call(sender, Instantiate(wasmAdmin, codeHash, init, replyId)) =>
      InstantiateStep(api, w, o, sender, wasmAdmin, codeHash, init, replyId)
    case Call(sender, Migrate(a, codeHash)) => MigrateStep(api, w, o, sender, a, codeHash)
    case Call(_, Attempt(_, _)) => Err
  }

  // ---------- how much work is left ----------

  /** What a message can bring into a transaction besides itself. */
  function OutWeight(out: Out): nat {
    match out
    case Attempt(inner, o) => 1 + OutWeight(inner) + ReactionsWeight(o.reactions)
    case _ => 0
  }

  function OutsWeight(outs: seq<Out>): nat {
    if outs == [] then 0 else OutWeight(outs[0]) + OutsWeight(outs[1..])
  }

  function ReactionsWeight(reactions: seq<Reaction>): nat {
    if reactions == [] then 0
    else
      (match reactions[0] case Reject => 1 case Emit(outs) => 1 + OutsWeight(outs)) + ReactionsWeight(reactions[1..])
  }

  function TaskWeight(t: Task): nat {
    match t
    case Call(_, out) => OutWeight(out)
    case Reply(_, _, _) => 0
  }

  function StackWeight(stack: seq<Task>): nat {
    if stack == [] then 0 else TaskWeight(stack[0]) + StackWeight(stack[1..])
  }

  function Weight(o: Oracle, stack: seq<Task>): nat {
    ReactionsWeight(o.reactions) + StackWeight(stack)
  }

  lemma {:induction false} StackWeightSplits(a: seq<Task>, b: seq<Task>)
    ensures StackWeight(a + b) == StackWeight(a) + StackWeight(b)
  {
    if a == [] {
      assert a + b == b;
    } else {
      assert (a + b)[1..] == a[1..] + b;
      StackWeightSplits(a[1..], b);
    }
  }

  lemma {:induction false} StampedWeight(sender: Addr, outs: seq<Out>)
    ensures StackWeight(Stamped(sender, outs)) == OutsWeight(outs)
  {
    if outs != [] {
      assert Stamped(sender, outs)[1..] == Stamped(sender, outs[1..]);
      StampedWeight(sender, outs[1..]);
    }
  }

  /** How much work of its own a task can still cause: neither listener answers a notification,
      so the two contracts cannot keep each other busy. */
  function Rank(t: Task): nat {
    match t
    case Reply(_, _, _) => 2
    case Call(_, Execute(_, _, msg, _)) => if DecodePurchase(msg).Ok? then 2 else 1
    case Call(_, BankSend(_, _)) => 1
    case Call(_, Instantiate(_, _, init, _)) => if init.InitDealer? then 4 else 3
    case Call(_, Migrate(_, _)) => 2
    case Call(_, Attempt(_, _)) => 1
  }

  function Pending(stack: seq<Task>, rank: nat): nat {
    if stack == [] then 0 else (if Rank(stack[0]) == rank then 1 else 0) + Pending(stack[1..], rank)
  }

  lemma {:induction false} PendingSplits(a: seq<Task>, b: seq<Task>, rank: nat)
    ensures Pending(a + b, rank) == Pending(a, rank) + Pending(b, rank)
  {
    if a == [] {
      assert a + b == b;
    } else {
      assert (a + b)[1..] == a[1..] + b;
      PendingSplits(a[1..], b, rank);
    }
  }

  lemma {:induction false} NonePending(a: seq<Task>, rank: nat)
    requires forall t | t in a :: Rank(t) < rank
    ensures Pending(a, rank) == 0
  {
    if a != [] {
      assert a[0] in a;
      NonePending(a[1..], rank);
    }
  }

  lemma PendingAfter(emitted: seq<Task>, stack: seq<Task>, rank: nat)
    requires stack != [] && Rank(stack[0]) <= rank
    requires forall t | t in emitted :: Rank(t) < Rank(stack[0])
    ensures Pending(emitted + stack[1..], rank) ==
            Pending(stack, rank) - (if Rank(stack[0]) == rank then 1 else 0)
  {
    PendingSplits(emitted, stack[1..], rank);
    NonePending(emitted, rank);
  }

  /** Calls that are no purchases, and payments. */
  predicate Quiet(outs: seq<Out>) {
    forall out | out in outs :: out.BankSend? || (out.Execute? && DecodePurchase(out.msg).Err?)
  }

  lemma {:induction false} QuietWeight(sender: Addr, outs: seq<Out>)
    requires Quiet(outs)
    ensures OutsWeight(outs) == 0
    ensures forall e | e in Stamped(sender, outs) :: Rank(e) == 1
  {
    if outs != [] {
      assert outs[0] in outs;
      QuietWeight(sender, outs[1..]);
    }
  }

  lemma AnnouncementsAreQuiet(api: Api, env: ContractInfo, subscribers: Option<SubscriberList>)
    ensures Announced(api, env, subscribers).Ok? ==> Quiet(Announced(api, env, subscribers).value)
  {
  }

  lemma RepliesAreQuiet(api: Api, env: ContractInfo, s: Dealer.DealerState, id: nat, a: Addr)
    ensures Dealer.Replied(api, env, s, id, a).Ok? ==> Quiet(Dealer.Replied(api, env, s, id, a).value.1)
  {
  }

  lemma ExecutesAreQuiet(api: Api, s: Dealer.DealerState, info: MessageInfo, m: DealerExecuteMsg)
    ensures Dealer.Executed(api, s, info, m).Ok? ==> Quiet(Dealer.Executed(api, s, info, m).value.1)
    ensures Dealer.Executed(api, s, info, m).Ok? && !m.DealerBase? ==> Dealer.Executed(api, s, info, m).value.1 == []
  {
  }

  /** A step either spends more of the foreign contracts' reactions than it brings into the
      transaction, or brings nothing and leaves lower-ranked work only. */
  predicate Descends(o: Oracle, t: Task, s: Stepped) {
    || Weight(s.oracle, s.emitted) < ReactionsWeight(o.reactions)
    || (s.oracle.reactions == o.reactions && StackWeight(s.emitted) == 0 &&
        forall e | e in s.emitted :: Rank(e) < Rank(t))
  }

  /** What a foreign contract sends was part of the reaction it used up. */
  lemma ReactionDescends(o: Oracle, a: Addr, replies: seq<Task>)
    requires React(o).Ok? && StackWeight(replies) == 0
    ensures var r := React(o).value;
            if o.reactions == [] then r.0 == o && Stamped(a, r.1) == []
            else ReactionsWeight(r.0.reactions) + StackWeight(Stamped(a, r.1) + replies) < ReactionsWeight(o.reactions)
  {
    var r := React(o).value;
    StackWeightSplits(Stamped(a, r.1), replies);
    StampedWeight(a, r.1);
  }

  lemma NoReplies(tasks: seq<Task>)
    ensures tasks + [] == tasks && [] + tasks == tasks
  {
  }

  lemma ExecuteDescends(api: Api, w: World, o: Oracle, t: Task)
    requires t.Call? && t.out.Execute?
    ensures Step(api, w, o, t).Ok? ==> Descends(o, t, Step(api, w, o, t).value)
  {
    var out := t.out;
    if Step(api, w, o, t).Ok? {
      match w.contracts[out.contract].storage
      case DealerStorage(s) =>
        var m := DecodeDealer(out.msg).value;
        DealerAttemptsCommute(out.msg);
        ExecutesAreQuiet(api, s, MessageInfo(t.sender, out.funds), m);
        var outs := Dealer.Executed(api, s, MessageInfo(t.sender, out.funds), m).value.1;
        QuietWeight(out.contract, outs);
        StampedWeight(out.contract, outs);
      case ChildStorage(_) =>
      case ForeignStorage =>
        ReactionDescends(o, out.contract, []);
        NoReplies(Stamped(out.contract, React(o).value.1));
    }
  }

  lemma MigrateDescends(api: Api, w: World, o: Oracle, t: Task)
    requires t.Call? && t.out.Migrate?
    ensures Step(api, w, o, t).Ok? ==> Descends(o, t, Step(api, w, o, t).value)
  {
    var a := t.out.contract;
    if Step(api, w, o, t).Ok? {
      var env := ContractInfo(a, t.out.codeHash);
      match w.contracts[a].storage
      case DealerStorage(s) => NoticesDescend(api, env, s.subscribers);
      case ChildStorage(s) => NoticesDescend(api, env, s.subscribers);
      case ForeignStorage =>
        ReactionDescends(o, a, []);
        NoReplies(Stamped(a, React(o).value.1));
    }
  }

  lemma NoticesDescend(api: Api, env: ContractInfo, subscribers: Option<SubscriberList>)
    requires Announced(api, env, subscribers).Ok?
    ensures var tasks := Stamped(env.address, Announced(api, env, subscribers).value);
            StackWeight(tasks) == 0 && forall e | e in tasks :: Rank(e) == 1
  {
    AnnouncementsAreQuiet(api, env, subscribers);
    QuietWeight(env.address, Announced(api, env, subscribers).value);
    StampedWeight(env.address, Announced(api, env, subscribers).value);
  }

  lemma InstantiateDescends(api: Api, w: World, o: Oracle, t: Task)
    requires t.Call? && t.out.Instantiate?
    ensures Step(api, w, o, t).Ok? ==> Descends(o, t, Step(api, w, o, t).value)
  {
    if Step(api, w, o, t).Ok? {
      var a := o.addresses[0];
      var replies := match t.out.replyId case Some(id) => [Reply(t.sender, id, a)] case None => [];
      assert StackWeight(replies) == 0;
      match w.codes[t.out.codeHash]
      case DealerProgram =>
        var r := Dealer.Instantiated(api, ContractInfo(a, t.out.codeHash), t.sender, t.out.init.dealer).value;
        StampedWeight(a, r.1);
        StackWeightSplits(Stamped(a, r.1), replies);
      case ChildProgram =>
      case ForeignProgram => ReactionDescends(o.(addresses := o.addresses[1..]), a, replies);
    }
  }

  lemma ReplyDescends(api: Api, w: World, o: Oracle, t: Task)
    requires t.Reply?
    ensures Step(api, w, o, t).Ok? ==> Descends(o, t, Step(api, w, o, t).value)
  {
    var a := t.contract;
    if Step(api, w, o, t).Ok? {
      match w.contracts[a].storage
      case DealerStorage(s) =>
        RepliesAreQuiet(api, Info(w, a), s, t.id, t.instantiated);
        var outs := Dealer.Replied(api, Info(w, a), s, t.id, t.instantiated).value.1;
        QuietWeight(a, outs);
        StampedWeight(a, outs);
      case ForeignStorage =>
        ReactionDescends(o, a, []);
        NoReplies(Stamped(a, React(o).value.1));
    }
  }

  lemma StepDescends(api: Api, w: World, o: Oracle, t: Task)
    ensures Step(api, w, o, t).Ok? ==> Descends(o, t, Step(api, w, o, t).value)
  {
    match t
    case Reply(_, _, _) => ReplyDescends(api, w, o, t);
    case Call(_, Execute(_, _, _, _)) => ExecuteDescends(api, w, o, t);
    case Call(_, Migrate(_, _)) => MigrateDescends(api, w, o, t);
    case Call(_, Instantiate(_, _, _, _)) => InstantiateDescends(api, w, o, t);
    case Call(_, BankSend(_, _)) =>
    case Call(_, Attempt(_, _)) =>
  }

  /** Fewer tasks of some rank, and no more of any higher one. */
  predicate Lighter(next: seq<Task>, stack: seq<Task>) {
    || Pending(next, 4) < Pending(stack, 4)
    || (Pending(next, 4) == Pending(stack, 4) &&
        (|| Pending(next, 3) < Pending(stack, 3)
         || (Pending(next, 3) == Pending(stack, 3) &&
             (|| Pending(next, 2) < Pending(stack, 2)
              || (Pending(next, 2) == Pending(stack, 2) && Pending(next, 1) < Pending(stack, 1))))))
  }

  predicate Shrinks(o': Oracle, next: seq<Task>, o: Oracle, stack: seq<Task>) {
    Weight(o', next) < Weight(o, stack) || (Weight(o', next) == Weight(o, stack) && Lighter(next, stack))
  }

  lemma RunDescends(api: Api, w: World, o: Oracle, stack: seq<Task>)
    requires stack != [] && Step(api, w, o, stack[0]).Ok?
    ensures var s := Step(api, w, o, stack[0]).value;
            Shrinks(s.oracle, s.emitted + stack[1..], o, stack)
  {
    var s := Step(api, w, o, stack[0]).value;
    StepDescends(api, w, o, stack[0]);
    StackWeightSplits(s.emitted, stack[1..]);
    if Weight(s.oracle, s.emitted) >= ReactionsWeight(o.reactions) {
      ShorterIsLighter(s.emitted, stack);
    }
  }

  lemma ShorterIsLighter(emitted: seq<Task>, stack: seq<Task>)
    requires stack != [] && forall t | t in emitted :: Rank(t) < Rank(stack[0])
    ensures Lighter(emitted + stack[1..], stack)
  {
    var rank := Rank(stack[0]);
    PendingAfter(emitted, stack, 4);
    if rank <= 3 { PendingAfter(emitted, stack, 3); }
    if rank <= 2 { PendingAfter(emitted, stack, 2); }
    if rank <= 1 { PendingAfter(emitted, stack, 1); }
  }

  // ---------- one transaction ----------

  predicate Caught(t: Task) {
    t.Call? && t.out.Attempt?
  }

  /** The message whose failure is caught, and the reply that tells its sender how it went. */
  function Tried(t: Task): Task
    requires Caught(t)
  {
    Call(t.sender, t.out.out)
  }

  function Verdict(t: Task): Task
    requires Caught(t)
  {
    Reply(t.sender, 0, t.sender)
  }

  lemma AttemptDescends(o: Oracle, stack: seq<Task>)
    requires stack != [] && Caught(stack[0])
    ensures Weight(stack[0].out.oracle, [Tried(stack[0])]) < Weight(o, stack)
    ensures Weight(o, [Verdict(stack[0])] + stack[1..]) < Weight(o, stack)
  {
    StackWeightSplits([Verdict(stack[0])], stack[1..]);
    assert [Tried(stack[0])][1..] == [];
  }

  /** Depth first: what a step emits runs before what was already waiting. One failing step
      fails everything up to the innermost attempt around it, which leaves no trace then. */
  function Run(api: Api, w: World, o: Oracle, stack: seq<Task>): Result<World>
    decreases Weight(o, stack), Pending(stack, 4), Pending(stack, 3), Pending(stack, 2), Pending(stack, 1)
  {
    if stack == [] then Ok(w)
    else if Caught(stack[0]) then
      AttemptDescends(o, stack);
      var tried := Run(api, w, stack[0].out.oracle, [Tried(stack[0])]);
      Run(api, tried.GetOr(w), o, [Verdict(stack[0])] + stack[1..])
    else
      var s :- Step(api, w, o, stack[0]);
      RunDescends(api, w, o, stack);
      Run(api, s.world, s.oracle, s.emitted + stack[1..])
  }

  lemma RunFollows(api: Api, w: World, o: Oracle, t: Task, rest: seq<Task>, s: Stepped)
    requires Step(api, w, o, t) == Ok(s)
    ensures Run(api, w, o, [t] + rest) == Run(api, s.world, s.oracle, s.emitted + rest)
  {
  }

  lemma RunStops(api: Api, w: World, o: Oracle, t: Task, rest: seq<Task>)
    requires !Caught(t) && Step(api, w, o, t).Err?
    ensures Run(api, w, o, [t] + rest).Err?
  {
  }

  lemma RunLast(api: Api, w: World, o: Oracle, t: Task)
    requires !Caught(t)
    ensures Run(api, w, o, [t]) ==
            match Step(api, w, o, t)
            case Err => Err
            case Ok(s) => Run(api, s.world, s.oracle, s.emitted)
  {
    assert [t] + [] == [t];
    match Step(api, w, o, t)
    case Err => RunStops(api, w, o, t, []);
    case Ok(s) =>
      RunFollows(api, w, o, t, [], s);
      assert s.emitted + [] == s.emitted;
  }

  lemma StampedPair(sender: Addr, a: Out, b: Out)
    ensures Stamped(sender, [a, b]) == [Call(sender, a), Call(sender, b)]
  {
  }

  // ---------- what the contracts say to each other arrives ----------

  function ChildAfter(w: World, o: Oracle, c: Addr, r: Result<Child.ChildState>): Result<Stepped>
    requires c in w.contracts
  {
    match r
    case Err => Err
    case Ok(s) => Ok(Stepped(WithStorage(w, c, ChildStorage(s)), o, []))
  }

  function DealerAfter(w: World, o: Oracle, d: Addr, r: Result<(Dealer.DealerState, seq<Out>)>): Result<Stepped>
    requires d in w.contracts
  {
    match r
    case Err => Err
    case Ok((s, outs)) => Ok(Stepped(WithStorage(w, d, DealerStorage(s)), o, Stamped(d, outs)))
  }

  /** A SNIP-721 message, a subscription and a notice, serialised without the outer enum, each end
      in the child's handler for it, and in no other. */
  lemma ChildIsReached(api: Api, w: World, o: Oracle, info: MessageInfo, c: Addr,
                       b: BaseMsg, address: Addr, codeHash: CodeHash, l: ListenerMsg)
    requires c in w.contracts && w.contracts[c].storage.ChildStorage? && KnownTag(b)
    ensures var s := w.contracts[c].storage.child;
            && Delivered(api, w, o, info, c, EncodeBase(b)) ==
               ChildAfter(w, o, c, Child.BaseExecuted(api, s, info.sender, b))
            && Delivered(api, w, o, info, c, EncodeMigratable(Subscribe(address, codeHash))) ==
               ChildAfter(w, o, c,
                          match Registered(api, s.subscribers, s.slots, address, codeHash)
                          case Err => Err
                          case Ok((list, slots)) => Ok(s.(subscribers := list, slots := slots)))
            && Delivered(api, w, o, info, c, EncodeListener(l)) ==
               ChildAfter(w, o, c, Child.DependencyUpdated(api, s, info.sender, l.to))
  {
    ChildRoundTrip(ChildBase(b));
    ChildRoundTrip(ChildMigrate(Subscribe(address, codeHash)));
    ChildRoundTrip(ChildListener(l));
  }

  /** The same of a purchase, a subscription and a notice at the dealer. */
  lemma DealerIsReached(api: Api, w: World, o: Oracle, info: MessageInfo, d: Addr,
                        address: Addr, codeHash: CodeHash, l: ListenerMsg)
    requires d in w.contracts && w.contracts[d].storage.DealerStorage?
    ensures var s := w.contracts[d].storage.dealer;
            && Delivered(api, w, o, info, d, EncodePurchase(PurchaseMint)) ==
               DealerAfter(w, o, d,
                           match Dealer.Purchased(api, s, info)
                           case Err => Err
                           case Ok(outs) => Ok((s, outs)))
            && Delivered(api, w, o, info, d, EncodeMigratable(Subscribe(address, codeHash))) ==
               DealerAfter(w, o, d,
                           match Registered(api, s.subscribers, s.slots, address, codeHash)
                           case Err => Err
                           case Ok((list, slots)) => Ok((s.(subscribers := list, slots := slots), [])))
            && Delivered(api, w, o, info, d, EncodeListener(l)) ==
               DealerAfter(w, o, d,
                           match Dealer.ChildUpdated(api, s, info.sender, l.to)
                           case Err => Err
                           case Ok(next) => Ok((next, [])))
  {
    DealerRoundTrip(DealerBase(PurchaseMint));
    DealerRoundTrip(DealerMigrate(Subscribe(address, codeHash)));
    DealerRoundTrip(DealerListener(l));
  }
}
