/** Who may move a dealer's reference to its child, over any sequence of messages from anyone. */
module Authority {
  import opened Types
  import opened Wire
  import opened Subscribers
  import opened Link
  import Dealer

  datatype Event = Event(info: MessageInfo, msg: DealerExecuteMsg)

  /** A refused message leaves the storage as it was. */
  function After(api: Api, s: Dealer.DealerState, e: Event): Dealer.DealerState {
    match Dealer.Executed(api, s, e.info, e.msg)
    case Ok(r) => r.0
    case Err => s
  }

  function AfterAll(api: Api, s: Dealer.DealerState, events: seq<Event>): Dealer.DealerState
    decreases |events|
  {
    if events == [] then s else AfterAll(api, After(api, s, events[0]), events[1..])
  }

  /** The notices a history accepts, each with who sent it and whom it named. */
  function Accepted(api: Api, s: Dealer.DealerState, events: seq<Event>): seq<Move>
    decreases |events|
  {
    if events == [] then []
    else
      var rest := Accepted(api, After(api, s, events[0]), events[1..]);
      if events[0].msg.DealerListener? && Dealer.Executed(api, s, events[0].info, events[0].msg).Ok?
      then [Move(api.canonicalize(events[0].info.sender).value,
                 api.CanonicalizeInfo(events[0].msg.listener.to).value)] + rest
      else rest
  }

  /** Each sender is the address named by the move before it. */
  predicate Succession(first: CanonicalAddr, moves: seq<Move>) {
    && (moves != [] ==> moves[0].from == first)
    && forall i, j | 0 <= i < |moves| && 0 <= j < |moves| && j == i + 1 :: moves[j].from == moves[i].to.address
  }

  function Last(current: CanonicalContractInfo, moves: seq<Move>): CanonicalContractInfo {
    if moves == [] then current else moves[|moves| - 1].to
  }

  function Current(s: Dealer.DealerState): CanonicalContractInfo
    requires Lockstep(s)
  {
    CanonicalContractInfo(s.childAddress.value, s.childCodeHash.value)
  }

  /** A notice is accepted exactly when its sender is the current child and its target is an
      address at all. */
  lemma NoticeAcceptedIff(api: Api, s: Dealer.DealerState, info: MessageInfo, l: ListenerMsg)
    requires Lockstep(s)
    ensures Dealer.Executed(api, s, info, DealerListener(l)).Ok? <==>
            api.canonicalize(info.sender) == Ok(Current(s).address) && api.canonicalize(l.to.address).Ok?
  {
  }

  lemma StepIsAMove(api: Api, s: Dealer.DealerState, e: Event)
    requires Lockstep(s)
    ensures var s' := After(api, s, e);
            && Lockstep(s')
            && (if e.msg.DealerListener? && Dealer.Executed(api, s, e.info, e.msg).Ok?
                then api.canonicalize(e.info.sender) == Ok(Current(s).address)
                     && api.CanonicalizeInfo(e.msg.listener.to) == Ok(Current(s'))
                else Current(s') == Current(s))
  {
  }

  lemma SuccessionExtends(m: Move, rest: seq<Move>)
    requires Succession(m.to.address, rest)
    ensures Succession(m.from, [m] + rest)
  {
  }

  /** Main result: over any sequence of messages from anyone, naming anyone, the accepted
      notices form a succession that starts at the child the dealer began with; the stored
      reference is the last one named; and its copy among the subscribers never diverges. */
  lemma {:induction false} ReferenceIsInherited(api: Api, s: Dealer.DealerState, events: seq<Event>)
    requires Lockstep(s)
    ensures var moves := Accepted(api, s, events);
            var s' := AfterAll(api, s, events);
            && Succession(Current(s).address, moves)
            && Lockstep(s')
            && Current(s') == Last(Current(s), moves)
    decreases |events|
  {
    if events != [] {
      StepIsAMove(api, s, events[0]);
      ReferenceIsInherited(api, After(api, s, events[0]), events[1..]);
      var moves := Accepted(api, s, events);
      var rest := Accepted(api, After(api, s, events[0]), events[1..]);
      if moves != rest {
        SuccessionExtends(moves[0], rest);
      }
    }
  }

  /** Lockstep begins with the reply, whatever was subscribed by then being nothing. */
  lemma ReplyStartsLockstep(api: Api, env: ContractInfo, s: Dealer.DealerState, id: nat, a: Addr)
    requires s.subscribers.GetOr([]) == []
    ensures var r := Dealer.Replied(api, env, s, id, a);
            r.Ok? ==> Lockstep(r.value.0) && Current(r.value.0).address == api.Canon(a)
  {
  }
}
