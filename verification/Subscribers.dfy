/** The operations of the migratable-contract library that both contracts call on their
    stored list of migration subscribers. The library itself is not part of the repository;
    README.md states what is assumed of it. */
module Subscribers {
  import opened Types
  import opened Wire

  type SubscriberList = seq<CanonicalContractInfo>

  // ---------- registering ----------

  /** `add_migration_complete_event_subscriber`: an absent list counts as empty. */
  function Added(subscribers: Option<SubscriberList>, info: CanonicalContractInfo): Option<SubscriberList> {
    Some(subscribers.GetOr([]) + [info])
  }

  /** `register_to_notify_on_migration_complete`: with a stored slot counter, a registration
      uses one slot and fails when none is left; with no counter there is no bound. */
  function Registered(api: Api, subscribers: Option<SubscriberList>, slots: Option<U8>,
                      address: Addr, codeHash: CodeHash): Result<(Option<SubscriberList>, Option<U8>)> {
    var raw :- api.canonicalize(address);
    var added := Added(subscribers, CanonicalContractInfo(raw, codeHash));
    match slots
    case None => Ok((added, None))
    case Some(n) => if n == 0 then Err else Ok((added, Some(n - 1)))
  }

  /** Only a missing slot or an address that is none is refused; what is accepted comes last and
      uses one slot. */
  lemma RegisteredIff(api: Api, subscribers: Option<SubscriberList>, slots: Option<U8>, address: Addr,
                      codeHash: CodeHash)
    ensures var r := Registered(api, subscribers, slots, address, codeHash);
            && (r.Ok? <==> api.canonicalize(address).Ok? && slots != Some(0))
            && (r.Ok? ==>
                  && r.value.0 == Some(subscribers.GetOr([]) +
                                       [CanonicalContractInfo(api.canonicalize(address).value, codeHash)])
                  && (if slots.Some? then r.value.1.Some? && r.value.1.value + 1 == slots.value else r.value.1.None?))
  {
  }

  // ---------- following a migrated subscriber ----------

  function Replaced(entry: CanonicalContractInfo, from: CanonicalAddr, to: CanonicalContractInfo)
    : CanonicalContractInfo
  {
    if entry.address == from then to else entry
  }

  /** Pointwise reference definition of `update_migrated_subscriber`. */
  function Updated(s: SubscriberList, from: CanonicalAddr, to: CanonicalContractInfo): SubscriberList {
    seq(|s|, i requires 0 <= i < |s| => Replaced(s[i], from, to))
  }

  function UpdatedStored(s: Option<SubscriberList>, from: CanonicalAddr, to: CanonicalContractInfo)
    : Option<SubscriberList>
  {
    match s
    case None => None
    case Some(list) => Some(Updated(list, from, to))
  }

  /** The loop over the loaded list, overwriting matching entries in place. */
  method UpdateMigrated(s: SubscriberList, from: CanonicalAddr, to: CanonicalContractInfo) returns (r: SubscriberList)
    ensures r == Updated(s, from, to)
    ensures |r| == |s|
    ensures forall i | 0 <= i < |s| :: s[i].address != from ==> r[i] == s[i]
    ensures forall i | 0 <= i < |s| :: s[i].address == from ==> r[i] == to
  {
    r := s;
    var i := 0;
    while i < |s|
      invariant 0 <= i <= |s| == |r|
      invariant r[..i] == Updated(s, from, to)[..i]
      invariant r[i..] == s[i..]
    {
      if r[i].address == from {
        r := r[i := to];
      }
      i := i + 1;
    }
  }

  datatype Move = Move(from: CanonicalAddr, to: CanonicalContractInfo)

  function UpdatedByAll(s: SubscriberList, moves: seq<Move>): SubscriberList
    decreases |moves|
  {
    if moves == [] then s else UpdatedByAll(Updated(s, moves[0].from, moves[0].to), moves[1..])
  }

  function EntryAfter(entry: CanonicalContractInfo, moves: seq<Move>): CanonicalContractInfo
    decreases |moves|
  {
    if moves == [] then entry else EntryAfter(Replaced(entry, moves[0].from, moves[0].to), moves[1..])
  }

  /** Over any run of notifications the entries evolve independently: position, length and
      every other entry are unaffected by what happens to one of them. */
  lemma {:induction false} EntriesEvolveAlone(s: SubscriberList, moves: seq<Move>)
    ensures |UpdatedByAll(s, moves)| == |s|
    ensures forall i | 0 <= i < |s| :: UpdatedByAll(s, moves)[i] == EntryAfter(s[i], moves)
    decreases |moves|
  {
    if moves != [] {
      EntriesEvolveAlone(Updated(s, moves[0].from, moves[0].to), moves[1..]);
    }
  }

  /** A run changes an entry exactly when some sender speaks for the entry's current address:
      if none of the senders is the entry's address, the entry survives the run. */
  lemma {:induction false} OnlyItsOwnerMovesAnEntry(entry: CanonicalContractInfo, moves: seq<Move>)
    requires forall m | m in moves :: m.from != entry.address
    ensures EntryAfter(entry, moves) == entry
    decreases |moves|
  {
    if moves != [] {
      assert moves[0] in moves;
      OnlyItsOwnerMovesAnEntry(entry, moves[1..]);
    }
  }

  // ---------- announcing a migration ----------

  function HumanizeAll(api: Api, s: SubscriberList): Result<seq<ContractInfo>> {
    if s == [] then Ok([])
    else
      var first :- api.HumanizeInfo(s[0]);
      var rest :- HumanizeAll(api, s[1..]);
      Ok([first] + rest)
  }

  function Notification(recipient: ContractInfo, migrated: ContractInfo): Out {
    Execute(recipient.address, recipient.codeHash, EncodeListener(MigrationComplete(migrated, None)), [])
  }

  function Broadcast(migrated: ContractInfo, recipients: seq<ContractInfo>): seq<Out> {
    seq(|recipients|, i requires 0 <= i < |recipients| => Notification(recipients[i], migrated))
  }

  /** The `migrate` entry point, the same in both contracts. */
  function Announced(api: Api, env: ContractInfo, subscribers: Option<SubscriberList>): Result<seq<Out>> {
    var recipients :- HumanizeAll(api, subscribers.GetOr([]));
    Ok(Broadcast(env, recipients))
  }

  lemma {:induction false} HumanizeAllIsPointwise(api: Api, s: SubscriberList)
    ensures HumanizeAll(api, s).Ok? <==> forall e | e in s :: api.humanize(e.address).Ok?
    ensures HumanizeAll(api, s).Ok? ==>
              && |HumanizeAll(api, s).value| == |s|
              && forall i | 0 <= i < |s| :: api.HumanizeInfo(s[i]) == Ok(HumanizeAll(api, s).value[i])
  {
    if s != [] {
      HumanizeAllIsPointwise(api, s[1..]);
      assert forall e :: e in s <==> e == s[0] || e in s[1..];
    }
  }

  lemma SoleRecipient(api: Api, env: ContractInfo, e: CanonicalContractInfo, r: ContractInfo)
    requires api.HumanizeInfo(e) == Ok(r)
    ensures Announced(api, env, Some([e])) == Ok([Notification(r, env)])
  {
    assert HumanizeAll(api, [e][1..]) == Ok([]);
    assert HumanizeAll(api, [e]) == Ok([r]) by {
      assert [r] + [] == [r];
    }
    assert Broadcast(env, [r]) == [Notification(r, env)];
  }

  /** Main result: one notification per stored subscriber, in stored order, each naming the
      migrated contract; or none at all when some stored address has no human form. */
  lemma BroadcastIsExact(api: Api, env: ContractInfo, subscribers: Option<SubscriberList>)
    ensures var s := subscribers.GetOr([]);
            var r := Announced(api, env, subscribers);
            && (r.Ok? <==> forall e | e in s :: api.humanize(e.address).Ok?)
            && (r.Ok? ==>
                  && |r.value| == |s|
                  && forall i | 0 <= i < |s| ::
                       && api.humanize(s[i].address).Ok?
                       && r.value[i] == Execute(api.humanize(s[i].address).value, s[i].codeHash,
                                                EncodeListener(MigrationComplete(env, None)), []))
  {
    HumanizeAllIsPointwise(api, subscribers.GetOr([]));
  }

  /** A contract that registers is told of the next migration: its notice comes last, and the
      notices to everyone before it are what they were. An address without a human form silences
      the broadcast. */
  lemma SubscriberIsNotified(api: Api, env: ContractInfo, subscribers: Option<SubscriberList>, slots: Option<U8>,
                             address: Addr, codeHash: CodeHash)
    requires Registered(api, subscribers, slots, address, codeHash).Ok?
    ensures var e := CanonicalContractInfo(api.canonicalize(address).value, codeHash);
            var earlier := Announced(api, env, subscribers);
            var later := Announced(api, env, Registered(api, subscribers, slots, address, codeHash).value.0);
            && (later.Ok? <==> earlier.Ok? && api.HumanizeInfo(e).Ok?)
            && (later.Ok? ==> later.value == earlier.value + [Notification(api.HumanizeInfo(e).value, env)])
  {
    var s := subscribers.GetOr([]);
    var e := CanonicalContractInfo(api.canonicalize(address).value, codeHash);
    HumanizeAllIsPointwise(api, s);
    HumanizeAllIsPointwise(api, s + [e]);
    assert forall x :: x in s + [e] <==> x in s || x == e;
    if Announced(api, env, Some(s + [e])).Ok? {
      forall i | 0 <= i < |s| ensures HumanizeAll(api, s + [e]).value[i] == HumanizeAll(api, s).value[i] {
        assert (s + [e])[i] == s[i];
      }
      assert (s + [e])[|s|] == e;
    }
  }

  // ---------- the slot bound ----------

  datatype ListEvent =
    | Register(address: Addr, codeHash: CodeHash)
    | Notify(move: Move)

  datatype Listing = Listing(subscribers: Option<SubscriberList>, slots: Option<U8>)

  /** One committed or refused change of a subscriber list; a refused one leaves no trace. */
  function ListStep(api: Api, l: Listing, e: ListEvent): Listing {
    match e
    case Register(address, codeHash) =>
      (match Registered(api, l.subscribers, l.slots, address, codeHash)
       case Ok((s, n)) => Listing(s, n)
       case Err => l)
    case Notify(m) => l.(subscribers := UpdatedStored(l.subscribers, m.from, m.to))
  }

  function ListRun(api: Api, l: Listing, events: seq<ListEvent>): Listing
    decreases |events|
  {
    if events == [] then l else ListRun(api, ListStep(api, l, events[0]), events[1..])
  }

  function ListSize(l: Listing): nat {
    |l.subscribers.GetOr([])|
  }

  /** Main result: subscribers plus free slots is conserved by every run, so a list born with
      `n` slots never holds more than `n` entries and the u8 counter never underflows. */
  lemma {:induction false} SlotsAreConserved(api: Api, l: Listing, events: seq<ListEvent>)
    requires l.slots.Some?
    ensures var r := ListRun(api, l, events);
            && r.slots.Some?
            && ListSize(r) + r.slots.value == ListSize(l) + l.slots.value
            && ListSize(l) <= ListSize(r)
    decreases |events|
  {
    if events != [] {
      SlotsAreConserved(api, ListStep(api, l, events[0]), events[1..]);
    }
  }

  /** With no free slot, no run can add, drop or displace an entry whose owner is silent. */
  lemma {:induction false} FullListIsClosed(api: Api, l: Listing, events: seq<ListEvent>)
    requires l.slots == Some(0) && l.subscribers.Some?
    requires forall e | e in events && e.Notify? ::
               forall x | x in l.subscribers.value :: e.move.from != x.address
    ensures ListRun(api, l, events) == l
    decreases |events|
  {
    if events != [] {
      var e := events[0];
      assert e in events;
      if e.Notify? {
        assert Updated(l.subscribers.value, e.move.from, e.move.to) == l.subscribers.value;
      }
      assert ListStep(api, l, e) == l;
      FullListIsClosed(api, l, events[1..]);
    }
  }

  // ---------- who gets a slot ----------

  /** The registrations that a run accepts, in order. */
  function Accepted(api: Api, l: Listing, events: seq<ListEvent>): seq<ListEvent>
    decreases |events|
  {
    if events == [] then []
    else
      var e := events[0];
      (if e.Register? && Registered(api, l.subscribers, l.slots, e.address, e.codeHash).Ok? then [e] else []) +
      Accepted(api, ListStep(api, l, e), events[1..])
  }

  /** The registrations of addresses that are some. */
  function Usable(api: Api, events: seq<ListEvent>): seq<ListEvent>
    decreases |events|
  {
    if events == [] then []
    else
      var e := events[0];
      (if e.Register? && api.canonicalize(e.address).Ok? then [e] else []) + Usable(api, events[1..])
  }

  /** Main result: of `n` free slots the first `n` usable registrations get one each, and no later
      one does, whatever notices come in between; without a counter all are accepted. */
  lemma {:induction false} FirstComeFirstServed(api: Api, l: Listing, events: seq<ListEvent>)
    ensures var asked := Usable(api, events);
            match l.slots
            case None => Accepted(api, l, events) == asked && ListRun(api, l, events).slots == None
            case Some(n) =>
              var served := if |asked| <= n then |asked| else n;
              && Accepted(api, l, events) == asked[..served]
              && ListRun(api, l, events).slots == Some(n - served)
    decreases |events|
  {
    if events != [] {
      var e := events[0];
      FirstComeFirstServed(api, ListStep(api, l, e), events[1..]);
      var rest := Usable(api, events[1..]);
      if e.Register? && api.canonicalize(e.address).Ok? {
        assert Usable(api, events) == [e] + rest;
        if l.slots.Some? && l.slots.value > 0 {
          var n := l.slots.value;
          var k := if |rest| <= n - 1 then |rest| else n - 1;
          assert ([e] + rest)[..k + 1] == [e] + rest[..k];
        }
      }
    }
  }

  function EntriesOf(api: Api, registrations: seq<ListEvent>): SubscriberList
    requires forall e | e in registrations :: e.Register? && api.canonicalize(e.address).Ok?
  {
    seq(|registrations|, i requires 0 <= i < |registrations| =>
      CanonicalContractInfo(api.canonicalize(registrations[i].address).value, registrations[i].codeHash))
  }

  /** Between notices the list grows by the accepted registrations, in order. */
  lemma {:induction false} AcceptedAreListed(api: Api, l: Listing, events: seq<ListEvent>)
    requires forall e | e in events :: e.Register?
    ensures forall e | e in Accepted(api, l, events) :: e.Register? && api.canonicalize(e.address).Ok?
    ensures ListRun(api, l, events).subscribers.GetOr([]) ==
            l.subscribers.GetOr([]) + EntriesOf(api, Accepted(api, l, events))
    decreases |events|
  {
    if events != [] {
      var e := events[0];
      assert e in events && forall x | x in events[1..] :: x in events;
      var next := ListStep(api, l, e);
      AcceptedAreListed(api, next, events[1..]);
      var rest := Accepted(api, next, events[1..]);
      if Registered(api, l.subscribers, l.slots, e.address, e.codeHash).Ok? {
        assert EntriesOf(api, [e] + rest) == EntriesOf(api, [e]) + EntriesOf(api, rest);
      }
    }
  }
}
