/** From single steps to whole transactions: the link invariant, the orderly books and the right
    addressing of every message, along any run. */
module LinkRuns {
  import opened Types
  import opened Wire
  import opened Chain
  import opened Logs
  import opened Link
  import opened Sales
  import opened Conserved
  import opened Handshake
  import opened LinkKept
  import Dealer

  // ---------- every message finds its recipient ----------

  /** What a step may rely on, seen from one pair: the dealer's messages other than notices name
      the child under its current code hash; the child speaks only to tell its dealer, under the
      dealer's current hash, of the migration it has just made; and while either side is behind,
      the message at hand is the notice that was due to it. */
  predicate AddressedIn(api: Api, w: World, t: Task, d: Addr, c: Addr)
    requires Pair(w, d, c) && api.Valid(d) && api.Valid(c)
  {
    && (t.Call? && t.sender == d && t.out.Execute? && DecodeListener(t.out.msg).Err? ==>
          t.out.contract == c && t.out.codeHash == w.contracts[c].codeHash)
    && (t.Call? && t.sender == c ==>
          t == ToDealer(w, d, c) && (InForeignHands(w, d) || LastHeard(w, c) == w.contracts[d].codeHash))
    && (!DealerIsCurrent(w, d, c) ==> t == ToDealer(w, d, c))
    && (Shape(api, w, d, c) && !ChildIsCurrent(w, d, c) ==> InForeignHands(w, d) || t == ToChild(w, d, c))
  }

  ghost predicate Addressed(api: Api, w: World, t: Task) {
    ValidContracts(api, w) && forall d, c | Pair(w, d, c) :: AddressedIn(api, w, t, d, c)
  }

  /** Every step of a run, those that fail and those that are undone included. */
  ghost predicate Served(api: Api, w: World, o: Oracle, stack: seq<Task>)
    decreases Weight(o, stack), Pending(stack, 4), Pending(stack, 3), Pending(stack, 2), Pending(stack, 1)
  {
    stack == [] ||
    (if Caught(stack[0]) then
       AttemptDescends(o, stack);
       var tried := Run(api, w, stack[0].out.oracle, [Tried(stack[0])]);
       && Served(api, w, stack[0].out.oracle, [Tried(stack[0])])
       && Served(api, tried.GetOr(w), o, [Verdict(stack[0])] + stack[1..])
     else
       && Addressed(api, w, stack[0])
       && match Step(api, w, o, stack[0])
          case Err => true
          case Ok(s) =>
            RunDescends(api, w, o, stack);
            Served(api, s.world, s.oracle, s.emitted + stack[1..]))
  }

  lemma HeadIsAddressed(api: Api, w: World, stack: seq<Task>)
    requires Inv(api, w, stack) && stack != []
    ensures Addressed(api, w, stack[0])
  {
    assert HeadOk(api, w, stack);
    forall d, c | Pair(w, d, c) ensures AddressedIn(api, w, stack[0], d, c) {
      assert PairOk(api, w, stack, d, c);
    }
  }

  lemma AddressedWhileHolding(api: Api, w: World, t: Task)
    requires ValidContracts(api, w) && t.Call?
    requires forall d, c | Pair(w, d, c) :: Holds(api, w, d, c) && t.sender != c
    requires t.out.Execute? && DecodeListener(t.out.msg).Err? ==>
               forall c | Pair(w, t.sender, c) :: t.out.contract == c && t.out.codeHash == w.contracts[c].codeHash
    ensures Addressed(api, w, t)
  {
  }

  // ---------- from one resting point to the next ----------

  /** How a run goes on: by one step, by a task and the two it sends, which send nothing more, or
      by such a task and a failure of the second one it sends. */
  datatype Progress =
    | Single(after: Stepped)
    | Triple(first: World, a: Task, second: World, b: Task, last: World)
    | Broken(first: World, a: Task, second: World, b: Task)

  predicate Goes(api: Api, w: World, o: Oracle, t: Task, p: Progress) {
    match p
    case Single(s) => Step(api, w, o, t) == Ok(s)
    case Triple(first, a, second, b, last) =>
      && Step(api, w, o, t) == Ok(Stepped(first, o, [a, b]))
      && Step(api, first, o, a) == Ok(Stepped(second, o, []))
      && Step(api, second, o, b) == Ok(Stepped(last, o, []))
    case Broken(first, a, second, b) =>
      && Step(api, w, o, t) == Ok(Stepped(first, o, [a, b]))
      && Step(api, first, o, a) == Ok(Stepped(second, o, []))
      && Step(api, second, o, b).Err? && !Caught(b)
  }

  function Entries(w: World, o: Oracle, t: Task, p: Progress): seq<Entry> {
    match p
    case Single(s) => [Entry(w, o, t, s.world)]
    case Triple(first, a, second, b, last) =>
      [Entry(w, o, t, first), Entry(first, o, a, second), Entry(second, o, b, last)]
    case Broken(_, _, _, _) => []
  }

  ghost predicate AllAddressed(api: Api, w: World, t: Task, p: Progress) {
    Addressed(api, w, t) && (p.Single? || (Addressed(api, p.first, p.a) && Addressed(api, p.second, p.b)))
  }

  /** Where it has got to, with all that is then to be done. */
  function Reached(o: Oracle, stack: seq<Task>, p: Progress): Stepped
    requires stack != [] && !p.Broken?
  {
    match p
    case Single(s) => s.(emitted := s.emitted + stack[1..])
    case Triple(_, _, _, _, last) => Stepped(last, o, stack[1..])
  }

  /** There the invariant holds again, and each dealer has kept its books. */
  ghost predicate Rests(api: Api, w: World, o: Oracle, stack: seq<Task>, p: Progress)
    requires stack != []
  {
    && (!p.Broken? ==> var s := Reached(o, stack, p); Inv(api, s.world, s.emitted))
    && forall d, c | Pair(w, d, c) :: Orderly(api, Entries(w, o, stack[0], p), d, c)
  }

  ghost predicate Advances(api: Api, w: World, o: Oracle, stack: seq<Task>, p: Progress)
    requires stack != []
  {
    Goes(api, w, o, stack[0], p) && AllAddressed(api, w, stack[0], p) && Rests(api, w, o, stack, p)
  }

  /** When every link holds, what was waiting goes on. */
  lemma Resume(api: Api, w: World, w': World, stack: seq<Task>)
    requires ValidContracts(api, w') && OneChildEach(w')
    requires stack != [] && forall i | 0 < i < |stack| :: Waiting(w, stack[i])
    requires forall t :: Waiting(w, t) ==> Waiting(w', t)
    requires forall d, c | Pair(w', d, c) :: Holds(api, w', d, c)
    ensures Inv(api, w', stack[1..])
  {
    Queue(api, w, w', [], stack);
    assert [] + stack[1..] == stack[1..];
  }

  /** Every step but the first of a sale or of a completed handshake, which do not rest in between. */
  lemma StepKeepsInv(api: Api, w: World, o: Oracle, stack: seq<Task>)
    requires Inv(api, w, stack) && stack != [] && Step(api, w, o, stack[0]).Ok?
    requires !StartsSale(w, stack[0]) && !Completes(w, stack[0])
    ensures var s := Step(api, w, o, stack[0]).value;
            Inv(api, s.world, s.emitted + stack[1..])
  {
    assert HeadOk(api, w, stack);
    if Birth(w, stack[0]) {
      BirthKeepsInv(api, w, o, stack);
    } else {
      match stack[0]
      case Reply(_, _, _) => ReplyKeepsInv(api, w, o, stack);
      case Call(_, Execute(_, _, _, _)) => ExecuteKeepsInv(api, w, o, stack);
      case Call(_, BankSend(_, _)) => SendKeepsInv(api, w, o, stack);
      case Call(_, Migrate(_, _)) => MigrateKeepsInv(api, w, o, stack);
      case Call(_, Instantiate(_, _, _, _)) => InstantiateKeepsInv(api, w, o, stack);
      case Call(_, Attempt(_, _)) =>
    }
  }

  /** A dealer with a child is idle while it is not selling. */
  lemma HeadIsIdle(api: Api, w: World, stack: seq<Task>, d: Addr, c: Addr)
    requires Inv(api, w, stack) && stack != [] && Pair(w, d, c)
    ensures Idle(api, stack[0], d)
    ensures Buys(stack[0], d) ==> stack[0].sender != d
  {
    assert HeadOk(api, w, stack);
    if stack[0].Call? && stack[0].out.Execute? {
      AtMostOneDecoderAccepts(stack[0].out.msg);
    }
  }

  lemma StepAdvances(api: Api, w: World, o: Oracle, stack: seq<Task>) returns (p: Progress)
    requires Inv(api, w, stack) && stack != [] && Step(api, w, o, stack[0]).Ok?
    requires !StartsSale(w, stack[0]) && !Completes(w, stack[0])
    ensures Advances(api, w, o, stack, p)
  {
    p := Single(Step(api, w, o, stack[0]).value);
    StepKeepsInv(api, w, o, stack);
    HeadIsAddressed(api, w, stack);
    forall d, c | Pair(w, d, c) ensures Orderly(api, Entries(w, o, stack[0], p), d, c) {
      HeadIsIdle(api, w, stack, d, c);
      assert !Buys(stack[0], d);
    }
  }

  /** Nothing a link waits for is a purchase. */
  lemma PurchasesAreUnrelated(api: Api, w: World, stack: seq<Task>, d: Addr)
    requires Inv(api, w, stack) && stack != [] && Buys(stack[0], d)
    ensures Sendable(api, w, stack[0]) && api.Valid(stack[0].sender)
    ensures forall d', c' | Pair(w, d', c') :: Holds(api, w, d', c') && stack[0].sender != c'
  {
    assert HeadOk(api, w, stack);
    AtMostOneDecoderAccepts(stack[0].out.msg);
    forall d', c' | Pair(w, d', c') ensures Holds(api, w, d', c') && stack[0].sender != c' {
      ListenerRoundTrip(MigrationComplete(Info(w, d'), None));
      ListenerRoundTrip(MigrationComplete(Info(w, c'), None));
      UnrelatedHolds(api, w, stack, d', c');
    }
  }

  lemma SaleIsAddressed(api: Api, w: World, w': World, t: Task, d: Addr, c: Addr)
    requires ValidContracts(api, w) && OneChildEach(w) && Pair(w, d, c) && Trading(api, DealerAt(w, d))
    requires forall d', c' | Pair(w, d', c') :: Holds(api, w, d', c')
    requires t.Call? && t.out.Execute? && w' == w.(bank := w'.bank)
    ensures Addressed(api, w', ForwardTask(api, w, d, t.out.funds))
    ensures Addressed(api, w', MintTask(api, w, d, c, t.sender))
  {
    forall d', c' | Pair(w', d', c') ensures Holds(api, w', d', c') {
      assert Pair(w, d', c') && Holds(api, w, d', c');
    }
    AddressedWhileHolding(api, w', ForwardTask(api, w, d, t.out.funds));
    AddressedWhileHolding(api, w', MintTask(api, w, d, c, t.sender));
  }

  /** After a sale every link holds as before. */
  lemma SaleKeepsInv(api: Api, w: World, forwarded: World, d: Addr, c: Addr, buyer: Addr, stack: seq<Task>)
    requires Inv(api, w, stack) && stack != [] && Pair(w, d, c) && Trading(api, DealerAt(w, d)) && api.Valid(buyer)
    requires forall d', c' | Pair(w, d', c') :: Holds(api, w, d', c')
    requires forwarded == w.(bank := forwarded.bank) && ChildAt(w, c).mintCount + 1 < U32_LIMIT
    ensures Inv(api, Minted(api, forwarded, d, c, buyer), stack[1..])
  {
    var w' := Minted(api, forwarded, d, c, buyer);
    assert ChangesOnly(w, w', c);
    PairsStay(w, w', c);
    forall d', c' | Pair(w', d', c') ensures Holds(api, w', d', c') {
      assert Pair(w, d', c') && Holds(api, w, d', c');
      if c' != c {
        HoldsElsewhere(api, w, w', c, d', c');
      }
    }
    Resume(api, w, w', stack);
  }

  /** The three entries of a sale are a sale of this dealer, and no business of any other. */
  lemma SaleIsOrderly(api: Api, bought: Entry, sent: Entry, minted: Entry, d: Addr, c: Addr, d': Addr, c': Addr)
    requires IsSale(api, bought, sent, minted, d, c) && Pair(bought.before, d', c') && OneChildEach(bought.before)
    requires bought.task.sender != d'
    ensures Orderly(api, [bought, sent, minted], d', c')
  {
    var log := [bought, sent, minted];
    if d' == d {
      assert log[3..] == [];
    } else {
      assert [minted][1..] == [] && [sent, minted][1..] == [minted] && log[1..] == [sent, minted];
      assert Orderly(api, [minted], d', c');
      assert Orderly(api, [sent, minted], d', c');
    }
  }

  /** A purchase runs through its three steps or fails at the third. */
  lemma SaleGoes(api: Api, w: World, o: Oracle, t: Task, d: Addr, c: Addr) returns (p: Progress)
    requires ValidContracts(api, w) && OneChildEach(w) && Addressed(api, w, t)
    requires forall d', c' | Pair(w, d', c') :: Holds(api, w, d', c')
    requires Pair(w, d, c) && Buys(t, d) && api.Valid(t.sender) && t.sender != d && Step(api, w, o, t).Ok?
    ensures Goes(api, w, o, t, p) && AllAddressed(api, w, t, p) && !p.Single?
    ensures p.Triple? ==>
              && var log := Entries(w, o, t, p);
              && IsSale(api, log[0], log[1], log[2], d, c)
              && p.second == w.(bank := p.second.bank) && p.last == Minted(api, p.second, d, c, t.sender)
  {
    var ok, paid, forwarded := SaleEntries(api, w, o, t, d, c);
    var send, mint := ForwardTask(api, w, d, t.out.funds), MintTask(api, w, d, c, t.sender);
    SaleIsAddressed(api, w, paid, t, d, c);
    SaleIsAddressed(api, w, forwarded, t, d, c);
    p := if ok then Triple(paid, send, forwarded, mint, Minted(api, forwarded, d, c, t.sender))
    else Broken(paid, send, forwarded, mint);
  }

  lemma SaleAdvances(api: Api, w: World, o: Oracle, stack: seq<Task>, d: Addr, c: Addr) returns (p: Progress)
    requires Inv(api, w, stack) && stack != [] && Step(api, w, o, stack[0]).Ok?
    requires Pair(w, d, c) && Buys(stack[0], d)
    ensures Advances(api, w, o, stack, p)
  {
    var t := stack[0];
    PurchasesAreUnrelated(api, w, stack, d);
    HeadIsAddressed(api, w, stack);
    HeadIsIdle(api, w, stack, d, c);
    p := SaleGoes(api, w, o, t, d, c);
    SaleRests(api, w, o, stack, d, c, p);
  }

  lemma SaleRests(api: Api, w: World, o: Oracle, stack: seq<Task>, d: Addr, c: Addr, p: Progress)
    requires Inv(api, w, stack) && stack != [] && Pair(w, d, c) && Buys(stack[0], d) && !p.Single?
    requires forall d', c' | Pair(w, d', c') :: Holds(api, w, d', c')
    requires p.Triple? ==>
               && var log := Entries(w, o, stack[0], p);
               && IsSale(api, log[0], log[1], log[2], d, c)
               && p.second == w.(bank := p.second.bank) && p.last == Minted(api, p.second, d, c, stack[0].sender)
    ensures Rests(api, w, o, stack, p)
  {
    if p.Triple? {
      SaleKeepsInv(api, w, p.second, d, c, stack[0].sender, stack);
      forall d', c' | Pair(w, d', c') ensures Orderly(api, Entries(w, o, stack[0], p), d', c') {
        HeadIsIdle(api, w, stack, d', c');
        var log := Entries(w, o, stack[0], p);
        SaleIsOrderly(api, log[0], log[1], log[2], d, c, d', c');
      }
    }
  }

  // ---------- the handshake, completed ----------

  /** Every pair but that of `d`. */
  ghost predicate OthersHold(api: Api, w: World, d: Addr) {
    ValidContracts(api, w) && forall d', c' | Pair(w, d', c') && d' != d :: Holds(api, w, d', c')
  }

  lemma OthersKeepHolding(api: Api, w: World, w': World, k: Addr, d: Addr, c: Addr)
    requires Pair(w, d, c) && (k == d || k == c) && ChangesOnly(w, w', k) && OthersHold(api, w, d)
    ensures OthersHold(api, w', d) && Pair(w', d, c)
  {
    PairsStay(w, w', k);
    forall d', c' | Pair(w', d', c') && d' != d ensures Holds(api, w', d', c') {
      assert Pair(w, d', c');
      HoldsElsewhere(api, w, w', k, d', c');
    }
  }

  lemma SubscriptionIsAddressed(api: Api, w: World, d: Addr, c: Addr)
    requires Pair(w, d, c) && OneChildEach(w) && OthersHold(api, w, d)
    requires DealerIsCurrent(w, d, c) && Unsubscribed(ChildAt(w, c))
    ensures Addressed(api, w, Call(d, Dealer.SubscribeAtChild(Info(w, d), c, w.contracts[c].codeHash)))
  {
  }

  lemma HandOverIsAddressed(api: Api, w: World, d: Addr, c: Addr, admin: Addr)
    requires Pair(w, d, c) && OneChildEach(w) && OthersHold(api, w, d) && Linked(api, w, d, c)
    ensures Addressed(api, w, Call(d, Dealer.HandOver(c, w.contracts[c].codeHash, admin)))
  {
    AddressedWhileHolding(api, w, Call(d, Dealer.HandOver(c, w.contracts[c].codeHash, admin)));
  }

  lemma CompletionIsAddressed(api: Api, w: World, known: World, subscribed: World, d: Addr, c: Addr, admin: Addr)
    requires Pair(w, d, c) && OneChildEach(w) && OthersHold(api, w, d)
    requires ChangesOnly(w, known, d) && ChangesOnly(known, subscribed, c) && known.contracts[c] == w.contracts[c]
    requires Pair(known, d, c) && DealerIsCurrent(known, d, c) && Unsubscribed(ChildAt(w, c))
    requires Pair(subscribed, d, c) && api.Valid(d) && api.Valid(c) && Linked(api, subscribed, d, c)
    ensures Addressed(api, known, Call(d, Dealer.SubscribeAtChild(Info(w, d), c, w.contracts[c].codeHash)))
    ensures Addressed(api, subscribed, Call(d, Dealer.HandOver(c, w.contracts[c].codeHash, admin)))
  {
    PairsStay(w, known, d);
    PairsStay(known, subscribed, c);
    OthersKeepHolding(api, w, known, d, d, c);
    OthersKeepHolding(api, known, subscribed, c, d, c);
    SubscriptionIsAddressed(api, known, d, c);
    HandOverIsAddressed(api, subscribed, d, c, admin);
  }

  /** The reply that introduces a child to its dealer goes through its three steps, or fails at
      the first or the third. */
  lemma CompletionGoes(api: Api, w: World, o: Oracle, d: Addr, c: Addr) returns (p: Progress, admin: Addr)
    requires Pair(w, d, c) && OneChildEach(w) && OthersHold(api, w, d)
    requires DealerAt(w, d).subscribers == None && DealerIsCurrent(w, d, c) && Unsubscribed(ChildAt(w, c))
    requires Step(api, w, o, Reply(d, Dealer.INSTANTIATE_SNIP721_REPLY_ID, c)).Ok?
    ensures Goes(api, w, o, Reply(d, Dealer.INSTANTIATE_SNIP721_REPLY_ID, c), p) && !p.Single?
    ensures Addressed(api, p.first, p.a) && Addressed(api, p.second, p.b)
    ensures p.a == Call(d, Dealer.SubscribeAtChild(Info(w, d), c, w.contracts[c].codeHash))
    ensures p.b == Call(d, Dealer.HandOver(c, w.contracts[c].codeHash, admin))
    ensures p.Triple? ==>
              && ChangesOnly(w, p.first, d) && ChangesOnly(p.first, p.second, c) && ChangesOnly(p.second, p.last, c)
              && Pair(p.last, d, c) && Linked(api, p.last, d, c)
  {
    var hash := w.contracts[c].codeHash;
    var known: World;
    known, admin := ReplyAdvances(api, w, o, d, c);
    var subscribed := SubscriptionLinks(api, known, o, d, c);
    var subscribe := Call(d, Dealer.SubscribeAtChild(Info(w, d), c, hash));
    var handOver := Call(d, Dealer.HandOver(c, hash, admin));
    CompletionIsAddressed(api, w, known, subscribed, d, c, admin);
    if Step(api, subscribed, o, handOver).Ok? {
      HandOverHolds(api, subscribed, o, d, c, hash, admin);
      p := Triple(known, subscribe, subscribed, handOver, Step(api, subscribed, o, handOver).value.world);
    } else {
      p := Broken(known, subscribe, subscribed, handOver);
    }
  }

  lemma CompletionKeepsInv(api: Api, w: World, p: Progress, stack: seq<Task>, d: Addr, c: Addr)
    requires Inv(api, w, stack) && stack != [] && Pair(w, d, c) && OthersHold(api, w, d) && p.Triple?
    requires ChangesOnly(w, p.first, d) && ChangesOnly(p.first, p.second, c) && ChangesOnly(p.second, p.last, c)
    requires Pair(p.last, d, c) && Linked(api, p.last, d, c)
    ensures Inv(api, p.last, stack[1..])
  {
    PairsStay(w, p.first, d);
    PairsStay(p.first, p.second, c);
    PairsStay(p.second, p.last, c);
    OthersKeepHolding(api, w, p.first, d, d, c);
    OthersKeepHolding(api, p.first, p.second, c, d, c);
    OthersKeepHolding(api, p.second, p.last, c, d, c);
    Resume(api, w, p.last, stack);
  }

  /** The messages of a handshake are no business of the books. */
  lemma CompletionIsOrderly(api: Api, log: seq<Entry>, env: ContractInfo, d: Addr, c: Addr, codeHash: CodeHash,
                            admin: Addr, d': Addr, c': Addr)
    requires |log| == 3 && log[0].task.Reply? && c != d' && api.Valid(d)
    requires log[1].task == Call(d, Dealer.SubscribeAtChild(env, c, codeHash))
    requires log[2].task == Call(d, Dealer.HandOver(c, codeHash, admin))
    ensures Orderly(api, log, d', c')
  {
    MigratableRoundTrip(Subscribe(env.address, env.codeHash));
    AtMostOneDecoderAccepts(EncodeMigratable(Subscribe(env.address, env.codeHash)));
    BaseRoundTrip(ChangeAdmin(admin, None));
    assert log[1..][1..][1..] == [];
    assert Orderly(api, log[1..][1..], d', c');
    assert Orderly(api, log[1..], d', c');
  }

  lemma OthersAreUnrelated(api: Api, w: World, stack: seq<Task>)
    requires Inv(api, w, stack) && stack != [] && Completes(w, stack[0])
    ensures OthersHold(api, w, stack[0].contract)
    ensures Introduced(w, stack, stack[0].contract, stack[0].instantiated)
  {
    assert HeadOk(api, w, stack);
    forall d, c | Pair(w, d, c) && d != stack[0].contract ensures Holds(api, w, d, c) {
      UnrelatedHolds(api, w, stack, d, c);
    }
  }

  lemma CompletionRests(api: Api, w: World, o: Oracle, stack: seq<Task>, p: Progress, d: Addr, c: Addr, admin: Addr)
    requires Inv(api, w, stack) && stack != [] && stack[0].Reply? && Pair(w, d, c) && OthersHold(api, w, d)
    requires !p.Single? && p.a == Call(d, Dealer.SubscribeAtChild(Info(w, d), c, w.contracts[c].codeHash))
    requires p.b == Call(d, Dealer.HandOver(c, w.contracts[c].codeHash, admin))
    requires p.Triple? ==>
               && ChangesOnly(w, p.first, d) && ChangesOnly(p.first, p.second, c) && ChangesOnly(p.second, p.last, c)
               && Pair(p.last, d, c) && Linked(api, p.last, d, c)
    ensures Rests(api, w, o, stack, p)
  {
    if p.Triple? {
      CompletionKeepsInv(api, w, p, stack, d, c);
      forall d', c' | Pair(w, d', c') ensures Orderly(api, Entries(w, o, stack[0], p), d', c') {
        CompletionIsOrderly(api, Entries(w, o, stack[0], p), Info(w, d), d, c, w.contracts[c].codeHash, admin, d', c');
      }
    }
  }

  lemma CompletionAdvances(api: Api, w: World, o: Oracle, stack: seq<Task>) returns (p: Progress)
    requires Inv(api, w, stack) && stack != [] && Step(api, w, o, stack[0]).Ok? && Completes(w, stack[0])
    ensures Advances(api, w, o, stack, p)
  {
    var d, c := stack[0].contract, stack[0].instantiated;
    HeadIsAddressed(api, w, stack);
    OthersAreUnrelated(api, w, stack);
    var admin: Addr;
    p, admin := CompletionGoes(api, w, o, d, c);
    CompletionRests(api, w, o, stack, p, d, c, admin);
  }

  lemma Advance(api: Api, w: World, o: Oracle, stack: seq<Task>) returns (p: Progress)
    requires Inv(api, w, stack) && stack != [] && Step(api, w, o, stack[0]).Ok?
    ensures Advances(api, w, o, stack, p)
  {
    if StartsSale(w, stack[0]) {
      var d, c :| Pair(w, d, c) && Buys(stack[0], d);
      p := SaleAdvances(api, w, o, stack, d, c);
    } else if Completes(w, stack[0]) {
      p := CompletionAdvances(api, w, o, stack);
    } else {
      p := StepAdvances(api, w, o, stack);
    }
  }

  // ---------- whole runs ----------

  /** What is attempted is sent by a foreign contract, and no link is waiting for it. */
  lemma AttemptKeepsInv(api: Api, w: World, stack: seq<Task>)
    requires Inv(api, w, stack) && stack != [] && Caught(stack[0])
    ensures Inv(api, w, [Tried(stack[0])] + ([Verdict(stack[0])] + stack[1..]))
    ensures Inv(api, w, [Verdict(stack[0])] + stack[1..])
  {
    assert HeadOk(api, w, stack);
    var t := stack[0];
    assert Waiting(w, t) && IsForeign(w, t.sender);
    assert Waiting(w, Tried(t)) && Waiting(w, Verdict(t));
    forall d, c | Pair(w, d, c) ensures Holds(api, w, d, c) {
      UnrelatedHolds(api, w, stack, d, c);
    }
    Queue(api, w, w, [Verdict(t)], stack);
    Queue(api, w, w, [Tried(t), Verdict(t)], stack);
    assert [Tried(t), Verdict(t)] + stack[1..] == [Tried(t)] + ([Verdict(t)] + stack[1..]);
  }

  lemma RunOfThree(api: Api, w: World, o: Oracle, t: Task, rest: seq<Task>, p: Progress)
    requires !p.Single? && Goes(api, w, o, t, p)
    ensures p.Triple? ==> Run(api, w, o, [t] + rest) == Run(api, p.last, o, rest)
    ensures p.Broken? ==> Run(api, w, o, [t] + rest).Err?
  {
    var second, third := [p.a] + ([p.b] + rest), [p.b] + rest;
    assert [p.a, p.b] + rest == second && [] + third == third && [] + rest == rest;
    RunFollows(api, w, o, t, rest, Stepped(p.first, o, [p.a, p.b]));
    RunFollows(api, p.first, o, p.a, third, Stepped(p.second, o, []));
    if p.Broken? {
      RunStops(api, p.second, o, p.b, rest);
    } else {
      RunFollows(api, p.second, o, p.b, rest, Stepped(p.last, o, []));
    }
  }

  lemma RunGoes(api: Api, w: World, o: Oracle, stack: seq<Task>, p: Progress)
    requires stack != [] && Goes(api, w, o, stack[0], p)
    ensures p.Broken? ==> Run(api, w, o, stack).Err?
    ensures !p.Broken? ==>
              && var s := Reached(o, stack, p);
              && Run(api, w, o, stack) == Run(api, s.world, s.oracle, s.emitted)
              && Shrinks(s.oracle, s.emitted, o, stack)
  {
    assert stack == [stack[0]] + stack[1..];
    if p.Single? {
      RunFollows(api, w, o, stack[0], stack[1..], p.after);
      RunDescends(api, w, o, stack);
    } else {
      RunOfThree(api, w, o, stack[0], stack[1..], p);
      ShorterIsLighter([], stack);
      assert [] + stack[1..] == stack[1..];
    }
  }

  lemma ThreeInFront<T>(x: T, y: T, z: T, rest: seq<T>)
    ensures [x] + ([y] + ([z] + rest)) == [x, y, z] + rest
  {
  }

  lemma LogOfThree(api: Api, w: World, o: Oracle, t: Task, rest: seq<Task>, p: Progress)
    requires p.Triple? && Goes(api, w, o, t, p)
    ensures Log(api, w, o, [t] + rest) == Entries(w, o, t, p) + Log(api, p.last, o, rest)
  {
    var second, third := [p.a] + ([p.b] + rest), [p.b] + rest;
    assert [p.a, p.b] + rest == second && [] + third == third && [] + rest == rest;
    LogFollows(api, w, o, t, rest, Stepped(p.first, o, [p.a, p.b]));
    LogFollows(api, p.first, o, p.a, third, Stepped(p.second, o, []));
    LogFollows(api, p.second, o, p.b, rest, Stepped(p.last, o, []));
    var log := Entries(w, o, t, p);
    ThreeInFront(log[0], log[1], log[2], Log(api, p.last, o, rest));
  }

  lemma LogGoes(api: Api, w: World, o: Oracle, stack: seq<Task>, p: Progress)
    requires stack != [] && Goes(api, w, o, stack[0], p) && !p.Broken?
    ensures var s := Reached(o, stack, p);
            Log(api, w, o, stack) == Entries(w, o, stack[0], p) + Log(api, s.world, s.oracle, s.emitted)
  {
    assert stack == [stack[0]] + stack[1..];
    if p.Single? {
      LogFollows(api, w, o, stack[0], stack[1..], p.after);
    } else {
      LogOfThree(api, w, o, stack[0], stack[1..], p);
    }
  }

  lemma ServedFollows(api: Api, w: World, o: Oracle, t: Task, rest: seq<Task>, s: Stepped)
    requires Step(api, w, o, t) == Ok(s) && Addressed(api, w, t)
    requires Served(api, s.world, s.oracle, s.emitted + rest)
    ensures Served(api, w, o, [t] + rest)
  {
  }

  lemma ServedStops(api: Api, w: World, o: Oracle, t: Task, rest: seq<Task>)
    requires !Caught(t) && Step(api, w, o, t).Err? && Addressed(api, w, t)
    ensures Served(api, w, o, [t] + rest)
  {
  }

  lemma ThreeAreServed(api: Api, w: World, o: Oracle, t: Task, rest: seq<Task>, p: Progress)
    requires !p.Single? && Goes(api, w, o, t, p) && AllAddressed(api, w, t, p)
    requires p.Triple? ==> Served(api, p.last, o, rest)
    ensures Served(api, w, o, [t] + rest)
  {
    var second, third := [p.a] + ([p.b] + rest), [p.b] + rest;
    assert [p.a, p.b] + rest == second && [] + third == third && [] + rest == rest;
    if p.Broken? {
      ServedStops(api, p.second, o, p.b, rest);
    } else {
      ServedFollows(api, p.second, o, p.b, rest, Stepped(p.last, o, []));
    }
    ServedFollows(api, p.first, o, p.a, third, Stepped(p.second, o, []));
    ServedFollows(api, w, o, t, rest, Stepped(p.first, o, [p.a, p.b]));
  }

  lemma ServedGoes(api: Api, w: World, o: Oracle, stack: seq<Task>, p: Progress)
    requires stack != [] && Goes(api, w, o, stack[0], p) && AllAddressed(api, w, stack[0], p)
    requires !p.Broken? ==> var s := Reached(o, stack, p); Served(api, s.world, s.oracle, s.emitted)
    ensures Served(api, w, o, stack)
  {
    assert stack == [stack[0]] + stack[1..];
    if p.Single? {
      ServedFollows(api, w, o, stack[0], stack[1..], p.after);
    } else {
      ThreeAreServed(api, w, o, stack[0], stack[1..], p);
    }
  }

  /** A step is taken at the head, whatever waits behind the stack at hand. */
  lemma ReachedBefore(o: Oracle, stack: seq<Task>, tail: seq<Task>, p: Progress)
    requires stack != [] && !p.Broken?
    ensures Reached(o, stack + tail, p) ==
            Reached(o, stack, p).(emitted := Reached(o, stack, p).emitted + tail)
  {
    assert (stack + tail)[1..] == stack[1..] + tail;
    if p.Single? {
      assert p.after.emitted + (stack[1..] + tail) == p.after.emitted + stack[1..] + tail;
    }
  }

  /** Main result: a run, however foreign contracts interleave calls, instantiations, migrations
      and attempts of their own, ends with the invariant for what waits behind it; `tail` is
      empty for a whole transaction. */
  lemma {:induction false} RunKeepsInv(api: Api, w: World, o: Oracle, stack: seq<Task>, tail: seq<Task>)
    requires Inv(api, w, stack + tail)
    ensures Run(api, w, o, stack).Ok? ==> Inv(api, Run(api, w, o, stack).value, tail)
    decreases Weight(o, stack), Pending(stack, 4), Pending(stack, 3), Pending(stack, 2), Pending(stack, 1)
  {
    if stack == [] {
      assert stack + tail == tail;
    } else if Caught(stack[0]) {
      var w' := AttemptEnds(api, w, o, stack, tail);
      RunKeepsInv(api, w', o, [Verdict(stack[0])] + stack[1..], tail);
    } else if Step(api, w, o, stack[0]).Ok? {
      var p := Advance(api, w, o, stack + tail);
      RunGoes(api, w, o, stack, p);
      if !p.Broken? {
        ReachedBefore(o, stack, tail, p);
        var s := Reached(o, stack, p);
        RunKeepsInv(api, s.world, s.oracle, s.emitted, tail);
      }
    }
  }

  /** Succeeded or undone, an attempt leaves the invariant for the verdict and what follows. */
  lemma {:induction false} AttemptEnds(api: Api, w: World, o: Oracle, stack: seq<Task>, tail: seq<Task>)
    returns (w': World)
    requires Inv(api, w, stack + tail) && stack != [] && Caught(stack[0])
    ensures w' == Run(api, w, stack[0].out.oracle, [Tried(stack[0])]).GetOr(w)
    ensures Inv(api, w', ([Verdict(stack[0])] + stack[1..]) + tail)
    ensures Weight(o, [Verdict(stack[0])] + stack[1..]) < Weight(o, stack)
    decreases Weight(o, stack), Pending(stack, 4), Pending(stack, 3), Pending(stack, 2), Pending(stack, 1), 0
  {
    var t := stack[0];
    AttemptDescends(o, stack);
    AttemptKeepsInv(api, w, stack + tail);
    assert (stack + tail)[1..] == stack[1..] + tail;
    var behind := [Verdict(t)] + stack[1..] + tail;
    assert behind == [Verdict(t)] + (stack[1..] + tail);
    RunKeepsInv(api, w, t.out.oracle, [Tried(t)], behind);
    w' := Run(api, w, t.out.oracle, [Tried(t)]).GetOr(w);
  }

  /** Main result: every message of either contract, at every step of every run, those that fail
      and those that are undone included, is addressed right. */
  lemma {:induction false} RunIsServed(api: Api, w: World, o: Oracle, stack: seq<Task>, tail: seq<Task>)
    requires Inv(api, w, stack + tail)
    ensures Served(api, w, o, stack)
    decreases Weight(o, stack), Pending(stack, 4), Pending(stack, 3), Pending(stack, 2), Pending(stack, 1)
  {
    if stack == [] {
    } else if Caught(stack[0]) {
      AttemptIsServed(api, w, o, stack, tail);
      var w' := AttemptEnds(api, w, o, stack, tail);
      RunIsServed(api, w', o, [Verdict(stack[0])] + stack[1..], tail);
    } else if Step(api, w, o, stack[0]).Ok? {
      var p := Advance(api, w, o, stack + tail);
      RunGoes(api, w, o, stack, p);
      if !p.Broken? {
        ReachedBefore(o, stack, tail, p);
        var s := Reached(o, stack, p);
        RunIsServed(api, s.world, s.oracle, s.emitted, tail);
      }
      ServedGoes(api, w, o, stack, p);
    } else {
      HeadIsAddressed(api, w, stack + tail);
      assert stack == [stack[0]] + stack[1..];
      ServedStops(api, w, o, stack[0], stack[1..]);
    }
  }

  lemma {:induction false} AttemptIsServed(api: Api, w: World, o: Oracle, stack: seq<Task>, tail: seq<Task>)
    requires Inv(api, w, stack + tail) && stack != [] && Caught(stack[0])
    ensures Served(api, w, stack[0].out.oracle, [Tried(stack[0])])
    decreases Weight(o, stack), Pending(stack, 4), Pending(stack, 3), Pending(stack, 2), Pending(stack, 1), 0
  {
    AttemptDescends(o, stack);
    AttemptKeepsInv(api, w, stack + tail);
    RunIsServed(api, w, stack[0].out.oracle, [Tried(stack[0])], [Verdict(stack[0])] + (stack + tail)[1..]);
  }

  lemma EntriesAreChained(api: Api, w: World, o: Oracle, stack: seq<Task>, p: Progress)
    requires stack != [] && Goes(api, w, o, stack[0], p) && !p.Broken?
    ensures Chained(api, w, Entries(w, o, stack[0], p), Reached(o, stack, p).world)
  {
    var log := Entries(w, o, stack[0], p);
    if p.Triple? {
      assert log[1..] == [log[1], log[2]] && log[1..][1..] == [log[2]] && log[1..][1..][1..] == [];
      assert Chained(api, p.second, log[1..][1..], p.last);
      assert Chained(api, p.first, log[1..], p.last);
    }
  }

  /** Main result: in the log of any run, every dealer that has a child pays and mints as it sells
      and not otherwise. */
  lemma {:induction false} RunIsOrderly(api: Api, w: World, o: Oracle, stack: seq<Task>, tail: seq<Task>,
                                        d: Addr, c: Addr)
    requires Inv(api, w, stack + tail) && Pair(w, d, c) && Run(api, w, o, stack).Ok?
    ensures Orderly(api, Log(api, w, o, stack), d, c)
    decreases Weight(o, stack), Pending(stack, 4), Pending(stack, 3), Pending(stack, 2), Pending(stack, 1)
  {
    if stack == [] {
    } else if Caught(stack[0]) {
      var t, rest := stack[0], [Verdict(stack[0])] + stack[1..];
      var w' := AttemptEnds(api, w, o, stack, tail);
      var inner := AttemptIsOrderly(api, w, o, stack, tail, d, c);
      RunIsOrderly(api, w', o, rest, tail, d, c);
      OrderlyJoins(api, inner, Log(api, w', o, rest), d, c);
    } else {
      var p := Advance(api, w, o, stack + tail);
      RunGoes(api, w, o, stack, p);
      LogGoes(api, w, o, stack, p);
      EntriesAreChained(api, w, o, stack, p);
      ReachedBefore(o, stack, tail, p);
      var s := Reached(o, stack, p);
      LogSettles(api, w, Entries(w, o, stack[0], p), s.world);
      SettledPairsStay(w, s.world);
      RunIsOrderly(api, s.world, s.oracle, s.emitted, tail, d, c);
      OrderlyJoins(api, Entries(w, o, stack[0], p), Log(api, s.world, s.oracle, s.emitted), d, c);
    }
  }

  lemma {:induction false} AttemptIsOrderly(api: Api, w: World, o: Oracle, stack: seq<Task>, tail: seq<Task>,
                                            d: Addr, c: Addr) returns (inner: seq<Entry>)
    requires Inv(api, w, stack + tail) && Pair(w, d, c) && stack != [] && Caught(stack[0])
    ensures var tried := Run(api, w, stack[0].out.oracle, [Tried(stack[0])]);
            && inner == (if tried.Ok? then Log(api, w, stack[0].out.oracle, [Tried(stack[0])]) else [])
            && Orderly(api, inner, d, c) && Pair(tried.GetOr(w), d, c)
    decreases Weight(o, stack), Pending(stack, 4), Pending(stack, 3), Pending(stack, 2), Pending(stack, 1), 0
  {
    var o', task := stack[0].out.oracle, [Tried(stack[0])];
    inner := [];
    if Run(api, w, o', task).Ok? {
      AttemptDescends(o, stack);
      AttemptKeepsInv(api, w, stack + tail);
      RunIsOrderly(api, w, o', task, [Verdict(stack[0])] + (stack + tail)[1..], d, c);
      inner := Log(api, w, o', task);
      LogIsChained(api, w, o', task);
      LogSettles(api, w, inner, Run(api, w, o', task).value);
      SettledPairsStay(w, Run(api, w, o', task).value);
    }
  }
}
