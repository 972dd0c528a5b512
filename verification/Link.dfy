/** The mutual link between a dealer and the child it created, inside one transaction. */
module Link {
  import opened Types
  import opened Wire
  import opened Subscribers
  import opened Chain
  import Child
  import Dealer

  /** `c` is a child contract that the dealer `d` instantiated. */
  predicate Pair(w: World, d: Addr, c: Addr) {
    && d in w.contracts && w.contracts[d].storage.DealerStorage?
    && c in w.contracts && w.contracts[c].storage.ChildStorage?
    && w.contracts[c].creator == d
  }

  predicate IsForeign(w: World, a: Addr) {
    a in w.contracts && w.contracts[a].storage.ForeignStorage?
  }

  /** A foreign contract is in charge of migrating `k`. */
  predicate InForeignHands(w: World, k: Addr) {
    && k in w.contracts && w.contracts[k].wasmAdmin.Some?
    && IsForeign(w, w.contracts[k].wasmAdmin.value)
  }

  ghost predicate OneChildEach(w: World) {
    forall d, c, c' :: Pair(w, d, c) && Pair(w, d, c') ==> c == c'
  }

  function DealerAt(w: World, d: Addr): Dealer.DealerState
    requires d in w.contracts && w.contracts[d].storage.DealerStorage?
  {
    w.contracts[d].storage.dealer
  }

  function ChildAt(w: World, c: Addr): Child.ChildState
    requires c in w.contracts && w.contracts[c].storage.ChildStorage?
  {
    w.contracts[c].storage.child
  }

  predicate ValidContracts(api: Api, w: World) {
    forall a | a in w.contracts :: api.Valid(a)
  }

  /** The dealer's two copies of the child's info agree: the stored reference and the first
      entry of its subscriber list. */
  predicate Lockstep(s: Dealer.DealerState) {
    && s.childAddress.Some? && s.childCodeHash.Some?
    && s.subscribers.Some? && |s.subscribers.value| > 0
    && s.subscribers.value[0] == CanonicalContractInfo(s.childAddress.value, s.childCodeHash.value)
  }

  /** Both sides name each other's address; the hashes may be behind. */
  predicate Shape(api: Api, w: World, d: Addr, c: Addr)
    requires Pair(w, d, c) && api.Valid(d) && api.Valid(c)
  {
    var s, t := DealerAt(w, d), ChildAt(w, c);
    && Lockstep(s)
    && s.childAddress.value == api.Canon(c)
    && t.slots == Some(0)
    && t.subscribers.Some? && |t.subscribers.value| == 1
    && t.subscribers.value[0].address == api.Canon(d)
  }

  predicate DealerIsCurrent(w: World, d: Addr, c: Addr)
    requires Pair(w, d, c)
  {
    DealerAt(w, d).childCodeHash == Some(w.contracts[c].codeHash)
  }

  /** The reference that the dealer sells by is right. */
  predicate KnowsItsChild(api: Api, w: World, d: Addr, c: Addr)
    requires Pair(w, d, c) && api.Valid(c)
  {
    DealerAt(w, d).childAddress == Some(api.Canon(c)) && DealerIsCurrent(w, d, c)
  }

  predicate ChildIsCurrent(w: World, d: Addr, c: Addr)
    requires Pair(w, d, c)
  {
    var s := ChildAt(w, c).subscribers;
    s.Some? && |s.value| > 0 && s.value[0].codeHash == w.contracts[d].codeHash
  }

  /** The mutual link: the dealer's stored reference and its first subscriber are the child's
      real address and code hash, and the child's one subscriber is the dealer as it is. */
  predicate Linked(api: Api, w: World, d: Addr, c: Addr)
    requires Pair(w, d, c) && api.Valid(d) && api.Valid(c)
  {
    Shape(api, w, d, c) && DealerIsCurrent(w, d, c) && ChildIsCurrent(w, d, c)
  }

  /** What holds of every pair: the dealer's side of the link; and the child's side too, as long
      as no foreign contract can migrate the dealer. */
  predicate Holds(api: Api, w: World, d: Addr, c: Addr)
    requires Pair(w, d, c) && api.Valid(d) && api.Valid(c)
  {
    && Shape(api, w, d, c) && DealerIsCurrent(w, d, c)
    && (InForeignHands(w, d) || ChildIsCurrent(w, d, c))
  }

  // ---------- what may be pending in the middle of a transaction ----------

  /** A call or a payment. */
  predicate Plain(out: Out) {
    out.Execute? || out.BankSend?
  }

  predicate Ours(w: World, a: Addr) {
    a in w.contracts && !w.contracts[a].storage.ForeignStorage?
  }

  /** A notice of `k` about itself; its code hash is the present one, unless a foreign contract
      may have changed that since. */
  predicate OwnNotice(w: World, k: Addr, out: Out)
    requires k in w.contracts
  {
    && out.Execute? && out.funds == [] && DecodeListener(out.msg).Ok?
    && DecodeListener(out.msg).value.to.address == k
    && (InForeignHands(w, k) || DecodeListener(out.msg).value.to == Info(w, k))
  }

  /** A task behind the next one. Ours call and pay and no more; the dealer of a pair has nothing
      waiting but notices, its child nothing at all; and a reply still to come goes to a contract
      that has no child. Foreign contracts send what they like. */
  ghost predicate Waiting(w: World, t: Task) {
    match t
    case Call(sender, out) =>
      && sender in w.contracts
      && (Ours(w, sender) ==> Plain(out))
      && (forall c :: Pair(w, sender, c) ==> OwnNotice(w, sender, out))
      && (forall d :: !Pair(w, d, sender))
    case Reply(a, _, _) =>
      a in w.contracts && forall c :: !Pair(w, a, c)
  }

  /** What an account may start a transaction with; migrations are treated on their own. */
  predicate FromOutside(api: Api, w: World, t: Task) {
    && t.Call? && api.Valid(t.sender) && t.sender !in w.contracts
    && !t.out.Migrate? && !t.out.Attempt? && (t.out.Instantiate? ==> t.out.replyId.None?)
  }

  /** A dealer that has just been stored asks for its child. */
  ghost predicate Birth(w: World, t: Task) {
    && t.Call? && t.sender in w.contracts && w.contracts[t.sender].storage.DealerStorage?
    && t.out.Instantiate? && t.out.init == InitChild(ChildInit(Some(t.sender), 1))
    && t.out.replyId == Some(Dealer.INSTANTIATE_SNIP721_REPLY_ID)
    && DealerAt(w, t.sender).childCodeHash == Some(t.out.codeHash)
    && DealerAt(w, t.sender).subscribers == None
    && forall c :: !Pair(w, t.sender, c)
  }

  /** Sent by `a`, or a reply to it. */
  predicate Involves(t: Task, a: Addr) {
    match t
    case Call(sender, _) => sender == a
    case Reply(contract, _, _) => contract == a
  }

  predicate Completes(w: World, t: Task) {
    t.Reply? && t.id == Dealer.INSTANTIATE_SNIP721_REPLY_ID && Pair(w, t.contract, t.instantiated)
  }

  /** The code hash under which a child knows its one subscriber. */
  function LastHeard(w: World, c: Addr): CodeHash
    requires c in w.contracts && w.contracts[c].storage.ChildStorage?
  {
    var s := ChildAt(w, c).subscribers.GetOr([]);
    if s == [] then "" else s[0].codeHash
  }

  /** The child of a pair tells its dealer of its migration. */
  function ToDealer(w: World, d: Addr, c: Addr): Task
    requires Pair(w, d, c)
  {
    Call(c, Notification(ContractInfo(d, LastHeard(w, c)), Info(w, c)))
  }

  function ToChild(w: World, d: Addr, c: Addr): Task
    requires Pair(w, d, c)
  {
    Call(d, Notification(Info(w, c), Info(w, d)))
  }

  ghost predicate ChildSpeaks(w: World, t: Task) {
    t.Call? && exists d :: Pair(w, d, t.sender) && t == ToDealer(w, d, t.sender)
  }

  predicate Next(stack: seq<Task>, t: Task) {
    stack != [] && stack[0] == t
  }

  predicate Unsubscribed(t: Child.ChildState) {
    t.subscribers == None && t.slots == Some(1)
  }

  /** The child exists and its dealer is about to hear of it. */
  predicate Introduced(w: World, stack: seq<Task>, d: Addr, c: Addr)
    requires Pair(w, d, c)
  {
    && Next(stack, Reply(d, Dealer.INSTANTIATE_SNIP721_REPLY_ID, c))
    && DealerAt(w, d).subscribers == None && DealerIsCurrent(w, d, c)
    && Unsubscribed(ChildAt(w, c))
  }

  ghost predicate HeadOk(api: Api, w: World, stack: seq<Task>)
    requires stack != []
  {
    || Waiting(w, stack[0])
    || FromOutside(api, w, stack[0])
    || (Birth(w, stack[0]) && forall t | t in stack[1..] :: !Involves(t, stack[0].sender))
    || (Completes(w, stack[0]) && Introduced(w, stack, stack[0].contract, stack[0].instantiated))
    || ChildSpeaks(w, stack[0])
  }

  /** Both sides hold the link, except that one may be about to be told of a migration. */
  predicate Following(api: Api, w: World, stack: seq<Task>, d: Addr, c: Addr)
    requires Pair(w, d, c) && api.Valid(d) && api.Valid(c)
  {
    && Shape(api, w, d, c)
    && (DealerIsCurrent(w, d, c) || Next(stack, ToDealer(w, d, c)))
    && (InForeignHands(w, d) || ChildIsCurrent(w, d, c) || Next(stack, ToChild(w, d, c)))
  }

  /** Whatever a pair still lacks, the very next task supplies. */
  predicate PairOk(api: Api, w: World, stack: seq<Task>, d: Addr, c: Addr)
    requires Pair(w, d, c) && api.Valid(d) && api.Valid(c)
  {
    Following(api, w, stack, d, c) || Introduced(w, stack, d, c)
  }

  ghost predicate Inv(api: Api, w: World, stack: seq<Task>) {
    && ValidContracts(api, w) && OneChildEach(w)
    && (stack != [] ==> HeadOk(api, w, stack))
    && (forall i | 0 < i < |stack| :: Waiting(w, stack[i]))
    && (forall d, c | Pair(w, d, c) :: PairOk(api, w, stack, d, c))
  }

  // ---------- the handlers keep the shape ----------

  lemma CanonInjective(api: Api, a: Addr, b: Addr)
    requires api.Valid(a) && api.Valid(b) && api.Canon(a) == api.Canon(b)
    ensures a == b
  {
  }

  /** Lockstep survives every message from anyone, whatever target a notice names; and the
      reference changes only on the word of the address it holds. */
  lemma DealerKeepsLockstep(api: Api, s: Dealer.DealerState, info: MessageInfo, m: DealerExecuteMsg)
    requires Lockstep(s) && Dealer.Executed(api, s, info, m).Ok?
    ensures var s' := Dealer.Executed(api, s, info, m).value.0;
            && Lockstep(s')
            && (if m.DealerListener?
                then api.canonicalize(info.sender) == Ok(s.childAddress.value)
                     && api.CanonicalizeInfo(m.listener.to) == Ok(s'.subscribers.value[0])
                else s'.subscribers.value[0] == s.subscribers.value[0])
  {
  }

  lemma ChildKeepsItsList(api: Api, s: Child.ChildState, sender: Addr, m: ChildExecuteMsg)
    requires Child.Executed(api, s, sender, m).Ok? && s.slots == Some(0)
    ensures var s' := Child.Executed(api, s, sender, m).value;
            && s'.slots == s.slots
            && (if m.ChildListener?
                then api.canonicalize(sender).Ok? && api.CanonicalizeInfo(m.listener.to).Ok?
                     && s'.subscribers == UpdatedStored(s.subscribers, api.canonicalize(sender).value,
                                                        api.CanonicalizeInfo(m.listener.to).value)
                else s'.subscribers == s.subscribers)
  {
  }

  // ---------- how a step changes the world ----------

  /** `w'` differs from `w` at most in the bank and in what the contract `k` has stored. */
  predicate ChangesOnly(w: World, w': World, k: Addr) {
    && w'.contracts.Keys == w.contracts.Keys
    && w'.codes == w.codes
    && (forall a | a in w.contracts && a != k :: w'.contracts[a] == w.contracts[a])
    && (k in w.contracts ==>
          && w'.contracts[k] == w.contracts[k].(storage := w'.contracts[k].storage)
          && ProgramOf(w'.contracts[k].storage) == ProgramOf(w.contracts[k].storage))
  }

  lemma ExecuteChangesOnly(api: Api, w: World, o: Oracle, t: Task)
    requires t.Call? && t.out.Execute? && Step(api, w, o, t).Ok?
    ensures t.out.contract in w.contracts
    ensures ChangesOnly(w, Step(api, w, o, t).value.world, t.out.contract)
  {
  }

  lemma PairsStay(w: World, w': World, k: Addr)
    requires ChangesOnly(w, w', k)
    ensures forall d, c :: Pair(w', d, c) <==> Pair(w, d, c)
    ensures forall a :: Ours(w', a) <==> Ours(w, a)
    ensures forall a :: InForeignHands(w', a) <==> InForeignHands(w, a)
    ensures forall a | a in w.contracts :: Info(w', a) == Info(w, a)
    ensures forall t :: Waiting(w, t) ==> Waiting(w', t)
  {
  }
}
