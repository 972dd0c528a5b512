/** Who can change a child's administrator, minters and status, over any log of steps. */
module Administration {
  import opened Types
  import opened Wire
  import opened Chain
  import opened Logs
  import opened Link
  import opened Conserved
  import opened Rules
  import Child

  predicate IsChild(w: World, c: Addr) {
    c in w.contracts && w.contracts[c].storage.ChildStorage?
  }

  /** A call on the child by the address that is its administrator at that moment. */
  predicate FromAdmin(api: Api, e: Entry, c: Addr) {
    && IsChild(e.before, c) && e.task.Call? && e.task.out.Execute? && e.task.out.contract == c
    && api.canonicalize(e.task.sender) == Ok(ChildAt(e.before, c).admin)
  }

  /** Its message is one of the administrator's own. */
  predicate Administers(e: Entry)
    requires e.task.Call? && e.task.out.Execute?
  {
    var m := DecodeBase(e.task.out.msg);
    m.Ok? && !m.value.MintNft? && !m.value.OtherBase?
  }

  predicate SameAdministration(t: Child.ChildState, t': Child.ChildState) {
    t'.admin == t.admin && t'.minters == t.minters && t'.status == t.status
  }

  lemma MessageAdministers(api: Api, t: Child.ChildState, sender: Addr, m: ChildExecuteMsg)
    requires Child.Executed(api, t, sender, m).Ok? && !SameAdministration(t, Child.Executed(api, t, sender, m).value)
    ensures api.canonicalize(sender) == Ok(t.admin)
    ensures m.ChildBase? && !m.base.MintNft? && !m.base.OtherBase?
  {
    OnlyTheAdminAdministers(api, t, sender, m);
  }

  lemma StepAdministers(api: Api, e: Entry, c: Addr)
    requires IsStep(api, e) && IsChild(e.before, c)
    ensures IsChild(e.after, c)
    ensures SameAdministration(ChildAt(e.before, c), ChildAt(e.after, c)) || (FromAdmin(api, e, c) && Administers(e))
  {
    StepSettles(api, e.before, e.oracle, e.task);
    var t := e.task;
    if t.Call? && t.out.Execute? {
      ExecuteChangesOnly(api, e.before, e.oracle, t);
      if t.out.contract == c && !SameAdministration(ChildAt(e.before, c), ChildAt(e.after, c)) {
        ChildAttemptsCommute(t.out.msg);
        MessageAdministers(api, ChildAt(e.before, c), t.sender, DecodeChild(t.out.msg).value);
      }
    }
  }

  /** Main result: if a child's administrator, minters or status differ after any steps, its
      administrator of some moment has sent it a message that administers. */
  lemma {:induction false} LogIsAdministered(api: Api, w: World, log: seq<Entry>, w': World, c: Addr)
    requires Chained(api, w, log, w') && IsChild(w, c)
    ensures IsChild(w', c)
    ensures SameAdministration(ChildAt(w, c), ChildAt(w', c)) ||
            exists e | e in log :: FromAdmin(api, e, c) && Administers(e)
    decreases |log|
  {
    if log != [] {
      assert log[0] in log && forall e | e in log[1..] :: e in log;
      StepAdministers(api, log[0], c);
      LogIsAdministered(api, log[0].after, log[1..], w', c);
    }
  }
}
