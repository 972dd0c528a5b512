/** The log of a transaction: every step that took effect, in order, those of a failed attempt
    left out. Facts about single steps become facts about whole transactions through it. */
module Logs {
  import opened Types
  import opened Chain

  datatype Entry = Entry(before: World, oracle: Oracle, task: Task, after: World)

  predicate IsStep(api: Api, e: Entry) {
    Step(api, e.before, e.oracle, e.task).Ok? && Step(api, e.before, e.oracle, e.task).value.world == e.after
  }

  /** The entries are steps that lead from `w` to `w'` without a gap. */
  predicate Chained(api: Api, w: World, log: seq<Entry>, w': World)
    decreases |log|
  {
    if log == [] then w' == w
    else log[0].before == w && IsStep(api, log[0]) && Chained(api, log[0].after, log[1..], w')
  }

  function Log(api: Api, w: World, o: Oracle, stack: seq<Task>): seq<Entry>
    decreases Weight(o, stack), Pending(stack, 4), Pending(stack, 3), Pending(stack, 2), Pending(stack, 1)
  {
    if stack == [] then []
    else if Caught(stack[0]) then
      AttemptDescends(o, stack);
      var tried := Run(api, w, stack[0].out.oracle, [Tried(stack[0])]);
      var inner := if tried.Ok? then Log(api, w, stack[0].out.oracle, [Tried(stack[0])]) else [];
      inner + Log(api, tried.GetOr(w), o, [Verdict(stack[0])] + stack[1..])
    else
      match Step(api, w, o, stack[0])
      case Err => []
      case Ok(s) =>
        RunDescends(api, w, o, stack);
        [Entry(w, o, stack[0], s.world)] + Log(api, s.world, s.oracle, s.emitted + stack[1..])
  }

  lemma LogFollows(api: Api, w: World, o: Oracle, t: Task, rest: seq<Task>, s: Stepped)
    requires Step(api, w, o, t) == Ok(s)
    ensures Log(api, w, o, [t] + rest) == [Entry(w, o, t, s.world)] + Log(api, s.world, s.oracle, s.emitted + rest)
  {
  }

  lemma {:induction false} ChainsJoin(api: Api, w: World, a: seq<Entry>, mid: World, b: seq<Entry>, w': World)
    requires Chained(api, w, a, mid) && Chained(api, mid, b, w')
    ensures Chained(api, w, a + b, w')
    decreases |a|
  {
    if a == [] {
      assert a + b == b;
    } else {
      assert (a + b)[1..] == a[1..] + b;
      ChainsJoin(api, a[0].after, a[1..], mid, b, w');
    }
  }

  /** The log is a gapless account of how a run got from its first world to its last. */
  lemma {:induction false} LogIsChained(api: Api, w: World, o: Oracle, stack: seq<Task>)
    requires Run(api, w, o, stack).Ok?
    ensures Chained(api, w, Log(api, w, o, stack), Run(api, w, o, stack).value)
    decreases Weight(o, stack), Pending(stack, 4), Pending(stack, 3), Pending(stack, 2), Pending(stack, 1)
  {
    if stack != [] {
      if Caught(stack[0]) {
        AttemptDescends(o, stack);
        var inner, rest := [Tried(stack[0])], [Verdict(stack[0])] + stack[1..];
        var tried := Run(api, w, stack[0].out.oracle, inner);
        LogIsChained(api, tried.GetOr(w), o, rest);
        if tried.Ok? {
          LogIsChained(api, w, stack[0].out.oracle, inner);
          ChainsJoin(api, w, Log(api, w, stack[0].out.oracle, inner), tried.value, Log(api, tried.value, o, rest),
                     Run(api, w, o, stack).value);
        } else {
          assert [] + Log(api, w, o, rest) == Log(api, w, o, rest);
        }
      } else {
        var s := Step(api, w, o, stack[0]).value;
        RunDescends(api, w, o, stack);
        LogIsChained(api, s.world, s.oracle, s.emitted + stack[1..]);
      }
    }
  }
}
