/** What may happen from a given state on, at lock granularity. */
module Continuations {
  import opened LockStep

  ghost predicate ValidFrom(s: State, run: seq<Move>)
    decreases |run|
  {
    run == [] || (Possible(s, run[0].t, run[0].a) && ValidFrom(Step(s, run[0].t, run[0].a), run[1..]))
  }

  ghost function ExecFrom(s: State, run: seq<Move>): State
    requires ValidFrom(s, run)
    decreases |run|
  {
    if run == [] then s else ExecFrom(Step(s, run[0].t, run[0].a), run[1..])
  }

  lemma Prepend(s: State, m: Move, run: seq<Move>)
    requires Possible(s, m.t, m.a) && ValidFrom(Step(s, m.t, m.a), run)
    ensures ValidFrom(s, [m] + run) && ExecFrom(s, [m] + run) == ExecFrom(Step(s, m.t, m.a), run)
  {
    assert ([m] + run)[1..] == run;
  }
}
