/** Going on from a state of a machine, by its steps. */
module Runs {
  /** A run of steps from one state to another. */
  ghost predicate Leads<S(!new)>(next: (S, S) -> bool, run: seq<S>, from: S, to: S) {
    && |run| > 0 && run[0] == from && run[|run| - 1] == to
    && forall i | 0 <= i < |run| - 1 :: next(run[i], run[i + 1])
  }

  ghost predicate CanReach<S(!new)>(next: (S, S) -> bool, from: S, to: S) {
    exists run :: Leads(next, run, from, to)
  }

  lemma ReachesSelf<S(!new)>(next: (S, S) -> bool, s: S)
    ensures CanReach(next, s, s)
  {
    assert Leads(next, [s], s, s);
  }

  lemma ReachesNext<S(!new)>(next: (S, S) -> bool, s: S, t: S, u: S)
    requires next(s, t) && CanReach(next, t, u)
    ensures CanReach(next, s, u)
  {
    var run :| Leads(next, run, t, u);
    assert Leads(next, [s] + run, s, u);
  }

  lemma ReachesStep<S(!new)>(next: (S, S) -> bool, s: S, t: S)
    requires next(s, t)
    ensures CanReach(next, s, t)
  {
    assert Leads(next, [s, t], s, t);
  }

  lemma ReachesTrans<S(!new)>(next: (S, S) -> bool, s: S, t: S, u: S)
    requires CanReach(next, s, t) && CanReach(next, t, u)
    ensures CanReach(next, s, u)
  {
    var a, b :| Leads(next, a, s, t) && Leads(next, b, t, u);
    var run := a + b[1..];
    forall i | 0 <= i < |run| - 1 ensures next(run[i], run[i + 1]) {
      if i >= |a| - 1 { assert run[i] == b[i - (|a| - 1)] && run[i + 1] == b[i - (|a| - 1) + 1]; }
    }
    assert Leads(next, run, s, u);
  }
}
