/** Runs of a step system, given by its initial states and its step relation. */
module Runs {
  ghost predicate IsRun<State(!new)>(boot: State -> bool, next: (State, State) -> bool, run: seq<State>) {
    |run| > 0 && boot(run[0]) && forall p :: 0 <= p < |run| - 1 ==> next(run[p], run[p + 1])
  }

  ghost predicate Reachable<State(!new)>(boot: State -> bool, next: (State, State) -> bool, s: State) {
    exists run :: IsRun(boot, next, run) && run[|run| - 1] == s
  }

  /** What holds initially and is kept by every step holds in every state of a run. */
  lemma {:induction false} Sound<State(!new)>(boot: State -> bool, next: (State, State) -> bool, inv: State -> bool, run: seq<State>)
    requires IsRun(boot, next, run)
    requires forall s :: boot(s) ==> inv(s)
    requires forall s, t :: inv(s) && next(s, t) ==> inv(t)
    ensures forall p :: 0 <= p < |run| ==> inv(run[p])
  {
    var last := |run| - 1;
    if last > 0 {
      Sound(boot, next, inv, run[..last]);
      assert inv(run[..last][last - 1]) && next(run[last - 1], run[last - 1 + 1]);
      forall p | 0 <= p < last ensures inv(run[p]) {
        assert run[..last][p] == run[p];
      }
    }
  }

  lemma Begin<State(!new)>(boot: State -> bool, next: (State, State) -> bool, s: State)
    requires boot(s)
    ensures Reachable(boot, next, s)
  {
    assert IsRun(boot, next, [s]) && [s][0] == s;
  }

  lemma Extend<State(!new)>(boot: State -> bool, next: (State, State) -> bool, s: State, t: State)
    requires Reachable(boot, next, s) && next(s, t)
    ensures Reachable(boot, next, t)
  {
    var run :| IsRun(boot, next, run) && run[|run| - 1] == s;
    var longer := run + [t];
    forall p | 0 <= p < |longer| - 1 ensures next(longer[p], longer[p + 1]) {
      if p < |run| - 1 {
        assert next(run[p], run[p + 1]);
      }
    }
    assert IsRun(boot, next, longer) && longer[|longer| - 1] == t;
  }

  /** A continuation of `s`. */
  ghost predicate From<State(!new)>(next: (State, State) -> bool, run: seq<State>, s: State) {
    |run| > 0 && run[0] == s && forall p :: 0 <= p < |run| - 1 ==> next(run[p], run[p + 1])
  }

  lemma Stay<State(!new)>(next: (State, State) -> bool, s: State)
    ensures From(next, [s], s)
  {
  }

  lemma Longer<State(!new)>(next: (State, State) -> bool, run: seq<State>, s: State, t: State)
    requires From(next, run, s) && next(run[|run| - 1], t)
    ensures From(next, run + [t], s) && (run + [t])[|run|] == t
  {
    var longer := run + [t];
    forall p | 0 <= p < |longer| - 1 ensures next(longer[p], longer[p + 1]) {
      if p < |run| - 1 {
        assert next(run[p], run[p + 1]);
      }
    }
  }

  lemma {:induction false} Forwards<State(!new)>(next: (State, State) -> bool, inv: State -> bool, run: seq<State>, s: State)
    requires From(next, run, s) && inv(s)
    requires forall u, v :: inv(u) && next(u, v) ==> inv(v)
    ensures inv(run[|run| - 1])
  {
    var last := |run| - 1;
    if last > 0 {
      assert next(run[last - 1], run[last - 1 + 1]);
      Forwards(next, inv, run[..last], s);
    }
  }

  /** What every step hands back from its target to its source, a continuation hands
      back from its end to its beginning, as long as an invariant is kept. */
  lemma {:induction false} Backwards<State(!new)>(
    next: (State, State) -> bool, inv: State -> bool, back: State -> bool, run: seq<State>, s: State)
    requires From(next, run, s) && inv(s) && back(run[|run| - 1])
    requires forall u, v :: inv(u) && next(u, v) ==> inv(v)
    requires forall u, v :: inv(u) && next(u, v) && back(v) ==> back(u)
    ensures back(s)
    decreases |run|
  {
    if |run| > 1 {
      assert next(run[0], run[1]);
      var rest := run[1..];
      forall p | 0 <= p < |rest| - 1 ensures next(rest[p], rest[p + 1]) {
        assert next(run[p + 1], run[p + 1 + 1]);
      }
      Backwards(next, inv, back, rest, run[1]);
    }
  }
}
