/** Runs of a transition system, the two inductions over them, and what can be
    reached from where. */
module Runs {
  ghost predicate IsRun<S(!new)>(first: S -> bool, next: (S, S) -> bool, run: seq<S>) {
    run != [] && first(run[0]) && forall i | 0 < i < |run| :: next(run[i - 1], run[i])
  }

  /** What holds at first and is kept by every step holds throughout. */
  lemma {:induction false} Throughout<S(!new)>(
      first: S -> bool, next: (S, S) -> bool, inv: S -> bool, run: seq<S>, i: nat)
    requires IsRun(first, next, run) && i < |run|
    requires forall s | first(s) :: inv(s)
    requires forall s, s' | inv(s) && next(s, s') :: inv(s')
    ensures inv(run[i])
  {
    if i > 0 {
      Throughout(first, next, inv, run, i - 1);
    }
  }

  /** What holds at i and is kept by every step from a state that satisfies the
      invariant holds at j. */
  lemma {:induction false} FromThenOn<S(!new)>(
      first: S -> bool, next: (S, S) -> bool, inv: S -> bool, p: S -> bool, run: seq<S>, i: nat, j: nat)
    requires IsRun(first, next, run) && i <= j < |run|
    requires forall s | first(s) :: inv(s)
    requires forall s, s' | inv(s) && next(s, s') :: inv(s')
    requires p(run[i])
    requires forall s, s' | inv(s) && p(s) && next(s, s') :: p(s')
    ensures p(run[j])
    decreases j - i
  {
    if i < j {
      FromThenOn(first, next, inv, p, run, i, j - 1);
      Throughout(first, next, inv, run, j - 1);
    }
  }

  lemma OneMore<S(!new)>(first: S -> bool, next: (S, S) -> bool, run: seq<S>, s: S)
    requires IsRun(first, next, run) && next(run[|run| - 1], s)
    ensures IsRun(first, next, run + [s])
  {
  }

  ghost predicate IsPath<S(!new)>(next: (S, S) -> bool, path: seq<S>, s: S, s': S) {
    && path != [] && path[0] == s && path[|path| - 1] == s'
    && forall i | 0 < i < |path| :: next(path[i - 1], path[i])
  }

  ghost predicate Reaches<S(!new)>(next: (S, S) -> bool, s: S, s': S) {
    exists path: seq<S> :: IsPath(next, path, s, s')
  }

  lemma ReachesItself<S(!new)>(next: (S, S) -> bool, s: S)
    ensures Reaches(next, s, s)
  {
    assert IsPath(next, [s], s, s);
  }

  lemma ReachesOn<S(!new)>(next: (S, S) -> bool, s: S, t: S, u: S)
    requires Reaches(next, s, t) && next(t, u)
    ensures Reaches(next, s, u)
  {
    var path: seq<S> :| IsPath(next, path, s, t);
    assert IsPath(next, path + [u], s, u);
  }

  /** What can be reached from the end of a run is the end of a longer one. */
  lemma RunReaches<S(!new)>(first: S -> bool, next: (S, S) -> bool, run: seq<S>, s: S) returns (longer: seq<S>)
    requires IsRun(first, next, run) && Reaches(next, run[|run| - 1], s)
    ensures IsRun(first, next, longer) && run <= longer && longer[|longer| - 1] == s
  {
    var path: seq<S> :| IsPath(next, path, run[|run| - 1], s);
    longer := run + path[1..];
    forall i | 0 < i < |longer|
      ensures next(longer[i - 1], longer[i])
    {
      if i >= |run| {
        assert longer[i] == path[i - |run| + 1] && longer[i - 1] == path[i - |run|];
      }
    }
  }

  /** What every step keeps holds of all that can be reached. */
  lemma ReachesKeeps<S(!new)>(next: (S, S) -> bool, p: S -> bool, s: S, s': S)
    requires Reaches(next, s, s') && p(s)
    requires forall a, b | p(a) && next(a, b) :: p(b)
    ensures p(s')
  {
    var path: seq<S> :| IsPath(next, path, s, s');
    PathKeeps(next, p, path, |path| - 1);
  }

  lemma {:induction false} PathKeeps<S(!new)>(next: (S, S) -> bool, p: S -> bool, path: seq<S>, i: nat)
    requires i < |path| && p(path[0])
    requires forall j | 0 < j < |path| :: next(path[j - 1], path[j])
    requires forall a, b | p(a) && next(a, b) :: p(b)
    ensures p(path[i])
  {
    if i > 0 {
      PathKeeps(next, p, path, i - 1);
    }
  }
}
