// Finite runs of a transition system, given by its step relation.

module Runs {

  ghost predicate StepAt<S>(step: (S, S) -> bool, path: seq<S>, i: nat)
    requires i < |path| - 1
  {
    step(path[i], path[i + 1])
  }

  // A nonempty sequence of states, each one step after the one before.
  ghost predicate IsPath<S>(step: (S, S) -> bool, path: seq<S>) {
    |path| > 0 && forall i {:trigger StepAt(step, path, i)} :: 0 <= i < |path| - 1 ==> StepAt(step, path, i)
  }

  ghost predicate Reaches<S(!new)>(step: (S, S) -> bool, s: S, s': S) {
    exists path :: IsPath(step, path) && path[0] == s && path[|path| - 1] == s'
  }

  ghost predicate Keeps<S(!new)>(step: (S, S) -> bool, inv: S -> bool) {
    forall s, s' :: inv(s) && step(s, s') ==> inv(s')
  }

  // What every step keeps holds from any point of a path on.
  lemma {:induction false} KeptAlong<S(!new)>(step: (S, S) -> bool, inv: S -> bool, path: seq<S>, i: nat, j: nat)
    requires IsPath(step, path) && i <= j < |path| && inv(path[i]) && Keeps(step, inv)
    ensures inv(path[j])
    decreases j - i
  {
    if i < j {
      KeptAlong(step, inv, path, i, j - 1);
      assert StepAt(step, path, j - 1);
    }
  }

  lemma ReachesSelf<S(!new)>(step: (S, S) -> bool, s: S)
    ensures Reaches(step, s, s)
  {
    assert IsPath(step, [s]);
  }

  lemma ReachesStep<S(!new)>(step: (S, S) -> bool, s0: S, s: S, s': S)
    requires Reaches(step, s0, s) && step(s, s')
    ensures Reaches(step, s0, s')
  {
    var path :| IsPath(step, path) && path[0] == s0 && path[|path| - 1] == s;
    var longer := path + [s'];
    forall i | 0 <= i < |longer| - 1 ensures StepAt(step, longer, i) {
      if i < |path| - 1 { assert StepAt(step, path, i); }
    }
    assert IsPath(step, longer) && longer[0] == s0 && longer[|longer| - 1] == s';
  }

  lemma ReachesOn<S(!new)>(step: (S, S) -> bool, s0: S, s: S, s': S)
    requires Reaches(step, s0, s) && Reaches(step, s, s')
    ensures Reaches(step, s0, s')
  {
    var path :| IsPath(step, path) && path[0] == s && path[|path| - 1] == s';
    ReachesAlong(step, s0, path, |path| - 1);
  }

  lemma {:induction false} ReachesAlong<S(!new)>(step: (S, S) -> bool, s0: S, path: seq<S>, i: nat)
    requires IsPath(step, path) && i < |path| && Reaches(step, s0, path[0])
    ensures Reaches(step, s0, path[i])
  {
    if i > 0 {
      ReachesAlong(step, s0, path, i - 1);
      assert StepAt(step, path, i - 1);
      ReachesStep(step, s0, path[i - 1], path[i]);
    }
  }
}
