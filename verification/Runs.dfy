/** Induction along a run of any transition system. */
module Runs {

  lemma {:induction false} Along<S(!new)>(run: seq<S>, next: (S, S) -> bool, good: S -> bool, i: nat, j: nat)
    requires i <= j < |run|
    requires forall k :: i <= k < j ==> next(run[k], run[k + 1])
    requires forall s, s' :: good(s) && next(s, s') ==> good(s')
    requires good(run[i])
    ensures good(run[j])
    decreases j - i
  {
    if i < j {
      assert next(run[i], run[i + 1]);
      Along(run, next, good, i + 1, j);
    }
  }
}
