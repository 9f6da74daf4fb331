/** Induction over the runs of a step machine. */
module Runs {

  /** What holds at the start and survives every step holds all along a run. */
  lemma {:induction false} HoldsThroughout<S(!new), T(!new)>(holds: S -> bool, next: (S, T, S) -> bool, steps: seq<T>, states: seq<S>, k: nat)
    requires |states| == |steps| + 1 && k < |states| && holds(states[0])
    requires forall i {:trigger steps[i]} :: 0 <= i < |steps| ==> next(states[i], steps[i], states[i + 1])
    requires forall s, t, u :: holds(s) && next(s, t, u) ==> holds(u)
    ensures holds(states[k])
  {
    if k > 0 {
      HoldsThroughout(holds, next, steps, states, k - 1);
      assert next(states[k - 1], steps[k - 1], states[k]);
    }
  }

  /** What holds at some point and survives every step but a breaking one still holds
      later, unless a breaking step was taken in between. */
  lemma {:induction false} HoldsUntil<S(!new), T(!new)>(holds: S -> bool, next: (S, T, S) -> bool, breaks: (S, T) -> bool,
                                                        steps: seq<T>, states: seq<S>, i: nat, k: nat)
    requires |states| == |steps| + 1 && i <= k < |states| && holds(states[i])
    requires forall j {:trigger steps[j]} :: 0 <= j < |steps| ==> next(states[j], steps[j], states[j + 1])
    requires forall s, t, u :: holds(s) && next(s, t, u) && !breaks(s, t) ==> holds(u)
    ensures holds(states[k]) || exists j {:trigger steps[j]} :: i <= j < k && breaks(states[j], steps[j])
    decreases k
  {
    if i < k {
      HoldsUntil(holds, next, breaks, steps, states, i, k - 1);
      assert next(states[k - 1], steps[k - 1], states[k]);
    }
  }
}
