/** From one step to whole runs. */
module Stepwise {

  /**
   If a good state stays good exactly when the step is not a bad one, then all
   states of a run are good exactly when none of its steps is bad.
   */
  lemma {:induction false} AlwaysIffNever(n: nat, good: nat -> bool, bad: nat -> bool)
    requires good(0) && forall k | 0 <= k < n && good(k) :: good(k + 1) <==> !bad(k)
    ensures (forall k | 0 <= k <= n :: good(k)) <==> (forall k | 0 <= k < n :: !bad(k))
  {
    if n > 0 {
      AlwaysIffNever(n - 1, good, bad);
      assert (forall k | 0 <= k <= n :: good(k)) <==> (forall k | 0 <= k <= n - 1 :: good(k)) && good(n);
      assert (forall k | 0 <= k < n :: !bad(k)) <==> (forall k | 0 <= k < n - 1 :: !bad(k)) && !bad(n - 1);
    }
  }
}
