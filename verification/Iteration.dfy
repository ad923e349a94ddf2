/** Doing the same thing over and over, and when it is done. */
module Iteration {
  function Iterate<T>(step: T -> T, t: T, n: nat): T {
    if n == 0 then t else step(Iterate(step, t, n - 1))
  }

  /** A bound that every step lowers is used up. */
  lemma {:induction false} Countdown<T(!new)>(step: T -> T, bounded: (T, nat) -> bool, t: T, n: nat, left: nat)
    requires forall u, l: nat :: bounded(u, l + 1) ==> bounded(step(u), l)
    requires bounded(t, left + n)
    ensures bounded(Iterate(step, t, n), left)
  {
    if n > 0 {
      Countdown(step, bounded, t, n - 1, left + 1);
    }
  }
}
