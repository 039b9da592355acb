/**
 * Repeated application of a step function: what `discard(z)` promises for
 * both engines is `z` applications of the engine's step.
 */
module Iteration {

  /** `f` applied `n` times to `s`; the last application is outermost. */
  function Iterate<T>(f: T -> T, s: T, n: nat): T
  {
    if n == 0 then s else f(Iterate(f, s, n - 1))
  }

  /** Running `m` steps and then `n` more is running `m + n` steps. */
  lemma {:induction false} IterateAdd<T>(f: T -> T, s: T, m: nat, n: nat)
    ensures Iterate(f, s, m + n) == Iterate(f, Iterate(f, s, m), n)
  {
    if n > 0 {
      IterateAdd(f, s, m, n - 1);
    }
  }

  /** The first step can be split off the front. */
  lemma IterateFirst<T>(f: T -> T, s: T, n: nat)
    requires n >= 1
    ensures Iterate(f, s, n) == Iterate(f, f(s), n - 1)
  {
    IterateAdd(f, s, 1, n - 1);
  }
}
