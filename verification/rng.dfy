/**
 * The random-number source, injected. A caller passes the raw draw that the
 * generator produced; the model keeps only the promise that a draw for the
 * closed interval [a, b] lands in it.
 */
module Rng {

  /** `randomNumber(a, b)`: a value in the closed interval [a, b], chosen by the raw draw. */
  function RandomNumber(a: int, b: int, raw: int): (r: int)
    requires a <= b
    ensures a <= r <= b
  {
    a + raw % (b - a + 1)
  }

  /** How many of the draws 0, 1, ..., n - 1 the threshold chain `f` maps to `t`. */
  function Tally<T(==)>(f: int -> T, t: T, n: nat): nat
  {
    if n == 0 then 0 else Tally(f, t, n - 1) + (if f(n - 1) == t then 1 else 0)
  }

  /** Over a run of draws that `f` maps to one value, the tally grows by the run's length or not at all. */
  lemma {:induction false} TallyRun<T>(f: int -> T, t: T, lo: nat, hi: nat)
    requires lo <= hi
    requires forall r :: lo <= r < hi ==> f(r) == f(lo)
    ensures Tally(f, t, hi) == Tally(f, t, lo) + (if lo < hi && f(lo) == t then hi - lo else 0)
    decreases hi - lo
  {
    if lo < hi {
      TallyRun(f, t, lo, hi - 1);
    }
  }
}
