/** The doubling delays of plugins/peer/liveness.go:49-54 and plugins/tmux/control.go:108-129. */
module Backoff {
  function Min(a: nat, b: nat): nat { if a <= b then a else b }

  function Pow2(k: nat): nat { if k == 0 then 1 else 2 * Pow2(k - 1) }

  /** Twice the delay, up to the cap. */
  function Doubled(cur: nat, max: nat): nat { Min(2 * cur, max) }

  /** What a loop sleeps after `k` earlier failures in a row: the first sleep is never capped. */
  function SleepOf(initial: nat, k: nat, max: nat): nat { if k == 0 then initial else Min(initial * Pow2(k), max) }

  lemma SleepDoubles(initial: nat, k: nat, max: nat)
    ensures Doubled(SleepOf(initial, k, max), max) == SleepOf(initial, k + 1, max)
  {
    assert initial * Pow2(k + 1) == 2 * (initial * Pow2(k));
  }

  /** The closed form holds for every failure if and only if the cap is at least the initial delay. */
  lemma FormulaExactly(initial: nat, max: nat)
    ensures (forall k :: SleepOf(initial, k, max) == Min(initial * Pow2(k), max)) <==> max >= initial
  {
    assert initial * Pow2(0) == initial;
    assert SleepOf(initial, 0, max) == initial;
  }
}
