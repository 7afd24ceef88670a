// Real arithmetic shared by every module. The engine's f64 values are modelled
// as exact reals.
module Reals {

  function Min(a: real, b: real): real {
    if a <= b then a else b
  }

  function Max(a: real, b: real): real {
    if a >= b then a else b
  }

  function Pos(a: real): real {
    Max(a, 0.0)
  }

  function Clamp(a: real, low: real, high: real): real {
    Min(Max(a, low), high)
  }

  /**
   * A product of two unknowns. Proofs that only need the laws below hide the
   * body, which leaves them linear.
   */
  function Times(a: real, b: real): real {
    a * b
  }

  /** Scaling an inequality by a nonnegative factor. */
  lemma TimesMono(k: real, a: real, b: real)
    requires 0.0 <= k && a <= b
    ensures Times(k, a) <= Times(k, b)
  {
    assert k * (b - a) >= 0.0;
  }

  lemma TimesSwap(a: real, b: real)
    ensures Times(a, b) == Times(b, a)
  {
  }

  lemma TimesZero(a: real)
    ensures Times(a, 0.0) == 0.0 && Times(0.0, a) == 0.0
  {
  }

  lemma TimesSum(k: real, a: real, b: real)
    ensures Times(k, a + b) == Times(k, a) + Times(k, b)
    ensures Times(a + b, k) == Times(a, k) + Times(b, k)
  {
  }

  lemma TimesDiff(k: real, a: real, b: real)
    ensures Times(k, a - b) == Times(k, a) - Times(k, b)
    ensures Times(a - b, k) == Times(a, k) - Times(b, k)
  {
  }

  /** A nonnegative amount times a share of at most one. */
  lemma TimesShare(a: real, share: real)
    requires 0.0 <= a && 0.0 <= share <= 1.0
    ensures 0.0 <= Times(a, share) <= a
  {
    assert a * (1.0 - share) >= 0.0;
    assert a * share >= 0.0;
  }
}
