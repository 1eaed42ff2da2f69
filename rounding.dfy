/**
  Rounding to a fixed number of decimal places, as the agents do with round(x, 2),
  round(x, 3) and ROUND2. Amounts are exact reals here, so rounding is half-up at the
  given decimal scale.
*/
module Rounding {

  /** The number of 1/scale steps x rounds to (half-up). */
  function Units(x: real, scale: real): int
  {
    (x * scale + 0.5).Floor
  }

  /** x rounded half-up to the nearest multiple of 1/scale. */
  function RoundBy(x: real, scale: real): real
    requires scale > 0.0
  {
    Units(x, scale) as real / scale
  }

  /** round(x, 2) and ROUND2. */
  function Round2(x: real): real { RoundBy(x, 100.0) }

  /** round(x, 3). */
  function Round3(x: real): real { RoundBy(x, 1000.0) }

  lemma MulMono(a: real, b: real, k: real)
    requires a <= b && k > 0.0
    ensures a * k <= b * k
  {
  }

  lemma DivMono(a: real, b: real, k: real)
    requires a <= b && k > 0.0
    ensures a / k <= b / k
  {
    assert b / k - a / k == (b - a) / k;
    assert (b - a) / k >= 0.0;
  }

  /** Rounding never reverses the order of two values. */
  lemma RoundByMono(x: real, y: real, scale: real)
    requires scale > 0.0 && x <= y
    ensures RoundBy(x, scale) <= RoundBy(y, scale)
  {
    MulMono(x, y, scale);
    assert Units(x, scale) <= Units(y, scale);
    DivMono(Units(x, scale) as real, Units(y, scale) as real, scale);
  }

  /** A value already on the 1/scale grid is left unchanged. */
  lemma RoundByGrid(k: int, scale: real)
    requires scale > 0.0
    ensures RoundBy(k as real / scale, scale) == k as real / scale
  {
    var g := k as real / scale;
    assert g * scale == k as real;
    assert Units(g, scale) == k;
  }

  /** Rounding twice is rounding once. */
  lemma RoundByIdempotent(x: real, scale: real)
    requires scale > 0.0
    ensures RoundBy(RoundBy(x, scale), scale) == RoundBy(x, scale)
  {
    RoundByGrid(Units(x, scale), scale);
  }

  /** Rounding keeps a value of [lo, hi] inside [lo, hi] when both ends are on the grid. */
  lemma RoundByWithin(x: real, lo: int, hi: int, scale: real)
    requires scale > 0.0 && lo as real / scale <= x <= hi as real / scale
    ensures lo as real / scale <= RoundBy(x, scale) <= hi as real / scale
  {
    RoundByMono(lo as real / scale, x, scale);
    RoundByMono(x, hi as real / scale, scale);
    RoundByGrid(lo, scale);
    RoundByGrid(hi, scale);
  }

  lemma Round3Mono(x: real, y: real)
    requires x <= y
    ensures Round3(x) <= Round3(y)
  {
    RoundByMono(x, y, 1000.0);
  }

  lemma Round2Mono(x: real, y: real)
    requires x <= y
    ensures Round2(x) <= Round2(y)
  {
    RoundByMono(x, y, 100.0);
  }

  /** round(x, 3) of a value in [0, 1] is in [0, 1]. */
  lemma Round3Unit(x: real)
    requires 0.0 <= x <= 1.0
    ensures 0.0 <= Round3(x) <= 1.0
  {
    RoundByWithin(x, 0, 1000, 1000.0);
  }

  /** round(x, 3) of a value at least k/1000 is at least k/1000. */
  lemma Round3AtLeast(x: real, k: int)
    requires k as real / 1000.0 <= x
    ensures k as real / 1000.0 <= Round3(x)
  {
    RoundByMono(k as real / 1000.0, x, 1000.0);
    RoundByGrid(k, 1000.0);
  }

  /** round(x, 3) of a value at most k/1000 is at most k/1000. */
  lemma Round3AtMost(x: real, k: int)
    requires x <= k as real / 1000.0
    ensures Round3(x) <= k as real / 1000.0
  {
    RoundByMono(x, k as real / 1000.0, 1000.0);
    RoundByGrid(k, 1000.0);
  }

  /** round(x, 3) of a value below k/1000 - 0.0005 is below k/1000. */
  lemma Round3Below(x: real, k: int)
    requires x < k as real / 1000.0 - 0.0005
    ensures Round3(x) < k as real / 1000.0
  {
    assert x * 1000.0 + 0.5 < k as real;
    assert Units(x, 1000.0) < k;
  }

  lemma Round3Idempotent(x: real)
    ensures Round3(Round3(x)) == Round3(x)
  {
    RoundByIdempotent(x, 1000.0);
  }

  lemma Round2Idempotent(x: real)
    ensures Round2(Round2(x)) == Round2(x)
  {
    RoundByIdempotent(x, 100.0);
  }

  lemma Round2NonNegative(x: real)
    requires x >= 0.0
    ensures Round2(x) >= 0.0
  {
    assert Units(x, 100.0) >= 0;
  }
}
