/** The rounding the calculator uses: JavaScript's `Math.round`, which rounds
    half-way cases up (towards +infinity), and the two-decimal rounding
    `Math.round(x * 100) / 100` of the line-metre helper. */
module Rounding {

  /** `Math.round(x)`: the integer nearest to `x`, halves going up. */
  function RoundHalfUp(x: real): (n: int)
    ensures n as real - 0.5 <= x < n as real + 0.5
  {
    (x + 0.5).Floor
  }

  /** The half-open interval of the contract determines the result. */
  lemma RoundHalfUpUnique(x: real, n: int)
    requires n as real - 0.5 <= x < n as real + 0.5
    ensures RoundHalfUp(x) == n
  {
  }

  /** Whole amounts are left as they are. */
  lemma RoundHalfUpOfInt(n: int)
    ensures RoundHalfUp(n as real) == n
  {
    RoundHalfUpUnique(n as real, n);
  }

  lemma RoundHalfUpMonotone(x: real, y: real)
    requires x <= y
    ensures RoundHalfUp(x) <= RoundHalfUp(y)
  {
  }

  /** Rounding can widen a gap by less than one unit: for x <= y the rounded
      values differ by less than (y - x) + 1. */
  lemma RoundHalfUpGap(x: real, y: real)
    requires x <= y
    ensures (RoundHalfUp(y) - RoundHalfUp(x)) as real < (y - x) + 1.0
  {
  }

  /** A non-negative amount never rounds to a negative one. */
  lemma RoundHalfUpNonNegative(x: real)
    requires x >= 0.0
    ensures RoundHalfUp(x) >= 0
  {
  }

  /** `Math.round(x * 100) / 100`: x to the nearest hundredth, halves up. */
  function RoundToCents(x: real): (r: real)
    ensures x - 0.005 < r <= x + 0.005
    ensures (r * 100.0).Floor as real == r * 100.0
  {
    var n := RoundHalfUp(x * 100.0);
    assert n as real - 0.5 <= x * 100.0 < n as real + 0.5;
    n as real / 100.0
  }

  /** Rounding a non-negative length to hundredths keeps it non-negative. */
  lemma RoundToCentsNonNegative(x: real)
    requires x >= 0.0
    ensures RoundToCents(x) >= 0.0
  {
    RoundHalfUpNonNegative(x * 100.0);
  }

  /** A value already on the hundredths grid is left as it is. */
  lemma RoundToCentsOfCents(n: int)
    ensures RoundToCents(n as real / 100.0) == n as real / 100.0
  {
    assert (n as real / 100.0) * 100.0 == n as real;
    RoundHalfUpOfInt(n);
  }
}
