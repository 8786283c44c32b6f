/** Decimal rounding of the hospitalisation probability: the quotient is
    rounded to `Precision` (eight) decimal places, half away from zero (the
    HALF_UP mode of exact decimal division).

    `RoundHalfUp(x)` is a whole number of units of 10^-8. The lemmas
    characterise it completely: it lies within half a unit of x, it is the
    grid point nearest to x, and when x is exactly halfway between two grid
    points it is the one farther from zero. It is also monotone, and it
    leaves values already on the grid unchanged.
 */
module Rounding {

  /** The number of decimal places the probability is rounded to. */
  const Precision: nat := 8

  function Pow10(n: nat): (p: nat)
    ensures p >= 1
  {
    if n == 0 then 1 else 10 * Pow10(n - 1)
  }

  /** The number of units of 10^-Precision in one. */
  const Scale: real := 100000000.0

  lemma ScaleIsPow10()
    ensures Scale == Pow10(Precision) as real
  {
    assert Pow10(Precision) == 100000000 by {
      assert Pow10(0) == 1;
      assert Pow10(4) == 10000;
    }
  }

  function Abs(x: real): real {
    if x < 0.0 then -x else x
  }

  /** The integer nearest to s, ties away from zero. */
  function RoundToInt(s: real): int
  {
    if s >= 0.0 then (s + 0.5).Floor else -((-s + 0.5).Floor)
  }

  /** x rounded to `Precision` decimal places, half away from zero. */
  function RoundHalfUp(x: real): real
  {
    RoundToInt(x * Scale) as real / Scale
  }

  /** True when x is a whole number of units of 10^-Precision. */
  predicate OnGrid(x: real) {
    (x * Scale).Floor as real == x * Scale
  }

  /** The rounded integer is within one half of its argument, keeps its sign,
      and at an exact half lies on the side away from zero. */
  lemma RoundToIntSpec(s: real)
    ensures s - 0.5 <= RoundToInt(s) as real <= s + 0.5
    ensures s >= 0.0 ==> RoundToInt(s) >= 0
    ensures s <= 0.0 ==> RoundToInt(s) <= 0
    ensures s > 0.0 ==> RoundToInt(s) as real != s - 0.5
    ensures s < 0.0 ==> RoundToInt(s) as real != s + 0.5
  {
  }

  /** Floor is monotone. */
  lemma FloorMonotone(a: real, b: real)
    requires a <= b
    ensures a.Floor <= b.Floor
  {
    assert a.Floor as real <= a <= b < b.Floor as real + 1.0;
  }

  /** RoundHalfUp lands on the grid, within half a unit of x, keeps the sign
      of x, and breaks an exact tie away from zero. */
  lemma RoundHalfUpSpec(x: real)
    ensures OnGrid(RoundHalfUp(x))
    ensures Abs(RoundHalfUp(x) - x) <= 0.5 / Scale
    ensures x >= 0.0 ==> RoundHalfUp(x) >= 0.0
    ensures x <= 0.0 ==> RoundHalfUp(x) <= 0.0
    ensures x > 0.0 && Abs(RoundHalfUp(x) - x) == 0.5 / Scale ==> RoundHalfUp(x) > x
    ensures x < 0.0 && Abs(RoundHalfUp(x) - x) == 0.5 / Scale ==> RoundHalfUp(x) < x
  {
    var k := RoundToInt(x * Scale);
    RoundToIntSpec(x * Scale);
    assert RoundHalfUp(x) * Scale == k as real;
  }

  /** RoundHalfUp returns a grid point nearest to x: no grid point is closer. */
  lemma RoundHalfUpNearest(x: real, z: real)
    requires OnGrid(z)
    ensures Abs(RoundHalfUp(x) - x) <= Abs(z - x)
  {
    var s := x * Scale;
    var k := RoundToInt(s);
    var j := (z * Scale).Floor;
    RoundToIntSpec(s);
    if Abs(j as real - s) < 0.5 {
      assert -1.0 < (j - k) as real < 1.0;
      assert j == k;
    }
    assert Abs(k as real - s) <= Abs(j as real - s);
  }

  /** Rounding never reverses the order of two values. */
  lemma RoundHalfUpMonotone(x1: real, x2: real)
    requires x1 <= x2
    ensures RoundHalfUp(x1) <= RoundHalfUp(x2)
  {
    var s1 := x1 * Scale;
    var s2 := x2 * Scale;
    if s1 >= 0.0 {
      FloorMonotone(s1 + 0.5, s2 + 0.5);
    } else if s2 < 0.0 {
      FloorMonotone(-s2 + 0.5, -s1 + 0.5);
    } else {
      RoundToIntSpec(s1);
      RoundToIntSpec(s2);
    }
  }

  /** A value already on the grid is left unchanged. */
  lemma RoundHalfUpOnGrid(x: real)
    requires OnGrid(x)
    ensures RoundHalfUp(x) == x
  {
    RoundHalfUpNearest(x, x);
    RoundHalfUpSpec(x);
  }
}
