/** Python's `round(x, k)` and `int(x)` on exact reals. `round` rounds to the
  * nearest multiple of 10^-k and sends exact halves to the even neighbour;
  * `int` truncates toward zero. Binary floating point is not modelled. */
module Rounding {

  /** The numbers of decimals the pipeline rounds to. */
  type Digits = k: nat | k <= 4

  /** 10^k. */
  function Scale(k: Digits): real
  {
    if k == 0 then 1.0 else if k == 1 then 10.0 else if k == 2 then 100.0 else if k == 3 then 1000.0 else 10000.0
  }

  /** 10^-k, the unit in the last kept place. */
  function Unit(k: Digits): (u: real)
    ensures u * Scale(k) == 1.0
  {
    if k == 0 then 1.0 else if k == 1 then 0.1 else if k == 2 then 0.01 else if k == 3 then 0.001 else 0.0001
  }

  /** The integer nearest to y, with exact halves going to the even one. */
  function RoundHalfEven(y: real): (n: int)
    ensures -0.5 <= n as real - y <= 0.5
  {
    var f := y.Floor;
    var frac := y - f as real;
    if frac > 0.5 then f + 1
    else if frac < 0.5 then f
    else if f % 2 == 0 then f
    else f + 1
  }

  /** `round(x, k)`. */
  function Round(x: real, k: Digits): real
  {
    RoundHalfEven(x * Scale(k)) as real * Unit(k)
  }

  /** `int(x)`: truncation toward zero. */
  function Trunc(x: real): int
  {
    if x >= 0.0 then x.Floor else -((-x).Floor)
  }

  lemma RoundHalfEvenOfInt(n: int)
    ensures RoundHalfEven(n as real) == n
  {
  }

  /** `round` moves a value by at most half a unit in its last kept place. */
  lemma RoundError(x: real, k: Digits)
    ensures -0.5 * Unit(k) <= Round(x, k) - x <= 0.5 * Unit(k)
  {
    var n := RoundHalfEven(x * Scale(k));
    var d := n as real - x * Scale(k);
    assert -0.5 <= d <= 0.5;
    assert Round(x, k) - x == d * Unit(k) by {
      assert Round(x, k) == n as real * Unit(k);
      assert x * Scale(k) * Unit(k) == x;
    }
    assert Unit(k) > 0.0;
  }

  /** A multiple of the unit is left alone. */
  lemma RoundOnGrid(n: int, k: Digits)
    ensures Round(n as real * Unit(k), k) == n as real * Unit(k)
  {
    assert n as real * Unit(k) * Scale(k) == n as real by {
      if k == 0 {
      } else if k == 1 {
      } else if k == 2 {
      } else if k == 3 {
      } else {
      }
    }
    RoundHalfEvenOfInt(n);
  }

  /** Rounding twice to the same precision is rounding once. */
  lemma RoundIdempotent(x: real, k: Digits)
    ensures Round(Round(x, k), k) == Round(x, k)
  {
    RoundOnGrid(RoundHalfEven(x * Scale(k)), k);
  }

  lemma RoundZero(k: Digits)
    ensures Round(0.0, k) == 0.0
  {
    RoundOnGrid(0, k);
  }

  /** Truncation toward zero agrees with the floor on non-negative values and
    * never moves a value away from zero. */
  lemma TruncBounds(x: real)
    ensures x >= 0.0 ==> 0.0 <= Trunc(x) as real <= x < Trunc(x) as real + 1.0
    ensures x < 0.0 ==> x <= Trunc(x) as real <= 0.0
  {
  }

  /** `round` never reverses the order of two values. */
  lemma RoundMonotone(x: real, y: real, k: Digits)
    requires x <= y
    ensures Round(x, k) <= Round(y, k)
  {
    var a, b := x * Scale(k), y * Scale(k);
    assert a <= b;
    RoundHalfEvenMonotone(a, b);
    ScaleByUnit(RoundHalfEven(a), RoundHalfEven(b), Unit(k));
  }

  lemma RoundHalfEvenMonotone(a: real, b: real)
    requires a <= b
    ensures RoundHalfEven(a) <= RoundHalfEven(b)
  {
    if a.Floor == b.Floor {
      assert a - a.Floor as real <= b - b.Floor as real;
    }
  }

  lemma ScaleByUnit(n1: int, n2: int, u: real)
    requires n1 <= n2 && u > 0.0
    ensures n1 as real * u <= n2 as real * u
  {
  }

  /** `round` keeps the sign of its argument (zero counting as either). */
  lemma RoundSign(x: real, k: Digits)
    ensures x <= 0.0 ==> Round(x, k) <= 0.0
    ensures x >= 0.0 ==> Round(x, k) >= 0.0
  {
    var y := x * Scale(k);
    assert x <= 0.0 ==> y <= 0.0;
    assert x >= 0.0 ==> y >= 0.0;
    var n := RoundHalfEven(y);
    assert y <= 0.0 ==> n <= 0;
    assert y >= 0.0 ==> n >= 0;
    assert Round(x, k) == n as real * Unit(k);
  }
}
