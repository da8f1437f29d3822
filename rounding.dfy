/** Python's built-in `round`, on exact reals: `round(x)` gives the nearest
    integer with ties going to the even one, and `round(x, d)` rounds
    `x * 10^d` that way and scales back. */
module Rounding {

  /** `round(x)` */
  function RoundHalfEven(x: real): (n: int)
    ensures x - 1.0 / 2.0 <= n as real <= x + 1.0 / 2.0
    ensures x - x.Floor as real == 1.0 / 2.0 ==> n % 2 == 0
    ensures x - x.Floor as real != 1.0 / 2.0 ==> -(1.0 / 2.0) < n as real - x < 1.0 / 2.0
  {
    var f := x.Floor;
    var frac := x - f as real;
    if frac < 1.0 / 2.0 then f
    else if frac > 1.0 / 2.0 then f + 1
    else if f % 2 == 0 then f
    else f + 1
  }

  /** Rounding never reverses the order of two values. */
  lemma RoundHalfEvenMonotone(x: real, y: real)
    requires x <= y
    ensures RoundHalfEven(x) <= RoundHalfEven(y)
  {
    var fx, fy := x.Floor, y.Floor;
    assert fx <= fy;
    if fx == fy {
      assert x - fx as real <= y - fy as real;
    } else {
      assert fx + 1 <= fy;
    }
  }

  /** An integer is its own rounding. */
  lemma RoundHalfEvenOfInt(n: int)
    ensures RoundHalfEven(n as real) == n
  {
    assert (n as real).Floor == n;
  }

  /** `round(x, 3)`, applied to the numeric output fields. */
  function Round3(x: real): (r: real)
    ensures x - 1.0 / 2000.0 <= r <= x + 1.0 / 2000.0
  {
    RoundHalfEven(x * 1000.0) as real / 1000.0
  }

  /** `round(x, 1)`, applied to the macro targets in grams. */
  function Round1(x: real): (r: real)
    ensures x - 1.0 / 20.0 <= r <= x + 1.0 / 20.0
  {
    RoundHalfEven(x * 10.0) as real / 10.0
  }

  /** `round(x, 3)` never reverses the order of two values. */
  lemma Round3Monotone(x: real, y: real)
    requires x <= y
    ensures Round3(x) <= Round3(y)
  {
    RoundHalfEvenMonotone(x * 1000.0, y * 1000.0);
  }
}
