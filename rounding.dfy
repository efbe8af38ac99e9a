/**
  Python's `round(x, 4)` on exact reals: the nearest multiple of 1/10000, ties
  going to the even neighbour. Binary floating point is not modelled; what the
  rest of the pipeline uses is that rounding is monotone, keeps [0, 1] and
  [-1, 1], and leaves four-decimal values alone.
*/
module Rounding {

  /** Round to the nearest integer, ties to even (Python's `round(x)`). */
  function RoundHalfEven(x: real): (n: int)
    ensures x - 0.5 <= n as real <= x + 0.5
    ensures n == x.Floor || n == x.Floor + 1
  {
    var f := x.Floor;
    var frac := x - f as real;
    if frac < 0.5 then f
    else if frac > 0.5 then f + 1
    else if f % 2 == 0 then f
    else f + 1
  }

  /** `round(x, 4)`: a value with at most four decimals, at most half a unit of the fourth decimal away. */
  function Round4(x: real): (r: real)
    ensures x - 0.00005 <= r <= x + 0.00005
    ensures (r * 10000.0).Floor as real == r * 10000.0
  {
    var n := RoundHalfEven(x * 10000.0);
    assert n as real / 10000.0 * 10000.0 == n as real;
    n as real / 10000.0
  }

  lemma {:induction false} RoundHalfEvenMonotone(x: real, y: real)
    requires x <= y
    ensures RoundHalfEven(x) <= RoundHalfEven(y)
  {
    var fx, fy := x.Floor, y.Floor;
    assert fx <= fy;
    if fx == fy {
      assert x - fx as real <= y - fy as real;
    }
  }

  /** Rounding never reverses the order of two values. */
  lemma Round4Monotone(x: real, y: real)
    requires x <= y
    ensures Round4(x) <= Round4(y)
  {
    RoundHalfEvenMonotone(x * 10000.0, y * 10000.0);
  }

  /** A value that already has at most four decimals is unchanged. */
  lemma Round4Exact(k: int)
    ensures Round4(k as real / 10000.0) == k as real / 10000.0
  {
    var x := k as real / 10000.0;
    assert x * 10000.0 == k as real;
    assert (k as real).Floor == k;
  }

  /** Rounding maps [lo, hi] into itself whenever both ends have four decimals. */
  lemma Round4Within(x: real, lo: int, hi: int)
    requires lo as real / 10000.0 <= x <= hi as real / 10000.0
    ensures lo as real / 10000.0 <= Round4(x) <= hi as real / 10000.0
  {
    Round4Monotone(lo as real / 10000.0, x);
    Round4Monotone(x, hi as real / 10000.0);
    Round4Exact(lo);
    Round4Exact(hi);
  }

  /** Rounding keeps a value in [0, 1]. */
  lemma Round4Unit(x: real)
    requires 0.0 <= x <= 1.0
    ensures 0.0 <= Round4(x) <= 1.0
  {
    Round4Within(x, 0, 10000);
  }

  /** Rounding keeps a value in [-1, 1]. */
  lemma Round4Signed(x: real)
    requires -1.0 <= x <= 1.0
    ensures -1.0 <= Round4(x) <= 1.0
  {
    Round4Within(x, -10000, 10000);
  }
}
