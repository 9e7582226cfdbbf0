/** Rounding of a converted value to six decimal places, as `round(x, 6)` does
    in the converter's `convert` wrapper.

    The model works on exact reals: a value is rounded to the nearest whole
    number of millionths, and a value lying exactly halfway between two
    millionths goes to the one whose count of millionths is even (Python's
    rule for `round` on floats). */
module Rounding {

  /** Millionths per unit: six decimal places. */
  const Scale: real := 1000000.0

  /** Half a millionth, the largest distance rounding may move a value. */
  const HalfStep: real := 0.0000005

  function Abs(x: real): real {
    if x < 0.0 then -x else x
  }

  /** `x` is a whole number of millionths, i.e. has at most six decimals. */
  predicate IsMultiple(x: real) {
    (x * Scale).Floor as real == x * Scale
  }

  /** Rounds `y` to an integer, ties to the even neighbour. */
  function RoundHalfEven(y: real): (n: int)
    ensures Abs(n as real - y) <= 0.5
    ensures Abs(n as real - y) == 0.5 ==> n % 2 == 0
  {
    var f := y.Floor;
    var frac := y - f as real;
    if frac < 0.5 then f
    else if frac > 0.5 then f + 1
    else if f % 2 == 0 then f
    else f + 1
  }

  /** No integer is closer to `y` than the rounded one. */
  lemma RoundHalfEvenNearest(y: real, k: int)
    ensures Abs(RoundHalfEven(y) as real - y) <= Abs(k as real - y)
  {
    var n := RoundHalfEven(y);
    var d := n as real - y;
    assert -0.5 <= d <= 0.5;
    if k < n {
      assert k as real <= n as real - 1.0;
      assert y - k as real >= 0.5;
    } else if k > n {
      assert k as real >= n as real + 1.0;
      assert k as real - y >= 0.5;
    }
  }

  /** Rounding an integer gives that integer back. */
  lemma RoundHalfEvenExact(k: int)
    ensures RoundHalfEven(k as real) == k
  {
  }

  /** Rounding to the nearest integer never reverses the order of two values. */
  lemma RoundHalfEvenMonotone(x: real, y: real)
    requires x <= y
    ensures RoundHalfEven(x) <= RoundHalfEven(y)
  {
  }

  /** `round(x, 6)`: `x` rounded to the nearest millionth, ties to even. */
  function Round6(x: real): (r: real)
    ensures IsMultiple(r)
    ensures Abs(r - x) <= HalfStep
  {
    var n := RoundHalfEven(x * Scale);
    assert (n as real / Scale) * Scale == n as real;
    n as real / Scale
  }

  /** No value with at most six decimals is closer to `x` than `Round6(x)`. */
  lemma Round6Nearest(x: real, k: int)
    ensures Abs(Round6(x) - x) <= Abs(k as real / Scale - x)
  {
    var y := x * Scale;
    RoundHalfEvenNearest(y, k);
    var n := RoundHalfEven(y);
    assert Abs(Round6(x) - x) * Scale == Abs(n as real - y);
    assert Abs(k as real / Scale - x) * Scale == Abs(k as real - y);
  }

  /** A value that already has at most six decimals is left as it is. */
  lemma Round6Exact(x: real)
    requires IsMultiple(x)
    ensures Round6(x) == x
  {
  }

  /** Rounding twice is rounding once. */
  lemma Round6Idempotent(x: real)
    ensures Round6(Round6(x)) == Round6(x)
  {
  }

  /** Rounding preserves the order of two values (it may make them equal). */
  lemma Round6Monotone(x: real, y: real)
    requires x <= y
    ensures Round6(x) <= Round6(y)
  {
    RoundHalfEvenMonotone(x * Scale, y * Scale);
  }
}
