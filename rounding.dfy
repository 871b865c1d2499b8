/** Python's round(x, 2), taken on the exact real value: the nearest multiple
    of 0.01, ties going to the even number of hundredths. */
module Rounding {

  /** The integer nearest to y; when y lies exactly half-way between two
      integers, the even one. */
  function RoundHalfEven(y: real): (n: int)
    ensures y - 0.5 <= n as real <= y + 0.5
    ensures (n as real - y == 0.5 || y - n as real == 0.5) ==> n % 2 == 0
  {
    var f := y.Floor;
    var d := y - f as real;
    if d < 0.5 then f
    else if d > 0.5 then f + 1
    else if f % 2 == 0 then f
    else f + 1
  }

  /** The two properties in the contract of RoundHalfEven single out one
      integer: any integer that is as near to y and breaks ties the same way
      is RoundHalfEven(y). */
  lemma RoundHalfEvenUnique(y: real, n: int)
    requires y - 0.5 <= n as real <= y + 0.5
    requires (n as real - y == 0.5 || y - n as real == 0.5) ==> n % 2 == 0
    ensures n == RoundHalfEven(y)
  {
  }

  /** Rounding to the nearest integer never reverses an order. */
  lemma RoundHalfEvenMonotone(x: real, y: real)
    requires x <= y
    ensures RoundHalfEven(x) <= RoundHalfEven(y)
  {
  }

  /** round(x, 2): a whole number of hundredths, namely x * 100 rounded half
      to even, so within half a hundredth of x. */
  function Round2(x: real): (r: real)
    ensures x - 0.005 <= r <= x + 0.005
    ensures x >= 0.0 ==> r >= 0.0
    ensures r * 100.0 == RoundHalfEven(x * 100.0) as real
  {
    RoundHalfEven(x * 100.0) as real / 100.0
  }

  /** round(x, 2) never reverses an order. */
  lemma Round2Monotone(x: real, y: real)
    requires x <= y
    ensures Round2(x) <= Round2(y)
  {
    RoundHalfEvenMonotone(x * 100.0, y * 100.0);
  }

  /** A value that already has at most two decimals is left as it is. */
  lemma Round2Exact(n: int)
    ensures Round2(n as real / 100.0) == n as real / 100.0
  {
    var y := n as real / 100.0 * 100.0;
    assert y == n as real;
    assert y.Floor == n;
  }
}
