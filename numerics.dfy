/**
 * Python's round() as the back tester uses it, on exact real numbers.
 * Binary floating point (and the representation error it brings to a
 * value such as 0.07) is not modelled: the model rounds the exact value.
 */
module Numerics {

  function Abs(x: real): real
  {
    if x < 0.0 then -x else x
  }

  /**
   * Python 3's round(x): the nearest integer, and on a tie (a fractional
   * part of exactly one half) the even one of the two neighbours.
   */
  function RoundHalfEven(x: real): (n: int)
    ensures x - 0.5 <= n as real <= x + 0.5
    ensures (n as real == x - 0.5 || n as real == x + 0.5) ==> n % 2 == 0
  {
    var f := x.Floor;
    var d := x - f as real;
    if d < 0.5 then f
    else if d > 0.5 then f + 1
    else if f % 2 == 0 then f else f + 1
  }

  /** The rounded value is nearer to x than any other integer (or as near). */
  lemma RoundIsNearest(x: real, m: int)
    ensures Abs(RoundHalfEven(x) as real - x) <= Abs(m as real - x)
  {
    var n := RoundHalfEven(x);
    if m != n {
      assert m <= n - 1 || m >= n + 1;
    }
  }

  /** round(x * 2) / 2: the nearest multiple of the 0.5 price increment. */
  function Tick(x: real): (r: real)
    ensures x - 0.25 <= r <= x + 0.25
    ensures (r * 2.0).Floor as real == r * 2.0
  {
    var n := RoundHalfEven(x * 2.0);
    assert (n as real).Floor == n;
    n as real / 2.0
  }

  /**
   * round(x, 4): a multiple of 0.0001 within half of that of x, the even
   * multiple on a tie; zero or the sign of x.
   */
  function Round4(x: real): (r: real)
    ensures x - 0.00005 <= r <= x + 0.00005
    ensures (r * 10000.0).Floor as real == r * 10000.0
    ensures (r == x - 0.00005 || r == x + 0.00005) ==> (r * 10000.0).Floor % 2 == 0
    ensures x >= 0.0 ==> r >= 0.0
    ensures x <= 0.0 ==> r <= 0.0
  {
    var n := RoundHalfEven(x * 10000.0);
    assert (n as real).Floor == n;
    n as real / 10000.0
  }

  /**
   * round(x, 2): a multiple of 0.01 within half of that of x, the even
   * multiple on a tie; zero or the sign of x.
   */
  function Round2(x: real): (r: real)
    ensures x - 0.005 <= r <= x + 0.005
    ensures (r * 100.0).Floor as real == r * 100.0
    ensures (r == x - 0.005 || r == x + 0.005) ==> (r * 100.0).Floor % 2 == 0
    ensures x >= 0.0 ==> r >= 0.0
    ensures x <= 0.0 ==> r <= 0.0
  {
    var n := RoundHalfEven(x * 100.0);
    assert (n as real).Floor == n;
    n as real / 100.0
  }
}
