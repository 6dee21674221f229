/**
 * Rounding of the variance percentage to two decimals.
 *
 * The analyzer rounds with pandas' `Series.round(2)`, which scales by 100,
 * rounds to the nearest integer with ties going to the even neighbour
 * (IEEE "rint") and scales back. Over `real` this is exact; the binary
 * floating-point error of the scaling is not modelled.
 */
module Rounding {

  function Abs(x: real): real {
    if x < 0.0 then -x else x
  }

  /** Nearest integer to `y`; an exact half goes to the even neighbour. */
  function RoundHalfEven(y: real): (n: int)
    ensures Abs(n as real - y) <= 0.5
    ensures Abs(n as real - y) == 0.5 ==> n % 2 == 0
  {
    var f := y.Floor;
    var frac := y - f as real;
    if frac < 0.5 then f
    else if frac > 0.5 then f + 1
    else if f % 2 == 0 then f
    else f + 1
  }

  /** The two properties above pin the rounded integer down completely. */
  lemma RoundHalfEvenUnique(y: real, m: int)
    requires Abs(m as real - y) <= 0.5
    requires Abs(m as real - y) == 0.5 ==> m % 2 == 0
    ensures m == RoundHalfEven(y)
  {
  }

  /** `round(2)`: the nearest multiple of 0.01, ties to an even count of hundredths. */
  function Round2(x: real): (r: real)
    ensures Abs(r - x) <= 0.005
    ensures (r * 100.0).Floor as real == r * 100.0
  {
    var n := RoundHalfEven(x * 100.0);
    var r := n as real / 100.0;
    assert -0.5 <= n as real - x * 100.0 <= 0.5;
    assert r * 100.0 == n as real;
    r
  }

  /** A value already on two decimals is left alone. */
  lemma Round2Idempotent(x: real)
    ensures Round2(Round2(x)) == Round2(x)
  {
    var n := RoundHalfEven(x * 100.0);
    assert Round2(x) * 100.0 == n as real;
    RoundHalfEvenUnique(n as real, n);
  }

  /** Rounding never flips the sign of a value. */
  lemma Round2KeepsSign(x: real)
    ensures x >= 0.0 ==> Round2(x) >= 0.0
    ensures x <= 0.0 ==> Round2(x) <= 0.0
    ensures x == 0.0 ==> Round2(x) == 0.0
  {
  }

  /**
   * Comparing the rounded value with 2 is comparing the unrounded value
   * with 2.005: from 2 up to and including 2.005 the value rounds to 2.00
   * (2.005 is a tie and 200 is even), and likewise on the negative side.
   */
  lemma AbsRound2AboveTwo(x: real)
    ensures Abs(Round2(x)) > 2.0 <==> Abs(x) > 2.005
  {
  }
}
