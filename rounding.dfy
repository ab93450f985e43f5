/**
 * Python's built-in `round(x, 2)`, as used on the peer ratio of the verdict,
 * over exact reals: the result is the multiple of 1/100 nearest to `x`, and a
 * value exactly halfway between two such multiples goes to the one whose
 * hundredths count is even ("round half to even").
 */
module Rounding {

  /** Distance between the integer `m` and the real `y`. */
  function Dist(m: int, y: real): (d: real)
    ensures d >= 0.0
    ensures d == 0.0 <==> m as real == y
  {
    if m as real <= y then y - m as real else m as real - y
  }

  /** The integer nearest to `y`; a tie goes to the even neighbour. */
  function RoundHalfEven(y: real): (n: int)
    ensures Dist(n, y) <= 0.5
    ensures forall m: int {:trigger Dist(m, y)} :: Dist(n, y) <= Dist(m, y)
    ensures Dist(n, y) == 0.5 ==> n % 2 == 0
  {
    var f := y.Floor;
    var frac := y - f as real;
    var n := if frac < 0.5 then f
             else if frac > 0.5 then f + 1
             else if f % 2 == 0 then f else f + 1;
    assert forall m: int {:trigger Dist(m, y)} :: m <= f || f + 1 <= m;
    n
  }

  /** `round(x, 2)`: `x` rounded to two decimal places, ties to even. */
  function Round2(x: real): (r: real)
    ensures -0.005 <= r - x <= 0.005
    ensures (r * 100.0).Floor as real == r * 100.0
  {
    RoundHalfEven(x * 100.0) as real / 100.0
  }

  /** A value that already has at most two decimals is left unchanged. */
  lemma Round2OfHundredths(k: int)
    ensures Round2(k as real / 100.0) == k as real / 100.0
  {
  }

  /** Rounding twice is rounding once. */
  lemma Round2Idempotent(x: real)
    ensures Round2(Round2(x)) == Round2(x)
  {
  }
}
