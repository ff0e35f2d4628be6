/**
 Python's `round(x, 2)` on an exact real price: the nearest multiple of one
 hundredth, ties going to the even number of hundredths.
 */
module Rounding {

  /** Distance between a whole number `n` and a real `x`. */
  function Dist(n: int, x: real): real
  {
    if n as real >= x then n as real - x else x - n as real
  }

  /** No whole number is nearer to `x` than `n`. */
  ghost predicate Nearest(n: int, x: real)
  {
    forall m: int :: Dist(n, x) <= Dist(m, x)
  }

  /**
   A whole number is nearest to `x` once it is at least as near as both
   whole numbers around `x`: every other whole number lies further out.
   */
  lemma NearestOfNeighbours(n: int, x: real)
    requires Dist(n, x) <= Dist(x.Floor, x)
    requires Dist(n, x) <= Dist(x.Floor + 1, x)
    ensures Nearest(n, x)
  {
    var f := x.Floor;
    forall m: int
      ensures Dist(n, x) <= Dist(m, x)
    {
      if m <= f {
        assert Dist(m, x) >= Dist(f, x);
      } else {
        assert Dist(m, x) >= Dist(f + 1, x);
      }
    }
  }

  /**
   The number of hundredths `round(p, 2)` lands on: no whole number is
   nearer to `p * 100`, and on a tie it is even.
   */
  function RoundCents(p: real): (n: int)
    ensures Nearest(n, p * 100.0)
    ensures Dist(n, p * 100.0) == 0.5 ==> n % 2 == 0
  {
    var x := p * 100.0;
    var f := x.Floor;
    var frac := x - f as real;
    var n :=
      if frac < 0.5 then f
      else if frac > 0.5 then f + 1
      else if f % 2 == 0 then f
      else f + 1;
    NearestOfNeighbours(n, x);
    n
  }

  /**
   Python's `round(p, 2)` on an exact real: a whole number of hundredths
   within half a hundredth of the price.
   */
  function Round2(p: real): (r: real)
    ensures -0.005 <= r - p <= 0.005
    ensures r * 100.0 == RoundCents(p) as real
  {
    RoundCents(p) as real / 100.0
  }

  /** A price that is already a whole number of hundredths is left unchanged. */
  lemma RoundCentsExact(n: int)
    ensures RoundCents(n as real / 100.0) == n
  {
  }

  /** Rounding to two decimals twice is rounding once. */
  lemma Round2Idempotent(p: real)
    ensures Round2(Round2(p)) == Round2(p)
  {
    RoundCentsExact(RoundCents(p));
  }
}
