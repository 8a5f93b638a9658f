/** `Math.round` to whole cents, on exact reals (`frontend/src/utils/pnlEngine.ts`). */
module Rounding {

  function Cents(x: real): int { (x * 100.0 + 0.5).Floor }

  /** `Math.round(n * 100) / 100` */
  function Round2(x: real): real { Cents(x) as real / 100.0 }

  ghost predicate WholeCents(x: real) {
    x * 100.0 == Cents(x) as real
  }

  lemma CountsAsCents(x: real, cents: int)
    requires x * 100.0 == cents as real
    ensures WholeCents(x) && Cents(x) == cents && Round2(x) == x
  {
  }

  lemma RoundedIsWhole(x: real)
    ensures WholeCents(Round2(x))
    ensures -0.005 <= Round2(x) - x <= 0.005
  {
    CountsAsCents(Round2(x), Cents(x));
  }

  lemma WholePlusWhole(x: real, y: real)
    requires WholeCents(x) && WholeCents(y)
    ensures WholeCents(x + y) && WholeCents(x - y)
  {
    CountsAsCents(x + y, Cents(x) + Cents(y));
    CountsAsCents(x - y, Cents(x) - Cents(y));
  }

  /** Whole cents less than two cents apart are at most one apart. */
  lemma WholeAtMostOneApart(x: real, y: real)
    requires WholeCents(x) && WholeCents(y) && -0.02 < x - y < 0.02
    ensures -0.01 <= x - y <= 0.01
  {
    var d := Cents(x) - Cents(y);
    assert (x - y) * 100.0 == d as real;
    assert -2 < d < 2;
  }

  lemma WholeRoundsToItself(x: real)
    requires WholeCents(x)
    ensures Round2(x) == x
  {
    CountsAsCents(x, Cents(x));
  }

  /** Rounding a sum, against the sum of the roundings. */
  lemma RoundedSum(x: real, y: real)
    ensures -0.01 <= Round2(x + y) - (Round2(x) + Round2(y)) <= 0.01
  {
    RoundedIsWhole(x);
    RoundedIsWhole(y);
    RoundedIsWhole(x + y);
    WholePlusWhole(Round2(x), Round2(y));
    WholeAtMostOneApart(Round2(x + y), Round2(x) + Round2(y));
  }

  /** Rounding a part before adding costs at most a cent, and nothing when it is whole cents. */
  lemma RoundingTwice(x: real, y: real)
    ensures -0.01 <= Round2(Round2(x) + y) - Round2(x + y) <= 0.01
    ensures WholeCents(x) ==> Round2(Round2(x) + y) == Round2(x + y)
  {
    RoundedIsWhole(x);
    RoundedIsWhole(Round2(x) + y);
    RoundedIsWhole(x + y);
    if WholeCents(x) {
      CountsAsCents(x, Cents(x));
    }
    WholeAtMostOneApart(Round2(Round2(x) + y), Round2(x + y));
  }
}
