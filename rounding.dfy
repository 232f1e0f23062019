/**
 * Rounding of an exact quotient `num / den` to an integer. Averages are
 * taken over ratings in tenths, so "round to one decimal" is "round the
 * quotient in tenths to an integer".
 */
module Rounding {

  /** `Math.round(num / den)`: the nearest integer, halves rounded up. */
  function RoundHalfUp(num: int, den: int): (r: int)
    requires den > 0
    ensures -den < 2 * (den * r - num) <= den
  {
    (2 * num + den) / (2 * den)
  }

  /** Python's `round(num / den)`: the nearest integer, halves rounded to even. */
  function RoundHalfEven(num: int, den: int): (r: int)
    requires den > 0
    ensures -den <= 2 * (den * r - num) <= den
    ensures 2 * (den * r - num) == den || 2 * (den * r - num) == -den ==> r % 2 == 0
  {
    var q, m := num / den, num % den;
    if 2 * m < den then q
    else if 2 * m > den then q + 1
    else if q % 2 == 0 then q
    else q + 1
  }

  /** Rounding a quotient that lies between two integers stays between them. */
  lemma RoundHalfUpBetween(num: int, den: int, lo: int, hi: int)
    requires den > 0 && lo * den <= num <= hi * den
    ensures lo <= RoundHalfUp(num, den) <= hi
  {
    var r := RoundHalfUp(num, den);
    assert den * (2 * r - 2 * lo + 1) == 2 * (den * r) - 2 * (lo * den) + den;
    NonnegativeFactor(den, 2 * r - 2 * lo + 1);
    assert den * (2 * hi + 1 - 2 * r) == 2 * (hi * den) + den - 2 * (den * r);
    NonnegativeFactor(den, 2 * hi + 1 - 2 * r);
  }

  /** A product with a positive factor is non-negative only if the other factor is. */
  lemma NonnegativeFactor(a: int, b: int)
    requires a > 0 && a * b >= 0
    ensures b >= 0
  {
  }

  /** A product with a positive factor is positive only if the other factor is. */
  lemma PositiveFactor(a: int, b: int)
    requires a > 0 && a * b > 0
    ensures b > 0
  {
  }

  /** A multiple of a positive `a` that lies in `(-a, a]` is `0` or `a` itself. */
  lemma FactorBetween(a: int, b: int)
    requires a > 0 && -a < a * b <= a
    ensures 0 <= b <= 1
  {
    assert a * (b + 1) == a * b + a;
    PositiveFactor(a, b + 1);
    assert a * (1 - b) == a - a * b;
    NonnegativeFactor(a, 1 - b);
  }

  /**
   * Rounding halves up and rounding halves to even differ by at most one,
   * and only on an exact half, which the latter rounds down.
   */
  lemma HalfUpAndHalfEven(num: int, den: int)
    requires den > 0
    ensures 0 <= RoundHalfUp(num, den) - RoundHalfEven(num, den) <= 1
    ensures RoundHalfUp(num, den) != RoundHalfEven(num, den) ==> 2 * (den * RoundHalfEven(num, den) - num) == -den
  {
    NearestTwo(num, den, RoundHalfUp(num, den), RoundHalfEven(num, den));
  }

  /**
   * Two integers within half of `num / den`, the first strictly above its
   * lower half, are equal or the first is the second plus one, the second
   * then being exactly half below.
   */
  lemma NearestTwo(num: int, den: int, up: int, even: int)
    requires den > 0
    requires -den < 2 * (den * up - num) <= den
    requires -den <= 2 * (den * even - num) <= den
    ensures 0 <= up - even <= 1
    ensures up != even ==> 2 * (den * even - num) == -den
  {
    assert den * (up - even) == (den * up - num) - (den * even - num);
    FactorBetween(den, up - even);
  }
}
