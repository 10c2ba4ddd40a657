/**
 * The JavaScript number operations the engine relies on, over exact reals.
 * IEEE-754 rounding artefacts are not modelled: every value is exact.
 */
module JsMath {

  /**
   * Math.round: the integer nearest to x, with halves rounded toward +infinity.
   * The two bounds determine the result uniquely.
   */
  function Round(x: real): (n: int)
    ensures x - 0.5 < n as real <= x + 0.5
  {
    (x + 0.5).Floor
  }

  /** Math.round(x * 100) / 100: x rounded to a whole number of cents. */
  function Round2(x: real): (r: real)
    ensures x - 0.005 < r <= x + 0.005
    ensures IsWholeCents(r)
    ensures x >= 0.0 ==> r >= 0.0
  {
    Round(x * 100.0) as real / 100.0
  }

  /** Number.isInteger on a finite value. */
  predicate IsInteger(x: real) {
    x.Floor as real == x
  }

  predicate IsWholeCents(x: real) {
    (x * 100.0).Floor as real == x * 100.0
  }

  /** Math.max(lo, Math.min(hi, x)) on integers. */
  function Clamp(x: int, lo: int, hi: int): (r: int)
    requires lo <= hi
    ensures lo <= r <= hi
    ensures lo <= x <= hi ==> r == x
  {
    if x > hi then hi else if x < lo then lo else x
  }

  /** Rounding never reverses an order. */
  lemma RoundMonotone(x: real, y: real)
    requires x <= y
    ensures Round(x) <= Round(y)
  {
  }

  /** An amount already in whole cents is left unchanged by Round2. */
  lemma Round2OfWholeCents(x: real)
    requires IsWholeCents(x)
    ensures Round2(x) == x
  {
    var k := (x * 100.0).Floor;
    assert Round(x * 100.0) == k;
    assert k as real / 100.0 == x;
  }
}
