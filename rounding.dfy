/** Integer model of `Math.round(part / whole * 100)` as the pages use it for progress bars. */
module Rounding {

  /** `num / den` rounded to the nearest integer, halves upwards, as `Math.round` does
      for non-negative arguments. */
  function RoundHalfUp(num: nat, den: nat): (r: nat)
    requires den > 0
    ensures 2 * den * r <= 2 * num + den < 2 * den * (r + 1)
  {
    var q := (2 * num + den) / (2 * den);
    assert q * (2 * den) + (2 * num + den) % (2 * den) == 2 * num + den;
    q
  }

  /** A positive factor can be cancelled from a strict inequality. */
  lemma CancelFactor(w: nat, a: nat, b: nat)
    requires w > 0 && w * a < w * b
    ensures a < b
  {
  }

  /** A percentage rounded half up from a part no larger than the whole is at most 100. */
  lemma PercentAtMost100(part: nat, w: nat, r: nat)
    requires w > 0 && part <= w
    requires 2 * w * r <= 200 * part + w
    ensures r <= 100
  {
    assert w * (2 * r) == 2 * w * r;
    assert 200 * part + w <= w * 201;
    CancelFactor(w, 2 * r, 202);
  }

  lemma PercentOfNothing(w: nat, r: nat)
    requires w > 0
    requires 2 * w * r <= w
    ensures r == 0
  {
    assert w * (2 * r) == 2 * w * r;
    CancelFactor(w, 2 * r, 2);
  }

  lemma PercentOfEverything(w: nat, r: nat)
    requires w > 0
    requires 2 * w * r <= 200 * w + w < 2 * w * (r + 1)
    ensures r == 100
  {
    PercentAtMost100(w, w, r);
    assert 2 * w * (r + 1) == w * (2 * r + 2);
    CancelFactor(w, 201, 2 * r + 2);
  }

  /** The percentage `part` is of `whole`, rounded half up. */
  function Percent(part: nat, whole: nat): (r: nat)
    requires whole > 0
    ensures 2 * whole * r <= 200 * part + whole < 2 * whole * (r + 1)
    ensures part <= whole ==> r <= 100
    ensures part == 0 ==> r == 0
    ensures part == whole ==> r == 100
  {
    var r := RoundHalfUp(100 * part, whole);
    if part == 0 then
      PercentOfNothing(whole, r);
      r
    else if part == whole then
      PercentOfEverything(whole, r);
      r
    else if part < whole then
      PercentAtMost100(part, whole, r);
      r
    else
      r
  }
}
