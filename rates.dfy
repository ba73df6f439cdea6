/**
 * The rate calculator shared by `getAggregatedStats`
 * (src/models/AnalyticsEvent.js) and the analytics overview
 * (src/controllers/analyticsController.js): `(part / whole * 100).toFixed(2)`
 * when the denominator is positive, the number 0 otherwise.
 */
module Rates {

  /** `Zero` is the numeric 0 left in place when the denominator is 0;
      `Fixed(h)` is the two-decimal string with value h / 100 percent. */
  datatype Percent = Zero | Fixed(hundredths: nat)

  /**
   * part / whole as a percentage to two decimals, rounded to the nearest
   * hundredth with ties going up (toFixed on the exact quotient).
   */
  function Rate(part: nat, whole: nat): (p: Percent)
    ensures p.Zero? <==> whole == 0
    ensures p.Fixed? ==>
      2 * p.hundredths * whole <= 20000 * part + whole < 2 * p.hundredths * whole + 2 * whole
  {
    if whole == 0 then Zero
    else
      var n := 20000 * part + whole;
      var h := n / (2 * whole);
      assert 2 * whole * h <= n < 2 * whole * h + 2 * whole;
      Fixed(h)
  }

  /** A part no larger than the whole gives at most 100.00 percent. */
  lemma RateAtMostHundred(part: nat, whole: nat)
    requires part <= whole
    ensures Rate(part, whole).Zero? || Rate(part, whole).hundredths <= 10000
  {
    var p := Rate(part, whole);
    if p.Fixed? && p.hundredths > 10000 {
      assert 2 * p.hundredths * whole >= 2 * 10001 * whole by {
        MulMono(10001, p.hundredths, 2 * whole);
      }
    }
  }

  lemma MulMono(a: nat, b: nat, c: nat)
    requires a <= b
    ensures a * c <= b * c
  {
  }

  /** The rate is the exact percentage whenever that percentage has at most two decimals. */
  lemma RateExact(part: nat, whole: nat, h: nat)
    requires whole > 0 && h * whole == 10000 * part
    ensures Rate(part, whole) == Fixed(h)
  {
    var p := Rate(part, whole);
    assert 2 * p.hundredths * whole <= 2 * h * whole + whole < 2 * p.hundredths * whole + 2 * whole;
    if p.hundredths < h {
      MulMono(p.hundredths + 1, h, 2 * whole);
    } else if p.hundredths > h {
      MulMono(h + 1, p.hundredths, 2 * whole);
    }
  }
}
