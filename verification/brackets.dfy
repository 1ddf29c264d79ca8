/**
 This module models the step-function bracket lookup of the income-tax
 calculation: a schedule is an ordered sequence of brackets, each an upper
 bound paired with a marginal rate, followed by one unbounded top rate. The
 rate for a taxable amount is the rate of the first bracket whose upper bound
 is not exceeded (`taxable <= bound`), or the top rate when every bound is.
 */
module Brackets {

  /** One bounded step of a schedule: amounts up to and including `upper` get `rate`. */
  datatype Bracket = Bracket(upper: real, rate: real)

  /** Bounds strictly increase, rates never decrease, and the top rate is at least every bracket rate. */
  predicate Ascending(bs: seq<Bracket>, top: real)
  {
    && (forall i, j :: 0 <= i < j < |bs| ==> bs[i].upper < bs[j].upper && bs[i].rate <= bs[j].rate)
    && (forall i :: 0 <= i < |bs| ==> bs[i].rate <= top)
  }

  /** Every rate the schedule can produce. */
  function RatesOf(bs: seq<Bracket>, top: real): set<real>
  {
    (set i | 0 <= i < |bs| :: bs[i].rate) + {top}
  }

  /** Index of the first bracket whose bound is not exceeded by `t`, or `|bs|` when `t` exceeds all of them. */
  function FirstFit(bs: seq<Bracket>, t: real): (k: nat)
    ensures k <= |bs|
    ensures forall j :: 0 <= j < k ==> bs[j].upper < t
    ensures k < |bs| ==> t <= bs[k].upper
    decreases |bs|
  {
    if |bs| == 0 then 0
    else if t <= bs[0].upper then 0
    else 1 + FirstFit(bs[1..], t)
  }

  /** The marginal rate the schedule assigns to the taxable amount `t`. */
  function MarginalRate(bs: seq<Bracket>, top: real, t: real): (r: real)
    ensures r in RatesOf(bs, top)
    ensures |bs| > 0 && t <= bs[0].upper ==> r == bs[0].rate
    ensures (forall j :: 0 <= j < |bs| ==> bs[j].upper < t) ==> r == top
  {
    var k := FirstFit(bs, t);
    if k < |bs| then bs[k].rate else top
  }

  /** A taxable amount that lies in the band `(bs[i-1].upper, bs[i].upper]` gets exactly `bs[i].rate`;
      in particular an amount equal to a bound gets that bracket's (lower) rate. */
  lemma InBand(bs: seq<Bracket>, top: real, i: int, t: real)
    requires Ascending(bs, top)
    requires 0 <= i < |bs|
    requires i == 0 || bs[i - 1].upper < t
    requires t <= bs[i].upper
    ensures MarginalRate(bs, top, t) == bs[i].rate
  {
  }

  /** On an ascending schedule every matched rate lies between the first bracket's rate and the top rate. */
  lemma RateWithinSchedule(bs: seq<Bracket>, top: real, t: real)
    requires Ascending(bs, top)
    requires |bs| > 0
    ensures bs[0].rate <= MarginalRate(bs, top, t) <= top
  {
  }

  /** An amount above the last bound gets the top rate. */
  lemma AboveAll(bs: seq<Bracket>, top: real, t: real)
    requires Ascending(bs, top)
    requires |bs| > 0 && bs[|bs| - 1].upper < t
    ensures MarginalRate(bs, top, t) == top
  {
  }

  /** The first-fit index never moves backwards as the taxable amount grows. */
  lemma FirstFitMonotone(bs: seq<Bracket>, t1: real, t2: real)
    requires t1 <= t2
    ensures FirstFit(bs, t1) <= FirstFit(bs, t2)
  {
  }

  /** On an ascending schedule the marginal rate is monotone non-decreasing in the taxable amount. */
  lemma MarginalRateMonotone(bs: seq<Bracket>, top: real, t1: real, t2: real)
    requires Ascending(bs, top)
    requires t1 <= t2
    ensures MarginalRate(bs, top, t1) <= MarginalRate(bs, top, t2)
  {
    FirstFitMonotone(bs, t1, t2);
  }
}
