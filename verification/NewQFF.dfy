/** The fare-family forecast over the data collection points, and the demand of the policies. */
module NewQFF {
  import opened Sequences
  import opened Inventory
  import opened DemandCurves
  import opened Utilities
  import opened Nesting
  import opened PolicyHelper

  /** The forecasts of a family and of its classes, from the highest to the lowest. */
  datatype Forecasts = Forecasts(mean: real, variance: real,
                                 priceMeans: seq<real>, priceVariances: seq<real>,
                                 cumuMeans: seq<real>, cumuVariances: seq<real>)

  function PriceMeans(cs: seq<BookingClass>): (r: seq<real>)
    reads cs`priceMean
    ensures |r| == |cs| && forall i | 0 <= i < |r| :: r[i] == cs[i].priceMean
  {
    if cs == [] then [] else PriceMeans(cs[..|cs| - 1]) + [cs[|cs| - 1].priceMean]
  }

  function PriceVariances(cs: seq<BookingClass>): (r: seq<real>)
    reads cs`priceVariance
    ensures |r| == |cs| && forall i | 0 <= i < |r| :: r[i] == cs[i].priceVariance
  {
    if cs == [] then [] else PriceVariances(cs[..|cs| - 1]) + [cs[|cs| - 1].priceVariance]
  }

  function CumuMeans(cs: seq<BookingClass>): (r: seq<real>)
    reads cs`cumuMean
    ensures |r| == |cs| && forall i | 0 <= i < |r| :: r[i] == cs[i].cumuMean
  {
    if cs == [] then [] else CumuMeans(cs[..|cs| - 1]) + [cs[|cs| - 1].cumuMean]
  }

  function CumuVariances(cs: seq<BookingClass>): (r: seq<real>)
    reads cs`cumuVariance
    ensures |r| == |cs| && forall i | 0 <= i < |r| :: r[i] == cs[i].cumuVariance
  {
    if cs == [] then [] else CumuVariances(cs[..|cs| - 1]) + [cs[|cs| - 1].cumuVariance]
  }

  function ForecastsOf(family: FareFamily): (s: Forecasts)
    reads family`mean, family`variance
    reads family.classes`priceMean, family.classes`priceVariance
    reads family.classes`cumuMean, family.classes`cumuVariance
    ensures s.mean == family.mean && s.variance == family.variance
    ensures s.priceMeans == PriceMeans(family.classes) && s.priceVariances == PriceVariances(family.classes)
    ensures s.cumuMeans == CumuMeans(family.classes) && s.cumuVariances == CumuVariances(family.classes)
  {
    Forecasts(family.mean, family.variance,
              PriceMeans(family.classes), PriceVariances(family.classes),
              CumuMeans(family.classes), CumuVariances(family.classes))
  }

  /** Each entry is the sum of the shares up to it. */
  ghost predicate Accumulates(total: seq<real>, shares: seq<real>) {
    |total| == |shares| && forall k | 0 <= k < |total| :: total[k] == Sum(shares[..k + 1])
  }

  /**
   * The family's forecast is the sum of its classes' price-oriented forecasts,
   * and each class's cumulative forecast is the sum over itself and all higher
   * classes.
   */
  ghost predicate Agrees(s: Forecasts) {
    && s.mean == Sum(s.priceMeans) && s.variance == Sum(s.priceVariances)
    && Accumulates(s.cumuMeans, s.priceMeans) && Accumulates(s.cumuVariances, s.priceVariances)
  }

  /** `r` is `s` with `a` times the shares added. */
  ghost predicate Adds(s: seq<real>, shares: seq<real>, a: real, r: seq<real>) {
    |s| == |shares| == |r| && forall i | 0 <= i < |s| :: r[i] == WithShare(s[i], a, shares[i])
  }

  /** Shares that accumulate keep an accumulation accumulated. */
  lemma AddsKeepsAccumulation(total: seq<real>, s: seq<real>, up: seq<real>, down: seq<real>, a: real,
                              total': seq<real>, s': seq<real>)
    requires Accumulates(total, s) && Accumulates(up, down)
    requires Adds(total, up, a, total') && Adds(s, down, a, s')
    ensures Accumulates(total', s')
  {
    hide Sum;
    forall k | 0 <= k < |total'|
      ensures total'[k] == Sum(s'[..k + 1])
    {
      SumLinear(s[..k + 1], down[..k + 1], a, s'[..k + 1]);
    }
  }

  /** One data collection point: a mean and a variance are dispatched by shares that add up to 1. */
  ghost predicate Dispatched(s: Forecasts, mean: real, variance: real, up: seq<real>, down: seq<real>, t: Forecasts) {
    && t.mean == s.mean + mean && t.variance == s.variance + variance
    && Adds(s.priceMeans, down, mean, t.priceMeans) && Adds(s.priceVariances, down, variance, t.priceVariances)
    && Adds(s.cumuMeans, up, mean, t.cumuMeans) && Adds(s.cumuVariances, up, variance, t.cumuVariances)
  }

  /** Every data collection point keeps the forecasts of family and classes in agreement. */
  lemma DispatchKeepsAgreement(s: Forecasts, mean: real, variance: real, up: seq<real>, down: seq<real>, t: Forecasts)
    requires Agrees(s) && Dispatched(s, mean, variance, up, down, t)
    requires Accumulates(up, down) && Sum(down) == 1.0
    ensures Agrees(t)
  {
    hide Sum, Accumulates;
    SumLinear(s.priceMeans, down, mean, t.priceMeans);
    SumLinear(s.priceVariances, down, variance, t.priceVariances);
    AddsKeepsAccumulation(s.cumuMeans, s.priceMeans, up, down, mean, t.cumuMeans, t.priceMeans);
    AddsKeepsAccumulation(s.cumuVariances, s.priceVariances, up, down, variance, t.cumuVariances, t.priceVariances);
  }

  /** The sell-up factors of a family accumulate its dispatching factors. */
  lemma FactorsAccumulate(n: Numerics, ys: seq<real>, frat5: real)
    requires Divides(ys, frat5)
    ensures Accumulates(SellUpFactors(n, ys, frat5, |ys|), DispatchingFactors(n, ys, frat5, |ys|))
    ensures Sum(DispatchingFactors(n, ys, frat5, |ys|)) == 1.0
  {
    hide SellUp, Dispatching, Sum;
    DispatchingSumsToOne(n, ys, frat5);
    var down := DispatchingFactors(n, ys, frat5, |ys|);
    forall k | 0 <= k < |ys|
      ensures SellUpFactors(n, ys, frat5, |ys|)[k] == Sum(down[..k + 1])
    {
      DispatchingTelescopes(n, ys, frat5, k);
      assert down[..k + 1] == DispatchingFactors(n, ys, frat5, k + 1);
    }
  }

  /** Forecasts set to zero agree. */
  lemma ZeroAgrees(k: nat)
    ensures Agrees(Forecasts(0.0, 0.0, Zeros(k), Zeros(k), Zeros(k), Zeros(k)))
  {
    hide Sum;
    ZerosSum(k);
    var z := Zeros(k);
    forall i | 0 <= i < |z|
      ensures z[i] == Sum(z[..i + 1])
    {
      assert z[..i + 1] == Zeros(i + 1);
      ZerosSum(i + 1);
    }
  }

  function Zeros(k: nat): (r: seq<real>)
    ensures |r| == k && forall i | 0 <= i < k :: r[i] == 0.0
  {
    if k == 0 then [] else Zeros(k - 1) + [0.0]
  }

  lemma {:induction false} ZerosSum(k: nat)
    ensures Sum(Zeros(k)) == 0.0
  {
    if k > 0 {
      ZerosSum(k - 1);
      assert Zeros(k)[..k - 1] == Zeros(k - 1);
    }
  }

  // ---- The forecast of one family.

  /** A curve map has the given factor of every class at one data collection point. */
  ghost predicate FactorsAt(m: CurveMap, classes: seq<BookingClass>, dcp: int, factors: seq<real>) {
    && |factors| == |classes|
    && m.Keys == (set c | c in classes)
    && forall i | 0 <= i < |classes| :: dcp in m[classes[i]] && m[classes[i]][dcp] == factors[i]
  }

  lemma DispatchingAt(m: CurveMap, classes: seq<BookingClass>, n: Numerics, ys: seq<real>, frat5: Curve, dcp: int)
    requires |ys| == |classes| && CurveDivides(ys, frat5) && dcp in frat5
    requires HoldsFrom(m, classes, 0, frat5, DispatchingTable(n, ys, frat5))
    ensures Divides(ys, frat5[dcp]) && FactorsAt(m, classes, dcp, DispatchingFactors(n, ys, frat5[dcp], |ys|))
  {
    hide Dispatching;
    assert classes[0..] == classes;
    forall i | 0 <= i < |classes|
      ensures dcp in m[classes[i]] && m[classes[i]][dcp] == Dispatching(n, ys, frat5[dcp], i)
    {
      assert IsCurve(m[classes[i]], frat5, DispatchingTable(n, ys, frat5), i);
    }
  }

  lemma SellUpAt(m: CurveMap, classes: seq<BookingClass>, n: Numerics, ys: seq<real>, frat5: Curve, dcp: int)
    requires |ys| == |classes| && CurveDivides(ys, frat5) && dcp in frat5
    requires HoldsFrom(m, classes, 0, frat5, SellUpTable(n, ys, frat5))
    ensures Divides(ys, frat5[dcp]) && FactorsAt(m, classes, dcp, SellUpFactors(n, ys, frat5[dcp], |ys|))
  {
    hide SellUp;
    assert classes[0..] == classes;
    forall i | 0 <= i < |classes|
      ensures dcp in m[classes[i]] && m[classes[i]][dcp] == SellUp(n, ys, frat5[dcp], i)
    {
      assert IsCurve(m[classes[i]], frat5, SellUpTable(n, ys, frat5), i);
    }
  }

  lemma SharesOf(m: CurveMap, classes: seq<BookingClass>, dcp: int, factors: seq<real>)
    requires FactorsAt(m, classes, dcp, factors) && forall i | 0 <= i < |factors| :: factors[i] >= 0.0
    ensures SharesAt(m, dcp)
  {
    forall c | c in m
      ensures dcp in m[c] && m[c][dcp] >= 0.0
    {
      var i :| 0 <= i < |classes| && classes[i] == c;
      assert m[classes[i]][dcp] == factors[i];
    }
  }

  method DispatchPrice(m: CurveMap, classes: seq<BookingClass>, mean: real, variance: real, dcp: int,
                       ghost down: seq<real>)
    requires FactorsAt(m, classes, dcp, down) && SharesAt(m, dcp)
    modifies classes`priceMean, classes`priceVariance
    ensures Adds(old(PriceMeans(classes)), down, mean, PriceMeans(classes))
    ensures Adds(old(PriceVariances(classes)), down, variance, PriceVariances(classes))
  {
    hide WithShare, SharesAt;
    DispatchDemandForecast(m, mean, variance, dcp);
  }

  method DispatchCumulative(m: CurveMap, classes: seq<BookingClass>, mean: real, variance: real, dcp: int,
                            ghost up: seq<real>)
    requires FactorsAt(m, classes, dcp, up) && SharesAt(m, dcp)
    modifies classes`cumuMean, classes`cumuVariance
    ensures Adds(old(CumuMeans(classes)), up, mean, CumuMeans(classes))
    ensures Adds(old(CumuVariances(classes)), up, variance, CumuVariances(classes))
  {
    hide WithShare, SharesAt;
    DispatchDemandForecastForFA(m, mean, variance, dcp);
  }

  function Added(t: Forecasts, mean: real, variance: real): Forecasts {
    t.(mean := t.mean + mean, variance := t.variance + variance)
  }

  /** The classes receive their shares of a mean and a variance; the family's own forecast is still the old one. */
  ghost predicate SharesGiven(s: Forecasts, mean: real, variance: real, up: seq<real>, down: seq<real>, t: Forecasts) {
    t.mean == s.mean && t.variance == s.variance && Dispatched(s, mean, variance, up, down, Added(t, mean, variance))
  }

  lemma SharesAreGiven(s: Forecasts, mean: real, variance: real, up: seq<real>, down: seq<real>, t: Forecasts)
    requires Adds(s.priceMeans, down, mean, t.priceMeans) && Adds(s.priceVariances, down, variance, t.priceVariances)
    requires Adds(s.cumuMeans, up, mean, t.cumuMeans) && Adds(s.cumuVariances, up, variance, t.cumuVariances)
    requires t.mean == s.mean && t.variance == s.variance
    ensures SharesGiven(s, mean, variance, up, down, t)
  {
    hide Adds;
  }

  method DispatchToClasses(family: FareFamily, dispatching: CurveMap, sellUp: CurveMap, mean: real, variance: real,
                           dcp: int, ghost down: seq<real>, ghost up: seq<real>)
    requires FactorsAt(dispatching, family.classes, dcp, down) && SharesAt(dispatching, dcp)
    requires FactorsAt(sellUp, family.classes, dcp, up) && SharesAt(sellUp, dcp)
    modifies family.classes`priceMean, family.classes`priceVariance,
      family.classes`cumuMean, family.classes`cumuVariance
    ensures SharesGiven(old(ForecastsOf(family)), mean, variance, up, down, ForecastsOf(family))
  {
    hide *;
    ghost var s := ForecastsOf(family);
    DispatchPrice(dispatching, family.classes, mean, variance, dcp, down);
    DispatchCumulative(sellUp, family.classes, mean, variance, dcp, up);
    SharesAreGiven(s, mean, variance, up, down, ForecastsOf(family));
  }

  /** Dispatches the forecast of one data collection point to the classes and adds it to the family. */
  method DispatchOnePoint(family: FareFamily, dispatching: CurveMap, sellUp: CurveMap, mean: real, variance: real,
                          dcp: int, ghost down: seq<real>, ghost up: seq<real>)
    requires FactorsAt(dispatching, family.classes, dcp, down) && SharesAt(dispatching, dcp)
    requires FactorsAt(sellUp, family.classes, dcp, up) && SharesAt(sellUp, dcp)
    requires Accumulates(up, down) && Sum(down) == 1.0
    requires Agrees(ForecastsOf(family))
    modifies family`mean, family`variance, family.classes`priceMean, family.classes`priceVariance,
      family.classes`cumuMean, family.classes`cumuVariance
    ensures Agrees(ForecastsOf(family))
    ensures Dispatched(old(ForecastsOf(family)), mean, variance, up, down, ForecastsOf(family))
  {
    hide *;
    ghost var s := ForecastsOf(family);
    DispatchToClasses(family, dispatching, sellUp, mean, variance, dcp, down, up);
    SharesKeepAgreement(s, mean, variance, up, down, ForecastsOf(family));
    AddToFamily(family, mean, variance);
  }

  method AddToFamily(family: FareFamily, mean: real, variance: real)
    modifies family`mean, family`variance
    ensures ForecastsOf(family) == Added(old(ForecastsOf(family)), mean, variance)
  {
    hide PriceMeans, PriceVariances, CumuMeans, CumuVariances;
    family.mean := family.mean + mean;
    family.variance := family.variance + variance;
  }

  lemma SharesKeepAgreement(s: Forecasts, mean: real, variance: real, up: seq<real>, down: seq<real>, t: Forecasts)
    requires Agrees(s) && SharesGiven(s, mean, variance, up, down, t)
    requires Accumulates(up, down) && Sum(down) == 1.0
    ensures Agrees(Added(t, mean, variance)) && Dispatched(s, mean, variance, up, down, Added(t, mean, variance))
  {
    hide Dispatched, Agrees, Accumulates, Sum;
    DispatchKeepsAgreement(s, mean, variance, up, down, Added(t, mean, variance));
  }

  /** The estimated demand of one interval: mean and variance, from the data collection points at its ends. */
  type Estimate = (int, int) -> (real, real)

  /** The total estimate of the first `k` intervals that end before the current day. */
  function UsedMean(dcps: seq<int>, dtd: int, estimate: Estimate, k: nat): real
    requires k < |dcps|
  {
    if k == 0 then 0.0
    else UsedMean(dcps, dtd, estimate, k - 1) + if dcps[k] < dtd then estimate(dcps[k - 1], dcps[k]).0 else 0.0
  }

  function UsedVariance(dcps: seq<int>, dtd: int, estimate: Estimate, k: nat): real
    requires k < |dcps|
  {
    if k == 0 then 0.0
    else UsedVariance(dcps, dtd, estimate, k - 1) + if dcps[k] < dtd then estimate(dcps[k - 1], dcps[k]).1 else 0.0
  }

  /** Ordered yields and FRAT5 values above 1, with one for every interval that is used. */
  ghost predicate CanForecast(ys: seq<real>, frat5: Curve, dcps: seq<int>, dtd: int, n: Numerics) {
    && IsExponential(n) && YieldsOrdered(ys) && dcps != []
    && (forall d | d in frat5 :: frat5[d] > 1.0)
    && (forall i | 0 <= i < |dcps| - 1 && dcps[i + 1] < dtd :: dcps[i] in frat5)
  }

  lemma ForecastDivides(ys: seq<real>, frat5: Curve, dcps: seq<int>, dtd: int, n: Numerics)
    requires CanForecast(ys, frat5, dcps, dtd, n)
    ensures CurveDivides(ys, frat5) && dcps != []
  {
  }

  /** At a used data collection point both curve maps have shares that accumulate to 1. */
  lemma PointIsReady(ys: seq<real>, frat5: Curve, dcps: seq<int>, dtd: int, n: Numerics, i: nat,
                     classes: seq<BookingClass>, dispatching: CurveMap, sellUp: CurveMap)
    requires CanForecast(ys, frat5, dcps, dtd, n) && CurveDivides(ys, frat5) && |ys| == |classes|
    requires HoldsFrom(dispatching, classes, 0, frat5, DispatchingTable(n, ys, frat5))
    requires HoldsFrom(sellUp, classes, 0, frat5, SellUpTable(n, ys, frat5))
    requires i + 1 < |dcps| && dcps[i + 1] < dtd
    ensures dcps[i] in frat5 && Divides(ys, frat5[dcps[i]])
    ensures var down, up := DispatchingFactors(n, ys, frat5[dcps[i]], |ys|), SellUpFactors(n, ys, frat5[dcps[i]], |ys|);
      && FactorsAt(dispatching, classes, dcps[i], down) && SharesAt(dispatching, dcps[i])
      && FactorsAt(sellUp, classes, dcps[i], up) && SharesAt(sellUp, dcps[i])
      && Accumulates(up, down) && Sum(down) == 1.0
  {
    var f := frat5[dcps[i]];
    DispatchingAt(dispatching, classes, n, ys, frat5, dcps[i]);
    SellUpAt(sellUp, classes, n, ys, frat5, dcps[i]);
    FactorsAccumulate(n, ys, f);
    hide HoldsFrom, DispatchingTable, SellUpTable, FactorsAt, Accumulates, Sum, SellUp, Dispatching;
    forall k | 0 <= k < |ys|
      ensures DispatchingFactors(n, ys, f, |ys|)[k] >= 0.0 && SellUpFactors(n, ys, f, |ys|)[k] >= 0.0
    {
      DispatchingIsShare(n, ys, f, k);
    }
    SharesOf(dispatching, classes, dcps[i], DispatchingFactors(n, ys, f, |ys|));
    SharesOf(sellUp, classes, dcps[i], SellUpFactors(n, ys, f, |ys|));
  }

  lemma UsedDivides(ys: seq<real>, frat5: Curve, dcps: seq<int>, dtd: int, n: Numerics, i: nat)
    requires CanForecast(ys, frat5, dcps, dtd, n) && i + 1 < |dcps| && dcps[i + 1] < dtd
    ensures dcps[i] in frat5 && frat5[dcps[i]] > 1.0 && Divides(ys, frat5[dcps[i]])
  {
    var d := dcps[i];
    assert d in frat5;
    assert d in frat5.Keys;
    assert frat5[d] > 1.0;
  }

  /** The share of class `c` of an amount that interval `i` dispatches; nothing when it is not used. */
  ghost function IntervalShare(n: Numerics, ys: seq<real>, frat5: Curve, dcps: seq<int>, dtd: int, amount: real,
                               c: nat, i: nat): real
    requires CanForecast(ys, frat5, dcps, dtd, n) && c < |ys| && i + 1 < |dcps|
  {
    if dcps[i + 1] < dtd then
      UsedDivides(ys, frat5, dcps, dtd, n, i);
      WithShare(0.0, amount, Dispatching(n, ys, frat5[dcps[i]], c))
    else 0.0
  }

  /** What class `c` of a family receives of the first `k` intervals. */
  ghost function GivenMean(n: Numerics, ys: seq<real>, frat5: Curve, dcps: seq<int>, dtd: int, estimate: Estimate,
                           c: nat, k: nat): real
    requires CanForecast(ys, frat5, dcps, dtd, n) && c < |ys| && k < |dcps|
  {
    if k == 0 then 0.0
    else
      GivenMean(n, ys, frat5, dcps, dtd, estimate, c, k - 1)
      + IntervalShare(n, ys, frat5, dcps, dtd, estimate(dcps[k - 1], dcps[k]).0, c, k - 1)
  }

  ghost function GivenVariance(n: Numerics, ys: seq<real>, frat5: Curve, dcps: seq<int>, dtd: int, estimate: Estimate,
                               c: nat, k: nat): real
    requires CanForecast(ys, frat5, dcps, dtd, n) && c < |ys| && k < |dcps|
  {
    if k == 0 then 0.0
    else
      GivenVariance(n, ys, frat5, dcps, dtd, estimate, c, k - 1)
      + IntervalShare(n, ys, frat5, dcps, dtd, estimate(dcps[k - 1], dcps[k]).1, c, k - 1)
  }

  /** From `s` to `t` the family and its classes gain what the first `k` intervals give them. */
  ghost predicate Gained(n: Numerics, ys: seq<real>, frat5: Curve, dcps: seq<int>, dtd: int, estimate: Estimate, k: nat,
                         s: Forecasts, t: Forecasts)
    requires CanForecast(ys, frat5, dcps, dtd, n) && k < |dcps|
  {
    && t.mean == s.mean + UsedMean(dcps, dtd, estimate, k)
    && t.variance == s.variance + UsedVariance(dcps, dtd, estimate, k)
    && |s.priceMeans| == |t.priceMeans| == |s.priceVariances| == |t.priceVariances| == |ys|
    && (forall c: nat | c < |ys| ::
          t.priceMeans[c] == s.priceMeans[c] + GivenMean(n, ys, frat5, dcps, dtd, estimate, c, k))
    && (forall c: nat | c < |ys| ::
          t.priceVariances[c] == s.priceVariances[c] + GivenVariance(n, ys, frat5, dcps, dtd, estimate, c, k))
  }

  lemma NothingGained(n: Numerics, ys: seq<real>, frat5: Curve, dcps: seq<int>, dtd: int, estimate: Estimate,
                      s: Forecasts)
    requires CanForecast(ys, frat5, dcps, dtd, n) && |s.priceMeans| == |s.priceVariances| == |ys|
    ensures dcps != [] && Gained(n, ys, frat5, dcps, dtd, estimate, 0, s, s)
  {
  }

  lemma UnusedGains(n: Numerics, ys: seq<real>, frat5: Curve, dcps: seq<int>, dtd: int, estimate: Estimate, k: nat,
                    s: Forecasts, t: Forecasts)
    requires CanForecast(ys, frat5, dcps, dtd, n) && k + 1 < |dcps| && dcps[k + 1] >= dtd
    requires Gained(n, ys, frat5, dcps, dtd, estimate, k, s, t)
    ensures Gained(n, ys, frat5, dcps, dtd, estimate, k + 1, s, t)
  {
    hide CanForecast, Dispatching, WithShare;
  }

  lemma ShareOfZero(demand: real, forecast: real, share: real)
    ensures WithShare(demand, forecast, share) == demand + WithShare(0.0, forecast, share)
  {
  }

  lemma UsedGains(n: Numerics, ys: seq<real>, frat5: Curve, dcps: seq<int>, dtd: int, estimate: Estimate, k: nat,
                  s: Forecasts, t: Forecasts, up: seq<real>, down: seq<real>, u: Forecasts)
    requires CanForecast(ys, frat5, dcps, dtd, n) && k + 1 < |dcps| && dcps[k + 1] < dtd
    requires dcps[k] in frat5 && Divides(ys, frat5[dcps[k]])
    requires down == DispatchingFactors(n, ys, frat5[dcps[k]], |ys|)
    requires Gained(n, ys, frat5, dcps, dtd, estimate, k, s, t)
    requires Dispatched(t, estimate(dcps[k], dcps[k + 1]).0, estimate(dcps[k], dcps[k + 1]).1, up, down, u)
    ensures Gained(n, ys, frat5, dcps, dtd, estimate, k + 1, s, u)
  {
    hide CanForecast, Dispatching, WithShare;
    forall c: nat | c < |ys|
      ensures u.priceMeans[c] == s.priceMeans[c] + GivenMean(n, ys, frat5, dcps, dtd, estimate, c, k + 1)
      ensures u.priceVariances[c] == s.priceVariances[c] + GivenVariance(n, ys, frat5, dcps, dtd, estimate, c, k + 1)
    {
      ShareOfZero(t.priceMeans[c], estimate(dcps[k], dcps[k + 1]).0, down[c]);
      ShareOfZero(t.priceVariances[c], estimate(dcps[k], dcps[k + 1]).1, down[c]);
    }
  }

  /**
   * The forecast of a family: every interval that ends before the current day is
   * dispatched to the classes and added to the family.
   */
  method ForecastFamily(family: FareFamily, n: Numerics, dcps: seq<int>, dtd: int, estimate: Estimate)
    requires Distinct(family.classes) && Agrees(ForecastsOf(family))
    requires CanForecast(YieldsOf(family.classes), family.frat5, dcps, dtd, n)
    modifies family`mean, family`variance, family.classes`priceMean, family.classes`priceVariance,
      family.classes`cumuMean, family.classes`cumuVariance
    ensures Agrees(ForecastsOf(family)) && dcps != []
    ensures Gained(n, YieldsOf(family.classes), family.frat5, dcps, dtd, estimate, |dcps| - 1,
                   old(ForecastsOf(family)), ForecastsOf(family))
  {
    hide *;
    ghost var ys, s := YieldsOf(family.classes), ForecastsOf(family);
    ForecastDivides(ys, family.frat5, dcps, dtd, n);
    var sellUp := ComputeSellUpFactorCurves(n, family.frat5, family.classes);
    var dispatching := ComputeDispatchingFactorCurves(n, family.frat5, family.classes);
    NothingGained(n, ys, family.frat5, dcps, dtd, estimate, s);
    for i := 0 to |dcps| - 1
      invariant Agrees(ForecastsOf(family))
      invariant Gained(n, ys, family.frat5, dcps, dtd, estimate, i, s, ForecastsOf(family))
    {
      ghost var t := ForecastsOf(family);
      if dcps[i + 1] < dtd {
        PointIsReady(ys, family.frat5, dcps, dtd, n, i, family.classes, dispatching, sellUp);
        var (mean, variance) := estimate(dcps[i], dcps[i + 1]);
        ghost var down := DispatchingFactors(n, ys, family.frat5[dcps[i]], |ys|);
        ghost var up := SellUpFactors(n, ys, family.frat5[dcps[i]], |ys|);
        DispatchOnePoint(family, dispatching, sellUp, mean, variance, dcps[i], down, up);
        UsedGains(n, ys, family.frat5, dcps, dtd, estimate, i, s, t, up, down, ForecastsOf(family));
      } else {
        UnusedGains(n, ys, family.frat5, dcps, dtd, estimate, i, s, t);
      }
    }
  }

  // ---- The demand of the policies.

  lemma CumuPrefix(cs: seq<BookingClass>, i: nat)
    requires i < |cs|
    ensures Sum(CumuMeans(cs[..i + 1])) == Sum(CumuMeans(cs[..i])) + cs[i].cumuMean
    ensures Sum(CumuVariances(cs[..i + 1])) == Sum(CumuVariances(cs[..i])) + cs[i].cumuVariance
  {
    assert cs[..i + 1][..i] == cs[..i];
    assert CumuMeans(cs[..i + 1])[..i] == CumuMeans(cs[..i]);
    assert CumuVariances(cs[..i + 1])[..i] == CumuVariances(cs[..i]);
  }

  lemma CumuEnds(cs: seq<BookingClass>)
    ensures cs[..|cs|] == cs
    ensures Sum(CumuMeans(cs[..0])) == 0.0 && Sum(CumuVariances(cs[..0])) == 0.0
  {
  }

  /** The demand of a policy: the cumulative forecasts of the classes that it names. */
  method DispatchDemandForecastToPolicy(policy: Policy)
    modifies policy`demand, policy`variance
    ensures policy.demand == Sum(CumuMeans(policy.classes))
    ensures policy.variance == Sum(CumuVariances(policy.classes))
  {
    hide Sum, CumuMeans, CumuVariances;
    policy.demand, policy.variance := 0.0, 0.0;
    var newDemand, newVariance := policy.demand, policy.variance;
    CumuEnds(policy.classes);
    if policy.classes != [] {
      for i := 0 to |policy.classes|
        invariant newDemand == Sum(CumuMeans(policy.classes[..i]))
        invariant newVariance == Sum(CumuVariances(policy.classes[..i]))
      {
        CumuPrefix(policy.classes, i);
        newDemand := newDemand + policy.classes[i].cumuMean;
        newVariance := newVariance + policy.classes[i].cumuVariance;
      }
      policy.demand := newDemand;
      policy.variance := newVariance;
    }
  }

  method DispatchDemandForecastToPolicies(cabin: SegmentCabin)
    modifies cabin.policies`demand, cabin.policies`variance
    ensures forall i | 0 <= i < |cabin.policies| :: PolicyForecast(cabin.policies[i])
  {
    hide PolicyForecast;
    for i := 0 to |cabin.policies|
      invariant forall j | 0 <= j < i :: PolicyForecast(cabin.policies[j])
    {
      var policy := cabin.policies[i];
      DispatchDemandForecastToPolicy(policy);
      PolicyForecastIs(policy);
      assert forall j | 0 <= j < i && cabin.policies[j] != policy :: PolicyForecast(cabin.policies[j]);
    }
  }

  /** The policy's demand and variance are those of the classes that it names. */
  ghost predicate PolicyForecast(policy: Policy)
    reads policy`demand, policy`variance, policy.classes`cumuMean, policy.classes`cumuVariance
  {
    policy.demand == Sum(CumuMeans(policy.classes)) && policy.variance == Sum(CumuVariances(policy.classes))
  }

  lemma PolicyForecastIs(policy: Policy)
    requires policy.demand == Sum(CumuMeans(policy.classes))
    requires policy.variance == Sum(CumuVariances(policy.classes))
    ensures PolicyForecast(policy)
  {
  }

  // ---- The forecast of a segment-cabin.

  /** In a cabin of distinct codes, families with classes share neither classes nor identity. */
  lemma FamiliesApart(families: seq<FareFamily>, i: nat)
    requires DistinctCodes(Grid(families)) && i < |families|
    requires forall j | 0 <= j < |families| :: families[j].classes != []
    ensures Distinct(families[i].classes)
    ensures forall j | 0 <= j < |families| && j != i :: families[j] != families[i]
    ensures forall j, a | 0 <= j < |families| && j != i && 0 <= a < |families[j].classes| ::
      families[j].classes[a] !in families[i].classes
  {
    var grid := Grid(families);
    FamilyIsDistinct(grid, i);
    forall j, a | 0 <= j < |families| && j != i && 0 <= a < |families[j].classes|
      ensures families[j].classes[a] !in families[i].classes
    {
      NotShared(grid, j, i, families[j].classes[a]);
    }
    forall j | 0 <= j < |families| && j != i
      ensures families[j] != families[i]
    {
      assert families[j].classes[0] !in families[i].classes;
    }
  }

  ghost predicate FamilyAgrees(family: FareFamily)
    reads family`mean, family`variance
    reads family.classes`priceMean, family.classes`priceVariance
    reads family.classes`cumuMean, family.classes`cumuVariance
  {
    Agrees(ForecastsOf(family))
  }

  /** What the forecast reads of a family: the yields of its classes and its FRAT5 curve. */
  datatype FamilyInput = FamilyInput(ys: seq<real>, frat5: Curve)

  function InputOf(family: FareFamily): FamilyInput
    reads family`frat5, family.classes`unitYield
  {
    FamilyInput(YieldsOf(family.classes), family.frat5)
  }

  /** A family and its classes gain what all intervals give them. */
  ghost predicate GainedAll(input: FamilyInput, n: Numerics, dcps: seq<int>, dtd: int, estimate: Estimate,
                            s: Forecasts, t: Forecasts)
  {
    && CanForecast(input.ys, input.frat5, dcps, dtd, n) && dcps != []
    && Gained(n, input.ys, input.frat5, dcps, dtd, estimate, |dcps| - 1, s, t)
  }

  lemma GainedAllIs(family: FareFamily, n: Numerics, dcps: seq<int>, dtd: int, estimate: Estimate,
                    s: Forecasts, t: Forecasts)
    requires CanForecast(YieldsOf(family.classes), family.frat5, dcps, dtd, n) && dcps != []
    requires Gained(n, YieldsOf(family.classes), family.frat5, dcps, dtd, estimate, |dcps| - 1, s, t)
    ensures GainedAll(InputOf(family), n, dcps, dtd, estimate, s, t)
  {
  }

  lemma InputCanForecast(family: FareFamily, n: Numerics, dcps: seq<int>, dtd: int)
    ensures CanForecast(InputOf(family).ys, InputOf(family).frat5, dcps, dtd, n)
      <==> CanForecast(YieldsOf(family.classes), family.frat5, dcps, dtd, n)
  {
  }

  /** The forecast of one family among the families of the cabin: no other family changes. */
  method ForecastOne(cabin: SegmentCabin, i: nat, n: Numerics, dcps: seq<int>, dtd: int, estimate: Estimate)
    requires DistinctCodes(Grid(cabin.families)) && i < |cabin.families|
    requires forall j | 0 <= j < |cabin.families| :: cabin.families[j].classes != []
    requires CanForecast(InputOf(cabin.families[i]).ys, InputOf(cabin.families[i]).frat5, dcps, dtd, n)
    requires Agrees(ForecastsOf(cabin.families[i]))
    requires Rearranges(cabin.classes, AllClasses(Grid(cabin.families), |cabin.families|))
    modifies cabin.families`mean, cabin.families`variance
    modifies cabin.classes`priceMean, cabin.classes`priceVariance, cabin.classes`cumuMean, cabin.classes`cumuVariance
    ensures Agrees(ForecastsOf(cabin.families[i]))
    ensures GainedAll(InputOf(cabin.families[i]), n, dcps, dtd, estimate,
                      old(ForecastsOf(cabin.families[i])), ForecastsOf(cabin.families[i]))
    ensures forall j | 0 <= j < |cabin.families| && j != i ::
      ForecastsOf(cabin.families[j]) == old(ForecastsOf(cabin.families[j]))
  {
    hide *;
    FamiliesApart(cabin.families, i);
    FamilyWithin(cabin, i);
    InputCanForecast(cabin.families[i], n, dcps, dtd);
    ghost var s := ForecastsOf(cabin.families[i]);
    ForecastFamily(cabin.families[i], n, dcps, dtd, estimate);
    GainedAllIs(cabin.families[i], n, dcps, dtd, estimate, s, ForecastsOf(cabin.families[i]));
  }

  /** The families before `i` have their forecast, the others are as they were. */
  ghost predicate ForecastUpTo(inputs: seq<FamilyInput>, n: Numerics, dcps: seq<int>, dtd: int,
                               estimates: seq<Estimate>, before: seq<Forecasts>, now: seq<Forecasts>, i: nat)
    requires |inputs| == |estimates| == |before| == |now|
  {
    forall j | 0 <= j < |inputs| ::
      && CanForecast(inputs[j].ys, inputs[j].frat5, dcps, dtd, n) && Agrees(now[j])
      && (if j < i then GainedAll(inputs[j], n, dcps, dtd, estimates[j], before[j], now[j]) else now[j] == before[j])
  }

  lemma ForecastOneMore(inputs: seq<FamilyInput>, n: Numerics, dcps: seq<int>, dtd: int, estimates: seq<Estimate>,
                        before: seq<Forecasts>, was: seq<Forecasts>, i: nat, gained: Forecasts)
    requires |inputs| == |estimates| == |before| == |was| && i < |inputs|
    requires ForecastUpTo(inputs, n, dcps, dtd, estimates, before, was, i)
    requires Agrees(gained) && GainedAll(inputs[i], n, dcps, dtd, estimates[i], was[i], gained)
    ensures ForecastUpTo(inputs, n, dcps, dtd, estimates, before, was[i := gained], i + 1)
  {
    hide Agrees, GainedAll, CanForecast;
  }

  ghost function InputsOf(families: seq<FareFamily>): (r: seq<FamilyInput>)
    reads families`frat5, MembersOf(families)`unitYield
    ensures |r| == |families| && forall i | 0 <= i < |r| :: r[i] == InputOf(families[i])
  {
    if families == [] then []
    else InputsOf(families[..|families| - 1]) + [InputOf(families[|families| - 1])]
  }

  ghost function CabinForecasts(families: seq<FareFamily>): (s: seq<Forecasts>)
    reads families`mean, families`variance, MembersOf(families)`priceMean, MembersOf(families)`priceVariance
    reads MembersOf(families)`cumuMean, MembersOf(families)`cumuVariance
    ensures |s| == |families| && forall i | 0 <= i < |s| :: s[i] == ForecastsOf(families[i])
  {
    if families == [] then []
    else CabinForecasts(families[..|families| - 1]) + [ForecastsOf(families[|families| - 1])]
  }

  /** The forecasts of the families after one of them has changed. */
  lemma OneChanged(families: seq<FareFamily>, was: seq<Forecasts>, i: nat)
    requires |was| == |families| && i < |families|
    requires forall j | 0 <= j < |families| && j != i :: ForecastsOf(families[j]) == was[j]
    ensures CabinForecasts(families) == was[i := ForecastsOf(families[i])]
  {
    hide ForecastsOf, CabinForecasts;
  }

  method ForecastFamilies(cabin: SegmentCabin, n: Numerics, dcps: seq<int>, dtd: int, estimates: seq<Estimate>)
    requires DistinctCodes(Grid(cabin.families)) && |estimates| == |cabin.families|
    requires forall i | 0 <= i < |cabin.families| :: cabin.families[i].classes != []
    requires Rearranges(cabin.classes, AllClasses(Grid(cabin.families), |cabin.families|))
    requires ForecastUpTo(InputsOf(cabin.families), n, dcps, dtd, estimates, CabinForecasts(cabin.families),
                          CabinForecasts(cabin.families), 0)
    modifies cabin.families`mean, cabin.families`variance
    modifies cabin.classes`priceMean, cabin.classes`priceVariance, cabin.classes`cumuMean, cabin.classes`cumuVariance
    ensures ForecastUpTo(old(InputsOf(cabin.families)), n, dcps, dtd, estimates, old(CabinForecasts(cabin.families)),
                         CabinForecasts(cabin.families), |cabin.families|)
  {
    hide *;
    ghost var inputs, before := InputsOf(cabin.families), CabinForecasts(cabin.families);
    for i := 0 to |cabin.families|
      invariant ForecastUpTo(inputs, n, dcps, dtd, estimates, before, CabinForecasts(cabin.families), i)
      invariant forall j | 0 <= j < |cabin.families| :: InputOf(cabin.families[j]) == inputs[j]
    {
      ghost var was := CabinForecasts(cabin.families);
      UpToAt(inputs, n, dcps, dtd, estimates, before, was, i, i);
      ForecastOne(cabin, i, n, dcps, dtd, estimates[i]);
      ForecastOneMore(inputs, n, dcps, dtd, estimates, before, was, i, ForecastsOf(cabin.families[i]));
      OneChanged(cabin.families, was, i);
    }
  }

  lemma UpToAt(inputs: seq<FamilyInput>, n: Numerics, dcps: seq<int>, dtd: int, estimates: seq<Estimate>,
               before: seq<Forecasts>, now: seq<Forecasts>, i: nat, j: nat)
    requires |inputs| == |estimates| == |before| == |now| && j < |inputs|
    requires ForecastUpTo(inputs, n, dcps, dtd, estimates, before, now, i)
    ensures CanForecast(inputs[j].ys, inputs[j].frat5, dcps, dtd, n) && Agrees(now[j])
    ensures j < i ==> GainedAll(inputs[j], n, dcps, dtd, estimates[j], before[j], now[j])
  {
  }

  lemma ForecastStart(cabin: SegmentCabin, n: Numerics, dcps: seq<int>, dtd: int, estimates: seq<Estimate>)
    requires |cabin.families| == |estimates|
    requires forall i | 0 <= i < |cabin.families| :: FamilyAgrees(cabin.families[i])
    requires forall i | 0 <= i < |cabin.families| ::
      CanForecast(YieldsOf(cabin.families[i].classes), cabin.families[i].frat5, dcps, dtd, n)
    ensures ForecastUpTo(InputsOf(cabin.families), n, dcps, dtd, estimates, CabinForecasts(cabin.families),
                         CabinForecasts(cabin.families), 0)
  {
    hide Agrees, GainedAll, CanForecast;
  }

  lemma AgreesAtEnd(cabin: SegmentCabin, inputs: seq<FamilyInput>, n: Numerics, dcps: seq<int>, dtd: int,
                    estimates: seq<Estimate>, before: seq<Forecasts>)
    requires |inputs| == |estimates| == |before| == |cabin.families|
    requires ForecastUpTo(inputs, n, dcps, dtd, estimates, before, CabinForecasts(cabin.families), |inputs|)
    ensures forall i | 0 <= i < |cabin.families| :: FamilyAgrees(cabin.families[i])
  {
    hide Agrees, GainedAll, CanForecast;
  }

  /**
   * The fare-family forecast: one estimate for every family and interval, then
   * the demand of every policy.
   */
  method Forecast(cabin: SegmentCabin, n: Numerics, dcps: seq<int>, dtd: int, estimates: seq<Estimate>)
    requires DistinctCodes(Grid(cabin.families)) && |estimates| == |cabin.families|
    requires forall i | 0 <= i < |cabin.families| :: cabin.families[i].classes != []
    requires forall i | 0 <= i < |cabin.families| ::
      CanForecast(YieldsOf(cabin.families[i].classes), cabin.families[i].frat5, dcps, dtd, n)
    requires forall i | 0 <= i < |cabin.families| :: FamilyAgrees(cabin.families[i])
    requires Rearranges(cabin.classes, AllClasses(Grid(cabin.families), |cabin.families|))
    modifies cabin.families`mean, cabin.families`variance
    modifies cabin.classes`priceMean, cabin.classes`priceVariance, cabin.classes`cumuMean, cabin.classes`cumuVariance
    modifies cabin.policies`demand, cabin.policies`variance
    ensures forall i | 0 <= i < |cabin.families| :: FamilyAgrees(cabin.families[i])
    ensures ForecastUpTo(old(InputsOf(cabin.families)), n, dcps, dtd, estimates, old(CabinForecasts(cabin.families)),
                         CabinForecasts(cabin.families), |cabin.families|)
    ensures forall i | 0 <= i < |cabin.policies| :: PolicyForecast(cabin.policies[i])
  {
    hide *;
    ghost var inputs, before := InputsOf(cabin.families), CabinForecasts(cabin.families);
    ForecastStart(cabin, n, dcps, dtd, estimates);
    ForecastFamilies(cabin, n, dcps, dtd, estimates);
    AgreesAtEnd(cabin, inputs, n, dcps, dtd, estimates, before);
    ghost var now := CabinForecasts(cabin.families);
    DispatchDemandForecastToPolicies(cabin);
    assert CabinForecasts(cabin.families) == now;
  }

  lemma FamilyWithin(cabin: SegmentCabin, i: nat)
    requires Rearranges(cabin.classes, AllClasses(Grid(cabin.families), |cabin.families|)) && i < |cabin.families|
    ensures forall a | 0 <= a < |cabin.families[i].classes| :: cabin.families[i].classes[a] in cabin.classes
  {
    var grid := Grid(cabin.families);
    forall a | 0 <= a < |cabin.families[i].classes|
      ensures cabin.families[i].classes[a] in cabin.classes
    {
      var c := cabin.families[i].classes[a];
      ClassInAll(grid, |grid|, i, c);
      RearrangesEntry<BookingClass>(cabin.classes, AllClasses(grid, |grid|), c);
    }
  }

  lemma {:induction false} ClassInAll(grid: seq<seq<BookingClass>>, k: nat, i: nat, c: BookingClass)
    requires i < k <= |grid| && c in grid[i]
    ensures c in AllClasses(grid, k)
  {
    if i < k - 1 {
      ClassInAll(grid, k - 1, i, c);
    }
  }
}
