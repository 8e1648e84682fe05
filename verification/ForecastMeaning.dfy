/** What the forecast gives to the classes, by interval and by the FRAT5 value at its start. */
module ForecastMeaning {
  import opened Sequences
  import opened Inventory
  import opened DemandCurves
  import opened Utilities
  import opened Nesting
  import opened PolicyHelper
  import opened NewQFF
  import opened PolicyDemand
  import opened ForecastRun

  /**
   * Of an amount that interval `i` dispatches, what would sell up to class `k` or
   * higher: nothing when the interval does not end before the current day, else
   * the amount times the sell-up factor of the class, at the FRAT5 value of the
   * day on which the interval starts.
   */
  ghost function SoldIn(n: Numerics, input: FamilyInput, dcps: seq<int>, dtd: int, amount: real, k: nat, i: nat): real
    requires CanForecast(input.ys, input.frat5, dcps, dtd, n) && k < |input.ys| && i + 1 < |dcps|
  {
    if dcps[i + 1] < dtd then
      UsedDivides(input.ys, input.frat5, dcps, dtd, n, i);
      amount * SellUp(n, input.ys, input.frat5[dcps[i]], k)
    else 0.0
  }

  /** The same of the first `m` intervals. */
  ghost function SoldUp(n: Numerics, input: FamilyInput, dcps: seq<int>, dtd: int, amount: (int, int) -> real,
                        k: nat, m: nat): real
    requires CanForecast(input.ys, input.frat5, dcps, dtd, n) && k < |input.ys| && m < |dcps|
  {
    if m == 0 then 0.0
    else
      SoldUp(n, input, dcps, dtd, amount, k, m - 1)
      + SoldIn(n, input, dcps, dtd, amount(dcps[m - 1], dcps[m]), k, m - 1)
  }

  function MeanOf(estimate: Estimate): (int, int) -> real {
    (a: int, b: int) => estimate(a, b).0
  }

  function VarianceOf(estimate: Estimate): (int, int) -> real {
    (a: int, b: int) => estimate(a, b).1
  }

  /** The share of a class is what sells up to it beyond what sells up to the next higher one. */
  lemma IntervalBeyond(n: Numerics, input: FamilyInput, dcps: seq<int>, dtd: int, amount: real, k: nat, i: nat)
    requires CanForecast(input.ys, input.frat5, dcps, dtd, n) && k < |input.ys| && i + 1 < |dcps|
    ensures IntervalShare(n, input.ys, input.frat5, dcps, dtd, amount, k, i)
      == SoldIn(n, input, dcps, dtd, amount, k, i)
         - if k == 0 then 0.0 else SoldIn(n, input, dcps, dtd, amount, k - 1, i)
  {
    hide CanForecast, SellUp, Dispatching, WithShare;
    if dcps[i + 1] < dtd {
      UsedDivides(input.ys, input.frat5, dcps, dtd, n, i);
      ShareBeyond(n, input.ys, input.frat5[dcps[i]], amount, k);
    }
  }

  lemma {:induction false} GivenIsSoldUpBeyond(n: Numerics, input: FamilyInput, dcps: seq<int>, dtd: int,
                                               estimate: Estimate, k: nat, m: nat)
    requires CanForecast(input.ys, input.frat5, dcps, dtd, n) && k < |input.ys| && m < |dcps|
    ensures GivenMean(n, input.ys, input.frat5, dcps, dtd, estimate, k, m)
      == SoldUp(n, input, dcps, dtd, MeanOf(estimate), k, m)
         - if k == 0 then 0.0 else SoldUp(n, input, dcps, dtd, MeanOf(estimate), k - 1, m)
    ensures GivenVariance(n, input.ys, input.frat5, dcps, dtd, estimate, k, m)
      == SoldUp(n, input, dcps, dtd, VarianceOf(estimate), k, m)
         - if k == 0 then 0.0 else SoldUp(n, input, dcps, dtd, VarianceOf(estimate), k - 1, m)
  {
    hide CanForecast, SoldIn, IntervalShare;
    if m > 0 {
      GivenIsSoldUpBeyond(n, input, dcps, dtd, estimate, k, m - 1);
      IntervalBeyond(n, input, dcps, dtd, estimate(dcps[m - 1], dcps[m]).0, k, m - 1);
      IntervalBeyond(n, input, dcps, dtd, estimate(dcps[m - 1], dcps[m]).1, k, m - 1);
    }
  }

  lemma ShareBeyond(n: Numerics, ys: seq<real>, frat5: real, amount: real, k: nat)
    requires Divides(ys, frat5) && k < |ys|
    ensures WithShare(0.0, amount, Dispatching(n, ys, frat5, k))
      == amount * SellUp(n, ys, frat5, k) - if k == 0 then 0.0 else amount * SellUp(n, ys, frat5, k - 1)
  {
    hide SellUp;
    if k > 0 {
      SplitDifference(amount, SellUp(n, ys, frat5, k), SellUp(n, ys, frat5, k - 1));
    }
  }

  lemma SplitDifference(amount: real, a: real, b: real)
    ensures amount * (a - b) == amount * a - amount * b
  {
  }

  lemma {:induction false} PrefixIsSoldUp(now: Forecasts, input: FamilyInput, n: Numerics, dcps: seq<int>, dtd: int,
                                          estimate: Estimate, k: nat)
    requires FamilyGiven(now, input, n, dcps, dtd, estimate) && k < |input.ys|
    ensures CanForecast(input.ys, input.frat5, dcps, dtd, n) && dcps != []
    ensures Sum(now.priceMeans[..k + 1]) == SoldUp(n, input, dcps, dtd, MeanOf(estimate), k, |dcps| - 1)
    ensures Sum(now.priceVariances[..k + 1]) == SoldUp(n, input, dcps, dtd, VarianceOf(estimate), k, |dcps| - 1)
  {
    hide CanForecast, SoldUp, GivenMean, GivenVariance;
    GivenIsSoldUpBeyond(n, input, dcps, dtd, estimate, k, |dcps| - 1);
    assert now.priceMeans[..k + 1][..k] == now.priceMeans[..k];
    assert now.priceVariances[..k + 1][..k] == now.priceVariances[..k];
    if k > 0 {
      PrefixIsSoldUp(now, input, n, dcps, dtd, estimate, k - 1);
    }
  }

  /** After the forecast the cumulative forecast of a class is the demand that would sell up to it or higher. */
  lemma CumulativeIsSoldUp(now: Forecasts, input: FamilyInput, n: Numerics, dcps: seq<int>, dtd: int,
                           estimate: Estimate, k: nat)
    requires FamilyGiven(now, input, n, dcps, dtd, estimate) && Agrees(now) && k < |input.ys|
    ensures CanForecast(input.ys, input.frat5, dcps, dtd, n) && dcps != []
    ensures k < |now.cumuMeans| && k < |now.cumuVariances|
    ensures now.cumuMeans[k] == SoldUp(n, input, dcps, dtd, MeanOf(estimate), k, |dcps| - 1)
    ensures now.cumuVariances[k] == SoldUp(n, input, dcps, dtd, VarianceOf(estimate), k, |dcps| - 1)
  {
    hide CanForecast, SoldUp, GivenMean, GivenVariance, Sum;
    PrefixIsSoldUp(now, input, n, dcps, dtd, estimate, k);
  }

  /** The levels fit the classes of the families that the forecast reads. */
  ghost predicate FitsInputs(inputs: seq<FamilyInput>, n: Numerics, dcps: seq<int>, dtd: int, p: Levels) {
    && |p| <= |inputs| && dcps != []
    && forall i | 0 <= i < |p| ::
         CanForecast(inputs[i].ys, inputs[i].frat5, dcps, dtd, n) && p[i] < |inputs[i].ys|
  }

  /** What would sell up to the levels of a policy or higher, in the first `m` families. */
  ghost function SoldUpTo(n: Numerics, inputs: seq<FamilyInput>, dcps: seq<int>, dtd: int,
                          amounts: seq<(int, int) -> real>, p: Levels, m: nat): real
    requires FitsInputs(inputs, n, dcps, dtd, p) && |amounts| == |inputs| && m <= |p|
  {
    if m == 0 then 0.0
    else
      SoldUpTo(n, inputs, dcps, dtd, amounts, p, m - 1)
      + SoldUp(n, inputs[m - 1], dcps, dtd, amounts[m - 1], p[m - 1], |dcps| - 1)
  }

  function MeansOf(estimates: seq<Estimate>): (r: seq<(int, int) -> real>)
    ensures |r| == |estimates| && forall i | 0 <= i < |r| :: r[i] == MeanOf(estimates[i])
  {
    seq(|estimates|, i requires 0 <= i < |estimates| => MeanOf(estimates[i]))
  }

  function VariancesOfAll(estimates: seq<Estimate>): (r: seq<(int, int) -> real>)
    ensures |r| == |estimates| && forall i | 0 <= i < |r| :: r[i] == VarianceOf(estimates[i])
  {
    seq(|estimates|, i requires 0 <= i < |estimates| => VarianceOf(estimates[i]))
  }

  lemma ClassIsSoldUp(cabin: SegmentCabin, inputs: seq<FamilyInput>, n: Numerics, dcps: seq<int>, dtd: int,
                      estimates: seq<Estimate>, i: nat, k: nat)
    requires CabinForecast(cabin) && |inputs| == |estimates| == |cabin.families|
    requires ClassesGiven(CabinForecasts(cabin.families), inputs, n, dcps, dtd, estimates)
    requires i < |cabin.families| && k < |cabin.families[i].classes|
    ensures dcps != [] && CanForecast(inputs[i].ys, inputs[i].frat5, dcps, dtd, n) && k < |inputs[i].ys|
    ensures var c := cabin.families[i].classes[k];
      && c.cumuMean == SoldUp(n, inputs[i], dcps, dtd, MeanOf(estimates[i]), k, |dcps| - 1)
      && c.cumuVariance == SoldUp(n, inputs[i], dcps, dtd, VarianceOf(estimates[i]), k, |dcps| - 1)
  {
    hide CanForecast, SoldUp, GivenMean, GivenVariance, Agrees;
    var now := ForecastsOf(cabin.families[i]);
    assert FamilyGiven(CabinForecasts(cabin.families)[i], inputs[i], n, dcps, dtd, estimates[i]);
    assert FamilyAgrees(cabin.families[i]);
    CumulativeIsSoldUp(now, inputs[i], n, dcps, dtd, estimates[i], k);
  }

  lemma LevelsFitInputs(cabin: SegmentCabin, inputs: seq<FamilyInput>, n: Numerics, dcps: seq<int>, dtd: int,
                        estimates: seq<Estimate>, classes: seq<BookingClass>)
    requires CabinForecast(cabin) && |inputs| == |estimates| == |cabin.families|
    requires ClassesGiven(CabinForecasts(cabin.families), inputs, n, dcps, dtd, estimates)
    requires Shaped(Grid(cabin.families), classes) && dcps != []
    ensures FitsInputs(inputs, n, dcps, dtd, LevelsOf(Grid(cabin.families), classes))
  {
    hide CanForecast, SoldUp, ClassesGiven, CabinForecast, Shaped, LevelsOf;
    LevelsFit(Grid(cabin.families), classes);
    var p := LevelsOf(Grid(cabin.families), classes);
    forall i | 0 <= i < |p|
      ensures CanForecast(inputs[i].ys, inputs[i].frat5, dcps, dtd, n) && p[i] < |inputs[i].ys|
    {
      ClassIsSoldUp(cabin, inputs, n, dcps, dtd, estimates, i, p[i]);
    }
  }

  lemma {:induction false} ClassesAreSoldUp(cabin: SegmentCabin, inputs: seq<FamilyInput>, n: Numerics,
                                            dcps: seq<int>, dtd: int, estimates: seq<Estimate>,
                                            classes: seq<BookingClass>, p: Levels, m: nat)
    requires CabinForecast(cabin) && |inputs| == |estimates| == |cabin.families|
    requires ClassesGiven(CabinForecasts(cabin.families), inputs, n, dcps, dtd, estimates)
    requires Shaped(Grid(cabin.families), classes) && p == LevelsOf(Grid(cabin.families), classes) && m <= |p|
    requires FitsInputs(inputs, n, dcps, dtd, p) && |p| == |classes|
    ensures Sum(CumuMeans(classes[..m])) == SoldUpTo(n, inputs, dcps, dtd, MeansOf(estimates), p, m)
    ensures Sum(CumuVariances(classes[..m])) == SoldUpTo(n, inputs, dcps, dtd, VariancesOfAll(estimates), p, m)
  {
    hide *;
    CumuEnds(classes);
    NothingSoldUp(n, inputs, dcps, dtd, MeansOf(estimates), p);
    NothingSoldUp(n, inputs, dcps, dtd, VariancesOfAll(estimates), p);
    if m > 0 {
      ClassesAreSoldUp(cabin, inputs, n, dcps, dtd, estimates, classes, p, m - 1);
      CumuPrefix(classes, m - 1);
      LevelAt(Grid(cabin.families), classes, m - 1);
      ShapedLength(cabin.families, classes);
      ClassIsSoldUp(cabin, inputs, n, dcps, dtd, estimates, m - 1, p[m - 1]);
      SoldUpOneMore(n, inputs, dcps, dtd, MeansOf(estimates), p, m - 1);
      SoldUpOneMore(n, inputs, dcps, dtd, VariancesOfAll(estimates), p, m - 1);
    }
  }

  lemma NothingSoldUp(n: Numerics, inputs: seq<FamilyInput>, dcps: seq<int>, dtd: int,
                      amounts: seq<(int, int) -> real>, p: Levels)
    requires FitsInputs(inputs, n, dcps, dtd, p) && |amounts| == |inputs|
    ensures SoldUpTo(n, inputs, dcps, dtd, amounts, p, 0) == 0.0
  {
  }

  lemma SoldUpOneMore(n: Numerics, inputs: seq<FamilyInput>, dcps: seq<int>, dtd: int,
                      amounts: seq<(int, int) -> real>, p: Levels, m: nat)
    requires FitsInputs(inputs, n, dcps, dtd, p) && |amounts| == |inputs| && m < |p|
    ensures dcps != [] && CanForecast(inputs[m].ys, inputs[m].frat5, dcps, dtd, n) && p[m] < |inputs[m].ys|
    ensures SoldUpTo(n, inputs, dcps, dtd, amounts, p, m + 1) == SoldUpTo(n, inputs, dcps, dtd, amounts, p, m)
      + SoldUp(n, inputs[m], dcps, dtd, amounts[m], p[m], |dcps| - 1)
  {
    hide CanForecast, SoldUp;
  }

  /**
   * After the forecast a policy's demand and variance are what would sell up, in
   * every family that it opens, to its level there or higher.
   */
  lemma PolicyDemandIsSoldUp(cabin: SegmentCabin, inputs: seq<FamilyInput>, n: Numerics, dcps: seq<int>, dtd: int,
                             estimates: seq<Estimate>, policy: Policy)
    requires CabinForecast(cabin) && |inputs| == |estimates| == |cabin.families| && dcps != []
    requires ClassesGiven(CabinForecasts(cabin.families), inputs, n, dcps, dtd, estimates)
    requires policy in cabin.policies && Shaped(Grid(cabin.families), policy.classes)
    ensures var p := LevelsOf(Grid(cabin.families), policy.classes);
      && FitsInputs(inputs, n, dcps, dtd, p)
      && policy.demand == SoldUpTo(n, inputs, dcps, dtd, MeansOf(estimates), p, |p|)
      && policy.variance == SoldUpTo(n, inputs, dcps, dtd, VariancesOfAll(estimates), p, |p|)
  {
    assert PolicyForecast(policy);
    hide FitsInputs, SoldUpTo, ClassesGiven, CabinForecast, Shaped, LevelsOf, Sum, CumuMeans, CumuVariances;
    var p := LevelsOf(Grid(cabin.families), policy.classes);
    LevelsFit(Grid(cabin.families), policy.classes);
    LevelsFitInputs(cabin, inputs, n, dcps, dtd, estimates, policy.classes);
    ClassesAreSoldUp(cabin, inputs, n, dcps, dtd, estimates, policy.classes, p, |p|);
    assert policy.classes[..|p|] == policy.classes;
  }

  // ---- One family worked out.

  const EXAMPLE_YIELDS := [300.0, 200.0, 100.0]
  const EXAMPLE_CURVE: Curve := map[30 := 1.5, 20 := 2.0, 10 := 3.0]
  const EXAMPLE_POINTS := [30, 20, 10]

  /** Means 60 and 100 and variances 9 and 16 for the intervals from day 30 and from day 20. */
  function ExampleEstimate(): Estimate {
    (a: int, b: int) =>
      if a == 30 && b == 20 then (60.0, 9.0) else if a == 20 && b == 10 then (100.0, 16.0) else (1.0, 1.0)
  }

  function ExampleInput(): FamilyInput {
    FamilyInput(EXAMPLE_YIELDS, EXAMPLE_CURVE)
  }

  lemma ExampleFactors(n: Numerics, k: nat)
    requires HasLogarithm(n) && k < 3
    ensures Divides(EXAMPLE_YIELDS, 2.0) && SellUp(n, EXAMPLE_YIELDS, 2.0, k) == [0.25, 0.5, 1.0][k]
  {
    assert Spans(100.0, 2.0, 2 - k) == EXAMPLE_YIELDS[k];
    FamilySellUpHalves(n, EXAMPLE_YIELDS, 2.0, k, 2 - k);
    assert Halved(2) == 0.25 && Halved(1) == 0.5;
  }

  lemma ExampleIsReady(n: Numerics)
    requires IsExponential(n)
    ensures CanForecast(EXAMPLE_YIELDS, EXAMPLE_CURVE, EXAMPLE_POINTS, 20, n)
  {
    hide IsExponential;
  }

  lemma ExampleSoldUp(n: Numerics, k: nat)
    requires IsExponential(n) && HasLogarithm(n) && k < 3
    ensures CanForecast(EXAMPLE_YIELDS, EXAMPLE_CURVE, EXAMPLE_POINTS, 20, n)
    ensures SoldUp(n, ExampleInput(), EXAMPLE_POINTS, 20, MeanOf(ExampleEstimate()), k, 2) == [25.0, 50.0, 100.0][k]
    ensures SoldUp(n, ExampleInput(), EXAMPLE_POINTS, 20, VarianceOf(ExampleEstimate()), k, 2) == [4.0, 8.0, 16.0][k]
  {
    ExampleIsReady(n);
    ExampleFactors(n, k);
    hide CanForecast, SellUp, HasLogarithm, IsExponential;
    var input, dcps, f, g := ExampleInput(), EXAMPLE_POINTS, MeanOf(ExampleEstimate()), VarianceOf(ExampleEstimate());
    assert f(20, 10) == 100.0 && g(20, 10) == 16.0;
    assert SoldIn(n, input, dcps, 20, f(30, 20), k, 0) == 0.0 && SoldIn(n, input, dcps, 20, g(30, 20), k, 0) == 0.0;
    assert SoldIn(n, input, dcps, 20, 100.0, k, 1) == 100.0 * SellUp(n, EXAMPLE_YIELDS, 2.0, k);
    assert SoldIn(n, input, dcps, 20, 16.0, k, 1) == 16.0 * SellUp(n, EXAMPLE_YIELDS, 2.0, k);
    assert SoldUp(n, input, dcps, 20, f, k, 1) == SoldUp(n, input, dcps, 20, g, k, 1) == 0.0;
  }

  /** On day 20 only the second interval is used, at the FRAT5 value 2 of its start. */
  lemma ForecastWorkedOut(n: Numerics, k: nat)
    requires IsExponential(n) && HasLogarithm(n) && k < 3
    ensures CanForecast(EXAMPLE_YIELDS, EXAMPLE_CURVE, EXAMPLE_POINTS, 20, n)
    ensures UsedMean(EXAMPLE_POINTS, 20, ExampleEstimate(), 2) == 100.0
    ensures UsedVariance(EXAMPLE_POINTS, 20, ExampleEstimate(), 2) == 16.0
    ensures GivenMean(n, EXAMPLE_YIELDS, EXAMPLE_CURVE, EXAMPLE_POINTS, 20, ExampleEstimate(), k, 2)
      == [25.0, 25.0, 50.0][k]
    ensures GivenVariance(n, EXAMPLE_YIELDS, EXAMPLE_CURVE, EXAMPLE_POINTS, 20, ExampleEstimate(), k, 2)
      == [4.0, 4.0, 8.0][k]
  {
    ExampleSoldUp(n, k);
    if k > 0 { ExampleSoldUp(n, k - 1); }
    hide CanForecast, SoldUp, GivenMean, GivenVariance, HasLogarithm, IsExponential;
    GivenIsSoldUpBeyond(n, ExampleInput(), EXAMPLE_POINTS, 20, ExampleEstimate(), k, 2);
    assert UsedMean(EXAMPLE_POINTS, 20, ExampleEstimate(), 1) == 0.0;
    assert UsedVariance(EXAMPLE_POINTS, 20, ExampleEstimate(), 1) == 0.0;
  }
}
