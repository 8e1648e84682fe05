/**
 * From the reset of the forecasts to the hull: what the estimates give to the
 * classes, and when the transformation can go on from there.
 */
module ForecastRun {
  import opened Sequences
  import opened Inventory
  import opened DemandCurves
  import opened Utilities
  import opened Totals
  import opened ConvexHull
  import opened Nesting
  import opened NestedSlopes
  import opened PolicyHelper
  import opened NewQFF
  import opened Forecaster
  import opened PolicyDemand
  import opened MarginalRevenueTransformation
  import opened HullConservation
  import opened VirtualClasses
  import opened Pipeline

  // ---- What the estimates give to the classes.

  /** Interval `i` ends before the current day. */
  ghost predicate IsUsed(dcps: seq<int>, dtd: int, i: nat) {
    i + 1 < |dcps| && dcps[i + 1] < dtd
  }

  ghost predicate HasDemand(dcps: seq<int>, dtd: int, estimate: Estimate, i: nat) {
    IsUsed(dcps, dtd, i) && estimate(dcps[i], dcps[i + 1]).0 > 0.0
  }

  ghost predicate HasVariance(dcps: seq<int>, dtd: int, estimate: Estimate, i: nat) {
    IsUsed(dcps, dtd, i) && estimate(dcps[i], dcps[i + 1]).1 > 0.0
  }

  /** One of the first `k` intervals has demand. */
  ghost predicate SomeDemand(dcps: seq<int>, dtd: int, estimate: Estimate, k: nat) {
    exists i: nat :: i < k && HasDemand(dcps, dtd, estimate, i)
  }

  ghost predicate SomeVariance(dcps: seq<int>, dtd: int, estimate: Estimate, k: nat) {
    exists i: nat :: i < k && HasVariance(dcps, dtd, estimate, i)
  }

  ghost predicate NotNegative(dcps: seq<int>, dtd: int, estimate: Estimate) {
    forall i: nat | IsUsed(dcps, dtd, i) ::
      estimate(dcps[i], dcps[i + 1]).0 >= 0.0 && estimate(dcps[i], dcps[i + 1]).1 >= 0.0
  }

  /** Used estimates are not negative, and when one of them has demand, one has variance. */
  ghost predicate EstimateVaries(dcps: seq<int>, dtd: int, estimate: Estimate) {
    && NotNegative(dcps, dtd, estimate)
    && (SomeDemand(dcps, dtd, estimate, |dcps|) ==> SomeVariance(dcps, dtd, estimate, |dcps|))
  }

  ghost predicate EstimatesVary(dcps: seq<int>, dtd: int, estimates: seq<Estimate>) {
    forall i | 0 <= i < |estimates| :: EstimateVaries(dcps, dtd, estimates[i])
  }

  /** The class receives a share: the highest class, and every class with a yield below that of the next higher one. */
  ghost predicate IsDispatched(ys: seq<real>, c: nat) {
    c < |ys| && (c == 0 || ys[c] < ys[c - 1])
  }

  lemma SomeStep(dcps: seq<int>, dtd: int, estimate: Estimate, k: nat)
    requires k < |dcps|
    ensures SomeDemand(dcps, dtd, estimate, k + 1)
      <==> SomeDemand(dcps, dtd, estimate, k) || HasDemand(dcps, dtd, estimate, k)
    ensures SomeVariance(dcps, dtd, estimate, k + 1)
      <==> SomeVariance(dcps, dtd, estimate, k) || HasVariance(dcps, dtd, estimate, k)
    ensures !SomeDemand(dcps, dtd, estimate, 0) && !SomeVariance(dcps, dtd, estimate, 0)
  {
    hide HasDemand, HasVariance;
  }

  /** The last point starts no interval. */
  lemma NoLastInterval(dcps: seq<int>, dtd: int, estimate: Estimate)
    requires dcps != []
    ensures SomeDemand(dcps, dtd, estimate, |dcps| - 1) <==> SomeDemand(dcps, dtd, estimate, |dcps|)
    ensures SomeVariance(dcps, dtd, estimate, |dcps| - 1) <==> SomeVariance(dcps, dtd, estimate, |dcps|)
  {
    SomeStep(dcps, dtd, estimate, |dcps| - 1);
  }

  lemma ShareSign(n: Numerics, ys: seq<real>, frat5: Curve, dcps: seq<int>, dtd: int, amount: real, c: nat, i: nat)
    requires CanForecast(ys, frat5, dcps, dtd, n) && c < |ys| && i + 1 < |dcps|
    requires dcps[i + 1] < dtd ==> amount >= 0.0
    ensures IntervalShare(n, ys, frat5, dcps, dtd, amount, c, i) >= 0.0
    ensures IntervalShare(n, ys, frat5, dcps, dtd, amount, c, i) > 0.0
      <==> dcps[i + 1] < dtd && amount > 0.0 && IsDispatched(ys, c)
  {
    if dcps[i + 1] < dtd {
      UsedDivides(ys, frat5, dcps, dtd, n, i);
      DispatchingIsShare(n, ys, frat5[dcps[i]], c);
      ShareProduct(amount, Dispatching(n, ys, frat5[dcps[i]], c));
    }
  }

  lemma ShareProduct(amount: real, share: real)
    requires amount >= 0.0 && share >= 0.0
    ensures WithShare(0.0, amount, share) >= 0.0
    ensures WithShare(0.0, amount, share) > 0.0 <==> amount > 0.0 && share > 0.0
  {
    MulMono(0.0, amount, share);
    if amount > 0.0 && share > 0.0 { MulStrict(0.0, amount, share); }
  }

  /**
   * Estimates that are not negative give forecasts that are not negative. A class
   * gets demand exactly when it receives a share and an interval has demand, and
   * likewise for the variance.
   */
  lemma {:induction false} GivenSign(n: Numerics, ys: seq<real>, frat5: Curve, dcps: seq<int>, dtd: int,
                                     estimate: Estimate, c: nat, k: nat)
    requires CanForecast(ys, frat5, dcps, dtd, n) && c < |ys| && k < |dcps| && NotNegative(dcps, dtd, estimate)
    ensures GivenMean(n, ys, frat5, dcps, dtd, estimate, c, k) >= 0.0
    ensures GivenMean(n, ys, frat5, dcps, dtd, estimate, c, k) > 0.0
      <==> IsDispatched(ys, c) && SomeDemand(dcps, dtd, estimate, k)
    ensures GivenVariance(n, ys, frat5, dcps, dtd, estimate, c, k) >= 0.0
    ensures GivenVariance(n, ys, frat5, dcps, dtd, estimate, c, k) > 0.0
      <==> IsDispatched(ys, c) && SomeVariance(dcps, dtd, estimate, k)
  {
    hide CanForecast, IsDispatched, IntervalShare, SomeDemand, SomeVariance;
    if k == 0 {
      SomeStep(dcps, dtd, estimate, 0);
    } else {
      var i := k - 1;
      GivenSign(n, ys, frat5, dcps, dtd, estimate, c, i);
      SomeStep(dcps, dtd, estimate, i);
      assert dcps[i + 1] == dcps[k];
      assert IsUsed(dcps, dtd, i) <==> dcps[k] < dtd;
      ShareSign(n, ys, frat5, dcps, dtd, estimate(dcps[i], dcps[k]).0, c, i);
      ShareSign(n, ys, frat5, dcps, dtd, estimate(dcps[i], dcps[k]).1, c, i);
    }
  }

  /** From nothing, every class of the family ends with what the intervals give it. */
  lemma GainedFromZero(input: FamilyInput, n: Numerics, dcps: seq<int>, dtd: int, estimate: Estimate,
                       s: Forecasts, t: Forecasts, c: nat)
    requires GainedAll(input, n, dcps, dtd, estimate, s, t) && c < |input.ys|
    requires |s.priceMeans| == |s.priceVariances| == |input.ys| && s.priceMeans[c] == s.priceVariances[c] == 0.0
    ensures |t.priceMeans| == |t.priceVariances| == |input.ys|
    ensures t.priceMeans[c] == GivenMean(n, input.ys, input.frat5, dcps, dtd, estimate, c, |dcps| - 1)
    ensures t.priceVariances[c] == GivenVariance(n, input.ys, input.frat5, dcps, dtd, estimate, c, |dcps| - 1)
    ensures NotNegative(dcps, dtd, estimate) ==>
      && t.priceMeans[c] >= 0.0 && t.priceVariances[c] >= 0.0
      && (t.priceMeans[c] > 0.0 <==> IsDispatched(input.ys, c) && SomeDemand(dcps, dtd, estimate, |dcps|))
      && (t.priceVariances[c] > 0.0 <==> IsDispatched(input.ys, c) && SomeVariance(dcps, dtd, estimate, |dcps|))
  {
    hide CanForecast, IsDispatched, NotNegative, SomeDemand, SomeVariance, GivenMean, GivenVariance;
    if NotNegative(dcps, dtd, estimate) {
      GivenSign(n, input.ys, input.frat5, dcps, dtd, estimate, c, |dcps| - 1);
      NoLastInterval(dcps, dtd, estimate);
    }
  }

  // ---- What the assertions need of the forecasts.

  /** No forecast of the family is negative, and every class with demand has variance. */
  ghost predicate ForecastVaries(family: FareFamily)
    reads family.classes`priceMean, family.classes`priceVariance
  {
    forall a | 0 <= a < |family.classes| :: ClassVaries(family.classes[a])
  }

  ghost predicate ClassVaries(c: BookingClass)
    reads c`priceMean, c`priceVariance
  {
    c.priceMean >= 0.0 && c.priceVariance >= 0.0 && (c.priceMean > 0.0 ==> c.priceVariance > 0.0)
  }

  lemma {:induction false} ClassesOfGrid(cabin: SegmentCabin, n: nat, c: BookingClass) returns (i: nat, a: nat)
    requires n <= |cabin.families| && c in AllClasses(Grid(cabin.families), n)
    ensures i < |cabin.families| && a < |cabin.families[i].classes| && cabin.families[i].classes[a] == c
  {
    i := ClassHasFamily(Grid(cabin.families), n, c);
    a :| a < |cabin.families[i].classes| && cabin.families[i].classes[a] == c;
  }

  lemma NodeInFamilies(cabin: SegmentCabin, current: Policy, next: Policy, c: BookingClass)
    requires Widens(cabin, current, next) && c in NodeBetween(cabin, current, next)
    ensures c in AllClasses(Grid(cabin.families), |cabin.families|)
  {
    hide Diff, Open, OpenSet, AllClasses, Shaped;
    var grid := Grid(cabin.families);
    var p, q := LevelsOf(grid, next.classes), LevelsOf(grid, current.classes);
    hide LevelsOf;
    NodeIsDifference<BookingClass>(grid, p, q);
    OpenWithinAll<BookingClass>(grid, p);
    InPart<BookingClass>(Diff(grid, p, q, |p|), OpenSet(grid, q), OpenSet(grid, p), AllClasses(grid, |grid|), c);
  }

  lemma InPart<T>(s: seq<T>, t: seq<T>, u: seq<T>, v: seq<T>, x: T)
    requires multiset(s) + multiset(t) == multiset(u) && multiset(u) <= multiset(v) && x in s
    ensures x in v
  {
    assert x in multiset(s);
    assert x in multiset(u);
    assert x in multiset(v);
  }

  ghost predicate ForecastsVary(cabin: SegmentCabin)
    reads MembersOf(cabin.families)`priceMean, MembersOf(cabin.families)`priceVariance
  {
    forall i | 0 <= i < |cabin.families| :: ForecastVaries(cabin.families[i])
  }

  lemma NodeVaries(cabin: SegmentCabin, current: Policy, next: Policy)
    requires ForecastsVary(cabin) && Widens(cabin, current, next)
    ensures forall c | c in NodeBetween(cabin, current, next) :: ClassVaries(c)
  {
    hide Widens, NodeBetween, ClassVaries;
    forall c | c in NodeBetween(cabin, current, next)
      ensures ClassVaries(c)
    {
      NodeInFamilies(cabin, current, next, c);
      var i, a := ClassesOfGrid(cabin, |cabin.families|, c);
      assert ForecastVaries(cabin.families[i]);
    }
  }

  /** Between policies with included open sets, more demand means more variance. */
  lemma VarianceRises(cabin: SegmentCabin, current: Policy, next: Policy)
    requires CabinForecast(cabin) && ForecastsVary(cabin) && Widens(cabin, current, next)
    requires current.demand < next.demand
    ensures current.variance < next.variance
  {
    hide Widens, NodeBetween, CabinForecast, ForecastsVary;
    NodeVaries(cabin, current, next);
    AssertionsHoldWhenNodeHasDemand(cabin, current, next);
  }

  /** Policies with the same levels have the same demand. */
  lemma DemandTellsApart(cabin: SegmentCabin, current: Policy, next: Policy)
    requires CabinForecast(cabin) && current in cabin.policies && next in cabin.policies
    requires Shaped(Grid(cabin.families), current.classes) && Shaped(Grid(cabin.families), next.classes)
    requires current.demand < next.demand
    ensures LevelsOf(Grid(cabin.families), current.classes) != LevelsOf(Grid(cabin.families), next.classes)
  {
    hide *;
    LevelsFit(Grid(cabin.families), current.classes);
    LevelsFit(Grid(cabin.families), next.classes);
    PolicyDemandIsOpenDemand(cabin, current);
    PolicyDemandIsOpenDemand(cabin, next);
  }

  lemma LevelsFit(grid: seq<seq<BookingClass>>, classes: seq<BookingClass>)
    requires Shaped(grid, classes)
    ensures FitsGrid(grid, LevelsOf(grid, classes)) && |LevelsOf(grid, classes)| == |classes| <= |grid|
  {
  }

  lemma FallBackOfTwo(p: Levels, q: Levels)
    requires |q| <= 2 && Nested(p, q) && !NoFallBack(p, q)
    ensures Included(q, p)
  {
  }

  /** With two families demand rules a fall-back out: the second policy would open less. */
  lemma DemandRulesOut(cabin: SegmentCabin, current: Policy, next: Policy)
    requires CabinForecast(cabin) && ForecastsVary(cabin) && |cabin.families| <= 2
    requires current in cabin.policies && next in cabin.policies
    requires Shaped(Grid(cabin.families), current.classes) && Shaped(Grid(cabin.families), next.classes)
    requires current.demand < next.demand
    requires Nested(LevelsOf(Grid(cabin.families), current.classes), LevelsOf(Grid(cabin.families), next.classes))
    ensures NoFallBack(LevelsOf(Grid(cabin.families), current.classes), LevelsOf(Grid(cabin.families), next.classes))
  {
    var p, q := LevelsOf(Grid(cabin.families), current.classes), LevelsOf(Grid(cabin.families), next.classes);
    assert |q| <= 2;
    if !NoFallBack(p, q) {
      FallBackOfTwo(p, q);
      assert Widens(cabin, next, current);
      hide *;
      DemandGrowsByNode(cabin, next, current);
      NodeVaries(cabin, next, current);
      PricesNotNegative(NodeBetween(cabin, next, current));
    }
  }

  lemma PricesNotNegative(cs: seq<BookingClass>)
    requires forall c | c in cs :: c.priceMean >= 0.0
    ensures Sum(PriceMeans(cs)) >= 0.0
  {
    hide Sum;
    SumNonNegative(PriceMeans(cs));
  }

  // ---- The join.

  /** From one policy to the next, no family falls back after an equal one. */
  ghost predicate StepKeepsOn(cabin: SegmentCabin, current: Policy, next: Policy) {
    var grid := Grid(cabin.families);
    && Shaped(grid, current.classes) && Shaped(grid, next.classes)
    && NoFallBack(LevelsOf(grid, current.classes), LevelsOf(grid, next.classes))
  }

  ghost predicate NeverFallsBack(cabin: SegmentCabin, h: seq<nat>) {
    && (forall i | 0 <= i < |h| :: h[i] < |cabin.policies|)
    && (forall i | 0 <= i < |h| - 1 :: StepKeepsOn(cabin, cabin.policies[h[i]], cabin.policies[h[i + 1]]))
  }

  /** At the given demands and revenues no step of the nested hull falls back after a family with equal classes. */
  ghost predicate NeverFallsBackAt(cabin: SegmentCabin, pts: seq<Point>)
    requires ValidCabin(cabin)
  {
    forall h: seq<nat> | IsHull(pts, CabinFilter(cabin), h) :: NeverFallsBack(cabin, h)
  }

  ghost predicate HullNeverFallsBack(cabin: SegmentCabin)
    requires ValidCabin(cabin)
    reads cabin.policies`demand, cabin.policies`totalRevenue
  {
    NeverFallsBackAt(cabin, Points(cabin.policies))
  }

  lemma HullStep(cabin: SegmentCabin, h: seq<nat>, i: nat)
    requires ValidCabin(cabin) && IsHull(Points(cabin.policies), CabinFilter(cabin), h) && i + 1 < |h|
    ensures h[i] < |cabin.policies| && h[i + 1] < |cabin.policies|
    ensures var grid, current, next := Grid(cabin.families), cabin.policies[h[i]], cabin.policies[h[i + 1]];
      && Shaped(grid, current.classes) && Shaped(grid, next.classes)
      && current.demand < next.demand
      && Nested(LevelsOf(grid, current.classes), LevelsOf(grid, next.classes))
  {
    hide Nested, LevelsOf, Shaped, DistinctCodes, Slope;
    assert IsNext(Points(cabin.policies), CabinFilter(cabin), h[i], h[i + 1]);
  }

  /** A step without a fall-back meets all assertions, since demand and variance follow from the forecast. */
  lemma StepMeetsAssertions(cabin: SegmentCabin, current: Policy, next: Policy)
    requires CabinForecast(cabin) && ForecastsVary(cabin)
    requires current in cabin.policies && next in cabin.policies
    requires Shaped(Grid(cabin.families), current.classes) && Shaped(Grid(cabin.families), next.classes)
    requires current.demand < next.demand
    requires Nested(LevelsOf(Grid(cabin.families), current.classes), LevelsOf(Grid(cabin.families), next.classes))
    requires NoFallBack(LevelsOf(Grid(cabin.families), current.classes), LevelsOf(Grid(cabin.families), next.classes))
    ensures StepIsClean(cabin, current, next) && current.variance < next.variance
  {
    hide LevelsOf, Shaped, Nested, NoFallBack, CabinForecast, ForecastsVary;
    DemandTellsApart(cabin, current, next);
    IncludedIsNestedWithoutFallBack(LevelsOf(Grid(cabin.families), current.classes),
                                    LevelsOf(Grid(cabin.families), next.classes));
    VarianceRises(cabin, current, next);
  }

  lemma HullMeetsAll(cabin: SegmentCabin, h: seq<nat>)
    requires ValidCabin(cabin) && CabinForecast(cabin) && ForecastsVary(cabin)
    requires IsHull(Points(cabin.policies), CabinFilter(cabin), h) && NeverFallsBack(cabin, h)
    ensures CleanAlong(cabin, h, VariancesOf(cabin.policies))
  {
    HullWithin(cabin, h);
    hide ValidCabin, CabinForecast, ForecastsVary, IsHull, CabinFilter, StepIsClean, NoFallBack, LevelsOf, Shaped,
         Nested, CleanAlong, VariancesOf, Points;
    forall i | 0 <= i < |h| - 1
      ensures StepIsClean(cabin, cabin.policies[h[i]], cabin.policies[h[i + 1]])
      ensures cabin.policies[h[i]].variance < cabin.policies[h[i + 1]].variance
    {
      HullStep(cabin, h, i);
      assert StepKeepsOn(cabin, cabin.policies[h[i]], cabin.policies[h[i + 1]]);
      StepMeetsAssertions(cabin, cabin.policies[h[i]], cabin.policies[h[i + 1]]);
    }
    CleanAlongIs(cabin, h);
  }

  lemma CleanAlongIs(cabin: SegmentCabin, h: seq<nat>)
    requires forall i | 0 <= i < |h| :: h[i] < |cabin.policies|
    requires forall i | 0 <= i < |h| - 1 ::
      && StepIsClean(cabin, cabin.policies[h[i]], cabin.policies[h[i + 1]])
      && cabin.policies[h[i]].variance < cabin.policies[h[i + 1]].variance
    ensures CleanAlong(cabin, h, VariancesOf(cabin.policies))
  {
    hide StepIsClean, VariancesOf;
  }

  lemma HullWithin(cabin: SegmentCabin, h: seq<nat>)
    requires ValidCabin(cabin) && IsHull(Points(cabin.policies), CabinFilter(cabin), h)
    ensures forall i | 0 <= i < |h| :: h[i] < |cabin.policies|
  {
    hide IsNext, IsLast;
  }

  lemma CleanNeverFallsBack(cabin: SegmentCabin, h: seq<nat>, vs: seq<real>)
    requires CleanAlong(cabin, h, vs)
    ensures NeverFallsBack(cabin, h)
  {
    hide NoFallBack, LevelsOf, Shaped;
    forall i | 0 <= i < |h| - 1
      ensures StepKeepsOn(cabin, cabin.policies[h[i]], cabin.policies[h[i + 1]])
    {
      assert StepIsClean(cabin, cabin.policies[h[i]], cabin.policies[h[i + 1]]);
    }
  }

  lemma TwoFamiliesNeverFallBack(cabin: SegmentCabin, h: seq<nat>)
    requires ValidCabin(cabin) && CabinForecast(cabin) && ForecastsVary(cabin) && |cabin.families| <= 2
    requires IsHull(Points(cabin.policies), CabinFilter(cabin), h)
    ensures NeverFallsBack(cabin, h)
  {
    HullWithin(cabin, h);
    hide ValidCabin, CabinForecast, ForecastsVary, IsHull, CabinFilter, NoFallBack, LevelsOf, Shaped, Nested;
    forall i | 0 <= i < |h| - 1
      ensures StepKeepsOn(cabin, cabin.policies[h[i]], cabin.policies[h[i + 1]])
    {
      HullStep(cabin, h, i);
      DemandRulesOut(cabin, cabin.policies[h[i]], cabin.policies[h[i + 1]]);
    }
  }

  /**
   * When every class with demand has variance, the nested hull meets the assertions
   * of the adjustment exactly when none of its steps falls back, and in a cabin
   * of at most two families none does.
   */
  lemma ForecastMeetsAssertions(cabin: SegmentCabin)
    requires ValidCabin(cabin) && CabinForecast(cabin) && ForecastsVary(cabin)
    ensures StepsAreClean(cabin) <==> HullNeverFallsBack(cabin)
    ensures |cabin.families| <= 2 ==> StepsAreClean(cabin)
  {
    hide ValidCabin, CabinForecast, ForecastsVary, IsHull, CabinFilter, NeverFallsBack, CleanAlong;
    var vs := VariancesOf(cabin.policies);
    forall h: seq<nat> | IsHull(Points(cabin.policies), CabinFilter(cabin), h)
      ensures CleanAlong(cabin, h, vs) <==> NeverFallsBack(cabin, h)
      ensures |cabin.families| <= 2 ==> NeverFallsBack(cabin, h)
    {
      if CleanAlong(cabin, h, vs) { CleanNeverFallsBack(cabin, h, vs); }
      if NeverFallsBack(cabin, h) { HullMeetsAll(cabin, h); }
      if |cabin.families| <= 2 { TwoFamiliesNeverFallBack(cabin, h); }
    }
  }

  // ---- The demands that a forecast will give.

  /** Every class has what all intervals give it. */
  ghost predicate ClassesGiven(now: seq<Forecasts>, inputs: seq<FamilyInput>, n: Numerics, dcps: seq<int>,
                               dtd: int, estimates: seq<Estimate>)
    requires |now| == |inputs| == |estimates|
  {
    forall i | 0 <= i < |now| :: FamilyGiven(now[i], inputs[i], n, dcps, dtd, estimates[i])
  }

  ghost predicate FamilyGiven(now: Forecasts, input: FamilyInput, n: Numerics, dcps: seq<int>, dtd: int,
                              estimate: Estimate)
  {
    && CanForecast(input.ys, input.frat5, dcps, dtd, n) && dcps != []
    && |now.priceMeans| == |now.priceVariances| == |input.ys|
    && forall a | 0 <= a < |input.ys| ::
         && now.priceMeans[a] == GivenMean(n, input.ys, input.frat5, dcps, dtd, estimate, a, |dcps| - 1)
         && now.priceVariances[a] == GivenVariance(n, input.ys, input.frat5, dcps, dtd, estimate, a, |dcps| - 1)
  }

  /** The functions `f` and `g` predict mean and variance of every class from the curves and the estimates. */
  ghost predicate Predicts(cabin: SegmentCabin, n: Numerics, dcps: seq<int>, dtd: int, estimates: seq<Estimate>,
                           f: BookingClass -> real, g: BookingClass -> real)
    requires |estimates| == |cabin.families|
    reads cabin.families`frat5, MembersOf(cabin.families)`unitYield
  {
    forall i | 0 <= i < |cabin.families| ::
      PredictsFamily(cabin.families[i], InputOf(cabin.families[i]), n, dcps, dtd, estimates[i], f, g)
  }

  ghost predicate PredictsFamily(family: FareFamily, input: FamilyInput, n: Numerics, dcps: seq<int>, dtd: int,
                                 estimate: Estimate, f: BookingClass -> real, g: BookingClass -> real)
  {
    && CanForecast(input.ys, input.frat5, dcps, dtd, n) && dcps != [] && |family.classes| == |input.ys|
    && forall a | 0 <= a < |family.classes| ::
         && f(family.classes[a]) == GivenMean(n, input.ys, input.frat5, dcps, dtd, estimate, a, |dcps| - 1)
         && g(family.classes[a]) == GivenVariance(n, input.ys, input.frat5, dcps, dtd, estimate, a, |dcps| - 1)
  }

  /** The class is at position `a` of family `i`. */
  ghost predicate IsAt(families: seq<FareFamily>, c: BookingClass, i: nat, a: nat) {
    i < |families| && a < |families[i].classes| && families[i].classes[a] == c
  }

  ghost predicate IsSomewhere(families: seq<FareFamily>, c: BookingClass) {
    exists i: nat, a: nat :: IsAt(families, c, i, a)
  }

  /** Mean and variance that the intervals give to a class, wherever it is in the cabin. */
  ghost function PredictedForecast(cabin: SegmentCabin, n: Numerics, dcps: seq<int>, dtd: int,
                                   estimates: seq<Estimate>, c: BookingClass): (real, real)
    requires CanForecastCabin(cabin, n, dcps, dtd, estimates) && IsSomewhere(cabin.families, c)
    reads cabin.families`frat5, MembersOf(cabin.families)`unitYield
  {
    var i: nat, a: nat :| IsAt(cabin.families, c, i, a);
    var ys := YieldsOf(cabin.families[i].classes);
    (GivenMean(n, ys, cabin.families[i].frat5, dcps, dtd, estimates[i], a, |dcps| - 1),
     GivenVariance(n, ys, cabin.families[i].frat5, dcps, dtd, estimates[i], a, |dcps| - 1))
  }

  lemma OnlyAt(cabin: SegmentCabin, c: BookingClass, i: nat, a: nat, j: nat, b: nat)
    requires DistinctCodes(Grid(cabin.families)) && IsAt(cabin.families, c, i, a) && IsAt(cabin.families, c, j, b)
    ensures i == j && a == b
  {
    var grid := Grid(cabin.families);
    assert grid[i][a] == grid[j][b] == c;
  }

  lemma PredictedAt(cabin: SegmentCabin, n: Numerics, dcps: seq<int>, dtd: int, estimates: seq<Estimate>,
                    i: nat, a: nat)
    requires CanForecastCabin(cabin, n, dcps, dtd, estimates) && DistinctCodes(Grid(cabin.families))
    requires i < |cabin.families| && a < |cabin.families[i].classes|
    ensures var family := cabin.families[i];
      && IsAt(cabin.families, family.classes[a], i, a)
      && CanForecast(YieldsOf(family.classes), family.frat5, dcps, dtd, n)
      && PredictedForecast(cabin, n, dcps, dtd, estimates, family.classes[a])
        == (GivenMean(n, YieldsOf(family.classes), family.frat5, dcps, dtd, estimates[i], a, |dcps| - 1),
            GivenVariance(n, YieldsOf(family.classes), family.frat5, dcps, dtd, estimates[i], a, |dcps| - 1))
  {
    hide CanForecast, GivenMean, GivenVariance, DistinctCodes;
    var c := cabin.families[i].classes[a];
    assert IsAt(cabin.families, c, i, a);
    forall j: nat, b: nat | IsAt(cabin.families, c, j, b)
      ensures i == j && a == b
    {
      OnlyAt(cabin, c, i, a, j, b);
    }
  }

  lemma MemberAt(cabin: SegmentCabin, c: BookingClass)
    ensures c in MembersOf(cabin.families) <==> IsSomewhere(cabin.families, c)
  {
    if c in MembersOf(cabin.families) {
      var i, a :| 0 <= i < |cabin.families| && 0 <= a < |cabin.families[i].classes|
        && cabin.families[i].classes[a] == c;
      assert IsAt(cabin.families, c, i, a);
    }
  }

  lemma FamilyPredicted(cabin: SegmentCabin, n: Numerics, dcps: seq<int>, dtd: int, estimates: seq<Estimate>,
                        f: BookingClass -> real, g: BookingClass -> real, i: nat)
    requires CanForecastCabin(cabin, n, dcps, dtd, estimates) && DistinctCodes(Grid(cabin.families))
    requires forall c | IsSomewhere(cabin.families, c) ::
      (f(c), g(c)) == PredictedForecast(cabin, n, dcps, dtd, estimates, c)
    requires i < |cabin.families|
    ensures PredictsFamily(cabin.families[i], InputOf(cabin.families[i]), n, dcps, dtd, estimates[i], f, g)
  {
    CabinInputs(cabin, n, dcps, dtd, estimates);
    hide CanForecastCabin, CanForecast, GivenMean, GivenVariance, DistinctCodes, IsAt, PredictedForecast;
    var family := cabin.families[i];
    forall a | 0 <= a < |family.classes|
      ensures (f(family.classes[a]), g(family.classes[a])) == (
        GivenMean(n, YieldsOf(family.classes), family.frat5, dcps, dtd, estimates[i], a, |dcps| - 1),
        GivenVariance(n, YieldsOf(family.classes), family.frat5, dcps, dtd, estimates[i], a, |dcps| - 1))
    {
      PredictedAt(cabin, n, dcps, dtd, estimates, i, a);
    }
  }

  lemma ForecastsTabulated(cabin: SegmentCabin, n: Numerics, dcps: seq<int>, dtd: int, estimates: seq<Estimate>)
    returns (f: BookingClass -> real, g: BookingClass -> real)
    requires CanForecastCabin(cabin, n, dcps, dtd, estimates)
    ensures forall c | IsSomewhere(cabin.families, c) ::
      (f(c), g(c)) == PredictedForecast(cabin, n, dcps, dtd, estimates, c)
  {
    hide *;
    forall c
      ensures c in MembersOf(cabin.families) <==> IsSomewhere(cabin.families, c)
    {
      MemberAt(cabin, c);
    }
    var means := map c | c in MembersOf(cabin.families) :: PredictedForecast(cabin, n, dcps, dtd, estimates, c).0;
    var variances := map c | c in MembersOf(cabin.families) :: PredictedForecast(cabin, n, dcps, dtd, estimates, c).1;
    f, g := Lookup<BookingClass>(means), Lookup<BookingClass>(variances);
    forall c | c in MembersOf(cabin.families)
      ensures f(c) == means[c] && g(c) == variances[c]
    {
      LookupAt<BookingClass>(means, c);
      LookupAt<BookingClass>(variances, c);
    }
  }

  /** With distinct codes there is such a prediction. */
  lemma PredictionExists(cabin: SegmentCabin, n: Numerics, dcps: seq<int>, dtd: int, estimates: seq<Estimate>)
    returns (f: BookingClass -> real, g: BookingClass -> real)
    requires CanForecastCabin(cabin, n, dcps, dtd, estimates) && DistinctCodes(Grid(cabin.families))
    ensures |estimates| == |cabin.families| && Predicts(cabin, n, dcps, dtd, estimates, f, g)
  {
    hide *;
    CabinInputs(cabin, n, dcps, dtd, estimates);
    f, g := ForecastsTabulated(cabin, n, dcps, dtd, estimates);
    forall i | 0 <= i < |cabin.families|
      ensures PredictsFamily(cabin.families[i], InputOf(cabin.families[i]), n, dcps, dtd, estimates[i], f, g)
    {
      FamilyPredicted(cabin, n, dcps, dtd, estimates, f, g, i);
    }
    PredictsIs(cabin, n, dcps, dtd, estimates, f, g);
  }

  lemma PredictsIs(cabin: SegmentCabin, n: Numerics, dcps: seq<int>, dtd: int, estimates: seq<Estimate>,
                   f: BookingClass -> real, g: BookingClass -> real)
    requires |estimates| == |cabin.families|
    requires forall i | 0 <= i < |cabin.families| ::
      PredictsFamily(cabin.families[i], InputOf(cabin.families[i]), n, dcps, dtd, estimates[i], f, g)
    ensures Predicts(cabin, n, dcps, dtd, estimates, f, g)
  {
    hide PredictsFamily;
  }

  /** The demand and revenue of a policy when its demand is that of its open classes. */
  ghost function PredictedPoint(grid: seq<seq<BookingClass>>, policy: Policy, f: BookingClass -> real): Point
    requires Shaped(grid, policy.classes)
    reads policy`totalRevenue
  {
    Point(Total(OpenSet(grid, LevelsOf(grid, policy.classes)), f), policy.totalRevenue)
  }

  ghost function PredictedPoints(grid: seq<seq<BookingClass>>, policies: seq<Policy>, f: BookingClass -> real)
    : (pts: seq<Point>)
    requires forall k | 0 <= k < |policies| :: Shaped(grid, policies[k].classes)
    reads policies`totalRevenue
    ensures |pts| == |policies|
    ensures forall k | 0 <= k < |pts| :: pts[k] == PredictedPoint(grid, policies[k], f)
  {
    hide PredictedPoint, Shaped;
    if policies == [] then []
    else
      PredictedPoints(grid, policies[..|policies| - 1], f)
      + [PredictedPoint(grid, policies[|policies| - 1], f)]
  }

  /** The variances of the policies when each is that of the open classes. */
  ghost function PredictedVariances(grid: seq<seq<BookingClass>>, policies: seq<Policy>, g: BookingClass -> real)
    : (vs: seq<real>)
    requires forall k | 0 <= k < |policies| :: Shaped(grid, policies[k].classes)
    ensures |vs| == |policies|
    ensures forall k | 0 <= k < |vs| :: vs[k] == Total(OpenSet(grid, LevelsOf(grid, policies[k].classes)), g)
  {
    hide Shaped, OpenSet, LevelsOf, Total;
    if policies == [] then []
    else
      PredictedVariances(grid, policies[..|policies| - 1], g)
      + [Total(OpenSet(grid, LevelsOf(grid, policies[|policies| - 1].classes)), g)]
  }

  lemma PredictionHolds(cabin: SegmentCabin, inputs: seq<FamilyInput>, n: Numerics, dcps: seq<int>, dtd: int,
                        estimates: seq<Estimate>, f: BookingClass -> real, g: BookingClass -> real, c: BookingClass)
    requires |inputs| == |estimates| == |cabin.families|
    requires ClassesGiven(CabinForecasts(cabin.families), inputs, n, dcps, dtd, estimates)
    requires forall i | 0 <= i < |inputs| ::
      PredictsFamily(cabin.families[i], inputs[i], n, dcps, dtd, estimates[i], f, g)
    requires c in AllClasses(Grid(cabin.families), |cabin.families|)
    ensures f(c) == c.priceMean && g(c) == c.priceVariance
  {
    hide AllClasses, CanForecast, GivenMean, GivenVariance;
    var i, a := ClassesOfGrid(cabin, |cabin.families|, c);
    assert FamilyGiven(ForecastsOf(cabin.families[i]), inputs[i], n, dcps, dtd, estimates[i]);
    assert PredictsFamily(cabin.families[i], inputs[i], n, dcps, dtd, estimates[i], f, g);
  }

  lemma OpenInCabin(cabin: SegmentCabin, classes: seq<BookingClass>, k: nat)
    requires Shaped(Grid(cabin.families), classes)
    requires k < |OpenSet(Grid(cabin.families), LevelsOf(Grid(cabin.families), classes))|
    ensures OpenSet(Grid(cabin.families), LevelsOf(Grid(cabin.families), classes))[k]
      in AllClasses(Grid(cabin.families), |cabin.families|)
  {
    hide Open, OpenSet, AllClasses, LevelsOf, Shaped;
    var grid := Grid(cabin.families);
    var open := OpenSet(grid, LevelsOf(grid, classes));
    OpenWithinAll<BookingClass>(grid, LevelsOf(grid, classes));
    InWhole<BookingClass>(open, AllClasses(grid, |grid|), open[k]);
  }

  lemma InWhole<T>(s: seq<T>, t: seq<T>, x: T)
    requires multiset(s) <= multiset(t) && x in s
    ensures x in t
  {
    assert x in multiset(s);
    assert x in multiset(t);
  }

  lemma PredictedDemand(cabin: SegmentCabin, policy: Policy, f: BookingClass -> real, g: BookingClass -> real)
    requires CabinForecast(cabin) && policy in cabin.policies && Shaped(Grid(cabin.families), policy.classes)
    requires forall c | c in AllClasses(Grid(cabin.families), |cabin.families|) ::
      f(c) == c.priceMean && g(c) == c.priceVariance
    ensures var open := OpenSet(Grid(cabin.families), LevelsOf(Grid(cabin.families), policy.classes));
      policy.demand == Total(open, f) && policy.variance == Total(open, g)
  {
    hide Sum, PriceMeans, PriceVariances, Open, OpenSet, CabinForecast, AllClasses, Shaped, LevelsOf, Total;
    PolicyDemandIsOpenDemand(cabin, policy);
    LevelsFit(Grid(cabin.families), policy.classes);
    var open := OpenSet(Grid(cabin.families), LevelsOf(Grid(cabin.families), policy.classes));
    forall k | 0 <= k < |open|
      ensures f(open[k]) == open[k].priceMean && g(open[k]) == open[k].priceVariance
    {
      OpenInCabin(cabin, policy.classes, k);
    }
    PricesAre(open, f, g);
  }

  /** After the forecast the policies are where the prediction puts them. */
  lemma PointsPredicted(cabin: SegmentCabin, f: BookingClass -> real, g: BookingClass -> real)
    requires ValidCabin(cabin) && CabinForecast(cabin)
    requires forall c | c in AllClasses(Grid(cabin.families), |cabin.families|) ::
      f(c) == c.priceMean && g(c) == c.priceVariance
    ensures Points(cabin.policies) == PredictedPoints(Grid(cabin.families), cabin.policies, f)
    ensures VariancesOf(cabin.policies) == PredictedVariances(Grid(cabin.families), cabin.policies, g)
  {
    hide CabinForecast, AllClasses, Shaped, LevelsOf, Total, OpenSet, DistinctCodes;
    var grid := Grid(cabin.families);
    forall k | 0 <= k < |cabin.policies|
      ensures Points(cabin.policies)[k] == PredictedPoints(grid, cabin.policies, f)[k]
      ensures VariancesOf(cabin.policies)[k] == PredictedVariances(grid, cabin.policies, g)[k]
    {
      PredictedDemand(cabin, cabin.policies[k], f, g);
    }
  }

  // ---- The run of the forecast.

  /** What the forecast of a cabin asks: an estimate for every family, and curves and yields that give shares. */
  ghost predicate CanForecastCabin(cabin: SegmentCabin, n: Numerics, dcps: seq<int>, dtd: int, estimates: seq<Estimate>)
    reads cabin.families`frat5, MembersOf(cabin.families)`unitYield
  {
    && |estimates| == |cabin.families|
    && (forall i | 0 <= i < |cabin.families| ::
          && cabin.families[i].classes != []
          && CanForecast(YieldsOf(cabin.families[i].classes), cabin.families[i].frat5, dcps, dtd, n))
  }

  lemma ZeroedCabin(cabin: SegmentCabin)
    requires forall i | 0 <= i < |cabin.families| :: ZeroFamily(cabin.families[i])
    requires Rearranges(cabin.classes, FamilyClasses(cabin.families))
    ensures forall i | 0 <= i < |cabin.families| :: FamilyAgrees(cabin.families[i])
    ensures forall c | c in cabin.classes :: c.mean == 0.0
  {
    hide Rearranges, AllClasses, Agrees;
    forall i | 0 <= i < |cabin.families|
      ensures FamilyAgrees(cabin.families[i])
    {
      ZeroFamilyAgrees(cabin.families[i]);
    }
    forall c | c in cabin.classes
      ensures c.mean == 0.0
    {
      RearrangesEntry<BookingClass>(cabin.classes, FamilyClasses(cabin.families), c);
      var i, a := ClassesOfGrid(cabin, |cabin.families|, c);
      assert ZeroFamily(cabin.families[i]) && ZeroClass(cabin.families[i].classes[a]);
    }
  }

  lemma ZeroForecasts(cabin: SegmentCabin, i: nat, c: nat)
    requires i < |cabin.families| && ZeroFamily(cabin.families[i]) && c < |cabin.families[i].classes|
    ensures var s := CabinForecasts(cabin.families)[i];
      && |s.priceMeans| == |s.priceVariances| == |cabin.families[i].classes|
      && s.priceMeans[c] == s.priceVariances[c] == 0.0
  {
    assert ZeroClass(cabin.families[i].classes[c]);
  }

  /** All families start from zero forecasts. */
  ghost predicate AllZero(inputs: seq<FamilyInput>, before: seq<Forecasts>)
    requires |inputs| == |before|
  {
    && (forall i | 0 <= i < |inputs| :: |before[i].priceMeans| == |before[i].priceVariances| == |inputs[i].ys|)
    && (forall i, c | 0 <= i < |inputs| && 0 <= c < |inputs[i].ys| ::
          before[i].priceMeans[c] == before[i].priceVariances[c] == 0.0)
  }

  lemma ZeroedStart(cabin: SegmentCabin)
    requires forall i | 0 <= i < |cabin.families| :: ZeroFamily(cabin.families[i])
    ensures AllZero(InputsOf(cabin.families), CabinForecasts(cabin.families))
  {
    hide ZeroFamily;
    var inputs, before := InputsOf(cabin.families), CabinForecasts(cabin.families);
    forall i, c | 0 <= i < |inputs| && 0 <= c < |inputs[i].ys|
      ensures c < |before[i].priceMeans| && c < |before[i].priceVariances|
      ensures before[i].priceMeans[c] == before[i].priceVariances[c] == 0.0
    {
      ZeroForecasts(cabin, i, c);
    }
  }

  lemma FamilyFromZero(family: FareFamily, input: FamilyInput, n: Numerics, dcps: seq<int>, dtd: int,
                       estimate: Estimate, s: Forecasts)
    requires input == InputOf(family) && GainedAll(input, n, dcps, dtd, estimate, s, ForecastsOf(family))
    requires |s.priceMeans| == |s.priceVariances| == |input.ys|
    requires forall c: nat | c < |input.ys| :: s.priceMeans[c] == s.priceVariances[c] == 0.0
    ensures FamilyGiven(ForecastsOf(family), input, n, dcps, dtd, estimate)
    ensures EstimateVaries(dcps, dtd, estimate) ==> ForecastVaries(family)
  {
    hide CanForecast, GivenMean, GivenVariance, Gained, IsDispatched, NotNegative, SomeDemand, SomeVariance;
    forall a: nat | a < |family.classes|
      ensures family.classes[a].priceMean == GivenMean(n, input.ys, input.frat5, dcps, dtd, estimate, a, |dcps| - 1)
      ensures family.classes[a].priceVariance
        == GivenVariance(n, input.ys, input.frat5, dcps, dtd, estimate, a, |dcps| - 1)
      ensures EstimateVaries(dcps, dtd, estimate) ==> ClassVaries(family.classes[a])
    {
      GainedFromZero(input, n, dcps, dtd, estimate, s, ForecastsOf(family), a);
    }
  }

  lemma ForecastGives(cabin: SegmentCabin, inputs: seq<FamilyInput>, before: seq<Forecasts>, n: Numerics,
                      dcps: seq<int>, dtd: int, estimates: seq<Estimate>)
    requires |inputs| == |before| == |estimates| == |cabin.families| && AllZero(inputs, before)
    requires forall i | 0 <= i < |inputs| :: inputs[i] == InputOf(cabin.families[i])
    requires ForecastUpTo(inputs, n, dcps, dtd, estimates, before, CabinForecasts(cabin.families), |inputs|)
    ensures ClassesGiven(CabinForecasts(cabin.families), inputs, n, dcps, dtd, estimates)
    ensures EstimatesVary(dcps, dtd, estimates) ==> ForecastsVary(cabin)
  {
    hide EstimateVaries, ForecastUpTo, GainedAll, FamilyGiven, ForecastVaries, InputOf, ForecastsOf;
    forall i | 0 <= i < |cabin.families|
      ensures EstimateVaries(dcps, dtd, estimates[i]) ==> ForecastVaries(cabin.families[i])
      ensures FamilyGiven(ForecastsOf(cabin.families[i]), inputs[i], n, dcps, dtd, estimates[i])
    {
      UpToAt(inputs, n, dcps, dtd, estimates, before, CabinForecasts(cabin.families), |inputs|, i);
      FamilyFromZero(cabin.families[i], inputs[i], n, dcps, dtd, estimates[i], before[i]);
    }
  }

  lemma CabinInputs(cabin: SegmentCabin, n: Numerics, dcps: seq<int>, dtd: int, estimates: seq<Estimate>)
    requires CanForecastCabin(cabin, n, dcps, dtd, estimates)
    ensures |estimates| == |cabin.families|
    ensures forall i | 0 <= i < |cabin.families| :: cabin.families[i].classes != []
    ensures forall i | 0 <= i < |cabin.families| ::
      CanForecast(YieldsOf(cabin.families[i].classes), cabin.families[i].frat5, dcps, dtd, n)
    ensures forall i | 0 <= i < |cabin.families| :: InputsOf(cabin.families)[i] == InputOf(cabin.families[i])
  {
    hide CanForecast;
  }

  lemma InputsAre(cabin: SegmentCabin, inputs: seq<FamilyInput>)
    requires |inputs| == |cabin.families| && inputs == InputsOf(cabin.families)
    ensures forall i | 0 <= i < |inputs| :: inputs[i] == InputOf(cabin.families[i])
  {
    hide InputOf;
  }

  lemma ValidGrid(cabin: SegmentCabin)
    requires ValidCabin(cabin)
    ensures DistinctCodes(Grid(cabin.families))
    ensures FamilyClasses(cabin.families) == AllClasses(Grid(cabin.families), |cabin.families|)
  {
  }

  lemma CabinForecastIs(cabin: SegmentCabin)
    requires forall i | 0 <= i < |cabin.families| :: FamilyAgrees(cabin.families[i])
    requires forall i | 0 <= i < |cabin.policies| :: PolicyForecast(cabin.policies[i])
    ensures CabinForecast(cabin)
  {
  }

  method ZeroForecast(cabin: SegmentCabin)
    requires Rearranges(cabin.classes, FamilyClasses(cabin.families))
    modifies cabin.families`mean, cabin.families`variance
    modifies MembersOf(cabin.families)`mean, MembersOf(cabin.families)`variance,
      MembersOf(cabin.families)`priceMean, MembersOf(cabin.families)`priceVariance,
      MembersOf(cabin.families)`productMean, MembersOf(cabin.families)`productVariance,
      MembersOf(cabin.families)`cumuMean, MembersOf(cabin.families)`cumuVariance
    ensures InputsOf(cabin.families) == old(InputsOf(cabin.families))
    ensures AllZero(InputsOf(cabin.families), CabinForecasts(cabin.families))
    ensures forall i | 0 <= i < |cabin.families| :: FamilyAgrees(cabin.families[i])
    ensures forall c | c in cabin.classes :: c.mean == 0.0
  {
    hide *;
    SetDemandForecastsToZero(cabin);
    ZeroedCabin(cabin);
    ZeroedStart(cabin);
  }

  /**
   * Resets the forecasts of a cabin and forecasts it anew. The means of the
   * classes are zero then, as the transformation needs them, and every class has
   * the forecast that the intervals give it. With estimates that vary, the nested
   * hull meets the assertions of the adjustment unless one of its steps falls
   * back, which takes three families.
   */
  method ForecastCabin(cabin: SegmentCabin, n: Numerics, dcps: seq<int>, dtd: int, estimates: seq<Estimate>)
    requires ValidCabin(cabin) && Rearranges(cabin.classes, FamilyClasses(cabin.families))
    requires CanForecastCabin(cabin, n, dcps, dtd, estimates)
    modifies cabin.families`mean, cabin.families`variance
    modifies MembersOf(cabin.families)`mean, MembersOf(cabin.families)`variance,
      MembersOf(cabin.families)`priceMean, MembersOf(cabin.families)`priceVariance,
      MembersOf(cabin.families)`productMean, MembersOf(cabin.families)`productVariance,
      MembersOf(cabin.families)`cumuMean, MembersOf(cabin.families)`cumuVariance
    modifies cabin.classes`priceMean, cabin.classes`priceVariance, cabin.classes`cumuMean, cabin.classes`cumuVariance
    modifies cabin.policies`demand, cabin.policies`variance
    ensures CabinForecast(cabin)
    ensures forall c | c in cabin.classes :: c.mean == 0.0
    ensures |estimates| == |cabin.families|
    ensures ClassesGiven(CabinForecasts(cabin.families), old(InputsOf(cabin.families)), n, dcps, dtd, estimates)
    ensures EstimatesVary(dcps, dtd, estimates) ==>
      && ForecastsVary(cabin)
      && (StepsAreClean(cabin) <==> HullNeverFallsBack(cabin))
      && (|cabin.families| <= 2 ==> StepsAreClean(cabin))
  {
    hide *;
    ghost var inputs := InputsOf(cabin.families);
    CabinInputs(cabin, n, dcps, dtd, estimates);
    ValidGrid(cabin);
    ZeroForecast(cabin);
    ghost var before := CabinForecasts(cabin.families);
    InputsAre(cabin, inputs);
    Forecast(cabin, n, dcps, dtd, estimates);
    CabinForecastIs(cabin);
    ForecastGives(cabin, inputs, before, n, dcps, dtd, estimates);
    if EstimatesVary(dcps, dtd, estimates) {
      ForecastMeetsAssertions(cabin);
    }
  }

  twostate predicate FamilyUntouched(family: FareFamily)
    reads family`mean, family`variance
    reads family.classes`priceMean, family.classes`priceVariance, family.classes`cumuMean, family.classes`cumuVariance
  {
    && family.mean == old(family.mean) && family.variance == old(family.variance)
    && forall a | 0 <= a < |family.classes| ::
         && family.classes[a].priceMean == old(family.classes[a].priceMean)
         && family.classes[a].priceVariance == old(family.classes[a].priceVariance)
         && family.classes[a].cumuMean == old(family.classes[a].cumuMean)
         && family.classes[a].cumuVariance == old(family.classes[a].cumuVariance)
  }

  twostate predicate PolicyUntouched(policy: Policy)
    reads policy`demand, policy`variance, policy.classes`cumuMean, policy.classes`cumuVariance
  {
    && policy.demand == old(policy.demand) && policy.variance == old(policy.variance)
    && forall a | 0 <= a < |policy.classes| ::
         && policy.classes[a].cumuMean == old(policy.classes[a].cumuMean)
         && policy.classes[a].cumuVariance == old(policy.classes[a].cumuVariance)
  }

  twostate lemma FieldsUntouched(cabin: SegmentCabin)
    requires forall i | 0 <= i < |cabin.families| :: var family := cabin.families[i];
      && family.mean == old(family.mean) && family.variance == old(family.variance)
      && forall a | 0 <= a < |family.classes| :: var c := family.classes[a];
           && c.priceMean == old(c.priceMean) && c.priceVariance == old(c.priceVariance)
           && c.cumuMean == old(c.cumuMean) && c.cumuVariance == old(c.cumuVariance)
    requires forall i | 0 <= i < |cabin.policies| :: var policy := cabin.policies[i];
      && policy.demand == old(policy.demand) && policy.variance == old(policy.variance)
      && forall a | 0 <= a < |policy.classes| :: var c := policy.classes[a];
           c.cumuMean == old(c.cumuMean) && c.cumuVariance == old(c.cumuVariance)
    ensures forall i | 0 <= i < |cabin.families| :: FamilyUntouched(cabin.families[i])
    ensures forall i | 0 <= i < |cabin.policies| :: PolicyUntouched(cabin.policies[i])
  {
  }

  /** What leaves the forecasts alone leaves them forecasts. */
  twostate lemma ForecastKept(cabin: SegmentCabin)
    requires forall i | 0 <= i < |cabin.families| :: FamilyUntouched(cabin.families[i])
    requires forall i | 0 <= i < |cabin.policies| :: PolicyUntouched(cabin.policies[i])
    ensures CabinForecasts(cabin.families) == old(CabinForecasts(cabin.families))
    ensures old(CabinForecast(cabin)) ==> CabinForecast(cabin)
  {
    hide Agrees, Sum, CumuMeans, CumuVariances, PriceMeans, PriceVariances;
    forall i | 0 <= i < |cabin.families|
      ensures ForecastsOf(cabin.families[i]) == old(ForecastsOf(cabin.families[i]))
    {
    }
    if old(CabinForecast(cabin)) {
      forall i | 0 <= i < |cabin.families|
        ensures FamilyAgrees(cabin.families[i])
      {
        assert old(FamilyAgrees(cabin.families[i]));
      }
      forall i | 0 <= i < |cabin.policies|
        ensures PolicyForecast(cabin.policies[i])
      {
        assert old(PolicyForecast(cabin.policies[i]));
      }
    }
  }

  /** The virtual classes carry in total the forecasts of exactly the classes that the policy opens. */
  ghost predicate CarriesForecast(cabin: SegmentCabin, policy: Policy, levels: seq<int>)
    requires Shaped(Grid(cabin.families), policy.classes)
    reads cabin.classes`mean, cabin.classes`variance, cabin.classes`adjustedYield
    reads OpenSet(Grid(cabin.families), LevelsOf(Grid(cabin.families), policy.classes))`priceMean
    reads OpenSet(Grid(cabin.families), LevelsOf(Grid(cabin.families), policy.classes))`priceVariance
  {
    var open := OpenSet(Grid(cabin.families), LevelsOf(Grid(cabin.families), policy.classes));
    && OverLevels(Rows(cabin.classes), levels, RowMean) == Sum(PriceMeans(open))
    && OverLevels(Rows(cabin.classes), levels, RowVariance) == Sum(PriceVariances(open))
  }

  /** When every yield rounds up, these are the classes that the last hull policy opens. */
  lemma VirtualClassesCarryForecast(cabin: SegmentCabin, chain: seq<nat>, levels: seq<int>)
    requires ValidCabin(cabin) && CabinForecast(cabin)
    requires HullAt(cabin, chain) && IsHull(Points(cabin.policies), CabinFilter(cabin), chain)
    requires cabin.hull != [] && Rising(cabin.hull) && AllRoundUp(Edges(cabin.hull))
    requires Conserves(cabin, cabin.hull, levels)
    ensures Shaped(Grid(cabin.families), cabin.hull[|cabin.hull| - 1].classes)
    ensures CarriesForecast(cabin, cabin.hull[|cabin.hull| - 1], levels)
  {
    hide *;
    HullEnds(cabin, chain);
    PolicyDemandIsOpenDemand(cabin, cabin.hull[|cabin.hull| - 1]);
    NoDemand(cabin, cabin.hull[0]);
    AllConserved(cabin, levels);
    CarriesIs(cabin, cabin.hull[|cabin.hull| - 1], levels);
  }

  lemma AllConserved(cabin: SegmentCabin, levels: seq<int>)
    requires cabin.hull != [] && Rising(cabin.hull) && AllRoundUp(Edges(cabin.hull))
    requires Conserves(cabin, cabin.hull, levels)
    ensures var first, last := cabin.hull[0], cabin.hull[|cabin.hull| - 1];
      && OverLevels(Rows(cabin.classes), levels, RowMean) == last.demand - first.demand
      && OverLevels(Rows(cabin.classes), levels, RowVariance) == last.variance - first.variance
  {
    hide OverLevels, Edges, Rising, AllRoundUp, Near;
  }

  lemma CarriesIs(cabin: SegmentCabin, policy: Policy, levels: seq<int>)
    requires Shaped(Grid(cabin.families), policy.classes)
    requires var open := OpenSet(Grid(cabin.families), LevelsOf(Grid(cabin.families), policy.classes));
      && OverLevels(Rows(cabin.classes), levels, RowMean) == Sum(PriceMeans(open))
      && OverLevels(Rows(cabin.classes), levels, RowVariance) == Sum(PriceVariances(open))
    ensures CarriesForecast(cabin, policy, levels)
  {
    hide OverLevels, Shaped, LevelsOf, OpenSet, Sum;
  }

  /** The hull starts with the empty policy and ends with a policy of the cabin. */
  lemma HullEnds(cabin: SegmentCabin, chain: seq<nat>)
    requires ValidCabin(cabin) && HullAt(cabin, chain)
    requires IsHull(Points(cabin.policies), CabinFilter(cabin), chain)
    ensures cabin.hull != [] && cabin.hull[0] in cabin.policies && cabin.hull[0].classes == []
    ensures var last := cabin.hull[|cabin.hull| - 1];
      last in cabin.policies && Shaped(Grid(cabin.families), last.classes)
  {
    hide CabinFilter, DistinctCodes, Shaped, IsNext, IsLast;
  }

  lemma NoDemand(cabin: SegmentCabin, policy: Policy)
    requires CabinForecast(cabin) && policy in cabin.policies && policy.classes == []
    ensures policy.demand == policy.variance == 0.0
  {
    assert PolicyForecast(policy);
  }
}
