/**
 * The run over a segment-cabin and the leg-cabin below it: the transformation of
 * the forecast policies, then the optimisation.
 */
module FlightRun {
  import opened Sequences
  import opened Inventory
  import opened ConvexHull
  import opened Nesting
  import opened NestedSlopes
  import opened PolicyHelper
  import opened MarginalRevenueTransformation
  import opened HullConservation
  import opened DemandCurves
  import opened Utilities
  import opened NewQFF
  import opened PolicyDemand
  import opened ForecastRun
  import VirtualClasses
  import opened Pipeline
  import MCOptimiser
  import opened LegOptimisation
  import Emsr
  import Optimiser
  import BidPriceBands
  import BidPriceTheorems

  /** The falling, positive levels to which the slopes of a hull round. */
  ghost predicate HullYieldLevels(pts: seq<Point>, allowed: Filter, h: seq<nat>, levels: seq<int>)
    requires IsChain(pts, allowed, h)
  {
    && (forall i, j | 0 <= i < j < |levels| :: levels[i] > levels[j])
    && (forall level :: level in levels <==> level > 0 && SlopeRoundsTo(pts, allowed, h, level))
  }

  ghost predicate SlopeRoundsTo(pts: seq<Point>, allowed: Filter, h: seq<nat>, level: int)
    requires IsChain(pts, allowed, h)
  {
    exists k: nat :: k + 1 < |h| && VirtualClasses.RoundedYield(EdgeSlope(pts, allowed, h, k)) == level
  }

  /** At the given demands and revenues the levels of the nested hull pass the assertions of the integration. */
  ghost predicate SlopesPassAt(cabin: SegmentCabin, pts: seq<Point>)
    requires ValidCabin(cabin)
  {
    var allowed := CabinFilter(cabin);
    forall h: seq<nat>, levels | IsHull(pts, allowed, h) && HullYieldLevels(pts, allowed, h, levels) && levels != [] ::
      LevelsPass(levels)
  }

  ghost predicate SlopesPass(cabin: SegmentCabin)
    requires ValidCabin(cabin)
    reads cabin.policies`demand, cabin.policies`totalRevenue
  {
    SlopesPassAt(cabin, Points(cabin.policies))
  }

  lemma EdgeYieldIsSlope(cabin: SegmentCabin, chain: seq<nat>, k: nat)
    requires ValidCabin(cabin) && HullAt(cabin, chain) && IsHull(Points(cabin.policies), CabinFilter(cabin), chain)
    requires Rising(cabin.hull) && k + 1 < |chain|
    ensures k < |Edges(cabin.hull)|
    ensures Edges(cabin.hull)[k].adjustedYield == EdgeSlope(Points(cabin.policies), CabinFilter(cabin), chain, k)
  {
    hide CabinFilter, ValidCabin, Edges, Rising, EdgeSlope, IsNext, IsLast;
    HullLength(cabin, chain);
    HullEdge(cabin, CabinFilter(cabin), chain, k);
  }

  lemma LevelFromSlope(cabin: SegmentCabin, chain: seq<nat>, level: int)
    requires ValidCabin(cabin) && HullAt(cabin, chain) && IsHull(Points(cabin.policies), CabinFilter(cabin), chain)
    requires Adjusted(cabin, cabin.hull) && level > 0
    requires SlopeRoundsTo(Points(cabin.policies), CabinFilter(cabin), chain, level)
    ensures VirtualClasses.Group(VirtualClasses.Rows(cabin.classes), level) != []
  {
    AdjustedHull(cabin, cabin.hull);
    hide CabinFilter, ValidCabin, Edges, Rising, EdgeSlope, IsHull, Adjusted, VirtualClasses.RoundedYield,
         VirtualClasses.Group;
    var k: nat :| k + 1 < |chain|
      && VirtualClasses.RoundedYield(EdgeSlope(Points(cabin.policies), CabinFilter(cabin), chain, k)) == level;
    EdgeYieldIsSlope(cabin, chain, k);
    var c := EdgeHasClass(cabin, cabin.hull, k);
    RowIn(cabin.classes, c);
    VirtualClasses.GroupEntries(VirtualClasses.Rows(cabin.classes), level, VirtualClasses.RowOf(c));
  }

  lemma SlopeFromLevel(cabin: SegmentCabin, chain: seq<nat>, level: int)
    requires ValidCabin(cabin) && HullAt(cabin, chain) && IsHull(Points(cabin.policies), CabinFilter(cabin), chain)
    requires Adjusted(cabin, cabin.hull)
    requires VirtualClasses.Group(VirtualClasses.Rows(cabin.classes), level) != []
    ensures level > 0 && SlopeRoundsTo(Points(cabin.policies), CabinFilter(cabin), chain, level)
  {
    AdjustedHull(cabin, cabin.hull);
    hide CabinFilter, ValidCabin, Edges, Rising, EdgeSlope, IsHull, Adjusted, VirtualClasses.RoundedYield,
         VirtualClasses.Group;
    var rows := VirtualClasses.Rows(cabin.classes);
    var r := VirtualClasses.Group(rows, level)[0];
    VirtualClasses.GroupEntries(rows, level, r);
    RowBelongs(cabin.classes, r);
    var k := LeadOf(cabin, cabin.hull, r.booking);
    EdgeYieldIsSlope(cabin, chain, k);
  }

  /** After the transformation the levels of the classes are those of the hull. */
  lemma AdjustedLevels(cabin: SegmentCabin, chain: seq<nat>, levels: seq<int>)
    requires ValidCabin(cabin) && HullAt(cabin, chain) && IsHull(Points(cabin.policies), CabinFilter(cabin), chain)
    requires Adjusted(cabin, cabin.hull)
    requires VirtualClasses.AreLevels(VirtualClasses.Rows(cabin.classes), levels)
    ensures HullYieldLevels(Points(cabin.policies), CabinFilter(cabin), chain, levels)
  {
    hide CabinFilter, ValidCabin, IsHull, Adjusted, SlopeRoundsTo, VirtualClasses.Group;
    HullIsChain(Points(cabin.policies), CabinFilter(cabin), chain);
    forall level
      ensures level in levels
        <==> level > 0 && SlopeRoundsTo(Points(cabin.policies), CabinFilter(cabin), chain, level)
    {
      if level in levels {
        SlopeFromLevel(cabin, chain, level);
      }
      if level > 0 && SlopeRoundsTo(Points(cabin.policies), CabinFilter(cabin), chain, level) {
        LevelFromSlope(cabin, chain, level);
      }
    }
  }

  lemma HullIsChain(pts: seq<Point>, allowed: Filter, h: seq<nat>)
    requires IsHull(pts, allowed, h)
    ensures IsChain(pts, allowed, h)
  {
  }

  /** After the transformation no class with demand has a negative yield. */
  lemma AdjustedYieldsAccepted(cabin: SegmentCabin)
    requires Adjusted(cabin, cabin.hull)
    ensures YieldsAccepted(cabin.classes)
  {
    AdjustedHull(cabin, cabin.hull);
    hide Adjusted, Edges, Rising;
    forall i | 0 <= i < |cabin.classes| && cabin.classes[i].mean > 0.0
      ensures cabin.classes[i].adjustedYield >= 0.0
    {
      var k := LeadOf(cabin, cabin.hull, cabin.classes[i]);
      EdgeHasDemand(cabin.hull, k);
    }
  }

  /** After the transformation every kept class has a positive variance. */
  lemma AdjustedRowsVary(cabin: SegmentCabin)
    requires Adjusted(cabin, cabin.hull)
    ensures KeptVary(VirtualClasses.Rows(cabin.classes))
  {
    AdjustedHull(cabin, cabin.hull);
    hide Adjusted, Edges, Rising, VirtualClasses.RoundedYield;
    forall r | r in VirtualClasses.Rows(cabin.classes) && VirtualClasses.Kept(r)
      ensures r.variance > 0.0
    {
      RowBelongs(cabin.classes, r);
      var k := LeadOf(cabin, cabin.hull, r.booking);
      EdgeVaries(cabin.hull, k);
    }
  }

  lemma EdgeVaries(hull: seq<Policy>, k: nat)
    requires Rising(hull) && k + 1 < |hull|
    ensures k < |Edges(hull)| && Edges(hull)[k].variance > 0.0
  {
    hide Edges;
    EdgeAt(hull, k);
    EdgeIs(hull[k], hull[k + 1]);
  }

  /** When the levels of the hull pass, those of the classes do. */
  lemma AdjustedYieldsPass(cabin: SegmentCabin, chain: seq<nat>)
    requires ValidCabin(cabin) && SlopesPass(cabin) && HullAt(cabin, chain)
    requires IsHull(Points(cabin.policies), CabinFilter(cabin), chain)
    requires Adjusted(cabin, cabin.hull)
    ensures YieldsPass(cabin.classes)
  {
    hide CabinFilter, ValidCabin, IsHull, HullAt, Adjusted, HullYieldLevels, LevelsPass, VirtualClasses.AreLevels;
    HullIsChain(Points(cabin.policies), CabinFilter(cabin), chain);
    forall levels | VirtualClasses.AreLevels(VirtualClasses.Rows(cabin.classes), levels) && levels != []
      ensures LevelsPass(levels)
    {
      AdjustedLevels(cabin, chain, levels);
    }
  }

  /** The virtual classes of a run that succeeds: one for every level, with the demand of the hull and with variance. */
  ghost predicate HoldsDemand(cabin: SegmentCabin, leg: LegCabin, levels: seq<int>)
    requires cabin.hull != [] && Rising(cabin.hull)
    reads cabin`hull, cabin.hull`demand, cabin.hull`variance, cabin.hull`totalRevenue, cabin.classes
    reads leg`virtualClasses, leg.virtualClasses
  {
    && leg.virtualClasses != []
    && Optimiser.ListHolds(leg.virtualClasses, VirtualClasses.Rows(cabin.classes), levels)
    && Conserves(cabin, cabin.hull, levels)
    && VariancesPositive(leg.virtualClasses)
  }

  /**
   * What a run leaves. It succeeds exactly when some yield of the hull rounds up,
   * and then the virtual classes hold the demand of the hull, and the leg has the
   * prices and protections of the integration of their demands, or the protections
   * of EMSR-b. In any case the nodes of the hull are built
   * and its classes adjusted.
   */
  ghost predicate Optimised(cabin: SegmentCabin, leg: LegCabin, how: OptimisationMethod, samples: Samples,
                            quantile: Emsr.Quantile, isSucceeded: bool, levels: seq<int>)
    reads cabin`hull, cabin`nodes, cabin.nodes
    reads cabin.hull`demand, cabin.hull`variance, cabin.hull`totalRevenue, cabin.classes
    reads leg, leg.virtualClasses
  {
    && cabin.hull != [] && Rising(cabin.hull)
    && (isSucceeded <==> SomeRoundsUp(Edges(cabin.hull)))
    && (isSucceeded ==> HoldsDemand(cabin, leg, levels))
    && (|cabin.hull| > 1 ==> NodesBuilt(cabin) && Adjusted(cabin, cabin.hull))
    && (isSucceeded && how.LegBasedMC? ==> Integrated(leg, samples))
    && (isSucceeded && how.LegBasedEmsrB? ==> ProtectedByEmsrB(leg, quantile))
  }

  lemma OptimisedIs(cabin: SegmentCabin, leg: LegCabin, how: OptimisationMethod, samples: Samples,
                    quantile: Emsr.Quantile, isSucceeded: bool, levels: seq<int>)
    requires cabin.hull != [] && Rising(cabin.hull)
    requires |cabin.hull| > 1 ==> NodesBuilt(cabin) && Adjusted(cabin, cabin.hull)
    requires isSucceeded <==> SomeRoundsUp(Edges(cabin.hull))
    requires isSucceeded ==> HoldsDemand(cabin, leg, levels)
    requires isSucceeded && how.LegBasedMC? ==> Integrated(leg, samples)
    requires isSucceeded && how.LegBasedEmsrB? ==> ProtectedByEmsrB(leg, quantile)
    ensures Optimised(cabin, leg, how, samples, quantile, isSucceeded, levels)
  {
    hide Rising, SomeRoundsUp, Edges, HoldsDemand, ProtectedByEmsrB, Integrated, NodesBuilt, Adjusted;
  }

  /**
   * From the forecast policies of a cabin to the controls of its leg. A run that
   * succeeds leaves virtual classes that carry the demand of the hull, and a
   * price for every seat (Monte-Carlo) or the protections of EMSR-b.
   */
  method PrepareAndOptimise(cabin: SegmentCabin, leg: LegCabin, how: OptimisationMethod, samples: Samples,
                            quantile: Emsr.Quantile)
    returns (isSucceeded: bool, ghost chain: seq<nat>, ghost levels: seq<int>)
    requires leg.classes == cabin.classes
    requires ValidCabin(cabin) && StepsAreClean(cabin)
    requires Rearranges(cabin.classes, FamilyClasses(cabin.families))
    requires forall c | c in cabin.classes :: c.mean == 0.0
    requires how.LegBasedMC? ==>
      && SlopesPass(cabin) && EnoughSamples(samples)
      && -BidPriceBands.INDEX_RANGE / 2 <= Trunc(leg.availabilityPool) < BidPriceBands.INDEX_RANGE / 2
    modifies cabin`hull, cabin`nodes, cabin.classes`mean, cabin.classes`variance, cabin.classes`adjustedYield
    modifies leg`virtualClasses, leg`bidPrices
    ensures forall i | 0 <= i < |cabin.families| :: FamilyUntouched(cabin.families[i])
    ensures forall i | 0 <= i < |cabin.policies| :: PolicyUntouched(cabin.policies[i])
    ensures HullAt(cabin, chain) && IsHull(Points(cabin.policies), CabinFilter(cabin), chain)
    ensures Optimised(cabin, leg, how, samples, quantile, isSucceeded, levels)
  {
    hide *;
    isSucceeded, chain := PrepareDemandInput(cabin);
    HullNotEmpty(cabin, chain);
    levels := [];
    if isSucceeded {
      RunCanStart(cabin, leg, how, samples, chain);
      isSucceeded, levels := Optimise(leg, how, samples, quantile);
      RunEnds(cabin, leg, levels);
    } else {
      NoEdgeRoundsUp(cabin.hull);
    }
    OptimisedIs(cabin, leg, how, samples, quantile, isSucceeded, levels);
    FieldsUntouched(cabin);
  }

  lemma RunCanStart(cabin: SegmentCabin, leg: LegCabin, how: OptimisationMethod, samples: Samples, chain: seq<nat>)
    requires leg.classes == cabin.classes && ValidCabin(cabin) && HullAt(cabin, chain)
    requires IsHull(Points(cabin.policies), CabinFilter(cabin), chain) && Adjusted(cabin, cabin.hull)
    requires how.LegBasedMC? ==>
      && SlopesPass(cabin) && EnoughSamples(samples)
      && -BidPriceBands.INDEX_RANGE / 2 <= Trunc(leg.availabilityPool) < BidPriceBands.INDEX_RANGE / 2
    ensures YieldsAccepted(leg.classes) && (how.LegBasedMC? ==> CanIntegrate(leg, samples))
  {
    hide *;
    AdjustedYieldsAccepted(cabin);
    if how.LegBasedMC? {
      AdjustedYieldsPass(cabin, chain);
      Accepted(leg, samples);
    }
  }

  lemma RunEnds(cabin: SegmentCabin, leg: LegCabin, levels: seq<int>)
    requires Adjusted(cabin, cabin.hull)
    requires Optimiser.ListHolds(leg.virtualClasses, VirtualClasses.Rows(cabin.classes), levels)
    ensures cabin.hull != [] && Rising(cabin.hull)
    ensures (exists r :: r in VirtualClasses.Rows(cabin.classes) && VirtualClasses.Kept(r))
      <==> SomeRoundsUp(Edges(cabin.hull))
    ensures SomeRoundsUp(Edges(cabin.hull)) ==> HoldsDemand(cabin, leg, levels)
  {
    var rows := VirtualClasses.Rows(cabin.classes);
    hide Adjusted, Rising, SomeRoundsUp, Edges, Optimiser.ListHolds, Conserves, VariancesPositive, VirtualClasses.Kept;
    ListLevels(leg.virtualClasses, rows, levels);
    Optimiser.ListNotEmpty(leg.virtualClasses, rows, levels);
    PipelineConserves(cabin, cabin.hull, levels);
    KeptFromEdges(cabin, cabin.hull);
    AdjustedRowsVary(cabin);
    VirtualClassesVary(leg.virtualClasses, rows, levels);
  }

  lemma HullNotEmpty(cabin: SegmentCabin, chain: seq<nat>)
    requires ValidCabin(cabin) && HullAt(cabin, chain)
    requires IsHull(Points(cabin.policies), CabinFilter(cabin), chain)
    ensures cabin.hull != []
  {
    hide CabinFilter, ValidCabin;
  }

  lemma NoEdgeRoundsUp(hull: seq<Policy>)
    requires |hull| <= 1
    ensures Rising(hull) && !SomeRoundsUp(Edges(hull))
  {
  }

  // ---- The whole run.

  /** The demand and revenue of the policies when `f` predicts the means of the classes. */
  ghost function PredictedPolicies(cabin: SegmentCabin, f: BookingClass -> real): seq<Point>
    requires ValidCabin(cabin)
    reads cabin.policies`totalRevenue
  {
    PredictedPoints(Grid(cabin.families), cabin.policies, f)
  }

  lemma PredictionIsPoints(cabin: SegmentCabin, inputs: seq<FamilyInput>, n: Numerics, dcps: seq<int>, dtd: int,
                           estimates: seq<Estimate>, f: BookingClass -> real, g: BookingClass -> real)
    requires ValidCabin(cabin) && CabinForecast(cabin)
    requires |inputs| == |estimates| == |cabin.families|
    requires ClassesGiven(CabinForecasts(cabin.families), inputs, n, dcps, dtd, estimates)
    requires forall i | 0 <= i < |inputs| ::
      PredictsFamily(cabin.families[i], inputs[i], n, dcps, dtd, estimates[i], f, g)
    ensures Points(cabin.policies) == PredictedPolicies(cabin, f)
    ensures VariancesOf(cabin.policies) == PredictedVariances(Grid(cabin.families), cabin.policies, g)
  {
    hide ValidCabin, CabinForecast, ClassesGiven, PredictsFamily, AllClasses, Points, VariancesOf, PredictedVariances;
    forall c | c in AllClasses(Grid(cabin.families), |cabin.families|)
      ensures f(c) == c.priceMean && g(c) == c.priceVariance
    {
      PredictionHolds(cabin, inputs, n, dcps, dtd, estimates, f, g, c);
    }
    PointsPredicted(cabin, f, g);
  }

  lemma PredictsAll(cabin: SegmentCabin, n: Numerics, dcps: seq<int>, dtd: int, estimates: seq<Estimate>,
                    f: BookingClass -> real, g: BookingClass -> real)
    requires |estimates| == |cabin.families| && Predicts(cabin, n, dcps, dtd, estimates, f, g)
    ensures forall i | 0 <= i < |cabin.families| ::
      PredictsFamily(cabin.families[i], InputsOf(cabin.families)[i], n, dcps, dtd, estimates[i], f, g)
  {
    hide PredictsFamily;
  }

  /**
   * What the assertions of the transformation ask of the demands and variances
   * that the estimates will give. With estimates that vary, it is enough that no
   * step of the nested hull falls back, or that there are two families at most.
   */
  ghost predicate CanTransform(cabin: SegmentCabin, dcps: seq<int>, dtd: int, estimates: seq<Estimate>,
                               f: BookingClass -> real, g: BookingClass -> real)
    requires ValidCabin(cabin)
    reads cabin.policies`totalRevenue
  {
    || StepsAreCleanAt(cabin, PredictedPolicies(cabin, f),
                       PredictedVariances(Grid(cabin.families), cabin.policies, g))
    || (&& EstimatesVary(dcps, dtd, estimates)
        && (|cabin.families| <= 2 || NeverFallsBackAt(cabin, PredictedPolicies(cabin, f))))
  }

  lemma CanTransformIs(cabin: SegmentCabin, dcps: seq<int>, dtd: int, estimates: seq<Estimate>,
                       f: BookingClass -> real, g: BookingClass -> real)
    requires ValidCabin(cabin) && CanTransform(cabin, dcps, dtd, estimates, f, g)
    requires Points(cabin.policies) == PredictedPolicies(cabin, f)
    requires VariancesOf(cabin.policies) == PredictedVariances(Grid(cabin.families), cabin.policies, g)
    requires EstimatesVary(dcps, dtd, estimates) ==>
      && (StepsAreClean(cabin) <==> HullNeverFallsBack(cabin)) && (|cabin.families| <= 2 ==> StepsAreClean(cabin))
    ensures StepsAreClean(cabin)
    ensures SlopesPass(cabin) <==> SlopesPassAt(cabin, PredictedPolicies(cabin, f))
  {
    hide ValidCabin, StepsAreCleanAt, NeverFallsBackAt, SlopesPassAt, EstimatesVary, PredictedPolicies, Points,
         VariancesOf, PredictedVariances;
  }

  /** The forecast puts the policies where the prediction puts them, so the transformation can go on. */
  method ForecastAsPredicted(cabin: SegmentCabin, n: Numerics, dcps: seq<int>, dtd: int, estimates: seq<Estimate>,
                             ghost f: BookingClass -> real, ghost g: BookingClass -> real)
    requires ValidCabin(cabin) && Rearranges(cabin.classes, FamilyClasses(cabin.families))
    requires CanForecastCabin(cabin, n, dcps, dtd, estimates)
    requires |estimates| == |cabin.families| && Predicts(cabin, n, dcps, dtd, estimates, f, g)
    requires CanTransform(cabin, dcps, dtd, estimates, f, g)
    modifies cabin.families`mean, cabin.families`variance
    modifies MembersOf(cabin.families)`mean, MembersOf(cabin.families)`variance,
      MembersOf(cabin.families)`priceMean, MembersOf(cabin.families)`priceVariance,
      MembersOf(cabin.families)`productMean, MembersOf(cabin.families)`productVariance,
      MembersOf(cabin.families)`cumuMean, MembersOf(cabin.families)`cumuVariance
    modifies cabin.classes`priceMean, cabin.classes`priceVariance, cabin.classes`cumuMean, cabin.classes`cumuVariance
    modifies cabin.policies`demand, cabin.policies`variance
    ensures CabinForecast(cabin) && StepsAreClean(cabin)
    ensures forall c | c in cabin.classes :: c.mean == 0.0
    ensures ClassesGiven(CabinForecasts(cabin.families), old(InputsOf(cabin.families)), n, dcps, dtd, estimates)
    ensures Points(cabin.policies) == old(PredictedPolicies(cabin, f)) == PredictedPolicies(cabin, f)
    ensures SlopesPass(cabin) <==> SlopesPassAt(cabin, PredictedPolicies(cabin, f))
  {
    hide *;
    ghost var inputs := InputsOf(cabin.families);
    PredictsAll(cabin, n, dcps, dtd, estimates, f, g);
    ForecastCabin(cabin, n, dcps, dtd, estimates);
    PredictionIsPoints(cabin, inputs, n, dcps, dtd, estimates, f, g);
    CanTransformIs(cabin, dcps, dtd, estimates, f, g);
  }

  /**
   * The whole run, from the estimates to the controls of the leg. Its conditions
   * are on the demands that the estimates will give: they meet the assertions of
   * the transformation, and for the Monte-Carlo method the yield levels of their
   * hull pass. No assertion fails on the way, and when all yields of the hull
   * round up, the leg carries the forecasts of the classes that its end opens.
   */
  method ForecastAndOptimise(cabin: SegmentCabin, leg: LegCabin, n: Numerics, dcps: seq<int>, dtd: int,
                             estimates: seq<Estimate>, ghost f: BookingClass -> real, ghost g: BookingClass -> real,
                             how: OptimisationMethod, samples: Samples, quantile: Emsr.Quantile)
    returns (isSucceeded: bool, ghost chain: seq<nat>, ghost levels: seq<int>)
    requires leg.classes == cabin.classes && ValidCabin(cabin)
    requires Rearranges(cabin.classes, FamilyClasses(cabin.families))
    requires CanForecastCabin(cabin, n, dcps, dtd, estimates)
    requires |estimates| == |cabin.families| && Predicts(cabin, n, dcps, dtd, estimates, f, g)
    requires CanTransform(cabin, dcps, dtd, estimates, f, g)
    requires how.LegBasedMC? ==>
      && SlopesPassAt(cabin, PredictedPolicies(cabin, f)) && EnoughSamples(samples)
      && -BidPriceBands.INDEX_RANGE / 2 <= Trunc(leg.availabilityPool) < BidPriceBands.INDEX_RANGE / 2
    modifies cabin.families`mean, cabin.families`variance, MembersOf(cabin.families), cabin.classes
    modifies cabin.policies`demand, cabin.policies`variance, cabin`hull, cabin`nodes
    modifies leg`virtualClasses, leg`bidPrices
    ensures CabinForecast(cabin)
    ensures ClassesGiven(CabinForecasts(cabin.families), old(InputsOf(cabin.families)), n, dcps, dtd, estimates)
    ensures Points(cabin.policies) == old(PredictedPolicies(cabin, f))
    ensures HullAt(cabin, chain) && IsHull(Points(cabin.policies), CabinFilter(cabin), chain)
    ensures Optimised(cabin, leg, how, samples, quantile, isSucceeded, levels)
    ensures isSucceeded && AllRoundUp(Edges(cabin.hull)) ==>
      && Shaped(Grid(cabin.families), cabin.hull[|cabin.hull| - 1].classes)
      && CarriesForecast(cabin, cabin.hull[|cabin.hull| - 1], levels)
  {
    hide *;
    ForecastAsPredicted(cabin, n, dcps, dtd, estimates, f, g);
    label AfterForecast:
    isSucceeded, chain, levels := PrepareAndOptimise(cabin, leg, how, samples, quantile);
    ForecastKept@AfterForecast(cabin);
    DemandCarriesForecast(cabin, leg, how, samples, quantile, isSucceeded, chain, levels);
  }

  lemma DemandCarriesForecast(cabin: SegmentCabin, leg: LegCabin, how: OptimisationMethod, samples: Samples,
                              quantile: Emsr.Quantile, isSucceeded: bool, chain: seq<nat>, levels: seq<int>)
    requires ValidCabin(cabin) && CabinForecast(cabin)
    requires HullAt(cabin, chain) && IsHull(Points(cabin.policies), CabinFilter(cabin), chain)
    requires Optimised(cabin, leg, how, samples, quantile, isSucceeded, levels)
    ensures cabin.hull != [] && Rising(cabin.hull)
    ensures isSucceeded && AllRoundUp(Edges(cabin.hull)) ==>
      && Shaped(Grid(cabin.families), cabin.hull[|cabin.hull| - 1].classes)
      && CarriesForecast(cabin, cabin.hull[|cabin.hull| - 1], levels)
  {
    hide *;
    OptimisedConserves(cabin, leg, how, samples, quantile, isSucceeded, levels);
    if isSucceeded && AllRoundUp(Edges(cabin.hull)) {
      VirtualClassesCarryForecast(cabin, chain, levels);
    }
  }

  lemma OptimisedConserves(cabin: SegmentCabin, leg: LegCabin, how: OptimisationMethod, samples: Samples,
                           quantile: Emsr.Quantile, isSucceeded: bool, levels: seq<int>)
    requires Optimised(cabin, leg, how, samples, quantile, isSucceeded, levels)
    ensures cabin.hull != [] && Rising(cabin.hull)
    ensures isSucceeded ==> Conserves(cabin, cabin.hull, levels)
  {
    hide Rising, SomeRoundsUp, Edges, ProtectedByEmsrB, Integrated, NodesBuilt, Adjusted, Conserves, VariancesPositive,
         Optimiser.ListHolds;
  }
}
