/**
 * The optimisation of a leg-cabin: its virtual classes are built and handed to
 * one of the two methods, whose assertions they meet.
 */
module LegOptimisation {
  import opened Sequences
  import opened Inventory
  import opened Totals
  import VirtualClasses
  import opened Optimiser
  import opened BidPriceBands
  import opened BidPriceTheorems
  import opened MCOptimiser
  import Emsr

  datatype OptimisationMethod = LegBasedMC | LegBasedEmsrB

  /** One vector of samples for every virtual class, as long as the integration draws. */
  type Samples = nat -> seq<real>

  ghost predicate EnoughSamples(samples: Samples) {
    forall i: nat :: |samples(i)| == NUMBER_OF_DRAWS
  }

  ghost predicate Sampled(vcs: seq<VirtualClass>, samples: Samples)
    reads vcs`samples
  {
    forall i | 0 <= i < |vcs| :: vcs[i].samples == samples(i)
  }

  lemma LevelOf(vcs: seq<VirtualClass>, rows: seq<VirtualClasses.Row>, levels: seq<int>, i: nat)
    requires ListHolds(vcs, rows, levels) && i < |vcs|
    ensures vcs[i].unitYield == levels[i] as real && levels[i] > 0
    ensures forall j | i < j < |levels| :: levels[i] > levels[j]
  {
    hide VirtualClasses.Group;
    VirtualClasses.LevelsCoverKept(rows, levels);
  }

  /** The demands of a list of levels, as far as the assertions read them. */
  ghost function LevelDemands(levels: seq<int>): (ds: seq<Demand>)
    ensures |ds| == |levels|
    ensures forall i | 0 <= i < |ds| :: ds[i].unitYield == levels[i] as real && |ds[i].samples| == NUMBER_OF_DRAWS
  {
    seq(|levels|, i requires 0 <= i < |levels| => Demand(levels[i] as real, seq(NUMBER_OF_DRAWS, _ => 0.0)))
  }

  /** What the assertions of the integration ask of the yield levels: in every round a cut inside the samples. */
  ghost predicate LevelsPass(levels: seq<int>) {
    AssertionsPass(LevelDemands(levels))
  }

  ghost predicate LevelsFall(levels: seq<int>) {
    (forall i | 0 <= i < |levels| :: levels[i] > 0) && forall i, j | 0 <= i < j < |levels| :: levels[i] > levels[j]
  }

  /** Levels at least `top level / draws` apart pass. */
  lemma WideLevelsPass(levels: seq<int>)
    requires LevelsFall(levels) && levels != []
    requires forall i | 0 <= i < |levels| - 1 :: NUMBER_OF_DRAWS * (levels[i] - levels[i + 1]) >= levels[0]
    ensures LevelsPass(levels)
  {
    hide AssertionsPass;
    var ds := LevelDemands(levels);
    forall i | 0 <= i < |ds| - 1
      ensures GapCovered(ds[0], ds[i].unitYield, ds[i + 1].unitYield)
    {
      assert ds[i].unitYield - ds[i + 1].unitYield == (levels[i] - levels[i + 1]) as real;
    }
    hide GapCovered;
    GapsCoveredPass(ds);
  }

  /** Two levels that are one apart pass up to the number of draws and no further. */
  lemma CloseLevelsFail()
    ensures LevelsFall([10000, 9999]) && LevelsPass([10000, 9999])
    ensures LevelsFall([10001, 10000]) && !LevelsPass([10001, 10000])
  {
    TwoLevelsPass(10000, 9999);
    TwoLevelsPass(10001, 10000);
  }

  /** For two levels: their gap is at least the top level over the number of draws. */
  lemma TwoLevelsPass(high: int, low: int)
    requires high > low > 0
    ensures LevelsPass([high, low]) <==> NUMBER_OF_DRAWS * (high - low) >= high
  {
    hide AssertionsPass;
    TwoClassesPass(LevelDemands([high, low]));
  }

  /** Different levels are at least one apart, which is enough for a top level up to the number of draws. */
  lemma LowLevelsPass(levels: seq<int>)
    requires LevelsFall(levels) && levels != [] && levels[0] <= NUMBER_OF_DRAWS
    ensures LevelsPass(levels)
  {
    hide LevelsPass;
    WideLevelsPass(levels);
  }

  /** A virtual class list meets every assertion of the integration exactly when its levels do. */
  lemma VirtualClassesPass(vcs: seq<VirtualClass>, rows: seq<VirtualClasses.Row>, levels: seq<int>, samples: Samples)
    requires ListHolds(vcs, rows, levels) && Sampled(vcs, samples) && EnoughSamples(samples)
    ensures AssertionsPass(Demands(vcs)) <==> LevelsPass(levels)
    ensures vcs != [] ==> Demands(vcs)[0].unitYield >= 0.0
  {
    hide AssertionsPass, ListHolds;
    var ds := Demands(vcs);
    assert |vcs| == |levels| by { hide *; SameLength(vcs, rows, levels); }
    forall i | 0 <= i < |ds|
      ensures ds[i].unitYield == levels[i] as real > 0.0 && |ds[i].samples| == NUMBER_OF_DRAWS
    {
      LevelOf(vcs, rows, levels, i);
    }
    AssertionsReadSizes(ds, LevelDemands(levels));
  }

  lemma SameLength(vcs: seq<VirtualClass>, rows: seq<VirtualClasses.Row>, levels: seq<int>)
    requires ListHolds(vcs, rows, levels)
    ensures |vcs| == |levels| && Distinct(vcs)
  {
  }

  lemma {:induction false} GroupMeanPositive(rows: seq<VirtualClasses.Row>, level: int)
    ensures Total(VirtualClasses.Group(rows, level), VirtualClasses.RowMean) >= 0.0
    ensures VirtualClasses.Group(rows, level) != []
      ==> Total(VirtualClasses.Group(rows, level), VirtualClasses.RowMean) > 0.0
  {
    hide VirtualClasses.RoundedYield;
    if rows != [] {
      GroupMeanPositive(rows[..|rows| - 1], level);
      VirtualClasses.GroupTotalStep(rows, level, VirtualClasses.RowMean);
    }
  }

  /**
   * A virtual class list meets what EMSR-b divides by and asks of the quantile:
   * every aggregate has a yield, and every ratio is a probability inside (0, 1).
   */
  lemma VirtualClassesSuitEmsrB(vcs: seq<VirtualClass>, rows: seq<VirtualClasses.Row>, levels: seq<int>)
    requires ListHolds(vcs, rows, levels)
    ensures Emsr.YieldsAssigned(Emsr.Buckets(vcs))
    ensures forall j | 0 <= j < |vcs| - 1 :: var bs := Emsr.Buckets(vcs);
      Emsr.Aggregate(bs, j).unitYield > 0.0 && 0.0 < bs[j + 1].unitYield / Emsr.Aggregate(bs, j).unitYield < 1.0
  {
    ListYieldsFall(vcs, rows, levels);
    hide Emsr.Aggregate, ListHolds;
    var bs := Emsr.Buckets(vcs);
    forall j | 0 <= j < |vcs| - 1
      ensures Emsr.Aggregate(bs, j).unitYield > 0.0
      ensures 0.0 < bs[j + 1].unitYield / Emsr.Aggregate(bs, j).unitYield < 1.0
    {
      Emsr.YieldRatioInside(bs, j);
    }
  }

  /**
   * After EMSR-b every virtual class but the last is protected by Littlewood's
   * rule: the aggregate of the classes down to it is expected to earn from one
   * more seat exactly the yield of the next class.
   */
  lemma ProtectionsBalance(vcs: seq<VirtualClass>, rows: seq<VirtualClasses.Row>, levels: seq<int>,
                           quantile: Emsr.Quantile, survive: Emsr.Survival, capacity: real, j: nat)
    requires ListHolds(vcs, rows, levels) && j + 1 < |vcs| && Emsr.Inverts(quantile, survive)
    requires Emsr.YieldsAssigned(Emsr.Buckets(vcs))
    requires Protected(vcs, Emsr.EmsrBProtections(quantile, Emsr.Buckets(vcs), |vcs| - 1), capacity)
    ensures var a := Emsr.Aggregate(Emsr.Buckets(vcs), j);
      a.unitYield * survive(a.mean, a.variance, vcs[j].protection) == vcs[j + 1].unitYield
    ensures vcs[j + 1].bookingLimit == capacity - vcs[j].protection
  {
    hide *;
    var bs := Emsr.Buckets(vcs);
    ListYieldsFall(vcs, rows, levels);
    Emsr.LittlewoodRule(quantile, survive, bs, j);
    ProtectedAt(vcs, Emsr.EmsrBProtections(quantile, bs, |bs| - 1), capacity, j);
  }

  lemma ProtectedAt(vcs: seq<VirtualClass>, ps: seq<real>, capacity: real, j: nat)
    requires |ps| < |vcs| && Protected(vcs, ps, capacity) && j < |ps|
    ensures vcs[j].protection == ps[j] && vcs[j + 1].bookingLimit == capacity - ps[j]
  {
  }

  lemma ListYieldsFall(vcs: seq<VirtualClass>, rows: seq<VirtualClasses.Row>, levels: seq<int>)
    requires ListHolds(vcs, rows, levels)
    ensures Emsr.MeansNonNegative(Emsr.Buckets(vcs))
    ensures forall i | 0 <= i < |vcs| :: Emsr.Buckets(vcs)[i].unitYield > 0.0
    ensures forall i, k | 0 <= i < k < |vcs| :: Emsr.Buckets(vcs)[k].unitYield < Emsr.Buckets(vcs)[i].unitYield
  {
    hide VirtualClasses.Group, Total;
    var bs := Emsr.Buckets(vcs);
    forall i | 0 <= i < |bs|
      ensures bs[i].mean >= 0.0 && bs[i].unitYield > 0.0 && forall k | i < k < |bs| :: bs[k].unitYield < bs[i].unitYield
    {
      LevelOf(vcs, rows, levels, i);
      GroupMeanPositive(rows, levels[i]);
      assert IsVirtualClass(vcs[i], rows, levels[i]);
      forall k | i < k < |bs|
        ensures bs[k].unitYield < bs[i].unitYield
      {
        LevelOf(vcs, rows, levels, k);
      }
    }
  }

  // ---- The deviations that the quantile divides by.

  /** Every virtual class has a positive variance, and so has every aggregate of the first ones. */
  ghost predicate VariancesPositive(vcs: seq<VirtualClass>)
    reads vcs`unitYield, vcs`mean, vcs`variance
  {
    forall i | 0 <= i < |vcs| :: vcs[i].variance > 0.0 && Emsr.Aggregate(Emsr.Buckets(vcs), i).variance > 0.0
  }

  /** The kept classes have a positive variance. */
  ghost predicate KeptVary(rows: seq<VirtualClasses.Row>) {
    forall r | r in rows && VirtualClasses.Kept(r) :: r.variance > 0.0
  }

  lemma VirtualClassVaries(vcs: seq<VirtualClass>, rows: seq<VirtualClasses.Row>, levels: seq<int>, i: nat)
    requires ListHolds(vcs, rows, levels) && KeptVary(rows) && i < |vcs|
    ensures vcs[i].mean > 0.0 && vcs[i].variance > 0.0
  {
    hide VirtualClasses.Kept, VirtualClasses.RoundedYield, VirtualClasses.Group, Total;
    var g := VirtualClasses.Group(rows, levels[i]);
    assert IsVirtualClass(vcs[i], rows, levels[i]);
    GroupMeanPositive(rows, levels[i]);
    forall r | r in g
      ensures VirtualClasses.RowVariance(r) > 0.0
    {
      VirtualClasses.GroupEntries(rows, levels[i], r);
    }
    TotalPositive(g, VirtualClasses.RowVariance);
  }

  lemma AggregateVaries(bs: seq<Emsr.Bucket>, j: nat)
    requires j < |bs| && forall i | 0 <= i < |bs| :: bs[i].mean > 0.0 && bs[i].variance > 0.0
    ensures Emsr.Aggregate(bs, j).variance > 0.0
  {
    hide Emsr.Aggregate, Total;
    Emsr.AggregateTotals(bs, j);
    TotalPositive(bs[..j + 1], Emsr.BucketVariance);
  }

  /** When the kept classes have variance, so have the virtual classes and their aggregates. */
  lemma VirtualClassesVary(vcs: seq<VirtualClass>, rows: seq<VirtualClasses.Row>, levels: seq<int>)
    requires ListHolds(vcs, rows, levels) && KeptVary(rows)
    ensures VariancesPositive(vcs)
  {
    hide ListHolds, KeptVary, Emsr.Aggregate;
    var bs := Emsr.Buckets(vcs);
    forall i | 0 <= i < |bs|
      ensures bs[i].mean > 0.0 && bs[i].variance > 0.0
    {
      VirtualClassVaries(vcs, rows, levels, i);
    }
    forall i | 0 <= i < |vcs|
      ensures Emsr.Aggregate(bs, i).variance > 0.0
    {
      AggregateVaries(bs, i);
    }
  }

  /** What the grouping asserts of the yields. */
  ghost predicate YieldsAccepted(classes: seq<BookingClass>)
    reads classes`mean, classes`adjustedYield
  {
    forall i | 0 <= i < |classes| :: classes[i].mean > 0.0 ==> classes[i].adjustedYield >= 0.0
  }

  /** The levels that occur among the classes pass the assertions. */
  ghost predicate YieldsPass(classes: seq<BookingClass>)
    reads classes`mean, classes`variance, classes`adjustedYield
  {
    forall levels | VirtualClasses.AreLevels(VirtualClasses.Rows(classes), levels) && levels != [] ::
      LevelsPass(levels)
  }

  /** What the Monte-Carlo branch asks of the yields, the samples and the capacity. */
  ghost predicate CanIntegrate(leg: LegCabin, samples: Samples)
    reads leg, leg.classes`mean, leg.classes`variance, leg.classes`adjustedYield
  {
    && YieldsPass(leg.classes) && EnoughSamples(samples)
    && -INDEX_RANGE / 2 <= Trunc(leg.availabilityPool) < INDEX_RANGE / 2
  }

  lemma LevelsOfList(classes: seq<BookingClass>, levels: seq<int>)
    requires YieldsPass(classes) && VirtualClasses.AreLevels(VirtualClasses.Rows(classes), levels) && levels != []
    ensures LevelsPass(levels)
  {
  }

  lemma ListLevels(vcs: seq<VirtualClass>, rows: seq<VirtualClasses.Row>, levels: seq<int>)
    requires ListHolds(vcs, rows, levels)
    ensures VirtualClasses.AreLevels(rows, levels) && |vcs| == |levels| && Distinct(vcs)
  {
  }

  /** Hands every virtual class its demand samples. */
  method SetSamples(vcs: seq<VirtualClass>, samples: Samples)
    requires Distinct(vcs)
    modifies vcs`samples
    ensures Sampled(vcs, samples)
  {
    for i := 0 to |vcs|
      invariant forall j | 0 <= j < i :: vcs[j].samples == samples(j)
    {
      vcs[i].samples := samples(i);
    }
  }

  /** The Monte-Carlo branch: prices for every seat, never rising and never negative. */
  method OptimiseByMC(leg: LegCabin, samples: Samples, ghost levels: seq<int>)
    requires YieldsPass(leg.classes) && EnoughSamples(samples)
    requires ListHolds(leg.virtualClasses, VirtualClasses.Rows(leg.classes), levels) && leg.virtualClasses != []
    requires -INDEX_RANGE / 2 <= Trunc(leg.availabilityPool) < INDEX_RANGE / 2
    modifies leg`bidPrices, leg.virtualClasses`samples, leg.virtualClasses`protection, leg.virtualClasses`bookingLimit
    ensures ListHolds(leg.virtualClasses, VirtualClasses.Rows(leg.classes), levels)
    ensures Sampled(leg.virtualClasses, samples) && AssertionsPass(Demands(leg.virtualClasses))
    ensures leg.bidPrices == OptimalPrices(Demands(leg.virtualClasses), CapacityIndex(leg.availabilityPool))
    ensures |leg.bidPrices| == Max(0, Trunc(leg.availabilityPool))
    ensures NonIncreasing(leg.bidPrices) && AllAtLeast(leg.bidPrices, 0.0)
    ensures Protected(leg.virtualClasses, Protections(Demands(leg.virtualClasses)), leg.availabilityPool)
  {
    hide *;
    ghost var rows := VirtualClasses.Rows(leg.classes);
    ListLevels(leg.virtualClasses, rows, levels);
    LevelsOfList(leg.classes, levels);
    SetSamples(leg.virtualClasses, samples);
    VirtualClassesPass(leg.virtualClasses, rows, levels, samples);
    ghost var ds := Demands(leg.virtualClasses);
    CapacityWithin(leg.availabilityPool);
    OptimalOptimisationByMCIntegration(leg);
    OptimalPricesFall(ds, CapacityIndex(leg.availabilityPool));
  }

  lemma CapacityWithin(availability: real)
    requires -INDEX_RANGE / 2 <= Trunc(availability) < INDEX_RANGE / 2
    ensures CapacityIndex(availability) == Max(0, Trunc(availability)) < INDEX_RANGE / 2
  {
  }

  /**
   * What the Monte-Carlo method leaves: the prices and protections of the
   * integration of the samples, one price for every seat, never rising.
   */
  ghost predicate Integrated(leg: LegCabin, samples: Samples)
    reads leg, leg.virtualClasses
  {
    && Sampled(leg.virtualClasses, samples) && AssertionsPass(Demands(leg.virtualClasses))
    && leg.bidPrices == OptimalPrices(Demands(leg.virtualClasses), CapacityIndex(leg.availabilityPool))
    && |leg.bidPrices| == Max(0, Trunc(leg.availabilityPool))
    && NonIncreasing(leg.bidPrices) && AllAtLeast(leg.bidPrices, 0.0)
    && |Protections(Demands(leg.virtualClasses))| < |leg.virtualClasses|
    && Protected(leg.virtualClasses, Protections(Demands(leg.virtualClasses)), leg.availabilityPool)
  }

  /** What the EMSR-b method leaves: a quantile of the running aggregate for every class but the last. */
  ghost predicate ProtectedByEmsrB(leg: LegCabin, quantile: Emsr.Quantile)
    reads leg`virtualClasses, leg`offeredCapacity, leg.virtualClasses
  {
    && leg.virtualClasses != []
    && Emsr.YieldsAssigned(Emsr.Buckets(leg.virtualClasses))
    && Protected(leg.virtualClasses,
                 Emsr.EmsrBProtections(quantile, Emsr.Buckets(leg.virtualClasses), |leg.virtualClasses| - 1),
                 leg.offeredCapacity)
  }

  /** Optimises a leg-cabin; without a virtual class nothing is done. */
  method Optimise(leg: LegCabin, how: OptimisationMethod, samples: Samples, quantile: Emsr.Quantile)
    returns (isSucceeded: bool, ghost levels: seq<int>)
    requires YieldsAccepted(leg.classes)
    requires how.LegBasedMC? ==> CanIntegrate(leg, samples)
    modifies leg`virtualClasses, leg`bidPrices
    ensures isSucceeded <==> exists r :: r in VirtualClasses.Rows(leg.classes) && VirtualClasses.Kept(r)
    ensures ListHolds(leg.virtualClasses, VirtualClasses.Rows(leg.classes), levels)
    ensures how.LegBasedEmsrB? || !isSucceeded ==> leg.bidPrices == old(leg.bidPrices)
    ensures isSucceeded && how.LegBasedMC? ==> Integrated(leg, samples)
    ensures isSucceeded && how.LegBasedEmsrB? ==> ProtectedByEmsrB(leg, quantile)
  {
    hide *;
    Accepted(leg, samples);
    isSucceeded, levels := BuildVirtualClassListForLegBasedOptimisation(leg);
    ghost var rows := VirtualClasses.Rows(leg.classes);
    ListNotEmpty(leg.virtualClasses, rows, levels);
    ListLevels(leg.virtualClasses, rows, levels);
    if isSucceeded {
      match how {
        case LegBasedMC =>
          OptimiseByMC(leg, samples, levels);
          IntegratedIs(leg, samples);
        case LegBasedEmsrB =>
          VirtualClassesSuitEmsrB(leg.virtualClasses, rows, levels);
          Emsr.HeuristicOptimisationByEmsrB(leg, quantile);
          ProtectedIs(leg, quantile);
      }
    }
  }

  lemma IntegratedIs(leg: LegCabin, samples: Samples)
    requires Sampled(leg.virtualClasses, samples) && AssertionsPass(Demands(leg.virtualClasses))
    requires leg.bidPrices == OptimalPrices(Demands(leg.virtualClasses), CapacityIndex(leg.availabilityPool))
    requires |leg.bidPrices| == Max(0, Trunc(leg.availabilityPool))
    requires NonIncreasing(leg.bidPrices) && AllAtLeast(leg.bidPrices, 0.0)
    requires Protected(leg.virtualClasses, Protections(Demands(leg.virtualClasses)), leg.availabilityPool)
    ensures Integrated(leg, samples)
  {
    hide Sampled, AssertionsPass, OptimalPrices, NonIncreasing, AllAtLeast, Protections, Protected;
  }

  lemma ProtectedIs(leg: LegCabin, quantile: Emsr.Quantile)
    requires leg.virtualClasses != [] && Emsr.YieldsAssigned(Emsr.Buckets(leg.virtualClasses))
    requires Protected(leg.virtualClasses,
                       Emsr.EmsrBProtections(quantile, Emsr.Buckets(leg.virtualClasses), |leg.virtualClasses| - 1),
                       leg.offeredCapacity)
    ensures ProtectedByEmsrB(leg, quantile)
  {
    hide Emsr.YieldsAssigned, Emsr.EmsrBProtections, Protected;
  }

  lemma Accepted(leg: LegCabin, samples: Samples)
    ensures YieldsAccepted(leg.classes) <==>
      forall i | 0 <= i < |leg.classes| :: leg.classes[i].mean > 0.0 ==> leg.classes[i].adjustedYield >= 0.0
    ensures CanIntegrate(leg, samples) <==>
      && YieldsPass(leg.classes) && EnoughSamples(samples)
      && -INDEX_RANGE / 2 <= Trunc(leg.availabilityPool) < INDEX_RANGE / 2
  {
  }
}
