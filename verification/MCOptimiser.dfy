/** The Monte-Carlo integration over a leg-cabin: in-place partial sums, one price per seat. */
module MCOptimiser {
  import opened Sequences
  import opened Inventory
  import opened BidPriceBands
  import opened BidPriceTheorems

  /** The virtual classes as the rounds see them. */
  function Demands(vcs: seq<VirtualClass>): (ds: seq<Demand>)
    reads vcs`unitYield, vcs`samples
    ensures |ds| == |vcs|
    ensures forall i | 0 <= i < |vcs| :: ds[i] == Demand(vcs[i].unitYield, vcs[i].samples)
  {
    if vcs == [] then []
    else Demands(vcs[..|vcs| - 1]) + [Demand(vcs[|vcs| - 1].unitYield, vcs[|vcs| - 1].samples)]
  }

  /** The remaining capacity as a seat index: negative capacities count as none. */
  function CapacityIndex(availability: real): (cap: nat)
    ensures cap == Max(0, Trunc(availability))
  {
    var c := Trunc(availability);
    (c + if c < 0 then -c else c) / 2
  }

  // ---- The steps on the partial sum holder. Its first `k` entries are the live ones.

  method SortHolder(a: array<real>, k: nat)
    requires k <= a.Length
    modifies a
    ensures a[..k] == Sort(old(a[..k]))
  {
    var s := Sort(a[..k]);
    for i := 0 to k
      invariant a[..i] == s[..i]
    {
      a[i] := s[i];
    }
    assert s[..k] == s;
  }

  method SearchHolder(a: array<real>, lo: nat, k: nat, x: real) returns (p: nat)
    requires lo <= k <= a.Length
    ensures p == LowerBound(a[..k], lo, k - lo, x)
  {
    hide LowerBound;
    p := lo;
    var len := k - lo;
    ghost var s := a[..k];
    while len > 0
      invariant 0 <= len && p + len <= k
      invariant LowerBound(s, p, len, x) == LowerBound(s, lo, k - lo, x)
    {
      var half := len / 2;
      LowerBoundStep(s, p, len, x);
      if a[p + half] < x {
        p, len := p + half + 1, len - half - 1;
      } else {
        len := half;
      }
    }
  }

  lemma PricesAppend(earlier: seq<real>, y: real, size: nat, reach: seq<nat>, r: nat)
    requires 0 < size
    ensures earlier + Prices(y, size, reach + [r]) == earlier + Prices(y, size, reach) + [Price(y, r, size)]
  {
    hide Price;
  }

  lemma SearchStep(reach: seq<nat>, s: seq<real>, lo: nat, idx: nat, last: nat)
    requires lo <= |s| && idx <= last
    ensures var p := LowerBound(s, lo, |s| - lo, idx as real);
      reach + SearchReach(s, lo, idx, last) == reach + [|s| - p] + SearchReach(s, p, idx + 1, last)
  {
    hide LowerBound;
  }

  lemma SearchDone(reach: seq<nat>, s: seq<real>, lo: nat, idx: nat, last: nat)
    requires lo <= |s| && last < idx
    ensures reach + SearchReach(s, lo, idx, last) == reach
  {
  }

  /** Prices the seats from `first` up to both `top` and `cap`, resuming each search. */
  method PriceBand(leg: LegCabin, a: array<real>, k: nat, y: real, first: nat, top: nat, cap: nat)
    returns (idx: nat)
    requires 0 < k <= a.Length
    modifies leg`bidPrices
    ensures idx == Max(first, Min(top, cap) + 1)
    ensures leg.bidPrices == old(leg.bidPrices) + Prices(y, k, SearchReach(a[..k], 0, first, Min(top, cap)))
  {
    hide Price, LowerBound, SearchReach;
    idx := first;
    var lowerBound: nat := 0;
    ghost var s, last, prices := a[..k], Min(top, cap), leg.bidPrices;
    ghost var reach: seq<nat> := [];
    assert reach + SearchReach(s, 0, first, last) == SearchReach(s, 0, first, last);
    assert prices + Prices(y, k, reach) == prices;
    while idx <= top && idx <= cap
      invariant first <= idx <= Max(first, last + 1)
      invariant lowerBound <= k
      invariant reach + SearchReach(s, lowerBound, idx, last) == SearchReach(s, 0, first, last)
      invariant leg.bidPrices == prices + Prices(y, k, reach)
    {
      SearchStep(reach, s, lowerBound, idx, last);
      lowerBound := SearchHolder(a, lowerBound, k, idx as real);
      PricesAppend(prices, y, k, reach, k - lowerBound);
      leg.bidPrices := leg.bidPrices + [Price(y, k - lowerBound, k)];
      reach := reach + [k - lowerBound];
      idx := idx + 1;
    }
    SearchDone(reach, s, lowerBound, idx, last);
  }

  /** Moves the samples past the cut to the front and adds the next demand to them, in place. */
  method ShiftHolder(a: array<real>, k: nat, cut: nat, next: seq<real>)
    requires 1 <= cut <= k <= a.Length && k - cut <= |next|
    modifies a
    ensures a[..k - cut] == Kept(old(a[..k]), cut, next)
  {
    hide *;
    ghost var was := a[..k];
    for i := 0 to k - cut
      invariant forall m | 0 <= m < i :: a[m] == was[m + cut] + next[m]
      invariant forall m | i <= m < k :: a[m] == was[m]
    {
      a[i] := a[i + cut] + next[i];
    }
    KeptIs(was, cut, next, a[..k - cut]);
  }

  lemma KeptIs(s: seq<real>, cut: nat, next: seq<real>, r: seq<real>)
    requires cut <= |s| && |r| == |s| - cut <= |next|
    requires forall m | 0 <= m < |r| :: r[m] == s[m + cut] + next[m]
    ensures r == Kept(s, cut, next)
  {
  }

  /** One round on the holder, after which its first `k - cut` entries are the next partial sums. */
  method Round(leg: LegCabin, a: array<real>, k: nat, cut: nat, y: real, first: nat, cap: nat, next: seq<real>)
    returns (protection: real, idx: nat)
    requires 1 <= cut < k <= a.Length && k - cut <= |next|
    modifies leg`bidPrices, a
    ensures protection == Protection(Sort(old(a[..k])), cut)
    ensures idx == Max(first, Min(ToIndex(protection), cap) + 1)
    ensures leg.bidPrices == old(leg.bidPrices)
      + Prices(y, k, CountReach(Sort(old(a[..k])), first, Min(ToIndex(protection), cap)))
    ensures a[..k - cut] == Kept(Sort(old(a[..k])), cut, next)
  {
    hide *;
    ghost var s := Sort(a[..k]);
    SortedAscends(a[..k]);
    SortHolder(a, k);
    assert a[..k][cut - 1] == a[cut - 1] && a[..k][cut] == a[cut];
    protection := (a[cut - 1] + a[cut]) / 2.0;
    ProtectionIs(s, cut);
    idx := PriceBand(leg, a, k, y, first, ToIndex(protection), cap);
    BoundIsSeat(ToIndex(protection), cap);
    SearchCounts(s, 0, first, Min(ToIndex(protection), cap));
    ShiftHolder(a, k, cut, next);
  }

  lemma SortedAscends(s: seq<real>)
    ensures |Sort(s)| == |s| && Ascending(Sort(s))
  {
    hide Sort;
    SortCorrect(s);
  }

  lemma BoundIsSeat(top: nat, cap: nat)
    ensures Min(top, cap) >= 0
  {
  }

  lemma ProtectionIs(s: seq<real>, cut: nat)
    requires 1 <= cut < |s|
    ensures Protection(s, cut) == (s[cut - 1] + s[cut]) / 2.0
  {
  }

  /** Round `j` of a run: from the state that the rounds before it left to the next one. */
  method RunRound(leg: LegCabin, a: array<real>, cap: nat, cut: nat, next: seq<real>, first: nat,
                  k: nat, ghost ds: seq<Demand>, ghost cuts: seq<nat>, ghost j: nat, y: real)
    returns (protection: real, idx: nat)
    requires Fits(ds, cuts) && j < |cuts|
    requires cut == cuts[j] && y == ds[j].unitYield
    requires cut <= k && k - cut <= |next| <= |ds[j + 1].samples| && next == ds[j + 1].samples[..|next|]
    requires k <= a.Length && a[..k] == Holder(ds, cuts, j)
    requires first == FirstSeat(ds, cuts, cap, j) && leg.bidPrices == PricesUpTo(ds, cuts, cap, j)
    modifies leg`bidPrices, a
    ensures protection == ProtectionAt(ds, cuts, j)
    ensures cut < k && a[..k - cut] == Holder(ds, cuts, j + 1)
    ensures idx == FirstSeat(ds, cuts, cap, j + 1) && leg.bidPrices == PricesUpTo(ds, cuts, cap, j + 1)
  {
    hide Price, ToIndex, LowerBound, SearchReach, CountReach, Protection;
    protection, idx := Round(leg, a, k, cut, y, first, cap, next);
    KeptAlike(Sort(Holder(ds, cuts, j)), cut, next, ds[j + 1].samples);
  }

  lemma KeptAlike(s: seq<real>, cut: nat, next: seq<real>, more: seq<real>)
    requires cut <= |s| && |s| - cut <= |next| <= |more| && next == more[..|next|]
    ensures Kept(s, cut, next) == Kept(s, cut, more)
  {
  }

  ghost function Protections(ds: seq<Demand>): (ps: seq<real>)
    requires AssertionsPass(ds)
    ensures |ps| + 1 == |ds|
  {
    ProtectionsUpTo(ds, Cuts(ds), |ds| - 1)
  }

  lemma ProtectionsStep(ds: seq<Demand>, cuts: seq<nat>, j: nat)
    requires Fits(ds, cuts) && j < |cuts|
    ensures ProtectionsUpTo(ds, cuts, j + 1) == ProtectionsUpTo(ds, cuts, j) + [ProtectionAt(ds, cuts, j)]
  {
  }

  lemma RunIsDefined(ds: seq<Demand>)
    requires AssertionsPass(ds)
    ensures 0 < |ds| && 0 < |ds[0].samples| && Fits(ds, Cuts(ds))
    ensures Protections(ds) == ProtectionsUpTo(ds, Cuts(ds), |ds| - 1)
    ensures Holder(ds, Cuts(ds), 0) == ds[0].samples
    ensures forall cap: nat :: FirstSeat(ds, Cuts(ds), cap, 0) == 1 && PricesUpTo(ds, Cuts(ds), cap, 0) == []
  {
  }

  lemma CutsAt(ds: seq<Demand>, j: nat)
    requires AssertionsPass(ds) && j + 1 < |ds|
    ensures Cut(ds[j].unitYield, ds[j + 1].unitYield, |Holder(ds, Cuts(ds), j)|) == Cuts(ds)[j]
    ensures Cuts(ds)[j] < |Holder(ds, Cuts(ds), j)| <= |ds[j + 1].samples|
  {
    hide Cut;
    CutListAt(ds, |ds| - 1, j);
  }

  /** All rounds: every band but the last, with the protections and booking limits. */
  method RunRounds(leg: LegCabin, vcs: seq<VirtualClass>, holder: array<real>, cap: nat, ghost ds: seq<Demand>)
    returns (idx: nat, k: nat)
    requires Distinct(vcs) && ds == Demands(vcs) && AssertionsPass(ds)
    requires holder[..] == ds[0].samples && leg.bidPrices == []
    modifies leg`bidPrices, holder, vcs[..|vcs| - 1]`protection, vcs`bookingLimit
    ensures vcs[0].bookingLimit == leg.availabilityPool
    ensures 0 < k <= holder.Length && holder[..k] == Holder(ds, Cuts(ds), |ds| - 1)
    ensures idx == FirstSeat(ds, Cuts(ds), cap, |ds| - 1)
    ensures leg.bidPrices == PricesUpTo(ds, Cuts(ds), cap, |ds| - 1)
    ensures Protected(vcs, Protections(ds), leg.availabilityPool)
  {
    hide *;
    RunIsDefined(ds);
    ghost var cuts := Cuts(ds);
    vcs[0].bookingLimit := leg.availabilityPool;
    var n, j := |vcs| - 1, 0;
    idx, k := 1, holder.Length;
    assert holder[..k] == holder[..];
    NothingProtected(vcs, leg.availabilityPool);
    while j < n
      invariant 0 <= j <= n
      invariant 0 < k <= holder.Length && holder[..k] == Holder(ds, cuts, j)
      invariant idx == FirstSeat(ds, cuts, cap, j)
      invariant leg.bidPrices == PricesUpTo(ds, cuts, cap, j)
      invariant vcs[0].bookingLimit == leg.availabilityPool
      invariant Protected(vcs, ProtectionsUpTo(ds, cuts, j), leg.availabilityPool)
    {
      var y, yNext := vcs[j].unitYield, vcs[j + 1].unitYield;
      var cut := Cut(y, yNext, k);
      CutsAt(ds, j);
      var protection;
      protection, idx := RunRound(leg, holder, cap, cut, vcs[j + 1].samples, idx, k, ds, cuts, j, y);
      SetProtection(vcs, j, protection, leg.availabilityPool, ProtectionsUpTo(ds, cuts, j));
      ProtectionsStep(ds, cuts, j);
      k := k - cut;
      j := j + 1;
    }
  }

  /**
   * The Monte-Carlo integration: sets the bid price vector of the leg-cabin and
   * the cumulated protection and booking limit of its virtual classes.
   */
  method OptimalOptimisationByMCIntegration(leg: LegCabin)
    requires Distinct(leg.virtualClasses) && AssertionsPass(Demands(leg.virtualClasses))
    requires -INDEX_RANGE / 2 <= Trunc(leg.availabilityPool) < INDEX_RANGE / 2
    modifies leg`bidPrices, leg.virtualClasses`protection, leg.virtualClasses`bookingLimit
    ensures leg.bidPrices == OptimalPrices(old(Demands(leg.virtualClasses)), CapacityIndex(leg.availabilityPool))
    ensures Protected(leg.virtualClasses, Protections(old(Demands(leg.virtualClasses))), leg.availabilityPool)
    ensures leg.virtualClasses[0].bookingLimit == leg.availabilityPool
  {
    hide *;
    var cap, vcs := CapacityIndex(leg.availabilityPool), leg.virtualClasses;
    ghost var ds := Demands(vcs);
    RunIsDefined(ds);
    var samples := vcs[0].samples;
    var holder := new real[|samples|](i requires 0 <= i < |samples| => samples[i]);
    assert holder[..] == samples;
    leg.bidPrices := [];
    var idx, k := RunRounds(leg, vcs, holder, cap, ds);
    idx := PriceBand(leg, holder, k, vcs[|vcs| - 1].unitYield, idx, cap, cap);
    OptimalPricesSplit(ds, cap);
    assert Min(cap, cap) == cap by { MinSame(cap); }
  }

  lemma MinSame(n: int)
    ensures Min(n, n) == n
  {
  }

  /**
   * After a run on non-negative samples, the protections are not negative and
   * never fall along the classes, and the booking limits never rise.
   */
  lemma RunControls(vcs: seq<VirtualClass>, ds: seq<Demand>, capacity: real)
    requires |vcs| == |ds| && AssertionsPass(ds) && Protected(vcs, Protections(ds), capacity)
    requires vcs[0].bookingLimit == capacity
    requires forall k | 0 <= k < |ds| :: AllAtLeast(ds[k].samples, 0.0)
    ensures forall i, j | 0 <= i <= j < |vcs| - 1 :: 0.0 <= vcs[i].protection <= vcs[j].protection
    ensures forall i, j | 0 <= i <= j < |vcs| :: vcs[j].bookingLimit <= vcs[i].bookingLimit
  {
    hide Cuts, ProtectionAt, AllAtLeast;
    forall i, j | 0 <= i <= j < |vcs| - 1
      ensures 0.0 <= vcs[i].protection <= vcs[j].protection
    {
      ProtectionsNonNegative(ds, Cuts(ds), i);
      ProtectionsRise(ds, Cuts(ds), i, j);
    }
    forall i, j | 0 <= i < j < |vcs|
      ensures vcs[j].bookingLimit <= vcs[i].bookingLimit
    {
      assert vcs[j - 1 + 1].bookingLimit == capacity - vcs[j - 1].protection;
      if i > 0 {
        assert vcs[i - 1 + 1].bookingLimit == capacity - vcs[i - 1].protection;
      }
    }
  }

  // ---- The sibling, which draws its samples and floors the prices of the last band.

  const NUMBER_OF_DRAWS: nat := 10000

  /** A class protects the middle between the samples on either side of its cut; the next gets the other seats. */
  lemma ProtectionIsMiddle(vcs: seq<VirtualClass>, ds: seq<Demand>, capacity: real, j: nat)
    requires |vcs| == |ds| && AssertionsPass(ds) && Protected(vcs, Protections(ds), capacity) && j + 1 < |vcs|
    ensures var s, cut := Sort(Holder(ds, Cuts(ds), j)), Cuts(ds)[j];
      && 1 <= cut < |s|
      && vcs[j].protection - s[cut - 1] == s[cut] - vcs[j].protection
      && vcs[j + 1].bookingLimit == capacity - vcs[j].protection
  {
    hide Cuts, Sort;
    var ps := Protections(ds);
    assert vcs[j].protection == ps[j] && ps[j] == ProtectionAt(ds, Cuts(ds), j);
    assert vcs[j + 1].bookingLimit == capacity - ps[j];
  }

  /** The first `k` samples of a demand; the generator restarts from one seed for every vector. */
  function DemandVector(draw: (real, real, nat) -> real, mean: real, stdDev: real, k: nat): (v: seq<real>)
    ensures |v| == k
  {
    if k == 0 then []
    else DemandVector(draw, mean, stdDev, k - 1) + [if stdDev > 0.0 then draw(mean, stdDev, k - 1) else mean]
  }

  lemma {:induction false} ShorterVector(draw: (real, real, nat) -> real, mean: real, stdDev: real, k: nat, n: nat)
    requires k <= n
    ensures DemandVector(draw, mean, stdDev, n)[..k] == DemandVector(draw, mean, stdDev, k)
    decreases n
  {
    if k < n {
      ShorterVector(draw, mean, stdDev, k, n - 1);
    }
  }

  lemma {:induction false} SampleAt(draw: (real, real, nat) -> real, mean: real, stdDev: real, k: nat, i: nat)
    requires i < k
    ensures DemandVector(draw, mean, stdDev, k)[i] == if stdDev > 0.0 then draw(mean, stdDev, i) else mean
  {
    if i < k - 1 {
      SampleAt(draw, mean, stdDev, k - 1, i);
    }
  }

  method GenerateDemandVector(draw: (real, real, nat) -> real, mean: real, stdDev: real, k: nat)
    returns (v: seq<real>)
    ensures v == DemandVector(draw, mean, stdDev, k)
    ensures |v| == k && forall i | 0 <= i < k :: v[i] == if stdDev > 0.0 then draw(mean, stdDev, i) else mean
  {
    v := [];
    if stdDev > 0.0 {
      for i := 0 to k
        invariant v == DemandVector(draw, mean, stdDev, i)
        invariant |v| == i && forall l | 0 <= l < i :: v[l] == draw(mean, stdDev, l)
      {
        v := v + [draw(mean, stdDev, i)];
      }
    } else {
      for i := 0 to k
        invariant v == DemandVector(draw, mean, stdDev, i)
        invariant |v| == i && forall l | 0 <= l < i :: v[l] == mean
      {
        v := v + [mean];
      }
    }
  }

  /** The yield-level demands as the rounds see them. */
  function SampledDemands(yds: seq<YieldDemand>, draw: (real, real, nat) -> real): (ds: seq<Demand>)
    ensures |ds| == |yds|
    ensures forall i | 0 <= i < |yds| ::
      ds[i] == Demand(yds[i].unitYield, DemandVector(draw, yds[i].mean, yds[i].stdDev, NUMBER_OF_DRAWS))
  {
    seq(|yds|, i requires 0 <= i < |yds| =>
      Demand(yds[i].unitYield, DemandVector(draw, yds[i].mean, yds[i].stdDev, NUMBER_OF_DRAWS)))
  }

  /** Every yield level gets ten thousand samples of its own demand; without a deviation all are its mean. */
  lemma SampledDemandIs(yds: seq<YieldDemand>, draw: (real, real, nat) -> real, j: nat, i: nat)
    requires j < |yds| && i < 10000
    ensures var d := SampledDemands(yds, draw)[j];
      && d.unitYield == yds[j].unitYield && |d.samples| == 10000
      && (yds[j].stdDev > 0.0 ==> d.samples[i] == draw(yds[j].mean, yds[j].stdDev, i))
      && (yds[j].stdDev <= 0.0 ==> d.samples[i] == yds[j].mean)
  {
    SampleAt(draw, yds[j].mean, yds[j].stdDev, NUMBER_OF_DRAWS, i);
  }

  /** Once a price is below the minimum, no smaller reach brings it back. */
  lemma PriceStaysLow(y: real, a: nat, b: nat, size: nat)
    requires 0 < size && b <= a <= size && Price(y, a, size) < MIN_BID_PRICE
    ensures Price(y, b, size) < MIN_BID_PRICE
  {
    if y >= 0.0 {
      PriceMonotone(y, b, a, size);
    } else {
      MulMono(y, 0.0, b as real);
      DivLe(y * b as real, 0.0, size as real);
    }
  }

  lemma FlooredAppend(earlier: seq<real>, y: real, size: nat, reach: seq<nat>, r: nat)
    requires 0 < size
    ensures earlier + Floored(Prices(y, size, reach + [r]))
      == earlier + Floored(Prices(y, size, reach))
         + [if Price(y, r, size) < MIN_BID_PRICE then MIN_BID_PRICE else Price(y, r, size)]
  {
    hide Price;
  }

  /** The last band: once the minimum is reached it is kept, which is a pointwise maximum. */
  method PriceLastBand(leg: LegCabin, a: array<real>, k: nat, y: real, first: nat, cap: nat)
    requires 0 < k <= a.Length
    modifies leg`bidPrices
    ensures leg.bidPrices
      == old(leg.bidPrices) + Floored(Prices(y, k, SearchReach(a[..k], 0, first, cap)))
  {
    hide Price, LowerBound, SearchReach, Prices, Floored;
    var idx := first;
    var lowerBound: nat := 0;
    var minReached := false;
    ghost var s, prices := a[..k], leg.bidPrices;
    ghost var reach: seq<nat> := [];
    assert reach + SearchReach(s, 0, first, cap) == SearchReach(s, 0, first, cap);
    assert prices + Floored(Prices(y, k, reach)) == prices;
    while idx <= cap
      invariant lowerBound <= k
      invariant minReached ==> Price(y, k - lowerBound, k) < MIN_BID_PRICE
      invariant reach + SearchReach(s, lowerBound, idx, cap) == SearchReach(s, 0, first, cap)
      invariant leg.bidPrices == prices + Floored(Prices(y, k, reach))
    {
      SearchStep(reach, s, lowerBound, idx, cap);
      ghost var before := lowerBound;
      lowerBound := SearchHolder(a, lowerBound, k, idx as real);
      FlooredAppend(prices, y, k, reach, k - lowerBound);
      if !minReached {
        var price := Price(y, k - lowerBound, k);
        if price < MIN_BID_PRICE {
          price, minReached := MIN_BID_PRICE, true;
        }
        leg.bidPrices := leg.bidPrices + [price];
      } else {
        PriceStaysLow(y, k - before, k - lowerBound, k);
        leg.bidPrices := leg.bidPrices + [MIN_BID_PRICE];
      }
      reach := reach + [k - lowerBound];
      idx := idx + 1;
    }
    SearchDone(reach, s, lowerBound, idx, cap);
  }

  lemma NextSamples(yds: seq<YieldDemand>, draw: (real, real, nat) -> real, j: nat, k: nat)
    requires j < |yds| && k <= NUMBER_OF_DRAWS
    ensures var next := DemandVector(draw, yds[j].mean, yds[j].stdDev, k);
      |next| <= |SampledDemands(yds, draw)[j].samples| && next == SampledDemands(yds, draw)[j].samples[..|next|]
  {
    ShorterVector(draw, yds[j].mean, yds[j].stdDev, k, NUMBER_OF_DRAWS);
  }

  lemma SampledYield(yds: seq<YieldDemand>, draw: (real, real, nat) -> real, j: nat)
    requires j < |yds|
    ensures SampledDemands(yds, draw)[j].unitYield == yds[j].unitYield
    ensures |SampledDemands(yds, draw)[j].samples| == NUMBER_OF_DRAWS
    ensures SampledDemands(yds, draw)[j].samples == DemandVector(draw, yds[j].mean, yds[j].stdDev, NUMBER_OF_DRAWS)
  {
  }

  /** All rounds of the sibling: each draws as many samples as the cut leaves sums. */
  method RunSampledRounds(leg: LegCabin, holder: array<real>, cap: nat, draw: (real, real, nat) -> real,
                          ghost ds: seq<Demand>)
    returns (idx: nat, k: nat)
    requires ds == SampledDemands(leg.yieldDemands, draw) && AssertionsPass(ds)
    requires holder[..] == ds[0].samples && leg.bidPrices == []
    modifies leg`bidPrices, holder
    ensures 0 < k <= holder.Length && holder[..k] == Holder(ds, Cuts(ds), |ds| - 1)
    ensures idx == FirstSeat(ds, Cuts(ds), cap, |ds| - 1)
    ensures leg.bidPrices == PricesUpTo(ds, Cuts(ds), cap, |ds| - 1)
  {
    hide *;
    RunIsDefined(ds);
    ghost var cuts := Cuts(ds);
    var yds, n, j := leg.yieldDemands, |leg.yieldDemands| - 1, 0;
    idx, k := 1, holder.Length;
    assert holder[..k] == holder[..];
    while j < n
      invariant 0 <= j <= n
      invariant 0 < k <= holder.Length && holder[..k] == Holder(ds, cuts, j)
      invariant idx == FirstSeat(ds, cuts, cap, j)
      invariant leg.bidPrices == PricesUpTo(ds, cuts, cap, j)
    {
      var cut := Cut(yds[j].unitYield, yds[j + 1].unitYield, k);
      SampledYield(yds, draw, j);
      SampledYield(yds, draw, j + 1);
      CutsAt(ds, j);
      NextSamples(yds, draw, j + 1, k - cut);
      var next := GenerateDemandVector(draw, yds[j + 1].mean, yds[j + 1].stdDev, k - cut);
      var protection;
      protection, idx := RunRound(leg, holder, cap, cut, next, idx, k, ds, cuts, j, yds[j].unitYield);
      k := k - cut;
      j := j + 1;
    }
  }

  lemma FlooredPricesSplit(ds: seq<Demand>, cap: nat)
    requires AssertionsPass(ds)
    ensures var n := |ds| - 1;
      var s, first := Sort(Holder(ds, Cuts(ds), n)), FirstSeat(ds, Cuts(ds), cap, n);
      |s| > 0 && FlooredPrices(ds, cap) == PricesUpTo(ds, Cuts(ds), cap, n)
        + Floored(Prices(ds[n].unitYield, |s|, SearchReach(s, 0, first, cap)))
  {
    hide Price, Cuts;
    SortCorrect(Holder(ds, Cuts(ds), |ds| - 1));
    SearchCounts(Sort(Holder(ds, Cuts(ds), |ds| - 1)), 0, FirstSeat(ds, Cuts(ds), cap, |ds| - 1), cap);
  }

  /**
   * The Monte-Carlo integration on the yield-level demand map, with a minimal
   * bid price. The last price becomes the current bid price of the leg-cabin.
   */
  method OptimisationByMCIntegration(leg: LegCabin, draw: (real, real, nat) -> real)
    requires AssertionsPass(SampledDemands(leg.yieldDemands, draw))
    requires 1.0 <= leg.availabilityPool && Trunc(leg.availabilityPool) < INDEX_RANGE / 2
    requires leg.currentBidPrice != 0.0
    modifies leg`bidPrices, leg`currentBidPrice, leg`previousBidPrice
    ensures leg.bidPrices
      == FlooredPrices(SampledDemands(leg.yieldDemands, draw), CapacityIndex(leg.availabilityPool))
    ensures leg.previousBidPrice == old(leg.currentBidPrice)
    ensures leg.bidPrices != [] && leg.currentBidPrice == leg.bidPrices[|leg.bidPrices| - 1]
  {
    hide *;
    var cap, yds := CapacityIndex(leg.availabilityPool), leg.yieldDemands;
    ghost var ds := SampledDemands(yds, draw);
    assert 0 < cap < INDEX_RANGE / 2 by { CapacityPositive(leg.availabilityPool); }
    RunIsDefined(ds);
    SampledYield(yds, draw, 0);
    SampledYield(yds, draw, |yds| - 1);
    leg.bidPrices := [];
    var first := GenerateDemandVector(draw, yds[0].mean, yds[0].stdDev, NUMBER_OF_DRAWS);
    var holder := new real[|first|](i requires 0 <= i < |first| => first[i]);
    assert holder[..] == first;
    var idx, k := RunSampledRounds(leg, holder, cap, draw, ds);
    SortHolder(holder, k);
    assert holder[..k] == Sort(Holder(ds, Cuts(ds), |ds| - 1));
    PriceLastBand(leg, holder, k, yds[|yds| - 1].unitYield, idx, cap);
    FlooredPricesSplit(ds, cap);
    FlooredPricesCoverSeats(ds, cap);
    leg.previousBidPrice := leg.currentBidPrice;
    leg.currentBidPrice := leg.bidPrices[|leg.bidPrices| - 1];
  }

  lemma CapacityPositive(availability: real)
    requires 1.0 <= availability && Trunc(availability) < INDEX_RANGE / 2
    ensures 0 < CapacityIndex(availability) < INDEX_RANGE / 2
  {
  }
}
