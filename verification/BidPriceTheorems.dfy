/** What holds of a whole Monte-Carlo run, over all of its bands. */
module BidPriceTheorems {
  import opened Sequences
  import opened BidPriceBands

  // ---- The two complete bid price vectors.

  /** The run that prices its last band by searching partial sums it did not sort. */
  ghost function OptimalPrices(ds: seq<Demand>, cap: nat): seq<real>
    requires AssertionsPass(ds)
  {
    var n, cuts := |ds| - 1, Cuts(ds);
    var h := Holder(ds, cuts, n);
    PricesUpTo(ds, cuts, cap, n)
      + Prices(ds[n].unitYield, |h|, SearchReach(h, 0, FirstSeat(ds, cuts, cap, n), cap))
  }

  /** The lowest bid price that the sibling run allows in its last band. */
  const MIN_BID_PRICE := 1.0

  /** Every price below the minimum is raised to it. */
  function Floored(s: seq<real>): (r: seq<real>)
    ensures |r| == |s|
    ensures forall i | 0 <= i < |r| :: r[i] == if s[i] < MIN_BID_PRICE then MIN_BID_PRICE else s[i]
  {
    seq(|s|, i requires 0 <= i < |s| => if s[i] < MIN_BID_PRICE then MIN_BID_PRICE else s[i])
  }

  /** The counted prices of the last band of sorted partial sums. */
  ghost function LastBand(ds: seq<Demand>, cap: nat): seq<real>
    requires AssertionsPass(ds)
  {
    var n, cuts := |ds| - 1, Cuts(ds);
    var s := Sort(Holder(ds, cuts, n));
    Prices(ds[n].unitYield, |s|, CountReach(s, FirstSeat(ds, cuts, cap, n), cap))
  }

  /** The run that sorts before its last band and floors the prices of that band. */
  ghost function FlooredPrices(ds: seq<Demand>, cap: nat): seq<real>
    requires AssertionsPass(ds)
  {
    PricesUpTo(ds, Cuts(ds), cap, |ds| - 1) + Floored(LastBand(ds, cap))
  }

  // ---- The yields.

  /** The cut against an integer: the floor of a quotient, without the division. */
  lemma CutReaches(y: real, yNext: real, size: nat, n: nat)
    requires y > 0.0 && 1 <= n
    ensures Cut(y, yNext, size) >= n <==> size as real * (y - yNext) >= n as real * y
  {
    var a := size as real * (y - yNext);
    DivLe(a, n as real, y);
    FloorBounds(a / y, n);
    assert Cut(y, yNext, size) == Max(0, (a / y).Floor);
  }

  /** A cut below the sample count is only possible when the next yield is positive. */
  lemma NextYieldPositive(y: real, yNext: real, size: nat)
    requires y > yNext && 1 <= Cut(y, yNext, size) < size
    ensures yNext > 0.0
  {
    if yNext <= 0.0 {
      MulMono(y, y - yNext, size as real);
      CutReaches(y, yNext, size, size);
    }
  }

  /** The assertions of a run leave no class without a positive yield, except a single one. */
  lemma YieldsPositive(ds: seq<Demand>, j: nat)
    requires AssertionsPass(ds) && j < |ds| && 1 < |ds|
    ensures ds[j].unitYield > 0.0
  {
    hide Cut;
    if j + 1 < |ds| {
      RoundKeepsShare(ds, j);
    } else {
      CutListAt(ds, j, j - 1);
      NextYieldPositive(ds[j - 1].unitYield, ds[j].unitYield, Size(ds, Cuts(ds), j - 1));
    }
  }

  // ---- The bid price vector of the first run.

  /**
   * The bid price vector has one price for every seat and never rises, over
   * all bands, whatever the sign of the samples, and although the last band
   * searches samples that are not sorted.
   */
  lemma OptimalPricesFall(ds: seq<Demand>, cap: nat)
    requires AssertionsPass(ds) && cap < INDEX_RANGE / 2 && ds[0].unitYield >= 0.0
    ensures |OptimalPrices(ds, cap)| == cap
    ensures NonIncreasing(OptimalPrices(ds, cap))
    ensures AllAtLeast(OptimalPrices(ds, cap), 0.0)
  {
    hide AssertionsPass, OptimalPrices, Cuts, Price, Prices, PricesUpTo, SearchReach, Holder, FirstSeat, Fits,
         NonIncreasing, AllAtLeast, AllAtMost;
    OptimalPricesSplit(ds, cap);
    LastYieldNonNegative(ds);
    var n, cuts := |ds| - 1, Cuts(ds);
    var h, first, y := Holder(ds, cuts, n), FirstSeat(ds, cuts, cap, n), ds[n].unitYield;
    var reach := SearchReach(h, 0, first, cap);
    RoundInvariant(ds, cap, n);
    AllPricesNonNegative(ds, cap, n);
    SearchReachFalls(h, 0, first, cap);
    PricesFall(y, |h|, reach);
    AllAtLeastJoined(PricesUpTo(ds, cuts, cap, n), Prices(y, |h|, reach), 0.0);
    AppendBand(PricesUpTo(ds, cuts, cap, n), Prices(y, |h|, reach), y, -1.0, first, cap, cap);
  }

  /** One price for every seat, whatever the yields. */
  lemma OptimalPricesCoverSeats(ds: seq<Demand>, cap: nat)
    requires AssertionsPass(ds) && cap < INDEX_RANGE / 2
    ensures |OptimalPrices(ds, cap)| == cap
  {
    hide AssertionsPass, OptimalPrices, Cuts, Price, PricesUpTo, SearchReach, Holder, FirstSeat, Fits;
    OptimalPricesSplit(ds, cap);
    RoundInvariant(ds, cap, |ds| - 1);
  }

  lemma OptimalPricesSplit(ds: seq<Demand>, cap: nat)
    requires AssertionsPass(ds)
    ensures |ds| > 0 && Fits(ds, Cuts(ds))
    ensures var n := |ds| - 1;
      var h, first := Holder(ds, Cuts(ds), n), FirstSeat(ds, Cuts(ds), cap, n);
      && |h| > 0
      && OptimalPrices(ds, cap) == PricesUpTo(ds, Cuts(ds), cap, n)
        + Prices(ds[n].unitYield, |h|, SearchReach(h, 0, first, cap))
  {
  }

  lemma LastYieldNonNegative(ds: seq<Demand>)
    requires AssertionsPass(ds) && ds[0].unitYield >= 0.0
    ensures ds[|ds| - 1].unitYield >= 0.0
  {
    if 1 < |ds| { YieldsPositive(ds, |ds| - 1); }
  }

  lemma AllAtLeastJoined(s: seq<real>, t: seq<real>, x: real)
    requires AllAtLeast(s, x) && AllAtLeast(t, x)
    ensures AllAtLeast(s + t, x)
  {
  }

  lemma {:induction false} AllPricesNonNegative(ds: seq<Demand>, cap: nat, j: nat)
    requires AssertionsPass(ds) && j < |ds|
    ensures AllAtLeast(PricesUpTo(ds, Cuts(ds), cap, j), 0.0)
  {
    hide Cut, Cuts, Price, Protection;
    if 0 < j {
      AllPricesNonNegative(ds, cap, j - 1);
      var cuts := Cuts(ds);
      var s := Sort(Holder(ds, cuts, j - 1));
      var first, last := FirstSeat(ds, cuts, cap, j - 1), LastSeat(ds, cuts, cap, j - 1);
      YieldsPositive(ds, j - 1);
      CountReachFalls(s, first, last);
      PricesFall(ds[j - 1].unitYield, |s|, CountReach(s, first, last));
    }
  }

  // ---- The bid price vector of the sibling run.

  /** The sibling has one price for every seat. */
  lemma FlooredPricesCoverSeats(ds: seq<Demand>, cap: nat)
    requires AssertionsPass(ds) && cap < INDEX_RANGE / 2
    ensures |FlooredPrices(ds, cap)| == cap
  {
    hide Cut, Cuts, Price;
    RoundInvariant(ds, cap, |ds| - 1);
  }

  lemma LastBandFalls(ds: seq<Demand>, cap: nat)
    requires AssertionsPass(ds) && ds[|ds| - 1].unitYield >= 0.0
    ensures NonIncreasing(LastBand(ds, cap)) && AllAtMost(LastBand(ds, cap), ds[|ds| - 1].unitYield)
  {
    hide Cut, Cuts, Price;
    var n, cuts := |ds| - 1, Cuts(ds);
    var s := Sort(Holder(ds, cuts, n));
    CountReachFalls(s, FirstSeat(ds, cuts, cap, n), cap);
    PricesFall(ds[n].unitYield, |s|, CountReach(s, FirstSeat(ds, cuts, cap, n), cap));
  }

  /**
   * The floored vector never rises exactly when the floor cannot lift the last
   * band above an earlier price: the last yield is at least the minimum, or the
   * last band or all earlier ones are empty, or the last earlier price is not
   * below the minimum.
   */
  lemma FlooredPricesFall(ds: seq<Demand>, cap: nat)
    requires AssertionsPass(ds) && cap < INDEX_RANGE / 2 && ds[|ds| - 1].unitYield >= 0.0
    ensures NonIncreasing(FlooredPrices(ds, cap)) <==>
      (ds[|ds| - 1].unitYield >= MIN_BID_PRICE
       || LastBand(ds, cap) == []
       || LastAtLeast(PricesUpTo(ds, Cuts(ds), cap, |ds| - 1), MIN_BID_PRICE))
  {
    hide Cut, Cuts, Price, LastBand, FirstSeat, PricesUpTo;
    var n, y := |ds| - 1, ds[|ds| - 1].unitYield;
    var earlier, band := PricesUpTo(ds, Cuts(ds), cap, n), LastBand(ds, cap);
    RoundInvariant(ds, cap, n);
    LastBandFalls(ds, cap);
    if FirstSeat(ds, Cuts(ds), cap, n) == cap + 1 {
      LastBandLength(ds, cap);
    }
    FloorAfter(earlier, band, y);
  }

  /** The floor can lift the last band above an earlier price: the prices here are 1.0, 0.5 and 1.0. */
  lemma FloorCanLift()
    ensures var ds := [Demand(1.0, [1.0, 3.0]), Demand(0.5, [0.0, 0.0])];
      AssertionsPass(ds) && !NonIncreasing(FlooredPrices(ds, 3))
  {
    var ds := [Demand(1.0, [1.0, 3.0]), Demand(0.5, [0.0, 0.0])];
    FloorCanLiftRun(ds);
    hide AssertionsPass, FlooredPrices, LastBand, PricesUpTo, Cuts;
    FlooredPricesFall(ds, 3);
  }

  /** The run of `FloorCanLift`: its cut, and its first band of two seats. */
  lemma FloorCanLiftSeats(ds: seq<Demand>)
    requires ds == [Demand(1.0, [1.0, 3.0]), Demand(0.5, [0.0, 0.0])]
    ensures AssertionsPass(ds) && Cuts(ds) == [1] && Sort(Holder(ds, [1], 0)) == [1.0, 3.0]
    ensures LastSeat(ds, [1], 3, 0) == 2 && FirstSeat(ds, [1], 3, 0) == 1 && FirstSeat(ds, [1], 3, 1) == 3
  {
    assert CutList(ds, 0) == [] && Cut(1.0, 0.5, 2) == 1;
    assert Cuts(ds) == [1] && Size(ds, [1], 0) == 2;
    SortAscending([1.0, 3.0]);
    assert ProtectionAt(ds, [1], 0) == 2.0;
  }

  lemma FloorCanLiftRun(ds: seq<Demand>)
    requires ds == [Demand(1.0, [1.0, 3.0]), Demand(0.5, [0.0, 0.0])]
    ensures AssertionsPass(ds) && |LastBand(ds, 3)| == 1
    ensures !LastAtLeast(PricesUpTo(ds, Cuts(ds), 3, 1), MIN_BID_PRICE)
  {
    FloorCanLiftSeats(ds);
    var cuts: seq<nat> := [1];
    hide AssertionsPass, Cuts, CutList, Cut, Size, Sort, Holder, ProtectionAt, FirstSeat, LastSeat, LastBand;
    LastBandLength(ds, 3);
    var s := [1.0, 3.0];
    CountReachAt(s, 1, 2, 1);
    assert s[1..] == [3.0];
    assert CountAtLeast(s, 2.0) == 1;
    var band := BandPrices(ds, cuts, 3, 0);
    assert |band| == 2 && band[1] == Price(1.0, 1, 2) == 0.5;
    assert PricesUpTo(ds, cuts, 3, 1) == [] + band;
  }

  ghost predicate LastAtLeast(s: seq<real>, x: real) {
    s == [] || s[|s| - 1] >= x
  }

  lemma FloorAfter(earlier: seq<real>, band: seq<real>, y: real)
    requires NonIncreasing(earlier) && NonIncreasing(band) && AllAtMost(band, y)
    requires band == [] || AllAtLeast(earlier, y)
    ensures NonIncreasing(earlier + Floored(band)) <==>
      y >= MIN_BID_PRICE || band == [] || LastAtLeast(earlier, MIN_BID_PRICE)
  {
    var f := earlier + Floored(band);
    if band == [] {
      assert f == earlier;
    } else if y >= MIN_BID_PRICE {
      NonIncreasingConcat(earlier, Floored(band), y);
    } else if LastAtLeast(earlier, MIN_BID_PRICE) {
      NonIncreasingConcat(earlier, Floored(band), MIN_BID_PRICE);
    } else {
      assert f[|earlier| - 1] < f[|earlier|];
    }
  }

  lemma LastBandLength(ds: seq<Demand>, cap: nat)
    requires AssertionsPass(ds)
    ensures |LastBand(ds, cap)| == cap + 1 - FirstSeat(ds, Cuts(ds), cap, |ds| - 1)
  {
    hide Cut, Cuts, Price;
  }

  // ---- Protections.

  /** With non-negative next samples, each cumulated protection is at least the one before it. */
  lemma ProtectionRises(ds: seq<Demand>, cuts: seq<nat>, j: nat)
    requires Fits(ds, cuts) && j + 1 < |cuts|
    requires AllAtLeast(ds[j + 1].samples, 0.0)
    ensures ProtectionAt(ds, cuts, j) <= ProtectionAt(ds, cuts, j + 1)
  {
    var s := Sort(Holder(ds, cuts, j));
    var h := Holder(ds, cuts, j + 1);
    SortCorrect(Holder(ds, cuts, j));
    assert AllAtLeast(h, s[cuts[j]]) by {
      assert h == Kept(s, cuts[j], ds[j + 1].samples);
    }
    SortBound(h, s[cuts[j]]);
    assert s[cuts[j] - 1] <= s[cuts[j]];
  }

  /** Cumulated protections never fall along the classes, so booking limits never rise. */
  lemma {:induction false} ProtectionsRise(ds: seq<Demand>, cuts: seq<nat>, i: nat, j: nat)
    requires Fits(ds, cuts) && i <= j < |cuts|
    requires forall k | i < k <= j :: AllAtLeast(ds[k].samples, 0.0)
    ensures ProtectionAt(ds, cuts, i) <= ProtectionAt(ds, cuts, j)
    decreases j
  {
    hide ProtectionAt;
    if i < j {
      ProtectionsRise(ds, cuts, i, j - 1);
      ProtectionRises(ds, cuts, j - 1);
    }
  }

  /** Non-negative samples never give a negative protection, so no index wraps around. */
  lemma ProtectionsNonNegative(ds: seq<Demand>, cuts: seq<nat>, j: nat)
    requires Fits(ds, cuts) && j < |cuts|
    requires forall k | 0 <= k <= j :: AllAtLeast(ds[k].samples, 0.0)
    ensures ProtectionAt(ds, cuts, j) >= 0.0
  {
    ProtectionsRise(ds, cuts, 0, j);
    SortBound(ds[0].samples, 0.0);
  }

  /** Without negative protections, no price of the bands before `j` is below the yield of round `j`. */
  lemma {:induction false} PricesAboveYield(ds: seq<Demand>, cap: nat, j: nat)
    requires AssertionsPass(ds) && j < |ds| && cap < INDEX_RANGE / 2
    requires forall i | 0 <= i < j :: ProtectionAt(ds, Cuts(ds), i) >= 0.0
    ensures AllAtLeast(PricesUpTo(ds, Cuts(ds), cap, j), ds[j].unitYield)
  {
    if 0 < j {
      hide Cut, Cuts, BandPrices, Holder, ProtectionAt, FirstSeat, LastSeat;
      PricesAboveYield(ds, cap, j - 1);
      BandWithinYields(ds, cap, j - 1);
      assert ds[j - 1].unitYield > ds[j - 1 + 1].unitYield;
    }
  }

  /** Non-negative samples leave a positive current bid price, which the next call divides by. */
  lemma CurrentBidPricePositive(ds: seq<Demand>, cap: nat)
    requires AssertionsPass(ds) && 0 < cap < INDEX_RANGE / 2 && ds[0].unitYield > 0.0
    requires forall k | 0 <= k < |ds| :: AllAtLeast(ds[k].samples, 0.0)
    ensures |FlooredPrices(ds, cap)| == cap && FlooredPrices(ds, cap)[cap - 1] > 0.0
  {
    hide Cut, Cuts, Price, PricesUpTo, FirstSeat, ProtectionAt, AllAtLeast;
    var n := |ds| - 1;
    FlooredPricesCoverSeats(ds, cap);
    forall i | 0 <= i < n
      ensures ProtectionAt(ds, Cuts(ds), i) >= 0.0
    {
      ProtectionsNonNegative(ds, Cuts(ds), i);
    }
    PricesAboveYield(ds, cap, n);
    if 0 < n { YieldsPositive(ds, n); }
    LastPrice(PricesUpTo(ds, Cuts(ds), cap, n), LastBand(ds, cap), ds[n].unitYield);
  }

  lemma LastPrice(earlier: seq<real>, band: seq<real>, y: real)
    requires earlier + band != [] && AllAtLeast(earlier, y) && y > 0.0
    ensures (earlier + Floored(band))[|earlier| + |band| - 1] > 0.0
  {
  }

  // ---- When the assertions of the rounds hold.

  /** One round keeps `size * top >= size0 * y`: the sample count shrinks no faster than the yield. */
  lemma ShareStep(y: real, yNext: real, size: nat, cut: nat, top: real, size0: real)
    requires y > 0.0 && yNext > 0.0 && top > 0.0 && cut <= size
    requires KeepsShare(y, yNext, size, cut)
    requires size as real * top >= size0 * y
    ensures (size - cut) as real * top >= size0 * yNext
  {
    var k, r := size as real, (size - cut) as real;
    MulMono(yNext * k, y * r, top);
    MulMono(size0 * y, k * top, yNext);
    assert (r * top) * y >= (size0 * yNext) * y;
    MulCancel(size0 * yNext, r * top, y);
  }

  /** Enough samples for the gap between two yields give a cut of at least one. */
  lemma CutAtLeastOne(y: real, yNext: real, size: nat, top: real, size0: real)
    requires y > yNext > 0.0 && top > 0.0 && 0 < size
    requires size as real * top >= size0 * y
    requires size0 * (y - yNext) >= top
    ensures 1 <= Cut(y, yNext, size)
  {
    var k, gap := size as real, y - yNext;
    MulMono(size0 * y, k * top, gap);
    MulMono(top, size0 * gap, y);
    assert (k * gap) * top >= y * top;
    MulCancel(y, k * gap, top);
    CutReaches(y, yNext, size, 1);
  }

  /** A positive next yield keeps the cut below the sample count. */
  lemma CutBelowSize(y: real, yNext: real, size: nat)
    requires y > yNext > 0.0 && 0 < size
    ensures Cut(y, yNext, size) < size
  {
    MulStrict(y - yNext, y, size as real);
    CutReaches(y, yNext, size, size);
  }

  /** Every two consecutive yields are at least `top yield / samples` apart. */
  ghost predicate GapsCovered(ds: seq<Demand>) {
    && 0 < |ds| && 0 < |ds[0].samples|
    && (forall i | 0 <= i < |ds| :: ds[i].unitYield > 0.0 && |ds[i].samples| >= |ds[0].samples|)
    && (forall i | 0 <= i < |ds| - 1 :: GapCovered(ds[0], ds[i].unitYield, ds[i + 1].unitYield))
  }

  ghost predicate GapCovered(top: Demand, y: real, yNext: real) {
    y > yNext && |top.samples| as real * (y - yNext) >= top.unitYield
  }

  ghost predicate ShareKept(top: Demand, size: int, y: real) {
    size as real * top.unitYield >= |top.samples| as real * y
  }

  ghost predicate FitsSoFar(ds: seq<Demand>, cuts: seq<nat>)
    requires |cuts| < |ds|
  {
    forall j | 0 <= j < |cuts| :: 1 <= cuts[j] < Size(ds, cuts, j) <= |ds[j + 1].samples|
  }

  lemma FitsOneMore(ds: seq<Demand>, cuts: seq<nat>, cut: nat)
    requires |cuts| + 1 < |ds| && FitsSoFar(ds, cuts)
    requires 1 <= cut < Size(ds, cuts, |cuts|) <= |ds[|cuts| + 1].samples|
    ensures FitsSoFar(ds, cuts + [cut])
    ensures Size(ds, cuts + [cut], |cuts| + 1) == Size(ds, cuts, |cuts|) - cut
  {
    var more := cuts + [cut];
    SizeDependsOnPrefix(ds, cuts, [cut], |cuts|);
    forall j | 0 <= j < |more|
      ensures 1 <= more[j] < Size(ds, more, j) <= |ds[j + 1].samples|
    {
      hide Size;
      SizeDependsOnPrefix(ds, cuts, [cut], j);
      if j < |cuts| {
        assert more[j] == cuts[j];
      }
    }
  }

  lemma RoundFits(top: Demand, y: real, yNext: real, size: nat)
    requires top.unitYield > 0.0 && yNext > 0.0 && 0 < size
    requires GapCovered(top, y, yNext) && ShareKept(top, size, y)
    ensures 1 <= Cut(y, yNext, size) < size
    ensures ShareKept(top, size - Cut(y, yNext, size), yNext)
  {
    CutAtLeastOne(y, yNext, size, top.unitYield, |top.samples| as real);
    CutBelowSize(y, yNext, size);
    CutKeepsShare(y, yNext, size);
    ShareStep(y, yNext, size, Cut(y, yNext, size), top.unitYield, |top.samples| as real);
  }

  lemma GapsAt(ds: seq<Demand>, n: nat)
    requires GapsCovered(ds) && 0 < n < |ds|
    ensures GapCovered(ds[0], ds[n - 1].unitYield, ds[n].unitYield)
    ensures ds[0].unitYield > 0.0 && ds[n].unitYield > 0.0 && |ds[n].samples| >= |ds[0].samples|
  {
    hide GapCovered;
    assert GapCovered(ds[0], ds[n - 1].unitYield, ds[n - 1 + 1].unitYield);
  }

  lemma {:induction false} CutListFits(ds: seq<Demand>, n: nat)
    requires GapsCovered(ds) && n < |ds|
    ensures FitsSoFar(ds, CutList(ds, n))
    ensures 1 <= Size(ds, CutList(ds, n), n) <= |ds[0].samples|
    ensures ShareKept(ds[0], Size(ds, CutList(ds, n), n), ds[n].unitYield)
  {
    if n > 0 {
      hide Cut, GapCovered, GapsCovered, Size, ShareKept, FitsSoFar;
      CutListFits(ds, n - 1);
      GapsAt(ds, n);
      var cuts := CutList(ds, n - 1);
      var size := Size(ds, cuts, n - 1);
      RoundFits(ds[0], ds[n - 1].unitYield, ds[n].unitYield, size);
      FitsOneMore(ds, cuts, Cut(ds[n - 1].unitYield, ds[n].unitYield, size));
    }
  }

  /**
   * The assertions of a run hold, round after round, whenever the sample count
   * covers the gaps: the cuts never eat more samples than the yields lose.
   */
  lemma GapsCoveredPass(ds: seq<Demand>)
    requires GapsCovered(ds)
    ensures AssertionsPass(ds)
  {
    hide Cut;
    CutListFits(ds, |ds| - 1);
    forall i | 0 <= i < |ds| - 1
      ensures ds[i].unitYield > ds[i + 1].unitYield
    {
      assert GapCovered(ds[0], ds[i].unitYield, ds[i + 1].unitYield);
    }
  }

  /** Two lists of demands with the same yields and numbers of samples. */
  ghost predicate SameSizes(ds: seq<Demand>, es: seq<Demand>) {
    && |ds| == |es|
    && forall i | 0 <= i < |ds| :: ds[i].unitYield == es[i].unitYield && |ds[i].samples| == |es[i].samples|
  }

  lemma {:induction false} SameSizesCut(ds: seq<Demand>, es: seq<Demand>, n: nat)
    requires SameSizes(ds, es) && n < |ds|
    ensures CutList(ds, n) == CutList(es, n)
  {
    if n > 0 {
      hide Cut, Size;
      SameSizesCut(ds, es, n - 1);
      SameSize(ds, es, CutList(ds, n - 1), n - 1);
    }
  }

  lemma {:induction false} SameSize(ds: seq<Demand>, es: seq<Demand>, cuts: seq<nat>, j: nat)
    requires SameSizes(ds, es) && j < |ds| && j <= |cuts|
    ensures Size(ds, cuts, j) == Size(es, cuts, j)
  {
    if j > 0 {
      SameSize(ds, es, cuts, j - 1);
    }
  }

  lemma PassToo(ds: seq<Demand>, es: seq<Demand>)
    requires SameSizes(ds, es) && AssertionsPass(ds)
    ensures AssertionsPass(es)
  {
    hide Cut, CutList;
    SameSizesCut(ds, es, |ds| - 1);
    hide Size;
    var cuts := Cuts(ds);
    forall j | 0 <= j < |cuts|
      ensures 1 <= cuts[j] < Size(es, cuts, j) <= |es[j + 1].samples|
    {
      SameSize(ds, es, cuts, j);
    }
    forall i | 0 <= i < |es| - 1
      ensures es[i].unitYield > es[i + 1].unitYield
    {
      assert ds[i].unitYield > ds[i + 1].unitYield;
    }
  }

  /** The assertions depend on nothing but the yields and the numbers of samples. */
  lemma AssertionsReadSizes(ds: seq<Demand>, es: seq<Demand>)
    requires SameSizes(ds, es)
    ensures AssertionsPass(ds) <==> AssertionsPass(es)
  {
    hide AssertionsPass;
    if AssertionsPass(ds) { PassToo(ds, es); }
    if AssertionsPass(es) { PassToo(es, ds); }
  }

  /** For two classes that condition is exact: one sample fewer than it asks for fails the run. */
  lemma TwoClassesPass(ds: seq<Demand>)
    requires |ds| == 2 && 0 < |ds[0].samples| <= |ds[1].samples| && ds[0].unitYield > 0.0
    ensures AssertionsPass(ds) <==> ds[1].unitYield > 0.0 && GapCovered(ds[0], ds[0].unitYield, ds[1].unitYield)
  {
    var y, yNext, k := ds[0].unitYield, ds[1].unitYield, |ds[0].samples|;
    if yNext > 0.0 && GapCovered(ds[0], y, yNext) {
      GapsCoveredPass(ds);
    }
    if AssertionsPass(ds) {
      YieldsPositive(ds, 1);
      CutListAt(ds, 1, 0);
      CutReaches(y, yNext, k, 1);
    }
  }
}
