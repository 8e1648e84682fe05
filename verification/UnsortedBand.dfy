/**
 * The last band of the optimal run, which is searched without a sort: when the
 * prices are right all the same.
 */
module UnsortedBand {
  import opened Sequences
  import opened BidPriceBands
  import opened BidPriceTheorems

  /** Without the sort, a seat that one of two samples reaches can be priced at zero. */
  lemma UnsortedLastBandMisprices()
    ensures var ds := [Demand(100.0, [3.0, 1.0])];
      AssertionsPass(ds) && OptimalPrices(ds, 2)[1] == 0.0 && LastBand(ds, 2)[1] == 50.0
  {
    var s := [3.0, 1.0];
    var ds := [Demand(100.0, s)];
    assert LowerBound(s, 0, 2, 1.0) == 0;
    assert LowerBound(s, 0, 2, 2.0) == 2;
    assert SearchReach(s, 0, 1, 2) == [2] + SearchReach(s, 0, 2, 2);
    assert SearchReach(s, 0, 2, 2) == [0] + SearchReach(s, 2, 3, 2);
    assert SearchReach(s, 0, 1, 2) == [2, 0];
    SortCounts(s, 2.0);
    assert CountAtLeast(s, 2.0) == 1 by {
      assert s[1..] == [1.0];
    }
    CountReachAt(Sort(s), 1, 2, 1);
    assert CountReach(Sort(s), 1, 2)[1] == 1;
  }

  // ---- The exact condition, for any samples.

  /** On the way to position `r` the search compares only samples that stand on their own side of it. */
  ghost predicate ProbesAgree(s: seq<real>, lo: nat, len: nat, x: real, r: nat)
    requires lo + len <= |s|
    decreases len
  {
    len == 0 ||
    var mid := lo + len / 2;
    && (s[mid] < x <==> mid < r)
    && if mid < r then ProbesAgree(s, mid + 1, lo + len - mid - 1, x, r) else ProbesAgree(s, lo, len / 2, x, r)
  }

  /** The search stops at `r` exactly when all samples that it compares agree with that. */
  lemma {:induction false} SearchFinds(s: seq<real>, lo: nat, len: nat, x: real, r: nat)
    requires lo + len <= |s| && lo <= r <= lo + len
    ensures LowerBound(s, lo, len, x) == r <==> ProbesAgree(s, lo, len, x, r)
    decreases len
  {
    if len > 0 {
      var half := len / 2;
      LowerBoundStep(s, lo, len, x);
      if s[lo + half] < x {
        if lo + half < r { SearchFinds(s, lo + half + 1, len - half - 1, x, r); }
      } else {
        if r <= lo + half { SearchFinds(s, lo, half, x, r); }
      }
    }
  }

  /** The number of samples below a seat: where a sorted search would stop. */
  function RankOf(s: seq<real>, x: nat): nat {
    |s| - CountAtLeast(s, x as real)
  }

  /** At every seat the resumed search compares only samples on their own side of the seat's rank. */
  ghost predicate SeatsAgree(s: seq<real>, lo: nat, first: nat, last: nat)
    requires lo <= |s|
    decreases last + 1 - first
  {
    first <= last ==>
      && lo <= RankOf(s, first) && ProbesAgree(s, lo, |s| - lo, first as real, RankOf(s, first))
      && SeatsAgree(s, RankOf(s, first), first + 1, last)
  }

  /** The unsorted, resumed searches of a band count right exactly then. */
  lemma {:induction false} ReachExact(s: seq<real>, lo: nat, first: nat, last: nat)
    requires lo <= |s|
    ensures SearchReach(s, lo, first, last) == CountReach(s, first, last) <==> SeatsAgree(s, lo, first, last)
    decreases last + 1 - first
  {
    hide LowerBound, SearchReach, CountReach, CountAtLeast, ProbesAgree;
    ReachStep(s, lo, first, last);
    if first <= last {
      var p, r := LowerBound(s, lo, |s| - lo, first as real), RankOf(s, first);
      if lo <= r { SearchFinds(s, lo, |s| - lo, first as real, r); }
      if p == r {
        ReachExact(s, p, first + 1, last);
        HeadsEqual(|s| - p, SearchReach(s, p, first + 1, last), CountReach(s, first + 1, last));
      } else {
        assert SearchReach(s, lo, first, last)[0] == |s| - p;
        assert CountReach(s, first, last)[0] == |s| - r;
      }
    }
  }

  lemma HeadsEqual(a: nat, s: seq<nat>, t: seq<nat>)
    ensures [a] + s == [a] + t <==> s == t
  {
    assert ([a] + s)[1..] == s && ([a] + t)[1..] == t;
  }

  lemma PriceTellsReach(y: real, a: nat, b: nat, size: nat)
    requires 0 < size && y != 0.0 && Price(y, a, size) == Price(y, b, size)
    ensures a == b
  {
    var k := size as real;
    DivMul(y * a as real, k);
    DivMul(y * b as real, k);
    assert y * a as real == y * b as real;
    assert y * (a as real - b as real) == 0.0;
  }

  lemma PricesTellReach(y: real, size: nat, s: seq<nat>, t: seq<nat>)
    requires 0 < size && |s| == |t|
    ensures Prices(y, size, s) == Prices(y, size, t) <==> y == 0.0 || s == t
  {
    hide Price;
    if y == 0.0 {
      forall i | 0 <= i < |s|
        ensures Prices(y, size, s)[i] == Prices(y, size, t)[i]
      {
        FreeSeats(s[i], size);
        FreeSeats(t[i], size);
      }
    } else if Prices(y, size, s) == Prices(y, size, t) {
      forall i | 0 <= i < |s|
        ensures s[i] == t[i]
      {
        assert Prices(y, size, s)[i] == Prices(y, size, t)[i];
        PriceTellsReach(y, s[i], t[i], size);
      }
    }
  }

  lemma FreeSeats(reach: nat, size: nat)
    requires 0 < size
    ensures Price(0.0, reach, size) == 0.0
  {
  }

  /** The run prices every seat as with the sort. */
  ghost predicate LastBandExact(ds: seq<Demand>, cap: nat)
    requires AssertionsPass(ds)
  {
    OptimalPrices(ds, cap) == PricesUpTo(ds, Cuts(ds), cap, |ds| - 1) + LastBand(ds, cap)
  }

  /** The partial sums that the last loop searches. */
  ghost function LastHolder(ds: seq<Demand>): (h: seq<real>)
    requires AssertionsPass(ds)
    ensures |h| > 0
  {
    Holder(ds, Cuts(ds), |ds| - 1)
  }

  lemma LastBandSplit(ds: seq<Demand>, cap: nat)
    requires AssertionsPass(ds)
    ensures Fits(ds, Cuts(ds))
    ensures var n, h := |ds| - 1, LastHolder(ds);
      var earlier, first := PricesUpTo(ds, Cuts(ds), cap, n), FirstSeat(ds, Cuts(ds), cap, n);
      && OptimalPrices(ds, cap) == earlier + Prices(ds[n].unitYield, |h|, SearchReach(h, 0, first, cap))
      && earlier + LastBand(ds, cap) == earlier + Prices(ds[n].unitYield, |h|, CountReach(Sort(h), first, cap))
  {
  }

  lemma {:induction false} SortReach(s: seq<real>, first: nat, last: nat)
    ensures CountReach(Sort(s), first, last) == CountReach(s, first, last)
    decreases last + 1 - first
  {
    if first <= last {
      SortCounts(s, first as real);
      SortReach(s, first + 1, last);
    }
  }

  lemma TailsEqual(e: seq<real>, s: seq<real>, t: seq<real>)
    ensures e + s == e + t <==> s == t
  {
    assert (e + s)[|e|..] == s && (e + t)[|e|..] == t;
  }

  /**
   * A run prices every seat as it would with the missing sort if and only if the
   * searches of its last loop compare only samples that stand on their own side
   * of each seat's rank, or the last yield is zero.
   */
  lemma LastBandExactIff(ds: seq<Demand>, cap: nat)
    requires AssertionsPass(ds)
    ensures LastBandExact(ds, cap) <==>
      || ds[|ds| - 1].unitYield == 0.0
      || SeatsAgree(LastHolder(ds), 0, FirstSeat(ds, Cuts(ds), cap, |ds| - 1), cap)
  {
    LastBandSplit(ds, cap);
    hide AssertionsPass, OptimalPrices, LastBand, LastHolder, PricesUpTo, FirstSeat, Prices, SearchReach, CountReach,
         SeatsAgree, Cuts, Sort;
    var n, h := |ds| - 1, LastHolder(ds);
    var earlier, first := PricesUpTo(ds, Cuts(ds), cap, n), FirstSeat(ds, Cuts(ds), cap, n);
    var y := ds[n].unitYield;
    SortReach(h, first, cap);
    ReachExact(h, 0, first, cap);
    PricesTellReach(y, |h|, SearchReach(h, 0, first, cap), CountReach(h, first, cap));
    TailsEqual(earlier, Prices(y, |h|, SearchReach(h, 0, first, cap)), Prices(y, |h|, CountReach(h, first, cap)));
  }

  // ---- Samples in seat order.

  /** A sample that reaches seat `x` is followed by such samples only. */
  ghost predicate SplitsAt(s: seq<real>, x: nat) {
    forall i, j | 0 <= i < j < |s| && s[i] >= x as real :: s[j] >= x as real
  }

  ghost predicate InSeatOrder(s: seq<real>, first: nat, last: nat) {
    forall x: nat | first <= x <= last :: SplitsAt(s, x)
  }

  lemma RankSplits(s: seq<real>, first: nat, last: nat, x: nat)
    requires InSeatOrder(s, first, last) && first <= x <= last
    ensures RankOf(s, x) <= |s|
    ensures forall i | 0 <= i < RankOf(s, x) :: s[i] < x as real
    ensures forall i | RankOf(s, x) <= i < |s| :: s[i] >= x as real
  {
    assert SplitsAt(s, x);
    var p := SplitPoint(s, x as real, |s|);
    CountAtLeastCut(s, p, x as real);
  }

  /** The first of the samples up to `n` that reaches `x`; `n` when none does. */
  lemma {:induction false} SplitPoint(s: seq<real>, x: real, n: nat) returns (p: nat)
    requires n <= |s|
    requires forall i, j | 0 <= i < j < |s| && s[i] >= x :: s[j] >= x
    requires forall i | n <= i < |s| :: s[i] >= x
    ensures p <= |s|
    ensures forall i | 0 <= i < p :: s[i] < x
    ensures forall i | p <= i < |s| :: s[i] >= x
  {
    if n > 0 && s[n - 1] >= x {
      p := SplitPoint(s, x, n - 1);
    } else {
      p := n;
    }
  }

  lemma {:induction false} SplitProbesAgree(s: seq<real>, lo: nat, len: nat, x: real, r: nat)
    requires lo + len <= |s| && lo <= r <= lo + len
    requires forall i | 0 <= i < r :: s[i] < x
    requires forall i | r <= i < |s| :: s[i] >= x
    ensures ProbesAgree(s, lo, len, x, r)
    decreases len
  {
    if len > 0 {
      var mid := lo + len / 2;
      if mid < r {
        SplitProbesAgree(s, mid + 1, lo + len - mid - 1, x, r);
      } else {
        SplitProbesAgree(s, lo, len / 2, x, r);
      }
    }
  }

  /** Samples in seat order are searched right, whatever their order between two seats. */
  lemma {:induction false} SeatOrderAgrees(s: seq<real>, lo: nat, first: nat, last: nat)
    requires lo <= |s| && InSeatOrder(s, first, last)
    requires forall i | 0 <= i < lo :: s[i] < first as real
    ensures SeatsAgree(s, lo, first, last)
    decreases last + 1 - first
  {
    if first <= last {
      hide RankOf, ProbesAgree;
      RankSplits(s, first, last, first);
      var r := RankOf(s, first);
      assert r < |s| ==> s[r] >= first as real;
      SplitProbesAgree(s, lo, |s| - lo, first as real, r);
      assert InSeatOrder(s, first + 1, last);
      SeatOrderAgrees(s, r, first + 1, last);
    }
  }

  /** So a run whose last partial sums are in seat order prices every seat right. */
  lemma LastBandExactInSeatOrder(ds: seq<Demand>, cap: nat)
    requires AssertionsPass(ds)
    requires InSeatOrder(LastHolder(ds), FirstSeat(ds, Cuts(ds), cap, |ds| - 1), cap)
    ensures LastBandExact(ds, cap)
  {
    LastBandSplit(ds, cap);
    hide LastHolder, LastBandExact, FirstSeat, InSeatOrder, SeatsAgree, Cuts, Fits;
    LastBandExactIff(ds, cap);
    SeatOrderAgrees(LastHolder(ds), 0, FirstSeat(ds, Cuts(ds), cap, |ds| - 1), cap);
  }

  /** Ascending samples of the last class are enough: what is kept of the others ascends already. */
  lemma LastBandExactWhenAscending(ds: seq<Demand>, cap: nat)
    requires AssertionsPass(ds) && Ascending(ds[|ds| - 1].samples)
    ensures LastBandExact(ds, cap)
  {
    LastHolderAscends(ds);
    LastBandSplit(ds, cap);
    hide LastHolder, LastBandExact, FirstSeat, Cuts, Fits;
    assert InSeatOrder(LastHolder(ds), FirstSeat(ds, Cuts(ds), cap, |ds| - 1), cap);
    LastBandExactInSeatOrder(ds, cap);
  }

  lemma LastHolderAscends(ds: seq<Demand>)
    requires AssertionsPass(ds) && Ascending(ds[|ds| - 1].samples)
    ensures Ascending(LastHolder(ds))
  {
    hide Cut, Cuts;
    var n := |ds| - 1;
    if n > 0 {
      var s := Sort(Holder(ds, Cuts(ds), n - 1));
      SortCorrect(Holder(ds, Cuts(ds), n - 1));
      KeptAscends(s, Cuts(ds)[n - 1], ds[n].samples);
    }
  }

  lemma KeptAscends(s: seq<real>, cut: nat, next: seq<real>)
    requires cut <= |s| && |s| - cut <= |next| && Ascending(s) && Ascending(next)
    ensures Ascending(Kept(s, cut, next))
  {
  }

  // ---- The condition over all capacities.

  /** Samples that reach the first seat reach different last seats. */
  ghost predicate DifferentSeats(s: seq<real>, first: nat) {
    forall i, j | 0 <= i < j < |s| && s[i] >= first as real && s[j] >= first as real :: s[i].Floor != s[j].Floor
  }

  /** Where the search for seat `x` of a band starts when all before it were right. */
  function StartAt(s: seq<real>, first: nat, x: nat): nat {
    if x <= first then 0 else RankOf(s, x - 1)
  }

  lemma {:induction false} SeatAgrees(s: seq<real>, lo: nat, first: nat, last: nat, x: nat)
    requires lo <= |s| && SeatsAgree(s, lo, first, last) && first <= x <= last
    ensures var start := if x == first then lo else RankOf(s, x - 1);
      start <= RankOf(s, x) <= |s| && ProbesAgree(s, start, |s| - start, x as real, RankOf(s, x))
    decreases x - first
  {
    if first < x {
      hide ProbesAgree;
      SeatAgrees(s, RankOf(s, first), first + 1, last, x);
    }
  }

  /** A right search leaves the samples around each rank on their own sides. */
  lemma RightSearchStops(s: seq<real>, first: nat, x: nat)
    requires SearchReach(s, 0, first, x) == CountReach(s, first, x) && first <= x
    ensures var r := RankOf(s, x);
      && StartAt(s, first, x) <= r <= |s|
      && (StartAt(s, first, x) < r ==> s[r - 1] < x as real)
      && (r < |s| ==> s[r] >= x as real)
  {
    hide SearchReach, CountReach, LowerBound, CountAtLeast, ProbesAgree, SeatsAgree;
    ReachExact(s, 0, first, x);
    SeatAgrees(s, 0, first, x, x);
    var start := StartAt(s, first, x);
    SearchFinds(s, start, |s| - start, x as real, RankOf(s, x));
    SearchStops(s, start, |s| - start, x as real);
  }

  lemma {:induction false} CountAlike(s: seq<real>, x: real, y: real)
    requires forall i | 0 <= i < |s| :: s[i] >= x <==> s[i] >= y
    ensures CountAtLeast(s, x) == CountAtLeast(s, y)
  {
    if s != [] {
      CountAlike(s[1..], x, y);
    }
  }

  /** A sample that is alone on its seat moves the rank by one from there to the next seat. */
  lemma LoneSampleRank(s: seq<real>, k: nat, v: nat)
    requires k < |s| && v as real <= s[k] < (v + 1) as real
    requires forall i | 0 <= i < |s| && i != k :: s[i] >= v as real <==> s[i] >= (v + 1) as real
    ensures RankOf(s, v + 1) == RankOf(s, v) + 1
  {
    var a, b := s[..k], s[k + 1..];
    assert s == a + ([s[k]] + b);
    CountAlike(a, v as real, (v + 1) as real);
    CountAlike(b, v as real, (v + 1) as real);
    CountAtLeastAppend(a, [s[k]] + b, v as real);
    CountAtLeastAppend(a, [s[k]] + b, (v + 1) as real);
    assert ([s[k]] + b)[1..] == b;
  }

  /** The searches from seat `first` on count right, whatever the last seat is. */
  ghost predicate RightAtEveryCapacity(s: seq<real>, first: nat) {
    forall last: nat :: SearchReach(s, 0, first, last) == CountReach(s, first, last)
  }

  /** With right searches at every capacity, every sample from the first seat on is at its rank. */
  lemma SampleAtRank(s: seq<real>, first: nat, k: nat)
    requires DifferentSeats(s, first) && k < |s| && s[k] >= first as real
    requires RightAtEveryCapacity(s, first)
    ensures k == RankOf(s, s[k].Floor)
  {
    hide *;
    var v: nat := s[k].Floor;
    FloorIs(s[k], v);
    FloorBounds(s[k], first);
    OthersElsewhere(s, first, k);
    LoneSampleRank(s, k, v);
    RankIsSample(s, first, v);
    SameSeatSameSample(s, first, k, RankOf(s, v));
  }

  /** When the rank moves by one between two seats, the sample at the rank stands between them. */
  lemma RankIsSample(s: seq<real>, first: nat, v: nat)
    requires RightAtEveryCapacity(s, first) && first <= v && RankOf(s, v + 1) == RankOf(s, v) + 1
    ensures RankOf(s, v) < |s| && v as real <= s[RankOf(s, v)] < (v + 1) as real
  {
    hide SearchReach, CountReach, RankOf;
    RightSearchStops(s, first, v);
    RightSearchStops(s, first, v + 1);
  }

  lemma FloorIs(x: real, v: int)
    ensures x.Floor == v <==> v as real <= x < (v + 1) as real
  {
  }

  lemma OthersElsewhere(s: seq<real>, first: nat, k: nat)
    requires DifferentSeats(s, first) && k < |s| && s[k] >= first as real
    ensures forall i | 0 <= i < |s| && i != k ::
      s[i] >= s[k].Floor as real <==> s[i] >= (s[k].Floor + 1) as real
  {
    var v := s[k].Floor;
    FloorIs(s[k], v);
    FloorBounds(s[k], first);
    forall i | 0 <= i < |s| && i != k
      ensures s[i] >= v as real <==> s[i] >= (v + 1) as real
    {
      FloorIs(s[i], v);
      SeatsDiffer(s, first, i, k);
    }
  }

  lemma SeatsDiffer(s: seq<real>, first: nat, i: nat, k: nat)
    requires DifferentSeats(s, first) && i < |s| && k < |s| && i != k && s[k] >= first as real
    ensures s[i] >= first as real ==> s[i].Floor != s[k].Floor
  {
  }

  lemma SameSeatSameSample(s: seq<real>, first: nat, k: nat, r: nat)
    requires DifferentSeats(s, first) && k < |s| && r < |s| && s[k] >= first as real
    requires s[k].Floor as real <= s[r] < (s[k].Floor + 1) as real
    ensures r == k
  {
    FloorIs(s[r], s[k].Floor);
    FloorBounds(s[k], first);
    if r != k { SeatsDiffer(s, first, r, k); }
  }

  lemma {:induction false} CountFull(s: seq<real>, x: real)
    requires CountAtLeast(s, x) == |s|
    ensures forall i | 0 <= i < |s| :: s[i] >= x
  {
    if s != [] {
      CountBounded(s[1..], x);
      CountFull(s[1..], x);
    }
  }

  lemma {:induction false} CountBounded(s: seq<real>, x: real)
    ensures CountAtLeast(s, x) <= |s|
  {
    if s != [] {
      CountBounded(s[1..], x);
    }
  }

  lemma RightSearchSplits(s: seq<real>, first: nat, x: nat)
    requires DifferentSeats(s, first) && first <= x
    requires RightAtEveryCapacity(s, first)
    ensures SplitsAt(s, x)
  {
    hide SearchReach, CountReach, CountAtLeast, DifferentSeats;
    var r := RankOf(s, x);
    RightSearchStops(s, first, x);
    forall i | 0 <= i < r
      ensures s[i] < x as real
    {
      if s[i] >= x as real {
        SampleAtRank(s, first, i);
        CountAtLeastAntitone(s, x as real, s[i].Floor as real);
      }
    }
    CountAtLeastNone(s[..r], x as real);
    CountAtLeastAppend(s[..r], s[r..], x as real);
    assert s == s[..r] + s[r..];
    CountFull(s[r..], x as real);
    forall i | r <= i < |s|
      ensures s[i] >= x as real
    {
      assert s[i] == s[r..][i - r];
    }
  }

  /**
   * When no two samples end on the same seat, the searches of the last loop are
   * right at every capacity if and only if the samples are in seat order.
   */
  lemma SearchesRightIffInSeatOrder(s: seq<real>, first: nat)
    requires DifferentSeats(s, first)
    ensures RightAtEveryCapacity(s, first) <==> forall x: nat | first <= x :: SplitsAt(s, x)
  {
    if RightAtEveryCapacity(s, first) {
      forall x: nat | first <= x
        ensures SplitsAt(s, x)
      {
        RightSearchSplits(s, first, x);
      }
    }
    if forall x: nat | first <= x :: SplitsAt(s, x) {
      hide SearchReach, CountReach, SplitsAt, SeatsAgree;
      forall last: nat
        ensures SearchReach(s, 0, first, last) == CountReach(s, first, last)
      {
        SeatOrderAgrees(s, 0, first, last);
        ReachExact(s, 0, first, last);
      }
    }
  }

  /** The first seat that no band before `j` prices, whatever the capacity. */
  ghost function OpenFrom(ds: seq<Demand>, cuts: seq<nat>, j: nat): nat
    requires Fits(ds, cuts) && j < |ds|
  {
    if j == 0 then 1 else Max(OpenFrom(ds, cuts, j - 1), ToIndex(ProtectionAt(ds, cuts, j - 1)) + 1)
  }

  /** The capacity alone moves the first seat of a band down. */
  lemma {:induction false} FirstSeatIs(ds: seq<Demand>, cuts: seq<nat>, cap: nat, j: nat)
    requires Fits(ds, cuts) && j < |ds|
    ensures FirstSeat(ds, cuts, cap, j) == Min(OpenFrom(ds, cuts, j), cap + 1)
  {
    hide Fits, ProtectionAt, ToIndex;
    if j > 0 {
      FirstSeatIs(ds, cuts, cap, j - 1);
    }
  }

  /** The first seat of the last band, whatever the capacity. */
  ghost function LastOpenFrom(ds: seq<Demand>): nat
    requires AssertionsPass(ds)
  {
    OpenFrom(ds, Cuts(ds), |ds| - 1)
  }

  lemma LastBandSearches(ds: seq<Demand>, cap: nat)
    requires AssertionsPass(ds)
    ensures LastBandExact(ds, cap) <==>
      || ds[|ds| - 1].unitYield == 0.0
      || SearchReach(LastHolder(ds), 0, LastOpenFrom(ds), cap) == CountReach(LastHolder(ds), LastOpenFrom(ds), cap)
  {
    assert Fits(ds, Cuts(ds));
    hide AssertionsPass, Fits, LastHolder, Cuts, OpenFrom, FirstSeat, LastBandExact, CountReach, SearchReach,
         SeatsAgree;
    var first := FirstSeat(ds, Cuts(ds), cap, |ds| - 1);
    FirstSeatIs(ds, Cuts(ds), cap, |ds| - 1);
    LastBandExactIff(ds, cap);
    ReachExact(LastHolder(ds), 0, first, cap);
    if first != LastOpenFrom(ds) {
      NothingSearched(LastHolder(ds), first, cap);
      NothingSearched(LastHolder(ds), LastOpenFrom(ds), cap);
    }
  }

  lemma NothingSearched(s: seq<real>, first: nat, last: nat)
    requires first > last
    ensures SearchReach(s, 0, first, last) == CountReach(s, first, last) == []
  {
  }

  /**
   * When no two of the last partial sums end on the same seat, the runs at all
   * capacities price every seat as with the missing sort if and only if these
   * sums are in seat order from the first seat of the last band on, or the last
   * yield is zero.
   */
  lemma RunsExactIffInSeatOrder(ds: seq<Demand>)
    requires AssertionsPass(ds) && DifferentSeats(LastHolder(ds), LastOpenFrom(ds))
    ensures (forall cap: nat :: LastBandExact(ds, cap)) <==>
      || ds[|ds| - 1].unitYield == 0.0
      || forall x: nat | LastOpenFrom(ds) <= x :: SplitsAt(LastHolder(ds), x)
  {
    assert ds != [];
    hide AssertionsPass, LastHolder, LastOpenFrom, LastBandExact, CountReach, SearchReach, SplitsAt, DifferentSeats;
    forall cap: nat
      ensures LastBandExact(ds, cap) <==>
        || ds[|ds| - 1].unitYield == 0.0
        || SearchReach(LastHolder(ds), 0, LastOpenFrom(ds), cap) == CountReach(LastHolder(ds), LastOpenFrom(ds), cap)
    {
      LastBandSearches(ds, cap);
    }
    SearchesRightIffInSeatOrder(LastHolder(ds), LastOpenFrom(ds));
  }
}
