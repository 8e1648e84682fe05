/**
 * The bid prices of the Monte-Carlo integration as a function of the demand
 * samples: round `j` sorts the partial sums, cuts off the lowest share, prices
 * one band of seats and adds the next samples to the sums that were kept.
 */
module BidPriceBands {
  import opened Sequences

  /** A virtual class as the Monte-Carlo rounds see it. */
  datatype Demand = Demand(unitYield: real, samples: seq<real>)

  const INDEX_RANGE := 0x1_0000_0000

  /** A protection as a seat index: a `double` cast to `int`, then stored unsigned. */
  function ToIndex(protection: real): (n: nat)
    ensures 0 <= Trunc(protection) < INDEX_RANGE / 2 ==> n == Trunc(protection)
    ensures !(0 <= Trunc(protection) < INDEX_RANGE / 2) ==> n >= INDEX_RANGE / 2
  {
    var t := Trunc(protection);
    if -INDEX_RANGE / 2 <= t < INDEX_RANGE / 2 then t % INDEX_RANGE else INDEX_RANGE / 2
  }

  // ---- Binary search, resumed from the last position.

  /** std::lower_bound on the `len` entries from `lo`, whether they are sorted or not. */
  function LowerBound(s: seq<real>, lo: nat, len: nat, x: real): (p: nat)
    requires lo + len <= |s|
    ensures lo <= p <= lo + len
    decreases len
  {
    if len == 0 then lo
    else if s[lo + len / 2] < x then LowerBound(s, lo + len / 2 + 1, len - len / 2 - 1, x)
    else LowerBound(s, lo, len / 2, x)
  }

  /** One probe of the search. */
  lemma LowerBoundStep(s: seq<real>, lo: nat, len: nat, x: real)
    requires 0 < len && lo + len <= |s|
    ensures var half := len / 2;
      && half < len
      && (s[lo + half] < x ==> LowerBound(s, lo, len, x) == LowerBound(s, lo + half + 1, len - half - 1, x))
      && (s[lo + half] >= x ==> LowerBound(s, lo, len, x) == LowerBound(s, lo, half, x))
  {
  }

  /** On any samples the search stops between a smaller sample and one that is not smaller. */
  lemma {:induction false} SearchStops(s: seq<real>, lo: nat, len: nat, x: real)
    requires lo + len <= |s|
    ensures var p := LowerBound(s, lo, len, x);
      && (lo < p ==> s[p - 1] < x)
      && (p < lo + len ==> s[p] >= x)
    decreases len
  {
    hide LowerBound;
    if len != 0 {
      var half := len / 2;
      LowerBoundStep(s, lo, len, x);
      if s[lo + half] < x {
        SearchStops(s, lo + half + 1, len - half - 1, x);
      } else {
        SearchStops(s, lo, half, x);
      }
    }
  }

  lemma LowerBoundAscending(s: seq<real>, lo: nat, len: nat, x: real)
    requires lo + len <= |s| && Ascending(s)
    ensures forall i | lo <= i < LowerBound(s, lo, len, x) :: s[i] < x
    ensures forall i | LowerBound(s, lo, len, x) <= i < lo + len :: s[i] >= x
  {
    hide LowerBound;
    SearchStops(s, lo, len, x);
  }

  /** On ascending samples the resumed search finds what a count of the whole range gives. */
  lemma ResumedSearchCounts(s: seq<real>, lo: nat, x: real)
    requires Ascending(s) && lo <= |s|
    requires forall i | 0 <= i < lo :: s[i] < x
    ensures |s| - LowerBound(s, lo, |s| - lo, x) == CountAtLeast(s, x)
    ensures LowerBound(s, lo, |s| - lo, x) == LowerBound(s, 0, |s|, x)
  {
    LowerBoundAscending(s, lo, |s| - lo, x);
    LowerBoundAscending(s, 0, |s|, x);
    CountAtLeastCut(s, LowerBound(s, lo, |s| - lo, x), x);
    CountAtLeastCut(s, LowerBound(s, 0, |s|, x), x);
  }

  // ---- One band of prices.

  /** How many samples lie at or past the search position, seat by seat from `first` to `last`. */
  function SearchReach(s: seq<real>, lo: nat, first: nat, last: nat): (r: seq<nat>)
    requires lo <= |s|
    ensures |r| == Max(0, last - first + 1)
    ensures forall i | 0 <= i < |r| :: r[i] <= |s| - lo
    decreases last + 1 - first
  {
    if first > last then []
    else
      var p := LowerBound(s, lo, |s| - lo, first as real);
      [|s| - p] + SearchReach(s, p, first + 1, last)
  }

  /** How many samples reach each seat, counted afresh. */
  function CountReach(s: seq<real>, first: nat, last: nat): (r: seq<nat>)
    ensures |r| == Max(0, last - first + 1)
    ensures forall i | 0 <= i < |r| :: r[i] <= |s|
    decreases last + 1 - first
  {
    if first > last then [] else [CountAtLeast(s, first as real)] + CountReach(s, first + 1, last)
  }

  lemma {:induction false} CountReachAt(s: seq<real>, first: nat, last: nat, i: nat)
    requires first + i <= last
    ensures CountReach(s, first, last)[i] == CountAtLeast(s, (first + i) as real)
    decreases i
  {
    if i > 0 {
      CountReachAt(s, first + 1, last, i - 1);
    }
  }

  /** The fast resumed search refines the plain count on ascending samples. */
  lemma {:induction false} SearchCounts(s: seq<real>, lo: nat, first: nat, last: nat)
    requires lo <= |s| && Ascending(s)
    requires forall i | 0 <= i < lo :: s[i] < first as real
    ensures SearchReach(s, lo, first, last) == CountReach(s, first, last)
    decreases last + 1 - first
  {
    hide LowerBound, SearchReach, CountReach, CountAtLeast, Ascending;
    ReachStep(s, lo, first, last);
    if first <= last {
      var p := LowerBound(s, lo, |s| - lo, first as real);
      LowerBoundAscending(s, lo, |s| - lo, first as real);
      ResumedSearchCounts(s, lo, first as real);
      SearchCounts(s, p, first + 1, last);
    }
  }

  lemma ReachStep(s: seq<real>, lo: nat, first: nat, last: nat)
    requires lo <= |s|
    ensures first > last ==> SearchReach(s, lo, first, last) == CountReach(s, first, last) == []
    ensures first <= last ==>
      var p := LowerBound(s, lo, |s| - lo, first as real);
      && SearchReach(s, lo, first, last) == [|s| - p] + SearchReach(s, p, first + 1, last)
      && CountReach(s, first, last) == [CountAtLeast(s, first as real)] + CountReach(s, first + 1, last)
  {
    hide LowerBound, CountAtLeast;
  }

  /** The search never moves back, so its reach falls with the seat on ANY samples. */
  lemma {:induction false} SearchReachFalls(s: seq<real>, lo: nat, first: nat, last: nat)
    requires lo <= |s|
    ensures forall i, j | 0 <= i < j < |SearchReach(s, lo, first, last)| ::
      SearchReach(s, lo, first, last)[i] >= SearchReach(s, lo, first, last)[j]
    decreases last + 1 - first
  {
    if first <= last {
      SearchReachFalls(s, LowerBound(s, lo, |s| - lo, first as real), first + 1, last);
    }
  }

  /** The price of a seat that `reach` of the `size` samples demand. */
  function Price(y: real, reach: nat, size: nat): real
    requires 0 < size
  {
    Portion(y, reach as real, size as real)
  }

  function Portion(y: real, a: real, k: real): real
    requires k != 0.0
  {
    y * a / k
  }

  /** The prices that belong to a list of reaches. */
  function Prices(y: real, size: nat, reach: seq<nat>): (r: seq<real>)
    requires 0 < size
    ensures |r| == |reach|
    ensures forall i | 0 <= i < |r| :: r[i] == Price(y, reach[i], size)
  {
    seq(|reach|, i requires 0 <= i < |reach| => Price(y, reach[i], size))
  }

  lemma PriceMonotone(y: real, a: nat, b: nat, size: nat)
    requires 0 < size && a <= b <= size && y >= 0.0
    ensures 0.0 <= Price(y, a, size) <= Price(y, b, size) <= y
  {
    hide Portion;
    PortionMonotone(y, a as real, b as real, size as real);
  }

  lemma PortionMonotone(y: real, a: real, b: real, k: real)
    requires 0.0 <= a <= b <= k && 0.0 < k && y >= 0.0
    ensures 0.0 <= Portion(y, a, k) <= Portion(y, b, k) <= y
  {
    MulMono(0.0, a, y);
    MulMono(a, b, y);
    MulMono(b, k, y);
    DivMono(y * a, y * b, k);
    DivLe(y * a, 0.0, k);
    DivLe(y * b, y, k);
  }

  /** A falling reach gives non-increasing prices between zero and the yield. */
  lemma PricesFall(y: real, size: nat, reach: seq<nat>)
    requires 0 < size && y >= 0.0
    requires forall i | 0 <= i < |reach| :: reach[i] <= size
    requires forall i, j | 0 <= i < j < |reach| :: reach[i] >= reach[j]
    ensures NonIncreasing(Prices(y, size, reach))
    ensures AllAtMost(Prices(y, size, reach), y) && AllAtLeast(Prices(y, size, reach), 0.0)
  {
    var r := Prices(y, size, reach);
    forall i | 0 <= i < |r|
      ensures 0.0 <= r[i] <= y
    {
      PriceMonotone(y, reach[i], reach[i], size);
    }
    forall i, j | 0 <= i < j < |r|
      ensures r[i] >= r[j]
    {
      PriceMonotone(y, reach[j], reach[i], size);
    }
  }

  // ---- The rounds. `cuts[j]` is the number of lowest samples that round `j` drops.

  /** The optimal index `lj`: the share `(y - yNext) / y` of the samples, rounded down. */
  function Cut(y: real, yNext: real, size: int): nat {
    if y <= 0.0 then 0 else Max(0, (size as real * (y - yNext) / y).Floor)
  }

  /** The number of partial sums at the start of round `j`. */
  function Size(ds: seq<Demand>, cuts: seq<nat>, j: nat): int
    requires j < |ds| && j <= |cuts|
  {
    if j == 0 then |ds[0].samples| else Size(ds, cuts, j - 1) - cuts[j - 1]
  }

  /** The cuts of the first `n` rounds. */
  function CutList(ds: seq<Demand>, n: nat): (cuts: seq<nat>)
    requires n < |ds|
    ensures |cuts| == n
  {
    if n == 0 then []
    else
      var cuts := CutList(ds, n - 1);
      cuts + [Cut(ds[n - 1].unitYield, ds[n].unitYield, Size(ds, cuts, n - 1))]
  }

  function Cuts(ds: seq<Demand>): (cuts: seq<nat>)
    requires 0 < |ds|
    ensures |cuts| + 1 == |ds|
  {
    CutList(ds, |ds| - 1)
  }

  ghost predicate YieldsFall(ds: seq<Demand>) {
    forall i | 0 <= i < |ds| - 1 :: ds[i].unitYield > ds[i + 1].unitYield
  }

  /** Every round keeps a sample on both sides of its cut and has enough next samples. */
  ghost predicate Fits(ds: seq<Demand>, cuts: seq<nat>) {
    && |cuts| + 1 == |ds|
    && forall j | 0 <= j < |cuts| :: 1 <= cuts[j] < Size(ds, cuts, j) <= |ds[j + 1].samples|
  }

  /** What the assertions and divisions of a run ask of the yields and sample counts. */
  ghost predicate AssertionsPass(ds: seq<Demand>) {
    0 < |ds| && 0 < |ds[0].samples| && YieldsFall(ds) && Fits(ds, Cuts(ds))
  }

  /** The average of the two samples on either side of the cut. */
  function Protection(s: seq<real>, cut: nat): real
    requires 1 <= cut < |s|
  {
    (s[cut - 1] + s[cut]) / 2.0
  }

  /** The partial sums of the next round: the kept samples plus the next demand. */
  function Kept(s: seq<real>, cut: nat, next: seq<real>): (r: seq<real>)
    requires cut <= |s| && |s| - cut <= |next|
    ensures |r| == |s| - cut
    ensures forall i | 0 <= i < |r| :: r[i] == s[i + cut] + next[i]
  {
    seq(|s| - cut, i requires 0 <= i < |s| - cut => s[i + cut] + next[i])
  }

  /** The partial sums at the start of round `j`. */
  ghost function Holder(ds: seq<Demand>, cuts: seq<nat>, j: nat): (h: seq<real>)
    requires Fits(ds, cuts) && j < |ds|
    ensures |h| == Size(ds, cuts, j)
  {
    if j == 0 then ds[0].samples
    else Kept(Sort(Holder(ds, cuts, j - 1)), cuts[j - 1], ds[j].samples)
  }

  /** The protection that round `j` computes. */
  ghost function ProtectionAt(ds: seq<Demand>, cuts: seq<nat>, j: nat): real
    requires Fits(ds, cuts) && j < |cuts|
  {
    Protection(Sort(Holder(ds, cuts, j)), cuts[j])
  }

  /** The protections of the first `n` rounds. */
  ghost function ProtectionsUpTo(ds: seq<Demand>, cuts: seq<nat>, n: nat): (ps: seq<real>)
    requires Fits(ds, cuts) && n <= |cuts|
    ensures |ps| == n
    ensures forall j | 0 <= j < n :: ps[j] == ProtectionAt(ds, cuts, j)
  {
    if n == 0 then [] else ProtectionsUpTo(ds, cuts, n - 1) + [ProtectionAt(ds, cuts, n - 1)]
  }

  /** The last seat that round `j` may price. */
  ghost function LastSeat(ds: seq<Demand>, cuts: seq<nat>, cap: nat, j: nat): (x: nat)
    requires Fits(ds, cuts) && j < |cuts|
    ensures x <= cap
  {
    Min(ToIndex(ProtectionAt(ds, cuts, j)), cap)
  }

  /** The first seat that is still without a price at the start of round `j`. */
  ghost function FirstSeat(ds: seq<Demand>, cuts: seq<nat>, cap: nat, j: nat): (x: nat)
    requires Fits(ds, cuts) && j < |ds|
    ensures 1 <= x <= cap + 1
  {
    if j == 0 then 1 else Max(FirstSeat(ds, cuts, cap, j - 1), LastSeat(ds, cuts, cap, j - 1) + 1)
  }

  /** The prices of band `j`: the yield times the share of sorted sums that reach each seat. */
  ghost function BandPrices(ds: seq<Demand>, cuts: seq<nat>, cap: nat, j: nat): (r: seq<real>)
    requires Fits(ds, cuts) && j < |cuts|
    ensures |r| == Max(0, LastSeat(ds, cuts, cap, j) - FirstSeat(ds, cuts, cap, j) + 1)
  {
    var s := Sort(Holder(ds, cuts, j));
    Prices(ds[j].unitYield, |s|, CountReach(s, FirstSeat(ds, cuts, cap, j), LastSeat(ds, cuts, cap, j)))
  }

  /** All prices of the bands before `j`. */
  ghost function PricesUpTo(ds: seq<Demand>, cuts: seq<nat>, cap: nat, j: nat): seq<real>
    requires Fits(ds, cuts) && j < |ds|
  {
    if j == 0 then [] else PricesUpTo(ds, cuts, cap, j - 1) + BandPrices(ds, cuts, cap, j - 1)
  }

  // ---- The cut keeps the share of samples that the next yield needs.

  /** After the cut at least the share `yNext / y` of the samples is left. */
  ghost predicate KeepsShare(y: real, yNext: real, size: int, cut: int) {
    y * (size - cut) as real >= yNext * size as real
  }

  lemma CutKeepsShare(y: real, yNext: real, size: nat)
    requires y > yNext
    requires 1 <= Cut(y, yNext, size)
    ensures KeepsShare(y, yNext, size, Cut(y, yNext, size))
    ensures y > 0.0
  {
    var k, l := size as real, Cut(y, yNext, size) as real;
    var q := k * (y - yNext) / y;
    MulMono(l, q, y);
    assert q * y == k * (y - yNext);
    assert y * (k - l) == k * y - l * y;
  }

  lemma {:induction false} SizeDependsOnPrefix(ds: seq<Demand>, cuts: seq<nat>, extra: seq<nat>, j: nat)
    requires j < |ds| && j <= |cuts|
    ensures Size(ds, cuts + extra, j) == Size(ds, cuts, j)
  {
    if j > 0 {
      SizeDependsOnPrefix(ds, cuts, extra, j - 1);
    }
  }

  lemma {:induction false} CutListAt(ds: seq<Demand>, n: nat, j: nat)
    requires j < n < |ds|
    ensures CutList(ds, n)[j] == Cut(ds[j].unitYield, ds[j + 1].unitYield, Size(ds, CutList(ds, n), j))
  {
    hide Cut;
    var cuts := CutList(ds, n - 1);
    var last := Cut(ds[n - 1].unitYield, ds[n].unitYield, Size(ds, cuts, n - 1));
    SizeDependsOnPrefix(ds, cuts, [last], j);
    if j < n - 1 {
      CutListAt(ds, n - 1, j);
    }
  }

  /** Every round keeps its share, and every yield that is followed by another is positive. */
  lemma RoundKeepsShare(ds: seq<Demand>, j: nat)
    requires AssertionsPass(ds) && j + 1 < |ds|
    ensures KeepsShare(ds[j].unitYield, ds[j + 1].unitYield, Size(ds, Cuts(ds), j), Cuts(ds)[j])
    ensures ds[j].unitYield > 0.0
  {
    hide Cut, KeepsShare;
    CutListAt(ds, |ds| - 1, j);
    CutKeepsShare(ds[j].unitYield, ds[j + 1].unitYield, Size(ds, Cuts(ds), j));
  }

  // ---- What every round keeps.

  /** Every seat up to the protection is reached by all samples past the cut. */
  lemma ProtectedSeatReach(s: seq<real>, cut: nat, x: real)
    requires Ascending(s) && 1 <= cut < |s| && x <= Protection(s, cut)
    ensures CountAtLeast(s, x) >= |s| - cut
  {
    assert s[cut - 1] <= s[cut];
    CountAtLeastAll(s[cut..], x);
    CountAtLeastAppend(s[..cut], s[cut..], x);
    assert s[..cut] + s[cut..] == s;
  }

  /** A price that all samples past the cut support is at least the next yield. */
  lemma ShareCoversNextYield(y: real, yNext: real, size: nat, cut: nat, reach: nat)
    requires y > 0.0 && cut < size && size - cut <= reach <= size
    requires KeepsShare(y, yNext, size, cut)
    ensures Price(y, reach, size) >= yNext
  {
    PriceMonotone(y, size - cut, reach, size);
    DivLe(y * (size - cut) as real, yNext, size as real);
  }

  lemma CountReachFalls(s: seq<real>, first: nat, last: nat)
    ensures forall i, j | 0 <= i < j < |CountReach(s, first, last)| ::
      CountReach(s, first, last)[i] >= CountReach(s, first, last)[j]
  {
    var r := CountReach(s, first, last);
    forall i, j | 0 <= i < j < |r|
      ensures r[i] >= r[j]
    {
      CountReachAt(s, first, last, i);
      CountReachAt(s, first, last, j);
      CountAtLeastAntitone(s, (first + i) as real, (first + j) as real);
    }
  }

  /** A band of sorted samples: every price up to the protection is at least the next yield. */
  lemma BandAboveNextYield(s: seq<real>, cut: nat, y: real, yNext: real, first: nat, last: nat)
    requires Ascending(s) && 1 <= cut < |s| && y > 0.0 && KeepsShare(y, yNext, |s|, cut)
    requires first <= last ==> last as real <= Protection(s, cut)
    ensures AllAtLeast(Prices(y, |s|, CountReach(s, first, last)), yNext)
  {
    hide Price, KeepsShare, Protection;
    var reach := CountReach(s, first, last);
    forall i | 0 <= i < |reach|
      ensures Price(y, reach[i], |s|) >= yNext
    {
      CountReachAt(s, first, last, i);
      ProtectedSeatReach(s, cut, (first + i) as real);
      ShareCoversNextYield(y, yNext, |s|, cut, reach[i]);
    }
  }

  /**
   * One band: non-increasing prices from its yield down to the next yield. A
   * protection of -1 or less wraps around and lets the band price every seat.
   */
  lemma BandWithinYields(ds: seq<Demand>, cap: nat, j: nat)
    requires AssertionsPass(ds) && j + 1 < |ds| && cap < INDEX_RANGE / 2
    ensures NonIncreasing(BandPrices(ds, Cuts(ds), cap, j))
    ensures AllAtMost(BandPrices(ds, Cuts(ds), cap, j), ds[j].unitYield)
    ensures AllAtLeast(BandPrices(ds, Cuts(ds), cap, j), ds[j + 1].unitYield)
         || (LastSeat(ds, Cuts(ds), cap, j) == cap && ProtectionAt(ds, Cuts(ds), j) <= -1.0)
  {
    hide Price, KeepsShare, Protection, Cut, Cuts;
    var cuts := Cuts(ds);
    var s, y := Sort(Holder(ds, cuts, j)), ds[j].unitYield;
    var first, last := FirstSeat(ds, cuts, cap, j), LastSeat(ds, cuts, cap, j);
    SortCorrect(Holder(ds, cuts, j));
    RoundKeepsShare(ds, j);
    CountReachFalls(s, first, last);
    PricesFall(y, |s|, CountReach(s, first, last));
    if last < cap || ProtectionAt(ds, cuts, j) > -1.0 {
      BandAboveNextYield(s, cuts[j], y, ds[j + 1].unitYield, first, last);
    }
  }

  /** One band appended to earlier prices, when the band covers the seats `first..last`. */
  lemma AppendBand(earlier: seq<real>, band: seq<real>, y: real, yNext: real, first: nat, last: nat, cap: nat)
    requires last <= cap && y > yNext
    requires |earlier| == first - 1 && |band| == Max(0, last - first + 1)
    requires NonIncreasing(earlier) && (first == cap + 1 || AllAtLeast(earlier, y))
    requires NonIncreasing(band) && AllAtMost(band, y) && (last == cap || AllAtLeast(band, yNext))
    ensures |earlier + band| == Max(first, last + 1) - 1
    ensures NonIncreasing(earlier + band)
    ensures Max(first, last + 1) == cap + 1 || AllAtLeast(earlier + band, yNext)
  {
    if first == cap + 1 {
      assert earlier + band == earlier;
    } else {
      NonIncreasingConcat(earlier, band, y);
    }
  }

  lemma RoundStep(ds: seq<Demand>, cap: nat, j: nat)
    requires AssertionsPass(ds) && 0 < j < |ds|
    ensures var cuts, i := Cuts(ds), j - 1;
      && Fits(ds, cuts) && ds[i].unitYield > ds[j].unitYield
      && PricesUpTo(ds, cuts, cap, j) == PricesUpTo(ds, cuts, cap, i) + BandPrices(ds, cuts, cap, i)
      && FirstSeat(ds, cuts, cap, j) == Max(FirstSeat(ds, cuts, cap, i), LastSeat(ds, cuts, cap, i) + 1)
  {
    hide Cuts, BandPrices, LastSeat;
    assert ds[j - 1].unitYield > ds[j - 1 + 1].unitYield;
  }

  /**
   * The invariant of the rounds: one price for every seat before `FirstSeat`,
   * the prices do not rise, and none is below the yield of the coming round
   * unless every seat is priced already.
   */
  lemma {:induction false} RoundInvariant(ds: seq<Demand>, cap: nat, j: nat)
    requires AssertionsPass(ds) && j < |ds| && cap < INDEX_RANGE / 2
    ensures |PricesUpTo(ds, Cuts(ds), cap, j)| == FirstSeat(ds, Cuts(ds), cap, j) - 1
    ensures NonIncreasing(PricesUpTo(ds, Cuts(ds), cap, j))
    ensures FirstSeat(ds, Cuts(ds), cap, j) == cap + 1
         || AllAtLeast(PricesUpTo(ds, Cuts(ds), cap, j), ds[j].unitYield)
  {
    if j > 0 {
      RoundStep(ds, cap, j);
      hide Cut, Cuts, BandPrices, PricesUpTo, FirstSeat, LastSeat, Fits, AssertionsPass,
           NonIncreasing, AllAtLeast, AllAtMost;
      var cuts := Cuts(ds);
      RoundInvariant(ds, cap, j - 1);
      BandWithinYields(ds, cap, j - 1);
      AppendBand(PricesUpTo(ds, cuts, cap, j - 1), BandPrices(ds, cuts, cap, j - 1),
                 ds[j - 1].unitYield, ds[j].unitYield,
                 FirstSeat(ds, cuts, cap, j - 1), LastSeat(ds, cuts, cap, j - 1), cap);
    }
  }
}
