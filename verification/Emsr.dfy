/** The EMSR heuristics: the bid price vector from marginal seat values, and EMSR-b. */
module Emsr {
  import opened Sequences
  import opened Inventory
  import opened SeatValues
  import opened Totals

  // The normal distribution: `Tail(mean, variance, k)` is the probability that demand reaches `k`,
  // and `Quantile(mean, variance, ratio)` the demand that is exceeded with probability `ratio`.
  type Tail = (real, real, nat) -> real
  type Quantile = (real, real, real) -> real

  /** What the optimisation reads of a virtual class. */
  datatype Bucket = Bucket(unitYield: real, mean: real, variance: real)

  function BucketOf(vc: VirtualClass): (b: Bucket)
    reads vc`unitYield, vc`mean, vc`variance
    ensures b.unitYield == vc.unitYield && b.mean == vc.mean && b.variance == vc.variance
  {
    Bucket(vc.unitYield, vc.mean, vc.variance)
  }

  function Buckets(vcs: seq<VirtualClass>): (bs: seq<Bucket>)
    reads vcs`unitYield, vcs`mean, vcs`variance
    ensures |bs| == |vcs|
    ensures forall i | 0 <= i < |vcs| :: bs[i] == BucketOf(vcs[i])
  {
    if vcs == [] then [] else Buckets(vcs[..|vcs| - 1]) + [BucketOf(vcs[|vcs| - 1])]
  }

  // ---- EMSR: all marginal values, merged.

  /** The expected marginal revenue of the `k`-th seat of a class. */
  function EmsrValue(tail: Tail, b: Bucket, k: nat): real {
    b.unitYield * tail(b.mean, b.variance, k)
  }

  /** The values of the seats `1..n` of a class. */
  function EmsrTable(tail: Tail, b: Bucket, n: nat): (t: seq<real>)
    ensures |t| == n
    ensures forall i | 0 <= i < n :: t[i] == EmsrValue(tail, b, i + 1)
  {
    if n == 0 then [] else EmsrTable(tail, b, n - 1) + [EmsrValue(tail, b, n)]
  }

  function EmsrTables(tail: Tail, bs: seq<Bucket>, n: nat): (ts: seq<seq<real>>)
    ensures |ts| == |bs|
    ensures forall i | 0 <= i < |bs| :: ts[i] == EmsrTable(tail, bs[i], n)
  {
    if bs == [] then []
    else EmsrTables(tail, bs[..|bs| - 1], n) + [EmsrTable(tail, bs[|bs| - 1], n)]
  }

  /** A probability of reaching a demand, which falls with the demand. */
  ghost predicate IsTail(tail: Tail) {
    && (forall m, v, k :: 0.0 <= tail(m, v, k) <= 1.0)
    && (forall m, v, j: nat, k: nat | j <= k :: tail(m, v, k) <= tail(m, v, j))
  }

  /** A seat's marginal value is non-negative and falls with the seats of its class. */
  lemma EmsrTableFalls(tail: Tail, b: Bucket, n: nat)
    requires IsTail(tail) && b.unitYield >= 0.0
    ensures NonIncreasing(EmsrTable(tail, b, n)) && AllAtLeast(EmsrTable(tail, b, n), 0.0)
  {
    var t := EmsrTable(tail, b, n);
    forall i, j | 0 <= i <= j < n
      ensures 0.0 <= t[j] <= t[i]
    {
      MulMono(tail(b.mean, b.variance, j + 1), tail(b.mean, b.variance, i + 1), b.unitYield);
      MulMono(0.0, tail(b.mean, b.variance, j + 1), b.unitYield);
    }
  }

  lemma {:induction false} MergedLength(tail: Tail, bs: seq<Bucket>, n: nat)
    ensures |Merged(EmsrTables(tail, bs, n))| == |bs| * n
  {
    hide EmsrTable;
    if bs != [] {
      var m := |bs| - 1;
      MergedLength(tail, bs[..m], n);
      assert EmsrTables(tail, bs, n)[..m] == EmsrTables(tail, bs[..m], n);
      OneMoreTime(m, n);
    }
  }

  lemma OneMoreTime(m: nat, n: nat)
    ensures (m + 1) * n == m * n + n && 0 * n == 0
  {
  }

  lemma EnoughValues(tail: Tail, bs: seq<Bucket>, n: nat)
    requires bs == [] ==> n == 0
    ensures n <= |Merged(EmsrTables(tail, bs, n))|
  {
    MergedLength(tail, bs, n);
    if bs != [] {
      assert |bs| * n >= n;
    }
  }

  lemma {:induction false} MergedNonNegative(tail: Tail, bs: seq<Bucket>, n: nat)
    requires IsTail(tail) && forall i | 0 <= i < |bs| :: bs[i].unitYield >= 0.0
    ensures AllAtLeast(Merged(EmsrTables(tail, bs, n)), 0.0)
  {
    hide IsTail, EmsrTable;
    if bs != [] {
      var m := |bs| - 1;
      MergedNonNegative(tail, bs[..m], n);
      EmsrTableFalls(tail, bs[m], n);
      assert EmsrTables(tail, bs, n)[..m] == EmsrTables(tail, bs[..m], n);
    }
  }

  /** The expected number of passengers of a class that is given `k` seats: the sum of the tails up to `k`. */
  ghost function ExpectedSales(tail: Tail, b: Bucket, k: nat): real {
    if k == 0 then 0.0 else ExpectedSales(tail, b, k - 1) + tail(b.mean, b.variance, k)
  }

  /** The expected revenue of a split of the seats among the classes. */
  ghost function ExpectedRevenue(tail: Tail, bs: seq<Bucket>, seats: seq<nat>): real
    requires |seats| == |bs|
  {
    if bs == [] then 0.0
    else
      var n := |bs| - 1;
      ExpectedRevenue(tail, bs[..n], seats[..n]) + bs[n].unitYield * ExpectedSales(tail, bs[n], seats[n])
  }

  lemma {:induction false} TableIsRevenue(tail: Tail, b: Bucket, n: nat, k: nat)
    requires k <= n
    ensures Sum(EmsrTable(tail, b, n)[..k]) == b.unitYield * ExpectedSales(tail, b, k)
  {
    var t := EmsrTable(tail, b, n);
    if k > 0 {
      TableIsRevenue(tail, b, n, k - 1);
      assert t[..k][..k - 1] == t[..k - 1];
      assert t[k - 1] == b.unitYield * tail(b.mean, b.variance, k);
      SplitProduct(b.unitYield, ExpectedSales(tail, b, k - 1), tail(b.mean, b.variance, k));
    }
  }

  lemma SplitProduct(y: real, a: real, b: real)
    ensures y * (a + b) == y * a + y * b
  {
  }

  lemma {:induction false} ValueIsRevenue(tail: Tail, bs: seq<Bucket>, n: nat, seats: seq<nat>)
    requires |seats| == |bs| && forall i | 0 <= i < |seats| :: seats[i] <= n
    ensures Allocation(EmsrTables(tail, bs, n), seats)
    ensures TotalValue(EmsrTables(tail, bs, n), seats) == ExpectedRevenue(tail, bs, seats)
  {
    hide EmsrTable, ExpectedSales, Sum;
    if bs != [] {
      var m := |bs| - 1;
      ValueIsRevenue(tail, bs[..m], n, seats[..m]);
      assert EmsrTables(tail, bs, n)[..m] == EmsrTables(tail, bs[..m], n);
      TableIsRevenue(tail, bs[m], n, seats[m]);
    }
  }

  lemma {:induction false} NoSeatsBeyond(seats: seq<nat>)
    ensures forall i | 0 <= i < |seats| :: seats[i] <= Seats(seats)
  {
    if seats != [] {
      NoSeatsBeyond(seats[..|seats| - 1]);
      forall i | 0 <= i < |seats|
        ensures seats[i] <= Seats(seats)
      {
        if i < |seats| - 1 { assert seats[i] == seats[..|seats| - 1][i]; }
      }
    }
  }

  lemma ShorterPrices(tables: seq<seq<real>>, c: nat, n: nat)
    requires c <= n <= |Merged(tables)|
    ensures BidPriceVector(tables, n)[..c] == BidPriceVector(tables, c)
  {
    hide Merged, SortDown;
  }

  /** The split of at most `c` seats, as an allocation of the tables. */
  lemma SplitWithin(tail: Tail, bs: seq<Bucket>, n: nat, c: nat, seats: seq<nat>)
    requires |seats| == |bs| && Seats(seats) <= c <= n
    ensures Allocation(EmsrTables(tail, bs, n), seats)
    ensures TotalValue(EmsrTables(tail, bs, n), seats) == ExpectedRevenue(tail, bs, seats)
  {
    hide Seats, TotalValue, EmsrTable, ExpectedRevenue;
    NoSeatsBeyond(seats);
    ValueIsRevenue(tail, bs, n, seats);
  }

  /**
   * The EMSR bid price vector is optimal for every number of seats: its first
   * `c` prices bound the expected revenue of every split of at most `c` seats
   * among the classes, and some split of exactly `c` seats earns that much.
   */
  lemma EmsrIsOptimal(tail: Tail, bs: seq<Bucket>, n: nat, c: nat)
    requires IsTail(tail) && bs != [] && forall i | 0 <= i < |bs| :: bs[i].unitYield >= 0.0
    requires c <= n
    ensures n <= |Merged(EmsrTables(tail, bs, n))|
    ensures forall seats: seq<nat> | |seats| == |bs| && Seats(seats) <= c ::
      ExpectedRevenue(tail, bs, seats) <= Sum(BidPriceVector(EmsrTables(tail, bs, n), n)[..c])
    ensures exists seats: seq<nat> ::
      (&& |seats| == |bs| && Seats(seats) == c
       && ExpectedRevenue(tail, bs, seats) == Sum(BidPriceVector(EmsrTables(tail, bs, n), n)[..c]))
  {
    hide *;
    var ts := EmsrTables(tail, bs, n);
    MergedNonNegative(tail, bs, n);
    EnoughValues(tail, bs, n);
    ShorterPrices(ts, c, n);
    forall seats: seq<nat> | |seats| == |bs| && Seats(seats) <= c
      ensures ExpectedRevenue(tail, bs, seats) <= Sum(BidPriceVector(ts, c))
    {
      SplitWithin(tail, bs, n, c, seats);
      BidPricesBoundEverySplit(ts, seats, c);
    }
    forall i | 0 <= i < |ts|
      ensures NonIncreasing(ts[i])
    {
      EmsrTableFalls(tail, bs[i], n);
    }
    var seats := BidPricesAreAttained(ts, c);
    AllocationLength(ts, seats);
    SplitWithin(tail, bs, n, c, seats);
  }

  lemma AllocationLength(tables: seq<seq<real>>, seats: seq<nat>)
    requires Allocation(tables, seats)
    ensures |seats| == |tables|
  {
  }

  // ---- The protection walk.

  /** The lowest of the yields after the first, up to that of class `j + 1`. */
  function LowestYield(bs: seq<Bucket>, j: nat): real
    requires j + 1 < |bs|
  {
    if j == 0 then bs[1].unitYield
    else
      var y := LowestYield(bs, j - 1);
      if bs[j + 1].unitYield < y then bs[j + 1].unitYield else y
  }

  /** Class `j` protects the seats whose price is above every yield of a lower class so far. */
  function WalkProtections(bs: seq<Bucket>, prices: seq<real>, n: nat): (ps: seq<real>)
    requires n < |bs|
    ensures |ps| == n
    ensures forall j | 0 <= j < n :: ps[j] == CountAbove(prices, LowestYield(bs, j)) as real
  {
    if n == 0 then []
    else WalkProtections(bs, prices, n - 1) + [CountAbove(prices, LowestYield(bs, n - 1)) as real]
  }

  /** Yields that never rise; the virtual classes need not differ in yield here. */
  ghost predicate YieldsNeverRise(bs: seq<Bucket>) {
    forall i, k | 0 <= i < k < |bs| :: bs[k].unitYield <= bs[i].unitYield
  }

  /** With falling yields the lowest yield so far is the next one. */
  lemma {:induction false} LowestIsNext(bs: seq<Bucket>, j: nat)
    requires YieldsNeverRise(bs) && j + 1 < |bs|
    ensures LowestYield(bs, j) == bs[j + 1].unitYield
  {
    if j > 0 {
      LowestIsNext(bs, j - 1);
    }
  }

  lemma {:induction false} CountAboveAntitone(s: seq<real>, x: real, y: real)
    requires x <= y
    ensures CountAbove(s, y) <= CountAbove(s, x)
  {
    if s != [] {
      CountAboveAntitone(s[1..], x, y);
    }
  }

  /** Cumulated protections never fall along the classes, whatever the order of the yields. */
  lemma {:induction false} WalkRises(bs: seq<Bucket>, prices: seq<real>, i: nat, j: nat)
    requires i <= j && j + 1 < |bs|
    ensures 0 <= CountAbove(prices, LowestYield(bs, i)) <= CountAbove(prices, LowestYield(bs, j)) <= |prices|
    decreases j
  {
    if i < j {
      WalkRises(bs, prices, i, j - 1);
      CountAboveAntitone(prices, LowestYield(bs, j), LowestYield(bs, j - 1));
    }
  }

  /** Walks on from seat `from` while prices stay above the yield. */
  method Walk(prices: seq<real>, start: nat, y: real) returns (idx: nat)
    requires NonIncreasing(prices) && start <= |prices|
    ensures idx == Max(start, CountAbove(prices, y))
  {
    hide CountAbove;
    idx := start;
    while idx < |prices| && prices[idx] > y
      invariant start <= idx <= |prices|
      invariant idx == start || idx <= CountAbove(prices, y)
    {
      CountAboveIsPrefix(prices, idx, y);
      idx := idx + 1;
    }
    if idx < |prices| {
      CountAboveIsPrefix(prices, idx, y);
    }
  }

  method MergeValues(tail: Tail, vcs: seq<VirtualClass>, n: nat) returns (values: seq<real>)
    ensures values == Merged(EmsrTables(tail, Buckets(vcs), n))
  {
    hide Merged, EmsrTables, EmsrValue, Buckets, BucketOf;
    values := [];
    ghost var bs := Buckets(vcs);
    assert bs[..|vcs|] == bs;
    MergedNone(tail, bs, n);
    for i := 0 to |vcs|
      invariant values == Merged(EmsrTables(tail, bs[..i], n))
    {
      ghost var before := values;
      for k := 0 to n
        invariant values == before + EmsrTable(tail, bs[i], k)
      {
        values := values + [EmsrValue(tail, BucketOf(vcs[i]), k + 1)];
      }
      MergedOneMore(tail, bs, i, n);
    }
  }

  lemma MergedNone(tail: Tail, bs: seq<Bucket>, n: nat)
    ensures Merged(EmsrTables(tail, bs[..0], n)) == []
  {
  }

  lemma MergedOneMore(tail: Tail, bs: seq<Bucket>, i: nat, n: nat)
    requires i < |bs|
    ensures Merged(EmsrTables(tail, bs[..i + 1], n))
      == Merged(EmsrTables(tail, bs[..i], n)) + EmsrTable(tail, bs[i], n)
  {
    var ts := EmsrTables(tail, bs[..i + 1], n);
    assert bs[..i + 1][..i] == bs[..i];
    assert ts[..i] == EmsrTables(tail, bs[..i], n);
  }

  lemma WalkStep(bs: seq<Bucket>, prices: seq<real>, j: nat)
    requires j + 1 < |bs|
    ensures WalkProtections(bs, prices, j + 1)
      == WalkProtections(bs, prices, j) + [CountAbove(prices, LowestYield(bs, j)) as real]
    ensures CountAbove(prices, LowestYield(bs, j))
      == Max(if j == 0 then 0 else CountAbove(prices, LowestYield(bs, j - 1)), CountAbove(prices, bs[j + 1].unitYield))
  {
    if j > 0 {
      CountAboveAntitone(prices, LowestYield(bs, j), LowestYield(bs, j - 1));
      CountAboveAntitone(prices, LowestYield(bs, j), bs[j + 1].unitYield);
    }
  }

  lemma NothingWalked(bs: seq<Bucket>, prices: seq<real>)
    requires bs != []
    ensures WalkProtections(bs, prices, 0) == []
  {
  }

  /** Builds the protections and booking limits of consecutive classes in one pass over the prices. */
  method WalkClasses(vcs: seq<VirtualClass>, prices: seq<real>, capacity: real, ghost bs: seq<Bucket>)
    requires Distinct(vcs) && 0 < |vcs| && bs == Buckets(vcs) && NonIncreasing(prices)
    modifies vcs[..|vcs| - 1]`protection, vcs`bookingLimit
    ensures Protected(vcs, WalkProtections(bs, prices, |bs| - 1), capacity)
  {
    hide *;
    var idx, j, n := 0, 0, |vcs| - 1;
    NothingWalked(bs, prices);
    NothingProtected(vcs, capacity);
    while j < n
      invariant 0 <= j <= n
      invariant idx == if j == 0 then 0 else CountAbove(prices, LowestYield(bs, j - 1))
      invariant Protected(vcs, WalkProtections(bs, prices, j), capacity)
    {
      WalkStep(bs, prices, j);
      idx := Walk(prices, idx, vcs[j + 1].unitYield);
      SetProtection(vcs, j, idx as real, capacity, WalkProtections(bs, prices, j));
      j := j + 1;
    }
  }

  /**
   * With falling yields, every class but the last protects exactly the seats
   * whose price is above the next yield; along the classes the protections never
   * fall and the booking limits never rise.
   */
  lemma WalkControls(vcs: seq<VirtualClass>, bs: seq<Bucket>, prices: seq<real>, capacity: real, i: nat, j: nat)
    requires |bs| == |vcs| > 0 && Protected(vcs, WalkProtections(bs, prices, |bs| - 1), capacity)
    requires YieldsNeverRise(bs) && i <= j && j + 1 < |vcs|
    ensures vcs[j].protection == CountAbove(prices, bs[j + 1].unitYield) as real <= |prices| as real
    ensures vcs[i].protection <= vcs[j].protection
    ensures vcs[j + 1].bookingLimit <= vcs[i + 1].bookingLimit
  {
    hide *;
    ControlsAt(vcs, bs, prices, capacity, i);
    ControlsAt(vcs, bs, prices, capacity, j);
    LowestIsNext(bs, j);
    WalkRises(bs, prices, i, j);
  }

  /** On prices that never rise these are exactly the seats whose price is above the next yield. */
  lemma DearSeatsProtected(vcs: seq<VirtualClass>, bs: seq<Bucket>, prices: seq<real>, capacity: real, j: nat, x: nat)
    requires |bs| == |vcs| > 0 && Protected(vcs, WalkProtections(bs, prices, |bs| - 1), capacity)
    requires YieldsNeverRise(bs) && NonIncreasing(prices) && j + 1 < |vcs| && x < |prices|
    ensures prices[x] > bs[j + 1].unitYield <==> x as real < vcs[j].protection
    ensures vcs[j + 1].bookingLimit == capacity - vcs[j].protection
  {
    hide *;
    WalkControls(vcs, bs, prices, capacity, j, j);
    ControlsAt(vcs, bs, prices, capacity, j);
    CountAboveIsPrefix(prices, x, bs[j + 1].unitYield);
  }

  lemma ControlsAt(vcs: seq<VirtualClass>, bs: seq<Bucket>, prices: seq<real>, capacity: real, j: nat)
    requires |bs| == |vcs| > 0 && Protected(vcs, WalkProtections(bs, prices, |bs| - 1), capacity)
    requires j + 1 < |vcs|
    ensures vcs[j].protection == CountAbove(prices, LowestYield(bs, j)) as real
    ensures vcs[j + 1].bookingLimit == capacity - vcs[j].protection
  {
    hide CountAbove, LowestYield;
    assert WalkProtections(bs, prices, |bs| - 1)[j] == CountAbove(prices, LowestYield(bs, j)) as real;
  }

  lemma {:induction false} LowestOfPrefix(bs: seq<Bucket>, past: Bucket, j: nat)
    requires j + 1 < |bs|
    ensures LowestYield(bs + [past], j) == LowestYield(bs, j)
  {
    if j > 0 {
      LowestOfPrefix(bs, past, j - 1);
    }
  }

  /** A walk past the end of the list protects the listed classes as one that stops there. */
  lemma WalkPastEnd(vcs: seq<VirtualClass>, bs: seq<Bucket>, prices: seq<real>, capacity: real, pastEnd: VirtualClass,
                    past: Bucket)
    requires |bs| == |vcs| > 0
    requires Protected(vcs + [pastEnd], WalkProtections(bs + [past], prices, |bs|), capacity)
    ensures Protected(vcs, WalkProtections(bs, prices, |bs| - 1), capacity)
    ensures vcs[|vcs| - 1].protection == CountAbove(prices, LowestYield(bs + [past], |bs| - 1)) as real
    ensures pastEnd.bookingLimit == capacity - vcs[|vcs| - 1].protection
  {
    hide CountAbove, LowestYield;
    var ps, qs := WalkProtections(bs + [past], prices, |bs|), WalkProtections(bs, prices, |bs| - 1);
    forall j | 0 <= j < |bs| - 1
      ensures vcs[j].protection == qs[j] && vcs[j + 1].bookingLimit == capacity - qs[j]
    {
      LowestOfPrefix(bs, past, j);
      assert (vcs + [pastEnd])[j].protection == ps[j] && (vcs + [pastEnd])[j + 1].bookingLimit == capacity - ps[j];
    }
    assert (vcs + [pastEnd])[|bs| - 1].protection == ps[|bs| - 1];
    assert (vcs + [pastEnd])[|bs|].bookingLimit == capacity - ps[|bs| - 1];
  }

  /**
   * The EMSR heuristic: the bid price vector, then for two classes and more the
   * protections and booking limits. The last turn of the walk takes what stands
   * past the end of the list for the next class; `pastEnd` can be any.
   */
  method HeuristicOptimisationByEmsr(leg: LegCabin, tail: Tail, pastEnd: VirtualClass)
    requires Distinct(leg.virtualClasses + [pastEnd])
    requires leg.virtualClasses == [] ==> Trunc(leg.offeredCapacity) <= 0
    modifies leg`bidPrices, leg.virtualClasses`protection, leg.virtualClasses`bookingLimit, pastEnd`bookingLimit
    ensures var bs, n := old(Buckets(leg.virtualClasses)), Max(0, Trunc(leg.offeredCapacity));
      && n <= |Merged(EmsrTables(tail, bs, n))|
      && leg.bidPrices == BidPriceVector(EmsrTables(tail, bs, n), n)
      && (|bs| > 1 ==>
            && Protected(leg.virtualClasses + [pastEnd],
                         WalkProtections(bs + [BucketOf(pastEnd)], leg.bidPrices, |bs|), leg.offeredCapacity)
            && Protected(leg.virtualClasses, WalkProtections(bs, leg.bidPrices, |bs| - 1), leg.offeredCapacity))
    ensures |leg.virtualClasses| <= 1 ==>
      unchanged(leg.virtualClasses`protection, leg.virtualClasses`bookingLimit, pastEnd`bookingLimit)
  {
    hide *;
    var vcs, capacity := leg.virtualClasses, leg.offeredCapacity;
    var n := if Trunc(capacity) >= 0 then Trunc(capacity) else 0;
    assert n == Max(0, Trunc(capacity)) by { CapacityCase(Trunc(capacity)); }
    ghost var bs := Buckets(vcs);
    var values := MergeValues(tail, vcs, n);
    EnoughValues(tail, bs, n);
    SortDownCorrect(values);
    var sorted := SortDown(values);
    leg.bidPrices := sorted[..n];
    VectorIs(tail, bs, n);
    if |vcs| > 1 {
      PrefixFalls(sorted, n);
      BucketsPastEnd(vcs, pastEnd);
      WalkClasses(vcs + [pastEnd], leg.bidPrices, capacity, bs + [BucketOf(pastEnd)]);
      WalkPastEnd(vcs, bs, leg.bidPrices, capacity, pastEnd, BucketOf(pastEnd));
    }
  }

  lemma BucketsPastEnd(vcs: seq<VirtualClass>, pastEnd: VirtualClass)
    ensures Buckets(vcs + [pastEnd]) == Buckets(vcs) + [BucketOf(pastEnd)]
  {
  }

  lemma CapacityCase(c: int)
    ensures (if c >= 0 then c else 0) == Max(0, c)
  {
  }

  lemma PrefixFalls(s: seq<real>, n: nat)
    requires NonIncreasing(s) && n <= |s|
    ensures NonIncreasing(s[..n])
  {
  }

  lemma VectorIs(tail: Tail, bs: seq<Bucket>, n: nat)
    requires n <= |Merged(EmsrTables(tail, bs, n))|
    ensures BidPriceVector(EmsrTables(tail, bs, n), n) == SortDown(Merged(EmsrTables(tail, bs, n)))[..n]
  {
  }

  // ---- EMSR-b: the classes above are aggregated into one.

  /** The aggregate of a class and an aggregate of higher classes. */
  function Combine(a: Bucket, b: Bucket): Bucket {
    var mean := a.mean + b.mean;
    Bucket(if mean > 0.0 then (a.unitYield * a.mean + b.unitYield * b.mean) / mean else b.unitYield,
           mean, a.variance + b.variance)
  }

  /** The aggregate of the classes `0..j`. */
  function Aggregate(bs: seq<Bucket>, j: nat): Bucket
    requires j < |bs|
  {
    if j == 0 then bs[0] else Combine(Aggregate(bs, j - 1), bs[j])
  }

  function BucketMean(b: Bucket): real {
    b.mean
  }

  function BucketVariance(b: Bucket): real {
    b.variance
  }

  function BucketRevenue(b: Bucket): real {
    b.unitYield * b.mean
  }

  ghost predicate MeansNonNegative(bs: seq<Bucket>) {
    forall i | 0 <= i < |bs| :: bs[i].mean >= 0.0
  }

  /** Combining keeps mean, variance and revenue. */
  lemma CombineKeepsTotals(a: Bucket, b: Bucket)
    requires a.mean >= 0.0 && b.mean >= 0.0
    ensures var c := Combine(a, b);
      && c.mean == a.mean + b.mean && c.variance == a.variance + b.variance
      && c.unitYield * c.mean == a.unitYield * a.mean + b.unitYield * b.mean
  {
    if a.mean + b.mean <= 0.0 {
      assert a.mean == 0.0 && b.mean == 0.0;
    }
  }

  /** The aggregate holds the total mean, the total variance and the total revenue of its classes. */
  lemma {:induction false} AggregateTotals(bs: seq<Bucket>, j: nat)
    requires j < |bs| && MeansNonNegative(bs)
    ensures var a := Aggregate(bs, j);
      && a.mean == Total(bs[..j + 1], BucketMean) >= 0.0
      && a.variance == Total(bs[..j + 1], BucketVariance)
      && a.unitYield * a.mean == Total(bs[..j + 1], BucketRevenue)
  {
    hide Combine, Total;
    TotalPrefix(bs, BucketMean, j);
    TotalPrefix(bs, BucketVariance, j);
    TotalPrefix(bs, BucketRevenue, j);
    if j > 0 {
      AggregateTotals(bs, j - 1);
      CombineKeepsTotals(Aggregate(bs, j - 1), bs[j]);
    }
  }

  /** A mean-weighted yield lies between the two yields. */
  lemma CombinedYieldBetween(a: Bucket, b: Bucket)
    requires a.mean >= 0.0 && b.mean >= 0.0 && b.unitYield <= a.unitYield
    ensures b.unitYield <= Combine(a, b).unitYield <= a.unitYield
  {
    if a.mean + b.mean > 0.0 {
      WeightedBetween(a.unitYield, b.unitYield, a.mean, b.mean);
    }
  }

  lemma WeightedBetween(high: real, low: real, m: real, n: real)
    requires m >= 0.0 && n >= 0.0 && m + n > 0.0 && low <= high
    ensures low <= (high * m + low * n) / (m + n) <= high
  {
    MulMono(low, high, m);
    MulMono(low, high, n);
    Distribute(low, m, n);
    Distribute(high, m, n);
    DivLe(high * m + low * n, low, m + n);
    DivLe(high * m + low * n, high, m + n);
  }

  lemma Distribute(x: real, m: real, n: real)
    ensures x * (m + n) == x * m + x * n
  {
  }

  /** With falling yields the aggregate's yield is at least that of the last class it took in. */
  lemma {:induction false} AggregateYieldBetween(bs: seq<Bucket>, j: nat)
    requires j < |bs| && MeansNonNegative(bs)
    requires forall i, k | 0 <= i < k < |bs| :: bs[k].unitYield < bs[i].unitYield
    ensures bs[j].unitYield <= Aggregate(bs, j).unitYield <= bs[0].unitYield
  {
    hide Combine;
    if j > 0 {
      AggregateYieldBetween(bs, j - 1);
      AggregateTotals(bs, j - 1);
      CombinedYieldBetween(Aggregate(bs, j - 1), bs[j]);
    }
  }

  /** The ratio that the quantile is asked for is a probability strictly between 0 and 1. */
  lemma YieldRatioInside(bs: seq<Bucket>, j: nat)
    requires j + 1 < |bs| && MeansNonNegative(bs)
    requires forall i, k | 0 <= i < k < |bs| :: bs[k].unitYield < bs[i].unitYield
    requires bs[|bs| - 1].unitYield > 0.0
    ensures Aggregate(bs, j).unitYield > 0.0
    ensures 0.0 < bs[j + 1].unitYield / Aggregate(bs, j).unitYield < 1.0
  {
    hide Aggregate;
    AggregateYieldBetween(bs, j);
    var y, a := bs[j + 1].unitYield, Aggregate(bs, j).unitYield;
    assert 0.0 < y < a;
    DivLe(y, 1.0, a);
    DivLe(y, 0.0, a);
    assert y / a * a == y;
  }

  /** The protection of an aggregate against the next class, by the Littlewood formula. */
  function ProtectionLevel(quantile: Quantile, a: Bucket, next: Bucket): real
    requires a.unitYield != 0.0
  {
    quantile(a.mean, a.variance, next.unitYield / a.unitYield)
  }

  /** The aggregate of classes without demand has the yield of the last of them. */
  lemma {:induction false} AggregateWithoutDemand(bs: seq<Bucket>, j: nat)
    requires j < |bs| && MeansNonNegative(bs) && forall i | 0 <= i <= j :: bs[i].mean == 0.0
    ensures Aggregate(bs, j).mean == 0.0 && Aggregate(bs, j).unitYield == bs[j].unitYield
  {
    if j > 0 {
      AggregateWithoutDemand(bs, j - 1);
    }
  }

  /** Every aggregate has a yield to divide by. */
  ghost predicate YieldsAssigned(bs: seq<Bucket>) {
    forall j | 0 <= j < |bs| - 1 :: Aggregate(bs, j).unitYield != 0.0
  }

  ghost function EmsrBProtections(quantile: Quantile, bs: seq<Bucket>, n: nat): (ps: seq<real>)
    requires n < |bs| && YieldsAssigned(bs)
    ensures |ps| == n
    ensures forall j | 0 <= j < n :: ps[j] == ProtectionLevel(quantile, Aggregate(bs, j), bs[j + 1])
  {
    if n == 0 then []
    else
      EmsrBProtections(quantile, bs, n - 1) + [ProtectionLevel(quantile, Aggregate(bs, n - 1), bs[n])]
  }

  /** The probability that demand exceeds a number of seats, which the quantile inverts. */
  type Survival = (real, real, real) -> real

  ghost predicate Inverts(quantile: Quantile, survive: Survival) {
    forall m, v, r | 0.0 < r < 1.0 :: survive(m, v, quantile(m, v, r)) == r
  }

  /**
   * Littlewood's rule: at its protection the aggregate of the classes so far is
   * expected to earn from one more seat exactly what the next class pays for it.
   */
  lemma LittlewoodRule(quantile: Quantile, survive: Survival, bs: seq<Bucket>, j: nat)
    requires j + 1 < |bs| && MeansNonNegative(bs) && YieldsAssigned(bs) && Inverts(quantile, survive)
    requires forall i, k | 0 <= i < k < |bs| :: bs[k].unitYield < bs[i].unitYield
    requires bs[|bs| - 1].unitYield > 0.0
    ensures var a, p := Aggregate(bs, j), EmsrBProtections(quantile, bs, |bs| - 1)[j];
      a.unitYield * survive(a.mean, a.variance, p) == bs[j + 1].unitYield
  {
    hide Aggregate, YieldsAssigned;
    YieldRatioInside(bs, j);
    var a, y := Aggregate(bs, j), bs[j + 1].unitYield;
    DivMul(y, a.unitYield);
    assert survive(a.mean, a.variance, quantile(a.mean, a.variance, y / a.unitYield)) == y / a.unitYield;
  }

  /** Adds one class to an aggregate, in place. */
  method ComputeAggregatedVirtualClass(aggregated: VirtualClass, current: VirtualClass)
    requires aggregated != current
    modifies aggregated`unitYield, aggregated`mean, aggregated`variance
    ensures BucketOf(aggregated) == Combine(old(BucketOf(aggregated)), BucketOf(current))
  {
    var newMean := aggregated.mean + current.mean;
    var newYield := current.unitYield;
    if newMean > 0.0 {
      newYield := (aggregated.unitYield * aggregated.mean + current.unitYield * current.mean) / newMean;
    }
    aggregated.unitYield := newYield;
    aggregated.mean := newMean;
    aggregated.variance := aggregated.variance + current.variance;
  }

  lemma EmsrBStep(quantile: Quantile, bs: seq<Bucket>, j: nat)
    requires j + 1 < |bs| && YieldsAssigned(bs)
    ensures Aggregate(bs, j).unitYield != 0.0
    ensures Aggregate(bs, j + 1) == Combine(Aggregate(bs, j), bs[j + 1])
    ensures EmsrBProtections(quantile, bs, j + 1)
      == EmsrBProtections(quantile, bs, j) + [ProtectionLevel(quantile, Aggregate(bs, j), bs[j + 1])]
  {
    hide Combine;
  }

  lemma NothingAggregated(quantile: Quantile, vcs: seq<VirtualClass>, bs: seq<Bucket>, capacity: real)
    requires 0 < |vcs| == |bs| && YieldsAssigned(bs)
    ensures EmsrBProtections(quantile, bs, 0) == [] && Protected(vcs, [], capacity) && Aggregate(bs, 0) == bs[0]
  {
  }

  /** EMSR-b: each class is protected as part of the aggregate of all classes above the next. */
  method HeuristicOptimisationByEmsrB(leg: LegCabin, quantile: Quantile)
    requires leg.virtualClasses != [] && Distinct(leg.virtualClasses)
    requires YieldsAssigned(Buckets(leg.virtualClasses))
    modifies leg.virtualClasses`protection, leg.virtualClasses`bookingLimit
    ensures YieldsAssigned(old(Buckets(leg.virtualClasses)))
    ensures var bs := old(Buckets(leg.virtualClasses));
      Protected(leg.virtualClasses, EmsrBProtections(quantile, bs, |bs| - 1), leg.offeredCapacity)
    ensures leg.virtualClasses[0].bookingLimit == leg.offeredCapacity
  {
    hide *;
    var vcs, capacity, j := leg.virtualClasses, leg.offeredCapacity, 0;
    ghost var bs := Buckets(vcs);
    vcs[0].bookingLimit := capacity;
    var aggregated := new VirtualClass.Copy(vcs[0]);
    NothingAggregated(quantile, vcs, bs, capacity);
    while j < |vcs| - 1
      invariant 0 <= j <= |vcs| - 1
      invariant fresh(aggregated) && BucketOf(aggregated) == Aggregate(bs, j)
      invariant forall i | 0 <= i < |vcs| :: BucketOf(vcs[i]) == bs[i]
      invariant vcs[0].bookingLimit == capacity
      invariant Protected(vcs, EmsrBProtections(quantile, bs, j), capacity)
    {
      EmsrBStep(quantile, bs, j);
      var protection := ProtectionLevel(quantile, BucketOf(aggregated), BucketOf(vcs[j + 1]));
      SetProtection(vcs, j, protection, capacity, EmsrBProtections(quantile, bs, j));
      ComputeAggregatedVirtualClass(aggregated, vcs[j + 1]);
      j := j + 1;
    }
  }
}
