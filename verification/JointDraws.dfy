/**
 * What a Monte-Carlo bid price is: the yield of its band times the share of the
 * joint demand draws that reach the seat, among those draws whose demand for the
 * higher classes went past every earlier protection.
 */
module JointDraws {
  import opened Sequences
  import opened BidPriceBands
  import opened BidPriceTheorems
  import opened UnsortedBand

  /** One sample of each of the first classes, by its position. */
  type Draw = seq<nat>

  ghost predicate IsDraw(ds: seq<Demand>, d: Draw) {
    |d| <= |ds| && forall c | 0 <= c < |d| :: d[c] < |ds[c].samples|
  }

  /** The demand of all classes that the draw covers. */
  ghost function DrawnDemand(ds: seq<Demand>, d: Draw): real
    requires IsDraw(ds, d)
  {
    if d == [] then 0.0
    else
      var n := |d| - 1;
      DrawnDemand(ds, d[..n]) + ds[n].samples[d[n]]
  }

  /** The demands of a list of draws. */
  ghost function DrawnDemands(ds: seq<Demand>, draws: seq<Draw>): (r: seq<real>)
    requires forall k | 0 <= k < |draws| :: IsDraw(ds, draws[k])
    ensures |r| == |draws|
    ensures forall k | 0 <= k < |r| :: r[k] == DrawnDemand(ds, draws[k])
  {
    seq(|draws|, k requires 0 <= k < |draws| => DrawnDemand(ds, draws[k]))
  }

  /** Draws of the first `n` classes, in which no sample occurs twice. */
  ghost predicate AreDraws(ds: seq<Demand>, n: nat, draws: seq<Draw>) {
    && (forall k | 0 <= k < |draws| :: |draws[k]| == n && IsDraw(ds, draws[k]))
    && (forall k, l, c | 0 <= k < l < |draws| && 0 <= c < n :: draws[k][c] != draws[l][c])
  }

  /** The draw goes on: one of the longer draws begins with it. */
  ghost predicate GoesOn(d: Draw, more: seq<Draw>) {
    exists l :: 0 <= l < |more| && |d| < |more[l]| && more[l][..|d|] == d
  }

  /**
   * The longer draws go on from draws that reach the protection `p`, and the
   * draws that do not go on, of which there are `cut`, do not exceed it.
   */
  ghost predicate Conditioned(ds: seq<Demand>, n: nat, draws: seq<Draw>, more: seq<Draw>, p: real, cut: nat)
    requires AreDraws(ds, n, draws) && AreDraws(ds, n + 1, more)
  {
    && |more| == |draws| - cut
    && (forall l | 0 <= l < |more| :: more[l][..n] in draws && DrawnDemand(ds, more[l][..n]) >= p)
    && (forall k | 0 <= k < |draws| && !GoesOn(draws[k], more) :: DrawnDemand(ds, draws[k]) <= p)
  }

  /**
   * The draws of every round up to the last listed one: at first all samples of
   * the first class, and then in each round those that its protection lets pass.
   */
  ghost predicate AreRounds(ds: seq<Demand>, rounds: seq<seq<Draw>>)
    requires AssertionsPass(ds)
  {
    && 0 < |rounds| <= |ds|
    && |rounds[0]| == |ds[0].samples|
    && (forall j | 0 <= j < |rounds| :: AreDraws(ds, j + 1, rounds[j]))
    && (forall j | 0 <= j < |rounds| - 1 ::
          Conditioned(ds, j + 1, rounds[j], rounds[j + 1], ProtectionAt(ds, Cuts(ds), j), Cuts(ds)[j]))
  }

  // ---- Sorting moves every sample to one place.

  /** `Sort(s)` lists the samples at the positions `pi`, which hold every position once. */
  ghost predicate Permutes(s: seq<real>, r: seq<real>, pi: seq<nat>) {
    && |pi| == |s| == |r|
    && (forall k | 0 <= k < |pi| :: pi[k] < |s| && r[k] == s[pi[k]])
    && (forall k, l | 0 <= k < l < |pi| :: pi[k] != pi[l])
    && (forall i: nat | i < |s| :: i in pi)
  }

  lemma {:induction false} InsertPlace(x: real, s: seq<real>) returns (p: nat)
    ensures p <= |s| && Insert(x, s) == s[..p] + [x] + s[p..]
  {
    if s == [] || x <= s[0] {
      p := 0;
    } else {
      assert Insert(x, s) == [s[0]] + Insert(x, s[1..]);
      hide Insert;
      var q := InsertPlace(x, s[1..]);
      p := q + 1;
      HeadBack(s, q, x);
    }
  }

  lemma HeadBack(s: seq<real>, q: nat, x: real)
    requires s != [] && q < |s|
    ensures [s[0]] + (s[1..][..q] + [x] + s[1..][q..]) == s[..q + 1] + [x] + s[q + 1..]
  {
  }

  /** The positions after a new first sample that goes to place `p`. */
  function Placed(pi: seq<nat>, p: nat): (r: seq<nat>)
    requires p <= |pi|
    ensures |r| == |pi| + 1
    ensures forall k | 0 <= k < |r| :: r[k] == if k < p then pi[k] + 1 else if k == p then 0 else pi[k - 1] + 1
  {
    seq(|pi| + 1, k requires 0 <= k < |pi| + 1 => if k < p then pi[k] + 1 else if k == p then 0 else pi[k - 1] + 1)
  }

  lemma PlacedOnce(pi: seq<nat>, p: nat)
    requires p <= |pi| && forall k, l | 0 <= k < l < |pi| :: pi[k] != pi[l]
    ensures forall k, l | 0 <= k < l < |Placed(pi, p)| :: Placed(pi, p)[k] != Placed(pi, p)[l]
  {
  }

  lemma PlacedAll(pi: seq<nat>, p: nat)
    requires p <= |pi| && forall i: nat | i < |pi| :: i in pi
    ensures forall i: nat | i < |pi| + 1 :: i in Placed(pi, p)
  {
    forall i: nat | i < |pi| + 1
      ensures i in Placed(pi, p)
    {
      if i == 0 {
        assert Placed(pi, p)[p] == 0;
      } else {
        assert i - 1 in pi;
        var k :| 0 <= k < |pi| && pi[k] == i - 1;
        assert Placed(pi, p)[if k < p then k else k + 1] == i;
      }
    }
  }

  lemma PlacedSamples(s: seq<real>, r: seq<real>, pi: seq<nat>, p: nat)
    requires s != [] && p <= |r| == |pi| == |s| - 1
    requires forall k | 0 <= k < |pi| :: pi[k] < |s| - 1 && r[k] == s[1..][pi[k]]
    ensures var more := r[..p] + [s[0]] + r[p..];
      forall k | 0 <= k < |s| :: Placed(pi, p)[k] < |s| && more[k] == s[Placed(pi, p)[k]]
  {
  }

  lemma PermutesInsert(s: seq<real>, r: seq<real>, pi: seq<nat>, p: nat)
    requires s != [] && Permutes(s[1..], r, pi) && p <= |r|
    ensures Permutes(s, r[..p] + [s[0]] + r[p..], Placed(pi, p))
  {
    PlacedOnce(pi, p);
    PlacedAll(pi, p);
    PlacedSamples(s, r, pi, p);
    hide Placed;
  }

  lemma {:induction false} SortPermutes(s: seq<real>) returns (pi: seq<nat>)
    ensures Permutes(s, Sort(s), pi)
  {
    if s == [] {
      pi := [];
    } else {
      hide Permutes, Placed;
      var before := SortPermutes(s[1..]);
      var p := InsertPlace(s[0], Sort(s[1..]));
      SameLength(s[1..], Sort(s[1..]), before);
      pi := Placed(before, p);
      PermutesInsert(s, Sort(s[1..]), before, p);
    }
  }

  lemma SameLength(s: seq<real>, r: seq<real>, pi: seq<nat>)
    requires Permutes(s, r, pi)
    ensures |pi| == |s| == |r|
  {
  }

  // ---- The rounds on draws.

  /** The draws past the cut, each with the next sample of the class that follows. */
  ghost function Extended(draws: seq<Draw>, pi: seq<nat>, cut: nat): (more: seq<Draw>)
    requires cut <= |pi| && forall k | 0 <= k < |pi| :: pi[k] < |draws|
    ensures |more| == |pi| - cut
    ensures forall l | 0 <= l < |more| :: more[l] == draws[pi[l + cut]] + [l]
  {
    seq(|pi| - cut, l requires 0 <= l < |pi| - cut => draws[pi[l + cut]] + [l])
  }

  lemma ExtendedAreDraws(ds: seq<Demand>, n: nat, draws: seq<Draw>, s: seq<real>, r: seq<real>, pi: seq<nat>, cut: nat)
    requires AreDraws(ds, n, draws) && Permutes(s, r, pi) && |draws| == |s| && cut <= |s|
    requires n < |ds| && |s| - cut <= |ds[n].samples|
    ensures AreDraws(ds, n + 1, Extended(draws, pi, cut))
  {
    var more := Extended(draws, pi, cut);
    forall k, l, c | 0 <= k < l < |more| && 0 <= c < n + 1
      ensures more[k][c] != more[l][c]
    {
      var a, b := pi[k + cut], pi[l + cut];
      assert a != b;
      if c < n {
        assert draws[a][c] != draws[b][c] by {
          if b < a { assert draws[b][c] != draws[a][c]; }
        }
      }
    }
  }

  lemma ExtendedDemand(ds: seq<Demand>, d: Draw, l: nat)
    requires IsDraw(ds, d) && |d| < |ds| && l < |ds[|d|].samples|
    ensures IsDraw(ds, d + [l]) && (d + [l])[..|d|] == d
    ensures DrawnDemand(ds, d + [l]) == DrawnDemand(ds, d) + ds[|d|].samples[l]
  {
    assert (d + [l])[..|d|] == d;
  }

  lemma ExtendedDemands(ds: seq<Demand>, n: nat, draws: seq<Draw>, h: seq<real>, pi: seq<nat>, cut: nat, l: nat)
    requires AreDraws(ds, n, draws) && Permutes(h, Sort(h), pi) && h == DrawnDemands(ds, draws)
    requires n < |ds| && cut <= |h| && |h| - cut <= |ds[n].samples| && l < |h| - cut
    ensures var more := Extended(draws, pi, cut);
      && IsDraw(ds, more[l]) && |more[l]| == n + 1 && IsDraw(ds, more[l][..n]) && more[l][..n] in draws
      && DrawnDemand(ds, more[l][..n]) == Sort(h)[l + cut]
      && DrawnDemand(ds, more[l]) == Kept(Sort(h), cut, ds[n].samples)[l]
  {
    hide Sort, DrawnDemand;
    ExtendedDemand(ds, draws[pi[l + cut]], l);
  }

  lemma KeptGoesOn(draws: seq<Draw>, pi: seq<nat>, cut: nat, m: nat)
    requires cut <= m < |pi| && forall k | 0 <= k < |pi| :: pi[k] < |draws|
    ensures GoesOn(draws[pi[m]], Extended(draws, pi, cut))
  {
    var d, more := draws[pi[m]], Extended(draws, pi, cut);
    assert more[m - cut] == d + [m - cut] && more[m - cut][..|d|] == d;
  }

  /** A draw that does not go on is one of the `cut` lowest. */
  lemma DroppedDraw(draws: seq<Draw>, h: seq<real>, pi: seq<nat>, cut: nat, k: nat) returns (m: nat)
    requires Permutes(h, Sort(h), pi) && |draws| == |h| && cut <= |h| && k < |draws|
    requires !GoesOn(draws[k], Extended(draws, pi, cut))
    ensures m < cut && Sort(h)[m] == h[k]
  {
    hide GoesOn, Sort, Extended;
    assert k in pi;
    m :| m < |pi| && pi[m] == k;
    if m >= cut {
      KeptGoesOn(draws, pi, cut, m);
    }
  }

  /** The protection stands in the middle between the dropped and the kept samples. */
  lemma ProtectionSplits(s: seq<real>, cut: nat)
    requires Ascending(s) && 1 <= cut < |s|
    ensures forall i | 0 <= i < cut :: s[i] <= Protection(s, cut)
    ensures forall i | cut <= i < |s| :: s[i] >= Protection(s, cut)
    ensures Protection(s, cut) - s[cut - 1] == s[cut] - Protection(s, cut)
  {
  }

  lemma ConditionedIs(ds: seq<Demand>, n: nat, draws: seq<Draw>, more: seq<Draw>, p: real, cut: nat)
    requires AreDraws(ds, n, draws) && AreDraws(ds, n + 1, more) && |more| == |draws| - cut
    requires forall l | 0 <= l < |more| ::
      IsDraw(ds, more[l][..n]) && more[l][..n] in draws && DrawnDemand(ds, more[l][..n]) >= p
    requires forall k | 0 <= k < |draws| && !GoesOn(draws[k], more) :: DrawnDemand(ds, draws[k]) <= p
    ensures Conditioned(ds, n, draws, more, p, cut)
  {
    hide GoesOn, DrawnDemand;
  }

  lemma PositionsIn(s: seq<real>, r: seq<real>, pi: seq<nat>)
    requires Permutes(s, r, pi)
    ensures forall k | 0 <= k < |pi| :: pi[k] < |s|
  {
  }

  lemma DrawsAreDraws(ds: seq<Demand>, n: nat, draws: seq<Draw>)
    requires AreDraws(ds, n, draws)
    ensures forall k | 0 <= k < |draws| :: |draws[k]| == n && IsDraw(ds, draws[k])
  {
  }

  lemma RoundConditions(ds: seq<Demand>, n: nat, draws: seq<Draw>, pi: seq<nat>, cut: nat)
    requires AreDraws(ds, n, draws) && forall k | 0 <= k < |draws| :: IsDraw(ds, draws[k])
    requires var h := DrawnDemands(ds, draws);
      Permutes(h, Sort(h), pi) && n < |ds| && 1 <= cut < |h| == |pi| && |h| - cut <= |ds[n].samples|
    requires forall k | 0 <= k < |pi| :: pi[k] < |draws|
    ensures var h, more := DrawnDemands(ds, draws), Extended(draws, pi, cut);
      && AreDraws(ds, n + 1, more) && (forall k | 0 <= k < |more| :: IsDraw(ds, more[k]))
      && Conditioned(ds, n, draws, more, Protection(Sort(h), cut), cut)
      && DrawnDemands(ds, more) == Kept(Sort(h), cut, ds[n].samples)
  {
    hide *;
    var h, more := DrawnDemands(ds, draws), Extended(draws, pi, cut);
    SortCorrect(h);
    ProtectionSplits(Sort(h), cut);
    ExtendedAreDraws(ds, n, draws, h, Sort(h), pi, cut);
    DrawsAreDraws(ds, n + 1, more);
    forall l | 0 <= l < |more|
      ensures IsDraw(ds, more[l][..n]) && more[l][..n] in draws
      ensures DrawnDemand(ds, more[l][..n]) >= Protection(Sort(h), cut)
      ensures DrawnDemands(ds, more)[l] == Kept(Sort(h), cut, ds[n].samples)[l]
    {
      ExtendedDemands(ds, n, draws, h, pi, cut, l);
    }
    forall k | 0 <= k < |draws| && !GoesOn(draws[k], more)
      ensures DrawnDemand(ds, draws[k]) <= Protection(Sort(h), cut)
    {
      var m := DroppedDraw(draws, h, pi, cut, k);
    }
    ConditionedIs(ds, n, draws, more, Protection(Sort(h), cut), cut);
  }

  /** All samples of the first class, each as a draw. */
  ghost function FirstDraws(n: nat): (draws: seq<Draw>)
    ensures |draws| == n && forall k | 0 <= k < n :: draws[k] == [k]
  {
    seq(n, k requires 0 <= k < n => [k])
  }

  lemma FirstDrawsAre(ds: seq<Demand>)
    requires ds != []
    ensures var draws := FirstDraws(|ds[0].samples|);
      && AreDraws(ds, 1, draws) && (forall k | 0 <= k < |draws| :: IsDraw(ds, draws[k]))
      && DrawnDemands(ds, draws) == ds[0].samples
  {
    var draws := FirstDraws(|ds[0].samples|);
    forall k | 0 <= k < |draws|
      ensures DrawnDemand(ds, draws[k]) == ds[0].samples[k]
    {
      assert draws[k][..0] == [];
    }
  }

  lemma FirstRound(ds: seq<Demand>, draws: seq<Draw>)
    requires AssertionsPass(ds) && |draws| == |ds[0].samples| && AreDraws(ds, 1, draws)
    ensures AreRounds(ds, [draws])
  {
    hide AreDraws;
  }

  lemma NextRound(ds: seq<Demand>, rounds: seq<seq<Draw>>, more: seq<Draw>)
    requires AssertionsPass(ds) && AreRounds(ds, rounds) && |rounds| < |ds|
    requires AreDraws(ds, |rounds|, rounds[|rounds| - 1]) && AreDraws(ds, |rounds| + 1, more)
    requires var j := |rounds| - 1;
      Conditioned(ds, j + 1, rounds[j], more, ProtectionAt(ds, Cuts(ds), j), Cuts(ds)[j])
    ensures AreRounds(ds, rounds + [more])
  {
    hide AreDraws, Conditioned, ProtectionAt, Cuts;
    var all := rounds + [more];
    forall j | 0 <= j < |all|
      ensures AreDraws(ds, j + 1, all[j])
    {
      if j < |rounds| { assert all[j] == rounds[j]; }
    }
    forall j | 0 <= j < |all| - 1
      ensures Conditioned(ds, j + 1, all[j], all[j + 1], ProtectionAt(ds, Cuts(ds), j), Cuts(ds)[j])
    {
      assert all[j] == rounds[j];
      if j + 1 < |rounds| { assert all[j + 1] == rounds[j + 1]; }
    }
  }

  lemma HolderStep(ds: seq<Demand>, j: nat)
    requires AssertionsPass(ds) && j + 1 < |ds|
    ensures Fits(ds, Cuts(ds)) && 1 <= Cuts(ds)[j] < |Holder(ds, Cuts(ds), j)|
    ensures |Holder(ds, Cuts(ds), j)| <= |ds[j + 1].samples|
    ensures ProtectionAt(ds, Cuts(ds), j) == Protection(Sort(Holder(ds, Cuts(ds), j)), Cuts(ds)[j])
    ensures Holder(ds, Cuts(ds), j + 1) == Kept(Sort(Holder(ds, Cuts(ds), j)), Cuts(ds)[j], ds[j + 1].samples)
  {
    hide Cuts, Protection, Kept;
  }

  lemma HolderStart(ds: seq<Demand>)
    requires AssertionsPass(ds)
    ensures ds != [] && Fits(ds, Cuts(ds)) && Holder(ds, Cuts(ds), 0) == ds[0].samples
  {
  }

  /** The rounds exist, and their partial sums are the demands of their draws. */
  lemma {:induction false} RoundsExist(ds: seq<Demand>, j: nat) returns (rounds: seq<seq<Draw>>)
    requires AssertionsPass(ds) && j < |ds|
    ensures AreRounds(ds, rounds) && |rounds| == j + 1
    ensures AreDraws(ds, j + 1, rounds[j]) && forall k | 0 <= k < |rounds[j]| :: IsDraw(ds, rounds[j][k])
    ensures Fits(ds, Cuts(ds)) && DrawnDemands(ds, rounds[j]) == Holder(ds, Cuts(ds), j)
  {
    hide *;
    HolderStart(ds);
    if j == 0 {
      var draws := FirstDraws(|ds[0].samples|);
      FirstDrawsAre(ds);
      FirstRound(ds, draws);
      rounds := [draws];
    } else {
      rounds := RoundsExist(ds, j - 1);
      HolderStep(ds, j - 1);
      var draws, h, cut := rounds[j - 1], Holder(ds, Cuts(ds), j - 1), Cuts(ds)[j - 1];
      var pi := SortPermutes(h);
      PositionsIn(h, Sort(h), pi);
      SameLength(h, Sort(h), pi);
      RoundConditions(ds, j, draws, pi, cut);
      NextRound(ds, rounds, Extended(draws, pi, cut));
      rounds := rounds + [Extended(draws, pi, cut)];
    }
  }

  // ---- The price of a seat.

  /** A price is the yield for every sample that reaches the seat, shared out among all samples. */
  lemma PriceIsShare(y: real, reach: nat, size: nat)
    requires 0 < size
    ensures Price(y, reach, size) * size as real == y * reach as real
  {
    DivMul(y * reach as real, size as real);
  }

  /** So each counted price of a band is the yield times the share of samples that reach its seat. */
  lemma CountedPriceIsShare(y: real, s: seq<real>, first: nat, last: nat, i: nat)
    requires s != [] && first + i <= last
    ensures Prices(y, |s|, CountReach(s, first, last))[i] * |s| as real
      == y * CountAtLeast(s, (first + i) as real) as real
  {
    hide Price;
    CountReachAt(s, first, last, i);
    PriceIsShare(y, CountReach(s, first, last)[i], |s|);
  }

  /** The band that prices seat `x`: past all earlier protections, and up to its own one. */
  ghost predicate InBand(ds: seq<Demand>, x: nat, j: nat)
    requires AssertionsPass(ds) && j < |ds|
  {
    && (forall i | 0 <= i < j :: ToIndex(ProtectionAt(ds, Cuts(ds), i)) < x)
    && (j + 1 < |ds| ==> x <= ToIndex(ProtectionAt(ds, Cuts(ds), j)))
  }

  lemma SeatsStep(ds: seq<Demand>, cuts: seq<nat>, cap: nat, j: nat)
    requires Fits(ds, cuts) && j < |cuts|
    ensures FirstSeat(ds, cuts, cap, 0) == 1
    ensures FirstSeat(ds, cuts, cap, j + 1) == Max(FirstSeat(ds, cuts, cap, j), LastSeat(ds, cuts, cap, j) + 1)
    ensures LastSeat(ds, cuts, cap, j) == Min(ToIndex(ProtectionAt(ds, cuts, j)), cap)
  {
    hide ToIndex, ProtectionAt;
  }

  /** Before a seat that is not priced yet, every protection is lower. */
  lemma {:induction false} EarlierProtections(ds: seq<Demand>, cuts: seq<nat>, cap: nat, x: nat, j: nat)
    requires Fits(ds, cuts) && j < |ds| && FirstSeat(ds, cuts, cap, j) <= x <= cap
    ensures forall i | 0 <= i < j :: ToIndex(ProtectionAt(ds, cuts, i)) < x
  {
    hide *;
    if j > 0 {
      FitsLength(ds, cuts);
      SeatsStep(ds, cuts, cap, j - 1);
      PastTheBand(FirstSeat(ds, cuts, cap, j - 1), FirstSeat(ds, cuts, cap, j), LastSeat(ds, cuts, cap, j - 1),
                  ToIndex(ProtectionAt(ds, cuts, j - 1)), cap, x);
      EarlierProtections(ds, cuts, cap, x, j - 1);
    }
  }

  lemma PastTheBand(first: int, next: int, last: int, top: int, cap: int, x: int)
    requires next == Max(first, last + 1) && last == Min(top, cap) && next <= x <= cap
    ensures first <= x && top < x
  {
  }

  lemma FitsLength(ds: seq<Demand>, cuts: seq<nat>)
    requires Fits(ds, cuts)
    ensures |cuts| + 1 == |ds|
  {
  }

  lemma {:induction false} BandOfSeat(ds: seq<Demand>, cap: nat, x: nat, n: nat) returns (j: nat)
    requires AssertionsPass(ds) && n < |ds| && 1 <= x <= cap
    requires n + 1 < |ds| ==> x < FirstSeat(ds, Cuts(ds), cap, n + 1)
    ensures j <= n && InBand(ds, x, j) && FirstSeat(ds, Cuts(ds), cap, j) <= x
    ensures j + 1 < |ds| ==> x <= LastSeat(ds, Cuts(ds), cap, j)
  {
    hide FirstSeat, LastSeat, ToIndex, ProtectionAt, Cuts, Fits, YieldsFall;
    var cuts := Cuts(ds);
    FitsLength(ds, cuts);
    if 0 < |cuts| { SeatsStep(ds, cuts, cap, 0); }
    if n > 0 && x < FirstSeat(ds, cuts, cap, n) {
      j := BandOfSeat(ds, cap, x, n - 1);
    } else {
      j := n;
      if n == 0 { FirstIsOne(ds, cuts, cap); }
      if n < |cuts| { SeatsStep(ds, cuts, cap, n); }
      EarlierProtections(ds, cuts, cap, x, n);
    }
  }

  lemma FirstIsOne(ds: seq<Demand>, cuts: seq<nat>, cap: nat)
    requires Fits(ds, cuts) && ds != []
    ensures FirstSeat(ds, cuts, cap, 0) == 1
  {
  }

  /** The price of a seat in an earlier band is the one that its band gave. */
  lemma {:induction false} EarlierPrice(ds: seq<Demand>, cap: nat, j: nat, n: nat, x: nat)
    requires AssertionsPass(ds) && j < n < |ds| && cap < INDEX_RANGE / 2
    requires FirstSeat(ds, Cuts(ds), cap, j) <= x <= LastSeat(ds, Cuts(ds), cap, j)
    ensures x <= |PricesUpTo(ds, Cuts(ds), cap, n)|
    ensures PricesUpTo(ds, Cuts(ds), cap, n)[x - 1]
      == BandPrices(ds, Cuts(ds), cap, j)[x - FirstSeat(ds, Cuts(ds), cap, j)]
  {
    hide FirstSeat, LastSeat, ToIndex, ProtectionAt, Cuts, Fits, YieldsFall, BandPrices, PricesUpTo, AssertionsPass;
    RoundStep(ds, cap, n);
    if j < n - 1 {
      EarlierPrice(ds, cap, j, n - 1, x);
    } else {
      RoundInvariant(ds, cap, j);
    }
  }

  lemma BandIs(ds: seq<Demand>, cap: nat, j: nat)
    requires AssertionsPass(ds) && j + 1 < |ds|
    ensures Fits(ds, Cuts(ds)) && j < |Cuts(ds)|
    ensures var s := Sort(Holder(ds, Cuts(ds), j));
      && s != []
      && BandPrices(ds, Cuts(ds), cap, j) == Prices(ds[j].unitYield, |s|,
        CountReach(s, FirstSeat(ds, Cuts(ds), cap, j), LastSeat(ds, Cuts(ds), cap, j)))
  {
    hide Cuts, Price;
  }

  /** Before the last band: yield times the share of partial sums that reach the seat. */
  lemma EarlierPriceIsShare(ds: seq<Demand>, cap: nat, j: nat, x: nat)
    requires AssertionsPass(ds) && j + 1 < |ds| && cap < INDEX_RANGE / 2
    requires FirstSeat(ds, Cuts(ds), cap, j) <= x <= LastSeat(ds, Cuts(ds), cap, j)
    ensures var prices, h := PricesUpTo(ds, Cuts(ds), cap, |ds| - 1), Holder(ds, Cuts(ds), j);
      x <= |prices| && prices[x - 1] * |h| as real == ds[j].unitYield * CountAtLeast(h, x as real) as real
  {
    hide *;
    BandIs(ds, cap, j);
    var h, first := Holder(ds, Cuts(ds), j), FirstSeat(ds, Cuts(ds), cap, j);
    EarlierPrice(ds, cap, j, |ds| - 1, x);
    CountedPriceIsShare(ds[j].unitYield, Sort(h), first, LastSeat(ds, Cuts(ds), cap, j), x - first);
    SortCounts(h, x as real);
  }

  lemma LastBandIs(ds: seq<Demand>, cap: nat)
    requires AssertionsPass(ds)
    ensures ds != [] && Fits(ds, Cuts(ds))
    ensures var s := Sort(Holder(ds, Cuts(ds), |ds| - 1));
      && s != []
      && LastBand(ds, cap) == Prices(ds[|ds| - 1].unitYield, |s|,
        CountReach(s, FirstSeat(ds, Cuts(ds), cap, |ds| - 1), cap))
  {
    hide Cuts, Price;
  }

  lemma LastPriceIsShare(ds: seq<Demand>, cap: nat, x: nat)
    requires AssertionsPass(ds) && FirstSeat(ds, Cuts(ds), cap, |ds| - 1) <= x <= cap
    ensures var band, h := LastBand(ds, cap), Holder(ds, Cuts(ds), |ds| - 1);
      var i := x - FirstSeat(ds, Cuts(ds), cap, |ds| - 1);
      i < |band| && band[i] * |h| as real == ds[|ds| - 1].unitYield * CountAtLeast(h, x as real) as real
  {
    hide *;
    LastBandIs(ds, cap);
    LastBandLength(ds, cap);
    var h, first := Holder(ds, Cuts(ds), |ds| - 1), FirstSeat(ds, Cuts(ds), cap, |ds| - 1);
    CountedPriceIsShare(ds[|ds| - 1].unitYield, Sort(h), first, cap, x - first);
    SortCounts(h, x as real);
  }

  /** In the last band a price below 1 becomes 1. */
  lemma FlooredSeat(earlier: seq<real>, band: seq<real>, x: nat, first: nat)
    requires |earlier| == first - 1 && first <= x && x - first < |band|
    ensures var price := (earlier + Floored(band))[x - 1];
      price == if band[x - first] < 1.0 then 1.0 else band[x - first]
    ensures (earlier + band)[x - 1] == band[x - first]
  {
  }

  lemma VectorsAre(ds: seq<Demand>, cap: nat)
    requires AssertionsPass(ds)
    ensures FlooredPrices(ds, cap) == PricesUpTo(ds, Cuts(ds), cap, |ds| - 1) + Floored(LastBand(ds, cap))
    ensures LastBandExact(ds, cap) ==>
      OptimalPrices(ds, cap) == PricesUpTo(ds, Cuts(ds), cap, |ds| - 1) + LastBand(ds, cap)
  {
    hide Cuts, PricesUpTo, LastBand, OptimalPrices, Floored;
  }

  lemma EarlierPart(ds: seq<Demand>, cap: nat, x: nat)
    requires AssertionsPass(ds) && 1 <= x <= |PricesUpTo(ds, Cuts(ds), cap, |ds| - 1)|
    ensures var price := PricesUpTo(ds, Cuts(ds), cap, |ds| - 1)[x - 1];
      && x <= |OptimalPrices(ds, cap)| && OptimalPrices(ds, cap)[x - 1] == price
      && x <= |FlooredPrices(ds, cap)| && FlooredPrices(ds, cap)[x - 1] == price
  {
    hide Cuts, PricesUpTo, LastBand, Holder, SearchReach, Prices, FirstSeat;
  }

  lemma LastPart(ds: seq<Demand>, cap: nat, x: nat)
    requires AssertionsPass(ds) && cap < INDEX_RANGE / 2
    requires FirstSeat(ds, Cuts(ds), cap, |ds| - 1) <= x <= cap
    ensures x <= |FlooredPrices(ds, cap)|
    ensures var i := x - FirstSeat(ds, Cuts(ds), cap, |ds| - 1);
      && i < |LastBand(ds, cap)|
      && (LastBandExact(ds, cap) ==>
            x <= |OptimalPrices(ds, cap)| && OptimalPrices(ds, cap)[x - 1] == LastBand(ds, cap)[i])
      && FlooredPrices(ds, cap)[x - 1] == if LastBand(ds, cap)[i] < 1.0 then 1.0 else LastBand(ds, cap)[i]
  {
    hide *;
    HolderStart(ds);
    LastBandLength(ds, cap);
    RoundInvariant(ds, cap, |ds| - 1);
    VectorsAre(ds, cap);
    var first := FirstSeat(ds, Cuts(ds), cap, |ds| - 1);
    FlooredSeat(PricesUpTo(ds, Cuts(ds), cap, |ds| - 1), LastBand(ds, cap), x, first);
  }

  /**
   * The bid price of seat `x` is the yield `y(j)` of its band times the share of
   * the joint draws of the classes up to `j` that reach the seat, among the draws
   * whose demand went past the protection of every class before `j`. The sibling
   * raises it to 1 in its last band; the optimal run gives it there when the
   * prices of its last band are right.
   */
  lemma BidPriceIsConditionalShare(ds: seq<Demand>, cap: nat, x: nat)
    returns (j: nat, rounds: seq<seq<Draw>>, price: real)
    requires AssertionsPass(ds) && 1 <= x <= cap < INDEX_RANGE / 2
    ensures j < |ds| && InBand(ds, x, j) && AreRounds(ds, rounds) && |rounds| == j + 1 && rounds[j] != []
    ensures forall k | 0 <= k < |rounds[j]| :: IsDraw(ds, rounds[j][k])
    ensures price * |rounds[j]| as real
      == ds[j].unitYield * CountAtLeast(DrawnDemands(ds, rounds[j]), x as real) as real
    ensures |OptimalPrices(ds, cap)| == |FlooredPrices(ds, cap)| == cap
    ensures j + 1 < |ds| || LastBandExact(ds, cap) ==> OptimalPrices(ds, cap)[x - 1] == price
    ensures FlooredPrices(ds, cap)[x - 1] == if j + 1 == |ds| && price < 1.0 then 1.0 else price
  {
    hide *;
    HolderStart(ds);
    OptimalPricesCoverSeats(ds, cap);
    FlooredPricesCoverSeats(ds, cap);
    j := BandOfSeat(ds, cap, x, |ds| - 1);
    rounds := RoundsExist(ds, j);
    HolderNotEmpty(ds, j);
    if j + 1 < |ds| {
      EarlierPriceIsShare(ds, cap, j, x);
      price := PricesUpTo(ds, Cuts(ds), cap, |ds| - 1)[x - 1];
      EarlierPart(ds, cap, x);
    } else {
      LastPriceIsShare(ds, cap, x);
      price := LastBand(ds, cap)[x - FirstSeat(ds, Cuts(ds), cap, j)];
      LastPart(ds, cap, x);
    }
  }

  lemma HolderNotEmpty(ds: seq<Demand>, j: nat)
    requires AssertionsPass(ds) && j < |ds|
    ensures Fits(ds, Cuts(ds)) && Holder(ds, Cuts(ds), j) != []
  {
    hide Cuts;
    if j + 1 == |ds| {
      LastBandIs(ds, 0);
    }
  }
}
