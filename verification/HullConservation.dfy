/**
 * What the marginal revenue transformation keeps: demand, variance and revenue
 * over the nodes, the order of the yields, and the value of the best policy.
 */
module HullConservation {
  import opened Sequences
  import opened Inventory
  import opened Totals
  import opened ConvexHull
  import opened Nesting
  import opened NestedSlopes
  import opened PolicyHelper
  import opened MarginalRevenueTransformation

  // ---- When the nested hull can be adjusted.

  /**
   * A step that passed the nesting test meets the assertion of the class-by-class
   * comparison exactly when no family falls back after an equal one.
   */
  lemma NestedStepPasses(p: Levels, q: Levels)
    requires Nested(p, q)
    ensures NoDeeper(p, q) <==> NoFallBack(p, q)
    ensures NoDeeper(p, q) <==> Included(p, q)
  {
    IncludedIsNestedWithoutFallBack(p, q);
    NestedMeans(p, q);
  }

  // ---- Totals over the edges of the hull.

  function EdgeMean(e: Edge): real {
    e.mean
  }

  function EdgeVariance(e: Edge): real {
    e.variance
  }

  function EdgeRevenue(e: Edge): real {
    e.adjustedYield * e.mean
  }

  lemma EdgeEarns(a: Policy, b: Policy)
    requires Rises(a, b)
    ensures EdgeRevenue(EdgeOf(a, b)) == b.totalRevenue - a.totalRevenue
    ensures EdgeOf(a, b).adjustedYield > 0.0
  {
    SlopeLine(Point(a.demand, a.totalRevenue), Point(b.demand, b.totalRevenue));
  }

  lemma EdgesSnoc(hull: seq<Policy>)
    requires Rising(hull) && 2 <= |hull|
    ensures Rising(hull[..|hull| - 1]) && Rises(hull[|hull| - 2], hull[|hull| - 1])
    ensures Edges(hull) == Edges(hull[..|hull| - 1]) + [EdgeOf(hull[|hull| - 2], hull[|hull| - 1])]
  {
    hide EdgeOf, Rises;
    RisingPrefix(hull);
  }

  lemma EdgesStep(hull: seq<Policy>, f: Edge -> real)
    requires Rising(hull) && 2 <= |hull|
    ensures Rising(hull[..|hull| - 1]) && Rises(hull[|hull| - 2], hull[|hull| - 1])
    ensures Total(Edges(hull), f) == Total(Edges(hull[..|hull| - 1]), f) + f(EdgeOf(hull[|hull| - 2], hull[|hull| - 1]))
  {
    hide Rising, EdgeOf, Edges, Total;
    EdgesSnoc(hull);
    var e := EdgeOf(hull[|hull| - 2], hull[|hull| - 1]);
    TotalAppend(Edges(hull[..|hull| - 1]), [e], f);
    TotalOne(e, f);
  }

  /**
   * The transformation preserves totals: the nodes' means, variances and
   * yield-weighted means add up to the demand, variance and total revenue that
   * the last hull policy has beyond the first.
   */
  lemma {:induction false} EdgesConserve(hull: seq<Policy>)
    requires hull != [] && Rising(hull)
    ensures var first, last, es := hull[0], hull[|hull| - 1], Edges(hull);
      && Total(es, EdgeMean) == last.demand - first.demand
      && Total(es, EdgeVariance) == last.variance - first.variance
      && Total(es, EdgeRevenue) == last.totalRevenue - first.totalRevenue
    decreases |hull|
  {
    if |hull| > 1 {
      hide Edges, Total, EdgeRevenue;
      var n := |hull| - 1;
      EdgesStep(hull, EdgeMean);
      EdgesStep(hull, EdgeVariance);
      EdgesStep(hull, EdgeRevenue);
      EdgesConserve(hull[..n]);
      EdgeEarns(hull[n - 1], hull[n]);
    }
  }

  // ---- The nodes carry the hull.

  lemma HullEdge(cabin: SegmentCabin, allowed: Filter, chain: seq<nat>, i: nat)
    requires HullAt(cabin, chain) && IsChain(Points(cabin.policies), allowed, chain)
    requires Rising(cabin.hull) && i + 1 < |chain|
    ensures var pts, e := Points(cabin.policies), Edges(cabin.hull)[i];
      && e.adjustedYield == EdgeSlope(pts, allowed, chain, i)
      && e.mean == pts[chain[i + 1]].demand - pts[chain[i]].demand
  {
    hide Edges, Rising, IsNext;
    EdgeAt(cabin.hull, i);
    ChainRises(Points(cabin.policies), allowed, chain, i, i + 1);
    assert cabin.hull[i] == cabin.policies[chain[i]] && cabin.hull[i + 1] == cabin.policies[chain[i + 1]];
  }

  /** The yields of the nodes are positive, and never rise along a hull that could have skipped its policies. */
  lemma AdjustedYieldsFall(cabin: SegmentCabin, allowed: Filter, chain: seq<nat>, i: nat, j: nat)
    requires HullAt(cabin, chain) && IsHull(Points(cabin.policies), allowed, chain) && SkipsAllowed(allowed, chain)
    requires Rising(cabin.hull) && i <= j && j + 1 < |chain|
    ensures 0.0 < Edges(cabin.hull)[j].adjustedYield <= Edges(cabin.hull)[i].adjustedYield
  {
    hide Points, Edges, Slope, IsNext, SkipsAllowed;
    HullEdge(cabin, allowed, chain, i);
    HullEdge(cabin, allowed, chain, j);
    SlopesFall(Points(cabin.policies), allowed, chain, i, j);
  }

  /** The hull policies that the adjustment accepts have included open sets. */
  lemma AcceptedHullSkips(cabin: SegmentCabin, chain: seq<nat>)
    requires ValidCabin(cabin) && HullAt(cabin, chain) && NestedHull(cabin, cabin.hull)
    ensures SkipsAllowed(CabinFilter(cabin), chain)
  {
    hide Included, DistinctCodes, Rearranges, Shaped, LevelsOf, SkipsAllowed, NestedFilter;
    var grid := Grid(cabin.families);
    var ls, ps := LevelList(grid, cabin.policies), HullLevels(cabin.families, cabin.hull);
    forall k | 0 <= k < |chain| - 1
      ensures Included(ls[chain[k]], ls[chain[k + 1]])
    {
      assert Included(ps[k], ps[k + 1]);
      assert cabin.hull[k] == cabin.policies[chain[k]] && cabin.hull[k + 1] == cabin.policies[chain[k + 1]];
    }
    assert StepsIncluded(ls, chain);
    IncludedSkips(ls, chain);
  }

  /** So the adjusted yields never rise along any nested hull that the adjustment accepts. */
  lemma NestedYieldsFall(cabin: SegmentCabin, chain: seq<nat>, i: nat, j: nat)
    requires ValidCabin(cabin) && HullAt(cabin, chain)
    requires IsHull(Points(cabin.policies), CabinFilter(cabin), chain)
    requires NestedHull(cabin, cabin.hull) && Rising(cabin.hull) && i <= j && j + 1 < |chain|
    ensures j < |Edges(cabin.hull)|
    ensures 0.0 < Edges(cabin.hull)[j].adjustedYield <= Edges(cabin.hull)[i].adjustedYield
  {
    hide *;
    HullLength(cabin, chain);
    AcceptedHullSkips(cabin, chain);
    AdjustedYieldsFall(cabin, CabinFilter(cabin), chain, i, j);
  }

  /** Positive yields that never rise. */
  ghost predicate YieldsFall(es: seq<Edge>) {
    forall i, j | 0 <= i <= j < |es| :: 0.0 < es[j].adjustedYield <= es[i].adjustedYield
  }

  lemma HullYieldsFall(cabin: SegmentCabin, chain: seq<nat>)
    requires ValidCabin(cabin) && HullAt(cabin, chain)
    requires IsHull(Points(cabin.policies), CabinFilter(cabin), chain)
    requires NestedHull(cabin, cabin.hull) && Rising(cabin.hull)
    ensures YieldsFall(Edges(cabin.hull))
  {
    hide NestedHull, ValidCabin, Rising, Edges, CabinFilter, IsNext, IsLast;
    HullLength(cabin, chain);
    forall i, j | 0 <= i <= j < |Edges(cabin.hull)|
      ensures 0.0 < Edges(cabin.hull)[j].adjustedYield <= Edges(cabin.hull)[i].adjustedYield
    {
      NestedYieldsFall(cabin, chain, i, j);
    }
  }

  lemma HullLength(cabin: SegmentCabin, chain: seq<nat>)
    requires HullAt(cabin, chain) && Rising(cabin.hull) && chain != []
    ensures |cabin.hull| == |chain| && |Edges(cabin.hull)| == |chain| - 1
  {
  }

  /** What a node earns as an independent class beyond a bid price. */
  function NodeWorth(cost: real): Edge -> real {
    (e: Edge) => Beyond(e.adjustedYield, cost, e.mean)
  }

  lemma GainStep(cabin: SegmentCabin, allowed: Filter, chain: seq<nat>, cost: real, i: nat)
    requires HullAt(cabin, chain) && IsChain(Points(cabin.policies), allowed, chain)
    requires Rising(cabin.hull) && i + 1 < |chain|
    ensures i < |Edges(cabin.hull)|
    ensures EdgeGains(Points(cabin.policies), allowed, chain, cost, i + 1)
      == EdgeGains(Points(cabin.policies), allowed, chain, cost, i) + NodeWorth(cost)(Edges(cabin.hull)[i])
  {
    hide Points, Edges, Slope, IsNext, EdgeSlope, Beyond, Rising;
    HullEdge(cabin, allowed, chain, i);
  }

  lemma NoGain(cabin: SegmentCabin, allowed: Filter, chain: seq<nat>, cost: real)
    requires IsChain(Points(cabin.policies), allowed, chain) && Rising(cabin.hull)
    ensures EdgeGains(Points(cabin.policies), allowed, chain, cost, 0) == 0.0
    ensures Total(Edges(cabin.hull)[..0], NodeWorth(cost)) == 0.0
  {
    hide Points, Edges, IsNext;
  }

  lemma {:induction false} NodesWorthGains(cabin: SegmentCabin, allowed: Filter, chain: seq<nat>, cost: real, n: nat)
    requires HullAt(cabin, chain) && IsChain(Points(cabin.policies), allowed, chain)
    requires Rising(cabin.hull) && n <= |Edges(cabin.hull)| && n < |chain|
    ensures Total(Edges(cabin.hull)[..n], NodeWorth(cost))
      == EdgeGains(Points(cabin.policies), allowed, chain, cost, n)
  {
    hide *;
    if n == 0 {
      NoGain(cabin, allowed, chain, cost);
    } else {
      NodesWorthGains(cabin, allowed, chain, cost, n - 1);
      TotalPrefix(Edges(cabin.hull), NodeWorth(cost), n - 1);
      GainStep(cabin, allowed, chain, cost, n - 1);
    }
  }

  /** No policy that the test admits nets more than `worth` beyond the empty policy, and one nets exactly that. */
  ghost predicate IsBestNet(pts: seq<Point>, admitted: nat -> bool, cost: real, worth: real)
    requires pts != []
  {
    && (forall q: nat | q < |pts| && admitted(q) && pts[q].demand >= pts[0].demand ::
          Net(pts[q], cost) - Net(pts[0], cost) <= worth)
    && (exists q: nat :: q < |pts| && Net(pts[q], cost) - Net(pts[0], cost) == worth)
  }

  /** Policies that could have followed the hull up to their demand. */
  ghost function Followers(pts: seq<Point>, allowed: Filter, chain: seq<nat>): nat -> bool
    requires forall i | 0 <= i < |chain| :: chain[i] < |pts|
  {
    (q: nat) => q < |pts| && Follows(pts, allowed, chain, q)
  }

  /**
   * At every bid price the nodes, as independent classes, are worth exactly what
   * the best policy earns beyond the empty one among those that could have
   * followed the hull. For the plain hull these are all policies.
   */
  lemma NodesWorthBestPolicy(cabin: SegmentCabin, allowed: Filter, chain: seq<nat>, cost: real)
    requires HullAt(cabin, chain) && IsHull(Points(cabin.policies), allowed, chain) && SkipsAllowed(allowed, chain)
    requires cabin.policies != [] && FirstIsBest(Points(cabin.policies)) && Rising(cabin.hull) && cost >= 0.0
    ensures IsBestNet(Points(cabin.policies), Followers(Points(cabin.policies), allowed, chain), cost,
                      Total(Edges(cabin.hull), NodeWorth(cost)))
  {
    hide Points, Edges, Slope, IsNext, EdgeSlope, EdgeGains, Net, NodeWorth, FirstIsBest, Rising, IsLast, Total,
         SkipsAllowed, Follows;
    var m := TransformationIsExact(Points(cabin.policies), allowed, chain, cost);
    NodesWorthGains(cabin, allowed, chain, cost, |chain| - 1);
    assert Edges(cabin.hull)[..|chain| - 1] == Edges(cabin.hull);
  }

  /** The same for the nested hull that the adjustment accepts. */
  lemma NestedNodesWorthBest(cabin: SegmentCabin, chain: seq<nat>, cost: real)
    requires ValidCabin(cabin) && HullAt(cabin, chain)
    requires IsHull(Points(cabin.policies), CabinFilter(cabin), chain)
    requires NestedHull(cabin, cabin.hull) && Rising(cabin.hull)
    requires cabin.policies != [] && FirstIsBest(Points(cabin.policies)) && cost >= 0.0
    ensures IsBestNet(Points(cabin.policies), Followers(Points(cabin.policies), CabinFilter(cabin), chain), cost,
                      Total(Edges(cabin.hull), NodeWorth(cost)))
  {
    hide *;
    AcceptedHullSkips(cabin, chain);
    NodesWorthBestPolicy(cabin, CabinFilter(cabin), chain, cost);
  }

  /**
   * When the nesting test accepts every step of the plain hull, the adjusted
   * cabin is worth the best of all its policies at every bid price.
   */
  lemma NestedNodesWorthBestOfAll(cabin: SegmentCabin, chain: seq<nat>, plain: seq<nat>, cost: real)
    requires ValidCabin(cabin) && HullAt(cabin, chain)
    requires IsHull(Points(cabin.policies), CabinFilter(cabin), chain)
    requires IsHull(Points(cabin.policies), Any(), plain)
    requires forall i | 0 <= i < |plain| - 1 :: CabinFilter(cabin)(plain[i], plain[i + 1])
    requires cabin.policies != [] && FirstIsBest(Points(cabin.policies)) && Rising(cabin.hull) && cost >= 0.0
    ensures IsBestNet(Points(cabin.policies), _ => true, cost, Total(Edges(cabin.hull), NodeWorth(cost)))
  {
    hide Points, Edges, CabinFilter, NodeWorth, FirstIsBest, Rising, Total, IsHull, ValidCabin, Net;
    FilterKeepsHull(Points(cabin.policies), CabinFilter(cabin), plain, chain);
    NodesWorthBestPolicy(cabin, Any(), chain, cost);
    forall q: nat | q < |Points(cabin.policies)|
      ensures Followers(Points(cabin.policies), Any(), chain)(q)
    {
    }
  }

  /**
   * A nested hull on which no step falls back, and whose policies differ, meets
   * what the adjustment asks of the hull.
   */
  lemma HullIsNested(cabin: SegmentCabin, chain: seq<nat>)
    requires ValidCabin(cabin) && Rearranges(cabin.classes, FamilyClasses(cabin.families))
    requires HullAt(cabin, chain)
    requires IsHull(Points(cabin.policies), CabinFilter(cabin), chain)
    requires forall i | 0 <= i < |cabin.hull| - 1 :: StepIsClean(cabin, cabin.hull[i], cabin.hull[i + 1])
    ensures NestedHull(cabin, cabin.hull)
  {
    hide Nested, LevelsOf, DistinctCodes, Rearranges, NoFallBack;
    var grid, hull := Grid(cabin.families), cabin.hull;
    var ls := LevelList(grid, cabin.policies);
    forall i | 0 <= i < |hull|
      ensures Shaped(grid, hull[i].classes)
    {
      assert hull[i] == cabin.policies[chain[i]];
    }
    var ps := HullLevels(cabin.families, hull);
    forall i | 0 <= i < |hull| - 1
      ensures Included(ps[i], ps[i + 1]) && ps[i] != ps[i + 1]
    {
      assert IsNext(Points(cabin.policies), NestedFilter(ls), chain[i], chain[i + 1]);
      assert StepIsClean(cabin, hull[i], hull[i + 1]);
      IncludedIsNestedWithoutFallBack(ps[i], ps[i + 1]);
    }
    assert ps[0] == [] by { NoLevels(grid, hull[0]); }
  }

  lemma NoLevels(grid: seq<seq<BookingClass>>, p: Policy)
    requires p.classes == []
    ensures Shaped(grid, p.classes) && LevelsOf(grid, p.classes) == []
  {
  }

  /** Two policies of a cabin that differ, without falling back after an equal family. */
  ghost predicate StepIsClean(cabin: SegmentCabin, current: Policy, next: Policy) {
    var grid := Grid(cabin.families);
    && Shaped(grid, current.classes) && Shaped(grid, next.classes)
    && LevelsOf(grid, current.classes) != LevelsOf(grid, next.classes)
    && NoFallBack(LevelsOf(grid, current.classes), LevelsOf(grid, next.classes))
  }

  // ---- Totals over the classes of the cabin.

  lemma NodeOfIsNodeAt(cabin: SegmentCabin, hull: seq<Policy>, k: nat)
    requires NestedHull(cabin, hull) && k + 1 < |hull|
    ensures Tower(Grid(cabin.families), HullLevels(cabin.families, hull))
    ensures NodeOf(cabin, hull, k) == NodeAt(Grid(cabin.families), HullLevels(cabin.families, hull), k)
  {
    hide NodeAt;
  }

  ghost function NodeList(cabin: SegmentCabin, hull: seq<Policy>, n: nat): seq<BookingClass>
    requires NestedHull(cabin, hull) && n < |hull|
  {
    NodeClasses(Grid(cabin.families), HullLevels(cabin.families, hull), n)
  }

  lemma NodeListStep(cabin: SegmentCabin, hull: seq<Policy>, n: nat)
    requires NestedHull(cabin, hull) && n + 1 < |hull|
    ensures NodeList(cabin, hull, 0) == []
    ensures NodeList(cabin, hull, n + 1) == NodeList(cabin, hull, n) + NodeOf(cabin, hull, n)
  {
    hide NodeAt;
    NodeOfIsNodeAt(cabin, hull, n);
    NodeStep<BookingClass>(Grid(cabin.families), HullLevels(cabin.families, hull), n);
  }

  lemma {:induction false} NodeListHolds(cabin: SegmentCabin, hull: seq<Policy>, n: nat, k: nat)
    requires NestedHull(cabin, hull) && k < n < |hull|
    ensures NodeOf(cabin, hull, k)[0] in NodeList(cabin, hull, n)
  {
    hide NestedHull, NodeOf, NodeList;
    NodeListStep(cabin, hull, n - 1);
    if k < n - 1 {
      NodeListHolds(cabin, hull, n - 1, k);
    }
  }

  /** The classes of all nodes, the last one included. */
  ghost function NodesThenLast(cabin: SegmentCabin, hull: seq<Policy>): seq<BookingClass>
    requires NestedHull(cabin, hull)
  {
    NodeList(cabin, hull, |hull| - 1) + LastNodeOf(cabin, hull)
  }

  /** Every class of the cabin is in one node or in the last one, and in no second place. */
  lemma NodesAndLast(cabin: SegmentCabin, hull: seq<Policy>)
    requires NestedHull(cabin, hull)
    ensures Rearranges(NodesThenLast(cabin, hull), cabin.classes)
    ensures forall c: BookingClass :: Once(NodesThenLast(cabin, hull), c)
  {
    assert hull != [];
    hide NodeClasses, LastNodeOf, NestedHull, Once, Rearranges;
    NodesPartitionCabin(cabin, hull);
    forall c: BookingClass
      ensures Once(NodesThenLast(cabin, hull), c)
    {
      RearrangesEntry<BookingClass>(NodesThenLast(cabin, hull), cabin.classes, c);
    }
  }

  lemma {:induction false} NodeListWithin(cabin: SegmentCabin, hull: seq<Policy>, n: nat, c: BookingClass)
    requires NestedHull(cabin, hull) && n < |hull|
    requires Once(NodeList(cabin, hull, |hull| - 1), c)
    ensures Once(NodeList(cabin, hull, n), c)
    decreases |hull| - n
  {
    hide NestedHull, NodeOf, NodeList, Once;
    if n < |hull| - 1 {
      NodeListStep(cabin, hull, n);
      NodeListWithin(cabin, hull, n + 1, c);
      OncePrefix<BookingClass>(NodeList(cabin, hull, n), NodeOf(cabin, hull, n), c);
    }
  }

  lemma OncePrefix<T>(s: seq<T>, t: seq<T>, x: T)
    requires Once(s + t, x)
    ensures Once(s, x) && Once(t, x)
  {
    assert multiset(s + t) == multiset(s) + multiset(t);
  }

  lemma NodeFirstDiffers(cabin: SegmentCabin, hull: seq<Policy>, k: nat, a: nat)
    requires NestedHull(cabin, hull) && k + 1 < |hull| && 1 <= a < |NodeOf(cabin, hull, k)|
    ensures NodeOf(cabin, hull, k)[0] != NodeOf(cabin, hull, k)[a]
  {
    hide NestedHull, NodeOf, NodeList, Once, LastNodeOf;
    var c, n := NodeOf(cabin, hull, k)[a], |hull| - 1;
    NodesAndLast(cabin, hull);
    OncePrefix<BookingClass>(NodeList(cabin, hull, n), LastNodeOf(cabin, hull), c);
    NodeListWithin(cabin, hull, k + 1, c);
    NodeListStep(cabin, hull, k);
    OncePrefix<BookingClass>(NodeList(cabin, hull, k), NodeOf(cabin, hull, k), c);
    if NodeOf(cabin, hull, k)[0] == c {
      TwiceNotOnce<BookingClass>(NodeOf(cabin, hull, k), 0, a);
    }
  }

  /** A class past the first of its node is the first of none. */
  lemma FollowerLeadsNothing(cabin: SegmentCabin, hull: seq<Policy>, k: nat, a: nat)
    requires NestedHull(cabin, hull) && k + 1 < |hull| && 1 <= a < |NodeOf(cabin, hull, k)|
    ensures !LeadsNode(cabin, hull, |hull| - 1, NodeOf(cabin, hull, k)[a])
  {
    hide NestedHull, NodeOf;
    forall l: nat | l < |hull| - 1
      ensures NodeOf(cabin, hull, l)[0] != NodeOf(cabin, hull, k)[a]
    {
      NodesApart(cabin, hull, k);
      NodesApart(cabin, hull, l);
      if l == k {
        NodeFirstDiffers(cabin, hull, k, a);
      }
    }
  }

  lemma TwiceNotOnce<T>(s: seq<T>, i: nat, j: nat)
    requires i < j < |s| && s[i] == s[j]
    ensures !Once(s, s[i])
  {
    TwiceInMultiset(s, i, j);
  }

  lemma LastLeadsNothing(cabin: SegmentCabin, hull: seq<Policy>, c: BookingClass)
    requires NestedHull(cabin, hull) && c in LastNodeOf(cabin, hull)
    ensures !LeadsNode(cabin, hull, |hull| - 1, c)
  {
    assert hull != [];
    hide NestedHull, NodeOf, NodeList, Once, LastNodeOf;
    var n: nat := |hull| - 1;
    NodesAndLast(cabin, hull);
    if LeadsNode(cabin, hull, n, c) {
      var l: nat :| l < n && NodeOf(cabin, hull, l)[0] == c;
      NodeListHolds(cabin, hull, n, l);
      InBothTwice<BookingClass>(NodeList(cabin, hull, n), LastNodeOf(cabin, hull), c);
    }
  }

  /** The total over the first classes of the first `n` nodes. */
  ghost function LeadTotal(cabin: SegmentCabin, hull: seq<Policy>, f: BookingClass -> real, n: nat): real
    requires NestedHull(cabin, hull) && n < |hull|
  {
    if n == 0 then 0.0 else LeadTotal(cabin, hull, f, n - 1) + f(NodeOf(cabin, hull, n - 1)[0])
  }

  ghost predicate ZeroOffLeads(cabin: SegmentCabin, hull: seq<Policy>, f: BookingClass -> real)
    requires NestedHull(cabin, hull)
  {
    forall c | c in cabin.classes && !LeadsNode(cabin, hull, |hull| - 1, c) :: f(c) == 0.0
  }

  lemma NodeTotal(cabin: SegmentCabin, hull: seq<Policy>, f: BookingClass -> real, k: nat)
    requires NestedHull(cabin, hull) && ZeroOffLeads(cabin, hull, f) && k + 1 < |hull|
    ensures Total(NodeOf(cabin, hull, k), f) == f(NodeOf(cabin, hull, k)[0])
  {
    hide NestedHull, NodeOf, LeadsNode;
    var s := NodeOf(cabin, hull, k);
    forall i | 1 <= i < |s|
      ensures f(s[i]) == 0.0
    {
      FollowerLeadsNothing(cabin, hull, k, i);
      NodesApart(cabin, hull, k);
    }
    TotalOfFirst(s, f);
  }

  lemma {:induction false} NodeListTotal(cabin: SegmentCabin, hull: seq<Policy>, f: BookingClass -> real, n: nat)
    requires NestedHull(cabin, hull) && ZeroOffLeads(cabin, hull, f) && n < |hull|
    ensures Total(NodeList(cabin, hull, n), f) == LeadTotal(cabin, hull, f, n)
  {
    hide NestedHull, NodeOf, NodeList, ZeroOffLeads;
    if n == 0 {
      NoNodes(cabin, hull, f);
    } else {
      NodeListTotal(cabin, hull, f, n - 1);
      NodeListStep(cabin, hull, n - 1);
      NodeTotal(cabin, hull, f, n - 1);
      TotalAppend(NodeList(cabin, hull, n - 1), NodeOf(cabin, hull, n - 1), f);
    }
  }

  lemma NoNodes(cabin: SegmentCabin, hull: seq<Policy>, f: BookingClass -> real)
    requires NestedHull(cabin, hull)
    ensures Total(NodeList(cabin, hull, 0), f) == 0.0
  {
  }

  lemma LastTotal(cabin: SegmentCabin, hull: seq<Policy>, f: BookingClass -> real)
    requires NestedHull(cabin, hull) && ZeroOffLeads(cabin, hull, f)
    ensures Total(LastNodeOf(cabin, hull), f) == 0.0
  {
    assert hull != [];
    hide NestedHull, NodeOf, NodeList, LastNodeOf, LeadsNode, Once, Rearranges;
    var last := LastNodeOf(cabin, hull);
    NodesAndLast(cabin, hull);
    forall c | c in last
      ensures f(c) == 0.0
    {
      LastLeadsNothing(cabin, hull, c);
      RearrangesEntry<BookingClass>(NodesThenLast(cabin, hull), cabin.classes, c);
    }
    TotalZero(last, f);
  }

  /** What only the first classes of the nodes carry adds up over the cabin as it does over the nodes. */
  lemma CabinTotal(cabin: SegmentCabin, hull: seq<Policy>, f: BookingClass -> real)
    requires NestedHull(cabin, hull) && ZeroOffLeads(cabin, hull, f)
    ensures Total(cabin.classes, f) == LeadTotal(cabin, hull, f, |hull| - 1)
  {
    assert hull != [];
    hide NestedHull, NodeOf, NodeList, LastNodeOf, LeadsNode, Once, ZeroOffLeads, LeadTotal, Total;
    NodesAndLast(cabin, hull);
    NodeListTotal(cabin, hull, f, |hull| - 1);
    LastTotal(cabin, hull, f);
    TotalAppend(NodeList(cabin, hull, |hull| - 1), LastNodeOf(cabin, hull), f);
    TotalRearranged(NodesThenLast(cabin, hull), cabin.classes, f);
  }
}
