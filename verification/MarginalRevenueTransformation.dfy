/** The convex hull of policies and the adjustment of yields and demands along it. */
module MarginalRevenueTransformation {
  import opened Sequences
  import opened Inventory
  import opened ConvexHull
  import opened Nesting
  import opened NestedSlopes
  import opened PolicyHelper

  /** The demand and revenue of the policies, as the hull search reads them. */
  ghost function Points(policies: seq<Policy>): (pts: seq<Point>)
    reads policies`demand, policies`totalRevenue
    ensures |pts| == |policies|
    ensures forall i | 0 <= i < |pts| :: pts[i] == Point(policies[i].demand, policies[i].totalRevenue)
  {
    if policies == [] then []
    else
      var last := policies[|policies| - 1];
      Points(policies[..|policies| - 1]) + [Point(last.demand, last.totalRevenue)]
  }

  ghost function LevelList(grid: seq<seq<BookingClass>>, policies: seq<Policy>): (ls: seq<Levels>)
    requires forall i | 0 <= i < |policies| :: Shaped(grid, policies[i].classes)
    ensures |ls| == |policies|
    ensures forall i | 0 <= i < |ls| :: ls[i] == LevelsOf(grid, policies[i].classes)
  {
    if policies == [] then []
    else LevelList(grid, policies[..|policies| - 1]) + [LevelsOf(grid, policies[|policies| - 1].classes)]
  }

  /** Distinct class codes, policies over a prefix of the families, and the empty policy first. */
  ghost predicate ValidCabin(cabin: SegmentCabin) {
    && DistinctCodes(Grid(cabin.families))
    && cabin.policies != [] && cabin.policies[0].classes == []
    && (forall i | 0 <= i < |cabin.policies| :: Shaped(Grid(cabin.families), cabin.policies[i].classes))
  }

  /** The filter of the nested search: a policy may follow when the nesting test accepts the pair. */
  ghost function CabinFilter(cabin: SegmentCabin): Filter
    requires ValidCabin(cabin)
  {
    NestedFilter(LevelList(Grid(cabin.families), cabin.policies))
  }

  ghost function SearchFilter(cabin: SegmentCabin, nestedOnly: bool): Filter
    requires ValidCabin(cabin)
  {
    if nestedOnly then CabinFilter(cabin) else Any()
  }

  lemma SearchFilterAt(cabin: SegmentCabin, nestedOnly: bool, i: nat, j: nat)
    requires ValidCabin(cabin) && i < |cabin.policies| && j < |cabin.policies|
    ensures var g := Grid(cabin.families);
      SearchFilter(cabin, nestedOnly)(i, j) == (nestedOnly ==>
        Nested(LevelsOf(g, cabin.policies[i].classes), LevelsOf(g, cabin.policies[j].classes)))
  {
    hide Nested;
  }

  /** Policies of the list that pass every condition of the search before the slope. */
  method CanFollow(cabin: SegmentCabin, nestedOnly: bool, i: nat, j: nat) returns (b: bool)
    requires ValidCabin(cabin) && i < |cabin.policies| && j < |cabin.policies|
    ensures b == Reaches(Points(cabin.policies), SearchFilter(cabin, nestedOnly), i, j)
  {
    hide SearchFilter, Nested, LevelsOf, DistinctCodes, Shaped;
    var current, policy := cabin.policies[i], cabin.policies[j];
    SearchFilterAt(cabin, nestedOnly, i, j);
    b := policy.demand > current.demand && policy.totalRevenue > current.totalRevenue;
    if b && nestedOnly {
      b := IsNested(current, policy, cabin.families);
    }
  }

  /** The first policy with the steepest slope from the current one; none when no policy can follow. */
  method FindNextPolicy(cabin: SegmentCabin, nestedOnly: bool, i: nat) returns (found: bool, next: nat)
    requires ValidCabin(cabin) && i < |cabin.policies|
    ensures found ==> IsNext(Points(cabin.policies), SearchFilter(cabin, nestedOnly), i, next)
    ensures !found ==> IsLast(Points(cabin.policies), SearchFilter(cabin, nestedOnly), i)
  {
    hide SearchFilter, ValidCabin, Slope;
    ghost var pts, allowed := Points(cabin.policies), SearchFilter(cabin, nestedOnly);
    var gradient := 0.0;
    found, next := false, 0;
    for j := 0 to |cabin.policies|
      invariant !found ==> forall q: nat | q < j :: !Reaches(pts, allowed, i, q)
      invariant found ==> next < j && Reaches(pts, allowed, i, next) && gradient == Slope(pts[i], pts[next]) > 0.0
      invariant !found ==> gradient == 0.0
      invariant found ==> forall q: nat | q < j && Reaches(pts, allowed, i, q) :: Slope(pts[i], pts[q]) <= gradient
      invariant found ==> forall q: nat | q < next && Reaches(pts, allowed, i, q) :: Slope(pts[i], pts[q]) < gradient
    {
      var follows := CanFollow(cabin, nestedOnly, i, j);
      if follows {
        SlopeLine(pts[i], pts[j]);
        var newGradient := Slope(Point(cabin.policies[i].demand, cabin.policies[i].totalRevenue),
                                 Point(cabin.policies[j].demand, cabin.policies[j].totalRevenue));
        if newGradient > gradient {
          gradient, found, next := newGradient, true, j;
        }
      }
    }
  }

  /** The hull of the cabin holds the policies at the given positions. */
  ghost predicate HullAt(cabin: SegmentCabin, chain: seq<nat>)
    reads cabin`hull
  {
    && |cabin.hull| == |chain|
    && forall i | 0 <= i < |chain| :: chain[i] < |cabin.policies| && cabin.hull[i] == cabin.policies[chain[i]]
  }

  lemma ChainGrows(pts: seq<Point>, allowed: Filter, chain: seq<nat>, next: nat)
    requires IsChain(pts, allowed, chain) && IsNext(pts, allowed, chain[|chain| - 1], next)
    ensures IsChain(pts, allowed, chain + [next])
    ensures pts[chain[|chain| - 1]].demand < pts[next].demand
  {
    hide Slope;
  }

  /** Policies with more demand than policy `i`. */
  ghost function Ahead(pts: seq<Point>, i: nat): set<nat>
    requires i < |pts|
  {
    set q: nat | q < |pts| && pts[q].demand > pts[i].demand
  }

  lemma AheadShrinks(pts: seq<Point>, i: nat, j: nat)
    requires i < |pts| && j < |pts| && pts[i].demand < pts[j].demand
    ensures Ahead(pts, j) < Ahead(pts, i)
  {
    assert j in Ahead(pts, i) && j !in Ahead(pts, j);
  }

  lemma ChainStart(cabin: SegmentCabin, pts: seq<Point>, allowed: Filter)
    requires ValidCabin(cabin) && |pts| == |cabin.policies|
    ensures cabin.policies != [] && IsChain(pts, allowed, [0])
  {
  }

  /** From the empty policy, the steepest step as long as a policy with more demand and revenue is left. */
  method BuildHull(cabin: SegmentCabin, nestedOnly: bool) returns (ghost chain: seq<nat>)
    requires ValidCabin(cabin)
    modifies cabin`hull
    ensures HullAt(cabin, chain)
    ensures IsHull(Points(cabin.policies), SearchFilter(cabin, nestedOnly), chain)
  {
    hide SearchFilter, ValidCabin, IsChain, IsNext, IsLast;
    ghost var pts, allowed := Points(cabin.policies), SearchFilter(cabin, nestedOnly);
    ChainStart(cabin, pts, allowed);
    var current: nat := 0;
    cabin.hull, chain := [cabin.policies[0]], [0];
    var endOfHull := false;
    while !endOfHull
      invariant HullAt(cabin, chain) && IsChain(pts, allowed, chain)
      invariant current < |pts| && chain != [] && current == chain[|chain| - 1]
      invariant endOfHull ==> IsLast(pts, allowed, current)
      decreases Ahead(pts, current), !endOfHull
    {
      var found, next := FindNextPolicy(cabin, nestedOnly, current);
      if !found {
        endOfHull := true;
      } else {
        NextIsPolicy(pts, allowed, current, next);
        ChainGrows(pts, allowed, chain, next);
        AheadShrinks(pts, current, next);
        cabin.hull := cabin.hull + [cabin.policies[next]];
        current, chain := next, chain + [next];
      }
    }
  }

  lemma NextIsPolicy(pts: seq<Point>, allowed: Filter, i: nat, next: nat)
    requires i < |pts| && IsNext(pts, allowed, i, next)
    ensures next < |pts| && pts[i].demand < pts[next].demand
  {
  }

  /** The hull over all policies. */
  method BuildConvexHull(cabin: SegmentCabin) returns (ghost chain: seq<nat>)
    requires ValidCabin(cabin)
    modifies cabin`hull
    ensures HullAt(cabin, chain)
    ensures IsHull(Points(cabin.policies), Any(), chain)
  {
    chain := BuildHull(cabin, false);
  }

  /** The hull whose every step passes the nesting test. */
  method BuildNestedConvexHull(cabin: SegmentCabin) returns (ghost chain: seq<nat>)
    requires ValidCabin(cabin)
    modifies cabin`hull
    ensures HullAt(cabin, chain)
    ensures IsHull(Points(cabin.policies), CabinFilter(cabin), chain)
  {
    chain := BuildHull(cabin, true);
  }

  // ---- The adjustment of yields and demands along the hull.

  /** What a hull edge gives to its node: demand mean, demand variance and yield. */
  datatype Edge = Edge(mean: real, variance: real, adjustedYield: real)

  function EdgeOf(current: Policy, next: Policy): (e: Edge)
    requires current.demand < next.demand
    reads current`demand, current`variance, current`totalRevenue
    reads next`demand, next`variance, next`totalRevenue
  {
    var mean := next.demand - current.demand;
    Edge(mean, next.variance - current.variance, (next.totalRevenue - current.totalRevenue) / mean)
  }

  /** What the assertions ask of two policies in a row. */
  ghost predicate Rises(current: Policy, next: Policy)
    reads current`demand, current`variance, current`totalRevenue
    reads next`demand, next`variance, next`totalRevenue
  {
    current.demand < next.demand && current.variance < next.variance && current.totalRevenue < next.totalRevenue
  }

  ghost predicate Rising(hull: seq<Policy>)
    reads hull`demand, hull`variance, hull`totalRevenue
  {
    forall i | 0 <= i < |hull| - 1 :: Rises(hull[i], hull[i + 1])
  }

  lemma RisingPrefix(hull: seq<Policy>)
    requires Rising(hull) && 2 <= |hull|
    ensures Rising(hull[..|hull| - 1]) && Rises(hull[|hull| - 2], hull[|hull| - 1])
  {
    hide Rises;
    var n := |hull| - 1;
    assert Rises(hull[n - 1], hull[n - 1 + 1]);
    forall i | 0 <= i < n - 1
      ensures Rises(hull[..n][i], hull[..n][i + 1])
    {
      assert Rises(hull[i], hull[i + 1]);
    }
  }

  ghost function Edges(hull: seq<Policy>): (es: seq<Edge>)
    requires Rising(hull)
    reads hull`demand, hull`variance, hull`totalRevenue
    ensures |es| == Max(0, |hull| - 1)
  {
    if |hull| <= 1 then []
    else
      var n := |hull| - 1;
      RisingPrefix(hull);
      Edges(hull[..n]) + [EdgeOf(hull[n - 1], hull[n])]
  }

  function FamilyClasses(families: seq<FareFamily>): seq<BookingClass> {
    AllClasses(Grid(families), |families|)
  }

  /** The levels of the hull's policies. */
  ghost function HullLevels(families: seq<FareFamily>, hull: seq<Policy>): (ls: seq<Levels>)
    requires forall i | 0 <= i < |hull| :: Shaped(Grid(families), hull[i].classes)
    ensures |ls| == |hull|
  {
    LevelList(Grid(families), hull)
  }

  /**
   * The hull starts with the empty policy, opens more with every step, and no
   * step leaves its node without a class. The cabin lists the families' classes.
   */
  ghost predicate NestedHull(cabin: SegmentCabin, hull: seq<Policy>) {
    && DistinctCodes(Grid(cabin.families))
    && Rearranges(cabin.classes, FamilyClasses(cabin.families))
    && (forall i | 0 <= i < |hull| :: Shaped(Grid(cabin.families), hull[i].classes))
    && Tower(Grid(cabin.families), HullLevels(cabin.families, hull))
    && (forall i | 0 <= i < |hull| - 1 ::
          HullLevels(cabin.families, hull)[i] != HullLevels(cabin.families, hull)[i + 1])
  }

  /** The first class of a node carries its demand, and every class its yield. */
  ghost predicate NodeAdjusted(classes: seq<BookingClass>, e: Edge)
    reads classes`mean, classes`variance, classes`adjustedYield
  {
    && classes != []
    && classes[0].mean == e.mean && classes[0].variance == e.variance
    && forall c | c in classes :: c.adjustedYield == e.adjustedYield
  }

  /** Sets the yield of a node and of its classes, and the demand of its first class. */
  method AdjustNode(node: NestingNode, e: Edge)
    requires node.classes != []
    modifies node`unitYield, node.classes`adjustedYield, {node.classes[0]}`mean, {node.classes[0]}`variance
    ensures node.unitYield == e.adjustedYield && NodeAdjusted(node.classes, e)
  {
    node.unitYield := e.adjustedYield;
    var classes := node.classes;
    classes[0].mean := e.mean;
    classes[0].variance := e.variance;
    for i := 0 to |classes|
      invariant node.classes == classes && node.unitYield == e.adjustedYield
      invariant forall k | 0 <= k < i :: classes[k].adjustedYield == e.adjustedYield
      invariant classes[0].mean == e.mean && classes[0].variance == e.variance
    {
      classes[i].adjustedYield := e.adjustedYield;
    }
  }

  lemma NodeIsPolicyDiff(cabin: SegmentCabin, hull: seq<Policy>, i: nat)
    requires NestedHull(cabin, hull) && i + 1 < |hull|
    ensures var grid := Grid(cabin.families);
      && Shaped(grid, hull[i].classes) && Shaped(grid, hull[i + 1].classes)
      && NoDeeper(LevelsOf(grid, hull[i].classes), LevelsOf(grid, hull[i + 1].classes))
      && PolicyDiff(grid, hull[i + 1], hull[i]) == NodeAt(grid, HullLevels(cabin.families, hull), i)
      && NodeAt(grid, HullLevels(cabin.families, hull), i) != []
  {
    hide Diff;
    var ps := HullLevels(cabin.families, hull);
    assert Included(ps[i], ps[i + 1]);
    DiffNotEmpty(Grid(cabin.families), ps[i + 1], ps[i]);
  }

  /** The classes of the node between the hull policies `i` and `i + 1`. */
  ghost function NodeOf(cabin: SegmentCabin, hull: seq<Policy>, i: nat): (classes: seq<BookingClass>)
    requires NestedHull(cabin, hull) && i + 1 < |hull|
    ensures classes != []
  {
    NodeIsPolicyDiff(cabin, hull, i);
    NodeAt(Grid(cabin.families), HullLevels(cabin.families, hull), i)
  }

  lemma NodesApart(cabin: SegmentCabin, hull: seq<Policy>, i: nat)
    requires NestedHull(cabin, hull) && i + 1 < |hull|
    ensures forall k: nat, a | k < i && 0 <= a < |NodeOf(cabin, hull, k)| ::
      NodeOf(cabin, hull, k)[a] !in NodeOf(cabin, hull, i)
    ensures forall a | 0 <= a < |NodeOf(cabin, hull, i)| :: NodeOf(cabin, hull, i)[a] in cabin.classes
  {
    hide NodeAt, AllClasses;
    var grid, ps := Grid(cabin.families), HullLevels(cabin.families, hull);
    forall k: nat, a | k < i && 0 <= a < |NodeOf(cabin, hull, k)|
      ensures NodeOf(cabin, hull, k)[a] !in NodeOf(cabin, hull, i)
    {
      var c := NodeOf(cabin, hull, k)[a];
      ClassesOnce(grid, |grid|, c);
      NodesDisjoint<BookingClass>(grid, ps, k, i, c);
    }
    forall a | 0 <= a < |NodeOf(cabin, hull, i)|
      ensures NodeOf(cabin, hull, i)[a] in cabin.classes
    {
      var c := NodeOf(cabin, hull, i)[a];
      NodeInCabin<BookingClass>(grid, ps, i, c);
      RearrangesEntry<BookingClass>(cabin.classes, FamilyClasses(cabin.families), c);
    }
  }

  lemma NodeOfIs(cabin: SegmentCabin, hull: seq<Policy>, i: nat)
    requires NestedHull(cabin, hull) && i + 1 < |hull|
    ensures var grid := Grid(cabin.families);
      && DistinctCodes(grid) && Shaped(grid, hull[i].classes) && Shaped(grid, hull[i + 1].classes)
      && NoDeeper(LevelsOf(grid, hull[i].classes), LevelsOf(grid, hull[i + 1].classes))
      && PolicyDiff(grid, hull[i + 1], hull[i]) == NodeOf(cabin, hull, i)
  {
    hide NodeAt, PolicyDiff;
    NodeIsPolicyDiff(cabin, hull, i);
  }

  /** The next policy names another class than the current one, or one more, first in family `i`. */
  ghost predicate DifferFirstAt(current: Policy, next: Policy, i: nat) {
    && i < |next.classes|
    && (forall l: nat | l < i :: l < |current.classes| && current.classes[l] == next.classes[l])
    && (i < |current.classes| ==> current.classes[i] != next.classes[i])
  }

  /** Classes of one family are the same exactly when their levels are. */
  lemma SameRank(grid: seq<seq<BookingClass>>, s: seq<BookingClass>, t: seq<BookingClass>, i: nat)
    requires Shaped(grid, s) && Shaped(grid, t) && i < |s| && i < |t|
    ensures s[i] == t[i] <==> LevelsOf(grid, s)[i] == LevelsOf(grid, t)[i]
  {
    hide Rank;
    LevelAt(grid, s, i);
    LevelAt(grid, t, i);
  }

  /** Policies whose levels differ first in family `i` name their classes so. */
  lemma LevelsDifferFirst(grid: seq<seq<BookingClass>>, current: Policy, next: Policy, i: nat)
    requires Shaped(grid, current.classes) && Shaped(grid, next.classes)
    requires var p, q := LevelsOf(grid, next.classes), LevelsOf(grid, current.classes);
      i < |p| && LevelIn(q, i) < p[i] && forall l: nat | l < i :: LevelIn(q, l) == p[l]
    ensures DifferFirstAt(current, next, i)
    ensures i < |grid| && grid[i][LevelsOf(grid, next.classes)[i]] == next.classes[i]
  {
    var p, q := LevelsOf(grid, next.classes), LevelsOf(grid, current.classes);
    LevelAt(grid, next.classes, i);
    hide Shaped;
    if i < |q| { LevelAt(grid, current.classes, i); }
    hide LevelsOf;
    assert i < |q| ==> q[i] != p[i];
    forall l: nat | l < i
      ensures l < |current.classes| && current.classes[l] == next.classes[l]
    {
      assert LevelIn(q, l) == p[l];
      LevelAt(grid, current.classes, l);
      LevelAt(grid, next.classes, l);
    }
    if i < |current.classes| {
      SameRank(grid, current.classes, next.classes, i);
    }
  }

  /**
   * A node is led by the class that the next policy names in the first family in
   * which the two policies around the node differ.
   */
  lemma NodeIsLedByPolicy(cabin: SegmentCabin, hull: seq<Policy>, k: nat) returns (i: nat)
    requires NestedHull(cabin, hull) && k + 1 < |hull|
    ensures DifferFirstAt(hull[k], hull[k + 1], i) && NodeOf(cabin, hull, k)[0] == hull[k + 1].classes[i]
  {
    var grid, ps := Grid(cabin.families), HullLevels(cabin.families, hull);
    assert Included(ps[k], ps[k + 1]) && ps[k] != ps[k + 1];
    hide Diff, DistinctCodes, LevelsOf, Included, DifferFirstAt, Shaped;
    i := FirstDifference(ps[k + 1], ps[k], 0);
    FirstOfDiff<BookingClass>(grid, ps[k + 1], ps[k], |ps[k + 1]|, i);
    LevelsDifferFirst(grid, hull[k], hull[k + 1], i);
  }

  /** Edge `i` of the hull lies between the policies `i` and `i + 1`. */
  lemma {:induction false} EdgeAt(hull: seq<Policy>, i: nat)
    requires Rising(hull) && i + 1 < |hull|
    ensures i < |Edges(hull)| && Rises(hull[i], hull[i + 1])
    ensures Edges(hull)[i] == EdgeOf(hull[i], hull[i + 1])
    decreases |hull|
  {
    hide Rises, EdgeOf;
    RisingPrefix(hull);
    if i + 2 < |hull| {
      EdgeAt(hull[..|hull| - 1], i);
    }
  }

  /** Creates the node of one hull edge and adjusts its classes. */
  method FillNode(cabin: SegmentCabin, i: nat, ghost es: seq<Edge>, ghost cs: seq<BookingClass>)
    returns (node: NestingNode)
    requires NestedHull(cabin, cabin.hull) && Rising(cabin.hull) && i + 1 < |cabin.hull|
    requires es == Edges(cabin.hull) && cs == NodeOf(cabin, cabin.hull, i)
    modifies cs`adjustedYield, {cs[0]}`mean, {cs[0]}`variance
    ensures fresh(node) && node.classes == cs
    ensures node.unitYield == es[i].adjustedYield && NodeAdjusted(node.classes, es[i])
  {
    hide Grid, DistinctCodes, Shaped, LevelsOf, NoDeeper, PolicyDiff, NodeOf, NestedHull, Rising, Edges, NodeAdjusted;
    NodeOfIs(cabin, cabin.hull, i);
    EdgeAt(cabin.hull, i);
    node := new NestingNode();
    DiffBetweenTwoPolicies(node, cabin.hull[i + 1], cabin.hull[i], cabin.families);
    AdjustNode(node, EdgeOf(cabin.hull[i], cabin.hull[i + 1]));
  }

  ghost predicate NodeFilled(cabin: SegmentCabin, hull: seq<Policy>, node: NestingNode, e: Edge, k: nat)
    requires NestedHull(cabin, hull) && k + 1 < |hull|
    reads node, node.classes`mean, node.classes`variance, node.classes`adjustedYield
  {
    && node.classes == NodeOf(cabin, hull, k) && node.unitYield == e.adjustedYield
    && NodeAdjusted(node.classes, e)
  }

  /** Class `c` is the first class of one of the first `n` nodes. */
  ghost predicate LeadsNode(cabin: SegmentCabin, hull: seq<Policy>, n: nat, c: BookingClass)
    requires NestedHull(cabin, hull) && n < |hull|
  {
    exists k: nat :: k < n && NodeOf(cabin, hull, k)[0] == c
  }

  /** Class `c` is in one of the first `n` nodes. */
  ghost predicate InNode(cabin: SegmentCabin, hull: seq<Policy>, n: nat, c: BookingClass)
    requires NestedHull(cabin, hull) && n < |hull|
  {
    exists k: nat :: k < n && c in NodeOf(cabin, hull, k)
  }

  ghost function ClassCount(cabin: SegmentCabin, hull: seq<Policy>, n: nat): nat
    requires NestedHull(cabin, hull) && n < |hull|
  {
    |NodeClasses(Grid(cabin.families), HullLevels(cabin.families, hull), n)|
  }

  lemma CountStep(cabin: SegmentCabin, hull: seq<Policy>, n: nat)
    requires NestedHull(cabin, hull) && n + 1 < |hull|
    ensures ClassCount(cabin, hull, 0) == 0
    ensures ClassCount(cabin, hull, n + 1) == ClassCount(cabin, hull, n) + |NodeOf(cabin, hull, n)|
  {
    hide NodeAt;
    NodeStep(Grid(cabin.families), HullLevels(cabin.families, hull), n);
  }

  /** Fills one node for every edge of the hull. */
  method FillNodes(cabin: SegmentCabin, ghost es: seq<Edge>) returns (counter: nat)
    requires NestedHull(cabin, cabin.hull) && Rising(cabin.hull) && 1 < |cabin.hull|
    requires es == Edges(cabin.hull) && cabin.nodes == []
    modifies cabin`nodes, cabin.classes`mean, cabin.classes`variance, cabin.classes`adjustedYield
    ensures |cabin.nodes| == |cabin.hull| - 1 && fresh(cabin.nodes)
    ensures forall k: nat | k < |cabin.hull| - 1 :: NodeFilled(cabin, cabin.hull, cabin.nodes[k], es[k], k)
    ensures forall c | c in cabin.classes && !LeadsNode(cabin, cabin.hull, |cabin.hull| - 1, c) ::
      c.mean == old(c.mean) && c.variance == old(c.variance)
    ensures forall c | c in cabin.classes && !InNode(cabin, cabin.hull, |cabin.hull| - 1, c) ::
      c.adjustedYield == old(c.adjustedYield)
    ensures counter == ClassCount(cabin, cabin.hull, |cabin.hull| - 1)
  {
    hide Grid, DistinctCodes, Shaped, LevelsOf, NodeOf, NestedHull, Rising, Edges, NodeAdjusted, FamilyClasses,
         ClassCount;
    counter := 0;
    var n, i := |cabin.hull| - 1, 0;
    ghost var hull := cabin.hull;
    CountStep(cabin, hull, 0);
    while i < n
      invariant 0 <= i <= n && |cabin.nodes| == i && fresh(cabin.nodes)
      invariant forall k: nat | k < i :: NodeFilled(cabin, hull, cabin.nodes[k], es[k], k)
      invariant forall c | c in cabin.classes && !LeadsNode(cabin, hull, i, c) ::
        c.mean == old(c.mean) && c.variance == old(c.variance)
      invariant forall c | c in cabin.classes && !InNode(cabin, hull, i, c) :: c.adjustedYield == old(c.adjustedYield)
      invariant counter == ClassCount(cabin, hull, i)
    {
      NodesApart(cabin, hull, i);
      ghost var cs := NodeOf(cabin, hull, i);
      CountStep(cabin, hull, i);
      var node := FillNode(cabin, i, es, cs);
      cabin.nodes := cabin.nodes + [node];
      counter := counter + |node.classes|;
      i := i + 1;
    }
  }

  /** The classes that the last hull policy does not open. */
  ghost function LastNodeOf(cabin: SegmentCabin, hull: seq<Policy>): seq<BookingClass>
    requires NestedHull(cabin, hull)
  {
    Rest(Grid(cabin.families), HullLevels(cabin.families, hull)[|hull| - 1], |cabin.families|)
  }

  /**
   * The nodes of the hull and the last node hold every class of the cabin, and
   * each of them once.
   */
  lemma NodesPartitionCabin(cabin: SegmentCabin, hull: seq<Policy>)
    requires NestedHull(cabin, hull)
    ensures var nodes := NodeClasses(Grid(cabin.families), HullLevels(cabin.families, hull), |hull| - 1);
      && Rearranges(nodes + LastNodeOf(cabin, hull), cabin.classes)
      && |nodes| + |LastNodeOf(cabin, hull)| == |cabin.classes|
    ensures forall c: BookingClass :: Once(cabin.classes, c)
  {
    hide Rest, NodeClasses, AllClasses, DistinctCodes;
    var grid := Grid(cabin.families);
    NodesPartition<BookingClass>(grid, HullLevels(cabin.families, hull));
    forall c: BookingClass
      ensures Once(cabin.classes, c)
    {
      ClassesOnce(grid, |grid|, c);
      RearrangesEntry<BookingClass>(cabin.classes, FamilyClasses(cabin.families), c);
    }
    RearrangesLength<BookingClass>(cabin.classes, FamilyClasses(cabin.families));
  }

  lemma ClassCountBelow(cabin: SegmentCabin, hull: seq<Policy>)
    requires NestedHull(cabin, hull)
    ensures ClassCount(cabin, hull, |hull| - 1) + |LastNodeOf(cabin, hull)| == |cabin.classes|
    ensures var grid := Grid(cabin.families);
      && DistinctCodes(grid) && Shaped(grid, hull[|hull| - 1].classes)
      && Rest(grid, LevelsOf(grid, hull[|hull| - 1].classes), |cabin.families|) == LastNodeOf(cabin, hull)
  {
    hide Rest, NodeClasses, AllClasses;
    NodesPartitionCabin(cabin, hull);
  }

  /**
   * Adjusts yields and demands along the hull. Each edge of the hull becomes a
   * node; the classes that are left go to a last node.
   */
  method AdjustYieldAndDemand(cabin: SegmentCabin) returns (isSucceeded: bool)
    requires cabin.hull != []
    requires |cabin.hull| > 1 ==> NestedHull(cabin, cabin.hull) && Rising(cabin.hull)
    modifies cabin`nodes, cabin.classes`mean, cabin.classes`variance, cabin.classes`adjustedYield
    ensures isSucceeded <==> |cabin.hull| > 1
    ensures !isSucceeded ==> cabin.nodes == old(cabin.nodes) && forall c | c in cabin.classes ::
      c.mean == old(c.mean) && c.variance == old(c.variance) && c.adjustedYield == old(c.adjustedYield)
    ensures isSucceeded ==>
      |cabin.nodes| == |cabin.hull| - 1 + if LastNodeOf(cabin, cabin.hull) == [] then 0 else 1
    ensures isSucceeded ==> forall k: nat | k < |cabin.hull| - 1 ::
      NodeFilled(cabin, cabin.hull, cabin.nodes[k], Edges(cabin.hull)[k], k)
    ensures isSucceeded && LastNodeOf(cabin, cabin.hull) != [] ==>
      cabin.nodes[|cabin.hull| - 1].classes == LastNodeOf(cabin, cabin.hull)
      && cabin.nodes[|cabin.hull| - 1].unitYield == DEFAULT_YIELD_VALUE
    ensures isSucceeded ==> forall c | c in cabin.classes && !LeadsNode(cabin, cabin.hull, |cabin.hull| - 1, c) ::
      c.mean == old(c.mean) && c.variance == old(c.variance)
    ensures isSucceeded ==> forall c | c in cabin.classes && !InNode(cabin, cabin.hull, |cabin.hull| - 1, c) ::
      c.adjustedYield == old(c.adjustedYield)
  {
    hide *;
    if |cabin.hull| <= 1 {
      return false;
    }
    ghost var es, hull := Edges(cabin.hull), cabin.hull;
    ClassCountBelow(cabin, hull);
    cabin.nodes := [];
    var counter := FillNodes(cabin, es);
    if counter < |cabin.classes| {
      var last := new NestingNode();
      ComputeLastNode(last, cabin.hull[|cabin.hull| - 1], cabin.families);
      cabin.nodes := cabin.nodes + [last];
    }
    return true;
  }
}
