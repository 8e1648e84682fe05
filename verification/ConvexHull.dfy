/**
 * The efficient frontier of policies in the demand-revenue plane: what the
 * greedy search for the steepest next policy builds, and why pricing the
 * edges of the frontier loses nothing against the choice among all policies.
 */
module ConvexHull {
  import opened Sequences

  /** The demand and total revenue of a policy. */
  datatype Point = Point(demand: real, revenue: real)

  /** A filter on pairs of policies, by their positions in the policy list. */
  type Filter = (nat, nat) -> bool

  function Slope(a: Point, b: Point): real
    requires a.demand < b.demand
  {
    (b.revenue - a.revenue) / (b.demand - a.demand)
  }

  /** Policy `q` has more demand and more revenue than policy `i`, and the filter lets it follow. */
  predicate Reaches(pts: seq<Point>, allowed: Filter, i: nat, q: nat)
    requires i < |pts|
  {
    q < |pts| && pts[q].demand > pts[i].demand && pts[q].revenue > pts[i].revenue && allowed(i, q)
  }

  /** Policy `k` is the first on the list with the steepest slope from policy `i`. */
  ghost predicate IsNext(pts: seq<Point>, allowed: Filter, i: nat, k: nat)
    requires i < |pts|
  {
    && Reaches(pts, allowed, i, k)
    && (forall q: nat | Reaches(pts, allowed, i, q) :: Slope(pts[i], pts[q]) <= Slope(pts[i], pts[k]))
    && (forall q: nat | q < k && Reaches(pts, allowed, i, q) :: Slope(pts[i], pts[q]) < Slope(pts[i], pts[k]))
  }

  ghost predicate IsLast(pts: seq<Point>, allowed: Filter, i: nat)
    requires i < |pts|
  {
    forall q: nat :: !Reaches(pts, allowed, i, q)
  }

  /** A chain of steepest steps from the first policy on the list. */
  ghost predicate IsChain(pts: seq<Point>, allowed: Filter, h: seq<nat>) {
    && h != [] && h[0] == 0
    && (forall i | 0 <= i < |h| :: h[i] < |pts|)
    && (forall i | 0 <= i < |h| - 1 :: IsNext(pts, allowed, h[i], h[i + 1]))
  }

  /** The hull: a chain that cannot be continued. */
  ghost predicate IsHull(pts: seq<Point>, allowed: Filter, h: seq<nat>) {
    IsChain(pts, allowed, h) && IsLast(pts, allowed, h[|h| - 1])
  }

  /** The filter of the plain hull. */
  function Any(): Filter {
    (i: nat, q: nat) => true
  }

  ghost predicate IsTransitive(pts: seq<Point>, allowed: Filter) {
    forall i: nat, j: nat, k: nat | i < |pts| && j < |pts| && k < |pts| && allowed(i, j) && allowed(j, k) ::
      allowed(i, k)
  }

  // ---- Lines in the plane.

  /** `q` lies on or below the line of slope `g` through `a`. */
  ghost predicate Below(a: Point, g: real, q: Point) {
    q.revenue <= a.revenue + g * (q.demand - a.demand)
  }

  lemma SlopeLine(a: Point, b: Point)
    requires a.demand < b.demand
    ensures b.revenue - a.revenue == Slope(a, b) * (b.demand - a.demand)
    ensures b.revenue > a.revenue ==> Slope(a, b) > 0.0
  {
    DivLe(b.revenue - a.revenue, 0.0, b.demand - a.demand);
  }

  /** A policy with more demand lies below the steepest step, whether or not it earns more. */
  lemma StepAbove(a: Point, b: Point, q: Point)
    requires a.demand < b.demand && a.revenue < b.revenue && a.demand < q.demand
    requires q.revenue > a.revenue ==> Slope(a, q) <= Slope(a, b)
    ensures Below(a, Slope(a, b), q)
  {
    SlopeLine(a, b);
    SlopeLine(a, q);
    var g, d := Slope(a, b), q.demand - a.demand;
    if q.revenue > a.revenue {
      MulMono(Slope(a, q), g, d);
    } else {
      MulMono(0.0, d, g);
    }
  }

  /** The same line through either end of its edge. */
  lemma LineThroughBothEnds(a: Point, b: Point, q: Point)
    requires a.demand < b.demand
    ensures Below(a, Slope(a, b), q) <==> Below(b, Slope(a, b), q)
  {
    SlopeLine(a, b);
    var g := Slope(a, b);
    assert g * (q.demand - a.demand) == g * (q.demand - b.demand) + g * (b.demand - a.demand);
  }

  /** To the left of a point, a flatter line through it lies higher. */
  lemma FlatterIsHigher(b: Point, g: real, f: real, q: Point)
    requires Below(b, g, q) && f <= g && q.demand <= b.demand
    ensures Below(b, f, q)
  {
    MulMono(f, g, b.demand - q.demand);
    assert g * (q.demand - b.demand) == -(g * (b.demand - q.demand));
    assert f * (q.demand - b.demand) == -(f * (b.demand - q.demand));
  }

  /** A point below a line through `b`, to the right of `b`, is no steeper from `b`. */
  lemma BelowIsFlatter(b: Point, g: real, c: Point)
    requires b.demand < c.demand && Below(b, g, c)
    ensures Slope(b, c) <= g
  {
    DivLe(c.revenue - b.revenue, g, c.demand - b.demand);
  }

  lemma SameDemandBelow(a: Point, g: real, q: Point)
    requires q.demand == a.demand
    ensures Below(a, g, q) <==> q.revenue <= a.revenue
  {
    var d := q.demand - a.demand;
    assert d == 0.0 && g * d == 0.0;
  }

  // ---- The shape of the hull.

  /** Demand and revenue grow strictly along a chain. */
  lemma {:induction false} ChainRises(pts: seq<Point>, allowed: Filter, h: seq<nat>, i: nat, j: nat)
    requires IsChain(pts, allowed, h) && i < j < |h|
    ensures pts[h[i]].demand < pts[h[j]].demand && pts[h[i]].revenue < pts[h[j]].revenue
    decreases j
  {
    assert IsNext(pts, allowed, h[j - 1], h[j - 1 + 1]);
    if i < j - 1 {
      ChainRises(pts, allowed, h, i, j - 1);
    }
  }

  /** The slope of edge `i` of a chain. */
  ghost function EdgeSlope(pts: seq<Point>, allowed: Filter, h: seq<nat>, i: nat): (g: real)
    requires IsChain(pts, allowed, h) && i + 1 < |h|
    ensures g > 0.0
  {
    assert IsNext(pts, allowed, h[i], h[i + 1]);
    SlopeLine(pts[h[i]], pts[h[i + 1]]);
    Slope(pts[h[i]], pts[h[i + 1]])
  }

  /** Two steps in a row get flatter when the second goal could have followed the first start. */
  lemma TwoStepsFlatten(pts: seq<Point>, allowed: Filter, a: nat, b: nat, c: nat)
    requires a < |pts| && b < |pts| && c < |pts|
    requires IsNext(pts, allowed, a, b) && IsNext(pts, allowed, b, c) && allowed(a, c)
    ensures Slope(pts[b], pts[c]) <= Slope(pts[a], pts[b])
  {
    hide Slope;
    StepAbove(pts[a], pts[b], pts[c]);
    LineThroughBothEnds(pts[a], pts[b], pts[c]);
    BelowIsFlatter(pts[b], Slope(pts[a], pts[b]), pts[c]);
  }

  /** Every policy of the chain could have followed the one before the last. */
  ghost predicate SkipsAllowed(allowed: Filter, h: seq<nat>) {
    forall k | 0 <= k < |h| - 2 :: allowed(h[k], h[k + 2])
  }

  /** The slopes never rise along a chain that could have skipped any of its policies. */
  lemma {:induction false} SlopesFall(pts: seq<Point>, allowed: Filter, h: seq<nat>, i: nat, j: nat)
    requires IsChain(pts, allowed, h) && SkipsAllowed(allowed, h) && i <= j && j + 1 < |h|
    ensures EdgeSlope(pts, allowed, h, j) <= EdgeSlope(pts, allowed, h, i)
    decreases j
  {
    if i < j {
      hide Slope;
      SlopesFall(pts, allowed, h, i, j - 1);
      assert IsNext(pts, allowed, h[j - 1], h[j - 1 + 1]) && IsNext(pts, allowed, h[j], h[j + 1]);
      assert allowed(h[j - 1], h[j - 1 + 2]);
      TwoStepsFlatten(pts, allowed, h[j - 1], h[j], h[j + 1]);
    }
  }

  /** A transitive filter allows every such skip. */
  lemma TransitiveSkips(pts: seq<Point>, allowed: Filter, h: seq<nat>)
    requires IsChain(pts, allowed, h) && IsTransitive(pts, allowed)
    ensures SkipsAllowed(allowed, h)
  {
    hide Slope;
    forall k | 0 <= k < |h| - 2
      ensures allowed(h[k], h[k + 2])
    {
      assert IsNext(pts, allowed, h[k], h[k + 1]) && IsNext(pts, allowed, h[k + 1], h[k + 1 + 1]);
    }
  }

  /** No policy with the demand of the first policy earns more than it. */
  ghost predicate FirstIsBest(pts: seq<Point>)
    requires pts != []
  {
    forall q | 0 <= q < |pts| && pts[q].demand == pts[0].demand :: pts[q].revenue <= pts[0].revenue
  }

  /** Every policy with at least the first policy's demand lies on or below the line through edge `i`. */
  ghost predicate EdgeDominates(pts: seq<Point>, h: seq<nat>, i: nat)
    requires IsChain(pts, Any(), h) && i + 1 < |h|
  {
    forall q | 0 <= q < |pts| && pts[q].demand >= pts[0].demand ::
      Below(pts[h[i]], EdgeSlope(pts, Any(), h, i), pts[q])
  }

  /** Policy `q` could have followed every policy of the chain that has less demand. */
  ghost predicate Follows(pts: seq<Point>, allowed: Filter, h: seq<nat>, q: nat)
    requires q < |pts| && forall i | 0 <= i < |h| :: h[i] < |pts|
  {
    forall i | 0 <= i < |h| && pts[h[i]].demand < pts[q].demand :: allowed(h[i], q)
  }

  lemma EdgeAboveRight(pts: seq<Point>, allowed: Filter, h: seq<nat>, i: nat, q: nat)
    requires IsChain(pts, allowed, h) && i + 1 < |h| && q < |pts|
    requires pts[q].demand > pts[h[i]].demand && allowed(h[i], q)
    ensures Below(pts[h[i]], EdgeSlope(pts, allowed, h, i), pts[q])
  {
    assert IsNext(pts, allowed, h[i], h[i + 1]);
    if pts[q].revenue > pts[h[i]].revenue {
      assert Reaches(pts, allowed, h[i], q);
    }
    StepAbove(pts[h[i]], pts[h[i + 1]], pts[q]);
  }

  lemma EdgeAboveFirst(pts: seq<Point>, allowed: Filter, h: seq<nat>, q: nat)
    requires IsChain(pts, allowed, h) && FirstIsBest(pts) && 2 <= |h| && q < |pts|
    requires pts[q].demand == pts[0].demand
    ensures Below(pts[h[0]], EdgeSlope(pts, allowed, h, 0), pts[q])
  {
    SameDemandBelow(pts[0], EdgeSlope(pts, allowed, h, 0), pts[q]);
    hide Slope, Below, EdgeSlope;
  }

  lemma {:induction false} EdgeAbove(pts: seq<Point>, allowed: Filter, h: seq<nat>, i: nat, q: nat)
    requires IsChain(pts, allowed, h) && SkipsAllowed(allowed, h) && FirstIsBest(pts) && i + 1 < |h|
    requires q < |pts| && Follows(pts, allowed, h, q) && pts[q].demand >= pts[0].demand
    ensures Below(pts[h[i]], EdgeSlope(pts, allowed, h, i), pts[q])
  {
    if pts[q].demand > pts[h[i]].demand {
      EdgeAboveRight(pts, allowed, h, i, q);
    } else if i > 0 {
      hide Slope, Below, IsChain;
      EdgeAbove(pts, allowed, h, i - 1, q);
      SlopesFall(pts, allowed, h, i - 1, i);
      ChainRises(pts, allowed, h, i - 1, i);
      LineThroughBothEnds(pts[h[i - 1]], pts[h[i]], pts[q]);
      FlatterIsHigher(pts[h[i]], EdgeSlope(pts, allowed, h, i - 1), EdgeSlope(pts, allowed, h, i), pts[q]);
    } else {
      EdgeAboveFirst(pts, allowed, h, q);
    }
  }

  /**
   * Every edge of the plain hull dominates all policies exactly when no policy
   * with the empty policy's demand earns more than the empty policy.
   */
  lemma HullDominates(pts: seq<Point>, h: seq<nat>)
    requires IsHull(pts, Any(), h) && 2 <= |h|
    ensures FirstIsBest(pts) <==> forall i: nat | i + 1 < |h| :: EdgeDominates(pts, h, i)
  {
    hide Slope, EdgeSlope;
    if FirstIsBest(pts) {
      forall i: nat | i + 1 < |h|
        ensures EdgeDominates(pts, h, i)
      {
        forall q | 0 <= q < |pts| && pts[q].demand >= pts[0].demand
          ensures Below(pts[h[i]], EdgeSlope(pts, Any(), h, i), pts[q])
        {
          EdgeAbove(pts, Any(), h, i, q);
        }
      }
    }
    if forall i: nat | i + 1 < |h| :: EdgeDominates(pts, h, i) {
      assert EdgeDominates(pts, h, 0);
    }
  }

  /** The hull ends at a policy that no policy outearns which could follow all before it. */
  lemma HullEndsAtMostRevenue(pts: seq<Point>, allowed: Filter, h: seq<nat>, q: nat)
    requires IsHull(pts, allowed, h) && SkipsAllowed(allowed, h) && FirstIsBest(pts)
    requires q < |pts| && Follows(pts, allowed, h, q) && pts[q].demand >= pts[0].demand
    ensures pts[q].revenue <= pts[h[|h| - 1]].revenue
  {
    var n := |h| - 1;
    if pts[q].demand > pts[h[n]].demand {
      assert !Reaches(pts, allowed, h[n], q);
    } else if n > 0 {
      hide Slope;
      EdgeAbove(pts, allowed, h, n - 1, q);
      ChainRises(pts, allowed, h, n - 1, n);
      LineThroughBothEnds(pts[h[n - 1]], pts[h[n]], pts[q]);
      FlatterIsHigher(pts[h[n]], EdgeSlope(pts, allowed, h, n - 1), 0.0, pts[q]);
    }
  }

  // ---- Which of several steepest policies is taken.

  /** The policies are listed by rising demand. */
  ghost predicate ByDemand(pts: seq<Point>) {
    forall i, j | 0 <= i < j < |pts| :: pts[i].demand <= pts[j].demand
  }

  /**
   * Of several steepest policies the first on the list is taken: a policy that
   * could follow and is listed before the next one of the chain lies strictly
   * below the edge.
   */
  lemma EarlierIsFlatter(pts: seq<Point>, allowed: Filter, h: seq<nat>, i: nat, q: nat)
    requires IsChain(pts, allowed, h) && i + 1 < |h| && q < h[i + 1] && allowed(h[i], q)
    requires pts[q].demand > pts[h[i]].demand && pts[q].revenue > pts[h[i]].revenue
    ensures (pts[q].revenue - pts[h[i]].revenue) * (pts[h[i + 1]].demand - pts[h[i]].demand)
      < (pts[h[i + 1]].revenue - pts[h[i]].revenue) * (pts[q].demand - pts[h[i]].demand)
  {
    assert IsNext(pts, allowed, h[i], h[i + 1]);
    assert Reaches(pts, allowed, h[i], q);
    hide IsNext, IsChain;
    SlopesCross(pts[h[i]], pts[q], pts[h[i + 1]]);
  }

  /** Slopes from one point compare as their crossed products. */
  lemma SlopesCross(a: Point, b: Point, c: Point)
    requires a.demand < b.demand && a.demand < c.demand
    ensures Slope(a, b) < Slope(a, c) <==>
      (b.revenue - a.revenue) * (c.demand - a.demand) < (c.revenue - a.revenue) * (b.demand - a.demand)
  {
    hide Slope;
    SlopeLine(a, b);
    SlopeLine(a, c);
    var f, g, d := Slope(a, b), Slope(a, c), (b.demand - a.demand) * (c.demand - a.demand);
    PositiveProduct(b.demand - a.demand, c.demand - a.demand);
    assert f * (b.demand - a.demand) * (c.demand - a.demand) == f * d;
    assert g * (c.demand - a.demand) * (b.demand - a.demand) == g * d;
    if f < g { MulStrict(f, g, d); } else { MulMono(g, f, d); }
  }

  lemma PositiveProduct(a: real, b: real)
    requires a > 0.0 && b > 0.0
    ensures a * b > 0.0
  {
  }

  /**
   * On a list ordered by demand no policy that could follow lies on an edge
   * between its ends: the hull stops at every policy on its line.
   */
  lemma NothingOnEdge(pts: seq<Point>, allowed: Filter, h: seq<nat>, i: nat, q: nat)
    requires IsChain(pts, allowed, h) && ByDemand(pts) && i + 1 < |h| && q < |pts| && allowed(h[i], q)
    requires pts[h[i]].demand < pts[q].demand < pts[h[i + 1]].demand && pts[q].revenue > pts[h[i]].revenue
    ensures Slope(pts[h[i]], pts[q]) < EdgeSlope(pts, allowed, h, i)
  {
    assert q < h[i + 1];
    assert IsNext(pts, allowed, h[i], h[i + 1]) && Reaches(pts, allowed, h[i], q);
    hide Slope;
  }

  /** Three policies on one line make two edges. */
  lemma LineMakesTwoEdges(h: seq<nat>)
    requires IsHull([Point(0.0, 0.0), Point(10.0, 1000.0), Point(20.0, 2000.0)], Any(), h)
    ensures h == [0, 1, 2]
  {
    var pts := [Point(0.0, 0.0), Point(10.0, 1000.0), Point(20.0, 2000.0)];
    assert Slope(pts[0], pts[1]) == Slope(pts[0], pts[2]) == Slope(pts[1], pts[2]) == 100.0;
    assert IsNext(pts, Any(), 0, 1) && IsNext(pts, Any(), 1, 2) && IsLast(pts, Any(), 2);
    hide IsNext, IsLast, Slope;
    HullUnique(pts, Any(), h, [0, 1, 2]);
  }

  // ---- The search is a function: the hull is unique.

  lemma NextUnique(pts: seq<Point>, allowed: Filter, i: nat, k: nat, l: nat)
    requires i < |pts| && IsNext(pts, allowed, i, k) && IsNext(pts, allowed, i, l)
    ensures k == l
  {
    hide Slope;
  }

  lemma {:induction false} ChainsAgree(pts: seq<Point>, allowed: Filter, h: seq<nat>, l: seq<nat>, i: nat)
    requires IsChain(pts, allowed, h) && IsChain(pts, allowed, l) && i < |h| && i < |l|
    ensures h[i] == l[i]
  {
    if i > 0 {
      ChainsAgree(pts, allowed, h, l, i - 1);
      assert IsNext(pts, allowed, h[i - 1], h[i - 1 + 1]) && IsNext(pts, allowed, l[i - 1], l[i - 1 + 1]);
      NextUnique(pts, allowed, h[i - 1], h[i], l[i]);
    }
  }

  /** One list of policies has one hull. */
  lemma HullUnique(pts: seq<Point>, allowed: Filter, h: seq<nat>, l: seq<nat>)
    requires IsHull(pts, allowed, h) && IsHull(pts, allowed, l)
    ensures h == l
  {
    hide IsNext;
    forall i | 0 <= i < |h| && i < |l|
      ensures h[i] == l[i]
    {
      ChainsAgree(pts, allowed, h, l, i);
    }
    if |h| < |l| {
      LongerChainGoesOn(pts, allowed, l, |h| - 1);
    } else if |l| < |h| {
      LongerChainGoesOn(pts, allowed, h, |l| - 1);
    }
  }

  lemma LongerChainGoesOn(pts: seq<Point>, allowed: Filter, h: seq<nat>, i: nat)
    requires IsChain(pts, allowed, h) && i + 1 < |h|
    ensures !IsLast(pts, allowed, h[i])
  {
    assert IsNext(pts, allowed, h[i], h[i + 1]);
    assert Reaches(pts, allowed, h[i], h[i + 1]);
  }

  /** When every step of the plain hull passes the filter, the filtered hull is the plain hull. */
  lemma FilterKeepsHull(pts: seq<Point>, allowed: Filter, h: seq<nat>, l: seq<nat>)
    requires IsHull(pts, Any(), h) && IsHull(pts, allowed, l)
    requires forall i | 0 <= i < |h| - 1 :: allowed(h[i], h[i + 1])
    ensures l == h
  {
    hide Slope;
    forall i | 0 <= i < |h| - 1
      ensures IsNext(pts, allowed, h[i], h[i + 1])
    {
      assert IsNext(pts, Any(), h[i], h[i + 1]);
      forall q: nat | Reaches(pts, allowed, h[i], q)
        ensures Reaches(pts, Any(), h[i], q)
      {
      }
    }
    var end := h[|h| - 1];
    forall q: nat | Reaches(pts, allowed, end, q)
      ensures Reaches(pts, Any(), end, q)
    {
    }
    HullUnique(pts, allowed, l, h);
  }

  // ---- The transformation is exact at every bid price.

  /** What a policy earns beyond `cost` for each of its passengers. */
  function Net(p: Point, cost: real): real {
    p.revenue - cost * p.demand
  }

  /** What an independent class earns beyond `cost`, when it is sold only if that is positive. */
  function Beyond(y: real, cost: real, demand: real): real {
    if y > cost then (y - cost) * demand else 0.0
  }

  /** What edge `i` earns as an independent class: its slope is its yield, its width its demand. */
  ghost function EdgeGain(pts: seq<Point>, allowed: Filter, h: seq<nat>, cost: real, i: nat): real
    requires IsChain(pts, allowed, h) && i + 1 < |h|
  {
    Beyond(EdgeSlope(pts, allowed, h, i), cost, pts[h[i + 1]].demand - pts[h[i]].demand)
  }

  ghost function EdgeGains(pts: seq<Point>, allowed: Filter, h: seq<nat>, cost: real, n: nat): real
    requires IsChain(pts, allowed, h) && n < |h|
  {
    if n == 0 then 0.0 else EdgeGains(pts, allowed, h, cost, n - 1) + EdgeGain(pts, allowed, h, cost, n - 1)
  }

  /** The edges steeper than `cost` are exactly the first `m`. */
  ghost predicate SteepUpTo(pts: seq<Point>, allowed: Filter, h: seq<nat>, cost: real, m: nat)
    requires IsChain(pts, allowed, h)
  {
    && m < |h|
    && (forall i: nat | i < m :: EdgeSlope(pts, allowed, h, i) > cost)
    && (forall i: nat | m <= i && i + 1 < |h| :: EdgeSlope(pts, allowed, h, i) <= cost)
  }

  lemma {:induction false} SteepEdges(pts: seq<Point>, allowed: Filter, h: seq<nat>, cost: real, n: nat)
    returns (m: nat)
    requires IsChain(pts, allowed, h) && SkipsAllowed(allowed, h) && n < |h|
    requires forall i: nat | i < n :: EdgeSlope(pts, allowed, h, i) > cost
    ensures SteepUpTo(pts, allowed, h, cost, m)
    decreases |h| - n
  {
    hide EdgeSlope, IsChain;
    if n + 1 < |h| && EdgeSlope(pts, allowed, h, n) > cost {
      m := SteepEdges(pts, allowed, h, cost, n + 1);
    } else {
      m := n;
      forall i: nat | n <= i && i + 1 < |h|
        ensures EdgeSlope(pts, allowed, h, i) <= cost
      {
        SlopesFall(pts, allowed, h, n, i);
      }
    }
  }

  lemma SteepGain(a: Point, b: Point, cost: real)
    requires a.demand < b.demand
    ensures (Slope(a, b) - cost) * (b.demand - a.demand) == Net(b, cost) - Net(a, cost)
  {
    SlopeLine(a, b);
    var d := b.demand - a.demand;
    assert (Slope(a, b) - cost) * d == Slope(a, b) * d - cost * d;
    assert cost * d == cost * b.demand - cost * a.demand;
  }

  lemma EdgeGainIsNet(pts: seq<Point>, allowed: Filter, h: seq<nat>, cost: real, i: nat)
    requires IsChain(pts, allowed, h) && i + 1 < |h|
    ensures EdgeGain(pts, allowed, h, cost, i) ==
      if EdgeSlope(pts, allowed, h, i) > cost then Net(pts[h[i + 1]], cost) - Net(pts[h[i]], cost) else 0.0
  {
    hide Net, Slope;
    ChainRises(pts, allowed, h, i, i + 1);
    SteepGain(pts[h[i]], pts[h[i + 1]], cost);
  }

  lemma GainsStep(pts: seq<Point>, allowed: Filter, h: seq<nat>, cost: real, m: nat, i: nat)
    requires IsChain(pts, allowed, h) && SteepUpTo(pts, allowed, h, cost, m) && i + 1 < |h|
    ensures EdgeGains(pts, allowed, h, cost, i + 1) == EdgeGains(pts, allowed, h, cost, i)
      + if i < m then Net(pts[h[i + 1]], cost) - Net(pts[h[i]], cost) else 0.0
  {
    hide Net, EdgeSlope, EdgeGain, IsChain;
    EdgeGainIsNet(pts, allowed, h, cost, i);
  }

  lemma NoGains(pts: seq<Point>, allowed: Filter, h: seq<nat>, cost: real)
    requires IsChain(pts, allowed, h)
    ensures EdgeGains(pts, allowed, h, cost, 0) == 0.0
  {
  }

  /** Over the steep edges the gains telescope. */
  lemma {:induction false} SteepGains(pts: seq<Point>, allowed: Filter, h: seq<nat>, cost: real, m: nat, n: nat)
    requires IsChain(pts, allowed, h) && SteepUpTo(pts, allowed, h, cost, m) && n <= m
    ensures EdgeGains(pts, allowed, h, cost, n) == Net(pts[h[n]], cost) - Net(pts[h[0]], cost)
  {
    if n == 0 {
      NoGains(pts, allowed, h, cost);
    } else {
      hide Net, EdgeSlope, EdgeGains;
      SteepGains(pts, allowed, h, cost, m, n - 1);
      GainsStep(pts, allowed, h, cost, m, n - 1);
    }
  }

  /** The flat edges after them add nothing. */
  lemma {:induction false} GainsTelescope(pts: seq<Point>, allowed: Filter, h: seq<nat>, cost: real, m: nat, n: nat)
    requires IsChain(pts, allowed, h) && SteepUpTo(pts, allowed, h, cost, m) && m <= n < |h|
    ensures EdgeGains(pts, allowed, h, cost, n) == Net(pts[h[m]], cost) - Net(pts[h[0]], cost)
  {
    hide Net, EdgeSlope, EdgeGains;
    if n == m {
      SteepGains(pts, allowed, h, cost, m, m);
    } else {
      GainsTelescope(pts, allowed, h, cost, m, n - 1);
      GainsStep(pts, allowed, h, cost, m, n - 1);
    }
  }

  /** Left of `b`, a line steeper than `cost` keeps the net value below that of `b`; right of it, a flatter one. */
  lemma NetBelow(b: Point, g: real, cost: real, q: Point)
    requires Below(b, g, q)
    requires (q.demand <= b.demand && g >= cost) || (q.demand >= b.demand && g <= cost)
    ensures Net(q, cost) <= Net(b, cost)
  {
    var d := q.demand - b.demand;
    if d < 0.0 {
      MulMono(cost, g, -d);
    } else if d > 0.0 {
      MulMono(g, cost, d);
    }
    assert cost * d == cost * q.demand - cost * b.demand;
    assert g * d == -(g * -d) && cost * d == -(cost * -d);
  }

  lemma BestAtCost(pts: seq<Point>, allowed: Filter, h: seq<nat>, cost: real, m: nat, q: nat)
    requires IsHull(pts, allowed, h) && SkipsAllowed(allowed, h) && FirstIsBest(pts)
    requires SteepUpTo(pts, allowed, h, cost, m) && cost >= 0.0
    requires q < |pts| && Follows(pts, allowed, h, q) && pts[q].demand >= pts[0].demand
    ensures Net(pts[q], cost) <= Net(pts[h[m]], cost)
  {
    hide Net, Slope, Below, EdgeSlope;
    var here := pts[h[m]];
    if pts[q].demand > here.demand {
      if m + 1 < |h| {
        EdgeAbove(pts, allowed, h, m, q);
        NetBelow(here, EdgeSlope(pts, allowed, h, m), cost, pts[q]);
      } else {
        HullEndsAtMostRevenue(pts, allowed, h, q);
        Flat(here, pts[q]);
        NetBelow(here, 0.0, cost, pts[q]);
      }
    } else if m > 0 {
      EdgeAbove(pts, allowed, h, m - 1, q);
      EdgeThroughNext(pts, allowed, h, m - 1, q);
      NetBelow(here, EdgeSlope(pts, allowed, h, m - 1), cost, pts[q]);
    } else {
      Flat(here, pts[q]);
      NetBelow(here, cost, cost, pts[q]);
    }
  }

  lemma Flat(b: Point, q: Point)
    requires q.revenue <= b.revenue
    ensures Below(b, 0.0, q)
    ensures q.demand == b.demand ==> forall g: real :: Below(b, g, q)
  {
    if q.demand == b.demand {
      forall g: real
        ensures Below(b, g, q)
      {
        assert g * (q.demand - b.demand) == 0.0;
      }
    }
  }

  lemma EdgeThroughNext(pts: seq<Point>, allowed: Filter, h: seq<nat>, i: nat, q: nat)
    requires IsChain(pts, allowed, h) && i + 1 < |h| && q < |pts|
    requires Below(pts[h[i]], EdgeSlope(pts, allowed, h, i), pts[q])
    ensures Below(pts[h[i + 1]], EdgeSlope(pts, allowed, h, i), pts[q])
  {
    hide Slope, Below;
    ChainRises(pts, allowed, h, i, i + 1);
    LineThroughBothEnds(pts[h[i]], pts[h[i + 1]], pts[q]);
  }

  /**
   * Marginal revenue transformation is exact: at every bid price, what the hull
   * edges earn as independent classes with their adjusted yields and demands is
   * what the best policy earns beyond the empty one. The best is meant among all
   * policies that could have followed the hull up to their demand, which for the
   * plain hull are all, and it is the hull policy after the edges whose yield
   * exceeds the bid price.
   */
  lemma TransformationIsExact(pts: seq<Point>, allowed: Filter, h: seq<nat>, cost: real) returns (m: nat)
    requires IsHull(pts, allowed, h) && SkipsAllowed(allowed, h) && FirstIsBest(pts) && cost >= 0.0
    ensures SteepUpTo(pts, allowed, h, cost, m)
    ensures EdgeGains(pts, allowed, h, cost, |h| - 1) == Net(pts[h[m]], cost) - Net(pts[0], cost)
    ensures forall q: nat | q < |pts| && Follows(pts, allowed, h, q) && pts[q].demand >= pts[0].demand ::
      Net(pts[q], cost) - Net(pts[0], cost) <= EdgeGains(pts, allowed, h, cost, |h| - 1)
  {
    hide Net, Slope, EdgeSlope, EdgeGains, Follows;
    m := SteepEdges(pts, allowed, h, cost, 0);
    GainsTelescope(pts, allowed, h, cost, m, |h| - 1);
    forall q: nat | q < |pts| && Follows(pts, allowed, h, q) && pts[q].demand >= pts[0].demand
      ensures Net(pts[q], cost) <= Net(pts[h[m]], cost)
    {
      BestAtCost(pts, allowed, h, cost, m, q);
    }
  }
}
