/**
 * The transformation and the virtual classes together: what the virtual class
 * list of a leg keeps of the demand and the revenue of the hull.
 */
module Pipeline {
  import opened Sequences
  import opened Inventory
  import opened Totals
  import opened ConvexHull
  import opened Nesting
  import opened NestedSlopes
  import opened PolicyHelper
  import opened MarginalRevenueTransformation
  import opened HullConservation
  import opened VirtualClasses
  import opened Optimiser

  // ---- What a class or an edge brings to the virtual classes.

  /** What a class brings of a measure: all of it when it is kept, else nothing. */
  function KeptPart(f: Row -> real, r: Row): real {
    if Kept(r) then f(r) else 0.0
  }

  /** What an edge brings of a measure: all of it when its yield rounds to a positive level. */
  function RoundedPart(f: Edge -> real): Edge -> real {
    (e: Edge) => if RoundedYield(e.adjustedYield) > 0 then f(e) else 0.0
  }

  /** What the demand of an edge earns at its rounded yield. */
  function EdgeAtLevel(e: Edge): real {
    AtLevel(RoundedYield(e.adjustedYield), e.mean)
  }

  /** The function `g` gives the kept part of the measure `f` for every class of the list. */
  ghost predicate Measures(cs: seq<BookingClass>, f: Row -> real, g: BookingClass -> real)
    reads cs`mean, cs`variance, cs`adjustedYield
  {
    forall i | 0 <= i < |cs| :: g(cs[i]) == KeptPart(f, RowOf(cs[i]))
  }

  lemma KeptStep(rows: seq<Row>, f: Row -> real)
    requires rows != []
    ensures Total(AllKept(rows), f)
      == Total(AllKept(rows[..|rows| - 1]), f) + KeptPart(f, rows[|rows| - 1])
  {
    hide Kept, Total;
    var r, before := rows[|rows| - 1], AllKept(rows[..|rows| - 1]);
    TotalAppend(before, [r], f);
    TotalOne(r, f);
    assert before + [] == before;
  }

  lemma {:induction false} KeptTotal(cs: seq<BookingClass>, f: Row -> real, g: BookingClass -> real)
    requires Measures(cs, f, g)
    ensures Total(AllKept(Rows(cs)), f) == Total(cs, g)
  {
    if cs != [] {
      hide AllKept, KeptPart;
      var n := |cs| - 1;
      KeptTotal(cs[..n], f, g);
      KeptStep(Rows(cs), f);
      assert Rows(cs)[..n] == Rows(cs[..n]);
    }
  }

  /** The state that the adjustment leaves when it starts from classes without demand. */
  ghost predicate Adjusted(cabin: SegmentCabin, hull: seq<Policy>)
    reads cabin.classes, hull`demand, hull`variance, hull`totalRevenue
  {
    && NestedHull(cabin, hull) && Rising(hull)
    && (forall k: nat | k < |hull| - 1 :: NodeOf(cabin, hull, k)[0] in cabin.classes
          && IsLead(NodeOf(cabin, hull, k)[0], Edges(hull)[k]))
    && (forall c | c in cabin.classes && !LeadsNode(cabin, hull, |hull| - 1, c) :: c.mean == 0.0)
  }

  /** The class carries the demand and the yield of the edge. */
  ghost predicate IsLead(c: BookingClass, e: Edge)
    reads c`mean, c`variance, c`adjustedYield
  {
    c.mean == e.mean && c.variance == e.variance && c.adjustedYield == e.adjustedYield
  }

  lemma EdgeHasDemand(hull: seq<Policy>, k: nat)
    requires Rising(hull) && k + 1 < |hull|
    ensures k < |Edges(hull)| && Edges(hull)[k].mean > 0.0 && Edges(hull)[k].adjustedYield > 0.0
  {
    hide Edges;
    EdgeAt(hull, k);
    EdgeEarns(hull[k], hull[k + 1]);
  }

  /** On the first class of every node the measure `f` of classes is the measure `fe` of edges. */
  ghost predicate Mirrors(cabin: SegmentCabin, hull: seq<Policy>, f: Row -> real, fe: Edge -> real)
    requires NestedHull(cabin, hull) && Rising(hull)
    reads set k: nat | k < |hull| - 1 :: NodeOf(cabin, hull, k)[0]
    reads hull`demand, hull`variance, hull`totalRevenue
  {
    forall k: nat | k < |hull| - 1 && k < |Edges(hull)| :: f(RowOf(NodeOf(cabin, hull, k)[0])) == fe(Edges(hull)[k])
  }

  lemma LeadRow(c: BookingClass, e: Edge, f: Row -> real, fe: Edge -> real)
    requires IsLead(c, e) && e.mean > 0.0 && f(RowOf(c)) == fe(e)
    ensures KeptPart(f, RowOf(c)) == RoundedPart(fe)(e)
  {
    hide RoundedYield;
  }

  lemma IdleRow(c: BookingClass, f: Row -> real)
    requires c.mean == 0.0
    ensures KeptPart(f, RowOf(c)) == 0.0
  {
  }

  lemma MeasureOf(cs: seq<BookingClass>, f: Row -> real, g: BookingClass -> real, c: BookingClass)
    requires Measures(cs, f, g) && c in cs
    ensures g(c) == KeptPart(f, RowOf(c))
  {
    var i :| 0 <= i < |cs| && cs[i] == c;
  }

  lemma LeadMeasures(cabin: SegmentCabin, hull: seq<Policy>, f: Row -> real, fe: Edge -> real,
                     g: BookingClass -> real, k: nat)
    requires Adjusted(cabin, hull) && Measures(cabin.classes, f, g) && k < |hull| - 1
    requires Mirrors(cabin, hull, f, fe)
    ensures k < |Edges(hull)| && g(NodeOf(cabin, hull, k)[0]) == RoundedPart(fe)(Edges(hull)[k])
  {
    hide NestedHull, NodeOf, Rising, Edges, LeadsNode, KeptPart, RoundedPart, Measures, IsLead;
    var c := NodeOf(cabin, hull, k)[0];
    EdgeHasDemand(hull, k);
    LeadIs(cabin, hull, k);
    LeadRow(c, Edges(hull)[k], f, fe);
    MeasureOf(cabin.classes, f, g, c);
  }

  lemma LeadIs(cabin: SegmentCabin, hull: seq<Policy>, k: nat)
    requires Adjusted(cabin, hull) && k < |hull| - 1 && k < |Edges(hull)|
    ensures NodeOf(cabin, hull, k)[0] in cabin.classes && IsLead(NodeOf(cabin, hull, k)[0], Edges(hull)[k])
    ensures Edges(hull)[k].mean > 0.0
  {
    hide NestedHull, NodeOf, Edges, LeadsNode, IsLead;
    EdgeHasDemand(hull, k);
  }

  lemma IdleMeasures(cabin: SegmentCabin, hull: seq<Policy>, f: Row -> real, g: BookingClass -> real)
    requires Adjusted(cabin, hull) && Measures(cabin.classes, f, g)
    ensures ZeroOffLeads(cabin, hull, g)
  {
    AdjustedHull(cabin, hull);
    hide NestedHull, NodeOf, Rising, Edges, LeadsNode, KeptPart, Measures;
    forall c | c in cabin.classes && !LeadsNode(cabin, hull, |hull| - 1, c)
      ensures g(c) == 0.0
    {
      IdleRow(c, f);
      MeasureOf(cabin.classes, f, g, c);
    }
  }

  lemma LeadTotalStep(cabin: SegmentCabin, hull: seq<Policy>, f: BookingClass -> real, n: nat)
    requires NestedHull(cabin, hull) && n + 1 < |hull|
    ensures LeadTotal(cabin, hull, f, n + 1) == LeadTotal(cabin, hull, f, n) + f(NodeOf(cabin, hull, n)[0])
    ensures LeadTotal(cabin, hull, f, 0) == 0.0
  {
    hide NestedHull, NodeOf;
  }

  lemma {:induction false} LeadsAreEdges(cabin: SegmentCabin, hull: seq<Policy>, es: seq<Edge>,
                                         f: BookingClass -> real, fe: Edge -> real, n: nat)
    requires NestedHull(cabin, hull) && n < |hull| == |es| + 1
    requires forall k: nat | k < |es| :: f(NodeOf(cabin, hull, k)[0]) == fe(es[k])
    ensures LeadTotal(cabin, hull, f, n) == Total(es[..n], fe)
  {
    hide NestedHull, NodeOf, LeadTotal, Total;
    if n == 0 {
      NoLeads(cabin, hull, es, f, fe);
    } else {
      LeadsAreEdges(cabin, hull, es, f, fe, n - 1);
      LeadTotalStep(cabin, hull, f, n - 1);
      TotalPrefix(es, fe, n - 1);
    }
  }

  lemma NoLeads(cabin: SegmentCabin, hull: seq<Policy>, es: seq<Edge>, f: BookingClass -> real, fe: Edge -> real)
    requires NestedHull(cabin, hull) && 0 < |hull|
    ensures LeadTotal(cabin, hull, f, 0) == 0.0 && Total(es[..0], fe) == 0.0
  {
  }

  lemma MeasureCabin(cabin: SegmentCabin, hull: seq<Policy>, f: BookingClass -> real, fe: Edge -> real)
    requires NestedHull(cabin, hull) && Rising(hull) && ZeroOffLeads(cabin, hull, f)
    requires forall k: nat | k < |Edges(hull)| :: f(NodeOf(cabin, hull, k)[0]) == fe(Edges(hull)[k])
    ensures Total(cabin.classes, f) == Total(Edges(hull), fe)
  {
    assert hull != [];
    hide NestedHull, NodeOf, Rising, LeadTotal, Total, ZeroOffLeads;
    CabinTotal(cabin, hull, f);
    LeadsAreEdges(cabin, hull, Edges(hull), f, fe, |hull| - 1);
    assert Edges(hull)[..|hull| - 1] == Edges(hull);
  }

  /**
   * The virtual classes of an adjusted cabin hold every measure of exactly the
   * hull edges that round to a positive level.
   */
  lemma VirtualClassesCarryEdges(cabin: SegmentCabin, hull: seq<Policy>, levels: seq<int>,
                                 f: Row -> real, fe: Edge -> real)
    requires Adjusted(cabin, hull) && AreLevels(Rows(cabin.classes), levels) && Mirrors(cabin, hull, f, fe)
    ensures Rising(hull) && OverLevels(Rows(cabin.classes), levels, f) == Total(Edges(hull), RoundedPart(fe))
  {
    hide *;
    AdjustedHull(cabin, hull);
    var g := MeasuresExist(cabin.classes, f);
    GroupsConserve(Rows(cabin.classes), levels, f);
    KeptTotal(cabin.classes, f, g);
    IdleMeasures(cabin, hull, f, g);
    forall k: nat | k < |Edges(hull)|
      ensures g(NodeOf(cabin, hull, k)[0]) == RoundedPart(fe)(Edges(hull)[k])
    {
      LeadMeasures(cabin, hull, f, fe, g, k);
    }
    MeasureCabin(cabin, hull, g, RoundedPart(fe));
  }

  lemma MeasuresExist(cs: seq<BookingClass>, f: Row -> real) returns (g: BookingClass -> real)
    ensures Measures(cs, f, g)
  {
    hide KeptPart;
    g := Lookup(map c | c in cs :: KeptPart(f, RowOf(c)));
  }

  /** Mean, variance and revenue at the rounded yield are such measures. */
  lemma RowsMirrorEdges(cabin: SegmentCabin, hull: seq<Policy>)
    requires Adjusted(cabin, hull)
    ensures NestedHull(cabin, hull) && Rising(hull)
    ensures Mirrors(cabin, hull, RowMean, EdgeMean) && Mirrors(cabin, hull, RowVariance, EdgeVariance)
    ensures Mirrors(cabin, hull, RowRevenue, EdgeAtLevel)
  {
    AdjustedHull(cabin, hull);
    hide NestedHull, NodeOf, Rising, Edges, LeadsNode, RoundedYield, AtLevel, Adjusted;
    forall k: nat | k < |hull| - 1 && k < |Edges(hull)|
      ensures IsLead(NodeOf(cabin, hull, k)[0], Edges(hull)[k])
    {
      LeadIs(cabin, hull, k);
    }
  }

  lemma AdjustedHull(cabin: SegmentCabin, hull: seq<Policy>)
    requires Adjusted(cabin, hull)
    ensures NestedHull(cabin, hull) && Rising(hull) && hull != [] && |Edges(hull)| == |hull| - 1
  {
    hide Rising;
  }

  // ---- Conservation over the pipeline.

  /** A yield of at least one half rounds to a positive level. */
  lemma RoundsUp(y: real)
    ensures RoundedYield(y) > 0 <==> y >= 0.5
    ensures y - 0.5 < RoundedYield(y) as real <= y + 0.5
  {
  }

  ghost predicate AllRoundUp(es: seq<Edge>) {
    forall k | 0 <= k < |es| :: es[k].adjustedYield >= 0.5
  }

  ghost predicate SomeRoundsUp(es: seq<Edge>) {
    exists k :: 0 <= k < |es| && es[k].adjustedYield >= 0.5
  }

  lemma {:induction false} EdgesKept(es: seq<Edge>)
    requires forall k | 0 <= k < |es| :: es[k].mean > 0.0
    ensures Total(es, RoundedPart(EdgeMean)) <= Total(es, EdgeMean)
    ensures Total(es, RoundedPart(EdgeMean)) == Total(es, EdgeMean) <==> AllRoundUp(es)
    ensures AllRoundUp(es) ==> Total(es, RoundedPart(EdgeVariance)) == Total(es, EdgeVariance)
  {
    if es != [] {
      hide RoundedYield;
      var n := |es| - 1;
      EdgesKept(es[..n]);
      RoundsUp(es[n].adjustedYield);
      assert es == es[..n] + [es[n]];
      assert AllRoundUp(es) <==> AllRoundUp(es[..n]) && es[n].adjustedYield >= 0.5;
    }
  }

  /** At most half a unit of yield apart, for every unit of demand. */
  ghost predicate Near(a: real, b: real, demand: real) {
    -0.5 * demand <= a - b <= 0.5 * demand
  }

  lemma NearProduct(level: real, y: real, m: real)
    requires y - 0.5 <= level <= y + 0.5 && m > 0.0
    ensures Near(level * m, y * m, m)
  {
    MulMono(y - 0.5, level, m);
    MulMono(level, y + 0.5, m);
    assert (y - 0.5) * m == y * m - 0.5 * m && (y + 0.5) * m == y * m + 0.5 * m;
  }

  lemma LevelNear(e: Edge)
    requires e.mean > 0.0 && e.adjustedYield >= 0.5
    ensures Near(RoundedPart(EdgeAtLevel)(e), EdgeRevenue(e), EdgeMean(e))
  {
    hide RoundedYield;
    RoundsUp(e.adjustedYield);
    NearProduct(RoundedYield(e.adjustedYield) as real, e.adjustedYield, e.mean);
    assert RoundedPart(EdgeAtLevel)(e) == RoundedYield(e.adjustedYield) as real * e.mean;
  }

  lemma {:induction false} LevelsNear(es: seq<Edge>)
    requires AllRoundUp(es) && forall k | 0 <= k < |es| :: es[k].mean > 0.0
    ensures Near(Total(es, RoundedPart(EdgeAtLevel)), Total(es, EdgeRevenue), Total(es, EdgeMean))
  {
    if es != [] {
      hide RoundedPart, EdgeRevenue, EdgeMean;
      LevelsNear(es[..|es| - 1]);
      LevelNear(es[|es| - 1]);
    }
  }

  /**
   * The total mean of the virtual classes is at most the demand of the last hull
   * policy beyond the first, and equals it exactly when every adjusted yield is
   * at least one half. Then the variance is conserved too, and the rounding
   * changes the revenue by at most half a unit of yield for every unit of demand.
   */
  ghost predicate Conserves(cabin: SegmentCabin, hull: seq<Policy>, levels: seq<int>)
    requires hull != [] && Rising(hull)
    reads cabin.classes, hull`demand, hull`variance, hull`totalRevenue
  {
    var first, last, rows := hull[0], hull[|hull| - 1], Rows(cabin.classes);
    && OverLevels(rows, levels, RowMean) <= last.demand - first.demand
    && (OverLevels(rows, levels, RowMean) == last.demand - first.demand <==> AllRoundUp(Edges(hull)))
    && (AllRoundUp(Edges(hull)) ==>
          && OverLevels(rows, levels, RowVariance) == last.variance - first.variance
          && Near(OverLevels(rows, levels, RowRevenue), last.totalRevenue - first.totalRevenue,
                  last.demand - first.demand))
  }

  /** The pipeline conserves what the hull promises, up to the rounding of the yields. */
  lemma PipelineConserves(cabin: SegmentCabin, hull: seq<Policy>, levels: seq<int>)
    requires Adjusted(cabin, hull) && AreLevels(Rows(cabin.classes), levels)
    ensures hull != [] && Rising(hull) && Conserves(cabin, hull, levels)
  {
    hide *;
    AdjustedHull(cabin, hull);
    RowsMirrorEdges(cabin, hull);
    VirtualClassesCarryEdges(cabin, hull, levels, RowMean, EdgeMean);
    VirtualClassesCarryEdges(cabin, hull, levels, RowVariance, EdgeVariance);
    VirtualClassesCarryEdges(cabin, hull, levels, RowRevenue, EdgeAtLevel);
    EdgesConserve(hull);
    forall k | 0 <= k < |Edges(hull)|
      ensures Edges(hull)[k].mean > 0.0
    {
      EdgeHasDemand(hull, k);
    }
    EdgesKept(Edges(hull));
    if AllRoundUp(Edges(hull)) {
      LevelsNear(Edges(hull));
    }
    ConservesIs(cabin, hull, levels);
  }

  lemma ConservesIs(cabin: SegmentCabin, hull: seq<Policy>, levels: seq<int>)
    requires hull != [] && Rising(hull)
    requires var first, last, rows := hull[0], hull[|hull| - 1], Rows(cabin.classes);
      && OverLevels(rows, levels, RowMean) <= last.demand - first.demand
      && (OverLevels(rows, levels, RowMean) == last.demand - first.demand <==> AllRoundUp(Edges(hull)))
      && (AllRoundUp(Edges(hull)) ==> OverLevels(rows, levels, RowVariance) == last.variance - first.variance)
      && (AllRoundUp(Edges(hull)) ==>
            Near(OverLevels(rows, levels, RowRevenue), last.totalRevenue - first.totalRevenue,
                 last.demand - first.demand))
    ensures Conserves(cabin, hull, levels)
  {
    hide OverLevels, AllRoundUp, Near, Edges, Rising;
  }

  lemma LeadOf(cabin: SegmentCabin, hull: seq<Policy>, c: BookingClass) returns (k: nat)
    requires Adjusted(cabin, hull) && c in cabin.classes && c.mean != 0.0
    ensures k < |hull| - 1 && k < |Edges(hull)| && IsLead(c, Edges(hull)[k])
  {
    AdjustedHull(cabin, hull);
    hide NestedHull, NodeOf, Rising, Edges, IsLead;
    assert LeadsNode(cabin, hull, |hull| - 1, c);
    k :| k < |hull| - 1 && NodeOf(cabin, hull, k)[0] == c;
  }

  lemma EdgeQuotient(a: Policy, b: Policy)
    requires Rises(a, b)
    ensures EdgeOf(a, b).mean == b.demand - a.demand && EdgeOf(a, b).variance == b.variance - a.variance
    ensures EdgeOf(a, b).adjustedYield * (b.demand - a.demand) == b.totalRevenue - a.totalRevenue
  {
    DivMul(b.totalRevenue - a.totalRevenue, b.demand - a.demand);
  }

  /**
   * The demand of every step of the hull goes to the class that the next policy
   * names in the first family in which the two policies differ: it gets the
   * growth in mean and variance, at the yield that earns the growth in revenue.
   */
  lemma StepGoesToPolicyClass(cabin: SegmentCabin, hull: seq<Policy>, k: nat) returns (i: nat)
    requires Adjusted(cabin, hull) && k + 1 < |hull|
    ensures i < |hull[k + 1].classes| && DifferFirstAt(hull[k], hull[k + 1], i)
    ensures var c, a, b := hull[k + 1].classes[i], hull[k], hull[k + 1];
      && c.mean == b.demand - a.demand && c.variance == b.variance - a.variance
      && c.adjustedYield * (b.demand - a.demand) == b.totalRevenue - a.totalRevenue
  {
    hide *;
    AdjustedHull(cabin, hull);
    i := NodeIsLedByPolicy(cabin, hull, k);
    assert i < |hull[k + 1].classes| by { DiffersWithin(hull[k], hull[k + 1], i); }
    EdgeAt(hull, k);
    LeadIs(cabin, hull, k);
    LeadHas(NodeOf(cabin, hull, k)[0], Edges(hull)[k]);
    EdgeQuotient(hull[k], hull[k + 1]);
  }

  lemma DiffersWithin(current: Policy, next: Policy, i: nat)
    requires DifferFirstAt(current, next, i)
    ensures i < |next.classes|
  {
  }

  lemma LeadHas(c: BookingClass, e: Edge)
    requires IsLead(c, e)
    ensures c.mean == e.mean && c.variance == e.variance && c.adjustedYield == e.adjustedYield
  {
  }

  lemma RowBelongs(cs: seq<BookingClass>, r: Row)
    requires r in Rows(cs)
    ensures r.booking in cs && r == RowOf(r.booking)
  {
    var i :| 0 <= i < |cs| && Rows(cs)[i] == r;
  }

  lemma RowIn(cs: seq<BookingClass>, c: BookingClass)
    requires c in cs
    ensures RowOf(c) in Rows(cs)
  {
    var i :| 0 <= i < |cs| && cs[i] == c;
    assert Rows(cs)[i] == RowOf(c);
  }

  lemma EdgeHasClass(cabin: SegmentCabin, hull: seq<Policy>, k: nat) returns (c: BookingClass)
    requires Adjusted(cabin, hull) && k + 1 < |hull|
    ensures c in cabin.classes && k < |Edges(hull)| && IsLead(c, Edges(hull)[k])
    ensures Edges(hull)[k].mean > 0.0
  {
    AdjustedHull(cabin, hull);
    hide NestedHull, NodeOf, Rising, Edges, IsLead;
    EdgeHasDemand(hull, k);
    c := NodeOf(cabin, hull, k)[0];
  }

  lemma KeptHasEdge(cabin: SegmentCabin, hull: seq<Policy>, r: Row)
    requires Adjusted(cabin, hull) && r in Rows(cabin.classes) && Kept(r)
    ensures Rising(hull) && SomeRoundsUp(Edges(hull))
  {
    AdjustedHull(cabin, hull);
    hide Adjusted, Edges, Rising, RoundedYield;
    RowBelongs(cabin.classes, r);
    var k := LeadOf(cabin, hull, r.booking);
    RoundsUp(r.adjustedYield);
    assert Edges(hull)[k].adjustedYield >= 0.5;
  }

  lemma EdgeHasKept(cabin: SegmentCabin, hull: seq<Policy>, k: nat)
    requires Adjusted(cabin, hull) && k + 1 < |hull|
    requires Rising(hull) && k < |Edges(hull)| && Edges(hull)[k].adjustedYield >= 0.5
    ensures exists r :: r in Rows(cabin.classes) && Kept(r)
  {
    hide Adjusted, Edges, Rising, RoundedYield;
    var c := EdgeHasClass(cabin, hull, k);
    RoundsUp(c.adjustedYield);
    RowIn(cabin.classes, c);
    assert Kept(RowOf(c));
  }

  /** The adjusted cabin has a class for the virtual classes exactly when some yield of the hull rounds up. */
  lemma KeptFromEdges(cabin: SegmentCabin, hull: seq<Policy>)
    requires Adjusted(cabin, hull)
    ensures Rising(hull)
    ensures (exists r :: r in Rows(cabin.classes) && Kept(r)) <==> SomeRoundsUp(Edges(hull))
  {
    AdjustedHull(cabin, hull);
    hide Adjusted, Edges, Rising, Kept;
    if r :| r in Rows(cabin.classes) && Kept(r) {
      KeptHasEdge(cabin, hull, r);
    }
    if SomeRoundsUp(Edges(hull)) {
      var k :| 0 <= k < |Edges(hull)| && Edges(hull)[k].adjustedYield >= 0.5;
      EdgeHasKept(cabin, hull, k);
    }
  }

  // ---- The run.

  ghost function VariancesOf(policies: seq<Policy>): (vs: seq<real>)
    reads policies`variance
    ensures |vs| == |policies| && forall i | 0 <= i < |vs| :: vs[i] == policies[i].variance
  {
    if policies == [] then []
    else VariancesOf(policies[..|policies| - 1]) + [policies[|policies| - 1].variance]
  }

  /**
   * What the assertions of the adjustment ask of consecutive policies: they
   * differ, none falls back, and the deviation rises.
   */
  ghost predicate CleanAlong(cabin: SegmentCabin, h: seq<nat>, vs: seq<real>) {
    && (forall i | 0 <= i < |h| :: h[i] < |cabin.policies| && h[i] < |vs|)
    && (forall i | 0 <= i < |h| - 1 ::
          StepIsClean(cabin, cabin.policies[h[i]], cabin.policies[h[i + 1]]) && vs[h[i]] < vs[h[i + 1]])
  }

  /** At the given demands, revenues and variances the nested hull, of which there is one, meets these assertions. */
  ghost predicate StepsAreCleanAt(cabin: SegmentCabin, pts: seq<Point>, vs: seq<real>)
    requires ValidCabin(cabin)
  {
    forall h: seq<nat> | IsHull(pts, CabinFilter(cabin), h) :: CleanAlong(cabin, h, vs)
  }

  ghost predicate StepsAreClean(cabin: SegmentCabin)
    requires ValidCabin(cabin)
    reads cabin.policies`demand, cabin.policies`variance, cabin.policies`totalRevenue
  {
    StepsAreCleanAt(cabin, Points(cabin.policies), VariancesOf(cabin.policies))
  }

  lemma HullRises(cabin: SegmentCabin, chain: seq<nat>)
    requires ValidCabin(cabin) && StepsAreClean(cabin) && HullAt(cabin, chain)
    requires IsHull(Points(cabin.policies), CabinFilter(cabin), chain)
    ensures Rising(cabin.hull)
    ensures forall i | 0 <= i < |cabin.hull| - 1 :: StepIsClean(cabin, cabin.hull[i], cabin.hull[i + 1])
  {
    assert CleanAlong(cabin, chain, VariancesOf(cabin.policies));
    hide CabinFilter, ValidCabin, StepIsClean, Slope, StepsAreClean;
    forall i | 0 <= i < |cabin.hull| - 1
      ensures Rises(cabin.hull[i], cabin.hull[i + 1])
      ensures StepIsClean(cabin, cabin.hull[i], cabin.hull[i + 1])
    {
      assert IsNext(Points(cabin.policies), CabinFilter(cabin), chain[i], chain[i + 1]);
      assert StepIsClean(cabin, cabin.policies[chain[i]], cabin.policies[chain[i + 1]]);
    }
  }

  lemma HullMeetsAssertions(cabin: SegmentCabin, chain: seq<nat>)
    requires ValidCabin(cabin) && StepsAreClean(cabin) && HullAt(cabin, chain)
    requires Rearranges(cabin.classes, FamilyClasses(cabin.families))
    requires IsHull(Points(cabin.policies), CabinFilter(cabin), chain)
    ensures cabin.hull != [] && NestedHull(cabin, cabin.hull) && Rising(cabin.hull)
  {
    hide *;
    HullRises(cabin, chain);
    HullIsNested(cabin, chain);
    AnyNestedHull(cabin, cabin.hull);
  }

  lemma AnyNestedHull(cabin: SegmentCabin, hull: seq<Policy>)
    requires NestedHull(cabin, hull)
    ensures hull != []
  {
  }

  lemma FilledNodeLeads(cabin: SegmentCabin, hull: seq<Policy>, node: NestingNode, e: Edge, k: nat)
    requires NestedHull(cabin, hull) && k + 1 < |hull| && NodeFilled(cabin, hull, node, e, k)
    ensures NodeOf(cabin, hull, k)[0] in cabin.classes && IsLead(NodeOf(cabin, hull, k)[0], e)
  {
    hide NestedHull, NodeOf;
    NodesApart(cabin, hull, k);
    assert NodeOf(cabin, hull, k)[0] in NodeOf(cabin, hull, k);
  }

  lemma EdgeCount(hull: seq<Policy>)
    requires Rising(hull) && 0 < |hull|
    ensures |Edges(hull)| == |hull| - 1
  {
  }

  lemma AdjustedIs(cabin: SegmentCabin, hull: seq<Policy>)
    requires NestedHull(cabin, hull) && Rising(hull) && 1 < |hull| <= |cabin.nodes| + 1
    requires forall k: nat | k < |hull| - 1 ::
      k < |Edges(hull)| && NodeFilled(cabin, hull, cabin.nodes[k], Edges(hull)[k], k)
    requires forall c | c in cabin.classes && !LeadsNode(cabin, hull, |hull| - 1, c) :: c.mean == 0.0
    ensures Adjusted(cabin, hull)
  {
    hide NestedHull, NodeOf, Rising, Edges, LeadsNode, NodeFilled, IsLead;
    EdgeCount(hull);
    forall k: nat | k < |hull| - 1
      ensures NodeOf(cabin, hull, k)[0] in cabin.classes && IsLead(NodeOf(cabin, hull, k)[0], Edges(hull)[k])
    {
      FilledNodeLeads(cabin, hull, cabin.nodes[k], Edges(hull)[k], k);
    }
  }

  /** Every edge of the hull has its node, with its classes and its yield, and the other classes have the last node. */
  ghost predicate NodesBuilt(cabin: SegmentCabin)
    reads cabin`hull, cabin`nodes, cabin.nodes
    reads cabin.hull`demand, cabin.hull`variance, cabin.hull`totalRevenue
  {
    var n := |cabin.hull| - 1;
    && NestedHull(cabin, cabin.hull) && Rising(cabin.hull)
    && |cabin.nodes| == n + (if LastNodeOf(cabin, cabin.hull) == [] then 0 else 1)
    && (forall k: nat | k < n ::
          && cabin.nodes[k].classes == NodeOf(cabin, cabin.hull, k)
          && cabin.nodes[k].unitYield == Edges(cabin.hull)[k].adjustedYield)
    && (LastNodeOf(cabin, cabin.hull) != [] ==>
          cabin.nodes[n].classes == LastNodeOf(cabin, cabin.hull) && cabin.nodes[n].unitYield == 0.0)
  }

  lemma NodesBuiltIs(cabin: SegmentCabin)
    requires NestedHull(cabin, cabin.hull) && Rising(cabin.hull) && |cabin.hull| > 1
    requires |cabin.nodes| == |cabin.hull| - 1 + if LastNodeOf(cabin, cabin.hull) == [] then 0 else 1
    requires forall k: nat | k < |cabin.hull| - 1 ::
      NodeFilled(cabin, cabin.hull, cabin.nodes[k], Edges(cabin.hull)[k], k)
    requires LastNodeOf(cabin, cabin.hull) != [] ==>
      cabin.nodes[|cabin.hull| - 1].classes == LastNodeOf(cabin, cabin.hull)
      && cabin.nodes[|cabin.hull| - 1].unitYield == DEFAULT_YIELD_VALUE
    ensures NodesBuilt(cabin)
  {
    hide NestedHull, Rising, LastNodeOf, NodeOf, Edges, NodeAdjusted;
    forall k: nat | k < |cabin.hull| - 1
      ensures cabin.nodes[k].classes == NodeOf(cabin, cabin.hull, k)
      ensures cabin.nodes[k].unitYield == Edges(cabin.hull)[k].adjustedYield
    {
      assert NodeFilled(cabin, cabin.hull, cabin.nodes[k], Edges(cabin.hull)[k], k);
    }
  }

  /** Builds the nested hull and adjusts the classes of the cabin, whose means are zero, along it. */
  method PrepareDemandInput(cabin: SegmentCabin) returns (isSucceeded: bool, ghost chain: seq<nat>)
    requires ValidCabin(cabin) && StepsAreClean(cabin)
    requires Rearranges(cabin.classes, FamilyClasses(cabin.families))
    requires forall c | c in cabin.classes :: c.mean == 0.0
    modifies cabin`hull, cabin`nodes, cabin.classes`mean, cabin.classes`variance, cabin.classes`adjustedYield
    ensures HullAt(cabin, chain) && IsHull(Points(cabin.policies), CabinFilter(cabin), chain)
    ensures isSucceeded <==> |cabin.hull| > 1
    ensures isSucceeded ==> Adjusted(cabin, cabin.hull) && NodesBuilt(cabin)
    ensures Rising(cabin.hull) && YieldsFall(Edges(cabin.hull))
    ensures !isSucceeded ==> forall c | c in cabin.classes :: c.mean == 0.0
  {
    hide *;
    chain := BuildNestedConvexHull(cabin);
    HullMeetsAssertions(cabin, chain);
    HullYieldsFall(cabin, chain);
    isSucceeded := AdjustYieldAndDemand(cabin);
    if isSucceeded {
      EdgeCount(cabin.hull);
      AdjustedIs(cabin, cabin.hull);
      NodesBuiltIs(cabin);
    }
  }
}
