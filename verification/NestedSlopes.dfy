/**
 * When the slopes of a nested hull fall: along included open sets always, and for
 * all demands and revenues exactly when the nesting test is transitive.
 */
module NestedSlopes {
  import opened Sequences
  import opened Totals
  import opened ConvexHull
  import opened Nesting

  /** A pair of policies that passes the nesting test. */
  ghost function NestedFilter(ls: seq<Levels>): Filter {
    (i: nat, j: nat) => i < |ls| && j < |ls| && Nested(ls[i], ls[j])
  }

  /** The open sets of consecutive policies of the chain are included. */
  ghost predicate StepsIncluded(ls: seq<Levels>, h: seq<nat>) {
    && (forall k | 0 <= k < |h| :: h[k] < |ls|)
    && (forall k | 0 <= k < |h| - 1 :: Included(ls[h[k]], ls[h[k + 1]]))
  }

  lemma IncludedTransitive(p: Levels, q: Levels, r: Levels)
    requires Included(p, q) && Included(q, r)
    ensures Included(p, r)
  {
  }

  lemma {:induction false} StepsIncludedFar(ls: seq<Levels>, h: seq<nat>, i: nat, j: nat)
    requires StepsIncluded(ls, h) && i < j < |h|
    ensures Included(ls[h[i]], ls[h[j]])
    decreases j
  {
    hide Included;
    assert Included(ls[h[j - 1]], ls[h[j - 1 + 1]]);
    if i < j - 1 {
      StepsIncludedFar(ls, h, i, j - 1);
      IncludedTransitive(ls[h[i]], ls[h[j - 1]], ls[h[j]]);
    }
  }

  /** Along included open sets the nested search could have skipped any policy. */
  lemma IncludedSkips(ls: seq<Levels>, h: seq<nat>)
    requires StepsIncluded(ls, h)
    ensures SkipsAllowed(NestedFilter(ls), h)
  {
    hide Nested, Included, StepsIncluded;
    forall k | 0 <= k < |h| - 2
      ensures NestedFilter(ls)(h[k], h[k + 2])
    {
      StepsIncludedFar(ls, h, k, k + 2);
      StepsWithin(ls, h);
      IncludedIsNestedWithoutFallBack(ls[h[k]], ls[h[k + 2]]);
    }
  }

  lemma StepsWithin(ls: seq<Levels>, h: seq<nat>)
    requires StepsIncluded(ls, h)
    ensures forall k | 0 <= k < |h| :: h[k] < |ls|
  {
  }

  /** So its slopes never rise, whatever the rest of the policy list is. */
  lemma IncludedSlopesFall(pts: seq<Point>, ls: seq<Levels>, h: seq<nat>, i: nat, j: nat)
    requires IsChain(pts, NestedFilter(ls), h) && StepsIncluded(ls, h) && i <= j && j + 1 < |h|
    ensures EdgeSlope(pts, NestedFilter(ls), h, j) <= EdgeSlope(pts, NestedFilter(ls), h, i)
  {
    hide *;
    IncludedSkips(ls, h);
    SlopesFall(pts, NestedFilter(ls), h, i, j);
  }

  // ---- The exact condition over all points.

  ghost predicate NestedIsTransitive(ls: seq<Levels>) {
    forall i, j, k | 0 <= i < |ls| && 0 <= j < |ls| && 0 <= k < |ls| && Nested(ls[i], ls[j]) && Nested(ls[j], ls[k]) ::
      Nested(ls[i], ls[k])
  }

  /** A list on which every accepted pair has included open sets is one of them. */
  lemma AcceptedIncludedTransitive(ls: seq<Levels>)
    requires forall i, j | 0 <= i < |ls| && 0 <= j < |ls| && Nested(ls[i], ls[j]) :: NoFallBack(ls[i], ls[j])
    ensures NestedIsTransitive(ls)
  {
    hide Nested, NoFallBack;
    forall i, j, k | 0 <= i < |ls| && 0 <= j < |ls| && 0 <= k < |ls| && Nested(ls[i], ls[j]) && Nested(ls[j], ls[k])
      ensures Nested(ls[i], ls[k])
    {
      IncludedIsNestedWithoutFallBack(ls[i], ls[j]);
      IncludedIsNestedWithoutFallBack(ls[j], ls[k]);
      IncludedTransitive(ls[i], ls[j], ls[k]);
      IncludedIsNestedWithoutFallBack(ls[i], ls[k]);
    }
  }

  ghost predicate SlopesNeverRise(pts: seq<Point>, allowed: Filter, h: seq<nat>)
    requires IsChain(pts, allowed, h)
  {
    forall i: nat, j: nat | i <= j && j + 1 < |h| :: EdgeSlope(pts, allowed, h, j) <= EdgeSlope(pts, allowed, h, i)
  }

  /** Every assignment of demand and revenue to the policies gives a nested hull whose slopes never rise. */
  ghost predicate AlwaysFalls(ls: seq<Levels>) {
    forall pts: seq<Point>, h: seq<nat> | |pts| == |ls| && IsHull(pts, NestedFilter(ls), h) ::
      SlopesNeverRise(pts, NestedFilter(ls), h)
  }

  lemma TransitiveFalls(ls: seq<Levels>)
    requires NestedIsTransitive(ls)
    ensures AlwaysFalls(ls)
  {
    var allowed := NestedFilter(ls);
    forall pts: seq<Point>, h: seq<nat> | |pts| == |ls| && IsHull(pts, allowed, h)
      ensures SlopesNeverRise(pts, allowed, h)
    {
      assert IsTransitive(pts, allowed) by { hide Nested; }
      hide Slope, Nested, IsNext, IsTransitive, EdgeSlope, SkipsAllowed;
      TransitiveSkips(pts, allowed, h);
      forall i: nat, j: nat | i <= j && j + 1 < |h|
        ensures EdgeSlope(pts, allowed, h, j) <= EdgeSlope(pts, allowed, h, i)
      {
        SlopesFall(pts, allowed, h, i, j);
      }
    }
  }

  /** Three policies apart from the rest, which stay with the empty policy. */
  ghost function Raised(n: nat, a: nat, b: nat, c: nat): (pts: seq<Point>)
    ensures |pts| == n
    ensures forall i | 0 <= i < n && i != a && i != b && i != c :: pts[i] == Point(0.0, 0.0)
    ensures a < n ==> pts[a] == Point(4.0, 40.0)
    ensures b < n && b != a ==> pts[b] == Point(8.0, 48.0)
    ensures c < n && c != a && c != b ==> pts[c] == Point(12.0, 96.0)
  {
    seq(n, i requires 0 <= i < n =>
      if i == a then Point(4.0, 40.0) else if i == b then Point(8.0, 48.0)
      else if i == c then Point(12.0, 96.0) else Point(0.0, 0.0))
  }

  lemma RaisedSlopes()
    ensures var o, a, b, c := Point(0.0, 0.0), Point(4.0, 40.0), Point(8.0, 48.0), Point(12.0, 96.0);
      && Slope(o, a) == 10.0 && Slope(o, b) == 6.0 && Slope(o, c) == 8.0
      && Slope(a, b) == 2.0 && Slope(a, c) == 7.0 && Slope(b, c) == 12.0
  {
  }

  /** A triple on which the test is not transitive consists of three policies, none of them the first. */
  lemma TripleApart(ls: seq<Levels>, a: nat, b: nat, c: nat)
    requires ls != [] && ls[0] == [] && a < |ls| && b < |ls| && c < |ls|
    requires Nested(ls[a], ls[b]) && Nested(ls[b], ls[c]) && !Nested(ls[a], ls[c])
    ensures 0 != a && 0 != b && 0 != c && a != b && b != c && a != c
  {
    NestedMeans(ls[a], ls[a]);
    if ls[a] != [] { assert EqualBetween(ls[a], ls[a], 0, 0); }
    assert Nested(ls[a], ls[a]) by {
      if ls[a] != [] { assert NestedFrom(ls[a], ls[a], 0); }
    }
  }

  lemma RaisedSteps(ls: seq<Levels>, a: nat, b: nat, c: nat)
    requires ls != [] && ls[0] == [] && a < |ls| && b < |ls| && c < |ls|
    requires Nested(ls[a], ls[b]) && Nested(ls[b], ls[c]) && !Nested(ls[a], ls[c])
    ensures var pts, allowed := Raised(|ls|, a, b, c), NestedFilter(ls);
      && IsNext(pts, allowed, 0, a) && IsNext(pts, allowed, a, b) && IsNext(pts, allowed, b, c)
      && IsLast(pts, allowed, c)
  {
    TripleApart(ls, a, b, c);
    RaisedSlopes();
    assert Nested(ls[0], ls[a]) && Nested(ls[0], ls[b]) && Nested(ls[0], ls[c]);
    hide Slope, Nested;
  }

  lemma RaisedHull(ls: seq<Levels>, a: nat, b: nat, c: nat)
    requires ls != [] && ls[0] == [] && a < |ls| && b < |ls| && c < |ls|
    requires Nested(ls[a], ls[b]) && Nested(ls[b], ls[c]) && !Nested(ls[a], ls[c])
    ensures var pts, allowed, h := Raised(|ls|, a, b, c), NestedFilter(ls), [0, a, b, c];
      && IsHull(pts, allowed, h) && !SlopesNeverRise(pts, allowed, h)
      && EdgeSlope(pts, allowed, h, 1) < EdgeSlope(pts, allowed, h, 2)
  {
    RaisedSteps(ls, a, b, c);
    TripleApart(ls, a, b, c);
    RaisedSlopes();
    hide Slope, Nested, NestedFilter, IsNext, IsLast;
    var pts, allowed := Raised(|ls|, a, b, c), NestedFilter(ls);
    var h: seq<nat> := [0, a, b, c];
    assert h[0] == 0 && h[1] == a && h[2] == b && h[3] == c;
    assert IsHull(pts, allowed, h);
    assert EdgeSlope(pts, allowed, h, 1) == 2.0 && EdgeSlope(pts, allowed, h, 2) == 12.0;
  }

  /**
   * Over all demands and revenues the slopes of the nested hull never rise if
   * and only if the nesting test is transitive on the policy list.
   */
  lemma SlopesFallIffTransitive(ls: seq<Levels>)
    requires ls != [] && ls[0] == []
    ensures AlwaysFalls(ls) <==> NestedIsTransitive(ls)
  {
    hide Nested, IsHull, IsChain;
    if NestedIsTransitive(ls) {
      TransitiveFalls(ls);
    } else {
      var a, b, c :| 0 <= a < |ls| && 0 <= b < |ls| && 0 <= c < |ls|
        && Nested(ls[a], ls[b]) && Nested(ls[b], ls[c]) && !Nested(ls[a], ls[c]);
      RaisedHull(ls, a, b, c);
      RaisedBreaks(ls, a, b, c);
    }
  }

  lemma RaisedBreaks(ls: seq<Levels>, a: nat, b: nat, c: nat)
    requires IsHull(Raised(|ls|, a, b, c), NestedFilter(ls), [0, a, b, c])
    requires !SlopesNeverRise(Raised(|ls|, a, b, c), NestedFilter(ls), [0, a, b, c])
    ensures !AlwaysFalls(ls)
  {
    hide Nested, NestedFilter, Slope, SlopesNeverRise, IsChain;
    var pts, h: seq<nat> := Raised(|ls|, a, b, c), [0, a, b, c];
    assert |pts| == |ls| && IsHull(pts, NestedFilter(ls), h);
  }

  // ---- A nested hull that gets steeper, with demands that a forecast gives.

  // Three families of two, two and one classes, with the demand of each class. The
  // fourth policy is not nested under the second, which falls back under the third.
  const FALLING_BACK: seq<Levels> := [[], [0, 1], [0, 0, 0], [1, 0, 0]]
  const CLASS_GRID: seq<seq<nat>> := [[0, 1], [2, 3], [4]]
  const CLASS_DEMANDS := [1.0, 4.0, 1.0, 2.0, 6.0]

  function ClassDemand(): nat -> real {
    (c: nat) => if c < |CLASS_DEMANDS| then CLASS_DEMANDS[c] else 0.0
  }

  lemma FallingBackIsNoOrder()
    ensures Nested(FALLING_BACK[1], FALLING_BACK[2]) && Nested(FALLING_BACK[2], FALLING_BACK[3])
    ensures !Nested(FALLING_BACK[1], FALLING_BACK[3]) && !Included(FALLING_BACK[1], FALLING_BACK[2])
  {
    var p, q, r := FALLING_BACK[1], FALLING_BACK[2], FALLING_BACK[3];
    assert NestedFrom(p, q, 0);
    assert NestedFrom(q, r, 1);
    assert NestedFrom(q, r, 0);
    assert !NestedFrom(p, r, 1);
    assert !NestedFrom(p, r, 0);
  }

  /** Opening one more family adds the demand of its open classes, of which there are one or two here. */
  lemma OpenOneMore(p: Levels, n: nat)
    requires FitsGrid(CLASS_GRID, p) && n < |p| && |p| <= 3 && p[n] <= 1 && (n == 2 ==> p[n] == 0)
    ensures Total(Open(CLASS_GRID, p, n + 1), ClassDemand()) == Total(Open(CLASS_GRID, p, n), ClassDemand())
      + ClassDemand()(2 * n) + if p[n] == 0 then 0.0 else ClassDemand()(2 * n + 1)
    ensures Total(Open(CLASS_GRID, p, 0), ClassDemand()) == 0.0
  {
    hide ClassDemand;
    var g, f, before := CLASS_GRID, ClassDemand(), Open(CLASS_GRID, p, n);
    var added: seq<nat> := if p[n] == 0 then [2 * n] else [2 * n] + [2 * n + 1];
    assert g[n][..p[n] + 1] == added;
    assert Open(g, p, n + 1) == before + added;
    TotalAppend<nat>(before, added, f);
    TotalOne<nat>(2 * n, f);
    if p[n] != 0 {
      TotalAppend<nat>([2 * n], [2 * n + 1], f);
      TotalOne<nat>(2 * n + 1, f);
    }
  }

  lemma FallingBackFits(i: nat)
    requires i < 4
    ensures FitsGrid(CLASS_GRID, FALLING_BACK[i])
  {
  }

  lemma ClassDemandsAre()
    ensures var f := ClassDemand(); f(0) == 1.0 && f(1) == 4.0 && f(2) == 1.0 && f(3) == 2.0 && f(4) == 6.0
  {
  }

  /** The demand of the first two or three families of a policy. */
  lemma DemandOf(p: Levels)
    requires FitsGrid(CLASS_GRID, p) && 2 <= |p| <= 3 && p[0] <= 1 && p[1] <= 1 && (|p| == 3 ==> p[2] == 0)
    ensures Total(OpenSet(CLASS_GRID, p), ClassDemand())
      == 2.0 + (if p[0] == 1 then 4.0 else 0.0) + (if p[1] == 1 then 2.0 else 0.0) + (if |p| == 3 then 6.0 else 0.0)
  {
    ClassDemandsAre();
    hide Open, Total, ClassDemand;
    OpenOneMore(p, 0);
    OpenOneMore(p, 1);
    if |p| == 3 {
      OpenOneMore(p, 2);
    }
  }

  /** The demand of every policy on the list is that of the classes that it opens. */
  lemma FallingBackDemand(i: nat)
    requires i < 4
    ensures FitsGrid(CLASS_GRID, FALLING_BACK[i])
    ensures Total(OpenSet(CLASS_GRID, FALLING_BACK[i]), ClassDemand()) == 4.0 * i as real
  {
    FallingBackFits(i);
    hide OpenSet, Total, ClassDemand, FitsGrid;
    if i == 0 {
      NothingTotal(FALLING_BACK[0]);
    } else {
      DemandOf(FALLING_BACK[i]);
    }
  }

  lemma NothingTotal(p: Levels)
    requires FitsGrid(CLASS_GRID, p) && p == []
    ensures Total(OpenSet(CLASS_GRID, p), ClassDemand()) == 0.0
  {
  }

  /**
   * Without a transitive test a nested hull can get steeper: its slopes here are
   * 10, 2 and 12, and the demand of every policy is that of its open classes. The
   * second step falls back: it closes a class, so the class assertion fails on it.
   */
  lemma NestedSlopesCanRise()
    ensures var pts, allowed, h := Raised(4, 1, 2, 3), NestedFilter(FALLING_BACK), [0, 1, 2, 3];
      IsHull(pts, allowed, h) && EdgeSlope(pts, allowed, h, 1) < EdgeSlope(pts, allowed, h, 2)
    ensures Nested(FALLING_BACK[1], FALLING_BACK[2]) && !Included(FALLING_BACK[1], FALLING_BACK[2])
    ensures forall i: nat | i < 4 :: FitsGrid(CLASS_GRID, FALLING_BACK[i])
    ensures forall i: nat | i < 4 ::
      Raised(4, 1, 2, 3)[i].demand == Total(OpenSet(CLASS_GRID, FALLING_BACK[i]), ClassDemand())
  {
    FallingBackIsNoOrder();
    RaisedHull(FALLING_BACK, 1, 2, 3);
    hide Slope, Nested, NestedFilter, IsNext, IsLast, OpenSet, Total;
    forall i: nat | i < 4
      ensures FitsGrid(CLASS_GRID, FALLING_BACK[i])
      ensures Raised(4, 1, 2, 3)[i].demand == Total(OpenSet(CLASS_GRID, FALLING_BACK[i]), ClassDemand())
    {
      FallingBackDemand(i);
    }
  }
}
