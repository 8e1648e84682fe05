/**
 * A cabin of three families that meets everything a run asks for, although two of
 * its policies, which are not in a row on the hull, fall back.
 */
module ThreeFamilies {
  import opened Inventory
  import opened ConvexHull
  import opened Nesting
  import opened NestedSlopes
  import opened PolicyHelper
  import opened MarginalRevenueTransformation
  import opened HullConservation
  import opened Pipeline

  const POLICY_LEVELS: seq<Levels> := [[], [0], [0, 0], [0, 1], [0, 0, 0], [0, 1, 0]]
  const POLICY_POINTS := [Point(0.0, 0.0), Point(10.0, 1000.0), Point(20.0, 1800.0), Point(25.0, 2000.0),
                          Point(30.0, 2100.0), Point(35.0, 2300.0)]
  const HULL: seq<nat> := [0, 1, 2, 3, 5]

  /** On this list the test lets every later policy follow, since the first family has one class. */
  lemma WhoMayFollow(i: nat, j: nat)
    requires i < j < 6
    ensures NestedFilter(POLICY_LEVELS)(i, j)
  {
    var p, q := POLICY_LEVELS[i], POLICY_LEVELS[j];
    if p != [] {
      assert p[0] == q[0] == 0;
      assert NestedFrom(p, q, 0);
    }
  }

  lemma FallsBackOffTheHull()
    ensures Reaches(POLICY_POINTS, NestedFilter(POLICY_LEVELS), 3, 4)
    ensures !NoFallBack(POLICY_LEVELS[3], POLICY_LEVELS[4])
  {
    WhoMayFollow(3, 4);
    var p, q := POLICY_LEVELS[3], POLICY_LEVELS[4];
    assert p[0] == q[0] && !(p[1] <= q[1]);
  }

  lemma PointSlopes()
    ensures var p := POLICY_POINTS;
      && Slope(p[0], p[1]) == 100.0 && Slope(p[0], p[2]) == 90.0 && Slope(p[0], p[3]) == 80.0
      && Slope(p[0], p[4]) == 70.0 && Slope(p[0], p[5]) < 70.0
      && Slope(p[1], p[2]) == 80.0 && Slope(p[1], p[3]) < 70.0 && Slope(p[1], p[4]) == 55.0 && Slope(p[1], p[5]) == 52.0
      && Slope(p[2], p[3]) == 40.0 && Slope(p[2], p[4]) == 30.0 && Slope(p[2], p[5]) < 34.0
      && Slope(p[3], p[4]) == 20.0 && Slope(p[3], p[5]) == 30.0
  {
  }

  lemma StepFrom0()
    ensures IsNext(POLICY_POINTS, NestedFilter(POLICY_LEVELS), 0, 1)
  {
    PointSlopes();
    WhoMayFollow(0, 1);
    hide Slope, NestedFilter;
  }

  lemma StepFrom1()
    ensures IsNext(POLICY_POINTS, NestedFilter(POLICY_LEVELS), 1, 2)
  {
    PointSlopes();
    WhoMayFollow(1, 2);
    hide Slope, NestedFilter;
  }

  lemma StepFrom2()
    ensures IsNext(POLICY_POINTS, NestedFilter(POLICY_LEVELS), 2, 3)
  {
    PointSlopes();
    WhoMayFollow(2, 3);
    hide Slope, NestedFilter;
  }

  lemma StepFrom3()
    ensures IsNext(POLICY_POINTS, NestedFilter(POLICY_LEVELS), 3, 5)
  {
    PointSlopes();
    WhoMayFollow(3, 5);
    hide Slope, NestedFilter;
  }

  lemma NothingAfterLast()
    ensures IsLast(POLICY_POINTS, NestedFilter(POLICY_LEVELS), 5)
  {
    hide NestedFilter;
  }

  lemma HullOfThree()
    ensures IsHull(POLICY_POINTS, NestedFilter(POLICY_LEVELS), HULL)
  {
    StepFrom0();
    StepFrom1();
    StepFrom2();
    StepFrom3();
    NothingAfterLast();
    hide IsNext, IsLast, IsHull, IsChain, NestedFilter;
    var h := HULL;
    assert |POLICY_POINTS| == 6;
    assert |h| == 5 && h[0] == 0 && h[1] == 1 && h[2] == 2 && h[3] == 3 && h[4] == 5;
    FiveInARow(POLICY_POINTS, NestedFilter(POLICY_LEVELS), h);
  }

  lemma FiveInARow(pts: seq<Point>, allowed: Filter, h: seq<nat>)
    requires |h| == 5 && h[0] == 0 && forall i | 0 <= i < 5 :: h[i] < |pts|
    requires IsNext(pts, allowed, h[0], h[1]) && IsNext(pts, allowed, h[1], h[2])
    requires IsNext(pts, allowed, h[2], h[3]) && IsNext(pts, allowed, h[3], h[4])
    requires IsLast(pts, allowed, h[4])
    ensures IsHull(pts, allowed, h)
  {
    hide IsNext, IsLast;
  }

  lemma StepsOfHull(i: nat)
    requires i < 4
    ensures var p, q := POLICY_LEVELS[HULL[i]], POLICY_LEVELS[HULL[i + 1]]; p != q && NoFallBack(p, q)
  {
  }

  /** Positions that give a policy's classes are its levels. */
  lemma LevelsUnique(grid: seq<seq<BookingClass>>, classes: seq<BookingClass>, p: Levels)
    requires DistinctCodes(grid) && |p| == |classes| && FitsGrid(grid, p)
    requires forall i | 0 <= i < |p| :: grid[i][p[i]] == classes[i]
    ensures Shaped(grid, classes) && LevelsOf(grid, classes) == p
  {
    forall i | 0 <= i < |p|
      ensures classes[i] in grid[i]
    {
      assert grid[i][p[i]] in grid[i];
    }
    forall i | 0 <= i < |p|
      ensures LevelsOf(grid, classes)[i] == p[i]
    {
      LevelAt(grid, classes, i);
      FamilyIsDistinct(grid, i);
    }
  }

  /** Families of one, two and one classes, and a policy for every level list above. */
  ghost predicate IsThreeFamilies(cabin: SegmentCabin) {
    var grid := Grid(cabin.families);
    && |grid| == 3 && |grid[0]| == 1 && |grid[1]| == 2 && |grid[2]| == 1 && DistinctCodes(grid)
    && |cabin.policies| == |POLICY_LEVELS|
    && forall k | 0 <= k < |POLICY_LEVELS| ::
         && |cabin.policies[k].classes| == |POLICY_LEVELS[k]|
         && forall i | 0 <= i < |POLICY_LEVELS[k]| ::
              i < 3 && POLICY_LEVELS[k][i] < |grid[i]| && cabin.policies[k].classes[i] == grid[i][POLICY_LEVELS[k][i]]
  }

  lemma PolicyLevels(cabin: SegmentCabin, k: nat)
    requires IsThreeFamilies(cabin) && k < 6
    ensures k < |cabin.policies| && Shaped(Grid(cabin.families), cabin.policies[k].classes)
    ensures LevelsOf(Grid(cabin.families), cabin.policies[k].classes) == POLICY_LEVELS[k]
  {
    hide DistinctCodes, LevelsOf, Shaped;
    LevelsUnique(Grid(cabin.families), cabin.policies[k].classes, POLICY_LEVELS[k]);
  }

  lemma ThreeFamiliesValid(cabin: SegmentCabin)
    requires IsThreeFamilies(cabin)
    ensures ValidCabin(cabin)
    ensures CabinFilter(cabin) == NestedFilter(POLICY_LEVELS)
  {
    hide LevelsOf, Shaped, NestedFilter;
    var grid := Grid(cabin.families);
    forall k: nat | k < 6
      ensures k < |cabin.policies| && Shaped(grid, cabin.policies[k].classes)
      ensures LevelsOf(grid, cabin.policies[k].classes) == POLICY_LEVELS[k]
    {
      PolicyLevels(cabin, k);
    }
    assert |POLICY_LEVELS| == 6 && |POLICY_LEVELS[0]| == 0;
    assert LevelList(grid, cabin.policies) == POLICY_LEVELS;
  }

  /** The cabin meets the conditions of a run when its demands and revenues are the points above. */
  lemma ThreeFamiliesAreClean(cabin: SegmentCabin)
    requires IsThreeFamilies(cabin) && Points(cabin.policies) == POLICY_POINTS
    requires forall i, j | 0 <= i < j < |cabin.policies| :: cabin.policies[i].variance < cabin.policies[j].variance
    ensures ValidCabin(cabin) && StepsAreClean(cabin)
  {
    ThreeFamiliesValid(cabin);
    HullOfThree();
    hide IsHull, CabinFilter, ValidCabin, NestedFilter;
    forall h: seq<nat> | IsHull(Points(cabin.policies), CabinFilter(cabin), h)
      ensures CleanAlong(cabin, h, VariancesOf(cabin.policies))
    {
      HullUnique(POLICY_POINTS, NestedFilter(POLICY_LEVELS), h, HULL);
      CleanAlongHull(cabin);
    }
  }

  lemma CleanAlongHull(cabin: SegmentCabin)
    requires IsThreeFamilies(cabin)
    requires forall i, j | 0 <= i < j < |cabin.policies| :: cabin.policies[i].variance < cabin.policies[j].variance
    ensures CleanAlong(cabin, HULL, VariancesOf(cabin.policies))
  {
    hide LevelsOf, Shaped, NoFallBack, DistinctCodes;
    assert |cabin.policies| == 6 && HULL[0] == 0 && HULL[1] == 1 && HULL[2] == 2 && HULL[3] == 3 && HULL[4] == 5;
    forall i: nat | i < 4
      ensures StepIsClean(cabin, cabin.policies[HULL[i]], cabin.policies[HULL[i + 1]])
    {
      PolicyLevels(cabin, HULL[i]);
      PolicyLevels(cabin, HULL[i + 1]);
      StepsOfHull(i);
    }
  }
}
