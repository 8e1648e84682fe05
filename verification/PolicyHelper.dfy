/** The comparison of policies, class by class, as the nesting structure needs it. */
module PolicyHelper {
  import opened Inventory
  import opened Nesting

  /** The classes of the families, from the highest to the lowest in each. */
  function Grid(families: seq<FareFamily>): (g: seq<seq<BookingClass>>)
    ensures |g| == |families| && forall i | 0 <= i < |g| :: g[i] == families[i].classes
  {
    seq(|families|, i requires 0 <= i < |families| => families[i].classes)
  }

  /** No class code occurs twice in the cabin. */
  ghost predicate DistinctCodes(grid: seq<seq<BookingClass>>) {
    forall i, k, j, l |
      0 <= i < |grid| && 0 <= k < |grid[i]| && 0 <= j < |grid| && 0 <= l < |grid[j]|
        && grid[i][k].code == grid[j][l].code :: i == j && k == l
  }

  /** A policy names one class of each family in a prefix of the families. */
  ghost predicate Shaped(grid: seq<seq<BookingClass>>, classes: seq<BookingClass>) {
    |classes| <= |grid| && forall i | 0 <= i < |classes| :: classes[i] in grid[i]
  }

  /** The position of a class in its family. */
  function Rank(family: seq<BookingClass>, c: BookingClass): (r: nat)
    requires c in family
    ensures r < |family| && family[r] == c
  {
    if family[0] == c then 0 else 1 + Rank(family[1..], c)
  }

  /** The positions of a policy's classes in their families. */
  ghost function LevelsOf(grid: seq<seq<BookingClass>>, classes: seq<BookingClass>): (p: Levels)
    requires Shaped(grid, classes)
    ensures |p| == |classes| && FitsGrid(grid, p)
    ensures forall i | 0 <= i < |p| :: grid[i][p[i]] == classes[i]
  {
    seq(|classes|, i requires 0 <= i < |classes| => Rank(grid[i], classes[i]))
  }

  /** The family that holds a class. */
  function ParentFamily(families: seq<FareFamily>, c: BookingClass): (f: FareFamily)
    requires exists i :: 0 <= i < |families| && c in families[i].classes
    ensures f in families && c in f.classes
  {
    if c in families[0].classes then families[0] else ParentFamily(families[1..], c)
  }

  /** In a cabin of distinct codes the parent of a policy's `i`-th class is the `i`-th family. */
  lemma ParentOfPolicyClass(families: seq<FareFamily>, classes: seq<BookingClass>, i: nat)
    requires DistinctCodes(Grid(families)) && Shaped(Grid(families), classes) && i < |classes|
    ensures ParentFamily(families, classes[i]) == families[i]
  {
    var grid := Grid(families);
    var c := classes[i];
    var k :| 0 <= k < |grid[i]| && grid[i][k] == c;
    var f := ParentFamily(families, c);
    var j :| 0 <= j < |families| && families[j] == f;
    var l :| 0 <= l < |grid[j]| && grid[j][l] == c;
    assert grid[i][k].code == grid[j][l].code;
  }

  // ---- Class codes within one family.

  ghost predicate DistinctWithin(family: seq<BookingClass>) {
    forall k, l | 0 <= k < |family| && 0 <= l < |family| && family[k].code == family[l].code :: k == l
  }

  ghost predicate HasCode(classes: seq<BookingClass>, code: string) {
    exists c :: c in classes && c.code == code
  }

  /** The first position in the family of a class that the policy names; -1 without one. */
  ghost predicate IsMeeting(family: seq<BookingClass>, policy: seq<BookingClass>, m: int) {
    && -1 <= m < |family|
    && (m >= 0 ==> HasCode(policy, family[m].code))
    && (forall k | 0 <= k < |family| && (m < 0 || k < m) :: !HasCode(policy, family[k].code))
  }

  /** Looks for the class of a policy in the class list of a family. */
  method IntersectionBetweenPolicyAndBookingClassList(family: seq<BookingClass>, policy: Policy)
    returns (found: bool, code: string, ghost m: int)
    ensures IsMeeting(family, policy.classes, m)
    ensures found == (m >= 0) && (found ==> code == family[m].code)
  {
    found, code, m := false, "", -1;
    for i := 0 to |family|
      invariant !found && m == -1
      invariant forall k | 0 <= k < i :: !HasCode(policy.classes, family[k].code)
    {
      for j := 0 to |policy.classes|
        invariant !found && m == -1
        invariant forall l | 0 <= l < j :: policy.classes[l].code != family[i].code
      {
        if policy.classes[j].code == family[i].code {
          found, code, m := true, policy.classes[j].code, i;
          return;
        }
      }
    }
  }

  /** Adds the classes from position `start` up to, and without, the one with the stopping code. */
  method AddUpTo(node: NestingNode, classes: seq<BookingClass>, start: nat, hasStop: bool, stopCode: string,
                 ghost m: int)
    requires DistinctWithin(classes) && -1 <= m <= start < |classes|
    requires hasStop == (m >= 0) && (hasStop ==> stopCode == classes[m].code)
    modifies node`classes
    ensures node.classes == old(node.classes) + Climb(classes, start, m)
  {
    hide Climb;
    var i: int := start;
    ghost var before, added := node.classes, [];
    assert added + Climb(classes, i, m) == Climb(classes, start, m);
    while i >= 0 && !(hasStop && classes[i].code == stopCode)
      invariant m <= i <= start
      invariant node.classes == before + added
      invariant added + Climb(classes, i, m) == Climb(classes, start, m)
    {
      ClimbStep(added, classes, i, m);
      node.classes := node.classes + [classes[i]];
      added := added + [classes[i]];
      i := i - 1;
    }
    ClimbDone(added, classes, m);
  }

  lemma ClimbStep<T>(added: seq<T>, s: seq<T>, start: int, stop: int)
    requires -1 <= stop < start < |s|
    ensures added + Climb(s, start, stop) == added + [s[start]] + Climb(s, start - 1, stop)
  {
  }

  lemma ClimbDone<T>(added: seq<T>, s: seq<T>, stop: int)
    requires -1 <= stop < |s|
    ensures added + Climb(s, stop, stop) == added
  {
  }

  /** How the comparison of one class with a policy ends. */
  datatype DiffStatus = Added | EmptyBookingClassList | MissingBookingClass

  /**
   * Adds to the node the classes of the family from the named one up to, and
   * without, the class of the second policy, or all of them without one.
   */
  method DiffBetweenBookingClassAndPolicy(node: NestingNode, family: FareFamily, code: string, second: Policy,
                                          ghost t: int, ghost m: int)
    returns (r: DiffStatus)
    requires DistinctWithin(family.classes)
    requires t == -1 || (0 <= t < |family.classes| && family.classes[t].code == code)
    requires t == -1 ==> !HasCode(family.classes, code)
    requires IsMeeting(family.classes, second.classes, m)
    requires t >= 0 ==> m <= t
    modifies node`classes
    ensures r == EmptyBookingClassList <==> family.classes == []
    ensures r == MissingBookingClass <==> family.classes != [] && t == -1
    ensures r == Added <==> t >= 0
    ensures node.classes == old(node.classes) + if t >= 0 then Climb(family.classes, t, m) else []
  {
    hide Climb;
    var classes := family.classes;
    if classes == [] {
      return EmptyBookingClassList;
    }
    var i := |classes| - 1;
    while i >= 0 && classes[i].code != code
      invariant -1 <= i < |classes|
      invariant t <= i
    {
      i := i - 1;
    }
    if i < 0 {
      return MissingBookingClass;
    }
    var found, secondCode;
    ghost var meeting;
    found, secondCode, meeting := IntersectionBetweenPolicyAndBookingClassList(classes, second);
    MeetingUnique(classes, second.classes, m, meeting);
    AddUpTo(node, classes, i, found, secondCode, m);
    return Added;
  }

  lemma MeetingUnique(family: seq<BookingClass>, policy: seq<BookingClass>, m: int, n: int)
    requires IsMeeting(family, policy, m) && IsMeeting(family, policy, n)
    ensures m == n
  {
  }

  // ---- Whole policies.

  lemma FamilyIsDistinct(grid: seq<seq<BookingClass>>, i: nat)
    requires DistinctCodes(grid) && i < |grid|
    ensures DistinctWithin(grid[i])
  {
  }

  /** The class of a policy in family `i` is at the policy's level there. */
  lemma MeetingIsLevel(grid: seq<seq<BookingClass>>, classes: seq<BookingClass>, i: nat)
    requires DistinctCodes(grid) && Shaped(grid, classes) && i < |grid|
    ensures IsMeeting(grid[i], classes, LevelIn(LevelsOf(grid, classes), i))
  {
    var p := LevelsOf(grid, classes);
    forall k | 0 <= k < |grid[i]| && HasCode(classes, grid[i][k].code)
      ensures i < |p| && k == p[i]
    {
      var c :| c in classes && c.code == grid[i][k].code;
      var j :| 0 <= j < |classes| && classes[j] == c;
      assert grid[j][p[j]].code == grid[i][k].code;
    }
    if i < |p| {
      assert classes[i] in classes && grid[i][p[i]] == classes[i];
    }
  }

  lemma LevelAt(grid: seq<seq<BookingClass>>, classes: seq<BookingClass>, i: nat)
    requires Shaped(grid, classes) && i < |classes|
    ensures var p := LevelsOf(grid, classes); p[i] < |grid[i]| && grid[i][p[i]] == classes[i]
  {
  }

  lemma ShapedLength(families: seq<FareFamily>, classes: seq<BookingClass>)
    requires Shaped(Grid(families), classes)
    ensures |classes| <= |families|
  {
  }

  ghost function PolicyDiff(grid: seq<seq<BookingClass>>, first: Policy, second: Policy): seq<BookingClass>
    requires Shaped(grid, first.classes) && Shaped(grid, second.classes)
    requires NoDeeper(LevelsOf(grid, second.classes), LevelsOf(grid, first.classes))
  {
    Diff(grid, LevelsOf(grid, first.classes), LevelsOf(grid, second.classes), |first.classes|)
  }

  lemma DiffOneMore(added: seq<BookingClass>, grid: seq<seq<BookingClass>>, p: Levels, q: Levels, i: nat)
    requires FitsGrid(grid, p) && NoDeeper(q, p) && i < |p|
    ensures LevelIn(q, i) <= p[i]
    ensures added + Diff(grid, p, q, i + 1) == added + Diff(grid, p, q, i) + Climb(grid[i], p[i], LevelIn(q, i))
  {
    hide Climb;
  }

  lemma DiffNone(added: seq<BookingClass>, grid: seq<seq<BookingClass>>, p: Levels, q: Levels)
    requires FitsGrid(grid, p) && NoDeeper(q, p)
    ensures added + Diff(grid, p, q, 0) == added
  {
  }

  /** Adds to the node the classes that the first policy opens beyond the second. */
  method DiffBetweenTwoPolicies(node: NestingNode, first: Policy, second: Policy, families: seq<FareFamily>)
    requires DistinctCodes(Grid(families))
    requires Shaped(Grid(families), first.classes) && Shaped(Grid(families), second.classes)
    requires NoDeeper(LevelsOf(Grid(families), second.classes), LevelsOf(Grid(families), first.classes))
    modifies node`classes
    ensures node.classes == old(node.classes) + PolicyDiff(Grid(families), first, second)
  {
    hide *;
    ghost var grid, before := Grid(families), node.classes;
    ghost var p, q := LevelsOf(grid, first.classes), LevelsOf(grid, second.classes);
    DiffNone(before, grid, p, q);
    for i := 0 to |first.classes|
      invariant node.classes == before + Diff(grid, p, q, i)
    {
      ParentExists(families, first.classes, i);
      ParentOfPolicyClass(families, first.classes, i);
      FamilyIsDistinct(grid, i);
      LevelAt(grid, first.classes, i);
      MeetingIsLevel(grid, second.classes, i);
      DiffOneMore(before, grid, p, q, i);
      var family := ParentFamily(families, first.classes[i]);
      var status := DiffBetweenBookingClassAndPolicy(node, family, first.classes[i].code, second,
                                                     p[i], LevelIn(q, i));
    }
    PolicyDiffIs(grid, first, second);
  }

  lemma PolicyDiffIs(grid: seq<seq<BookingClass>>, first: Policy, second: Policy)
    requires Shaped(grid, first.classes) && Shaped(grid, second.classes)
    requires NoDeeper(LevelsOf(grid, second.classes), LevelsOf(grid, first.classes))
    ensures PolicyDiff(grid, first, second)
      == Diff(grid, LevelsOf(grid, first.classes), LevelsOf(grid, second.classes), |first.classes|)
  {
  }

  lemma ParentExists(families: seq<FareFamily>, classes: seq<BookingClass>, i: nat)
    requires Shaped(Grid(families), classes) && i < |classes|
    ensures exists j :: 0 <= j < |families| && classes[i] in families[j].classes
    ensures |classes| <= |families|
  {
    assert classes[i] in families[i].classes;
  }

  lemma {:induction false} ClassHasFamily(grid: seq<seq<BookingClass>>, n: nat, c: BookingClass) returns (i: nat)
    requires n <= |grid| && c in AllClasses(grid, n)
    ensures i < n && c in grid[i]
  {
    if c in grid[n - 1] {
      i := n - 1;
    } else {
      i := ClassHasFamily(grid, n - 1, c);
    }
  }

  /** With distinct codes no class is listed twice in the cabin. */
  lemma {:induction false} ClassesOnce(grid: seq<seq<BookingClass>>, n: nat, c: BookingClass)
    requires DistinctCodes(grid) && n <= |grid|
    ensures Once(AllClasses(grid, n), c)
  {
    hide *;
    if n == 0 {
      NoClasses(grid, c);
    } else {
      AllStep(grid, n - 1);
      ClassesOnce(grid, n - 1, c);
      FamilyOnce(grid, n - 1, c);
      NotInBoth(grid, n - 1, c);
      OnceJoined(AllClasses(grid, n - 1), grid[n - 1], c);
    }
  }

  lemma NoClasses(grid: seq<seq<BookingClass>>, c: BookingClass)
    ensures Once(AllClasses(grid, 0), c)
  {
  }

  lemma NotInBoth(grid: seq<seq<BookingClass>>, n: nat, c: BookingClass)
    requires DistinctCodes(grid) && n < |grid|
    ensures !(c in AllClasses(grid, n) && c in grid[n])
  {
    hide DistinctCodes;
    if c in AllClasses(grid, n) && c in grid[n] {
      var i := ClassHasFamily(grid, n, c);
      SameClassSameFamily(grid, i, n, c);
    }
  }

  lemma FamilyOnce(grid: seq<seq<BookingClass>>, i: nat, c: BookingClass)
    requires DistinctCodes(grid) && i < |grid|
    ensures Once(grid[i], c)
  {
    FamilyIsDistinct(grid, i);
    OnceInMultiset(grid[i], c);
  }

  lemma SameClassSameFamily(grid: seq<seq<BookingClass>>, i: nat, j: nat, c: BookingClass)
    requires DistinctCodes(grid) && i < |grid| && j < |grid| && c in grid[i] && c in grid[j]
    ensures i == j
  {
    var k :| 0 <= k < |grid[i]| && grid[i][k] == c;
    var l :| 0 <= l < |grid[j]| && grid[j][l] == c;
    assert grid[i][k].code == grid[j][l].code;
  }

  lemma NotShared(grid: seq<seq<BookingClass>>, j: nat, i: nat, c: BookingClass)
    requires DistinctCodes(grid) && j < |grid| && i < |grid| && j != i && c in grid[j]
    ensures c !in grid[i]
  {
    hide DistinctCodes;
    if c in grid[i] {
      SameClassSameFamily(grid, j, i, c);
    }
  }

  // ---- The last node.

  const DEFAULT_YIELD_VALUE := 0.0

  lemma RestOneMore(added: seq<BookingClass>, grid: seq<seq<BookingClass>>, p: Levels, n: nat)
    requires FitsGrid(grid, p) && n < |grid|
    ensures -1 <= LevelIn(p, n) <= |grid[n]| - 1
    ensures added + Rest(grid, p, n + 1)
      == added + Climb(grid[n], |grid[n]| - 1, LevelIn(p, n)) + Rest(grid, p, n)
  {
    hide Climb;
  }

  /**
   * Fills the last node: from the last family back, the classes that the policy
   * does not open, each family from low to high.
   */
  method ComputeLastNode(node: NestingNode, policy: Policy, families: seq<FareFamily>)
    requires DistinctCodes(Grid(families)) && Shaped(Grid(families), policy.classes)
    modifies node
    ensures node.unitYield == DEFAULT_YIELD_VALUE
    ensures node.classes
      == old(node.classes) + Rest(Grid(families), LevelsOf(Grid(families), policy.classes), |families|)
  {
    hide *;
    node.unitYield := DEFAULT_YIELD_VALUE;
    ghost var grid := Grid(families);
    ghost var p, before, added := LevelsOf(grid, policy.classes), node.classes, [];
    var i := |families|;
    assert added + Rest(grid, p, i) == Rest(grid, p, |families|);
    ShapedLength(families, policy.classes);
    // The families that the policy closes.
    while i > |policy.classes|
      invariant |policy.classes| <= i <= |families| == |grid|
      invariant node.unitYield == DEFAULT_YIELD_VALUE && node.classes == before + added
      invariant added + Rest(grid, p, i) == Rest(grid, p, |families|)
    {
      i := i - 1;
      RestOneMore(added, grid, p, i);
      ClosedLevel(p, i);
      var classes := families[i].classes;
      if classes != [] {
        FamilyIsDistinct(grid, i);
        AddUpTo(node, classes, |classes| - 1, false, "", -1);
      }
      added := added + Climb(grid[i], |grid[i]| - 1, LevelIn(p, i));
    }
    // The families that the policy opens down to one of their classes.
    while i > 0
      invariant 0 <= i <= |policy.classes|
      invariant node.unitYield == DEFAULT_YIELD_VALUE && node.classes == before + added
      invariant added + Rest(grid, p, i) == Rest(grid, p, |families|)
    {
      i := i - 1;
      RestOneMore(added, grid, p, i);
      ParentExists(families, policy.classes, i);
      ParentOfPolicyClass(families, policy.classes, i);
      FamilyIsDistinct(grid, i);
      OpenLevel(p, i);
      var classes := ParentFamily(families, policy.classes[i]).classes;
      AddUpTo(node, classes, |classes| - 1, true, policy.classes[i].code, p[i]);
      added := added + Climb(grid[i], |grid[i]| - 1, LevelIn(p, i));
    }
    RestNone(added, grid, p);
  }

  lemma ClosedLevel(p: Levels, i: nat)
    requires |p| <= i
    ensures LevelIn(p, i) == -1
    ensures Climb<BookingClass>([], -1, -1) == []
  {
  }

  lemma OpenLevel(p: Levels, i: nat)
    requires i < |p|
    ensures LevelIn(p, i) == p[i]
  {
  }

  lemma RestNone(added: seq<BookingClass>, grid: seq<seq<BookingClass>>, p: Levels)
    requires FitsGrid(grid, p)
    ensures added + Rest(grid, p, 0) == added
  {
  }

  // ---- The nesting test.

  lemma LevelOrder(family: seq<BookingClass>, k: nat, l: nat)
    requires DistinctWithin(family) && k < |family| && l < |family|
    ensures family[k].code == family[l].code <==> k == l
  {
  }

  /** Tests the nesting of the first policy under the second, as the hull search does. */
  method IsNested(first: Policy, second: Policy, families: seq<FareFamily>) returns (isNested: bool)
    requires DistinctCodes(Grid(families))
    requires Shaped(Grid(families), first.classes) && Shaped(Grid(families), second.classes)
    ensures isNested
      == Nested(LevelsOf(Grid(families), first.classes), LevelsOf(Grid(families), second.classes))
  {
    ghost var grid := Grid(families);
    ghost var p, q := LevelsOf(grid, first.classes), LevelsOf(grid, second.classes);
    hide DistinctCodes, Shaped, LevelsOf, Grid;
    if first.classes == [] {
      return true;
    }
    if second.classes == [] || |first.classes| > |second.classes| {
      return false;
    }
    var i := 0;
    while i < |first.classes| && first.classes[i].code != second.classes[i].code
      invariant 0 <= i <= |p| <= |q|
      invariant Nested(p, q) == NestedFrom(p, q, i)
    {
      ParentExists(families, first.classes, i);
      ParentOfPolicyClass(families, first.classes, i);
      FamilyIsDistinct(grid, i);
      LevelOrder(grid[i], p[i], q[i]);
      var classes, k := ParentFamily(families, first.classes[i]).classes, 0;
      while k < |classes| && classes[k].code != first.classes[i].code
        invariant 0 <= k <= p[i]
        invariant q[i] >= k
      {
        if classes[k].code == second.classes[i].code {
          assert k == q[i] < p[i];
          return false;
        }
        k := k + 1;
      }
      i := i + 1;
    }
    if i < |first.classes| {
      FamilyIsDistinct(grid, i);
      LevelOrder(grid[i], p[i], q[i]);
    }
    return true;
  }
}
