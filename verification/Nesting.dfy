/**
 * Nesting of policies over a grid of fare families. A grid lists, for every
 * family, its classes from the highest to the lowest; a policy is the position
 * of the lowest open class in each family of a prefix of the families.
 */
module Nesting {
  import opened Sequences

  type Levels = seq<nat>

  ghost predicate FitsGrid<T>(grid: seq<seq<T>>, p: Levels) {
    |p| <= |grid| && forall i | 0 <= i < |p| :: p[i] < |grid[i]|
  }

  /** The classes from position `from` up to, and without, position `stop`. */
  function Climb<T>(s: seq<T>, start: int, stop: int): (r: seq<T>)
    requires -1 <= stop <= start < |s|
    ensures |r| == start - stop
    decreases start - stop
  {
    if start == stop then [] else [s[start]] + Climb(s, start - 1, stop)
  }

  /** The lowest open position of a family; -1 when the policy closes it. */
  function LevelIn(p: Levels, i: nat): int {
    if i < |p| then p[i] else -1
  }

  /** Wherever both policies open a family, the second one opens at least as much. */
  ghost predicate NoDeeper(q: Levels, p: Levels) {
    forall i | 0 <= i < |q| && i < |p| :: q[i] <= p[i]
  }

  /** The open set of `q` is part of the open set of `p`. */
  ghost predicate Included(q: Levels, p: Levels) {
    |q| <= |p| && NoDeeper(q, p)
  }

  /** The open classes of the first `n` families of a policy. */
  ghost function Open<T>(grid: seq<seq<T>>, p: Levels, n: nat): seq<T>
    requires FitsGrid(grid, p) && n <= |grid|
  {
    if n == 0 then [] else Open(grid, p, n - 1) + grid[n - 1][..LevelIn(p, n - 1) + 1]
  }

  ghost function OpenSet<T>(grid: seq<seq<T>>, p: Levels): seq<T>
    requires FitsGrid(grid, p)
  {
    Open(grid, p, |p|)
  }

  /** All classes of the first `n` families. */
  function AllClasses<T>(grid: seq<seq<T>>, n: nat): seq<T>
    requires n <= |grid|
  {
    if n == 0 then [] else AllClasses(grid, n - 1) + grid[n - 1]
  }

  /** What a node between two policies receives: family by family, from low to high. */
  ghost function Diff<T>(grid: seq<seq<T>>, p: Levels, q: Levels, n: nat): seq<T>
    requires FitsGrid(grid, p) && NoDeeper(q, p) && n <= |p|
  {
    if n == 0 then [] else Diff(grid, p, q, n - 1) + Climb(grid[n - 1], p[n - 1], LevelIn(q, n - 1))
  }

  /** What the last node receives: from the last family back, every class that is not open. */
  ghost function Rest<T>(grid: seq<seq<T>>, p: Levels, n: nat): seq<T>
    requires FitsGrid(grid, p) && n <= |grid|
  {
    if n == 0 then []
    else Climb(grid[n - 1], |grid[n - 1]| - 1, LevelIn(p, n - 1)) + Rest(grid, p, n - 1)
  }

  // ---- The nodes partition the classes.

  lemma {:induction false} ClimbEntries<T>(s: seq<T>, start: int, stop: int)
    requires -1 <= stop <= start < |s|
    ensures multiset(Climb(s, start, stop)) == multiset(s[stop + 1..start + 1])
    decreases start - stop
  {
    if start != stop {
      ClimbEntries(s, start - 1, stop);
      assert s[stop + 1..start + 1] == s[stop + 1..start] + [s[start]];
    }
  }

  /** The classes up to `start` are those up to `stop` and those that the climb passes. */
  lemma ClimbCompletes<T>(s: seq<T>, start: int, stop: int)
    requires -1 <= stop <= start < |s|
    ensures multiset(Climb(s, start, stop)) + multiset(s[..stop + 1]) == multiset(s[..start + 1])
  {
    ClimbEntries(s, start, stop);
    assert s[..start + 1] == s[..stop + 1] + s[stop + 1..start + 1];
  }

  /** Two partitions side by side are a partition of the whole. */
  lemma JoinPartitions<T>(a: seq<T>, b: seq<T>, ab: seq<T>, c: seq<T>, d: seq<T>, cd: seq<T>)
    requires multiset(a) + multiset(b) == multiset(ab)
    requires multiset(c) + multiset(d) == multiset(cd)
    ensures multiset(a + c) + multiset(b + d) == multiset(ab + cd)
    ensures multiset(c + a) + multiset(b + d) == multiset(ab + cd)
  {
  }

  /** One family: what the node receives, and what either policy opens there. */
  lemma DiffStep<T>(grid: seq<seq<T>>, p: Levels, q: Levels, i: nat) returns (added: seq<T>, less: seq<T>, more: seq<T>)
    requires FitsGrid(grid, p) && FitsGrid(grid, q) && Included(q, p) && i < |p|
    ensures Diff(grid, p, q, i + 1) == Diff(grid, p, q, i) + added
    ensures Open(grid, q, i + 1) == Open(grid, q, i) + less
    ensures Open(grid, p, i + 1) == Open(grid, p, i) + more
    ensures multiset(added) + multiset(less) == multiset(more)
  {
    hide Climb;
    ClimbCompletes(grid[i], p[i], LevelIn(q, i));
    added := Climb(grid[i], p[i], LevelIn(q, i));
    less, more := grid[i][..LevelIn(q, i) + 1], grid[i][..p[i] + 1];
  }

  lemma NothingOpen<T>(grid: seq<seq<T>>, p: Levels, q: Levels)
    requires FitsGrid(grid, p) && FitsGrid(grid, q) && Included(q, p)
    ensures |p| <= |grid| && NoDeeper(q, p)
    ensures Diff(grid, p, q, 0) == [] && Open(grid, q, 0) == [] && Open(grid, p, 0) == []
  {
  }

  lemma {:induction false} DiffUpTo<T>(grid: seq<seq<T>>, p: Levels, q: Levels, n: nat)
    requires FitsGrid(grid, p) && FitsGrid(grid, q) && Included(q, p) && n <= |p|
    ensures multiset(Diff(grid, p, q, n)) + multiset(Open(grid, q, n)) == multiset(Open(grid, p, n))
  {
    hide *;
    NothingOpen(grid, p, q);
    if n > 0 {
      var i := n - 1;
      DiffUpTo(grid, p, q, i);
      var added, less, more := DiffStep(grid, p, q, i);
      JoinPartitions(Diff(grid, p, q, i), Open(grid, q, i), Open(grid, p, i), added, less, more);
    }
  }

  /** Families that a policy closes add nothing to its open set. */
  lemma {:induction false} OpenStops<T>(grid: seq<seq<T>>, p: Levels, n: nat)
    requires FitsGrid(grid, p) && |p| <= n <= |grid|
    ensures Open(grid, p, n) == OpenSet(grid, p)
  {
    if n > |p| {
      OpenStops(grid, p, n - 1);
    }
  }

  /** A node receives exactly the open classes of the next policy that the current one does not open. */
  lemma NodeIsDifference<T>(grid: seq<seq<T>>, p: Levels, q: Levels)
    requires FitsGrid(grid, p) && FitsGrid(grid, q) && Included(q, p)
    ensures multiset(Diff(grid, p, q, |p|)) + multiset(OpenSet(grid, q)) == multiset(OpenSet(grid, p))
  {
    DiffUpTo(grid, p, q, |p|);
    OpenStops(grid, q, |p|);
  }

  /** One family: what the last node receives, and what the policy opens there. */
  lemma RestStep<T>(grid: seq<seq<T>>, p: Levels, i: nat) returns (added: seq<T>, open: seq<T>)
    requires FitsGrid(grid, p) && i < |grid|
    ensures Rest(grid, p, i + 1) == added + Rest(grid, p, i)
    ensures Open(grid, p, i + 1) == Open(grid, p, i) + open
    ensures AllClasses(grid, i + 1) == AllClasses(grid, i) + grid[i]
    ensures multiset(added) + multiset(open) == multiset(grid[i])
  {
    hide Climb;
    ClimbCompletes(grid[i], |grid[i]| - 1, LevelIn(p, i));
    assert grid[i][..|grid[i]|] == grid[i];
    added, open := Climb(grid[i], |grid[i]| - 1, LevelIn(p, i)), grid[i][..LevelIn(p, i) + 1];
  }

  lemma NothingLeft<T>(grid: seq<seq<T>>, p: Levels)
    requires FitsGrid(grid, p)
    ensures Rest(grid, p, 0) == [] && Open(grid, p, 0) == [] && AllClasses(grid, 0) == []
  {
  }

  lemma {:induction false} RestUpTo<T>(grid: seq<seq<T>>, p: Levels, n: nat)
    requires FitsGrid(grid, p) && n <= |grid|
    ensures multiset(Rest(grid, p, n)) + multiset(Open(grid, p, n)) == multiset(AllClasses(grid, n))
  {
    hide *;
    NothingLeft(grid, p);
    if n > 0 {
      var i := n - 1;
      RestUpTo(grid, p, i);
      var added, open := RestStep(grid, p, i);
      JoinPartitions(Rest(grid, p, i), Open(grid, p, i), AllClasses(grid, i), added, open, grid[i]);
    }
  }

  /** The last node receives exactly the classes that the policy does not open. */
  lemma LastNodeIsComplement<T>(grid: seq<seq<T>>, p: Levels)
    requires FitsGrid(grid, p)
    ensures multiset(Rest(grid, p, |grid|)) + multiset(OpenSet(grid, p)) == multiset(AllClasses(grid, |grid|))
  {
    RestUpTo(grid, p, |grid|);
    OpenStops(grid, p, |grid|);
  }

  /** Policies from the empty one on, each with its open set inside the next one's. */
  ghost predicate Tower<T>(grid: seq<seq<T>>, ps: seq<Levels>) {
    && ps != [] && ps[0] == []
    && (forall i | 0 <= i < |ps| :: FitsGrid(grid, ps[i]))
    && (forall i | 0 <= i < |ps| - 1 :: Included(ps[i], ps[i + 1]))
  }

  /** The classes of the first `n` nodes, in the order in which they are added. */
  ghost function NodeClasses<T>(grid: seq<seq<T>>, ps: seq<Levels>, n: nat): seq<T>
    requires Tower(grid, ps) && n < |ps|
  {
    if n == 0 then [] else NodeClasses(grid, ps, n - 1) + NodeAt(grid, ps, n - 1)
  }

  /** The classes of node `i`, which lies between the policies `i` and `i + 1`. */
  ghost function NodeAt<T>(grid: seq<seq<T>>, ps: seq<Levels>, i: nat): seq<T>
    requires Tower(grid, ps) && i + 1 < |ps|
  {
    Diff(grid, ps[i + 1], ps[i], |ps[i + 1]|)
  }

  lemma {:induction false} NodesOpen<T>(grid: seq<seq<T>>, ps: seq<Levels>, n: nat)
    requires Tower(grid, ps) && n < |ps|
    ensures multiset(NodeClasses(grid, ps, n)) == multiset(OpenSet(grid, ps[n]))
  {
    if n > 0 {
      hide Diff, Open, OpenSet;
      NodesOpen(grid, ps, n - 1);
      assert Included(ps[n - 1], ps[n - 1 + 1]);
      NodeIsDifference(grid, ps[n], ps[n - 1]);
    }
  }

  /**
   * The nodes of a hull and the last node partition the classes of the cabin:
   * together they hold every class exactly as often as the cabin does. So the
   * node classes are never more than the cabin's, and the last node has
   * something to hold exactly when they are fewer.
   */
  lemma NodesPartition<T>(grid: seq<seq<T>>, ps: seq<Levels>)
    requires Tower(grid, ps)
    ensures var nodes, last := NodeClasses(grid, ps, |ps| - 1), Rest(grid, ps[|ps| - 1], |grid|);
      && multiset(nodes + last) == multiset(AllClasses(grid, |grid|))
      && |nodes| + |last| == |AllClasses(grid, |grid|)|
  {
    hide Rest, Open, NodeClasses;
    NodesOpen(grid, ps, |ps| - 1);
    LastNodeIsComplement(grid, ps[|ps| - 1]);
    var nodes, last := NodeClasses(grid, ps, |ps| - 1), Rest(grid, ps[|ps| - 1], |grid|);
    assert |multiset(nodes + last)| == |multiset(AllClasses(grid, |grid|))|;
  }

  /** A class that one policy opens and an included one does not is in the node between them. */
  lemma {:induction false} DiffHolds<T>(grid: seq<seq<T>>, p: Levels, q: Levels, n: nat, i: nat)
    requires FitsGrid(grid, p) && NoDeeper(q, p) && i < n <= |p| && LevelIn(q, i) < p[i]
    ensures Diff(grid, p, q, n) != []
  {
    if i < n - 1 {
      DiffHolds(grid, p, q, n - 1, i);
    }
  }

  /** Included policies that differ have a node with classes between them. */
  lemma DiffNotEmpty<T>(grid: seq<seq<T>>, p: Levels, q: Levels)
    requires FitsGrid(grid, p) && Included(q, p) && q != p
    ensures Diff(grid, p, q, |p|) != []
  {
    if |q| < |p| {
      DiffHolds(grid, p, q, |p|, |q|);
    } else {
      var i :| 0 <= i < |p| && q[i] != p[i];
      DiffHolds(grid, p, q, |p|, i);
    }
  }

  lemma {:induction false} NodeWithin<T>(grid: seq<seq<T>>, ps: seq<Levels>, k: nat, n: nat, c: T)
    requires Tower(grid, ps) && k < n < |ps| && c in NodeAt(grid, ps, k)
    ensures c in NodeClasses(grid, ps, n)
  {
    hide Diff;
    if k < n - 1 {
      NodeWithin(grid, ps, k, n - 1, c);
    }
  }

  /** Every open class is a class of the cabin. */
  lemma OpenWithinAll<T>(grid: seq<seq<T>>, p: Levels)
    requires FitsGrid(grid, p)
    ensures multiset(OpenSet(grid, p)) <= multiset(AllClasses(grid, |grid|))
  {
    hide OpenSet, AllClasses, Rest;
    LastNodeIsComplement(grid, p);
  }

  lemma NodeStep<T>(grid: seq<seq<T>>, ps: seq<Levels>, n: nat)
    requires Tower(grid, ps) && n + 1 < |ps|
    ensures NodeClasses(grid, ps, n + 1) == NodeClasses(grid, ps, n) + NodeAt(grid, ps, n)
    ensures FitsGrid(grid, ps[n + 1])
  {
    hide NodeAt;
  }

  lemma AllStep<T>(grid: seq<seq<T>>, n: nat)
    requires n < |grid|
    ensures AllClasses(grid, n + 1) == AllClasses(grid, n) + grid[n]
  {
  }

  // ---- The order of the classes in the nodes.

  lemma {:induction false} ClimbAt<T>(s: seq<T>, start: int, stop: int, a: nat)
    requires -1 <= stop <= start < |s| && a < start - stop
    ensures Climb(s, start, stop)[a] == s[start - a]
    decreases start - stop
  {
    if a > 0 {
      ClimbAt(s, start - 1, stop, a - 1);
    }
  }

  /** The class `x` stands in family `i` at position `k`. */
  ghost predicate StandsAt<T>(grid: seq<seq<T>>, x: T, i: nat, k: nat) {
    i < |grid| && k < |grid[i]| && grid[i][k] == x
  }

  /** The class `x` stands in an earlier family than `y`, or in the same family and is lower. */
  ghost predicate Precedes<T>(grid: seq<seq<T>>, x: T, y: T) {
    exists i: nat, k: nat, j: nat, l: nat ::
      StandsAt(grid, x, i, k) && StandsAt(grid, y, j, l) && (i < j || (i == j && k > l))
  }

  /** The class `x` stands in a later family than `y`, or in the same family and is lower. */
  ghost predicate PrecedesBack<T>(grid: seq<seq<T>>, x: T, y: T) {
    exists i: nat, k: nat, j: nat, l: nat ::
      StandsAt(grid, x, i, k) && StandsAt(grid, y, j, l) && (i > j || (i == j && k > l))
  }

  lemma {:induction false} DiffEntry<T>(grid: seq<seq<T>>, p: Levels, q: Levels, n: nat, a: nat)
    returns (i: nat, k: nat)
    requires FitsGrid(grid, p) && NoDeeper(q, p) && n <= |p| && a < |Diff(grid, p, q, n)|
    ensures i < n && StandsAt(grid, Diff(grid, p, q, n)[a], i, k)
  {
    var before := Diff(grid, p, q, n - 1);
    if a < |before| {
      i, k := DiffEntry(grid, p, q, n - 1, a);
    } else {
      ClimbAt(grid[n - 1], p[n - 1], LevelIn(q, n - 1), a - |before|);
      i, k := n - 1, p[n - 1] - (a - |before|);
    }
  }

  /** A node lists its classes family by family, and from low to high in each. */
  lemma {:induction false} NodeInOrder<T>(grid: seq<seq<T>>, p: Levels, q: Levels, n: nat, a: nat, b: nat)
    requires FitsGrid(grid, p) && NoDeeper(q, p) && n <= |p| && a < b < |Diff(grid, p, q, n)|
    ensures Precedes(grid, Diff(grid, p, q, n)[a], Diff(grid, p, q, n)[b])
  {
    var before := Diff(grid, p, q, n - 1);
    if b < |before| {
      NodeInOrder(grid, p, q, n - 1, a, b);
    } else {
      var start, stop := p[n - 1], LevelIn(q, n - 1);
      ClimbAt(grid[n - 1], start, stop, b - |before|);
      assert StandsAt(grid, Diff(grid, p, q, n)[b], n - 1, start - (b - |before|));
      if a < |before| {
        var i, k := DiffEntry(grid, p, q, n - 1, a);
      } else {
        ClimbAt(grid[n - 1], start, stop, a - |before|);
        assert StandsAt(grid, Diff(grid, p, q, n)[a], n - 1, start - (a - |before|));
      }
    }
  }

  lemma {:induction false} RestEntry<T>(grid: seq<seq<T>>, p: Levels, n: nat, a: nat) returns (i: nat, k: nat)
    requires FitsGrid(grid, p) && n <= |grid| && a < |Rest(grid, p, n)|
    ensures i < n && StandsAt(grid, Rest(grid, p, n)[a], i, k)
  {
    var start, stop := |grid[n - 1]| - 1, LevelIn(p, n - 1);
    if a < start - stop {
      ClimbAt(grid[n - 1], start, stop, a);
      i, k := n - 1, start - a;
    } else {
      i, k := RestEntry(grid, p, n - 1, a - (start - stop));
    }
  }

  /** The last node lists its classes from the last family back, and from low to high in each. */
  lemma {:induction false} LastNodeInOrder<T>(grid: seq<seq<T>>, p: Levels, n: nat, a: nat, b: nat)
    requires FitsGrid(grid, p) && n <= |grid| && a < b < |Rest(grid, p, n)|
    ensures PrecedesBack(grid, Rest(grid, p, n)[a], Rest(grid, p, n)[b])
  {
    var start, stop := |grid[n - 1]| - 1, LevelIn(p, n - 1);
    var added := start - stop;
    if a >= added {
      LastNodeInOrder(grid, p, n - 1, a - added, b - added);
    } else {
      ClimbAt(grid[n - 1], start, stop, a);
      assert StandsAt(grid, Rest(grid, p, n)[a], n - 1, start - a);
      if b < added {
        ClimbAt(grid[n - 1], start, stop, b);
        assert StandsAt(grid, Rest(grid, p, n)[b], n - 1, start - b);
      } else {
        var i, k := RestEntry(grid, p, n - 1, b - added);
      }
    }
  }

  lemma {:induction false} FirstOfDiff<T>(grid: seq<seq<T>>, p: Levels, q: Levels, n: nat, i: nat)
    requires FitsGrid(grid, p) && NoDeeper(q, p) && i < n <= |p|
    requires LevelIn(q, i) < p[i] && forall l: nat | l < i :: LevelIn(q, l) == p[l]
    ensures Diff(grid, p, q, n) != [] && Diff(grid, p, q, n)[0] == grid[i][p[i]]
    ensures Diff(grid, p, q, i) == []
  {
    if i < n - 1 {
      FirstOfDiff(grid, p, q, n - 1, i);
    } else {
      NothingBefore(grid, p, q, i);
      ClimbAt(grid[i], p[i], LevelIn(q, i), 0);
    }
  }

  lemma {:induction false} NothingBefore<T>(grid: seq<seq<T>>, p: Levels, q: Levels, n: nat)
    requires FitsGrid(grid, p) && NoDeeper(q, p) && n <= |p| && forall l: nat | l < n :: LevelIn(q, l) == p[l]
    ensures Diff(grid, p, q, n) == []
  {
    if n > 0 {
      NothingBefore(grid, p, q, n - 1);
    }
  }

  lemma SameLevels(p: Levels, q: Levels)
    requires |q| <= |p| && forall l: nat | l < |p| :: LevelIn(q, l) == p[l]
    ensures q == p
  {
    forall l | 0 <= l < |p|
      ensures l < |q| && q[l] == p[l]
    {
      assert LevelIn(q, l) == p[l];
    }
    if p != [] {
      assert LevelIn(q, |p| - 1) == p[|p| - 1];
    }
  }

  /** The first family in which included policies differ. */
  lemma {:induction false} FirstDifference(p: Levels, q: Levels, n: nat) returns (i: nat)
    requires Included(q, p) && q != p && n <= |p| && forall l: nat | l < n :: LevelIn(q, l) == p[l]
    ensures i < |p| && LevelIn(q, i) < p[i] && forall l: nat | l < i :: LevelIn(q, l) == p[l]
    decreases |p| - n
  {
    if n == |p| {
      SameLevels(p, q);
    } else if LevelIn(q, n) < p[n] {
      i := n;
    } else {
      i := FirstDifference(p, q, n + 1);
    }
  }

  /** With every class once in the cabin, no class is in two nodes. */
  lemma NodesDisjoint<T>(grid: seq<seq<T>>, ps: seq<Levels>, k: nat, n: nat, c: T)
    requires Tower(grid, ps) && k < n && n + 1 < |ps|
    requires Once(AllClasses(grid, |grid|), c)
    requires c in NodeAt(grid, ps, k)
    ensures c !in NodeAt(grid, ps, n)
  {
    hide *;
    NodeStep(grid, ps, n);
    NodeWithin(grid, ps, k, n, c);
    NodesOpen(grid, ps, n + 1);
    OpenWithinAll(grid, ps[n + 1]);
    OnceWithin(NodeClasses(grid, ps, n + 1), AllClasses(grid, |grid|), c);
    if c in NodeAt(grid, ps, n) {
      InBothTwice(NodeClasses(grid, ps, n), NodeAt(grid, ps, n), c);
    }
  }

  lemma OnceWithin<T>(s: seq<T>, t: seq<T>, x: T)
    requires multiset(s) <= multiset(t) && Once(t, x)
    ensures Once(s, x)
  {
  }

  lemma InBothTwice<T>(s: seq<T>, t: seq<T>, x: T)
    requires x in s && x in t
    ensures !Once(s + t, x)
  {
    assert multiset(s + t) == multiset(s) + multiset(t);
  }

  lemma NodeInCabin<T>(grid: seq<seq<T>>, ps: seq<Levels>, k: nat, c: T)
    requires Tower(grid, ps) && k + 1 < |ps| && c in NodeAt(grid, ps, k)
    ensures c in AllClasses(grid, |grid|)
  {
    hide NodeAt, OpenSet, AllClasses, NodeClasses;
    NodeWithin(grid, ps, k, k + 1, c);
    NodesOpen(grid, ps, k + 1);
    OpenWithinAll(grid, ps[k + 1]);
    assert c in multiset(NodeClasses(grid, ps, k + 1));
    assert c in multiset(AllClasses(grid, |grid|));
  }

  /** One list is a rearrangement of the other. */
  ghost predicate Rearranges<T>(s: seq<T>, t: seq<T>) {
    multiset(s) == multiset(t)
  }

  lemma RearrangesEntry<T>(s: seq<T>, t: seq<T>, x: T)
    requires Rearranges(s, t)
    ensures x in s <==> x in t
    ensures Once(s, x) <==> Once(t, x)
  {
    assert x in multiset(s) <==> x in multiset(t);
  }

  lemma RearrangesLength<T>(s: seq<T>, t: seq<T>)
    requires Rearranges(s, t)
    ensures |s| == |t|
  {
    assert |multiset(s)| == |multiset(t)|;
  }

  /** The list holds `x` at most once. */
  ghost predicate Once<T>(s: seq<T>, x: T) {
    multiset(s)[x] <= 1
  }

  lemma TwiceInMultiset<T>(s: seq<T>, i: nat, j: nat)
    requires i < j < |s| && s[i] == s[j]
    ensures multiset(s)[s[i]] >= 2
  {
    assert s == s[..j] + s[j..];
    assert s[i] in s[..j] && s[i] in s[j..];
  }

  lemma {:induction false} OnceInMultiset<T>(t: seq<T>, x: T)
    requires forall a, b | 0 <= a < b < |t| :: t[a] != t[b]
    ensures Once(t, x)
  {
    if t != [] {
      var n := |t| - 1;
      OnceInMultiset(t[..n], x);
      assert t == t[..n] + [t[n]];
      if t[n] == x {
        assert x !in t[..n];
      }
    }
  }

  lemma OnceJoined<T>(s: seq<T>, t: seq<T>, x: T)
    requires Once(s, x) && Once(t, x) && !(x in s && x in t)
    ensures Once(s + t, x)
  {
    assert multiset(s + t) == multiset(s) + multiset(t);
  }

  // ---- The nesting test.

  /** From family `i` on, the loop finds no family where `p` opens more, before the first equal level. */
  predicate NestedFrom(p: Levels, q: Levels, i: nat)
    requires i <= |p| <= |q|
    decreases |p| - i
  {
    i == |p| || p[i] == q[i] || (p[i] < q[i] && NestedFrom(p, q, i + 1))
  }

  predicate Nested(p: Levels, q: Levels) {
    p == [] || (|p| <= |q| && NestedFrom(p, q, 0))
  }

  /** Some family between `i` and `k` has equal levels. */
  ghost predicate EqualBetween(p: Levels, q: Levels, i: nat, k: nat) {
    exists j :: i <= j <= k && j < |p| && j < |q| && p[j] == q[j]
  }

  /** From family `i` on, `p` is strictly above `q` until the first equal level. */
  ghost predicate AboveUntilEqual(p: Levels, q: Levels, i: nat)
    requires |p| <= |q|
  {
    forall k: nat | i <= k < |p| :: p[k] < q[k] || EqualBetween(p, q, i, k)
  }

  lemma EqualHere(p: Levels, q: Levels, i: nat)
    requires i < |p| <= |q| && p[i] == q[i]
    ensures AboveUntilEqual(p, q, i)
  {
    forall k: nat | i <= k < |p|
      ensures EqualBetween(p, q, i, k)
    {
      assert i <= i <= k;
    }
  }

  lemma EqualLater(p: Levels, q: Levels, i: nat, k: nat)
    requires i < |p| <= |q| && p[i] != q[i]
    ensures EqualBetween(p, q, i, k) <==> EqualBetween(p, q, i + 1, k)
  {
  }

  lemma EqualStep(p: Levels, q: Levels, i: nat)
    requires i < |p| <= |q| && p[i] != q[i]
    ensures AboveUntilEqual(p, q, i) <==> p[i] < q[i] && AboveUntilEqual(p, q, i + 1)
  {
    forall k: nat
      ensures EqualBetween(p, q, i, k) <==> EqualBetween(p, q, i + 1, k)
    {
      EqualLater(p, q, i, k);
    }
    assert !EqualBetween(p, q, i + 1, i);
    hide EqualBetween;
  }

  lemma {:induction false} NestedFromMeans(p: Levels, q: Levels, i: nat)
    requires i <= |p| <= |q|
    ensures NestedFrom(p, q, i) <==> AboveUntilEqual(p, q, i)
    decreases |p| - i
  {
    if i < |p| {
      hide AboveUntilEqual;
      if p[i] == q[i] {
        EqualHere(p, q, i);
      } else {
        NestedFromMeans(p, q, i + 1);
        EqualStep(p, q, i);
      }
    }
  }

  /**
   * The test accepts a pair exactly when the first policy is empty, or the
   * second is no shorter and every family up to the first equal one, or to the
   * end, has its level below.
   */
  lemma NestedMeans(p: Levels, q: Levels)
    ensures Nested(p, q) <==>
      p == [] || (|p| <= |q| && forall k: nat | k < |p| :: p[k] < q[k] || EqualBetween(p, q, 0, k))
  {
    if |p| <= |q| {
      NestedFromMeans(p, q, 0);
    }
  }

  /** After a family with equal levels, no family of `p` opens more than `q` does. */
  ghost predicate NoFallBack(p: Levels, q: Levels) {
    forall j, k | 0 <= j < k < |p| && k < |q| && p[j] == q[j] :: p[k] <= q[k]
  }

  /** The test is weaker than inclusion by exactly the families after the first equal one. */
  lemma IncludedIsNestedWithoutFallBack(p: Levels, q: Levels)
    ensures Included(p, q) <==> Nested(p, q) && NoFallBack(p, q)
  {
    hide Nested, NestedFrom;
    NestedMeans(p, q);
    if Included(p, q) {
      forall k: nat | k < |p|
        ensures p[k] < q[k] || EqualBetween(p, q, 0, k)
      {
        assert p[k] <= q[k];
      }
    }
  }

  /** On policies of a single family the test is inclusion. */
  lemma OneFamilyNested(p: Levels, q: Levels)
    requires |p| <= 1
    ensures Nested(p, q) <==> Included(p, q)
  {
    IncludedIsNestedWithoutFallBack(p, q);
  }

  /** The test accepts a pair whose open sets are not included, and it is not transitive. */
  lemma NestedIsNotAnOrder()
    ensures var p, q, r := [0, 1], [0, 0], [1, 0];
      && Nested(p, q) && !Included(p, q)
      && Nested(q, r) && !Nested(p, r)
  {
    var p, q, r: Levels := [0, 1], [0, 0], [1, 0];
    assert NestedFrom(p, q, 0);
    assert NestedFrom(q, r, 1);
    assert NestedFrom(q, r, 0);
    assert !NestedFrom(p, r, 1);
    assert !(p[1] <= q[1]);
  }
}
