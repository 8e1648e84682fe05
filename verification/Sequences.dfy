/** Sums, counts, orderings and the rounding of reals used by every other module. */
module Sequences {

  /** The sum of a list of reals. */
  function Sum(s: seq<real>): real {
    if s == [] then 0.0 else Sum(s[..|s| - 1]) + s[|s| - 1]
  }

  lemma {:induction false} SumAppend(s: seq<real>, t: seq<real>)
    ensures Sum(s + t) == Sum(s) + Sum(t)
  {
    if t == [] {
      assert s + t == s;
    } else {
      var u := s + t;
      assert u[..|u| - 1] == s + t[..|t| - 1];
      SumAppend(s, t[..|t| - 1]);
    }
  }

  /** Adding `a * t[i]` to every entry adds `a * Sum(t)` to the sum. */
  lemma {:induction false} SumLinear(s: seq<real>, t: seq<real>, a: real, r: seq<real>)
    requires |s| == |t| == |r|
    requires forall i | 0 <= i < |s| :: r[i] == s[i] + a * t[i]
    ensures Sum(r) == Sum(s) + a * Sum(t)
  {
    if s != [] {
      var n := |s| - 1;
      SumLinear(s[..n], t[..n], a, r[..n]);
      assert a * (Sum(t[..n]) + t[n]) == a * Sum(t[..n]) + a * t[n];
    }
  }

  /** Real-valued entries that are all at least zero have a non-negative sum. */
  lemma {:induction false} SumNonNegative(s: seq<real>)
    requires forall i | 0 <= i < |s| :: s[i] >= 0.0
    ensures Sum(s) >= 0.0
  {
    if s != [] {
      SumNonNegative(s[..|s| - 1]);
    }
  }

  ghost predicate NonIncreasing(s: seq<real>) {
    forall i, j | 0 <= i < j < |s| :: s[i] >= s[j]
  }

  ghost predicate Ascending(s: seq<real>) {
    forall i, j | 0 <= i < j < |s| :: s[i] <= s[j]
  }

  ghost predicate AllAtLeast(s: seq<real>, x: real) {
    forall i | 0 <= i < |s| :: s[i] >= x
  }

  ghost predicate AllAtMost(s: seq<real>, x: real) {
    forall i | 0 <= i < |s| :: s[i] <= x
  }

  /** Non-increasing lists concatenate when a bound separates them. */
  lemma NonIncreasingConcat(s: seq<real>, t: seq<real>, x: real)
    requires NonIncreasing(s) && NonIncreasing(t)
    requires AllAtLeast(s, x) && AllAtMost(t, x)
    ensures NonIncreasing(s + t)
  {
  }

  /** The conversion of a C++ `double` to an integer: rounding towards zero. */
  function Trunc(x: real): (n: int)
    ensures x >= 0.0 ==> 0 <= n && n as real <= x < n as real + 1.0
    ensures x < 0.0 ==> n <= 0 && n as real - 1.0 < x <= n as real
  {
    if x >= 0.0 then x.Floor else -(-x).Floor
  }

  function Min(a: int, b: int): int { if a <= b then a else b }

  function Max(a: int, b: int): int { if a >= b then a else b }

  /** How many entries are at least `x`. */
  function CountAtLeast(s: seq<real>, x: real): (n: nat)
    ensures n <= |s|
  {
    if s == [] then 0 else CountAtLeast(s[1..], x) + if s[0] >= x then 1 else 0
  }

  /** How many entries are strictly greater than `x`. */
  function CountAbove(s: seq<real>, x: real): (n: nat)
    ensures n <= |s|
  {
    if s == [] then 0 else CountAbove(s[1..], x) + if s[0] > x then 1 else 0
  }

  lemma {:induction false} CountAtLeastAppend(s: seq<real>, t: seq<real>, x: real)
    ensures CountAtLeast(s + t, x) == CountAtLeast(s, x) + CountAtLeast(t, x)
  {
    if s == [] {
      assert s + t == t;
    } else {
      assert (s + t)[1..] == s[1..] + t;
      CountAtLeastAppend(s[1..], t, x);
    }
  }

  lemma {:induction false} CountAboveAppend(s: seq<real>, t: seq<real>, x: real)
    ensures CountAbove(s + t, x) == CountAbove(s, x) + CountAbove(t, x)
  {
    if s == [] {
      assert s + t == t;
    } else {
      assert (s + t)[1..] == s[1..] + t;
      CountAboveAppend(s[1..], t, x);
    }
  }

  lemma {:induction false} CountAtLeastAll(s: seq<real>, x: real)
    requires forall i | 0 <= i < |s| :: s[i] >= x
    ensures CountAtLeast(s, x) == |s|
  {
    if s != [] {
      CountAtLeastAll(s[1..], x);
    }
  }

  lemma {:induction false} CountAtLeastNone(s: seq<real>, x: real)
    requires forall i | 0 <= i < |s| :: s[i] < x
    ensures CountAtLeast(s, x) == 0
  {
    if s != [] {
      CountAtLeastNone(s[1..], x);
    }
  }

  /** A higher threshold is reached by no more entries. */
  lemma {:induction false} CountAtLeastAntitone(s: seq<real>, x: real, y: real)
    requires x <= y
    ensures CountAtLeast(s, y) <= CountAtLeast(s, x)
  {
    if s != [] {
      CountAtLeastAntitone(s[1..], x, y);
    }
  }

  /** A cut point of the list at threshold `x` fixes the count. */
  lemma CountAtLeastCut(s: seq<real>, p: nat, x: real)
    requires p <= |s|
    requires forall i | 0 <= i < p :: s[i] < x
    requires forall i | p <= i < |s| :: s[i] >= x
    ensures CountAtLeast(s, x) == |s| - p
  {
    CountAtLeastNone(s[..p], x);
    CountAtLeastAll(s[p..], x);
    CountAtLeastAppend(s[..p], s[p..], x);
    assert s[..p] + s[p..] == s;
  }

  // ---- Sorting. std::sort leaves the one ascending rearrangement of its range.

  function Insert(x: real, s: seq<real>): (r: seq<real>)
    ensures |r| == |s| + 1
  {
    if s == [] || x <= s[0] then [x] + s else [s[0]] + Insert(x, s[1..])
  }

  function Sort(s: seq<real>): (r: seq<real>)
    ensures |r| == |s|
  {
    if s == [] then [] else Insert(s[0], Sort(s[1..]))
  }

  lemma {:induction false} InsertKeepsEntries(x: real, s: seq<real>)
    ensures multiset(Insert(x, s)) == multiset([x]) + multiset(s)
  {
    if s == [] || x <= s[0] {
    } else {
      InsertKeepsEntries(x, s[1..]);
      assert s == [s[0]] + s[1..];
    }
  }

  lemma InsertEntry(x: real, s: seq<real>, i: nat)
    requires i <= |s|
    ensures Insert(x, s)[i] == x || Insert(x, s)[i] in s
  {
    InsertKeepsEntries(x, s);
    assert Insert(x, s)[i] in multiset(Insert(x, s));
  }

  lemma {:induction false} InsertKeepsOrder(x: real, s: seq<real>)
    requires Ascending(s)
    ensures Ascending(Insert(x, s))
  {
    if s == [] || x <= s[0] {
    } else {
      InsertKeepsOrder(x, s[1..]);
      forall i | 0 <= i < |s|
        ensures s[0] <= Insert(x, s[1..])[i]
      {
        InsertEntry(x, s[1..], i);
      }
    }
  }

  /** `Sort` gives an ascending rearrangement of its argument. */
  lemma {:induction false} SortCorrect(s: seq<real>)
    ensures Ascending(Sort(s))
    ensures multiset(Sort(s)) == multiset(s)
  {
    if s != [] {
      SortCorrect(s[1..]);
      InsertKeepsOrder(s[0], Sort(s[1..]));
      InsertKeepsEntries(s[0], Sort(s[1..]));
      assert s == [s[0]] + s[1..];
    }
  }

  /** An ascending list is left as it is. */
  lemma {:induction false} SortAscending(s: seq<real>)
    requires Ascending(s)
    ensures Sort(s) == s
  {
    if s != [] {
      SortAscending(s[1..]);
    }
  }

  lemma SortBound(s: seq<real>, x: real)
    requires AllAtLeast(s, x)
    ensures AllAtLeast(Sort(s), x)
  {
    SortCorrect(s);
    var r := Sort(s);
    forall i | 0 <= i < |r|
      ensures r[i] >= x
    {
      assert r[i] in multiset(r);
      assert r[i] in multiset(s);
    }
  }

  lemma {:induction false} InsertCounts(y: real, s: seq<real>, x: real)
    ensures CountAtLeast(Insert(y, s), x) == CountAtLeast(s, x) + if y >= x then 1 else 0
    ensures CountAbove(Insert(y, s), x) == CountAbove(s, x) + if y > x then 1 else 0
  {
    if s == [] || y <= s[0] {
      assert ([y] + s)[1..] == s;
    } else {
      InsertCounts(y, s[1..], x);
      assert ([s[0]] + Insert(y, s[1..]))[1..] == Insert(y, s[1..]);
    }
  }

  lemma {:induction false} SortCounts(s: seq<real>, x: real)
    ensures CountAtLeast(Sort(s), x) == CountAtLeast(s, x)
    ensures CountAbove(Sort(s), x) == CountAbove(s, x)
  {
    if s != [] {
      SortCounts(s[1..], x);
      InsertCounts(s[0], Sort(s[1..]), x);
    }
  }

  /** The list read from its end. */
  function Reverse<T>(s: seq<T>): (r: seq<T>)
    ensures |r| == |s|
    ensures forall i | 0 <= i < |r| :: r[i] == s[|s| - 1 - i]
  {
    if s == [] then [] else Reverse(s[1..]) + [s[0]]
  }

  /** std::sort on reverse iterators: from high to low. */
  function SortDown(s: seq<real>): (r: seq<real>)
    ensures |r| == |s|
  {
    Reverse(Sort(s))
  }

  lemma {:induction false} ReverseCounts(s: seq<real>, x: real)
    ensures CountAtLeast(Reverse(s), x) == CountAtLeast(s, x)
    ensures CountAbove(Reverse(s), x) == CountAbove(s, x)
  {
    if s != [] {
      ReverseCounts(s[1..], x);
      CountAtLeastAppend(Reverse(s[1..]), [s[0]], x);
      CountAboveAppend(Reverse(s[1..]), [s[0]], x);
      assert s == [s[0]] + s[1..];
    }
  }

  lemma SortDownCorrect(s: seq<real>)
    ensures NonIncreasing(SortDown(s))
    ensures forall x :: CountAtLeast(SortDown(s), x) == CountAtLeast(s, x)
    ensures forall x :: CountAbove(SortDown(s), x) == CountAbove(s, x)
  {
    SortCorrect(s);
    forall x
      ensures CountAtLeast(SortDown(s), x) == CountAtLeast(s, x)
      ensures CountAbove(SortDown(s), x) == CountAbove(s, x)
    {
      ReverseCounts(Sort(s), x);
      SortCounts(s, x);
    }
  }

  lemma SumHead(s: seq<real>)
    requires s != []
    ensures Sum(s) == s[0] + Sum(s[1..])
  {
    SumAppend([s[0]], s[1..]);
    assert s == [s[0]] + s[1..];
    assert Sum([s[0]]) == Sum([]) + s[0];
  }

  // ---- Products of reals, one step at a time.

  lemma MulMono(a: real, b: real, c: real)
    requires a <= b && c >= 0.0
    ensures a * c <= b * c
  {
    assert (b - a) * c >= 0.0;
  }

  lemma MulCancel(a: real, b: real, c: real)
    requires c > 0.0 && a * c <= b * c
    ensures a <= b
  {
    assert a * c / c == a && b * c / c == b;
    if a > b {
      MulStrict(b, a, c);
      assert false;
    }
  }

  lemma MulStrict(a: real, b: real, c: real)
    requires a < b && c > 0.0
    ensures a * c < b * c
  {
  }

  lemma DivLe(a: real, b: real, c: real)
    requires c > 0.0
    ensures a <= b * c <==> a / c <= b
    ensures a >= b * c <==> a / c >= b
  {
  }

  lemma DivMul(a: real, c: real)
    requires c != 0.0
    ensures a / c * c == a
  {
  }

  lemma DivMono(a: real, b: real, c: real)
    requires a <= b && c > 0.0
    ensures a / c <= b / c
  {
    DivMul(b, c);
    DivLe(a, b / c, c);
  }

  lemma FloorBounds(q: real, n: int)
    ensures q >= n as real <==> q.Floor >= n
  {
  }
}
