/**
 * Why the merged, sorted and truncated list of marginal seat values is a bid
 * price vector: its first `c` entries add up to the best total value that any
 * split of `c` seats among the classes can reach.
 */
module SeatValues {
  import opened Sequences

  /** The values above `x`, each reduced by `x`. */
  function Gain(s: seq<real>, x: real): real {
    if s == [] then 0.0 else Gain(s[1..], x) + if s[0] > x then s[0] - x else 0.0
  }

  /** `k` values of `x`. */
  function Worth(k: nat, x: real): real {
    k as real * x
  }

  lemma WorthAdd(a: nat, b: nat, x: real)
    ensures Worth(a + b, x) == Worth(a, x) + Worth(b, x)
    ensures Worth(0, x) == 0.0 && Worth(1, x) == x
  {
  }

  lemma WorthMonotone(a: nat, b: nat, x: real)
    requires a <= b && x >= 0.0
    ensures Worth(a, x) <= Worth(b, x)
  {
    MulMono(a as real, b as real, x);
  }

  lemma {:induction false} GainAppend(s: seq<real>, t: seq<real>, x: real)
    ensures Gain(s + t, x) == Gain(s, x) + Gain(t, x)
  {
    if s == [] {
      assert s + t == t;
    } else {
      assert (s + t)[1..] == s[1..] + t;
      GainAppend(s[1..], t, x);
    }
  }

  lemma {:induction false} GainInsert(y: real, s: seq<real>, x: real)
    ensures Gain(Insert(y, s), x) == Gain(s, x) + if y > x then y - x else 0.0
  {
    if s == [] || y <= s[0] {
      assert ([y] + s)[1..] == s;
    } else {
      GainInsert(y, s[1..], x);
      assert ([s[0]] + Insert(y, s[1..]))[1..] == Insert(y, s[1..]);
    }
  }

  lemma {:induction false} GainSort(s: seq<real>, x: real)
    ensures Gain(Sort(s), x) == Gain(s, x)
  {
    if s != [] {
      GainSort(s[1..], x);
      GainInsert(s[0], Sort(s[1..]), x);
    }
  }

  lemma {:induction false} GainReverse(s: seq<real>, x: real)
    ensures Gain(Reverse(s), x) == Gain(s, x)
  {
    if s != [] {
      GainReverse(s[1..], x);
      GainAppend(Reverse(s[1..]), [s[0]], x);
    }
  }

  lemma EmptySum()
    ensures Sum([]) == 0.0
  {
  }

  lemma {:induction false} GainOfHigh(s: seq<real>, x: real)
    requires AllAtLeast(s, x)
    ensures Gain(s, x) == Sum(s) - Worth(|s|, x)
  {
    hide Worth, Sum;
    WorthAdd(0, 1, x);
    if s == [] {
      assert Sum([]) == 0.0 by { EmptySum(); }
    } else {
      WorthAdd(|s| - 1, 1, x);
      GainOfHigh(s[1..], x);
      SumHead(s);
    }
  }

  lemma {:induction false} GainOfLow(s: seq<real>, x: real)
    requires AllAtMost(s, x)
    ensures Gain(s, x) == 0.0
  {
    if s != [] {
      GainOfLow(s[1..], x);
    }
  }

  /** A list that `x` splits at `k` gains exactly what its first `k` entries have above `x`. */
  lemma GainSplit(s: seq<real>, k: nat, x: real)
    requires k <= |s| && AllAtLeast(s[..k], x) && AllAtMost(s[k..], x)
    ensures Sum(s[..k]) == Gain(s, x) + Worth(k, x)
  {
    hide Gain, Sum, Worth;
    assert s == s[..k] + s[k..];
    GainAppend(s[..k], s[k..], x);
    GainOfHigh(s[..k], x);
    GainOfLow(s[k..], x);
  }

  lemma {:induction false} GainNonNegative(s: seq<real>, x: real)
    ensures Gain(s, x) >= 0.0
  {
    if s != [] {
      GainNonNegative(s[1..], x);
    }
  }

  /** No prefix has more above `x` than the whole list gains. */
  lemma {:induction false} PrefixGain(s: seq<real>, k: nat, x: real)
    requires k <= |s|
    ensures Sum(s[..k]) <= Gain(s, x) + Worth(k, x)
  {
    hide Worth;
    WorthAdd(0, 1, x);
    if k == 0 {
      GainNonNegative(s, x);
    } else {
      PrefixGain(s[1..], k - 1, x);
      SumHead(s[..k]);
      assert s[..k][1..] == s[1..][..k - 1];
      WorthAdd(k - 1, 1, x);
    }
  }

  lemma EnoughReach(s: seq<real>, i: nat, x: real)
    requires NonIncreasing(s) && i < CountAtLeast(s, x)
    ensures s[i] >= x
  {
    hide CountAtLeast;
    assert s == s[..i] + s[i..];
    CountAtLeastAppend(s[..i], s[i..], x);
    if s[i] < x {
      CountAtLeastNone(s[i..], x);
    }
  }

  lemma NoMoreAbove(s: seq<real>, i: nat, x: real)
    requires NonIncreasing(s) && CountAbove(s, x) <= i < |s|
    ensures s[i] <= x
  {
    hide CountAbove;
    assert s == s[..i + 1] + s[i + 1..];
    CountAboveAppend(s[..i + 1], s[i + 1..], x);
    if s[i] > x {
      CountAboveAll(s[..i + 1], x);
    }
  }

  /** A non-increasing list is split by `x` wherever the count of higher values ends. */
  lemma CountSplits(s: seq<real>, k: nat, x: real)
    requires NonIncreasing(s) && CountAbove(s, x) <= k <= CountAtLeast(s, x)
    ensures AllAtLeast(s[..k], x) && AllAtMost(s[k..], x)
  {
    forall i | 0 <= i < |s|
      ensures i < k ==> s[i] >= x
      ensures k <= i ==> s[i] <= x
    {
      if i < k { EnoughReach(s, i, x); } else { NoMoreAbove(s, i, x); }
    }
  }

  lemma {:induction false} CountAboveAll(s: seq<real>, x: real)
    requires forall i | 0 <= i < |s| :: s[i] > x
    ensures CountAbove(s, x) == |s|
  {
    if s != [] {
      CountAboveAll(s[1..], x);
    }
  }

  /** In a non-increasing list the entries above `x` are exactly the first `CountAbove`. */
  lemma CountAboveIsPrefix(s: seq<real>, i: nat, x: real)
    requires NonIncreasing(s) && i < |s|
    ensures s[i] > x <==> i < CountAbove(s, x)
  {
    hide CountAbove;
    assert s == s[..i] + s[i..] == s[..i + 1] + s[i + 1..];
    CountAboveAppend(s[..i], s[i..], x);
    CountAboveAppend(s[..i + 1], s[i + 1..], x);
    if s[i] > x {
      CountAboveAll(s[..i + 1], x);
    } else {
      CountAboveNone(s[i..], x);
    }
  }

  lemma {:induction false} CountAboveNone(s: seq<real>, x: real)
    requires forall i | 0 <= i < |s| :: s[i] <= x
    ensures CountAbove(s, x) == 0
  {
    if s != [] {
      CountAboveNone(s[1..], x);
    }
  }

  // ---- Tables: one list of marginal values a class, entry `k - 1` for its `k`-th seat.

  function Merged(tables: seq<seq<real>>): seq<real> {
    if tables == [] then [] else Merged(tables[..|tables| - 1]) + tables[|tables| - 1]
  }

  /** The `c` highest of all values, from high to low. */
  function BidPriceVector(tables: seq<seq<real>>, c: nat): (r: seq<real>)
    requires c <= |Merged(tables)|
    ensures |r| == c
  {
    SortDown(Merged(tables))[..c]
  }

  /** Class `i` is given its first `seats[i]` seats. */
  ghost predicate Allocation(tables: seq<seq<real>>, seats: seq<nat>) {
    |seats| == |tables| && forall i | 0 <= i < |seats| :: seats[i] <= |tables[i]|
  }

  function Seats(seats: seq<nat>): nat {
    if seats == [] then 0 else Seats(seats[..|seats| - 1]) + seats[|seats| - 1]
  }

  ghost function TotalValue(tables: seq<seq<real>>, seats: seq<nat>): real
    requires Allocation(tables, seats)
  {
    if tables == [] then 0.0
    else
      var n := |tables| - 1;
      TotalValue(tables[..n], seats[..n]) + Sum(tables[n][..seats[n]])
  }

  lemma NothingGained(x: real)
    ensures Gain([], x) == 0.0
  {
  }

  lemma {:induction false} ValueBelowGain(tables: seq<seq<real>>, seats: seq<nat>, x: real)
    requires Allocation(tables, seats)
    ensures TotalValue(tables, seats) <= Gain(Merged(tables), x) + Worth(Seats(seats), x)
  {
    hide Worth, Gain, Sum, CountAbove, CountAtLeast, NonIncreasing, AllAtLeast, AllAtMost;
    WorthAdd(0, 0, x);
    NothingGained(x);
    if tables != [] {
      var n := |tables| - 1;
      ValueBelowGain(tables[..n], seats[..n], x);
      PrefixGain(tables[n], seats[n], x);
      GainAppend(Merged(tables[..n]), tables[n], x);
      WorthAdd(Seats(seats[..n]), seats[n], x);
    }
  }

  /** Seats that stop inside the ties at `x` reach that bound. */
  ghost predicate StopsAt(tables: seq<seq<real>>, seats: seq<nat>, x: real) {
    |seats| == |tables|
    && forall i | 0 <= i < |seats| :: CountAbove(tables[i], x) <= seats[i] <= CountAtLeast(tables[i], x)
  }

  lemma {:induction false} ValueReachesGain(tables: seq<seq<real>>, seats: seq<nat>, x: real)
    requires Allocation(tables, seats) && StopsAt(tables, seats, x)
    requires forall i | 0 <= i < |tables| :: NonIncreasing(tables[i])
    ensures TotalValue(tables, seats) == Gain(Merged(tables), x) + Worth(Seats(seats), x)
  {
    hide Worth, Gain, Sum, CountAbove, CountAtLeast, NonIncreasing, AllAtLeast, AllAtMost;
    WorthAdd(0, 0, x);
    NothingGained(x);
    if tables != [] {
      var n := |tables| - 1;
      ValueReachesGain(tables[..n], seats[..n], x);
      CountSplits(tables[n], seats[n], x);
      GainSplit(tables[n], seats[n], x);
      GainAppend(Merged(tables[..n]), tables[n], x);
      WorthAdd(Seats(seats[..n]), seats[n], x);
    }
  }

  /** `c` seats can be given so that every class stops inside its ties at `x`. */
  lemma {:induction false} FillTies(tables: seq<seq<real>>, c: nat, x: real) returns (seats: seq<nat>)
    requires CountAbove(Merged(tables), x) <= c <= CountAtLeast(Merged(tables), x)
    ensures StopsAt(tables, seats, x) && Seats(seats) == c
  {
    if tables == [] {
      seats := [];
    } else {
      hide CountAbove, CountAtLeast, StopsAt, Seats;
      var n := |tables| - 1;
      var rest := Merged(tables[..n]);
      CountAboveAppend(rest, tables[n], x);
      CountAtLeastAppend(rest, tables[n], x);
      CountAboveBelowAtLeast(rest, x);
      CountAboveBelowAtLeast(tables[n], x);
      var last: nat := Min(CountAtLeast(tables[n], x), c - CountAbove(rest, x));
      var others := FillTies(tables[..n], c - last, x);
      seats := others + [last];
      StopsOneMore(tables, others, last, x);
    }
  }

  lemma StopsOneMore(tables: seq<seq<real>>, others: seq<nat>, last: nat, x: real)
    requires tables != [] && StopsAt(tables[..|tables| - 1], others, x)
    requires CountAbove(tables[|tables| - 1], x) <= last <= CountAtLeast(tables[|tables| - 1], x)
    ensures StopsAt(tables, others + [last], x) && Seats(others + [last]) == Seats(others) + last
  {
    hide CountAbove, CountAtLeast;
    assert (others + [last])[..|others|] == others;
  }

  lemma {:induction false} CountAboveBelowAtLeast(s: seq<real>, x: real)
    ensures CountAbove(s, x) <= CountAtLeast(s, x)
  {
    if s != [] {
      CountAboveBelowAtLeast(s[1..], x);
    }
  }

  // ---- The bid price vector as the best split of every number of seats.

  /** The first `c` values of a non-increasing list and the last of them. */
  lemma TopOfSorted(v: seq<real>, c: nat)
    requires NonIncreasing(v) && 0 < c <= |v|
    ensures Sum(v[..c]) == Gain(v, v[c - 1]) + Worth(c, v[c - 1])
    ensures CountAbove(v, v[c - 1]) <= c <= CountAtLeast(v, v[c - 1])
  {
    hide Worth, Gain, Sum, CountAbove, CountAtLeast;
    var x := v[c - 1];
    GainSplit(v, c, x);
    assert v == v[..c] + v[c..];
    CountAboveAppend(v[..c], v[c..], x);
    CountAboveNone(v[c..], x);
    CountAtLeastAppend(v[..c], v[c..], x);
    CountAtLeastAll(v[..c], x);
  }

  /** The same of any list and its sorted values. */
  lemma TopValues(values: seq<real>, c: nat)
    requires 0 < c <= |values|
    ensures var v := SortDown(values);
      && Sum(v[..c]) == Gain(values, v[c - 1]) + Worth(c, v[c - 1])
      && CountAbove(values, v[c - 1]) <= c <= CountAtLeast(values, v[c - 1])
  {
    hide Worth, Gain, Sum, CountAbove, CountAtLeast, Sort, Reverse, NonIncreasing;
    var x := SortDown(values)[c - 1];
    SortDownCorrect(values);
    GainReverse(Sort(values), x);
    GainSort(values, x);
    TopOfSorted(SortDown(values), c);
  }

  /** No split of at most `c` seats is worth more than the first `c` bid prices. */
  lemma BidPricesBoundEverySplit(tables: seq<seq<real>>, seats: seq<nat>, c: nat)
    requires Allocation(tables, seats) && Seats(seats) <= c <= |Merged(tables)|
    requires AllAtLeast(Merged(tables), 0.0)
    ensures TotalValue(tables, seats) <= Sum(BidPriceVector(tables, c))
  {
    hide Worth, Gain, Sum, CountAbove, CountAtLeast, Sort, Reverse, Merged, TotalValue, Seats, Allocation;
    var values := Merged(tables);
    var x := if c == 0 then MaxOf(values) else SortDown(values)[c - 1];
    ValueBelowGain(tables, seats, x);
    if c == 0 {
      GainOfLow(values, x);
      WorthAdd(0, 0, x);
      EmptySum();
    } else {
      TopValues(values, c);
      SortBound(values, 0.0);
      WorthMonotone(Seats(seats), c, x);
    }
  }

  /** A value that no entry exceeds. */
  function MaxOf(s: seq<real>): (m: real)
    ensures AllAtMost(s, m)
  {
    if s == [] then 0.0
    else var m := MaxOf(s[..|s| - 1]); if s[|s| - 1] > m then s[|s| - 1] else m
  }

  /** When marginal values fall within every class, some split of `c` seats is worth exactly that. */
  lemma BidPricesAreAttained(tables: seq<seq<real>>, c: nat) returns (seats: seq<nat>)
    requires c <= |Merged(tables)|
    requires forall i | 0 <= i < |tables| :: NonIncreasing(tables[i])
    ensures Allocation(tables, seats) && Seats(seats) == c
    ensures TotalValue(tables, seats) == Sum(BidPriceVector(tables, c))
  {
    hide Worth, Gain, Sum, CountAbove, CountAtLeast, Sort, Reverse, Merged, TotalValue, Seats, NonIncreasing;
    var values := Merged(tables);
    var x := if c == 0 then MaxOf(values) else SortDown(values)[c - 1];
    if c == 0 {
      CountAboveNone(values, x);
      GainOfLow(values, x);
      WorthAdd(0, 0, x);
      EmptySum();
    } else {
      TopValues(values, c);
    }
    seats := FillTies(tables, c, x);
    ValueReachesGain(tables, seats, x);
  }
}
