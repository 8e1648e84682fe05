/** Sums over lists of classes, which do not depend on the order of the list. */
module Totals {

  ghost function Total<T>(s: seq<T>, f: T -> real): real {
    if s == [] then 0.0 else Total(s[..|s| - 1], f) + f(s[|s| - 1])
  }

  /** The function that a table defines; zero outside the table. */
  ghost function Lookup<T>(m: map<T, real>): T -> real {
    x => if x in m then m[x] else 0.0
  }

  lemma LookupAt<T>(m: map<T, real>, x: T)
    requires x in m
    ensures Lookup(m)(x) == m[x]
  {
  }

  lemma {:induction false} TotalAppend<T>(s: seq<T>, t: seq<T>, f: T -> real)
    ensures Total(s + t, f) == Total(s, f) + Total(t, f)
  {
    if t == [] {
      assert s + t == s;
    } else {
      var n := |t| - 1;
      assert (s + t)[..|s + t| - 1] == s + t[..n];
      TotalAppend(s, t[..n], f);
    }
  }

  lemma TotalOne<T>(x: T, f: T -> real)
    ensures Total([x], f) == f(x)
  {
    assert [x][..0] == [];
  }

  lemma TotalPrefix<T>(s: seq<T>, f: T -> real, n: nat)
    requires n < |s|
    ensures Total(s[..n + 1], f) == Total(s[..n], f) + f(s[n]) && Total(s[..0], f) == 0.0
  {
    assert s[..n + 1][..n] == s[..n];
  }

  /** A rearrangement has the same total. */
  lemma {:induction false} TotalRearranged<T>(s: seq<T>, t: seq<T>, f: T -> real)
    requires multiset(s) == multiset(t)
    ensures Total(s, f) == Total(t, f)
  {
    if s == [] {
      assert |multiset(t)| == 0;
    } else {
      var n := |s| - 1;
      var x := s[n];
      assert s == s[..n] + [x];
      assert x in multiset(t);
      var k :| 0 <= k < |t| && t[k] == x;
      var u, v := t[..k], t[k + 1..];
      assert t == u + ([x] + v);
      RemoveOne(s[..n], u, v, x);
      TotalRearranged(s[..n], u + v, f);
      TotalAppend(u, [x] + v, f);
      TotalAppend([x], v, f);
      TotalOne(x, f);
      TotalAppend(u, v, f);
    }
  }

  lemma RemoveOne<T>(s: seq<T>, u: seq<T>, v: seq<T>, x: T)
    requires multiset(s + [x]) == multiset(u + ([x] + v))
    ensures multiset(s) == multiset(u + v)
  {
    assert multiset(s) == multiset(s + [x]) - multiset{x};
    assert multiset(u + ([x] + v)) == multiset(u) + multiset{x} + multiset(v);
  }

  lemma {:induction false} TotalZero<T>(s: seq<T>, f: T -> real)
    requires forall x | x in s :: f(x) == 0.0
    ensures Total(s, f) == 0.0
  {
    if s != [] {
      TotalZero(s[..|s| - 1], f);
    }
  }

  lemma {:induction false} TotalPositive<T>(s: seq<T>, f: T -> real)
    requires s != [] && forall x | x in s :: f(x) > 0.0
    ensures Total(s, f) > 0.0
  {
    var n := |s| - 1;
    assert f(s[n]) > 0.0;
    if n > 0 {
      TotalPositive(s[..n], f);
    } else {
      TotalPrefix(s, f, 0);
    }
  }

  /** A list whose first entry alone counts. */
  lemma TotalOfFirst<T>(s: seq<T>, f: T -> real)
    requires s != [] && forall i | 1 <= i < |s| :: f(s[i]) == 0.0
    ensures Total(s, f) == f(s[0])
  {
    assert s == [s[0]] + s[1..];
    TotalAppend([s[0]], s[1..], f);
    TotalOne(s[0], f);
    TotalZero(s[1..], f);
  }

  lemma {:induction false} TotalEqual<T>(s: seq<T>, f: T -> real, g: T -> real)
    requires forall x | x in s :: f(x) == g(x)
    ensures Total(s, f) == Total(s, g)
  {
    if s != [] {
      TotalEqual(s[..|s| - 1], f, g);
    }
  }
}
