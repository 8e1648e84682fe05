/** The demand of the policies in terms of the classes that they open. */
module PolicyDemand {
  import opened Sequences
  import opened Inventory
  import opened Totals
  import opened Nesting
  import opened PolicyHelper
  import opened NewQFF
  import opened MarginalRevenueTransformation

  lemma {:induction false} PricesAre(cs: seq<BookingClass>, f: BookingClass -> real, g: BookingClass -> real)
    requires forall i | 0 <= i < |cs| :: f(cs[i]) == cs[i].priceMean && g(cs[i]) == cs[i].priceVariance
    ensures Sum(PriceMeans(cs)) == Total(cs, f) && Sum(PriceVariances(cs)) == Total(cs, g)
  {
    if cs != [] {
      PricesAre(cs[..|cs| - 1], f, g);
      assert PriceMeans(cs)[..|cs| - 1] == PriceMeans(cs[..|cs| - 1]);
      assert PriceVariances(cs)[..|cs| - 1] == PriceVariances(cs[..|cs| - 1]);
    }
  }

  /** The price-oriented forecasts of a list of classes do not depend on its order. */
  lemma PricesRearranged(s: seq<BookingClass>, t: seq<BookingClass>)
    requires Rearranges(s, t)
    ensures Sum(PriceMeans(s)) == Sum(PriceMeans(t)) && Sum(PriceVariances(s)) == Sum(PriceVariances(t))
  {
    hide Sum, Total, Rearranges;
    var f := Lookup(map c | c in s :: c.priceMean);
    var g := Lookup(map c | c in s :: c.priceVariance);
    forall i | 0 <= i < |t|
      ensures f(t[i]) == t[i].priceMean && g(t[i]) == t[i].priceVariance
    {
      RearrangesEntry<BookingClass>(s, t, t[i]);
    }
    PricesAre(s, f, g);
    PricesAre(t, f, g);
    RearrangedTotal(s, t, f);
    RearrangedTotal(s, t, g);
  }

  lemma RearrangedTotal(s: seq<BookingClass>, t: seq<BookingClass>, f: BookingClass -> real)
    requires Rearranges(s, t)
    ensures Total(s, f) == Total(t, f)
  {
    TotalRearranged(s, t, f);
  }

  lemma PricesJoined(s: seq<BookingClass>, t: seq<BookingClass>)
    ensures Sum(PriceMeans(s + t)) == Sum(PriceMeans(s)) + Sum(PriceMeans(t))
    ensures Sum(PriceVariances(s + t)) == Sum(PriceVariances(s)) + Sum(PriceVariances(t))
  {
    hide *;
    assert PriceMeans(s + t) == PriceMeans(s) + PriceMeans(t);
    assert PriceVariances(s + t) == PriceVariances(s) + PriceVariances(t);
    SumAppend(PriceMeans(s), PriceMeans(t));
    SumAppend(PriceVariances(s), PriceVariances(t));
  }

  /** In a family that agrees, a class's cumulative forecast is that of the family down to the class. */
  lemma CumulativeIsPrefix(family: FareFamily, r: nat)
    requires FamilyAgrees(family) && r < |family.classes|
    ensures family.classes[r].cumuMean == Sum(PriceMeans(family.classes[..r + 1]))
    ensures family.classes[r].cumuVariance == Sum(PriceVariances(family.classes[..r + 1]))
  {
    hide Sum;
    var cs := family.classes;
    assert PriceMeans(cs)[..r + 1] == PriceMeans(cs[..r + 1]);
    assert PriceVariances(cs)[..r + 1] == PriceVariances(cs[..r + 1]);
    assert CumuMeans(cs)[r] == Sum(PriceMeans(cs)[..r + 1]);
    assert CumuVariances(cs)[r] == Sum(PriceVariances(cs)[..r + 1]);
  }

  lemma OpenOneMore(grid: seq<seq<BookingClass>>, classes: seq<BookingClass>, i: nat)
    requires Shaped(grid, classes) && i < |classes|
    ensures var p := LevelsOf(grid, classes);
      && FitsGrid(grid, p) && p[i] < |grid[i]| && grid[i][p[i]] == classes[i]
      && Open(grid, p, i + 1) == Open(grid, p, i) + grid[i][..p[i] + 1]
  {
  }

  /** The open classes of a policy in the first `n` families. */
  ghost function OpenIn(families: seq<FareFamily>, classes: seq<BookingClass>, n: nat): seq<BookingClass>
    requires Shaped(Grid(families), classes) && n <= |classes|
  {
    Open(Grid(families), LevelsOf(Grid(families), classes), n)
  }

  lemma OpenInStarts(families: seq<FareFamily>, classes: seq<BookingClass>)
    requires Shaped(Grid(families), classes)
    ensures OpenIn(families, classes, 0) == [] && classes[..0] == []
    ensures Sum(PriceMeans([])) == 0.0 && Sum(PriceVariances([])) == 0.0
    ensures Sum(CumuMeans(classes[..0])) == 0.0 && Sum(CumuVariances(classes[..0])) == 0.0
  {
  }

  lemma OpenInGrows(families: seq<FareFamily>, classes: seq<BookingClass>, i: nat) returns (added: seq<BookingClass>)
    requires Shaped(Grid(families), classes) && i < |classes|
    requires forall j | 0 <= j < |families| :: FamilyAgrees(families[j])
    ensures OpenIn(families, classes, i + 1) == OpenIn(families, classes, i) + added
    ensures classes[i].cumuMean == Sum(PriceMeans(added)) && classes[i].cumuVariance == Sum(PriceVariances(added))
  {
    hide Sum, PriceMeans, PriceVariances, FamilyAgrees, LevelsOf, Open;
    var p := LevelsOf(Grid(families), classes);
    OpenOneMore(Grid(families), classes, i);
    CumulativeIsPrefix(families[i], p[i]);
    added := families[i].classes[..p[i] + 1];
  }

  lemma {:induction false} DemandUpTo(families: seq<FareFamily>, classes: seq<BookingClass>, n: nat)
    requires Shaped(Grid(families), classes) && n <= |classes|
    requires forall i | 0 <= i < |families| :: FamilyAgrees(families[i])
    ensures Sum(CumuMeans(classes[..n])) == Sum(PriceMeans(OpenIn(families, classes, n)))
    ensures Sum(CumuVariances(classes[..n])) == Sum(PriceVariances(OpenIn(families, classes, n)))
  {
    hide *;
    if n == 0 {
      OpenInStarts(families, classes);
    } else {
      DemandUpTo(families, classes, n - 1);
      CumuPrefix(classes, n - 1);
      var added := OpenInGrows(families, classes, n - 1);
      PricesJoined(OpenIn(families, classes, n - 1), added);
    }
  }

  /** The classes that the policies name. */
  ghost function ClassesIn(policies: seq<Policy>): set<BookingClass> {
    set i, a | 0 <= i < |policies| && 0 <= a < |policies[i].classes| :: policies[i].classes[a]
  }

  ghost predicate CabinForecast(cabin: SegmentCabin)
    reads cabin.families`mean, cabin.families`variance
    reads MembersOf(cabin.families)`priceMean, MembersOf(cabin.families)`priceVariance
    reads MembersOf(cabin.families)`cumuMean, MembersOf(cabin.families)`cumuVariance
    reads cabin.policies`demand, cabin.policies`variance
    reads ClassesIn(cabin.policies)`cumuMean, ClassesIn(cabin.policies)`cumuVariance
  {
    && (forall i | 0 <= i < |cabin.families| :: FamilyAgrees(cabin.families[i]))
    && (forall i | 0 <= i < |cabin.policies| :: PolicyForecast(cabin.policies[i]))
  }

  /** After the forecast a policy's demand and variance are those of the classes that it opens. */
  lemma PolicyDemandIsOpenDemand(cabin: SegmentCabin, policy: Policy)
    requires CabinForecast(cabin) && policy in cabin.policies && Shaped(Grid(cabin.families), policy.classes)
    ensures var open := OpenSet(Grid(cabin.families), LevelsOf(Grid(cabin.families), policy.classes));
      policy.demand == Sum(PriceMeans(open)) && policy.variance == Sum(PriceVariances(open))
  {
    hide Sum, CumuMeans, CumuVariances, PriceMeans, PriceVariances, Open, FamilyAgrees;
    var n := |policy.classes|;
    assert policy.classes[..n] == policy.classes;
    assert PolicyForecast(policy);
    DemandUpTo(cabin.families, policy.classes, n);
  }

  /** Two policies of the cabin, the open set of the first inside that of the second. */
  ghost predicate Widens(cabin: SegmentCabin, current: Policy, next: Policy) {
    var grid := Grid(cabin.families);
    && current in cabin.policies && next in cabin.policies
    && Shaped(grid, current.classes) && Shaped(grid, next.classes)
    && Included(LevelsOf(grid, current.classes), LevelsOf(grid, next.classes))
  }

  /** The classes that the node between two policies receives. */
  ghost function NodeBetween(cabin: SegmentCabin, current: Policy, next: Policy): seq<BookingClass>
    requires Widens(cabin, current, next)
  {
    PolicyDiff(Grid(cabin.families), next, current)
  }

  /**
   * Between two policies with included open sets, the demand and the variance
   * grow by those of exactly the classes that the node between them receives.
   */
  lemma DemandGrowsByNode(cabin: SegmentCabin, current: Policy, next: Policy)
    requires CabinForecast(cabin) && Widens(cabin, current, next)
    ensures next.demand == current.demand + Sum(PriceMeans(NodeBetween(cabin, current, next)))
    ensures next.variance == current.variance + Sum(PriceVariances(NodeBetween(cabin, current, next)))
  {
    hide Sum, PriceMeans, PriceVariances, Open, OpenSet, Diff, Shaped, CabinForecast, LevelsOf;
    var grid := Grid(cabin.families);
    var p, q := LevelsOf(grid, next.classes), LevelsOf(grid, current.classes);
    PolicyDemandIsOpenDemand(cabin, current);
    PolicyDemandIsOpenDemand(cabin, next);
    NodeIsDifference<BookingClass>(grid, p, q);
    PricesJoined(Diff(grid, p, q, |p|), OpenSet(grid, q));
    assert Rearranges(Diff(grid, p, q, |p|) + OpenSet(grid, q), OpenSet(grid, p));
    PricesRearranged(Diff(grid, p, q, |p|) + OpenSet(grid, q), OpenSet(grid, p));
  }

  /** The adjusted mean and variance of a node are the forecasts of its own classes. */
  lemma NodeCarriesItsClasses(cabin: SegmentCabin, i: nat)
    requires CabinForecast(cabin) && NestedHull(cabin, cabin.hull) && Rising(cabin.hull) && i + 1 < |cabin.hull|
    requires cabin.hull[i] in cabin.policies && cabin.hull[i + 1] in cabin.policies
    ensures Edges(cabin.hull)[i].mean == Sum(PriceMeans(NodeOf(cabin, cabin.hull, i)))
    ensures Edges(cabin.hull)[i].variance == Sum(PriceVariances(NodeOf(cabin, cabin.hull, i)))
  {
    hide *;
    NodeStepWidens(cabin, i);
    DemandGrowsByNode(cabin, cabin.hull[i], cabin.hull[i + 1]);
    EdgeAt(cabin.hull, i);
    EdgeIs(cabin.hull[i], cabin.hull[i + 1]);
  }

  lemma EdgeIs(a: Policy, b: Policy)
    requires Rises(a, b)
    ensures EdgeOf(a, b).mean == b.demand - a.demand && EdgeOf(a, b).variance == b.variance - a.variance
  {
  }

  lemma NodeStepWidens(cabin: SegmentCabin, i: nat)
    requires NestedHull(cabin, cabin.hull) && i + 1 < |cabin.hull|
    requires cabin.hull[i] in cabin.policies && cabin.hull[i + 1] in cabin.policies
    ensures Widens(cabin, cabin.hull[i], cabin.hull[i + 1])
    ensures NodeBetween(cabin, cabin.hull[i], cabin.hull[i + 1]) == NodeOf(cabin, cabin.hull, i)
  {
    hide LevelsOf, Included, PolicyDiff, NodeOf, Shaped, DistinctCodes, Rearranges;
    var ps := HullLevels(cabin.families, cabin.hull);
    assert Included(ps[i], ps[i + 1]);
    NodeOfIs(cabin, cabin.hull, i);
  }

  // ---- When the assertions on demand and deviation hold.

  lemma {:induction false} SumPositive(s: seq<real>)
    requires forall i | 0 <= i < |s| :: s[i] >= 0.0
    ensures Sum(s) >= 0.0
    ensures Sum(s) > 0.0 <==> exists i :: 0 <= i < |s| && s[i] > 0.0
  {
    if s != [] {
      var n := |s| - 1;
      SumPositive(s[..n]);
      if Sum(s[..n]) > 0.0 {
        var i :| 0 <= i < n && s[..n][i] > 0.0;
        assert s[i] > 0.0;
      } else {
        assert forall i | 0 <= i < n :: s[i] == s[..n][i] <= 0.0;
      }
    }
  }

  /**
   * The adjustment asserts that demand and deviation rise along the hull. With
   * forecasts that are not negative, they do from one policy to the next exactly
   * when some class of the node has demand and some class has variance.
   */
  lemma AssertionsHoldWhenNodeHasDemand(cabin: SegmentCabin, current: Policy, next: Policy)
    requires CabinForecast(cabin) && Widens(cabin, current, next)
    requires forall c | c in NodeBetween(cabin, current, next) :: c.priceMean >= 0.0 && c.priceVariance >= 0.0
    ensures current.demand < next.demand <==> exists c :: c in NodeBetween(cabin, current, next) && c.priceMean > 0.0
    ensures current.variance < next.variance
      <==> exists c :: c in NodeBetween(cabin, current, next) && c.priceVariance > 0.0
  {
    hide *;
    DemandGrowsByNode(cabin, current, next);
    SomeClass(NodeBetween(cabin, current, next));
  }

  lemma SomeClass(cs: seq<BookingClass>)
    requires forall c | c in cs :: c.priceMean >= 0.0 && c.priceVariance >= 0.0
    ensures Sum(PriceMeans(cs)) > 0.0 <==> exists c :: c in cs && c.priceMean > 0.0
    ensures Sum(PriceVariances(cs)) > 0.0 <==> exists c :: c in cs && c.priceVariance > 0.0
  {
    hide Sum;
    SumPositive(PriceMeans(cs));
    SumPositive(PriceVariances(cs));
    if c :| c in cs && c.priceMean > 0.0 {
      var i :| 0 <= i < |cs| && cs[i] == c;
      assert PriceMeans(cs)[i] > 0.0;
    }
    if c :| c in cs && c.priceVariance > 0.0 {
      var i :| 0 <= i < |cs| && cs[i] == c;
      assert PriceVariances(cs)[i] > 0.0;
    }
  }
}
