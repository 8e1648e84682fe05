/** Factor curves over the data collection points, and the dispatch of a forecast to the classes. */
module Utilities {
  import opened Sequences
  import opened Inventory
  import opened DemandCurves

  type Curve = map<int, real>
  type CurveMap = map<BookingClass, Curve>

  function YieldsOf(classes: seq<BookingClass>): (ys: seq<real>)
    reads classes`unitYield
    ensures |ys| == |classes|
    ensures forall i | 0 <= i < |ys| :: ys[i] == classes[i].unitYield
  {
    if classes == [] then [] else YieldsOf(classes[..|classes| - 1]) + [classes[|classes| - 1].unitYield]
  }

  /** The divisions of the factor formulas are defined at every point of the curve. */
  predicate CurveDivides(ys: seq<real>, frat5: Curve) {
    ys != [] && forall d | d in frat5 :: Divides(ys, frat5[d])
  }

  /** The factor of every class at every point of the curve. */
  type Factors = (nat, int) -> real

  ghost function SellUpTable(n: Numerics, ys: seq<real>, frat5: Curve): Factors
    requires CurveDivides(ys, frat5)
  {
    (k: nat, d: int) => if k < |ys| && d in frat5 then SellUp(n, ys, frat5[d], k) else 0.0
  }

  ghost function DispatchingTable(n: Numerics, ys: seq<real>, frat5: Curve): Factors
    requires CurveDivides(ys, frat5)
  {
    (k: nat, d: int) => if k < |ys| && d in frat5 then Dispatching(n, ys, frat5[d], k) else 0.0
  }

  /** The curve of class `k` has its factor at every point. */
  ghost predicate IsCurve(curve: Curve, frat5: Curve, f: Factors, k: nat) {
    forall d | d in frat5 :: d in curve && curve[d] == f(k, d)
  }

  /** The curves of the classes from position `k` on, and no others. */
  ghost predicate HoldsFrom(m: CurveMap, classes: seq<BookingClass>, k: nat, frat5: Curve, f: Factors) {
    && k <= |classes|
    && (forall c | c in m :: c in classes[k..]) && (forall c | c in classes[k..] :: c in m)
    && forall i: nat | k <= i < |classes| :: IsCurve(m[classes[i]], frat5, f, i)
  }

  lemma HoldsMore(m: CurveMap, classes: seq<BookingClass>, k: nat, frat5: Curve, f: Factors, curve: Curve)
    requires Distinct(classes) && 0 < k && HoldsFrom(m, classes, k, frat5, f) && IsCurve(curve, frat5, f, k - 1)
    ensures HoldsFrom(m[classes[k - 1] := curve], classes, k - 1, frat5, f)
  {
    hide IsCurve;
    assert classes[k - 1..] == [classes[k - 1]] + classes[k..];
  }

  lemma HoldsNone(classes: seq<BookingClass>, frat5: Curve, f: Factors)
    ensures HoldsFrom(map[], classes, |classes|, frat5, f)
  {
  }

  /** A curve of 1.0 at every point. */
  method UnitCurve(frat5: Curve) returns (curve: Curve)
    ensures curve.Keys == frat5.Keys && forall d | d in frat5 :: curve[d] == 1.0
  {
    curve := map[];
    var left := frat5.Keys;
    while exists d :: d in left
      invariant left <= frat5.Keys && curve.Keys == frat5.Keys - left
      invariant forall d | d in curve :: curve[d] == 1.0
      decreases left
    {
      var d: int :| d in left;
      curve := curve[d := 1.0];
      left := left - {d};
    }
    assert forall d | d in frat5 :: d in curve;
  }

  /** The sell-up curve of one class above the lowest. */
  method ClassSellUpCurve(n: Numerics, frat5: Curve, y: real, lowest: real) returns (curve: Curve)
    requires forall d | d in frat5 :: lowest != 0.0 && frat5[d] != 1.0
    ensures curve.Keys == frat5.Keys
    ensures forall d | d in frat5 :: curve[d] == SellUpProbability(n, y, lowest, frat5[d])
  {
    hide SellUpProbability;
    curve := map[];
    var left := frat5.Keys;
    while exists d :: d in left
      invariant left <= frat5.Keys && curve.Keys == frat5.Keys - left
      invariant forall d | d in curve :: curve[d] == SellUpProbability(n, y, lowest, frat5[d])
      decreases left
    {
      var d: int :| d in left;
      curve := curve[d := SellUpProbability(n, y, lowest, frat5[d])];
      left := left - {d};
    }
    assert forall d | d in frat5 :: d in curve;
  }

  /** The tables at the lowest class, at a higher one, and the dispatching as a difference. */
  lemma TablesAt(n: Numerics, ys: seq<real>, frat5: Curve, k: nat, d: int)
    requires CurveDivides(ys, frat5) && k < |ys| && d in frat5
    ensures k == |ys| - 1 ==> SellUpTable(n, ys, frat5)(k, d) == 1.0
    ensures k < |ys| - 1 ==>
      (&& ys[|ys| - 1] != 0.0 && frat5[d] != 1.0
       && SellUpTable(n, ys, frat5)(k, d) == SellUpProbability(n, ys[k], ys[|ys| - 1], frat5[d]))
    ensures DispatchingTable(n, ys, frat5)(k, d)
      == SellUpTable(n, ys, frat5)(k, d) - if k == 0 then 0.0 else SellUpTable(n, ys, frat5)(k - 1, d)
  {
    hide SellUpProbability;
    assert Divides(ys, frat5[d]);
  }

  lemma LowestCurve(n: Numerics, ys: seq<real>, frat5: Curve, unit: Curve)
    requires CurveDivides(ys, frat5) && unit.Keys == frat5.Keys && forall d | d in frat5 :: unit[d] == 1.0
    ensures IsCurve(unit, frat5, SellUpTable(n, ys, frat5), |ys| - 1)
  {
    hide SellUpTable;
    forall d | d in frat5
      ensures unit[d] == SellUpTable(n, ys, frat5)(|ys| - 1, d)
    {
      TablesAt(n, ys, frat5, |ys| - 1, d);
    }
  }

  /** The probabilities against the lowest yield are the curve of a class above it. */
  lemma HigherCurve(n: Numerics, ys: seq<real>, frat5: Curve, k: nat, curve: Curve)
    requires CurveDivides(ys, frat5) && k < |ys| - 1 && curve.Keys == frat5.Keys
    requires forall d | d in frat5 ::
      (&& ys[|ys| - 1] != 0.0 && frat5[d] != 1.0
       && curve[d] == SellUpProbability(n, ys[k], ys[|ys| - 1], frat5[d]))
    ensures IsCurve(curve, frat5, SellUpTable(n, ys, frat5), k)
  {
    hide SellUpTable, SellUpProbability;
    forall d | d in frat5
      ensures curve[d] == SellUpTable(n, ys, frat5)(k, d)
    {
      TablesAt(n, ys, frat5, k, d);
    }
  }

  lemma AboveLowest(ys: seq<real>, frat5: Curve, k: nat)
    requires CurveDivides(ys, frat5) && k < |ys| - 1
    ensures forall d | d in frat5 :: ys[|ys| - 1] != 0.0 && frat5[d] != 1.0
  {
    forall d | d in frat5
      ensures ys[|ys| - 1] != 0.0 && frat5[d] != 1.0
    {
      assert Divides(ys, frat5[d]);
    }
  }

  /** From the lowest class up, the sell-up curve of every class. */
  method ComputeSellUpFactorCurves(n: Numerics, frat5: Curve, classes: seq<BookingClass>) returns (m: CurveMap)
    requires Distinct(classes) && CurveDivides(YieldsOf(classes), frat5)
    ensures HoldsFrom(m, classes, 0, frat5, SellUpTable(n, YieldsOf(classes), frat5))
  {
    hide SellUpProbability, SellUpTable, HoldsFrom, IsCurve;
    ghost var ys := YieldsOf(classes);
    ghost var f := SellUpTable(n, ys, frat5);
    var k := |classes| - 1;
    var lowest := classes[k].unitYield;
    var unit := UnitCurve(frat5);
    LowestCurve(n, ys, frat5, unit);
    m := map[];
    HoldsNone(classes, frat5, f);
    HoldsMore(m, classes, k + 1, frat5, f, unit);
    m := m[classes[k] := unit];
    while k > 0
      invariant 0 <= k < |classes| && HoldsFrom(m, classes, k, frat5, f)
    {
      AboveLowest(ys, frat5, k - 1);
      k := k - 1;
      var curve := ClassSellUpCurve(n, frat5, classes[k].unitYield, lowest);
      HigherCurve(n, ys, frat5, k, curve);
      HoldsMore(m, classes, k + 1, frat5, f, curve);
      m := m[classes[k] := curve];
    }
  }

  /** The dispatching curve of a class below the next one, whose sell-up curve becomes the new base. */
  method ClassDispatchingCurve(n: Numerics, frat5: Curve, y: real, lowest: real, base: Curve)
    returns (curve: Curve, newBase: Curve)
    requires forall d | d in frat5 :: lowest != 0.0 && frat5[d] != 1.0
    requires base.Keys == frat5.Keys
    ensures newBase.Keys == curve.Keys == frat5.Keys
    ensures forall d | d in frat5 :: newBase[d] == SellUpProbability(n, y, lowest, frat5[d])
    ensures forall d | d in frat5 :: curve[d] == base[d] - SellUpProbability(n, y, lowest, frat5[d])
  {
    hide SellUpProbability;
    curve, newBase := map[], base;
    var left := frat5.Keys;
    while exists d :: d in left
      invariant left <= frat5.Keys && curve.Keys == frat5.Keys - left && newBase.Keys == frat5.Keys
      invariant forall d | d in curve :: curve[d] == base[d] - SellUpProbability(n, y, lowest, frat5[d])
      invariant forall d | d in curve :: newBase[d] == SellUpProbability(n, y, lowest, frat5[d])
      invariant forall d | d in left :: newBase[d] == base[d]
      decreases left
    {
      var d: int :| d in left;
      var factor := SellUpProbability(n, y, lowest, frat5[d]);
      curve := curve[d := newBase[d] - factor];
      newBase := newBase[d := factor];
      left := left - {d};
    }
    assert forall d | d in frat5 :: d in curve;
  }

  /** Subtracting the next base from the base gives the dispatching curve. */
  lemma DifferenceCurve(n: Numerics, ys: seq<real>, frat5: Curve, k: nat, base: Curve, next: Curve, curve: Curve)
    requires CurveDivides(ys, frat5) && 0 < k < |ys|
    requires IsCurve(base, frat5, SellUpTable(n, ys, frat5), k)
    requires IsCurve(next, frat5, SellUpTable(n, ys, frat5), k - 1)
    requires curve.Keys == frat5.Keys && forall d | d in frat5 :: curve[d] == base[d] - next[d]
    ensures IsCurve(curve, frat5, DispatchingTable(n, ys, frat5), k)
  {
    hide SellUpTable, DispatchingTable;
    forall d | d in frat5
      ensures curve[d] == DispatchingTable(n, ys, frat5)(k, d)
    {
      TablesAt(n, ys, frat5, k, d);
    }
  }

  lemma HighestCurve(n: Numerics, ys: seq<real>, frat5: Curve, base: Curve)
    requires CurveDivides(ys, frat5) && IsCurve(base, frat5, SellUpTable(n, ys, frat5), 0)
    ensures IsCurve(base, frat5, DispatchingTable(n, ys, frat5), 0)
  {
    hide SellUpTable, DispatchingTable;
    forall d | d in frat5
      ensures d in base && base[d] == DispatchingTable(n, ys, frat5)(0, d)
    {
      TablesAt(n, ys, frat5, 0, d);
    }
  }

  /**
   * From the lowest class up, the dispatching curve of every class. The base
   * curve starts at 1.0 and is the sell-up curve of the class in hand.
   */
  method ComputeDispatchingFactorCurves(n: Numerics, frat5: Curve, classes: seq<BookingClass>) returns (m: CurveMap)
    requires Distinct(classes) && CurveDivides(YieldsOf(classes), frat5)
    ensures HoldsFrom(m, classes, 0, frat5, DispatchingTable(n, YieldsOf(classes), frat5))
  {
    hide SellUpProbability, SellUpTable, DispatchingTable, HoldsFrom, IsCurve;
    ghost var ys := YieldsOf(classes);
    ghost var f := DispatchingTable(n, ys, frat5);
    var k := |classes| - 1;
    var lowest := classes[k].unitYield;
    var base := UnitCurve(frat5);
    LowestCurve(n, ys, frat5, base);
    m := map[];
    HoldsNone(classes, frat5, f);
    while k > 0
      invariant 0 <= k < |classes| && HoldsFrom(m, classes, k + 1, frat5, f)
      invariant base.Keys == frat5.Keys && IsCurve(base, frat5, SellUpTable(n, ys, frat5), k)
    {
      AboveLowest(ys, frat5, k - 1);
      var curve, newBase := ClassDispatchingCurve(n, frat5, classes[k - 1].unitYield, lowest, base);
      HigherCurve(n, ys, frat5, k - 1, newBase);
      DifferenceCurve(n, ys, frat5, k, base, newBase, curve);
      HoldsMore(m, classes, k + 1, frat5, f, curve);
      m := m[classes[k] := curve];
      base := newBase;
      k := k - 1;
    }
    HighestCurve(n, ys, frat5, base);
    HoldsMore(m, classes, 1, frat5, f, base);
    m := m[classes[0] := base];
  }

  /** The factors at one point are defined and not negative, so their square roots are. */
  ghost predicate SharesAt(m: CurveMap, dcp: int) {
    forall c | c in m :: dcp in m[c] && m[c][dcp] >= 0.0
  }

  /** A demand with a share of a forecast added. */
  function WithShare(demand: real, forecast: real, share: real): real {
    demand + forecast * share
  }

  lemma SharesDefined(m: CurveMap, dcp: int)
    requires SharesAt(m, dcp)
    ensures forall c | c in m :: dcp in m[c]
  {
  }

  /** Adds every class's share of a forecast to its price-oriented demand. */
  method DispatchDemandForecast(m: CurveMap, mean: real, variance: real, dcp: int)
    requires SharesAt(m, dcp)
    modifies m.Keys`priceMean, m.Keys`priceVariance
    ensures forall c | c in m :: c.priceMean == WithShare(old(c.priceMean), mean, m[c][dcp])
    ensures forall c | c in m :: c.priceVariance == WithShare(old(c.priceVariance), variance, m[c][dcp])
  {
    hide WithShare, SharesAt;
    assert forall c | c in m :: dcp in m[c] by { SharesDefined(m, dcp); }
    var left := m.Keys;
    while exists c :: c in left
      invariant left <= m.Keys
      invariant forall c | c in left :: c.priceMean == old(c.priceMean) && c.priceVariance == old(c.priceVariance)
      invariant forall c | c in m && c !in left :: c.priceMean == WithShare(old(c.priceMean), mean, m[c][dcp])
      invariant forall c | c in m && c !in left ::
        c.priceVariance == WithShare(old(c.priceVariance), variance, m[c][dcp])
      decreases left
    {
      var c: BookingClass :| c in left;
      c.priceMean := WithShare(c.priceMean, mean, m[c][dcp]);
      c.priceVariance := WithShare(c.priceVariance, variance, m[c][dcp]);
      left := left - {c};
    }
  }

  /** Adds every class's sell-up share of a forecast to its cumulative demand. */
  method DispatchDemandForecastForFA(m: CurveMap, mean: real, variance: real, dcp: int)
    requires SharesAt(m, dcp)
    modifies m.Keys`cumuMean, m.Keys`cumuVariance
    ensures forall c | c in m :: c.cumuMean == WithShare(old(c.cumuMean), mean, m[c][dcp])
    ensures forall c | c in m :: c.cumuVariance == WithShare(old(c.cumuVariance), variance, m[c][dcp])
  {
    hide WithShare, SharesAt;
    assert forall c | c in m :: dcp in m[c] by { SharesDefined(m, dcp); }
    var left := m.Keys;
    while exists c :: c in left
      invariant left <= m.Keys
      invariant forall c | c in left :: c.cumuMean == old(c.cumuMean) && c.cumuVariance == old(c.cumuVariance)
      invariant forall c | c in m && c !in left :: c.cumuMean == WithShare(old(c.cumuMean), mean, m[c][dcp])
      invariant forall c | c in m && c !in left :: c.cumuVariance == WithShare(old(c.cumuVariance), variance, m[c][dcp])
      decreases left
    {
      var c: BookingClass :| c in left;
      c.cumuMean := WithShare(c.cumuMean, mean, m[c][dcp]);
      c.cumuVariance := WithShare(c.cumuVariance, variance, m[c][dcp]);
      left := left - {c};
    }
  }
}
