/**
 * Sell-up and dispatching factors of the classes of a family, from the highest
 * class to the lowest, at one willingness-to-pay (FRAT5) value.
 */
module DemandCurves {
  import opened Sequences

  /** The exponential function and the logarithm of one half, as far as the factors need them. */
  datatype Numerics = Numerics(exp: real -> real, logHalf: real)

  ghost predicate IsExponential(n: Numerics) {
    && n.exp(0.0) == 1.0 && n.logHalf < 0.0
    && (forall x: real, y: real | x < y :: n.exp(x) < n.exp(y))
    && (forall x: real :: n.exp(x) > 0.0)
  }

  /** The exponent of the sell-up formula. */
  function SellUpExponent(n: Numerics, y: real, lowest: real, frat5: real): real
    requires lowest != 0.0 && frat5 != 1.0
  {
    (y / lowest - 1.0) * (n.logHalf / (frat5 - 1.0))
  }

  /** The probability of selling up from the lowest yield to the current one. */
  function SellUpProbability(n: Numerics, y: real, lowest: real, frat5: real): real
    requires lowest != 0.0 && frat5 != 1.0
  {
    n.exp(SellUpExponent(n, y, lowest, frat5))
  }

  /** What the divisions of the sell-up formula ask for. */
  predicate Divides(ys: seq<real>, frat5: real) {
    ys != [] && (|ys| > 1 ==> ys[|ys| - 1] != 0.0 && frat5 != 1.0)
  }

  /** The sell-up factor of class `k`; the lowest class has factor 1. */
  function SellUp(n: Numerics, ys: seq<real>, frat5: real, k: nat): real
    requires Divides(ys, frat5) && k < |ys|
  {
    if k == |ys| - 1 then 1.0 else SellUpProbability(n, ys[k], ys[|ys| - 1], frat5)
  }

  /** The dispatching factor of class `k`: its sell-up factor beyond that of the next higher class. */
  function Dispatching(n: Numerics, ys: seq<real>, frat5: real, k: nat): real
    requires Divides(ys, frat5) && k < |ys|
  {
    if k == 0 then SellUp(n, ys, frat5, 0) else SellUp(n, ys, frat5, k) - SellUp(n, ys, frat5, k - 1)
  }

  /** The dispatching factors of the `k` highest classes. */
  function DispatchingFactors(n: Numerics, ys: seq<real>, frat5: real, k: nat): (r: seq<real>)
    requires Divides(ys, frat5) && k <= |ys|
    ensures |r| == k
    ensures forall i | 0 <= i < k :: r[i] == Dispatching(n, ys, frat5, i)
  {
    if k == 0 then [] else DispatchingFactors(n, ys, frat5, k - 1) + [Dispatching(n, ys, frat5, k - 1)]
  }

  function SellUpFactors(n: Numerics, ys: seq<real>, frat5: real, k: nat): (r: seq<real>)
    requires Divides(ys, frat5) && k <= |ys|
    ensures |r| == k
    ensures forall i | 0 <= i < k :: r[i] == SellUp(n, ys, frat5, i)
  {
    if k == 0 then [] else SellUpFactors(n, ys, frat5, k - 1) + [SellUp(n, ys, frat5, k - 1)]
  }

  /** The factors of a class and all higher classes add up to the class's sell-up factor. */
  lemma {:induction false} DispatchingTelescopes(n: Numerics, ys: seq<real>, frat5: real, k: nat)
    requires Divides(ys, frat5) && k < |ys|
    ensures Sum(DispatchingFactors(n, ys, frat5, k + 1)) == SellUp(n, ys, frat5, k)
  {
    hide SellUp;
    var r := DispatchingFactors(n, ys, frat5, k + 1);
    assert r[..k] == DispatchingFactors(n, ys, frat5, k);
    if k > 0 {
      DispatchingTelescopes(n, ys, frat5, k - 1);
    }
  }

  /** All factors of a family add up to 1. */
  lemma DispatchingSumsToOne(n: Numerics, ys: seq<real>, frat5: real)
    requires Divides(ys, frat5)
    ensures Sum(DispatchingFactors(n, ys, frat5, |ys|)) == 1.0
  {
    DispatchingTelescopes(n, ys, frat5, |ys| - 1);
  }

  /** Positive yields that never rise from the highest class to the lowest. */
  ghost predicate YieldsOrdered(ys: seq<real>) {
    ys != [] && NonIncreasing(ys) && ys[|ys| - 1] > 0.0
  }

  lemma ExponentFalls(n: Numerics, y: real, z: real, lowest: real, frat5: real)
    requires n.logHalf < 0.0 && y >= z >= lowest > 0.0 && frat5 > 1.0
    ensures SellUpExponent(n, y, lowest, frat5) <= SellUpExponent(n, z, lowest, frat5) <= 0.0
    ensures y > z ==> SellUpExponent(n, y, lowest, frat5) < SellUpExponent(n, z, lowest, frat5)
    ensures z == lowest ==> SellUpExponent(n, z, lowest, frat5) == 0.0
  {
    var coef := n.logHalf / (frat5 - 1.0);
    var a, b := y / lowest - 1.0, z / lowest - 1.0;
    NegativeQuotient(n.logHalf, frat5 - 1.0);
    DivMono(z, y, lowest);
    if y > z { DivStrict(z, y, lowest); }
    DivLe(z, 1.0, lowest);
    ProductFalls(a, b, coef);
    if z == lowest { assert z / lowest == 1.0; }
  }

  lemma NegativeQuotient(a: real, c: real)
    requires a < 0.0 && c > 0.0
    ensures a / c < 0.0
  {
    DivStrict(a, 0.0, c);
  }

  lemma DivStrict(a: real, b: real, c: real)
    requires a < b && c > 0.0
    ensures a / c < b / c
  {
    DivMul(a, c);
    DivMul(b, c);
    DivMono(a, b, c);
  }

  lemma ProductFalls(a: real, b: real, coef: real)
    requires a >= b >= 0.0 && coef < 0.0
    ensures a * coef <= b * coef <= 0.0 && (a > b ==> a * coef < b * coef)
  {
    MulMono(b, a, -coef);
    MulMono(0.0, b, -coef);
    if a > b { MulStrict(b, a, -coef); }
    assert a * coef == -(a * -coef) && b * coef == -(b * -coef);
  }

  /** A higher yield sells up less often, the lowest yield always. */
  lemma SellUpFalls(n: Numerics, y: real, z: real, lowest: real, frat5: real)
    requires IsExponential(n) && y >= z >= lowest > 0.0 && frat5 > 1.0
    ensures 0.0 < SellUpProbability(n, y, lowest, frat5) <= SellUpProbability(n, z, lowest, frat5) <= 1.0
    ensures y > z ==> SellUpProbability(n, y, lowest, frat5) < SellUpProbability(n, z, lowest, frat5)
    ensures z == lowest ==> SellUpProbability(n, z, lowest, frat5) == 1.0
  {
    ExponentFalls(n, y, z, lowest, frat5);
    var a, b := SellUpExponent(n, y, lowest, frat5), SellUpExponent(n, z, lowest, frat5);
    assert SellUpProbability(n, y, lowest, frat5) == n.exp(a) && SellUpProbability(n, z, lowest, frat5) == n.exp(b);
    hide SellUpExponent, SellUpProbability;
    assert n.exp(a) <= n.exp(b) <= n.exp(0.0);
  }

  /**
   * With ordered yields and a FRAT5 above 1 every dispatching factor is a share
   * between 0 and 1, and it is positive for the highest class and for every class
   * with a yield below that of the next higher one, and for no other.
   */
  lemma DispatchingIsShare(n: Numerics, ys: seq<real>, frat5: real, k: nat)
    requires IsExponential(n) && YieldsOrdered(ys) && frat5 > 1.0 && k < |ys|
    ensures 0.0 <= Dispatching(n, ys, frat5, k) <= 1.0
    ensures 0.0 < Dispatching(n, ys, frat5, k) <==> k == 0 || ys[k] < ys[k - 1]
    ensures 0.0 < SellUp(n, ys, frat5, k) <= 1.0
  {
    hide SellUpProbability;
    var lowest := ys[|ys| - 1];
    SellUpFalls(n, ys[k], ys[k], lowest, frat5);
    if k > 0 {
      SellUpFalls(n, ys[k - 1], ys[k], lowest, frat5);
    }
  }

  // ---- What FRAT5 means.

  /** The exponential turns sums into products, and one half is that of its logarithm. */
  ghost predicate HasLogarithm(n: Numerics) {
    && n.exp(n.logHalf) == 0.5 && n.exp(0.0) == 1.0
    && forall x: real, z: real :: n.exp(x + z) == n.exp(x) * n.exp(z)
  }

  lemma ExponentSteps(n: Numerics, y: real, z: real, lowest: real, frat5: real)
    requires lowest != 0.0 && frat5 != 1.0
    ensures SellUpExponent(n, y + z - lowest, lowest, frat5)
      == SellUpExponent(n, y, lowest, frat5) + SellUpExponent(n, z, lowest, frat5)
  {
    var coef := n.logHalf / (frat5 - 1.0);
    var a, b := y / lowest, z / lowest;
    DivMul(y, lowest);
    DivMul(z, lowest);
    assert (y + z - lowest) / lowest == a + b - 1.0 by {
      QuotientIs(y + z - lowest, a + b - 1.0, lowest);
    }
    assert (a + b - 2.0) * coef == (a - 1.0) * coef + (b - 1.0) * coef;
  }

  lemma QuotientIs(x: real, q: real, c: real)
    requires c != 0.0 && x == q * c
    ensures x / c == q
  {
    DivMul(x, c);
    assert (x / c - q) * c == 0.0;
  }

  /** Selling up over two steps in yield has the product of their probabilities. */
  lemma SellUpSteps(n: Numerics, y: real, z: real, lowest: real, frat5: real)
    requires HasLogarithm(n) && lowest != 0.0 && frat5 != 1.0
    ensures SellUpProbability(n, y + z - lowest, lowest, frat5)
      == SellUpProbability(n, y, lowest, frat5) * SellUpProbability(n, z, lowest, frat5)
  {
    hide SellUpExponent;
    ExponentSteps(n, y, z, lowest, frat5);
  }

  /** FRAT5 is the multiple of the lowest yield at which half of the passengers sell up. */
  lemma HalfSellUpAtFrat5(n: Numerics, lowest: real, frat5: real)
    requires HasLogarithm(n) && lowest != 0.0 && frat5 != 1.0
    ensures SellUpProbability(n, frat5 * lowest, lowest, frat5) == 0.5
    ensures SellUpProbability(n, lowest, lowest, frat5) == 1.0
  {
    QuotientIs(frat5 * lowest, frat5, lowest);
    QuotientIs(lowest, 1.0, lowest);
    DivMul(n.logHalf, frat5 - 1.0);
    assert (frat5 - 1.0) * (n.logHalf / (frat5 - 1.0)) == n.logHalf;
  }

  /** One half, `m` times. */
  function Halved(m: nat): real {
    if m == 0 then 1.0 else Halved(m - 1) / 2.0
  }

  /** The yield `m` times the span from the lowest yield to FRAT5 above the lowest. */
  function Spans(lowest: real, frat5: real, m: nat): real {
    lowest + m as real * (frat5 * lowest - lowest)
  }

  /** Every such span halves the probability. */
  lemma {:induction false} SellUpHalves(n: Numerics, lowest: real, frat5: real, m: nat)
    requires HasLogarithm(n) && lowest != 0.0 && frat5 != 1.0
    ensures SellUpProbability(n, Spans(lowest, frat5, m), lowest, frat5) == Halved(m)
  {
    hide SellUpProbability;
    HalfSellUpAtFrat5(n, lowest, frat5);
    if m == 0 {
      assert Spans(lowest, frat5, 0) == lowest;
    } else {
      SellUpHalves(n, lowest, frat5, m - 1);
      SellUpSteps(n, Spans(lowest, frat5, m - 1), frat5 * lowest, lowest, frat5);
      OneMoreSpan(lowest, frat5, m - 1);
    }
  }

  lemma OneMoreSpan(lowest: real, frat5: real, m: nat)
    ensures Spans(lowest, frat5, m + 1) == Spans(lowest, frat5, m) + frat5 * lowest - lowest
  {
    var d := frat5 * lowest - lowest;
    assert (m + 1) as real * d == m as real * d + d;
  }

  /**
   * In a family the sell-up factor of a class whose yield is `m` such spans above
   * the lowest is one half, `m` times.
   */
  lemma FamilySellUpHalves(n: Numerics, ys: seq<real>, frat5: real, k: nat, m: nat)
    requires HasLogarithm(n) && Divides(ys, frat5) && k < |ys|
    requires ys[|ys| - 1] != 0.0 && frat5 != 1.0 && ys[k] == Spans(ys[|ys| - 1], frat5, m)
    ensures SellUp(n, ys, frat5, k) == Halved(m)
  {
    hide SellUpProbability;
    SellUpHalves(n, ys[|ys| - 1], frat5, m);
    if k == |ys| - 1 {
      HalfSellUpAtFrat5(n, ys[k], frat5);
    }
  }
}
