/** The reset of all forecasts of a segment-cabin before a new forecast. */
module Forecaster {
  import opened Sequences
  import opened Inventory
  import opened NewQFF

  ghost predicate ZeroClass(c: BookingClass)
    reads c`mean, c`variance, c`priceMean, c`priceVariance, c`productMean, c`productVariance, c`cumuMean, c`cumuVariance
  {
    && c.mean == 0.0 && c.variance == 0.0
    && c.priceMean == 0.0 && c.priceVariance == 0.0
    && c.productMean == 0.0 && c.productVariance == 0.0
    && c.cumuMean == 0.0 && c.cumuVariance == 0.0
  }

  method ZeroClasses(classes: seq<BookingClass>)
    modifies classes`mean, classes`variance, classes`priceMean, classes`priceVariance,
      classes`productMean, classes`productVariance, classes`cumuMean, classes`cumuVariance
    ensures forall i | 0 <= i < |classes| :: ZeroClass(classes[i])
    ensures forall c: BookingClass | old(allocated(c)) && old(ZeroClass(c)) :: ZeroClass(c)
  {
    for i := 0 to |classes|
      invariant forall k | 0 <= k < i :: ZeroClass(classes[k])
      invariant forall c: BookingClass | old(allocated(c)) && old(ZeroClass(c)) :: ZeroClass(c)
    {
      var c := classes[i];
      c.mean, c.variance := 0.0, 0.0;
      c.priceMean, c.priceVariance := 0.0, 0.0;
      c.productMean, c.productVariance := 0.0, 0.0;
      c.cumuMean, c.cumuVariance := 0.0, 0.0;
    }
  }

  /** A family without demand, in itself and in its classes. */
  ghost predicate ZeroFamily(family: FareFamily)
    reads family`mean, family`variance
    reads family.classes
  {
    family.mean == 0.0 && family.variance == 0.0
    && forall i | 0 <= i < |family.classes| :: ZeroClass(family.classes[i])
  }

  /** Sets the forecasts of all families and of all their classes to zero. */
  method SetDemandForecastsToZero(cabin: SegmentCabin)
    modifies cabin.families`mean, cabin.families`variance
    modifies MembersOf(cabin.families)`mean, MembersOf(cabin.families)`variance,
      MembersOf(cabin.families)`priceMean, MembersOf(cabin.families)`priceVariance,
      MembersOf(cabin.families)`productMean, MembersOf(cabin.families)`productVariance,
      MembersOf(cabin.families)`cumuMean, MembersOf(cabin.families)`cumuVariance
    ensures forall i | 0 <= i < |cabin.families| :: ZeroFamily(cabin.families[i])
  {
    hide ZeroClass;
    for i := 0 to |cabin.families|
      invariant forall j | 0 <= j < i :: ZeroFamily(cabin.families[j])
    {
      var family := cabin.families[i];
      family.mean := 0.0;
      family.variance := 0.0;
      ZeroClasses(family.classes);
    }
  }

  /** A family without demand agrees with its classes. */
  lemma ZeroFamilyAgrees(family: FareFamily)
    requires ZeroFamily(family)
    ensures FamilyAgrees(family)
  {
    hide Agrees;
    var k := |family.classes|;
    forall i | 0 <= i < k
      ensures PriceMeans(family.classes)[i] == PriceVariances(family.classes)[i] == 0.0
      ensures CumuMeans(family.classes)[i] == CumuVariances(family.classes)[i] == 0.0
    {
      assert ZeroClass(family.classes[i]);
    }
    ZeroAgrees(k);
    assert PriceMeans(family.classes) == Zeros(k) && PriceVariances(family.classes) == Zeros(k);
    assert CumuMeans(family.classes) == Zeros(k) && CumuVariances(family.classes) == Zeros(k);
  }
}
