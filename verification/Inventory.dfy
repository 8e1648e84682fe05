/**
 * The inventory objects whose fields the optimisation code reads and updates.
 * Lists that RMOL never changes are `const`; a standard deviation is carried
 * as its square, the variance.
 */
module Inventory {

  /** A booking class, with the forecasts that the demand code writes. */
  class BookingClass {
    const code: string
    var unitYield: real
    var adjustedYield: real
    var mean: real
    var variance: real
    var priceMean: real
    var priceVariance: real
    var productMean: real
    var productVariance: real
    var cumuMean: real
    var cumuVariance: real

    constructor (code: string, unitYield: real)
      ensures this.code == code && this.unitYield == unitYield
    {
      this.code := code;
      this.unitYield, adjustedYield := unitYield, unitYield;
      mean, variance, priceMean, priceVariance := 0.0, 0.0, 0.0, 0.0;
      productMean, productVariance, cumuMean, cumuVariance := 0.0, 0.0, 0.0, 0.0;
    }
  }

  /** A fare family: its classes from the highest to the lowest, and its forecast. */
  class FareFamily {
    const classes: seq<BookingClass>
    var frat5: map<int, real>
    var mean: real
    var variance: real

    constructor (classes: seq<BookingClass>, frat5: map<int, real>)
      ensures this.classes == classes && this.frat5 == frat5
    {
      this.classes := classes;
      this.frat5, mean, variance := frat5, 0.0, 0.0;
    }
  }

  /** A policy lists the lowest open class of each family that it opens. */
  class Policy {
    const classes: seq<BookingClass>
    var demand: real
    var variance: real
    var totalRevenue: real

    constructor (classes: seq<BookingClass>)
      ensures this.classes == classes
    {
      this.classes := classes;
      demand, variance, totalRevenue := 0.0, 0.0, 0.0;
    }
  }

  /** A node of the yield-based nesting structure. */
  class NestingNode {
    var classes: seq<BookingClass>
    var unitYield: real

    constructor ()
      ensures classes == []
    {
      classes, unitYield := [], 0.0;
    }
  }

  /** A segment-cabin: families, all their classes, eligible policies, convex hull and nesting nodes. */
  class SegmentCabin {
    const families: seq<FareFamily>
    const classes: seq<BookingClass>
    const policies: seq<Policy>
    var hull: seq<Policy>
    var nodes: seq<NestingNode>

    constructor (families: seq<FareFamily>, classes: seq<BookingClass>, policies: seq<Policy>)
      ensures this.families == families && this.classes == classes && this.policies == policies
    {
      this.families, this.classes, this.policies := families, classes, policies;
      hull, nodes := [], [];
    }
  }

  /** The classes of all families. */
  ghost function MembersOf(families: seq<FareFamily>): set<BookingClass> {
    set i, a | 0 <= i < |families| && 0 <= a < |families[i].classes| :: families[i].classes[a]
  }

  /** A group of booking classes that share a rounded yield. */
  class VirtualClass {
    var classes: seq<BookingClass>
    var unitYield: real
    var mean: real
    var variance: real
    var samples: seq<real>
    var protection: real
    var bookingLimit: real

    constructor (classes: seq<BookingClass>)
      ensures this.classes == classes
    {
      this.classes := classes;
      unitYield, mean, variance, samples := 0.0, 0.0, 0.0, [];
      protection, bookingLimit := 0.0, 0.0;
    }

    constructor Copy(from: VirtualClass)
      ensures unitYield == from.unitYield && mean == from.mean && variance == from.variance
    {
      classes, unitYield, mean, variance := from.classes, from.unitYield, from.mean, from.variance;
      samples, protection, bookingLimit := from.samples, from.protection, from.bookingLimit;
    }
  }

  /** One entry of the yield-level demand map: a yield and its demand forecast. */
  datatype YieldDemand = YieldDemand(unitYield: real, mean: real, stdDev: real)

  /** A leg-cabin: capacities, virtual classes and the bid price vector. */
  class LegCabin {
    const classes: seq<BookingClass>
    var offeredCapacity: real
    var availabilityPool: real
    var virtualClasses: seq<VirtualClass>
    // The yield-level demand map, read from the highest yield to the lowest.
    var yieldDemands: seq<YieldDemand>
    var bidPrices: seq<real>
    var currentBidPrice: real
    var previousBidPrice: real

    constructor (classes: seq<BookingClass>, offeredCapacity: real, availabilityPool: real)
      ensures this.classes == classes
      ensures this.offeredCapacity == offeredCapacity && this.availabilityPool == availabilityPool
    {
      this.classes := classes;
      this.offeredCapacity, this.availabilityPool := offeredCapacity, availabilityPool;
      virtualClasses, yieldDemands, bidPrices := [], [], [];
      currentBidPrice, previousBidPrice := 0.0, 0.0;
    }
  }

  /** No object occurs twice in the list. */
  ghost predicate Distinct<T>(s: seq<T>) {
    forall i, j | 0 <= i < j < |s| :: s[i] != s[j]
  }

  /** Class `i` protects `ps[i]` seats, and the next class is limited to the others. */
  ghost predicate Protected(vcs: seq<VirtualClass>, ps: seq<real>, capacity: real)
    requires |ps| < |vcs|
    reads vcs
  {
    && (forall i | 0 <= i < |ps| :: vcs[i].protection == ps[i])
    && (forall i | 0 <= i < |ps| :: vcs[i + 1].bookingLimit == capacity - ps[i])
  }

  lemma NothingProtected(vcs: seq<VirtualClass>, capacity: real)
    requires 0 < |vcs|
    ensures Protected(vcs, [], capacity)
  {
  }

  /** Sets the cumulated protection of one class and the booking limit of the class below it. */
  method SetProtection(vcs: seq<VirtualClass>, j: nat, protection: real, capacity: real, ghost ps: seq<real>)
    requires Distinct(vcs) && j == |ps| && j + 1 < |vcs|
    requires Protected(vcs, ps, capacity)
    modifies {vcs[j]}`protection, {vcs[j + 1]}`bookingLimit
    ensures Protected(vcs, ps + [protection], capacity)
    ensures vcs[0].bookingLimit == old(vcs[0].bookingLimit)
  {
    vcs[j].protection := protection;
    vcs[j + 1].bookingLimit := capacity - protection;
  }
}
