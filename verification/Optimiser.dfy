/** Builds the virtual class list of a leg-cabin. */
module Optimiser {
  import opened Inventory
  import opened Totals
  import opened VirtualClasses

  /** The virtual class of one level: its group of classes and their total demand. */
  ghost predicate IsVirtualClass(vc: VirtualClass, rows: seq<Row>, level: int)
    reads vc`classes, vc`unitYield, vc`mean, vc`variance
  {
    && Group(rows, level) != [] && vc.classes == Bookings(Group(rows, level))
    && vc.unitYield == level as real
    && vc.mean == Total(Group(rows, level), RowMean) && vc.variance == Total(Group(rows, level), RowVariance)
  }

  /** The virtual classes of the rows seen so far, one for every level that occurs. */
  ghost predicate MapHolds(m: map<int, VirtualClass>, rows: seq<Row>)
    reads m.Values
  {
    && (forall level :: level in m <==> Group(rows, level) != [])
    && (forall level | level in m :: IsVirtualClass(m[level], rows, level))
    && (forall k, l | k in m && l in m && k != l :: m[k] != m[l])
  }

  lemma NewLevel(rows: seq<Row>, i: nat, level: int)
    requires i < |rows| && KeptAt(rows[i], level) && Group(rows[..i], level) == []
    ensures Group(rows[..i + 1], level) == [rows[i]] && Bookings([rows[i]]) == [rows[i].booking]
    ensures Total([rows[i]], RowMean) == rows[i].mean && Total([rows[i]], RowVariance) == rows[i].variance
  {
    GroupStep(rows, i, level);
    BookingsStep([], rows[i]);
    assert [] + [rows[i]] == [rows[i]];
    TotalOne(rows[i], RowMean);
    TotalOne(rows[i], RowVariance);
  }

  lemma GrownLevel(rows: seq<Row>, i: nat, level: int)
    requires i < |rows| && KeptAt(rows[i], level)
    ensures var g, h := Group(rows[..i], level), Group(rows[..i + 1], level);
      && h != [] && Bookings(h) == Bookings(g) + [rows[i].booking]
      && Total(h, RowMean) == Total(g, RowMean) + rows[i].mean
      && Total(h, RowVariance) == Total(g, RowVariance) + rows[i].variance
  {
    hide Total;
    var g := Group(rows[..i], level);
    GroupStep(rows, i, level);
    BookingsStep(g, rows[i]);
    TotalAppend(g, [rows[i]], RowMean);
    TotalOne(rows[i], RowMean);
    TotalAppend(g, [rows[i]], RowVariance);
    TotalOne(rows[i], RowVariance);
  }

  /** A level that row `i` does not belong to is the same after it. */
  lemma OtherLevel(rows: seq<Row>, i: nat, level: int)
    requires i < |rows| && !KeptAt(rows[i], level)
    ensures Group(rows[..i], level) == Group(rows[..i + 1], level)
    ensures forall vc: VirtualClass ::
      IsVirtualClass(vc, rows[..i], level) <==> IsVirtualClass(vc, rows[..i + 1], level)
  {
    hide Total, KeptAt;
    GroupStep(rows, i, level);
    assert Group(rows[..i], level) + [] == Group(rows[..i], level);
  }

  lemma IsVirtualClassIs(vc: VirtualClass, rows: seq<Row>, level: int)
    requires Group(rows, level) != [] && vc.classes == Bookings(Group(rows, level))
    requires vc.unitYield == level as real
    requires vc.mean == Total(Group(rows, level), RowMean) && vc.variance == Total(Group(rows, level), RowVariance)
    ensures IsVirtualClass(vc, rows, level)
  {
  }

  lemma IsVirtualClassMeans(vc: VirtualClass, rows: seq<Row>, level: int)
    requires IsVirtualClass(vc, rows, level)
    ensures Group(rows, level) != [] && vc.classes == Bookings(Group(rows, level))
    ensures vc.unitYield == level as real
    ensures vc.mean == Total(Group(rows, level), RowMean) && vc.variance == Total(Group(rows, level), RowVariance)
  {
  }

  method CreateVirtualClass(c: BookingClass, level: int, ghost rows: seq<Row>, ghost i: nat)
    returns (vc: VirtualClass)
    requires i < |rows| && rows[i] == RowOf(c) && KeptAt(rows[i], level) && Group(rows[..i], level) == []
    ensures fresh(vc) && IsVirtualClass(vc, rows[..i + 1], level)
  {
    hide *;
    NewLevel(rows, i, level);
    vc := new VirtualClass([c]);
    vc.unitYield := level as real;
    vc.mean := c.mean;
    vc.variance := c.variance;
    IsVirtualClassIs(vc, rows[..i + 1], level);
  }

  method GrowVirtualClass(vc: VirtualClass, c: BookingClass, level: int, ghost rows: seq<Row>, ghost i: nat)
    requires i < |rows| && rows[i] == RowOf(c) && KeptAt(rows[i], level) && IsVirtualClass(vc, rows[..i], level)
    modifies vc
    ensures IsVirtualClass(vc, rows[..i + 1], level)
  {
    hide *;
    IsVirtualClassMeans(vc, rows[..i], level);
    GrownLevel(rows, i, level);
    vc.mean := vc.mean + c.mean;
    vc.variance := vc.variance + c.variance;
    vc.classes := vc.classes + [c];
    IsVirtualClassIs(vc, rows[..i + 1], level);
  }

  // ---- The map after one more class, entry by entry.

  /** Row `i` belongs to this level and to no other. */
  ghost predicate BelongsTo(rows: seq<Row>, i: nat, level: int)
    requires i < |rows|
  {
    KeptAt(rows[i], level)
  }

  lemma OneLevelOnly(rows: seq<Row>, i: nat, level: int, other: int)
    requires i < |rows| && BelongsTo(rows, i, level) && other != level
    ensures !KeptAt(rows[i], other)
  {
  }

  /** Keys of the map are the levels that occur. */
  ghost predicate KeysOccur(keys: set<int>, rows: seq<Row>) {
    forall level :: level in keys <==> Group(rows, level) != []
  }

  lemma KeysGrow(keys: set<int>, rows: seq<Row>, i: nat, level: int)
    requires i < |rows| && KeysOccur(keys, rows[..i]) && BelongsTo(rows, i, level)
    ensures KeysOccur(keys + {level}, rows[..i + 1])
  {
    hide Group, KeptAt;
    forall l: int
      ensures l in keys + {level} <==> Group(rows[..i + 1], l) != []
    {
      if l == level {
        NotEmptyAfter(rows, i, level);
      } else {
        OneLevelOnly(rows, i, level, l);
        OtherLevel(rows, i, l);
      }
    }
  }

  lemma NotEmptyAfter(rows: seq<Row>, i: nat, level: int)
    requires i < |rows| && BelongsTo(rows, i, level)
    ensures KeptAt(rows[i], level) && Group(rows[..i + 1], level) != []
  {
    GroupStep(rows, i, level);
  }

  lemma KeysStay(keys: set<int>, rows: seq<Row>, i: nat)
    requires i < |rows| && KeysOccur(keys, rows[..i]) && !Kept(rows[i])
    ensures KeysOccur(keys, rows[..i + 1])
  {
    hide Group, Kept;
    forall l: int
      ensures l in keys <==> Group(rows[..i + 1], l) != []
    {
      NoLevel(rows[i], l);
      OtherLevel(rows, i, l);
    }
  }

  lemma NoLevel(r: Row, level: int)
    requires !Kept(r)
    ensures !KeptAt(r, level)
  {
  }

  /** Every entry of the map but one is the virtual class of its level. */
  ghost predicate EntriesHold(m: map<int, VirtualClass>, rows: seq<Row>, left: set<int>)
    reads set l | l in m && l !in left :: m[l]
  {
    forall l | l in m && l !in left :: IsVirtualClass(m[l], rows, l)
  }

  lemma EntriesStay(m: map<int, VirtualClass>, rows: seq<Row>, i: nat, level: int)
    requires i < |rows| && EntriesHold(m, rows[..i], {}) && BelongsTo(rows, i, level)
    ensures EntriesHold(m, rows[..i + 1], {level})
  {
    hide IsVirtualClass, BelongsTo;
    forall l | l in m && l !in {level}
      ensures IsVirtualClass(m[l], rows[..i + 1], l)
    {
      OneLevelOnly(rows, i, level, l);
      OtherLevel(rows, i, l);
    }
  }

  lemma EntriesSkip(m: map<int, VirtualClass>, rows: seq<Row>, i: nat)
    requires i < |rows| && EntriesHold(m, rows[..i], {}) && !Kept(rows[i])
    ensures EntriesHold(m, rows[..i + 1], {})
  {
    hide IsVirtualClass, Kept;
    forall l | l in m
      ensures IsVirtualClass(m[l], rows[..i + 1], l)
    {
      NoLevel(rows[i], l);
      OtherLevel(rows, i, l);
    }
  }

  ghost predicate EntriesApart(m: map<int, VirtualClass>) {
    forall k, l | k in m && l in m && k != l :: m[k] != m[l]
  }

  lemma MapHoldsIs(m: map<int, VirtualClass>, rows: seq<Row>)
    ensures MapHolds(m, rows) <==> KeysOccur(m.Keys, rows) && EntriesHold(m, rows, {}) && EntriesApart(m)
  {
    hide Group, IsVirtualClass;
  }

  /** A new entry beside those that hold. */
  lemma EntryAdded(m: map<int, VirtualClass>, rows: seq<Row>, level: int, vc: VirtualClass)
    requires level !in m && vc !in m.Values && EntriesHold(m, rows, {level}) && EntriesApart(m)
    requires IsVirtualClass(vc, rows, level)
    ensures var more := m[level := vc];
      more.Keys == m.Keys + {level} && EntriesHold(more, rows, {}) && EntriesApart(more)
    ensures forall other | other in m[level := vc].Values :: other in m.Values || other == vc
  {
    hide IsVirtualClass;
    var more := m[level := vc];
    forall l | l in more
      ensures IsVirtualClass(more[l], rows, l)
    {
      if l != level { assert l in m && l !in {level}; }
    }
    forall k, l | k in more && l in more && k != l
      ensures more[k] != more[l]
    {
      if k == level { assert m[l] in m.Values; }
      if l == level { assert m[k] in m.Values; }
    }
  }

  lemma EntryHolds(m: map<int, VirtualClass>, rows: seq<Row>, level: int)
    requires level in m && EntriesHold(m, rows, {})
    ensures IsVirtualClass(m[level], rows, level)
  {
  }

  lemma EntryApart(m: map<int, VirtualClass>, level: int)
    requires level in m && EntriesApart(m)
    ensures forall l | l in m && l !in {level} :: m[l] != m[level]
  {
  }

  lemma EntryRestored(m: map<int, VirtualClass>, rows: seq<Row>, level: int)
    requires level in m && EntriesHold(m, rows, {level}) && IsVirtualClass(m[level], rows, level)
    ensures m.Keys + {level} == m.Keys && EntriesHold(m, rows, {})
  {
    hide IsVirtualClass;
    forall l | l in m
      ensures IsVirtualClass(m[l], rows, l)
    {
      if l != level { assert l !in {level}; }
    }
  }

  lemma SkippedRow(m: map<int, VirtualClass>, rows: seq<Row>, i: nat)
    requires i < |rows| && MapHolds(m, rows[..i]) && !Kept(rows[i])
    ensures MapHolds(m, rows[..i + 1])
  {
    hide *;
    MapHoldsIs(m, rows[..i]);
    KeysStay(m.Keys, rows, i);
    EntriesSkip(m, rows, i);
    MapHoldsIs(m, rows[..i + 1]);
  }

  lemma NewLevelIsEmpty(keys: set<int>, rows: seq<Row>, level: int)
    requires KeysOccur(keys, rows) && level !in keys
    ensures Group(rows, level) == []
  {
  }

  method AddNew(m: map<int, VirtualClass>, c: BookingClass, level: int, ghost rows: seq<Row>, ghost i: nat)
    returns (more: map<int, VirtualClass>)
    requires i < |rows| && rows[i] == RowOf(c) && MapHolds(m, rows[..i]) && level !in m
    requires BelongsTo(rows, i, level)
    ensures MapHolds(more, rows[..i + 1])
    ensures forall vc | vc in more.Values :: vc in m.Values || fresh(vc)
  {
    hide *;
    MapHoldsIs(m, rows[..i]);
    NewLevelIsEmpty(m.Keys, rows[..i], level);
    KeysGrow(m.Keys, rows, i, level);
    EntriesStay(m, rows, i, level);
    NotEmptyAfter(rows, i, level);
    var vc := CreateVirtualClass(c, level, rows, i);
    EntryAdded(m, rows[..i + 1], level, vc);
    more := m[level := vc];
    MapHoldsIs(more, rows[..i + 1]);
  }

  method AddToExisting(m: map<int, VirtualClass>, c: BookingClass, level: int, ghost rows: seq<Row>, ghost i: nat)
    requires i < |rows| && rows[i] == RowOf(c) && MapHolds(m, rows[..i]) && level in m
    requires BelongsTo(rows, i, level)
    modifies m[level]
    ensures MapHolds(m, rows[..i + 1])
  {
    hide *;
    MapHoldsIs(m, rows[..i]);
    KeysGrow(m.Keys, rows, i, level);
    EntriesStay(m, rows, i, level);
    NotEmptyAfter(rows, i, level);
    EntryHolds(m, rows[..i], level);
    EntryApart(m, level);
    GrowVirtualClass(m[level], c, level, rows, i);
    EntryRestored(m, rows[..i + 1], level);
    MapHoldsIs(m, rows[..i + 1]);
  }

  /** Adds one class to its virtual class, which is created when it is the first of its level. */
  method AddClass(m: map<int, VirtualClass>, c: BookingClass, ghost rows: seq<Row>, ghost i: nat)
    returns (more: map<int, VirtualClass>)
    requires i < |rows| && rows[i] == RowOf(c) && MapHolds(m, rows[..i])
    requires c.mean > 0.0 ==> c.adjustedYield >= 0.0
    modifies m.Values
    ensures MapHolds(more, rows[..i + 1])
    ensures forall vc | vc in more.Values :: vc in m.Values || fresh(vc)
  {
    more := m;
    var level := RoundedYield(c.adjustedYield);
    hide Group, IsVirtualClass, MapHolds, Bookings, RoundedYield;
    if c.mean > 0.0 && level > 0 {
      if level !in m {
        more := AddNew(m, c, level, rows, i);
      } else {
        AddToExisting(m, c, level, rows, i);
      }
    } else {
      SkippedRow(m, rows, i);
    }
  }

  /** The virtual classes of the falling levels, in order. */
  ghost predicate ListHolds(vcs: seq<VirtualClass>, rows: seq<Row>, levels: seq<int>)
    reads vcs`classes, vcs`unitYield, vcs`mean, vcs`variance
  {
    && |vcs| == |levels| && AreLevels(rows, levels)
    && (forall i | 0 <= i < |vcs| :: IsVirtualClass(vcs[i], rows, levels[i]))
    && Distinct(vcs)
  }

  method Highest(s: set<int>) returns (k: int)
    requires exists l :: l in s
    ensures k in s && forall l | l in s :: l <= k
    decreases s
  {
    var any :| any in s;
    k := any;
    var rest := s - {any};
    if exists l :: l in rest {
      var highest := Highest(rest);
      assert forall l | l in s :: l == any || l in rest;
      if any < highest {
        k := highest;
      }
    } else {
      assert forall l | l in s :: l == any || l in rest;
    }
  }

  /** Lists the virtual classes of the map from the highest level to the lowest. */
  method ListFromHighToLow(m: map<int, VirtualClass>, ghost rows: seq<Row>)
    returns (vcs: seq<VirtualClass>, ghost levels: seq<int>)
    requires MapHolds(m, rows)
    ensures ListHolds(vcs, rows, levels)
    ensures forall i | 0 <= i < |vcs| :: levels[i] in m && vcs[i] == m[levels[i]] && vcs[i] in m.Values
  {
    hide Group, IsVirtualClass;
    vcs, levels := [], [];
    var left := m.Keys;
    while exists l :: l in left
      invariant left <= m.Keys && |vcs| == |levels|
      invariant forall i | 0 <= i < |vcs| :: levels[i] in m && levels[i] !in left && vcs[i] == m[levels[i]]
      invariant forall i, l | 0 <= i < |levels| && l in left :: levels[i] > l
      invariant forall i, j | 0 <= i < j < |levels| :: levels[i] > levels[j]
      invariant forall l | l in m :: l in left || l in levels
      decreases left
    {
      var k := Highest(left);
      vcs := vcs + [m[k]];
      levels := levels + [k];
      left := left - {k};
    }
  }

  lemma EmptyMap(rows: seq<Row>)
    ensures MapHolds(map[], rows[..0]) && rows[..|rows|] == rows
  {
  }

  /**
   * Builds the virtual class list of the leg-cabin: one virtual class for every
   * rounded yield of a class with demand, from the highest yield to the lowest.
   */
  method BuildVirtualClassListForLegBasedOptimisation(leg: LegCabin)
    returns (isNotEmpty: bool, ghost levels: seq<int>)
    requires forall i | 0 <= i < |leg.classes| :: leg.classes[i].mean > 0.0 ==> leg.classes[i].adjustedYield >= 0.0
    modifies leg`virtualClasses
    ensures ListHolds(leg.virtualClasses, Rows(leg.classes), levels)
    ensures fresh(leg.virtualClasses)
    ensures isNotEmpty <==> exists r :: r in Rows(leg.classes) && Kept(r)
  {
    hide *;
    isNotEmpty := false;
    ghost var rows := Rows(leg.classes);
    var m: map<int, VirtualClass> := map[];
    EmptyMap(rows);
    for i := 0 to |leg.classes|
      invariant MapHolds(m, rows[..i]) && Rows(leg.classes) == rows
      invariant forall vc | vc in m.Values :: fresh(vc)
    {
      m := AddClass(m, leg.classes[i], rows, i);
    }
    var vcs;
    vcs, levels := ListFromHighToLow(m, rows);
    leg.virtualClasses := [];
    for i := 0 to |vcs|
      modifies leg`virtualClasses
      invariant leg.virtualClasses == vcs[..i] && (isNotEmpty <==> i > 0)
      invariant Rows(leg.classes) == rows
    {
      leg.virtualClasses := leg.virtualClasses + [vcs[i]];
      isNotEmpty := true;
    }
    assert vcs[..|vcs|] == vcs;
    ListNotEmpty(vcs, rows, levels);
  }

  lemma ListNotEmpty(vcs: seq<VirtualClass>, rows: seq<Row>, levels: seq<int>)
    requires ListHolds(vcs, rows, levels)
    ensures vcs != [] <==> exists r :: r in rows && Kept(r)
    ensures |vcs| == |levels|
  {
    hide Group, RoundedYield, IsVirtualClass, Kept;
    LevelsCoverKept(rows, levels);
    if vcs != [] {
      var g := Group(rows, levels[0]);
      assert levels[0] in levels;
      GroupEntries(rows, levels[0], g[0]);
      assert KeptAt(g[0], levels[0]);
    }
  }
}
