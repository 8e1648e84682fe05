/** Booking classes grouped by rounded yield: which class goes where, and what the groups keep. */
module VirtualClasses {
  import opened Inventory
  import opened Totals

  /** A booking class with the forecast and adjusted yield that the grouping reads. */
  datatype Row = Row(booking: BookingClass, mean: real, variance: real, adjustedYield: real)

  function RowOf(c: BookingClass): (r: Row)
    reads c`mean, c`variance, c`adjustedYield
    ensures r.booking == c && r.mean == c.mean && r.variance == c.variance && r.adjustedYield == c.adjustedYield
  {
    Row(c, c.mean, c.variance, c.adjustedYield)
  }

  function Rows(classes: seq<BookingClass>): (rows: seq<Row>)
    reads classes`mean, classes`variance, classes`adjustedYield
    ensures |rows| == |classes|
    ensures forall i | 0 <= i < |rows| :: rows[i] == RowOf(classes[i])
  {
    if classes == [] then [] else Rows(classes[..|classes| - 1]) + [RowOf(classes[|classes| - 1])]
  }

  /** A yield rounded to the nearest level, halves upwards. */
  function RoundedYield(y: real): int {
    (y + 0.5).Floor
  }

  /** A class with demand and a positive rounded yield. */
  predicate Kept(r: Row) {
    r.mean > 0.0 && RoundedYield(r.adjustedYield) > 0
  }

  predicate KeptAt(r: Row, level: int) {
    Kept(r) && RoundedYield(r.adjustedYield) == level
  }

  /** The kept classes of one yield level, in list order. */
  function Group(rows: seq<Row>, level: int): seq<Row> {
    if rows == [] then []
    else
      var r := rows[|rows| - 1];
      Group(rows[..|rows| - 1], level) + if KeptAt(r, level) then [r] else []
  }

  function Bookings(rows: seq<Row>): (cs: seq<BookingClass>)
    ensures |cs| == |rows| && forall i | 0 <= i < |cs| :: cs[i] == rows[i].booking
  {
    if rows == [] then [] else Bookings(rows[..|rows| - 1]) + [rows[|rows| - 1].booking]
  }

  function RowMean(r: Row): real {
    r.mean
  }

  function RowVariance(r: Row): real {
    r.variance
  }

  function AtLevel(level: int, mean: real): real {
    level as real * mean
  }

  /** What the demand of a row earns at its rounded yield. */
  function RowRevenue(r: Row): real {
    AtLevel(RoundedYield(r.adjustedYield), r.mean)
  }

  /** The kept rows of all levels. */
  function AllKept(rows: seq<Row>): seq<Row> {
    if rows == [] then []
    else AllKept(rows[..|rows| - 1]) + if Kept(rows[|rows| - 1]) then [rows[|rows| - 1]] else []
  }

  lemma {:induction false} GroupEntries(rows: seq<Row>, level: int, r: Row)
    ensures r in Group(rows, level) <==> r in rows && KeptAt(r, level)
  {
    if rows != [] {
      GroupEntries(rows[..|rows| - 1], level, r);
      assert rows == rows[..|rows| - 1] + [rows[|rows| - 1]];
    }
  }

  /** The list `g` holds the kept classes of the level, in the order of the positions `at`. */
  ghost predicate ListedAt(rows: seq<Row>, level: int, g: seq<Row>, at: seq<nat>) {
    && |at| == |g|
    && (forall a | 0 <= a < |at| :: at[a] < |rows| && g[a] == rows[at[a]])
    && (forall a, b | 0 <= a < b < |at| :: at[a] < at[b])
    && (forall i: nat | i < |rows| :: i in at <==> KeptAt(rows[i], level))
  }

  lemma ListedOneMore(rows: seq<Row>, level: int, g: seq<Row>, at: seq<nat>)
    requires rows != [] && ListedAt(rows[..|rows| - 1], level, g, at) && KeptAt(rows[|rows| - 1], level)
    ensures ListedAt(rows, level, g + [rows[|rows| - 1]], at + [|rows| - 1])
  {
    hide KeptAt;
    var n := |rows| - 1;
    forall i: nat | i < |rows|
      ensures i in at + [n] <==> KeptAt(rows[i], level)
    {
      if i < n { assert rows[..n][i] == rows[i]; }
    }
  }

  lemma ListedTheSame(rows: seq<Row>, level: int, g: seq<Row>, at: seq<nat>)
    requires rows != [] && ListedAt(rows[..|rows| - 1], level, g, at) && !KeptAt(rows[|rows| - 1], level)
    ensures ListedAt(rows, level, g, at)
  {
    hide KeptAt;
    var n := |rows| - 1;
    forall i: nat | i < |rows|
      ensures i in at <==> KeptAt(rows[i], level)
    {
      if i < n { assert rows[..n][i] == rows[i]; }
    }
  }

  lemma GroupOneMore(rows: seq<Row>, level: int)
    requires rows != []
    ensures var n := |rows| - 1;
      Group(rows, level)
        == if KeptAt(rows[n], level) then Group(rows[..n], level) + [rows[n]] else Group(rows[..n], level)
  {
    hide KeptAt;
  }

  lemma NothingListed(level: int)
    ensures Group([], level) == [] && ListedAt([], level, [], [])
  {
  }

  /** A group lists every kept class of its level, in the order of the class list. */
  lemma {:induction false} GroupInListOrder(rows: seq<Row>, level: int) returns (at: seq<nat>)
    ensures ListedAt(rows, level, Group(rows, level), at)
  {
    hide *;
    if rows == [] {
      at := [];
      NothingListed(level);
    } else {
      var n := |rows| - 1;
      at := GroupInListOrder(rows[..n], level);
      GroupOneMore(rows, level);
      if KeptAt(rows[n], level) {
        ListedOneMore(rows, level, Group(rows[..n], level), at);
        at := at + [n];
      } else {
        ListedTheSame(rows, level, Group(rows[..n], level), at);
      }
    }
  }

  lemma GroupStep(rows: seq<Row>, i: nat, level: int)
    requires i < |rows|
    ensures Group(rows[..i + 1], level) == Group(rows[..i], level) + if KeptAt(rows[i], level) then [rows[i]] else []
  {
    assert rows[..i + 1][..i] == rows[..i];
  }

  lemma BookingsStep(g: seq<Row>, r: Row)
    ensures Bookings(g + [r]) == Bookings(g) + [r.booking]
  {
    assert (g + [r])[..|g|] == g;
  }

  // ---- Conservation over the levels.

  /** The levels are the strictly falling, positive levels that occur. */
  ghost predicate AreLevels(rows: seq<Row>, levels: seq<int>) {
    && (forall i, j | 0 <= i < j < |levels| :: levels[i] > levels[j])
    && (forall level :: level in levels <==> Group(rows, level) != [])
  }

  /** The total over the groups of the levels. */
  ghost function OverLevels(rows: seq<Row>, levels: seq<int>, f: Row -> real): real {
    if levels == [] then 0.0
    else OverLevels(rows, levels[..|levels| - 1], f) + Total(Group(rows, levels[|levels| - 1]), f)
  }

  lemma GroupTotalStep(rows: seq<Row>, level: int, f: Row -> real)
    requires rows != []
    ensures var r, before := rows[|rows| - 1], rows[..|rows| - 1];
      Total(Group(rows, level), f) == Total(Group(before, level), f) + (if KeptAt(r, level) then f(r) else 0.0)
  {
    hide KeptAt, Total;
    var r, g := rows[|rows| - 1], Group(rows[..|rows| - 1], level);
    assert g + [] == g;
    TotalAppend(g, [r], f);
    TotalOne(r, f);
  }

  /** One more row adds to the level it belongs to, and to no other. */
  lemma {:induction false} OneMoreRow(rows: seq<Row>, levels: seq<int>, f: Row -> real)
    requires rows != [] && forall i, j | 0 <= i < j < |levels| :: levels[i] > levels[j]
    ensures var r, before := rows[|rows| - 1], rows[..|rows| - 1];
      var counts := Kept(r) && RoundedYield(r.adjustedYield) in levels;
      OverLevels(rows, levels, f) == OverLevels(before, levels, f) + (if counts then f(r) else 0.0)
    decreases |levels|
  {
    hide Group, Total, RoundedYield, Kept;
    if levels != [] {
      var n := |levels| - 1;
      OneMoreRow(rows, levels[..n], f);
      GroupTotalStep(rows, levels[n], f);
      assert levels == levels[..n] + [levels[n]];
    }
  }

  lemma {:induction false} NoRows(levels: seq<int>, f: Row -> real)
    ensures OverLevels([], levels, f) == 0.0
    decreases |levels|
  {
    if levels != [] {
      NoRows(levels[..|levels| - 1], f);
    }
  }

  /** Strictly falling levels that cover every kept row hold the total of all kept rows. */
  lemma {:induction false} LevelsKeepTotals(rows: seq<Row>, levels: seq<int>, f: Row -> real)
    requires forall i, j | 0 <= i < j < |levels| :: levels[i] > levels[j]
    requires forall r | r in rows && Kept(r) :: RoundedYield(r.adjustedYield) in levels
    ensures OverLevels(rows, levels, f) == Total(AllKept(rows), f)
    decreases |rows|
  {
    if rows == [] {
      NoRows(levels, f);
    } else {
      hide RoundedYield, Group, OverLevels, Kept, Total;
      var n := |rows| - 1;
      assert rows[n] in rows;
      assert AllKept(rows[..n]) + [] == AllKept(rows[..n]);
      LevelsKeepTotals(rows[..n], levels, f);
      OneMoreRow(rows, levels, f);
      TotalAppend(AllKept(rows[..n]), [rows[n]], f);
      TotalOne(rows[n], f);
    }
  }

  /** A group earns its level for every unit of its demand. */
  lemma {:induction false} GroupRevenue(rows: seq<Row>, level: int)
    ensures Total(Group(rows, level), RowRevenue) == AtLevel(level, Total(Group(rows, level), RowMean))
  {
    hide Total, Group, AtLevel;
    if rows == [] {
      NoGroup(level);
    } else {
      var n := |rows| - 1;
      GroupRevenue(rows[..n], level);
      GroupTotalStep(rows, level, RowRevenue);
      GroupTotalStep(rows, level, RowMean);
      AtLevelAdds(level, Total(Group(rows[..n], level), RowMean), rows[n].mean);
    }
  }

  lemma NoGroup(level: int)
    ensures Group([], level) == [] && Total<Row>([], RowRevenue) == 0.0 == AtLevel(level, Total<Row>([], RowMean))
  {
  }

  lemma AtLevelAdds(level: int, a: real, b: real)
    ensures AtLevel(level, a + b) == AtLevel(level, a) + AtLevel(level, b)
  {
  }

  /** Every kept row is in the group of exactly one of the levels. */
  lemma KeptInOneGroup(rows: seq<Row>, levels: seq<int>, r: Row)
    requires AreLevels(rows, levels) && r in rows && Kept(r)
    ensures exists i :: 0 <= i < |levels| && r in Group(rows, levels[i])
    ensures forall i, j | 0 <= i < |levels| && 0 <= j < |levels|
      && r in Group(rows, levels[i]) && r in Group(rows, levels[j]) :: i == j
  {
    hide Group, RoundedYield;
    var level := RoundedYield(r.adjustedYield);
    GroupEntries(rows, level, r);
    assert level in levels;
    forall i | 0 <= i < |levels| && r in Group(rows, levels[i])
      ensures levels[i] == level
    {
      GroupEntries(rows, levels[i], r);
    }
  }

  lemma LevelsFall(rows: seq<Row>, levels: seq<int>)
    requires AreLevels(rows, levels)
    ensures forall i, j | 0 <= i < j < |levels| :: levels[i] > levels[j]
  {
  }

  lemma LevelsCoverKept(rows: seq<Row>, levels: seq<int>)
    requires AreLevels(rows, levels)
    ensures forall r | r in rows && Kept(r) :: RoundedYield(r.adjustedYield) in levels
    ensures forall i | 0 <= i < |levels| :: levels[i] > 0
  {
    hide Group;
    forall r | r in rows && Kept(r)
      ensures RoundedYield(r.adjustedYield) in levels
    {
      GroupEntries(rows, RoundedYield(r.adjustedYield), r);
    }
    forall i | 0 <= i < |levels|
      ensures levels[i] > 0
    {
      var g := Group(rows, levels[i]);
      assert levels[i] in levels;
      GroupEntries(rows, levels[i], g[0]);
    }
  }

  /**
   * The levels partition the kept classes: the groups conserve every total over
   * them, so total mean, total variance and the revenue at the rounded yields.
   */
  lemma GroupsConserve(rows: seq<Row>, levels: seq<int>, f: Row -> real)
    requires AreLevels(rows, levels)
    ensures OverLevels(rows, levels, f) == Total(AllKept(rows), f)
  {
    hide *;
    LevelsCoverKept(rows, levels);
    LevelsFall(rows, levels);
    LevelsKeepTotals(rows, levels, f);
  }
}
