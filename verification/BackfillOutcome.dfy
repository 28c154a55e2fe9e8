/**
 * What a backfill comes to, in rows, units and instants alone: it takes the waiting bookings in
 * order, gives each the lowest unit usable beside those who sit and those placed before, and
 * refuses, naming them, if some booking finds none.
 */
module BackfillOutcome {
  import opened Common
  import opened Occupancy
  import opened Capacity
  import opened BookingTable
  import opened Backfill
  import opened Promises

  // ----- who sits, who waits -----

  /** Counts at `now` and is not over. */
  predicate Stays(r: Row, now: int) {
    r.stay.end > now && Counts(r, now)
  }

  /** The bookings still to come or in house that have a unit, in table order. */
  function Sitting(rows: seq<Row>, now: int): seq<Stay> {
    if rows == [] then []
    else
      var n := |rows| - 1;
      Sitting(rows[..n], now) + if Stays(rows[n], now) && rows[n].stay.unit.Some? then [rows[n].stay] else []
  }

  predicate ComesBefore(x: Row, y: Row) {
    x.stay.start < y.stay.start
    || (x.stay.start == y.stay.start && x.createdAt < y.createdAt)
    || (x.stay.start == y.stay.start && x.createdAt == y.createdAt && x.stay.id < y.stay.id)
  }

  /** Exactly the bookings without a unit, by start, then creation, then id. */
  ghost predicate InOrder(rows: seq<Row>, now: int, waiting: seq<Row>) {
    && (forall r :: r in waiting <==> r in rows && Stays(r, now) && r.stay.unit.None?)
    && Increasing(waiting)
  }

  predicate Increasing(waiting: seq<Row>) {
    forall j, k | 0 <= j < k < |waiting| :: ComesBefore(waiting[j], waiting[k])
  }

  // ----- first fit -----

  /** Unit u takes `b` beside the stays in `around`, all of which have units. */
  predicate Usable(a: Activity, around: seq<Stay>, b: Stay, u: int) {
    if a.bookingType == Daily || a.pricing == PerUnit
    then forall x | x in around && x.unit == Some(u) :: x.end <= b.start || b.end <= x.start
    else HasSeats(a, around, b.start, b.end, b.guests, u)
  }

  /** The lowest usable unit, or none if there is none. */
  predicate LowestUsable(a: Activity, around: seq<Stay>, b: Stay, unit: Option<int>) {
    match unit
    case Some(u) => 1 <= u <= a.unitCount && Usable(a, around, b, u) && forall v | 1 <= v < u :: !Usable(a, around, b, v)
    case None => NoneUsable(a, around, b)
  }

  predicate NoneUsable(a: Activity, around: seq<Stay>, b: Stay) {
    forall v | 1 <= v <= a.unitCount :: !Usable(a, around, b, v)
  }

  /** Those who sit and, of the bookings in `waiting`, those given a unit. */
  function Around(sitting: seq<Stay>, waiting: seq<Row>, units: seq<Option<int>>): seq<Stay>
    requires |units| == |waiting|
  {
    if waiting == [] then sitting
    else
      var k := |waiting| - 1;
      Around(sitting, waiting[..k], units[..k]) + if units[k].Some? then [waiting[k].stay.(unit := units[k])] else []
  }

  /** Each booking in turn gets the lowest unit usable beside those before it. */
  predicate FirstFits(a: Activity, sitting: seq<Stay>, waiting: seq<Row>, units: seq<Option<int>>) {
    && |units| == |waiting|
    && (waiting == [] ||
        var k := |waiting| - 1;
        FirstFits(a, sitting, waiting[..k], units[..k])
        && LowestUsable(a, Around(sitting, waiting[..k], units[..k]), waiting[k].stay, units[k]))
  }

  /** The ids of the bookings that found no unit, in order. */
  function LeftOut(waiting: seq<Row>, units: seq<Option<int>>): seq<nat>
    requires |units| == |waiting|
  {
    if waiting == [] then []
    else
      var k := |waiting| - 1;
      LeftOut(waiting[..k], units[..k]) + if units[k].None? then [waiting[k].stay.id] else []
  }

  // ----- the backfill reads the same bookings in the same order -----

  lemma {:induction false} PlacedIsSitting(rows: seq<Row>, now: int)
    ensures Placed(rows, now) == Sitting(rows, now)
  {
    if rows != [] {
      var n := |rows| - 1;
      PlacedIsSitting(rows[..n], now);
      assert rows == rows[..n] + [rows[n]];
      FilterAppend(rows[..n], rows[n], PlacedRow(now));
      MapConcat(Filter(rows[..n], PlacedRow(now)), if PlacedRow(now)(rows[n]) then [rows[n]] else [], StayOf());
    }
  }

  /** There is only one way to put the same rows in order. */
  lemma {:induction false} OneOrder(x: seq<Row>, y: seq<Row>)
    requires forall r :: r in x <==> r in y
    requires Increasing(x) && Increasing(y)
    ensures x == y
  {
    if x != [] {
      assert x[0] in y;
      var m, n := |x| - 1, |y| - 1;
      assert x[m] in y && y[n] in x;
      var j :| 0 <= j < |y| && y[j] == x[m];
      var k :| 0 <= k < |x| && x[k] == y[n];
      assert x[m] == y[n];
      forall r ensures r in x[..m] <==> r in y[..n] {
        WithoutLast(x, r);
        WithoutLast(y, r);
      }
      OneOrder(x[..m], y[..n]);
      assert x == x[..m] + [x[m]] && y == y[..n] + [y[n]];
    } else if y != [] {
      SomeMember(y, x);
    }
  }

  lemma SomeMember(x: seq<Row>, y: seq<Row>)
    requires x != [] && forall r | r in x :: r in y
    ensures y != []
  {
    assert x[0] in y;
  }

  lemma WithoutLast(x: seq<Row>, r: Row)
    requires x != [] && Increasing(x)
    ensures r in x[..|x| - 1] <==> r in x && r != x[|x| - 1]
  {
    var m := |x| - 1;
    if r in x && r != x[m] {
      var j :| 0 <= j < |x| && x[j] == r;
      assert x[..m][j] == r;
    }
    if r in x[..m] {
      var j :| 0 <= j < m && x[..m][j] == r;
      assert x[j] == r && ComesBefore(x[j], x[m]);
    }
  }

  lemma WaitingInOrder(rows: seq<Row>, now: int, waiting: seq<Row>)
    requires WellFormed(rows) && InOrder(rows, now, waiting)
    ensures Sort(Filter(rows, WaitingRow(now)), RowLe) == waiting
  {
    var s := Sort(Filter(rows, WaitingRow(now)), RowLe);
    SortedRows(rows, now);
    forall j, k | 0 <= j < k < |s| ensures ComesBefore(s[j], s[k]) {
      assert RowId()(s[j]) != RowId()(s[k]) && RowLe(s[j], s[k]);
    }
    forall r ensures r in s <==> r in waiting {
      assert WaitingRow(now)(r) <==> Stays(r, now) && r.stay.unit.None?;
    }
    OneOrder(s, waiting);
  }

  // ----- the packing is first fit -----

  lemma {:induction false} AroundHasUnits(sitting: seq<Stay>, waiting: seq<Row>, units: seq<Option<int>>)
    requires |units| == |waiting| && AllHaveUnits(sitting)
    ensures AllHaveUnits(Around(sitting, waiting, units))
  {
    if waiting != [] {
      AroundHasUnits(sitting, waiting[..|waiting| - 1], units[..|waiting| - 1]);
    }
  }

  lemma UsableIsFits(a: Activity, around: seq<Stay>, b: Stay, u: int)
    requires a.hasUnits && AllHaveUnits(around) && Proper(b) && 1 <= u <= a.unitCount
    ensures Usable(a, around, b, u) <==> UnitFits(a, around, b.start, b.end, b.guests, u)
  {
    if !RentsWholeUnit(a) {
      FitsMeansRoom(a, around, b.start, b.end, b.guests, u);
      RoomWrittenOut(a, around, b.start, b.end, b.guests, u);
    }
  }

  lemma FirstFitIsLowestUsable(a: Activity, around: seq<Stay>, b: Stay, unit: Option<int>)
    requires a.hasUnits && AllHaveUnits(around) && Proper(b)
    ensures LowestUsable(a, around, b, unit) <==> unit == FirstFit(a, around, b, 1)
  {
    FirstFitIsLowest(a, around, b, 1);
    forall u | 1 <= u <= a.unitCount ensures Usable(a, around, b, u) <==> UnitFits(a, around, b.start, b.end, b.guests, u) {
      UsableIsFits(a, around, b, u);
    }
  }

  /** The units a first fit gives, by id. */
  function Given(waiting: seq<Row>, units: seq<Option<int>>): map<nat, int>
    requires |units| == |waiting|
  {
    if waiting == [] then map[]
    else
      var k := |waiting| - 1;
      var before := Given(waiting[..k], units[..k]);
      if units[k].Some? then before[waiting[k].stay.id := units[k].value] else before
  }

  lemma {:induction false} PackIsFirstFit(a: Activity, sitting: seq<Stay>, waiting: seq<Row>, units: seq<Option<int>>)
    requires a.hasUnits && AllHaveUnits(sitting) && FirstFits(a, sitting, waiting, units)
    requires forall r | r in waiting :: Proper(r.stay)
    ensures Pack(a, sitting, Map(waiting, StayOf()))
         == Packing(Around(sitting, waiting, units), Given(waiting, units), LeftOut(waiting, units))
  {
    var todo := Map(waiting, StayOf());
    if waiting != [] {
      var k := |waiting| - 1;
      PackIsFirstFit(a, sitting, waiting[..k], units[..k]);
      assert todo[..k] == Map(waiting[..k], StayOf()) && todo[k] == waiting[k].stay;
      AroundHasUnits(sitting, waiting[..k], units[..k]);
      assert waiting[k] in waiting;
      FirstFitIsLowestUsable(a, Around(sitting, waiting[..k], units[..k]), waiting[k].stay, units[k]);
    }
  }

  // ----- what comes out -----

  lemma {:induction false} GivenByPosition(waiting: seq<Row>, units: seq<Option<int>>, id: nat)
    requires |units| == |waiting| && forall j, k | 0 <= j < k < |waiting| :: waiting[j].stay.id != waiting[k].stay.id
    ensures id in Given(waiting, units) <==> exists k :: 0 <= k < |waiting| && waiting[k].stay.id == id && units[k].Some?
    ensures forall k | 0 <= k < |waiting| && waiting[k].stay.id == id && units[k].Some? :: Given(waiting, units)[id] == units[k].value
  {
    if waiting != [] {
      var n := |waiting| - 1;
      GivenByPosition(waiting[..n], units[..n], id);
      if id in Given(waiting[..n], units[..n]) {
        var k :| 0 <= k < n && waiting[..n][k].stay.id == id && units[..n][k].Some?;
        assert waiting[k].stay.id == id && units[k].Some?;
      }
      forall k | 0 <= k < n ensures waiting[k] == waiting[..n][k] && units[k] == units[..n][k] {
      }
    }
  }

  lemma {:induction false} NobodyLeftOut(waiting: seq<Row>, units: seq<Option<int>>)
    requires |units| == |waiting|
    ensures LeftOut(waiting, units) == [] <==> forall k | 0 <= k < |units| :: units[k].Some?
  {
    if waiting != [] {
      var n := |waiting| - 1;
      NobodyLeftOut(waiting[..n], units[..n]);
      assert forall k | 0 <= k < n :: units[k] == units[..n][k];
    }
  }

  /** Ids are positions, so rows in order have distinct ids. */
  lemma OrderedIds(rows: seq<Row>, now: int, waiting: seq<Row>)
    requires WellFormed(rows) && InOrder(rows, now, waiting)
    ensures forall j, k | 0 <= j < k < |waiting| :: waiting[j].stay.id != waiting[k].stay.id
    ensures forall k | 0 <= k < |waiting| :: waiting[k].stay.id < |rows| && rows[waiting[k].stay.id] == waiting[k] && Proper(waiting[k].stay)
  {
    forall k | 0 <= k < |waiting|
      ensures waiting[k].stay.id < |rows| && rows[waiting[k].stay.id] == waiting[k] && Proper(waiting[k].stay)
    {
      assert waiting[k] in waiting;
      var i :| 0 <= i < |rows| && rows[i] == waiting[k];
    }
    forall j, k | 0 <= j < k < |waiting| ensures waiting[j].stay.id != waiting[k].stay.id {
      assert ComesBefore(waiting[j], waiting[k]);
    }
  }

  /** A row not waiting is left alone, a waiting one gets its unit. */
  lemma WrittenRows(rows: seq<Row>, now: int, waiting: seq<Row>, units: seq<Option<int>>, i: nat)
    requires WellFormed(rows) && InOrder(rows, now, waiting) && |units| == |waiting| && i < |rows|
    requires forall k | 0 <= k < |units| :: units[k].Some?
    ensures var r' := AssignRow(Given(waiting, units))(rows[i]);
            && (rows[i] !in waiting ==> r' == rows[i])
            && (forall k | 0 <= k < |waiting| && waiting[k] == rows[i] :: r' == rows[i].(stay := rows[i].stay.(unit := units[k])))
  {
    OrderedIds(rows, now, waiting);
    GivenByPosition(waiting, units, rows[i].stay.id);
    if i in Given(waiting, units) {
      var k :| 0 <= k < |waiting| && waiting[k].stay.id == i && units[k].Some?;
      assert waiting[k] in waiting;
    }
  }

  lemma OutOfRangeWrittenOut(sitting: seq<Stay>, n: nat)
    requires AllHaveUnits(sitting)
    ensures Filter(sitting, OutOfRange(n)) != [] <==> exists b :: b in sitting && !(1 <= b.unit.value <= n)
  {
    var out := Filter(sitting, OutOfRange(n));
    FilterMembers(sitting, OutOfRange(n));
    if out != [] {
      assert out[0] in out;
    }
  }

  /** Everybody waiting has the unit found, and nothing else changed. */
  predicate UnitsWritten(rows: seq<Row>, rows': seq<Row>, waiting: seq<Row>, units: seq<Option<int>>)
    requires |units| == |waiting|
  {
    && |rows'| == |rows|
    && (forall i | 0 <= i < |rows| && rows[i] !in waiting :: rows'[i] == rows[i])
    && (forall i, k | 0 <= i < |rows| && 0 <= k < |waiting| && waiting[k] == rows[i] ::
          rows'[i] == rows[i].(stay := rows[i].stay.(unit := units[k])))
  }

  /** The backfill refuses for a unit out of range exactly when somebody sits in one. */
  lemma OutOfRangeIsRefused(a: Activity, rows: seq<Row>, now: int)
    requires a.hasUnits && a.unitCount >= 1
    ensures Backfilled(a, rows, now).0 == RefusedOutOfRange
            <==> exists b :: b in Sitting(rows, now) && b.unit.Some? && !(1 <= b.unit.value <= a.unitCount)
    ensures !Backfilled(a, rows, now).0.Done? ==> Backfilled(a, rows, now).1 == rows
  {
    PlacedIsSitting(rows, now);
    PlacedFacts(rows, now);
    OutOfRangeWrittenOut(Sitting(rows, now), a.unitCount);
  }

  /** All units of those who sit exist. */
  predicate UnitsExist(a: Activity, sitting: seq<Stay>) {
    forall b | b in sitting && b.unit.Some? :: 1 <= b.unit.value <= a.unitCount
  }

  lemma InRangeComesTo(a: Activity, rows: seq<Row>, now: int, waiting: seq<Row>, units: seq<Option<int>>)
    requires WellFormed(rows) && InOrder(rows, now, waiting) && a.hasUnits && a.unitCount >= 1
    requires FirstFits(a, Sitting(rows, now), waiting, units) && UnitsExist(a, Sitting(rows, now))
    ensures Backfilled(a, rows, now) == (if LeftOut(waiting, units) != [] then (RefusedUnplaceable(LeftOut(waiting, units)), rows)
                                         else (Done(|waiting|), Map(rows, AssignRow(Given(waiting, units)))))
  {
    PlacedIsSitting(rows, now);
    PlacedFacts(rows, now);
    OutOfRangeWrittenOut(Sitting(rows, now), a.unitCount);
    PackedInOrder(a, rows, now, waiting, units);
  }

  /**
   * If some waiting booking finds no usable unit in its turn, the backfill refuses, naming exactly
   * those bookings, and changes nothing.
   */
  lemma SomebodyUnplaceableIsRefused(a: Activity, rows: seq<Row>, now: int, waiting: seq<Row>, units: seq<Option<int>>)
    requires WellFormed(rows) && InOrder(rows, now, waiting) && a.hasUnits && a.unitCount >= 1
    requires FirstFits(a, Sitting(rows, now), waiting, units) && UnitsExist(a, Sitting(rows, now))
    requires exists k :: 0 <= k < |units| && units[k].None?
    ensures Backfilled(a, rows, now) == (RefusedUnplaceable(LeftOut(waiting, units)), rows)
    ensures LeftOut(waiting, units) != []
    ensures forall id :: id in LeftOut(waiting, units) <==> FoundNoUnit(a, Sitting(rows, now), waiting, units, id)
  {
    InRangeComesTo(a, rows, now, waiting, units);
    NobodyLeftOut(waiting, units);
    forall id ensures id in LeftOut(waiting, units) <==> FoundNoUnit(a, Sitting(rows, now), waiting, units, id) {
      LeftOutFound(a, Sitting(rows, now), waiting, units, id);
    }
  }

  /** Otherwise everybody waiting gets the unit found, and nothing else changes. */
  lemma EverybodyPlaceableIsPlaced(a: Activity, rows: seq<Row>, now: int, waiting: seq<Row>, units: seq<Option<int>>)
    requires WellFormed(rows) && InOrder(rows, now, waiting) && a.hasUnits && a.unitCount >= 1
    requires FirstFits(a, Sitting(rows, now), waiting, units) && UnitsExist(a, Sitting(rows, now))
    requires forall k | 0 <= k < |units| :: units[k].Some?
    ensures Backfilled(a, rows, now).0 == Done(|waiting|)
    ensures UnitsWritten(rows, Backfilled(a, rows, now).1, waiting, units)
  {
    InRangeComesTo(a, rows, now, waiting, units);
    NobodyLeftOut(waiting, units);
    EverybodyWritten(rows, now, waiting, units);
  }

  lemma PackedInOrder(a: Activity, rows: seq<Row>, now: int, waiting: seq<Row>, units: seq<Option<int>>)
    requires WellFormed(rows) && InOrder(rows, now, waiting) && a.hasUnits
    requires FirstFits(a, Sitting(rows, now), waiting, units)
    ensures |Waiting(rows, now)| == |waiting|
    ensures var p := Pack(a, Placed(rows, now), Waiting(rows, now));
            p.failed == LeftOut(waiting, units) && p.chosen == Given(waiting, units)
  {
    PlacedIsSitting(rows, now);
    PlacedFacts(rows, now);
    WaitingInOrder(rows, now, waiting);
    assert Waiting(rows, now) == Map(waiting, StayOf());
    OrderedIds(rows, now, waiting);
    PackIsFirstFit(a, Sitting(rows, now), waiting, units);
  }

  lemma EverybodyWritten(rows: seq<Row>, now: int, waiting: seq<Row>, units: seq<Option<int>>)
    requires WellFormed(rows) && InOrder(rows, now, waiting) && |units| == |waiting|
    requires forall k | 0 <= k < |units| :: units[k].Some?
    ensures UnitsWritten(rows, Map(rows, AssignRow(Given(waiting, units))), waiting, units)
  {
    forall i: nat | i < |rows|
      ensures var r' := AssignRow(Given(waiting, units))(rows[i]);
              && (rows[i] !in waiting ==> r' == rows[i])
              && (forall k | 0 <= k < |waiting| && waiting[k] == rows[i] :: r' == rows[i].(stay := rows[i].stay.(unit := units[k])))
    {
      WrittenRows(rows, now, waiting, units, i);
    }
  }

  /** Without units there is nothing to do. */
  lemma NoUnitsNoBackfill(a: Activity, rows: seq<Row>, now: int)
    requires !a.hasUnits || a.unitCount == 0
    ensures Backfilled(a, rows, now) == (Skipped, rows)
  {
  }

  lemma {:induction false} UnitsFor(a: Activity, sitting: seq<Stay>, waiting: seq<Row>) returns (units: seq<Option<int>>)
    requires a.hasUnits && AllHaveUnits(sitting) && forall r | r in waiting :: Proper(r.stay)
    ensures FirstFits(a, sitting, waiting, units)
  {
    if waiting == [] {
      units := [];
    } else {
      var k := |waiting| - 1;
      var before := UnitsFor(a, sitting, waiting[..k]);
      AroundHasUnits(sitting, waiting[..k], before);
      assert waiting[k] in waiting;
      var unit := FirstFit(a, Around(sitting, waiting[..k], before), waiting[k].stay, 1);
      FirstFitIsLowestUsable(a, Around(sitting, waiting[..k], before), waiting[k].stay, unit);
      units := before + [unit];
      assert units[..k] == before;
    }
  }

  lemma EveryTableHasAnOrder(rows: seq<Row>, now: int) returns (waiting: seq<Row>)
    requires WellFormed(rows)
    ensures InOrder(rows, now, waiting) && forall r | r in waiting :: Proper(r.stay)
  {
    waiting := Sort(Filter(rows, WaitingRow(now)), RowLe);
    SortedRows(rows, now);
    forall j, k | 0 <= j < k < |waiting| ensures ComesBefore(waiting[j], waiting[k]) {
      assert RowId()(waiting[j]) != RowId()(waiting[k]) && RowLe(waiting[j], waiting[k]);
    }
  }

  /** Every table has its order and its first fit. */
  lemma EveryTableHasAFirstFit(a: Activity, rows: seq<Row>, now: int) returns (waiting: seq<Row>, units: seq<Option<int>>)
    requires WellFormed(rows) && a.hasUnits
    ensures InOrder(rows, now, waiting) && FirstFits(a, Sitting(rows, now), waiting, units)
  {
    waiting := EveryTableHasAnOrder(rows, now);
    PlacedIsSitting(rows, now);
    PlacedFacts(rows, now);
    units := UnitsFor(a, Sitting(rows, now), waiting);
  }

  /** The waiting booking with this id found no unit usable beside those who sit and those placed before it. */
  ghost predicate FoundNoUnit(a: Activity, sitting: seq<Stay>, waiting: seq<Row>, units: seq<Option<int>>, id: nat)
    requires |units| == |waiting|
  {
    exists k :: 0 <= k < |waiting| && waiting[k].stay.id == id
      && NoneUsable(a, Around(sitting, waiting[..k], units[..k]), waiting[k].stay)
  }

  lemma {:induction false} FirstFitsAt(a: Activity, sitting: seq<Stay>, waiting: seq<Row>, units: seq<Option<int>>, k: nat)
    requires FirstFits(a, sitting, waiting, units) && k < |waiting|
    ensures LowestUsable(a, Around(sitting, waiting[..k], units[..k]), waiting[k].stay, units[k])
  {
    var n := |waiting| - 1;
    if k < n {
      FirstFitsAt(a, sitting, waiting[..n], units[..n], k);
      assert waiting[..n][..k] == waiting[..k] && units[..n][..k] == units[..k];
    }
  }

  lemma LeftOutFound(a: Activity, sitting: seq<Stay>, waiting: seq<Row>, units: seq<Option<int>>, id: nat)
    requires FirstFits(a, sitting, waiting, units)
    ensures id in LeftOut(waiting, units) <==> FoundNoUnit(a, sitting, waiting, units, id)
  {
    LeftOutMember(waiting, units, id);
    forall k: nat | k < |waiting|
      ensures units[k].None? <==> NoneUsable(a, Around(sitting, waiting[..k], units[..k]), waiting[k].stay)
    {
      FirstFitsAt(a, sitting, waiting, units, k);
    }
  }

  lemma {:induction false} LeftOutMember(waiting: seq<Row>, units: seq<Option<int>>, id: nat)
    requires |units| == |waiting|
    ensures id in LeftOut(waiting, units) <==> exists k :: 0 <= k < |waiting| && waiting[k].stay.id == id && units[k].None?
  {
    if waiting != [] {
      var n := |waiting| - 1;
      LeftOutMember(waiting[..n], units[..n], id);
      assert forall k | 0 <= k < n :: waiting[..n][k] == waiting[k] && units[..n][k] == units[k];
    }
  }
}
