/**
 * What a backfill does to instants that are over. It looks only at bookings that have not ended,
 * so a guest still in house can be given the unit a departed guest had at the same time.
 */
module PastInstants {
  import opened Common
  import opened Occupancy
  import opened Capacity
  import opened BookingTable
  import opened Backfill

  function OverRow(now: int): Row -> bool {
    (r: Row) => Holds(r, now) && r.stay.end <= now
  }

  /** The bookings that count and are over at `now`: the backfill does not see them. */
  function Over(rows: seq<Row>, now: int): seq<Stay> {
    Map(Filter(rows, OverRow(now)), StayOf())
  }

  /** Rows of the table as the successful backfill leaves it. */
  function After(a: Activity, rows: seq<Row>, now: int): seq<Row> {
    Backfilled(a, rows, now).1
  }

  /**
   * At `t` a booking that is over and a booking that was waiting are both present, and the backfill
   * gives the second the unit the first had.
   */
  ghost predicate Clash(a: Activity, rows: seq<Row>, now: int, t: int) {
    exists i, j :: 0 <= i < |rows| && 0 <= j < |rows| && ClashAt(a, rows, now, t, i, j)
  }

  predicate ClashAt(a: Activity, rows: seq<Row>, now: int, t: int, i: int, j: int)
    requires 0 <= i < |rows| && 0 <= j < |rows|
  {
    var after := After(a, rows, now);
    && |after| == |rows|
    && OverRow(now)(rows[i]) && WaitingRow(now)(rows[j])
    && Covers(rows[i].stay, t) && Covers(rows[j].stay, t)
    && rows[i].stay.unit.Some? && rows[i].stay.unit == after[j].stay.unit
  }

  /** No booking that is over and holds a unit overlaps one that waits for a unit. */
  predicate PastIsClear(rows: seq<Row>, now: int) {
    forall i, j | 0 <= i < |rows| && 0 <= j < |rows|
                  && OverRow(now)(rows[i]) && rows[i].stay.unit.Some? && WaitingRow(now)(rows[j]) ::
      !Overlaps(rows[i].stay, rows[j].stay.start, rows[j].stay.end)
  }

  // ----- splitting the table into over and future -----

  lemma OverAndFuture(rows: seq<Row>, now: int, w: Stay -> int)
    ensures Sum(Live(rows, now), w) == Sum(Over(rows, now), w) + Sum(Future(rows, now), w)
  {
    var v := Compose(StayOf(), w);
    var f := Filter(rows, Holding(now));
    SumMap(f, StayOf(), w);
    SumMap(Filter(rows, OverRow(now)), StayOf(), w);
    SumMap(Filter(rows, FutureRow(now)), StayOf(), w);
    OverFutureRows(rows, now, v);
  }

  lemma {:induction false} OverFutureRows(rows: seq<Row>, now: int, v: Row -> int)
    ensures Sum(Filter(rows, Holding(now)), v) == Sum(Filter(rows, OverRow(now)), v) + Sum(Filter(rows, FutureRow(now)), v)
  {
    if rows != [] {
      var n := |rows| - 1;
      OverFutureRows(rows[..n], now, v);
      SumFilterLast(rows, Holding(now), v);
      SumFilterLast(rows, OverRow(now), v);
      SumFilterLast(rows, FutureRow(now), v);
    }
  }

  lemma SumFilterLast<T>(s: seq<T>, p: T -> bool, w: T -> int)
    requires s != []
    ensures Sum(Filter(s, p), w) == Sum(Filter(s[..|s| - 1], p), w) + if p(s[|s| - 1]) then w(s[|s| - 1]) else 0
  {
    var f := Filter(s[..|s| - 1], p);
    if p(s[|s| - 1]) {
      SumAppend(f, s[|s| - 1], w);
    } else {
      assert Filter(s, p) == f;
    }
  }

  /** Only waiting rows are written, so bookings that are over stay as they are. */
  lemma OverUntouched(a: Activity, rows: seq<Row>, now: int)
    requires WellFormed(rows) && Backfilled(a, rows, now).0.Done?
    ensures Over(After(a, rows, now), now) == Over(rows, now)
  {
    var p := Pack(a, Placed(rows, now), Waiting(rows, now));
    var f, over := AssignRow(p.chosen), Filter(rows, OverRow(now));
    PackChooses(a, Placed(rows, now), Waiting(rows, now));
    FilterMembers(rows, OverRow(now));
    FilterMap(rows, f, OverRow(now));
    forall k | 0 <= k < |over| ensures f(over[k]) == over[k] {
      assert over[k] in over;
      var i :| 0 <= i < |rows| && rows[i] == over[k];
      WaitingIds(rows, now, i);
    }
    assert Map(over, f) == over;
  }

  /** What anybody weighs after the backfill: those who are over, and the packing. */
  lemma SumAfter(a: Activity, rows: seq<Row>, now: int, w: Stay -> int)
    requires WellFormed(rows) && Backfilled(a, rows, now).0.Done?
    ensures Sum(Live(After(a, rows, now), now), w)
         == Sum(Over(rows, now), w) + Sum(Pack(a, Placed(rows, now), Waiting(rows, now)).placed, w)
  {
    OverAndFuture(After(a, rows, now), now, w);
    OverUntouched(a, rows, now);
    FutureAfter(a, rows, now);
    SumPermutation(Future(After(a, rows, now), now), Pack(a, Placed(rows, now), Waiting(rows, now)).placed, w);
  }

  lemma SumBefore(a: Activity, rows: seq<Row>, now: int, w: Stay -> int)
    requires WellFormed(rows)
    ensures Sum(Live(rows, now), w)
         == Sum(Over(rows, now), w) + Sum(Placed(rows, now), w) + Sum(Waiting(rows, now), w)
  {
    OverAndFuture(rows, now, w);
    FutureSplits(rows, now);
    SumPermutation(Future(rows, now), Placed(rows, now) + Waiting(rows, now), w);
    SumConcat(Placed(rows, now), Waiting(rows, now), w);
  }

  // ----- shared units and pools: no instant is harmed -----

  /** Wherever the stay is placed, it weighs no more than it did without a unit. */
  ghost predicate Lighter(b: Stay, n: nat, w: Stay -> int) {
    forall v | 1 <= v <= n :: w(Onto(b, v)) <= w(b)
  }

  lemma {:induction false} PackWeighsLess(a: Activity, placed: seq<Stay>, todo: seq<Stay>, w: Stay -> int)
    requires Pack(a, placed, todo).failed == []
    requires forall b | b in todo :: Lighter(b, a.unitCount, w)
    ensures Sum(Pack(a, placed, todo).placed, w) <= Sum(placed, w) + Sum(todo, w)
  {
    if todo != [] {
      var n := |todo| - 1;
      var p, b := Pack(a, placed, todo[..n]), todo[n];
      assert b in todo;
      PackWeighsLess(a, placed, todo[..n], w);
      PlacedWeighsLess(a, p.placed, b, w);
    }
  }

  lemma PlacedWeighsLess(a: Activity, placed: seq<Stay>, b: Stay, w: Stay -> int)
    requires FirstFit(a, placed, b, 1).Some? && Lighter(b, a.unitCount, w)
    ensures Sum(placed + [Onto(b, FirstFit(a, placed, b, 1).value)], w) <= Sum(placed, w) + w(b)
  {
    var v := FirstFit(a, placed, b, 1).value;
    FirstFitIsLowest(a, placed, b, 1);
    assert w(Onto(b, v)) <= w(b);
    SumAppend(placed, Onto(b, v), w);
  }

  /** Over shared units and pools a backfill keeps every safe instant safe, past or future. */
  lemma BackfillHarmsNoSharedInstant(a: Activity, rows: seq<Row>, now: int, t: int)
    requires WellFormed(rows) && !RentsWholeUnit(a)
    requires SafeAt(a, Live(rows, now), t)
    ensures SafeAt(a, Live(After(a, rows, now), now), t)
  {
    if Backfilled(a, rows, now).0.Done? {
      var todo := Waiting(rows, now);
      WaitingHasNoUnit(rows, now);
      forall u | 1 <= u <= a.unitCount
        ensures GuestsAmong(Live(After(a, rows, now), now), Shared(u), t) <= GuestsAmong(Live(rows, now), Shared(u), t)
      {
        forall b | b in todo ensures Lighter(b, a.unitCount, GuestsWhere(Shared(u), t)) {
          OrphansWeighEverywhere(a, b, u, t);
        }
        AfterWeighsLess(a, rows, now, GuestsWhere(Shared(u), t));
      }
      AfterWeighsLess(a, rows, now, OneWhere(OutOfRange(a.unitCount), t));
    }
  }

  /** An orphan counts against every unit, a placed stay against one. */
  lemma OrphansWeighEverywhere(a: Activity, b: Stay, u: int, t: int)
    requires b.unit == None
    ensures Lighter(b, a.unitCount, GuestsWhere(Shared(u), t))
  {
    forall v | 1 <= v <= a.unitCount ensures GuestsWhere(Shared(u), t)(Onto(b, v)) <= GuestsWhere(Shared(u), t)(b) {
      assert Shared(u)(b) && Covers(Onto(b, v), t) == Covers(b, t);
    }
  }

  lemma AfterWeighsLess(a: Activity, rows: seq<Row>, now: int, w: Stay -> int)
    requires WellFormed(rows) && Backfilled(a, rows, now).0.Done?
    requires forall b | b in Waiting(rows, now) :: Lighter(b, a.unitCount, w)
    ensures Sum(Live(After(a, rows, now), now), w) <= Sum(Live(rows, now), w)
  {
    SumBefore(a, rows, now, w);
    SumAfter(a, rows, now, w);
    PackWeighsLess(a, Placed(rows, now), Waiting(rows, now), w);
  }

  lemma WaitingHasNoUnit(rows: seq<Row>, now: int)
    requires WellFormed(rows)
    ensures forall b | b in Waiting(rows, now) :: b.unit == None
  {
    var s, w := Sort(Filter(rows, WaitingRow(now)), RowLe), Waiting(rows, now);
    SortedRows(rows, now);
    forall b | b in w ensures b.unit == None {
      var i :| 0 <= i < |w| && w[i] == b;
      assert s[i] in s;
    }
  }

  // ----- whole units: exactly the clashing instants are harmed -----

  /** With no unit held twice and none out of range, held units and orphans are all who are present. */
  lemma EverybodyCounted(a: Activity, bs: seq<Stay>, t: int)
    requires forall u | 1 <= u <= a.unitCount :: CountAmong(bs, OnUnit(u), t) <= 1
    requires CountAmong(bs, OutOfRange(a.unitCount), t) == 0
    ensures CountAmong(bs, Anyone(), t) == Occupied(bs, a.unitCount, t) + CountAmong(bs, Orphan(), t)
  {
    var n := a.unitCount;
    OccupiedCounts(bs, n, t);
    SumSplit(bs, OneWhere(AmongUnits(n), t), OneWhere(OutOfRange(n), t), OneWhere(Named(), t));
    SumSplit(bs, OneWhere(Named(), t), OneWhere(Orphan(), t), OneWhere(Anyone(), t));
  }

  function Named(): Stay -> bool {
    (b: Stay) => b.unit.Some?
  }

  lemma {:induction false} OccupiedCounts(bs: seq<Stay>, n: nat, t: int)
    requires forall u | 1 <= u <= n :: CountAmong(bs, OnUnit(u), t) <= 1
    ensures Occupied(bs, n, t) == CountAmong(bs, AmongUnits(n), t)
  {
    if n == 0 {
      NoneAmong(bs, AmongUnits(0), t);
    } else {
      OccupiedCounts(bs, n - 1, t);
      SumNonNegative(bs, OneWhere(OnUnit(n), t));
      SumSplit(bs, OneWhere(AmongUnits(n - 1), t), OneWhere(OnUnit(n), t), OneWhere(AmongUnits(n), t));
    }
  }

  /** The counts of the table after a backfill at an instant safe before it. */
  lemma CountsAfter(a: Activity, rows: seq<Row>, now: int, t: int)
    requires WellFormed(rows) && RentsWholeUnit(a) && Backfilled(a, rows, now).0.Done?
    requires SafeAt(a, Live(rows, now), t)
    ensures var packed := Pack(a, Placed(rows, now), Waiting(rows, now)).placed;
            var after := Live(After(a, rows, now), now);
            && CountAmong(after, OutOfRange(a.unitCount), t) == 0
            && CountAmong(after, Anyone(), t) == CountAmong(Live(rows, now), Anyone(), t)
            && (forall u | 1 <= u <= a.unitCount ::
                  && CountAmong(after, OnUnit(u), t) == CountAmong(Over(rows, now), OnUnit(u), t) + CountAmong(packed, OnUnit(u), t)
                  && CountAmong(packed, OnUnit(u), t) <= 1
                  && CountAmong(Over(rows, now), OnUnit(u), t) + CountAmong(Placed(rows, now), OnUnit(u), t) <= 1)
  {
    var n, placed, todo := a.unitCount, Placed(rows, now), Waiting(rows, now);
    var packed := Pack(a, placed, todo).placed;
    WaitingFacts(rows, now);
    WaitingHasNoUnit(rows, now);
    PlacedFacts(rows, now);
    forall u | 1 <= u <= n
      ensures CountAmong(Over(rows, now), OnUnit(u), t) + CountAmong(placed, OnUnit(u), t) <= 1
      ensures CountAmong(placed, OnUnit(u), t) <= 1
      ensures CountAmong(Live(After(a, rows, now), now), OnUnit(u), t)
           == CountAmong(Over(rows, now), OnUnit(u), t) + CountAmong(packed, OnUnit(u), t)
    {
      SumBefore(a, rows, now, OneWhere(OnUnit(u), t));
      SumNonNegative(todo, OneWhere(OnUnit(u), t));
      SumNonNegative(Over(rows, now), OneWhere(OnUnit(u), t));
      SumAfter(a, rows, now, OneWhere(OnUnit(u), t));
    }
    PackKeepsUnitsSafe(a, placed, todo, t);
    AfterWeighsLess(a, rows, now, OneWhere(OutOfRange(n), t));
    SumNonNegative(Live(After(a, rows, now), now), OneWhere(OutOfRange(n), t));
    SumBefore(a, rows, now, OneWhere(Anyone(), t));
    SumAfter(a, rows, now, OneWhere(Anyone(), t));
    PackCount(a, placed, todo, t);
  }

  lemma SumPositive<T>(s: seq<T>, w: T -> int) returns (x: T)
    requires Sum(s, w) > 0
    ensures x in s && w(x) > 0
  {
    if forall y | y in s :: w(y) <= 0 {
      SumBounds(s, w, Nothing());
      SumNothing(s);
    }
    x :| x in s && w(x) > 0;
  }

  function Nothing<T>(): T -> int {
    (x: T) => 0
  }

  lemma {:induction false} SumNothing<T>(s: seq<T>)
    ensures Sum(s, Nothing<T>()) == 0
  {
    if s != [] {
      SumNothing(s[..|s| - 1]);
    }
  }

  /** Somebody packed into `u` is a row of the table afterwards. */
  lemma PackedRow(a: Activity, rows: seq<Row>, now: int, t: int, u: int) returns (j: nat)
    requires WellFormed(rows) && RentsWholeUnit(a) && Backfilled(a, rows, now).0.Done?
    requires CountAmong(Pack(a, Placed(rows, now), Waiting(rows, now)).placed, OnUnit(u), t) > 0
    ensures var after := After(a, rows, now);
            j < |after| && FutureRow(now)(after[j]) && OnUnit(u)(after[j].stay) && Covers(after[j].stay, t)
  {
    var after, w := After(a, rows, now), OneWhere(OnUnit(u), t);
    FutureAfter(a, rows, now);
    SumPermutation(Future(after, now), Pack(a, Placed(rows, now), Waiting(rows, now)).placed, w);
    var y := SumPositive(Future(after, now), w);
    j := RowOf(after, FutureRow(now), y);
  }

  /** Somebody packed into `u`, where nobody had been placed, was waiting. */
  lemma PackedThereWaited(a: Activity, rows: seq<Row>, now: int, t: int, u: int) returns (j: nat)
    requires WellFormed(rows) && RentsWholeUnit(a) && Backfilled(a, rows, now).0.Done?
    requires CountAmong(Placed(rows, now), OnUnit(u), t) == 0
    requires CountAmong(Pack(a, Placed(rows, now), Waiting(rows, now)).placed, OnUnit(u), t) > 0
    ensures j < |rows| == |After(a, rows, now)| && WaitingRow(now)(rows[j])
    ensures OnUnit(u)(After(a, rows, now)[j].stay) && Covers(rows[j].stay, t)
  {
    j := PackedRow(a, rows, now, t, u);
    LengthKept(a, rows, now);
    KeepsTimes(a, rows, now, j);
    if !WaitingRow(now)(rows[j]) {
      RowWeighs(rows, PlacedRow(now), j, OneWhere(OnUnit(u), t));
    }
  }

  lemma LengthKept(a: Activity, rows: seq<Row>, now: int)
    ensures |After(a, rows, now)| == |rows|
  {
  }

  lemma KeepsTimes(a: Activity, rows: seq<Row>, now: int, j: nat)
    requires WellFormed(rows) && Backfilled(a, rows, now).0.Done? && j < |rows|
    ensures |After(a, rows, now)| == |rows|
    ensures var x, y := rows[j], After(a, rows, now)[j];
            x.stay.start == y.stay.start && x.stay.end == y.stay.end && Holds(x, now) == Holds(y, now)
            && (x != y ==> WaitingRow(now)(x))
  {
    BackfillAssignsEveryone(a, rows, now, now);
    assert After(a, rows, now)[j].stay.(unit := rows[j].stay.unit) == rows[j].stay;
    assert After(a, rows, now)[j].(stay := rows[j].stay) == rows[j];
  }

  lemma OverThere(rows: seq<Row>, now: int, t: int, u: int) returns (i: nat)
    requires CountAmong(Over(rows, now), OnUnit(u), t) > 0
    ensures i < |rows| && OverRow(now)(rows[i]) && OnUnit(u)(rows[i].stay) && Covers(rows[i].stay, t)
  {
    var x := SumPositive(Over(rows, now), OneWhere(OnUnit(u), t));
    i := RowOf(rows, OverRow(now), x);
  }

  /** A unit held by somebody who is over and by somebody packed is a clash. */
  lemma ClashFound(a: Activity, rows: seq<Row>, now: int, t: int, u: int)
    requires WellFormed(rows) && RentsWholeUnit(a) && Backfilled(a, rows, now).0.Done?
    requires CountAmong(Placed(rows, now), OnUnit(u), t) == 0
    requires CountAmong(Over(rows, now), OnUnit(u), t) > 0
    requires CountAmong(Pack(a, Placed(rows, now), Waiting(rows, now)).placed, OnUnit(u), t) > 0
    ensures Clash(a, rows, now, t)
  {
    var i := OverThere(rows, now, t, u);
    var j := PackedThereWaited(a, rows, now, t, u);
    assert ClashAt(a, rows, now, t, i, j);
  }

  lemma RowOf(rows: seq<Row>, p: Row -> bool, b: Stay) returns (i: nat)
    requires b in Map(Filter(rows, p), StayOf())
    ensures i < |rows| && p(rows[i]) && rows[i].stay == b
  {
    var f := Filter(rows, p);
    FilterMembers(rows, p);
    var k :| 0 <= k < |f| && StayOf()(f[k]) == b;
    assert f[k] in f;
    i :| 0 <= i < |rows| && rows[i] == f[k];
  }

  lemma StayAmong(rows: seq<Row>, p: Row -> bool, i: nat)
    requires i < |rows| && p(rows[i])
    ensures rows[i].stay in Map(Filter(rows, p), StayOf())
  {
    var f := Filter(rows, p);
    FilterMembers(rows, p);
    assert rows[i] in f;
    var k :| 0 <= k < |f| && f[k] == rows[i];
    assert Map(f, StayOf())[k] == rows[i].stay;
  }

  /** Somebody selected weighs at most as much as all selected together. */
  lemma RowWeighs(rows: seq<Row>, p: Row -> bool, j: nat, w: Stay -> int)
    requires j < |rows| && p(rows[j]) && forall b :: 0 <= w(b)
    ensures w(rows[j].stay) <= Sum(Map(Filter(rows, p), StayOf()), w)
  {
    StayAmong(rows, p, j);
    SumAtLeast(Map(Filter(rows, p), StayOf()), w, rows[j].stay);
  }

  /**
   * Whole units: a successful backfill keeps a safe instant safe exactly when no booking that is
   * over and one it places are both present then in the same unit.
   */
  lemma BackfillHarmsExactlyClashes(a: Activity, rows: seq<Row>, now: int, t: int)
    requires WellFormed(rows) && RentsWholeUnit(a) && Backfilled(a, rows, now).0.Done?
    requires SafeAt(a, Live(rows, now), t)
    ensures SafeAt(a, Live(After(a, rows, now), now), t) <==> !Clash(a, rows, now, t)
  {
    var after := Live(After(a, rows, now), now);
    CountsAfter(a, rows, now, t);
    if Clash(a, rows, now, t) {
      var i, j :| 0 <= i < |rows| && 0 <= j < |rows| && ClashAt(a, rows, now, t, i, j);
      ClashHolds(a, rows, now, t, i, j);
    } else {
      forall u | 1 <= u <= a.unitCount ensures CountAmong(after, OnUnit(u), t) <= 1 {
        SumNonNegative(Placed(rows, now), OneWhere(OnUnit(u), t));
        if CountAmong(after, OnUnit(u), t) > 1 {
          ClashFound(a, rows, now, t, u);
        }
      }
      SumNonNegative(Live(rows, now), OneWhere(OutOfRange(a.unitCount), t));
      EverybodyCounted(a, Live(rows, now), t);
      EverybodyCounted(a, after, t);
    }
  }

  lemma ClashHolds(a: Activity, rows: seq<Row>, now: int, t: int, i: nat, j: nat)
    requires WellFormed(rows) && RentsWholeUnit(a) && Backfilled(a, rows, now).0.Done?
    requires i < |rows| && j < |rows| && ClashAt(a, rows, now, t, i, j)
    ensures !SafeAt(a, Live(After(a, rows, now), now), t)
  {
    var after, u := After(a, rows, now), rows[i].stay.unit.value;
    PlacedIntoRange(a, rows, now, j);
    KeepsTimes(a, rows, now, j);
    OverUntouched(a, rows, now);
    OverPresent(rows, now, i, u, t);
    FuturePresent(after, now, j, u, t);
    OverAndFuture(after, now, OneWhere(OnUnit(u), t));
    TwiceHeld(a, Live(after, now), u, t);
  }

  lemma TwiceHeld(a: Activity, live: seq<Stay>, u: int, t: int)
    requires RentsWholeUnit(a) && 1 <= u <= a.unitCount && CountAmong(live, OnUnit(u), t) >= 2
    ensures !SafeAt(a, live, t)
  {
  }

  lemma OverPresent(rows: seq<Row>, now: int, i: nat, u: int, t: int)
    requires i < |rows| && OverRow(now)(rows[i]) && rows[i].stay.unit == Some(u) && Covers(rows[i].stay, t)
    ensures CountAmong(Over(rows, now), OnUnit(u), t) >= 1
  {
    RowWeighs(rows, OverRow(now), i, OneWhere(OnUnit(u), t));
  }

  lemma FuturePresent(rows: seq<Row>, now: int, j: nat, u: int, t: int)
    requires j < |rows| && FutureRow(now)(rows[j]) && rows[j].stay.unit == Some(u) && Covers(rows[j].stay, t)
    ensures CountAmong(Future(rows, now), OnUnit(u), t) >= 1
  {
    RowWeighs(rows, FutureRow(now), j, OneWhere(OnUnit(u), t));
  }

  lemma PlacedIntoRange(a: Activity, rows: seq<Row>, now: int, j: nat)
    requires WellFormed(rows) && Backfilled(a, rows, now).0.Done? && j < |rows| && WaitingRow(now)(rows[j])
    ensures j < |After(a, rows, now)| && FutureRow(now)(After(a, rows, now)[j])
    ensures AmongUnits(a.unitCount)(After(a, rows, now)[j].stay)
  {
    BackfillAssignsEveryone(a, rows, now, now);
    KeepsTimes(a, rows, now, j);
  }

  lemma ClearPastNeverClashes(a: Activity, rows: seq<Row>, now: int, t: int)
    requires PastIsClear(rows, now)
    ensures !Clash(a, rows, now, t)
  {
    forall i, j | 0 <= i < |rows| && 0 <= j < |rows| ensures !ClashAt(a, rows, now, t, i, j) {
      assert Covers(rows[i].stay, t) && Covers(rows[j].stay, t) ==> Overlaps(rows[i].stay, rows[j].stay.start, rows[j].stay.end);
    }
  }

  /** So a backfill over a clear past harms no instant at all. */
  lemma ClearPastHarmsNothing(a: Activity, rows: seq<Row>, now: int, t: int)
    requires WellFormed(rows) && (RentsWholeUnit(a) ==> PastIsClear(rows, now))
    requires SafeAt(a, Live(rows, now), t)
    ensures SafeAt(a, Live(After(a, rows, now), now), t)
  {
    if !RentsWholeUnit(a) {
      BackfillHarmsNoSharedInstant(a, rows, now, t);
    } else if Backfilled(a, rows, now).0.Done? {
      ClearPastNeverClashes(a, rows, now, t);
      BackfillHarmsExactlyClashes(a, rows, now, t);
    }
  }
}
