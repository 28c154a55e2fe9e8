/**
 * The booking table of one activity: which rows hold a seat, and what it means for the seats
 * they hold not to exceed the activity at an instant.
 */
module BookingTable {
  import opened Common
  import opened Occupancy
  import opened Capacity

  /** `Removed` stands for a deleted row; no query sees it. */
  datatype Status = Pending | Confirmed | Completed | Cancelled | Removed

  /** `bookedUnit` is the unit the booking was created with, frozen beside its payment. */
  datatype Row = Row(stay: Stay, status: Status, reservedUntil: Option<int>, createdAt: int, bookedUnit: Option<int>)

  /**
   * A row holds a seat unless it is cancelled, or a pending reservation whose window ran out
   * strictly before `now`. (A pending row without a deadline compares as unknown and drops out.)
   */
  predicate Holds(r: Row, now: int) {
    && r.status != Cancelled && r.status != Removed
    && (r.status == Pending ==> r.reservedUntil.Some? && now <= r.reservedUntil.value)
  }

  function Holding(now: int): Row -> bool {
    (r: Row) => Holds(r, now)
  }

  function StayOf(): Row -> Stay {
    (r: Row) => r.stay
  }

  function Live(rows: seq<Row>, now: int): seq<Stay> {
    Map(Filter(rows, Holding(now)), StayOf())
  }

  /** Rows are identified by their position; every stay is a real one. */
  predicate WellFormed(rows: seq<Row>) {
    forall i | 0 <= i < |rows| :: rows[i].stay.id == i && Proper(rows[i].stay)
  }

  lemma LiveProper(rows: seq<Row>, now: int)
    requires WellFormed(rows)
    ensures forall b | b in Live(rows, now) :: Proper(b)
  {
    FilterMembers(rows, Holding(now));
    forall b | b in Live(rows, now) ensures Proper(b) {
      var i :| 0 <= i < |Live(rows, now)| && Live(rows, now)[i] == b;
      assert Filter(rows, Holding(now))[i] in rows;
    }
  }

  lemma LiveAppend(rows: seq<Row>, r: Row, now: int)
    ensures Live(rows + [r], now) == Live(rows, now) + if Holds(r, now) then [r.stay] else []
  {
    FilterAppend(rows, r, Holding(now));
    MapConcat(Filter(rows, Holding(now)), if Holds(r, now) then [r] else [], StayOf());
  }

  // ----- shrinking: rows that stop holding a seat never add to any sum -----

  /** Position by position the same stays, and whatever holds a seat after held it before. */
  ghost predicate Shrinks(rows: seq<Row>, now: int, rows': seq<Row>, now': int) {
    && |rows'| == |rows|
    && forall i | 0 <= i < |rows| ::
         rows'[i].stay == rows[i].stay && (Holds(rows'[i], now') ==> Holds(rows[i], now))
  }

  lemma {:induction false} ShrinkSum(rows: seq<Row>, now: int, rows': seq<Row>, now': int, w: Stay -> int)
    requires Shrinks(rows, now, rows', now')
    requires forall b :: 0 <= w(b)
    ensures Sum(Live(rows', now'), w) <= Sum(Live(rows, now), w)
  {
    if rows != [] {
      var n := |rows| - 1;
      ShrinkSum(rows[..n], now, rows'[..n], now', w);
      assert rows == rows[..n] + [rows[n]] && rows' == rows'[..n] + [rows'[n]];
      LiveAppend(rows[..n], rows[n], now);
      LiveAppend(rows'[..n], rows'[n], now');
      SumAppend(Live(rows[..n], now), rows[n].stay, w);
      SumAppend(Live(rows'[..n], now'), rows'[n].stay, w);
      assert Live(rows[..n], now) + [] == Live(rows[..n], now);
      assert Live(rows'[..n], now') + [] == Live(rows'[..n], now');
    }
  }

  // ----- safety at an instant -----

  /** Number of units among 1..n that some stay present at `t` holds. */
  function Occupied(live: seq<Stay>, n: nat, t: int): nat {
    if n == 0 then 0
    else Occupied(live, n - 1, t) + if CountAmong(live, OnUnit(n), t) > 0 then 1 else 0
  }

  /** Nobody is double-sold at `t`, whatever units the orphans turn out to sit in. */
  ghost predicate SafeAt(a: Activity, live: seq<Stay>, t: int) {
    if !a.hasUnits then
      a.capacity.Some? ==> Load(live, t) <= a.capacity.value
    else
      && CountAmong(live, OutOfRange(a.unitCount), t) <= 0
      && if RentsWholeUnit(a) then
           && (forall u | 1 <= u <= a.unitCount :: CountAmong(live, OnUnit(u), t) <= 1)
           && Occupied(live, a.unitCount, t) + CountAmong(live, Orphan(), t) <= a.unitCount
         else
           forall u | 1 <= u <= a.unitCount :: GuestsAmong(live, Shared(u), t) <= a.unitCapacity
  }

  ghost predicate SafeFrom(a: Activity, live: seq<Stay>, start: int) {
    forall t | start <= t :: SafeAt(a, live, t)
  }

  lemma {:induction false} OccupiedMonotone(live: seq<Stay>, live': seq<Stay>, n: nat, t: int)
    requires forall u :: CountAmong(live', OnUnit(u), t) <= CountAmong(live, OnUnit(u), t)
    ensures Occupied(live', n, t) <= Occupied(live, n, t)
  {
    if n > 0 {
      OccupiedMonotone(live, live', n - 1, t);
    }
  }

  /** Losing seats keeps an instant safe. */
  lemma ShrinkKeepsSafe(a: Activity, rows: seq<Row>, now: int, rows': seq<Row>, now': int, t: int)
    requires Shrinks(rows, now, rows', now')
    requires SafeAt(a, Live(rows, now), t)
    ensures SafeAt(a, Live(rows', now'), t)
  {
    var live, live' := Live(rows, now), Live(rows', now');
    ShrinkSum(rows, now, rows', now', GuestsAt(t));
    ShrinkSum(rows, now, rows', now', OneWhere(OutOfRange(a.unitCount), t));
    ShrinkSum(rows, now, rows', now', OneWhere(Orphan(), t));
    forall u
      ensures CountAmong(live', OnUnit(u), t) <= CountAmong(live, OnUnit(u), t)
      ensures GuestsAmong(live', Shared(u), t) <= GuestsAmong(live, Shared(u), t)
    {
      ShrinkSum(rows, now, rows', now', OneWhere(OnUnit(u), t));
      ShrinkSum(rows, now, rows', now', GuestsWhere(Shared(u), t));
    }
    OccupiedMonotone(live, live', a.unitCount, t);
  }

  // ----- accepting a request keeps every instant safe -----

  /** A unit free over a window is held by nobody at any instant of it. */
  lemma {:induction false} OccupiedOrFree(a: Activity, live: seq<Stay>, lo: int, hi: int, g: nat, n: nat, t: int)
    requires RentsWholeUnit(a) && lo <= t < hi
    ensures Occupied(live, n, t) + |FreeUnits(a, live, lo, hi, g, n)| <= n
  {
    if n > 0 {
      OccupiedOrFree(a, live, lo, hi, g, n - 1, t);
      if UnitFits(a, live, lo, hi, g, n) {
        FreeUnitEmpty(a, live, lo, hi, g, n);
      }
    }
  }

  lemma {:induction false} OccupiedAppend(live: seq<Stay>, b: Stay, n: nat, t: int)
    ensures Occupied(live + [b], n, t) <= Occupied(live, n, t) + if b.unit.Some? && 1 <= b.unit.value <= n then 1 else 0
  {
    if n > 0 {
      OccupiedAppend(live, b, n - 1, t);
      SumAppend(live, b, OneWhere(OnUnit(n), t));
    }
  }

  lemma {:induction false} OccupiedElsewhere(live: seq<Stay>, b: Stay, n: nat, t: int)
    requires !Covers(b, t)
    ensures Occupied(live + [b], n, t) == Occupied(live, n, t)
  {
    if n > 0 {
      OccupiedElsewhere(live, b, n - 1, t);
      SumAppend(live, b, OneWhere(OnUnit(n), t));
    }
  }

  /** A booking created on an accepted verdict leaves every safe instant safe. */
  lemma AcceptKeepsSafe(a: Activity, live: seq<Stay>, b: Stay, t: int)
    requires Proper(b) && forall x | x in live :: Proper(x)
    requires Decide(a, live, b.start, b.end, b.guests) == Accepted(b.unit)
    requires SafeAt(a, live, t)
    ensures SafeAt(a, live + [b], t)
  {
    SumAppend(live, b, GuestsAt(t));
    SumAppend(live, b, OneWhere(OutOfRange(a.unitCount), t));
    SumAppend(live, b, OneWhere(Orphan(), t));
    forall u
      ensures CountAmong(live + [b], OnUnit(u), t) == CountAmong(live, OnUnit(u), t) + OneWhere(OnUnit(u), t)(b)
      ensures GuestsAmong(live + [b], Shared(u), t) == GuestsAmong(live, Shared(u), t) + GuestsWhere(Shared(u), t)(b)
    {
      SumAppend(live, b, OneWhere(OnUnit(u), t));
      SumAppend(live, b, GuestsWhere(Shared(u), t));
    }
    if !Covers(b, t) {
      OccupiedElsewhere(live, b, a.unitCount, t);
    } else if !a.hasUnits {
      PoolVerdict(a, live, b.start, b.end, b.guests);
    } else if RentsWholeUnit(a) {
      WholeUnitVerdict(a, live, b.start, b.end, b.guests);
      FreeUnitEmpty(a, live, b.start, b.end, b.guests, b.unit.value);
      OccupiedOrFree(a, live, b.start, b.end, b.guests, a.unitCount, t);
      OccupiedAppend(live, b, a.unitCount, t);
      OrphansAtInstant(live, b.start, b.end, t);
    } else {
      PerPersonVerdict(a, live, b.start, b.end, b.guests);
    }
  }

  lemma OrphansAtInstant(live: seq<Stay>, lo: int, hi: int, t: int)
    requires lo <= t < hi
    ensures CountAmong(live, Orphan(), t) <= |UnassignedOverlapping(live, lo, hi)|
  {
    FilterLength(live, OrphanWithin(lo, hi));
    SumBounds(live, OneWhere(Orphan(), t), Indicator(OrphanWithin(lo, hi)));
  }
}
