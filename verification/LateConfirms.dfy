/**
 * A payment that arrives after its reservation ran out. The row holds no seat by then, others may
 * have been let in, and the confirmation puts it back without asking.
 */
module LateConfirms {
  import opened Common
  import opened Occupancy
  import opened Capacity
  import opened BookingTable

  /** There is room for `b` at `t` next to everybody who holds a seat. */
  ghost predicate RoomAt(a: Activity, live: seq<Stay>, b: Stay, t: int) {
    if !a.hasUnits then
      a.capacity.Some? ==> Load(live, t) + b.guests <= a.capacity.value
    else
      && (b.unit.Some? ==> 1 <= b.unit.value <= a.unitCount)
      && if RentsWholeUnit(a) then
           && (b.unit.Some? ==> CountAmong(live, OnUnit(b.unit.value), t) == 0)
           && Occupied(live, a.unitCount, t) + CountAmong(live, Orphan(), t) < a.unitCount
         else
           forall u | 1 <= u <= a.unitCount && Shared(u)(b) :: GuestsAmong(live, Shared(u), t) + b.guests <= a.unitCapacity
  }

  // ----- one more stay at an instant -----

  lemma {:induction false} OccupiedByOneMore(live: seq<Stay>, b: Stay, n: nat, t: int)
    requires Covers(b, t)
    requires b.unit.Some? ==> CountAmong(live, OnUnit(b.unit.value), t) == 0
    ensures Occupied(live + [b], n, t) == Occupied(live, n, t) + if b.unit.Some? && 1 <= b.unit.value <= n then 1 else 0
  {
    if n > 0 {
      OccupiedByOneMore(live, b, n - 1, t);
      SumAppend(live, b, OneWhere(OnUnit(n), t));
      SumNonNegative(live, OneWhere(OnUnit(n), t));
    }
  }

  lemma PoolTakesOneMore(a: Activity, live: seq<Stay>, b: Stay, t: int)
    requires !a.hasUnits && Covers(b, t)
    ensures SafeAt(a, live + [b], t) <==> RoomAt(a, live, b, t)
  {
    SumAppend(live, b, GuestsAt(t));
  }

  lemma RangeTakesOneMore(a: Activity, live: seq<Stay>, b: Stay, t: int)
    requires Covers(b, t) && CountAmong(live, OutOfRange(a.unitCount), t) <= 0
    ensures CountAmong(live + [b], OutOfRange(a.unitCount), t) <= 0 <==> (b.unit.Some? ==> 1 <= b.unit.value <= a.unitCount)
  {
    SumAppend(live, b, OneWhere(OutOfRange(a.unitCount), t));
    SumNonNegative(live, OneWhere(OutOfRange(a.unitCount), t));
  }

  lemma SharedTakesOneMore(a: Activity, live: seq<Stay>, b: Stay, t: int)
    requires a.hasUnits && !RentsWholeUnit(a) && Covers(b, t) && SafeAt(a, live, t)
    ensures SafeAt(a, live + [b], t) <==> RoomAt(a, live, b, t)
  {
    RangeTakesOneMore(a, live, b, t);
    forall u ensures GuestsAmong(live + [b], Shared(u), t) == GuestsAmong(live, Shared(u), t) + if Shared(u)(b) then b.guests else 0 {
      SumAppend(live, b, GuestsWhere(Shared(u), t));
    }
  }

  lemma WholeTakesOneMore(a: Activity, live: seq<Stay>, b: Stay, t: int)
    requires RentsWholeUnit(a) && Covers(b, t) && SafeAt(a, live, t)
    ensures SafeAt(a, live + [b], t) <==> RoomAt(a, live, b, t)
  {
    RangeTakesOneMore(a, live, b, t);
    SumAppend(live, b, OneWhere(Orphan(), t));
    forall u
      ensures CountAmong(live + [b], OnUnit(u), t) == CountAmong(live, OnUnit(u), t) + if b.unit == Some(u) then 1 else 0
      ensures CountAmong(live, OnUnit(u), t) >= 0
    {
      SumAppend(live, b, OneWhere(OnUnit(u), t));
      SumNonNegative(live, OneWhere(OnUnit(u), t));
    }
    if b.unit.Some? ==> CountAmong(live, OnUnit(b.unit.value), t) == 0 {
      OccupiedByOneMore(live, b, a.unitCount, t);
    }
  }

  /** At an instant the stay covers, one more stay keeps a safe table safe exactly when there is room for it. */
  lemma OneMoreIsSafeExactly(a: Activity, live: seq<Stay>, b: Stay, t: int)
    requires Covers(b, t) && SafeAt(a, live, t)
    ensures SafeAt(a, live + [b], t) <==> RoomAt(a, live, b, t)
  {
    if !a.hasUnits {
      PoolTakesOneMore(a, live, b, t);
    } else if RentsWholeUnit(a) {
      WholeTakesOneMore(a, live, b, t);
    } else {
      SharedTakesOneMore(a, live, b, t);
    }
  }

  /** A stay elsewhere in time makes no difference at `t`. */
  lemma OneMoreElsewhere(a: Activity, live: seq<Stay>, b: Stay, t: int)
    requires !Covers(b, t)
    ensures SafeAt(a, live + [b], t) <==> SafeAt(a, live, t)
  {
    SumAppend(live, b, GuestsAt(t));
    SumAppend(live, b, OneWhere(OutOfRange(a.unitCount), t));
    SumAppend(live, b, OneWhere(Orphan(), t));
    forall u
      ensures CountAmong(live + [b], OnUnit(u), t) == CountAmong(live, OnUnit(u), t)
      ensures GuestsAmong(live + [b], Shared(u), t) == GuestsAmong(live, Shared(u), t)
    {
      SumAppend(live, b, OneWhere(OnUnit(u), t));
      SumAppend(live, b, GuestsWhere(Shared(u), t));
    }
    OccupiedElsewhere(live, b, a.unitCount, t);
  }

  // ----- the order of the rows does not matter -----

  lemma {:induction false} OccupiedSame(x: seq<Stay>, y: seq<Stay>, n: nat, t: int)
    requires multiset(x) == multiset(y)
    ensures Occupied(x, n, t) == Occupied(y, n, t)
  {
    if n > 0 {
      OccupiedSame(x, y, n - 1, t);
      SumPermutation(x, y, OneWhere(OnUnit(n), t));
    }
  }

  lemma SafetyIgnoresOrder(a: Activity, x: seq<Stay>, y: seq<Stay>, t: int)
    requires multiset(x) == multiset(y)
    ensures SafeAt(a, x, t) <==> SafeAt(a, y, t)
  {
    SumPermutation(x, y, GuestsAt(t));
    SumPermutation(x, y, OneWhere(OutOfRange(a.unitCount), t));
    SumPermutation(x, y, OneWhere(Orphan(), t));
    forall u
      ensures CountAmong(x, OnUnit(u), t) == CountAmong(y, OnUnit(u), t)
      ensures GuestsAmong(x, Shared(u), t) == GuestsAmong(y, Shared(u), t)
    {
      SumPermutation(x, y, OneWhere(OnUnit(u), t));
      SumPermutation(x, y, GuestsWhere(Shared(u), t));
    }
    OccupiedSame(x, y, a.unitCount, t);
  }

  lemma LiveConcat(x: seq<Row>, y: seq<Row>, now: int)
    ensures Live(x + y, now) == Live(x, now) + Live(y, now)
  {
    FilterConcat(x, y, Holding(now));
    MapConcat(Filter(x, Holding(now)), Filter(y, Holding(now)), StayOf());
  }

  lemma LiveOne(r: Row, now: int)
    ensures Live([r], now) == if Holds(r, now) then [r.stay] else []
  {
    assert [] + [r] == [r];
    LiveAppend([], r, now);
    assert Live([], now) == [];
  }

  lemma LiveAround(before: seq<Row>, r: Row, after: seq<Row>, now: int)
    ensures Live(before + ([r] + after), now)
         == Live(before, now) + ((if Holds(r, now) then [r.stay] else []) + Live(after, now))
  {
    LiveConcat(before, [r] + after, now);
    LiveConcat([r], after, now);
    LiveOne(r, now);
  }

  lemma MovedToTheEnd(x: seq<Stay>, b: Stay, y: seq<Stay>)
    ensures multiset(x + ([b] + y)) == multiset(x + ([] + y) + [b])
  {
    assert [] + y == y;
  }

  /** A row that held nothing and now does adds its stay to those who hold a seat. */
  lemma PutBack(rows: seq<Row>, i: nat, r: Row, now: int)
    requires i < |rows| && !Holds(rows[i], now) && Holds(r, now)
    ensures multiset(Live(rows[i := r], now)) == multiset(Live(rows, now) + [r.stay])
  {
    var before, after := rows[..i], rows[i + 1..];
    LiveAround(before, rows[i], after, now);
    LiveAround(before, r, after, now);
    MovedToTheEnd(Live(before, now), r.stay, Live(after, now));
    assert rows == before + ([rows[i]] + after) && rows[i := r] == before + ([r] + after);
  }

  /** A row put back keeps a safe instant safe exactly when its stay is elsewhere or still has room. */
  lemma PutBackIsSafeExactly(a: Activity, rows: seq<Row>, i: nat, r: Row, now: int, t: int)
    requires i < |rows| && !Holds(rows[i], now) && Holds(r, now)
    requires SafeAt(a, Live(rows, now), t)
    ensures SafeAt(a, Live(rows[i := r], now), t) <==> (Covers(r.stay, t) ==> RoomAt(a, Live(rows, now), r.stay, t))
  {
    PutBack(rows, i, r, now);
    SafetyIgnoresOrder(a, Live(rows[i := r], now), Live(rows, now) + [r.stay], t);
    if Covers(r.stay, t) {
      OneMoreIsSafeExactly(a, Live(rows, now), r.stay, t);
    } else {
      OneMoreElsewhere(a, Live(rows, now), r.stay, t);
    }
  }
}
