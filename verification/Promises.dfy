/**
 * What createBooking and the runs of its table promise, said in rows, times and fields alone:
 * who gets which unit, and that nothing is sold twice.
 */
module Promises {
  import opened Common
  import opened Occupancy
  import opened Capacity
  import opened BookingTable
  import opened LateConfirms
  import opened Recovery
  import opened Reservations

  // ----- which requests are accepted -----

  lemma {:induction false} FreeUnitsSize(a: Activity, live: seq<Stay>, lo: int, hi: int, g: nat, n: nat, free: set<int>)
    requires RentsWholeUnit(a)
    requires free == set u | 1 <= u <= n && (forall b | b in live && b.unit == Some(u) :: b.end <= lo || hi <= b.start)
    ensures |FreeUnits(a, live, lo, hi, g, n)| == |free|
  {
    if n > 0 {
      var below := set u | 1 <= u <= n - 1 && (forall b | b in live && b.unit == Some(u) :: b.end <= lo || hi <= b.start);
      FreeUnitsSize(a, live, lo, hi, g, n - 1, below);
      assert UnitFits(a, live, lo, hi, g, n) <==> n in free;
      assert free == if n in free then below + {n} else below;
    } else {
      assert free == {};
    }
  }

  /** A booking without a unit that overlaps [lo, hi). */
  predicate Roams(b: Stay, lo: int, hi: int) {
    b.unit == None && b.start < hi && lo < b.end
  }

  lemma {:induction false} OrphansSize(live: seq<Stay>, lo: int, hi: int, orphans: set<int>)
    requires orphans == set i | 0 <= i < |live| && Roams(live[i], lo, hi)
    ensures |UnassignedOverlapping(live, lo, hi)| == |orphans|
  {
    if live != [] {
      var n := |live| - 1;
      var before := set i | 0 <= i < n && Roams(live[..n][i], lo, hi);
      OrphansSize(live[..n], lo, hi, before);
      OneMoreOrphan(live, n, lo, hi, before, orphans);
    } else {
      assert orphans == {};
    }
  }

  lemma OneMoreOrphan(live: seq<Stay>, n: nat, lo: int, hi: int, before: set<int>, orphans: set<int>)
    requires n + 1 == |live|
    requires before == set i | 0 <= i < n && Roams(live[..n][i], lo, hi)
    requires orphans == set i | 0 <= i < |live| && Roams(live[i], lo, hi)
    ensures |orphans| == |before| + if Roams(live[n], lo, hi) then 1 else 0
    ensures |UnassignedOverlapping(live, lo, hi)| == |UnassignedOverlapping(live[..n], lo, hi)| + if Roams(live[n], lo, hi) then 1 else 0
  {
    assert orphans == if Roams(live[n], lo, hi) then before + {n} else before;
    assert live == live[..n] + [live[n]];
    FilterAppend(live[..n], live[n], OrphanWithin(lo, hi));
  }

  /**
   * Rooms by the night, and whatever is priced by the unit: a request is accepted exactly when the
   * party fits a unit and more units are free over the whole stay than bookings without a unit
   * overlap it. It gets the lowest free unit, which nobody holds at any time of the stay.
   */
  lemma RoomsAreRentedWhole(a: Activity, live: seq<Stay>, lo: int, hi: int, g: nat)
    requires a.hasUnits && (a.bookingType == Daily || a.pricing == PerUnit) && lo < hi && g >= 1
    requires forall b | b in live :: b.start < b.end && b.guests >= 1
    ensures var free := set u | 1 <= u <= a.unitCount && (forall b | b in live && b.unit == Some(u) :: b.end <= lo || hi <= b.start);
            var orphans := set i | 0 <= i < |live| && Roams(live[i], lo, hi);
            match Decide(a, live, lo, hi, g)
            case Accepted(unit) => |free| > |orphans| && g <= a.unitCapacity && unit.Some? && unit.value in free && (forall u | u in free :: unit.value <= u)
            case AllUnitsFull => |free| <= |orphans| && a.unitCount > 0
            case TooFewPlaces => a.unitCount == 0 || (|free| > |orphans| && g > a.unitCapacity)
  {
    var free := set u | 1 <= u <= a.unitCount && (forall b | b in live && b.unit == Some(u) :: b.end <= lo || hi <= b.start);
    var orphans := set i | 0 <= i < |live| && Roams(live[i], lo, hi);
    FreeUnitsSize(a, live, lo, hi, g, a.unitCount, free);
    OrphansSize(live, lo, hi, orphans);
    WholeUnitVerdict(a, live, lo, hi, g);
    forall u | 1 <= u <= a.unitCount ensures u in free <==> UnitFits(a, live, lo, hi, g, u) {
    }
    PeakNonNegative(live, lo, hi);
  }

  /** Guests in unit u, or in none, at t. */
  function SeatsTaken(live: seq<Stay>, u: int, t: int): int {
    if live == [] then 0
    else
      var n := |live| - 1;
      SeatsTaken(live[..n], u, t)
      + if (live[n].unit == Some(u) || live[n].unit == None) && live[n].start <= t < live[n].end then live[n].guests else 0
  }

  lemma {:induction false} SeatsTakenIsShared(live: seq<Stay>, u: int, t: int)
    ensures SeatsTaken(live, u, t) == GuestsAmong(live, Shared(u), t)
  {
    if live != [] {
      SeatsTakenIsShared(live[..|live| - 1], u, t);
    }
  }

  /** Guests present at t. */
  function GuestsPresent(live: seq<Stay>, t: int): int {
    if live == [] then 0
    else
      var n := |live| - 1;
      GuestsPresent(live[..n], t) + if live[n].start <= t < live[n].end then live[n].guests else 0
  }

  lemma {:induction false} GuestsPresentIsLoad(live: seq<Stay>, t: int)
    ensures GuestsPresent(live, t) == Load(live, t)
  {
    if live != [] {
      GuestsPresentIsLoad(live[..|live| - 1], t);
    }
  }

  /** Unit u has g seats at every instant of [lo, hi). */
  predicate HasSeats(a: Activity, live: seq<Stay>, lo: int, hi: int, g: nat, u: int) {
    forall t | lo <= t < hi :: SeatsTaken(live, u, t) + g <= a.unitCapacity
  }

  /**
   * Hourly activities priced by the person, with units: a request is accepted exactly when some
   * unit has the seats at every instant, next to its own guests and all bookings without a unit.
   * It gets the lowest such unit.
   */
  lemma SeatsAreSoldOneByOne(a: Activity, live: seq<Stay>, lo: int, hi: int, g: nat)
    requires a.hasUnits && a.bookingType == Hourly && a.pricing == PerPerson && lo < hi && g >= 1
    ensures var seats := set u | 1 <= u <= a.unitCount && HasSeats(a, live, lo, hi, g, u);
            match Decide(a, live, lo, hi, g)
            case Accepted(unit) => unit.Some? && unit.value in seats && (forall u | u in seats :: unit.value <= u)
            case AllUnitsFull => seats == {} && a.unitCount > 0
            case TooFewPlaces => a.unitCount == 0
  {
    PerPersonVerdict(a, live, lo, hi, g);
    var seats := set u | 1 <= u <= a.unitCount && HasSeats(a, live, lo, hi, g, u);
    forall u ensures u in seats <==> RoomInUnit(a, live, lo, hi, g, u) {
      RoomWrittenOut(a, live, lo, hi, g, u);
    }
    OnlyFullUnits(a, live, lo, hi, g);
  }

  lemma RoomWrittenOut(a: Activity, live: seq<Stay>, lo: int, hi: int, g: nat, u: int)
    ensures RoomInUnit(a, live, lo, hi, g, u) <==> 1 <= u <= a.unitCount && HasSeats(a, live, lo, hi, g, u)
  {
    forall t ensures SeatsTaken(live, u, t) == GuestsAmong(live, Shared(u), t) {
      SeatsTakenIsShared(live, u, t);
    }
  }

  /** With shared units the only refusal is that no unit fits. */
  lemma OnlyFullUnits(a: Activity, live: seq<Stay>, lo: int, hi: int, g: nat)
    requires a.hasUnits && !RentsWholeUnit(a) && lo < hi && g >= 1
    ensures Decide(a, live, lo, hi, g) == AllUnitsFull ==> a.unitCount > 0
    ensures Decide(a, live, lo, hi, g) == TooFewPlaces ==> a.unitCount == 0
  {
    var free := FreeUnits(a, live, lo, hi, g, a.unitCount);
    PeakNonNegative(live, lo, hi);
    if a.unitCount > 0 && free != [] {
      FreeUnitsMembers(a, live, lo, hi, g, a.unitCount);
      assert free[0] in free;
      FitsMeansRoom(a, live, lo, hi, g, free[0]);
      PerPersonVerdict(a, live, lo, hi, g);
    }
  }

  /** No units: accepted exactly when the activity is uncapped or has the places at every instant. */
  lemma PlacesAreCounted(a: Activity, live: seq<Stay>, lo: int, hi: int, g: nat)
    requires !a.hasUnits && lo < hi && g >= 1
    ensures Decide(a, live, lo, hi, g)
         == if a.capacity.None? || (forall t | lo <= t < hi :: GuestsPresent(live, t) + g <= a.capacity.value)
            then Accepted(None) else TooFewPlaces
  {
    PoolVerdict(a, live, lo, hi, g);
    if a.capacity.Some? {
      PlacesWrittenOut(live, lo, hi, a.capacity.value - g);
    }
  }

  lemma PlacesWrittenOut(live: seq<Stay>, lo: int, hi: int, k: int)
    ensures (forall t | lo <= t < hi :: GuestsPresent(live, t) <= k) <==> (forall t | lo <= t < hi :: Load(live, t) <= k)
  {
    if forall t | lo <= t < hi :: GuestsPresent(live, t) <= k {
      forall t | lo <= t < hi ensures Load(live, t) <= k {
        GuestsPresentIsLoad(live, t);
      }
    } else {
      var t :| lo <= t < hi && GuestsPresent(live, t) > k;
      GuestsPresentIsLoad(live, t);
    }
  }

  // ----- who holds a seat -----

  /** Not cancelled, not deleted, not a reservation whose window ran out. */
  predicate Counts(r: Row, now: int) {
    match r.status
    case Confirmed => true
    case Completed => true
    case Pending => r.reservedUntil.Some? && r.reservedUntil.value >= now
    case Cancelled => false
    case Removed => false
  }

  /** The stays that count at `now`. */
  function Counting(rows: seq<Row>, now: int): seq<Stay> {
    if rows == [] then []
    else
      var n := |rows| - 1;
      Counting(rows[..n], now) + if Counts(rows[n], now) then [rows[n].stay] else []
  }

  lemma {:induction false} LiveIsCounting(rows: seq<Row>, now: int)
    ensures Live(rows, now) == Counting(rows, now)
  {
    if rows != [] {
      var n := |rows| - 1;
      LiveIsCounting(rows[..n], now);
      assert rows == rows[..n] + [rows[n]];
      LiveAppend(rows[..n], rows[n], now);
    }
  }

  lemma {:induction false} CountingMember(rows: seq<Row>, now: int, x: Stay)
    requires WellFormed(rows)
    ensures x in Counting(rows, now) <==> x.id < |rows| && rows[x.id].stay == x && Counts(rows[x.id], now)
  {
    if rows != [] {
      var n := |rows| - 1;
      CountingMember(rows[..n], now, x);
      assert rows[n].stay.id == n;
    }
  }

  // ----- what an action does to the seats -----

  /** An accepted request adds its row: reserved for the window, or confirmed when nothing is due. */
  lemma BookingOutcome(a: Activity, b: Book, lo: int, hi: int, g: nat, paid: bool, window: nat)
    ensures var v := Decide(a, Counting(b.rows, b.now), lo, hi, g);
            Step(a, b, Create(lo, hi, g, paid, window))
            == (if lo < hi && g >= 1 && v.Accepted?
                then b.(rows := b.rows + [Row(Stay(|b.rows|, lo, hi, g, v.unit), if paid then Confirmed else Pending,
                                              if paid then None else Some(b.now + window), b.now, v.unit)])
                else b)
  {
    LiveIsCounting(b.rows, b.now);
  }

  /**
   * Cancelling or deleting frees the seat at once, completing keeps it, a payment takes it (back) for
   * a pending booking, waiting frees those of reservations that run out, and a booking brought back
   * takes the one it was made for. Nobody else's seat moves.
   */
  lemma SeatsMove(a: Activity, b: Book, act: Action, x: Stay)
    requires WellFormed(b.rows)
    ensures var e := Step(a, b, act);
            var before, after := x in Counting(b.rows, b.now), x in Counting(e.rows, e.now);
            match act
            case Create(lo, hi, g, paid, window) => before ==> after
            case Confirm(i) => after <==> before || (i < |b.rows| && b.rows[i].status == Pending && x == b.rows[i].stay)
            case Complete(i) => after <==> before
            case Cancel(i) => after <==> before && x.id != i
            case Delete(i) => after <==> before && x.id != i
            case Recover(i) => after <==> before || (e != b && x == b.rows[i].stay.(unit := b.rows[i].bookedUnit))
            case Wait(m) => after <==> before && x.id < |b.rows| && Counts(b.rows[x.id], b.now + m)
            case AssignUnits => true
  {
    StepWellFormed(a, b, act);
    CountingMember(b.rows, b.now, x);
    CountingMember(Step(a, b, act).rows, Step(a, b, act).now, x);
    RowsMove(a, b, Step(a, b, act), act, x);
  }

  /** The stay's own row says so. */
  predicate HasSeat(b: Book, x: Stay) {
    x.id < |b.rows| && b.rows[x.id].stay == x && Counts(b.rows[x.id], b.now)
  }

  lemma RowsMove(a: Activity, b: Book, e: Book, act: Action, x: Stay)
    requires WellFormed(b.rows) && e == Step(a, b, act)
    ensures match act
            case Create(lo, hi, g, paid, window) => HasSeat(b, x) ==> HasSeat(e, x)
            case Confirm(i) => HasSeat(e, x) <==> HasSeat(b, x) || (i < |b.rows| && b.rows[i].status == Pending && x == b.rows[i].stay)
            case Complete(i) => HasSeat(e, x) <==> HasSeat(b, x)
            case Cancel(i) => HasSeat(e, x) <==> HasSeat(b, x) && x.id != i
            case Delete(i) => HasSeat(e, x) <==> HasSeat(b, x) && x.id != i
            case Recover(i) => HasSeat(e, x) <==> HasSeat(b, x) || (e != b && x == b.rows[i].stay.(unit := b.rows[i].bookedUnit))
            case Wait(m) => HasSeat(e, x) <==> HasSeat(b, x) && x.id < |b.rows| && Counts(b.rows[x.id], b.now + m)
            case AssignUnits => true
  {
  }

  /**
   * What happens to the row itself: a payment confirms a pending one, a confirmed one is completed, any
   * row still there can be cancelled, any row deleted. Other rows, and the clock, are left alone.
   */
  lemma StatusMoves(a: Activity, b: Book, i: nat)
    requires i < |b.rows|
    ensures var r := b.rows[i];
            && Step(a, b, Confirm(i)) == (if r.status == Pending then b.(rows := b.rows[i := r.(status := Confirmed)]) else b)
            && Step(a, b, Complete(i)) == (if r.status == Confirmed then b.(rows := b.rows[i := r.(status := Completed)]) else b)
            && Step(a, b, Cancel(i)) == (if r.status == Removed then b else b.(rows := b.rows[i := r.(status := Cancelled)]))
            && Step(a, b, Delete(i)) == b.(rows := b.rows[i := r.(status := Removed)])
  {
  }

  /** A deleted booking comes back exactly when it is not over and the re-check lets it. */
  lemma RecoveryOutcome(a: Activity, b: Book, i: nat)
    requires i < |b.rows|
    ensures var r := b.rows[i];
            var back := r.stay.(unit := r.bookedUnit);
            Step(a, b, Recover(i))
            == (if r.status == Removed && b.now < r.stay.end && FitsAgain(a, Counting(b.rows, b.now), back)
                then b.(rows := b.rows[i := r.(stay := back, status := Confirmed)]) else b)
  {
    LiveIsCounting(b.rows, b.now);
  }

  // ----- what safety says -----

  /** Stays present at t. */
  function PartiesPresent(live: seq<Stay>, t: int): int {
    if live == [] then 0
    else
      var n := |live| - 1;
      PartiesPresent(live[..n], t) + if live[n].start <= t < live[n].end then 1 else 0
  }

  /**
   * No place, seat or room is sold twice at t. Rooms: everybody's unit exists, no two parties present
   * have the same one, and whoever has none still finds one.
   */
  ghost predicate NothingSoldTwice(a: Activity, live: seq<Stay>, t: int) {
    if !a.hasUnits then a.capacity.Some? ==> GuestsPresent(live, t) <= a.capacity.value
    else
      && (forall b | b in live && b.start <= t < b.end && b.unit.Some? :: 1 <= b.unit.value <= a.unitCount)
      && if a.bookingType == Daily || a.pricing == PerUnit then
           && NoUnitTwice(live, t)
           && PartiesPresent(live, t) <= a.unitCount
         else forall u | 1 <= u <= a.unitCount :: SeatsTaken(live, u, t) <= a.unitCapacity
  }

  lemma {:induction false} InRangeWrittenOut(live: seq<Stay>, n: nat, t: int)
    ensures CountAmong(live, OutOfRange(n), t) >= 0
    ensures CountAmong(live, OutOfRange(n), t) == 0
            <==> forall b | b in live && b.start <= t < b.end && b.unit.Some? :: 1 <= b.unit.value <= n
  {
    if live != [] {
      var m := |live| - 1;
      InRangeWrittenOut(live[..m], n, t);
      assert live == live[..m] + [live[m]];
    }
  }

  predicate HeldBy(b: Stay, u: int, t: int) {
    b.unit == Some(u) && b.start <= t < b.end
  }

  /** A unit is held by at most one party exactly when no two positions hold it. */
  lemma {:induction false} HeldTwice(live: seq<Stay>, u: int, t: int)
    ensures CountAmong(live, OnUnit(u), t) >= 0
    ensures CountAmong(live, OnUnit(u), t) == 0 <==> forall i | 0 <= i < |live| :: !HeldBy(live[i], u, t)
    ensures CountAmong(live, OnUnit(u), t) <= 1
            <==> forall i, j | 0 <= i < j < |live| :: !(HeldBy(live[i], u, t) && HeldBy(live[j], u, t))
  {
    if live != [] {
      var m := |live| - 1;
      HeldTwice(live[..m], u, t);
      HeldOnce(live, m, u, t);
    }
  }

  lemma HeldOnce(live: seq<Stay>, m: nat, u: int, t: int)
    requires |live| == m + 1
    ensures CountAmong(live, OnUnit(u), t) == CountAmong(live[..m], OnUnit(u), t) + if HeldBy(live[m], u, t) then 1 else 0
    ensures forall i | 0 <= i < m :: live[..m][i] == live[i]
  {
    assert live == live[..m] + [live[m]];
    SumAppend(live[..m], live[m], OneWhere(OnUnit(u), t));
  }

  /** With no unit held twice, the units held and the orphans are the parties present. */
  lemma {:induction false} PartiesAdd(live: seq<Stay>, n: nat, t: int)
    requires forall b | b in live && b.start <= t < b.end && b.unit.Some? :: 1 <= b.unit.value <= n
    requires forall u :: CountAmong(live, OnUnit(u), t) <= 1
    ensures Occupied(live, n, t) + CountAmong(live, Orphan(), t) == PartiesPresent(live, t)
  {
    if live == [] {
      NobodyOccupies(n, t);
    } else {
      var m := |live| - 1;
      var rest, b := live[..m], live[m];
      assert live == rest + [b];
      forall u ensures CountAmong(rest, OnUnit(u), t) >= 0 && CountAmong(live, OnUnit(u), t) == CountAmong(rest, OnUnit(u), t) + OneWhere(OnUnit(u), t)(b) {
        SumNonNegative(rest, OneWhere(OnUnit(u), t));
        SumAppend(rest, b, OneWhere(OnUnit(u), t));
      }
      SumAppend(rest, b, OneWhere(Orphan(), t));
      PartiesAdd(rest, n, t);
      if Covers(b, t) {
        OccupiedByOneMore(rest, b, n, t);
      } else {
        OccupiedElsewhere(rest, b, n, t);
      }
    }
  }

  /** No two parties present at t have the same unit. */
  predicate NoUnitTwice(live: seq<Stay>, t: int) {
    forall i, j | 0 <= i < j < |live| && live[i].start <= t < live[i].end && live[j].start <= t < live[j].end ::
      live[i].unit == None || live[i].unit != live[j].unit
  }

  lemma NoUnitTwiceMeans(live: seq<Stay>, t: int)
    ensures NoUnitTwice(live, t) <==> forall u :: CountAmong(live, OnUnit(u), t) <= 1
  {
    if NoUnitTwice(live, t) {
      forall u ensures CountAmong(live, OnUnit(u), t) <= 1 {
        HeldTwice(live, u, t);
      }
    } else {
      var i, j :| 0 <= i < j < |live| && live[i].start <= t < live[i].end && live[j].start <= t < live[j].end
                  && !(live[i].unit == None || live[i].unit != live[j].unit);
      HeldTwice(live, live[i].unit.value, t);
      assert HeldBy(live[i], live[i].unit.value, t) && HeldBy(live[j], live[i].unit.value, t);
    }
  }

  /** Nobody holds a unit that does not exist. */
  lemma OutsideIsEmpty(live: seq<Stay>, n: nat, u: int, t: int)
    requires CountAmong(live, OutOfRange(n), t) == 0 && !(1 <= u <= n)
    ensures CountAmong(live, OnUnit(u), t) == 0
  {
    SumBounds(live, OneWhere(OnUnit(u), t), OneWhere(OutOfRange(n), t));
    SumNonNegative(live, OneWhere(OnUnit(u), t));
  }

  lemma RoomsWrittenOut(a: Activity, live: seq<Stay>, t: int)
    requires a.hasUnits && (a.bookingType == Daily || a.pricing == PerUnit)
    ensures SafeAt(a, live, t) <==> NothingSoldTwice(a, live, t)
  {
    InRangeWrittenOut(live, a.unitCount, t);
    if CountAmong(live, OutOfRange(a.unitCount), t) == 0 {
      NoUnitTwiceMeans(live, t);
      forall u | !(1 <= u <= a.unitCount) ensures CountAmong(live, OnUnit(u), t) <= 1 {
        OutsideIsEmpty(live, a.unitCount, u, t);
      }
      if forall u | 1 <= u <= a.unitCount :: CountAmong(live, OnUnit(u), t) <= 1 {
        PartiesAdd(live, a.unitCount, t);
      }
    }
  }

  /** Safety at an instant, written out. */
  lemma SafeMeansNothingSoldTwice(a: Activity, live: seq<Stay>, t: int)
    ensures SafeAt(a, live, t) <==> NothingSoldTwice(a, live, t)
  {
    if !a.hasUnits {
      GuestsPresentIsLoad(live, t);
    } else if a.bookingType == Daily || a.pricing == PerUnit {
      RoomsWrittenOut(a, live, t);
    } else {
      InRangeWrittenOut(live, a.unitCount, t);
      forall u ensures SeatsTaken(live, u, t) == GuestsAmong(live, Shared(u), t) {
        SeatsTakenIsShared(live, u, t);
      }
    }
  }

  /**
   * Whatever an activity that starts empty goes through, if every payment is in time: at no instant
   * is a place, a seat or a room sold twice among the bookings that count.
   */
  lemma NothingIsEverSoldTwice(a: Activity, now: int, acts: seq<Action>, t: int)
    requires a.capacity.Some? ==> a.capacity.value >= 0
    requires PaidInTime(a, Book([], now), acts)
    ensures var e := Run(a, Book([], now), acts); NothingSoldTwice(a, Counting(e.rows, e.now), t)
  {
    var e := Run(a, Book([], now), acts);
    NewActivityNeverOverbooked(a, now, acts, t);
    LiveIsCounting(e.rows, e.now);
    SafeMeansNothingSoldTwice(a, Live(e.rows, e.now), t);
  }
}
