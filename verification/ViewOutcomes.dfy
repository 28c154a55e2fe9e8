/**
 * The figures the three views show, counted booking by booking from times, units and guests alone.
 */
module ViewOutcomes {
  import opened Common
  import opened Occupancy
  import opened Capacity
  import opened Availability
  import opened Calendar
  import opened Promises

  // ----- counting booking by booking -----

  /** Guests of the bookings that overlap [lo, hi). */
  function GuestsOver(live: seq<Stay>, lo: int, hi: int): int {
    if live == [] then 0
    else
      var b := live[|live| - 1];
      GuestsOver(live[..|live| - 1], lo, hi) + if b.start < hi && lo < b.end then b.guests else 0
  }

  /** Those of them in unit u, or (if asked for) in no unit. */
  function GuestsIn(live: seq<Stay>, lo: int, hi: int, u: int, orphans: bool): int {
    if live == [] then 0
    else
      var b := live[|live| - 1];
      GuestsIn(live[..|live| - 1], lo, hi, u, orphans)
      + if b.start < hi && lo < b.end && (b.unit == Some(u) || (orphans && b.unit == None)) then b.guests else 0
  }

  lemma {:induction false} GuestsOverIsSum(live: seq<Stay>, lo: int, hi: int)
    ensures GuestsOver(live, lo, hi) == Sum(Filter(live, Within(lo, hi)), Guests())
  {
    if live != [] {
      var n := |live| - 1;
      assert live == live[..n] + [live[n]];
      GuestsOverIsSum(live[..n], lo, hi);
      SumOfOneMore(live[..n], live[n], Within(lo, hi));
      assert Within(lo, hi)(live[n]) <==> live[n].start < hi && lo < live[n].end;
    }
  }

  lemma SumOfOneMore(bs: seq<Stay>, b: Stay, p: Stay -> bool)
    ensures Sum(Filter(bs + [b], p), Guests()) == Sum(Filter(bs, p), Guests()) + if p(b) then b.guests else 0
  {
    FilterAppend(bs, b, p);
    if p(b) {
      SumAppend(Filter(bs, p), b, Guests());
    } else {
      assert Filter(bs, p) + [] == Filter(bs, p);
    }
  }

  /** Guests on unit u, and the orphans' if asked for, among those who overlap the window. */
  function InWindow(window: seq<Stay>, u: int, orphans: bool): int {
    BookedOn(window, u) + if orphans then Sum(Filter(window, Orphan()), Guests()) else 0
  }

  lemma OneMoreInWindow(window: seq<Stay>, b: Stay, u: int, orphans: bool)
    ensures InWindow(window + [b], u, orphans)
         == InWindow(window, u, orphans) + if b.unit == Some(u) || (orphans && b.unit == None) then b.guests else 0
  {
    SumOfOneMore(window, b, OnUnit(u));
    SumOfOneMore(window, b, Orphan());
  }

  lemma NextWindow(rest: seq<Stay>, b: Stay, lo: int, hi: int)
    ensures Filter(rest + [b], Within(lo, hi))
         == if b.start < hi && lo < b.end then Filter(rest, Within(lo, hi)) + [b] else Filter(rest, Within(lo, hi))
  {
    FilterAppend(rest, b, Within(lo, hi));
  }

  lemma {:induction false} GuestsInIsSum(live: seq<Stay>, lo: int, hi: int, u: int, orphans: bool)
    ensures GuestsIn(live, lo, hi, u, orphans) == InWindow(Filter(live, Within(lo, hi)), u, orphans)
  {
    if live != [] {
      var n := |live| - 1;
      assert live == live[..n] + [live[n]];
      GuestsInIsSum(live[..n], lo, hi, u, orphans);
      NextWindow(live[..n], live[n], lo, hi);
      OneMoreInWindow(Filter(live[..n], Within(lo, hi)), live[n], u, orphans);
    }
  }

  // ----- the range view -----

  /** No units: what is left of the places when everybody who overlaps the stay is counted. */
  lemma RangeOfPlaces(a: Activity, live: seq<Stay>, blocked: bool, lo: int, hi: int)
    requires !a.hasUnits
    ensures RangeView(a, live, blocked, lo, hi)
         == Pool(if blocked then Some(0) else if a.capacity.None? then None
                 else Some(Max(0, a.capacity.value - GuestsOver(live, lo, hi))))
  {
    GuestsOverIsSum(live, lo, hi);
  }

  lemma {:induction false} LineAt(a: Activity, window: seq<Stay>, blocked: bool, n: nat, u: nat)
    requires 1 <= u <= n
    ensures |RangeLines(a, window, blocked, n)| == n && RangeLines(a, window, blocked, n)[u - 1] == RangeLine(a, window, blocked, u)
  {
    if u < n {
      LineAt(a, window, blocked, n - 1, u);
    } else if n > 1 {
      LineAt(a, window, blocked, n - 1, n - 1);
    }
  }

  /** Shared units: each unit's own guests and all guests without a unit are taken off its places. */
  lemma RangeOfSharedUnits(a: Activity, live: seq<Stay>, blocked: bool, lo: int, hi: int, u: nat)
    requires a.hasUnits && a.bookingType == Hourly && a.pricing == PerPerson && 1 <= u <= a.unitCount
    ensures var v := RangeView(a, live, blocked, lo, hi);
            var booked := GuestsIn(live, lo, hi, u, true);
            && v.Units? && |v.lines| == a.unitCount
            && v.lines[u - 1] == UnitLine(booked, if blocked then 0 else Max(0, a.unitCapacity - booked))
            && RangeUnitView(a, live, blocked, lo, hi, u) == v.lines[u - 1]
  {
    SharedLine(a, live, blocked, lo, hi, u);
    LineAt(a, Filter(live, Within(lo, hi)), blocked, a.unitCount, u);
  }

  lemma SharedLine(a: Activity, live: seq<Stay>, blocked: bool, lo: int, hi: int, u: nat)
    requires !RentsWholeUnit(a)
    ensures var booked := GuestsIn(live, lo, hi, u, true);
            RangeLine(a, Filter(live, Within(lo, hi)), blocked, u) == UnitLine(booked, if blocked then 0 else Max(0, a.unitCapacity - booked))
  {
    GuestsInIsSum(live, lo, hi, u, true);
  }

  /** A locked range of whole units shows none of them. */
  lemma LockedRangeShowsNothing(a: Activity, live: seq<Stay>, lo: int, hi: int, u: nat)
    requires a.hasUnits && 1 <= u <= a.unitCount
    ensures RangeUnitView(a, live, true, lo, hi, u).available == 0
    ensures forall l | l in RangeView(a, live, true, lo, hi).lines :: l.available == 0
  {
    var lines := RangeLines(a, Filter(live, Within(lo, hi)), true, a.unitCount);
    LockedLines(a, Filter(live, Within(lo, hi)), a.unitCount);
    RetiredLines(lines, Unbooked(), |Filter(Filter(live, Within(lo, hi)), Orphan())|, a.unitCapacity);
  }

  lemma {:induction false} LockedLines(a: Activity, window: seq<Stay>, n: nat)
    ensures forall l | l in RangeLines(a, window, true, n) :: l.available == 0
  {
    if n > 0 {
      LockedLines(a, window, n - 1);
    }
  }

  lemma {:induction false} RetiredLines(lines: seq<UnitLine>, p: UnitLine -> bool, k: nat, cap: int)
    ensures forall l | l in Retire(lines, p, k, cap) :: l in lines || l.available == 0
  {
    if lines != [] && k > 0 {
      RetiredLines(lines[1..], p, if p(lines[0]) then k - 1 else k, cap);
    }
  }

  // ----- when an hourly request has a valid time -----

  /**
   * An hourly request names a start on the half hour, and either no end (the default length) or one on
   * the half hour a whole number of hours later, at least the default length and at most 24 of them;
   * all of it within the opening hours.
   */
  lemma ValidTimes(a: Activity, start: int, end: Option<int>)
    ensures var last := if end.Some? then end.value else start + 60 * a.duration;
            TimeWindow(a, start, end)
            == (if a.duration >= 1 && start % 30 == 0 && a.checkIn <= start && last <= a.checkOut
               && (end.Some? ==> last % 30 == 0 && start < last && (last - start) % 60 == 0
                                 && 60 * a.duration <= last - start <= 24 * 60 * a.duration)
                then Some((start, last)) else None)
  {
  }

  // ----- the calendar -----

  /** Guests of the bookings a month's query finds that overlap [lo, hi). */
  function GuestsOfMonth(live: seq<Stay>, first: int, last: int, lo: int, hi: int): int {
    if live == [] then 0
    else
      var b := live[|live| - 1];
      GuestsOfMonth(live[..|live| - 1], first, last, lo, hi)
      + if b.start <= last * 1440 + 1439 && first * 1440 <= b.end && b.start < hi && lo < b.end then b.guests else 0
  }

  lemma NextMonth(rest: seq<Stay>, b: Stay, first: int, last: int)
    ensures MonthBookings(rest + [b], first, last)
         == if b.start <= last * 1440 + 1439 && first * 1440 <= b.end then MonthBookings(rest, first, last) + [b] else MonthBookings(rest, first, last)
  {
    FilterAppend(rest, b, TouchesMonth(first, last));
  }

  lemma OneMoreOver(bs: seq<Stay>, b: Stay, lo: int, hi: int)
    ensures GuestsOver(bs + [b], lo, hi) == GuestsOver(bs, lo, hi) + if b.start < hi && lo < b.end then b.guests else 0
  {
    assert (bs + [b])[..|bs|] == bs;
  }

  lemma {:induction false} GuestsOfMonthIsOver(live: seq<Stay>, first: int, last: int, lo: int, hi: int)
    ensures GuestsOfMonth(live, first, last, lo, hi) == GuestsOver(MonthBookings(live, first, last), lo, hi)
  {
    if live != [] {
      var n := |live| - 1;
      assert live == live[..n] + [live[n]];
      GuestsOfMonthIsOver(live[..n], first, last, lo, hi);
      NextMonth(live[..n], live[n], first, last);
      OneMoreOver(MonthBookings(live[..n], first, last), live[n], lo, hi);
    }
  }

  /**
   * Nights without units: the guests of every booking that overlaps the night, from one day's
   * check-in to the next day's check-out, are taken off the places.
   */
  lemma NightOfPlaces(a: Activity, live: seq<Stay>, first: int, last: int, d: int)
    requires a.bookingType == Daily && !a.hasUnits
    ensures var booked := GuestsOfMonth(live, first, last, d * 1440 + a.checkIn, (d + 1) * 1440 + a.checkOut);
            var left := if a.capacity.None? then None else Some(Max(0, a.capacity.value - booked));
            DayView(a, MonthBookings(live, first, last), None, d, false) == CalendarDay(a.capacity, booked, left, left == Some(0))
  {
    GuestsOfMonthIsOver(live, first, last, DayIn(a, d), DayOut(a, d));
    GuestsOverIsSum(MonthBookings(live, first, last), DayIn(a, d), DayOut(a, d));
  }

  /** Guests the month's query finds present at t. */
  function PresentOfMonth(live: seq<Stay>, first: int, last: int, t: int): int {
    if live == [] then 0
    else
      var b := live[|live| - 1];
      PresentOfMonth(live[..|live| - 1], first, last, t)
      + if b.start <= last * 1440 + 1439 && first * 1440 <= b.end && b.start <= t < b.end then b.guests else 0
  }

  lemma {:induction false} PresentOfMonthIsLoad(live: seq<Stay>, first: int, last: int, t: int)
    ensures PresentOfMonth(live, first, last, t) == Load(MonthBookings(live, first, last), t)
  {
    if live != [] {
      var n := |live| - 1;
      PresentOfMonthIsLoad(live[..n], first, last, t);
      var month := MonthBookings(live[..n], first, last);
      assert live == live[..n] + [live[n]];
      FilterAppend(live[..n], live[n], TouchesMonth(first, last));
      SumAppend(month, live[n], GuestsAt(t));
      assert month + [] == month;
    }
  }

  /** `most` is the largest number of guests present at any instant of [lo, hi). */
  ghost predicate Most(live: seq<Stay>, first: int, last: int, lo: int, hi: int, most: int) {
    && (forall t | lo <= t < hi :: PresentOfMonth(live, first, last, t) <= most)
    && exists t :: lo <= t < hi && PresentOfMonth(live, first, last, t) == most
  }

  lemma {:induction false} PeakIsReached(bs: seq<Stay>, lo: int, hi: int) returns (t: int)
    requires lo < hi
    ensures lo <= t < hi && Load(bs, t) == Peak(bs, lo, hi)
    decreases hi - lo
  {
    t := lo;
    LoadNonNegative(bs, lo);
    if lo + 1 < hi {
      t := PeakIsReached(bs, lo + 1, hi);
      if Load(bs, lo) >= Load(bs, t) {
        t := lo;
      }
    }
  }

  lemma PeakIsMost(live: seq<Stay>, first: int, last: int, lo: int, hi: int)
    requires lo < hi
    ensures Most(live, first, last, lo, hi, Peak(MonthBookings(live, first, last), lo, hi))
  {
    var month := MonthBookings(live, first, last);
    forall t | lo <= t < hi ensures PresentOfMonth(live, first, last, t) <= Peak(month, lo, hi) {
      PresentOfMonthIsLoad(live, first, last, t);
      LoadAtMostPeak(month, lo, hi, t);
    }
    var t := PeakIsReached(month, lo, hi);
    PresentOfMonthIsLoad(live, first, last, t);
  }

  /**
   * Hourly days counted from one pool: places of the activity, or of all its units together while
   * nobody without a unit is there. The most guests present at any instant are taken off.
   */
  lemma DayOfPlaces(a: Activity, live: seq<Stay>, first: int, last: int, d: int)
    requires a.bookingType == Hourly && (a.hasUnits ==> a.pricing == PerPerson)
    requires d * 1440 + a.checkIn < (d + 1) * 1440 + a.checkOut
    requires a.hasUnits ==> UnassignedOverlapping(MonthBookings(live, first, last), DayIn(a, d), DayOut(a, d)) == []
    ensures var lo, hi := d * 1440 + a.checkIn, (d + 1) * 1440 + a.checkOut;
            var capacity := if a.hasUnits then Some(a.unitCount * a.unitCapacity) else a.capacity;
            var v := DayView(a, MonthBookings(live, first, last), None, d, false);
            && v.capacity == capacity && Most(live, first, last, lo, hi, v.booked)
            && v.available == (if capacity.None? then None else Some(Max(0, capacity.value - v.booked)))
  {
    var lo, hi := DayIn(a, d), DayOut(a, d);
    PeakIsMost(live, first, last, lo, hi);
    WindowPeak(MonthBookings(live, first, last), lo, hi, lo, hi);
  }

  /** A day on which everything is locked shows nothing and counts as fully booked. */
  lemma LockedDayShowsNothing(a: Activity, live: seq<Stay>, unit: Option<int>, d: int)
    ensures var v := DayView(a, live, unit, d, true); v.available == Some(0) && v.isFullyBooked
  {
  }

  // ----- days of rooms, of one unit, and of slots -----

  /** Rooms: one unit is taken by any booking the day overlaps; of all units what is not booked is available. */
  lemma RoomFigures(a: Activity, bookings: seq<Stay>, unit: Option<int>, d: int)
    requires a.hasUnits && (a.bookingType == Daily || a.pricing == PerUnit)
    ensures var lo, hi := d * 1440 + a.checkIn, (d + 1) * 1440 + a.checkOut;
            var v := DayView(a, bookings, unit, d, false);
            if unit.Some? then
              && v.capacity == Some(1) && v.available == Some(1 - v.booked)
              && v.booked == (if exists b :: b in bookings && b.start < hi && lo < b.end then 1 else 0)
            else v.capacity == Some(a.unitCount) && v.available == Some(a.unitCount - v.booked)
  {
    var day := Filter(bookings, Within(DayIn(a, d), DayOut(a, d)));
    FilterMembers(bookings, Within(DayIn(a, d), DayOut(a, d)));
    if day != [] {
      assert day[0] in day;
    }
  }

  /** `most` is the largest number of guests present at any instant of [lo, hi). */
  ghost predicate MostPresent(bs: seq<Stay>, lo: int, hi: int, most: int) {
    (forall t | lo <= t < hi :: GuestsPresent(bs, t) <= most) && exists t :: lo <= t < hi && GuestsPresent(bs, t) == most
  }

  lemma PeakIsMostPresent(bs: seq<Stay>, lo: int, hi: int)
    requires lo < hi
    ensures MostPresent(bs, lo, hi, Peak(bs, lo, hi))
  {
    forall t | lo <= t < hi ensures GuestsPresent(bs, t) <= Peak(bs, lo, hi) {
      GuestsPresentIsLoad(bs, t);
      LoadAtMostPeak(bs, lo, hi, t);
    }
    var t := PeakIsReached(bs, lo, hi);
    GuestsPresentIsLoad(bs, t);
  }

  /** One shared unit by the hour: the most guests present at any instant are booked, the rest of its seats available. */
  lemma SharedUnitFigures(a: Activity, bookings: seq<Stay>, u: int, d: int)
    requires a.hasUnits && a.bookingType == Hourly && a.pricing == PerPerson
    requires d * 1440 + a.checkIn < (d + 1) * 1440 + a.checkOut
    ensures var v := DayView(a, bookings, Some(u), d, false);
            && v.capacity == Some(a.unitCapacity) && v.available == Some(Max(0, a.unitCapacity - v.booked))
            && MostPresent(bookings, d * 1440 + a.checkIn, (d + 1) * 1440 + a.checkOut, v.booked)
  {
    PeakIsMostPresent(bookings, DayIn(a, d), DayOut(a, d));
    WindowPeak(bookings, DayIn(a, d), DayOut(a, d), DayIn(a, d), DayOut(a, d));
  }

  /** Nothing is left in [lo, hi): the rooms named and those of bookings without one are all there are, or at some instant all seats are taken. */
  ghost predicate SoldOut(a: Activity, bs: seq<Stay>, unit: Option<int>, lo: int, hi: int) {
    if a.hasUnits && a.pricing == PerUnit then
      var named := set b | b in bs && b.unit.Some? && b.start < hi && lo < b.end :: b.unit.value;
      var roaming := set i | 0 <= i < |bs| && Roams(bs[i], lo, hi);
      |named| + |roaming| >= if unit.Some? then 1 else a.unitCount
    else
      var seats := if unit.Some? then Some(a.unitCapacity) else if a.hasUnits then Some(a.unitCount * a.unitCapacity) else a.capacity;
      seats.Some? && exists t :: lo <= t < hi && GuestsPresent(bs, t) >= seats.value
  }

  /** Nothing is left in the slot of day d that starts at s. */
  ghost predicate SlotSoldOut(a: Activity, bs: seq<Stay>, unit: Option<int>, d: int, s: int) {
    SoldOut(a, bs, unit, d * 1440 + s, d * 1440 + s + 60 * a.duration)
  }

  lemma SoldOutIsSlotFull(a: Activity, bs: seq<Stay>, unit: Option<int>, lo: int, hi: int)
    requires a.bookingType == Hourly && lo < hi
    ensures SoldOut(a, bs, unit, lo, hi) <==> SlotFull(a, bs, unit, lo, hi)
  {
    if a.hasUnits && a.pricing == PerUnit {
      NamedAndRoaming(bs, lo, hi);
    } else {
      PeakIsMostPresent(bs, lo, hi);
    }
  }

  lemma NamedAndRoaming(bs: seq<Stay>, lo: int, hi: int)
    ensures var named := set b | b in bs && b.unit.Some? && b.start < hi && lo < b.end :: b.unit.value;
            var roaming := set i | 0 <= i < |bs| && Roams(bs[i], lo, hi);
            UnitsTaken(bs, lo, hi) == |named| + |roaming|
  {
    var named := set b | b in bs && b.unit.Some? && b.start < hi && lo < b.end :: b.unit.value;
    OrphansSize(bs, lo, hi, set i | 0 <= i < |bs| && Roams(bs[i], lo, hi));
    FilterMembers(bs, Within(lo, hi));
    assert UnitsOf(Filter(bs, Within(lo, hi))) == named;
  }

  /**
   * By the hour a day is fully booked exactly when it has slots and every one of them is sold out among
   * the bookings that overlap the day; without a length there are no slots, and nothing left decides.
   */
  lemma HourlyDayIsFull(a: Activity, bookings: seq<Stay>, unit: Option<int>, d: int)
    requires a.bookingType == Hourly
    ensures var lo, hi := d * 1440 + a.checkIn, (d + 1) * 1440 + a.checkOut;
            var day := Filter(bookings, Within(lo, hi));
            var slots := Slots(a.checkIn, a.checkOut, a.duration);
            var v := DayView(a, bookings, unit, d, false);
            v.isFullyBooked <==>
              if a.duration == 0 then v.available == Some(0)
              else slots != [] && forall s | s in slots :: SlotSoldOut(a, day, unit, d, s)
  {
    var day := Filter(bookings, Within(DayIn(a, d), DayOut(a, d)));
    if a.duration > 0 {
      forall s | s in Slots(a.checkIn, a.checkOut, a.duration)
        ensures SlotSoldOut(a, day, unit, d, s) <==> SlotFull(a, day, unit, d * DAY + s, d * DAY + s + 60 * a.duration)
      {
        SoldOutIsSlotFull(a, day, unit, d * 1440 + s, d * 1440 + s + 60 * a.duration);
      }
    }
  }
}
