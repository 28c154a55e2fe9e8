/**
 * The monthly calendar: one figure per day, for all units together or for one, and its agreement
 * with createBooking and with the hourly view.
 */
module Calendar {
  import opened Common
  import opened Occupancy
  import opened Capacity
  import opened Availability

  datatype CalendarDay = CalendarDay(capacity: Option<int>, booked: int, available: Option<int>, isFullyBooked: bool)

  /** Days the calendar counts in units or from one pool of places. */
  predicate PlainCounting(a: Activity) {
    RentsWholeUnit(a) || !a.hasUnits
  }

  /** The month query: started by the last minute of day `last`, not over before day `first`. */
  function TouchesMonth(first: int, last: int): Stay -> bool {
    (b: Stay) => b.start <= last * DAY + (DAY - 1) && b.end >= first * DAY
  }

  function MonthBookings(live: seq<Stay>, first: int, last: int): seq<Stay> {
    Filter(live, TouchesMonth(first, last))
  }

  /** The month query for one unit: its own bookings and those whose unit is unknown. */
  function UnitMonthBookings(live: seq<Stay>, first: int, last: int, u: int): seq<Stay> {
    Filter(MonthBookings(live, first, last), Shared(u))
  }

  /** The night (or operating day) `d` stands for: check-in to the next day's check-out. */
  function DayIn(a: Activity, d: int): int {
    d * DAY + a.checkIn
  }

  function DayOut(a: Activity, d: int): int {
    (d + 1) * DAY + a.checkOut
  }

  function UnitsOf(bs: seq<Stay>): set<int> {
    set b | b in bs && b.unit.Some? :: b.unit.value
  }

  function NamedUnit(b: Stay): set<int> {
    if b.unit.Some? then {b.unit.value} else {}
  }

  lemma UnitsOfAppend(bs: seq<Stay>, b: Stay)
    ensures UnitsOf(bs + [b]) == UnitsOf(bs) + NamedUnit(b)
  {
    forall u ensures u in UnitsOf(bs + [b]) <==> u in UnitsOf(bs) + NamedUnit(b) {
      if x :| x in bs && x.unit == Some(u) {
        assert x in bs + [b];
      }
      assert b in bs + [b];
    }
  }

  lemma CountOne(bs: seq<Stay>, b: Stay, lo: int, hi: int)
    ensures UnitsOf(Filter(bs + [b], Within(lo, hi)))
         == if Overlaps(b, lo, hi) then UnitsOf(Filter(bs, Within(lo, hi))) + NamedUnit(b)
            else UnitsOf(Filter(bs, Within(lo, hi)))
  {
    FilterAppend(bs, b, Within(lo, hi));
    if Overlaps(b, lo, hi) {
      UnitsOfAppend(Filter(bs, Within(lo, hi)), b);
    } else {
      assert Filter(bs + [b], Within(lo, hi)) == Filter(bs, Within(lo, hi));
    }
  }

  /** Units taken by name plus bookings whose unit is unknown, over [lo, hi). */
  function UnitsTaken(bookings: seq<Stay>, lo: int, hi: int): int {
    |UnitsOf(Filter(bookings, Within(lo, hi)))| + |UnassignedOverlapping(bookings, lo, hi)|
  }

  /** Places counted as one pool: those of the unit asked for, of all units, or of the activity. */
  function PoolCapacity(a: Activity, unit: Option<int>): Option<int> {
    if unit.Some? then Some(a.unitCapacity) else if a.hasUnits then Some(a.unitCount * a.unitCapacity) else a.capacity
  }

  predicate SlotFull(a: Activity, dayBks: seq<Stay>, unit: Option<int>, lo: int, hi: int) {
    if RentsWholeUnit(a) then UnitsTaken(dayBks, lo, hi) >= (if unit.Some? then 1 else a.unitCount)
    else PoolCapacity(a, unit).Some? && Peak(dayBks, lo, hi) >= PoolCapacity(a, unit).value
  }

  /** Guests counted on a day: the peak where slots overlap, the sum where nights do. */
  function Used(a: Activity, bs: seq<Stay>, lo: int, hi: int): int {
    if a.bookingType == Hourly then Peak(bs, lo, hi) else Sum(bs, Guests())
  }

  /** Places left in units 1..n when the orphans are charged to each of them. */
  function FreeBesideOrphans(a: Activity, bookings: seq<Stay>, lo: int, hi: int, n: nat): int {
    if n == 0 then 0
    else
      FreeBesideOrphans(a, bookings, lo, hi, n - 1)
      + Max(0, a.unitCapacity - Used(a, Filter(bookings, OnUnitWithin(n, lo, hi)) + UnassignedOverlapping(bookings, lo, hi), lo, hi))
  }

  datatype Figure = Figure(capacity: Option<int>, booked: int, available: Option<int>)

  /** The day's figure before slots and locks are looked at. */
  function DayFigure(a: Activity, bookings: seq<Stay>, unit: Option<int>, lo: int, hi: int): Figure {
    var dayBks := Filter(bookings, Within(lo, hi));
    if RentsWholeUnit(a) && unit.Some? then
      if dayBks != [] then Figure(Some(1), 1, Some(0)) else Figure(Some(1), 0, Some(1))
    else if RentsWholeUnit(a) then
      var booked := Min(a.unitCount, UnitsTaken(bookings, lo, hi));
      Figure(Some(a.unitCount), booked, Some(Max(0, a.unitCount - booked)))
    else
      var capacity, booked := PoolCapacity(a, unit), Used(a, dayBks, lo, hi);
      if a.hasUnits && unit.None? && UnassignedOverlapping(bookings, lo, hi) != [] then
        var free := FreeBesideOrphans(a, bookings, lo, hi, a.unitCount);
        Figure(capacity, capacity.value - free, Some(free))
      else Figure(capacity, booked, if capacity.Some? then Some(Max(0, capacity.value - booked)) else None)
  }

  /** What the calendar shows for day `d` of a month's bookings, for one unit or for all. */
  function DayView(a: Activity, bookings: seq<Stay>, unit: Option<int>, d: int, fullyBlocked: bool): CalendarDay {
    var lo, hi := DayIn(a, d), DayOut(a, d);
    var dayBks := Filter(bookings, Within(lo, hi));
    var f := DayFigure(a, bookings, unit, lo, hi);
    var full :=
      if a.bookingType == Hourly && a.duration > 0 then
        var slots := Slots(a.checkIn, a.checkOut, a.duration);
        slots != [] && forall s | s in slots :: SlotFull(a, dayBks, unit, d * DAY + s, d * DAY + s + 60 * a.duration)
      else f.available == Some(0);
    if fullyBlocked then CalendarDay(f.capacity, f.booked, Some(0), true)
    else CalendarDay(f.capacity, f.booked, f.available, full)
  }

  /** One pass over the bookings, collecting named units in a set and counting the others. */
  method CountUnits(bookings: seq<Stay>, lo: int, hi: int) returns (taken: int)
    ensures taken == UnitsTaken(bookings, lo, hi)
  {
    var occupied: set<int>, orphans := {}, 0;
    for i := 0 to |bookings|
      invariant occupied == UnitsOf(Filter(bookings[..i], Within(lo, hi)))
      invariant orphans == |UnassignedOverlapping(bookings[..i], lo, hi)|
    {
      var b := bookings[i];
      assert bookings[..i + 1] == bookings[..i] + [b];
      CountOne(bookings[..i], b, lo, hi);
      FilterAppend(bookings[..i], b, OrphanWithin(lo, hi));
      if b.start < hi && b.end > lo {
        if b.unit.Some? {
          occupied := occupied + {b.unit.value};
        } else {
          orphans := orphans + 1;
        }
      }
    }
    assert bookings[..|bookings|] == bookings;
    taken := |occupied| + orphans;
  }

  method IsSlotFull(a: Activity, dayBks: seq<Stay>, unit: Option<int>, lo: int, hi: int) returns (full: bool)
    ensures full == SlotFull(a, dayBks, unit, lo, hi)
  {
    if RentsWholeUnit(a) {
      var taken := CountUnits(dayBks, lo, hi);
      return taken >= if unit.Some? then 1 else a.unitCount;
    }
    var peak := MaxConcurrentInWindow(dayBks, lo, hi);
    var capacity := PoolCapacity(a, unit);
    return capacity.Some? && peak >= capacity.value;
  }

  method CountGuests(a: Activity, bs: seq<Stay>, lo: int, hi: int) returns (used: int)
    ensures used == Used(a, bs, lo, hi)
  {
    if a.bookingType == Hourly {
      used := MaxConcurrentInWindow(bs, lo, hi);
      return;
    }
    used := 0;
    for i := 0 to |bs|
      invariant used == Sum(bs[..i], Guests())
    {
      assert bs[..i + 1][..i] == bs[..i];
      used := used + bs[i].guests;
    }
    assert bs[..|bs|] == bs;
  }

  /** The day's capacity, booked and available figures. */
  method CountDay(a: Activity, bookings: seq<Stay>, unit: Option<int>, lo: int, hi: int) returns (f: Figure)
    ensures f == DayFigure(a, bookings, unit, lo, hi)
  {
    var dayBks := Filter(bookings, Within(lo, hi));
    if RentsWholeUnit(a) && unit.Some? {
      var occ := |dayBks| > 0;
      return Figure(Some(1), if occ then 1 else 0, Some(if occ then 0 else 1));
    }
    if RentsWholeUnit(a) {
      var taken := CountUnits(bookings, lo, hi);
      var bookedUnits := Min(a.unitCount, taken);
      return Figure(Some(a.unitCount), bookedUnits, Some(Max(0, a.unitCount - bookedUnits)));
    }
    var booked := CountGuests(a, dayBks, lo, hi);
    var capacity := PoolCapacity(a, unit);
    var available := if capacity.Some? then Some(Max(0, capacity.value - booked)) else None;
    if a.hasUnits && unit.None? {
      var orphansToday := UnassignedOverlapping(bookings, lo, hi);
      if |orphansToday| > 0 {
        var free := CountFree(a, bookings, orphansToday, lo, hi);
        available, booked := Some(free), capacity.value - free;
      }
    }
    return Figure(capacity, booked, available);
  }

  /** Places left unit by unit, today's orphans charged to each. */
  method CountFree(a: Activity, bookings: seq<Stay>, orphansToday: seq<Stay>, lo: int, hi: int) returns (free: int)
    requires orphansToday == UnassignedOverlapping(bookings, lo, hi)
    ensures free == FreeBesideOrphans(a, bookings, lo, hi, a.unitCount)
  {
    free := 0;
    for u := 1 to a.unitCount + 1
      invariant free == FreeBesideOrphans(a, bookings, lo, hi, u - 1)
    {
      var used := CountGuests(a, Filter(bookings, OnUnitWithin(u, lo, hi)) + orphansToday, lo, hi);
      free := free + Max(0, a.unitCapacity - used);
    }
  }

  method ShowDay(a: Activity, bookings: seq<Stay>, unit: Option<int>, d: int, fullyBlocked: bool) returns (v: CalendarDay)
    ensures v == DayView(a, bookings, unit, d, fullyBlocked)
  {
    var lo, hi := DayIn(a, d), DayOut(a, d);
    var f := CountDay(a, bookings, unit, lo, hi);
    var isFullyBooked := f.available == Some(0);
    if a.bookingType == Hourly && a.duration > 0 {
      isFullyBooked := EverySlotFull(a, Filter(bookings, Within(lo, hi)), unit, d);
    }
    if fullyBlocked {
      return CalendarDay(f.capacity, f.booked, Some(0), true);
    }
    return CalendarDay(f.capacity, f.booked, f.available, isFullyBooked);
  }

  method EverySlotFull(a: Activity, dayBks: seq<Stay>, unit: Option<int>, d: int) returns (full: bool)
    requires a.duration > 0
    ensures var slots := Slots(a.checkIn, a.checkOut, a.duration);
            full <==> slots != [] && forall s | s in slots :: SlotFull(a, dayBks, unit, d * DAY + s, d * DAY + s + 60 * a.duration)
  {
    var slots := ComputeSlots(a.checkIn, a.checkOut, a.duration);
    full := slots != [];
    for i := 0 to |slots|
      invariant full <==>
        slots != [] && forall k | 0 <= k < i :: SlotFull(a, dayBks, unit, d * DAY + slots[k], d * DAY + slots[k] + 60 * a.duration)
    {
      var slotFull := IsSlotFull(a, dayBks, unit, d * DAY + slots[i], d * DAY + slots[i] + 60 * a.duration);
      full := full && slotFull;
    }
    if !full && slots != [] {
      var k :| 0 <= k < |slots| && !SlotFull(a, dayBks, unit, d * DAY + slots[k], d * DAY + slots[k] + 60 * a.duration);
      assert slots[k] in slots;
    }
  }

  // ----- whole units: named units and free units make up the house -----

  predicate UnitsInRange(a: Activity, live: seq<Stay>) {
    forall b | b in live && b.unit.Some? :: 1 <= b.unit.value <= a.unitCount
  }

  lemma UnitsOfMembers(bs: seq<Stay>, u: int)
    ensures u in UnitsOf(bs) <==> exists b :: b in bs && b.unit == Some(u)
  {
  }

  function UpTo(s: set<int>, n: int): set<int> {
    set u | u in s && u <= n
  }

  /** A unit is taken by name in the window exactly when it does not fit. */
  lemma TakenMeansNoFit(a: Activity, live: seq<Stay>, lo: int, hi: int, g: nat, u: int)
    requires RentsWholeUnit(a)
    ensures u in UnitsOf(Filter(live, Within(lo, hi))) <==> !UnitFits(a, live, lo, hi, g, u)
  {
    var w := Filter(live, Within(lo, hi));
    FilterMembers(live, Within(lo, hi));
    UnitsOfMembers(w, u);
    if !UnitFits(a, live, lo, hi, g, u) {
      var b :| b in live && b.unit == Some(u) && Overlaps(b, lo, hi);
      assert b in w;
    }
  }

  function Counted(s: set<int>, n: nat): nat {
    if n == 0 then 0 else Counted(s, n - 1) + if n in s then 1 else 0
  }

  lemma {:induction false} CountedUpTo(s: set<int>, n: nat)
    requires forall u | u in s :: 1 <= u
    ensures |UpTo(s, n)| == Counted(s, n)
  {
    if n == 0 {
      assert UpTo(s, 0) == {};
    } else {
      CountedUpTo(s, n - 1);
      assert UpTo(s, n) == UpTo(s, n - 1) + if n in s then {n} else {};
    }
  }

  /** Among units 1..n the taken ones and the fitting ones add up to n. */
  lemma {:induction false} TakenPlusFree(a: Activity, live: seq<Stay>, lo: int, hi: int, g: nat, n: nat)
    requires RentsWholeUnit(a)
    ensures Counted(UnitsOf(Filter(live, Within(lo, hi))), n) + |FreeUnits(a, live, lo, hi, g, n)| == n
  {
    if n > 0 {
      TakenPlusFree(a, live, lo, hi, g, n - 1);
      TakenMeansNoFit(a, live, lo, hi, g, n);
    }
  }

  /** Units taken by name and free units add up to all units. */
  lemma HouseAddsUp(a: Activity, live: seq<Stay>, lo: int, hi: int, g: nat)
    requires RentsWholeUnit(a) && UnitsInRange(a, live)
    ensures |UnitsOf(Filter(live, Within(lo, hi)))| + |FreeUnits(a, live, lo, hi, g, a.unitCount)| == a.unitCount
  {
    var taken := UnitsOf(Filter(live, Within(lo, hi)));
    FilterMembers(live, Within(lo, hi));
    assert UpTo(taken, a.unitCount) == taken;
    CountedUpTo(taken, a.unitCount);
    TakenPlusFree(a, live, lo, hi, g, a.unitCount);
  }

  lemma SubsetSize(s: set<int>, t: set<int>)
    requires s <= t
    ensures |s| <= |t|
  {
    assert t == s + (t - s);
  }

  /** Narrowing the window or the query never finds more units taken. */
  lemma TakenMonotone(live: seq<Stay>, p: Stay -> bool, LO: int, HI: int, lo: int, hi: int)
    requires LO <= lo && hi <= HI
    ensures UnitsTaken(Filter(live, p), lo, hi) <= UnitsTaken(live, LO, HI)
  {
    var few, many := Filter(Filter(live, p), Within(lo, hi)), Filter(live, Within(LO, HI));
    FilterMembers(live, p);
    FilterMembers(Filter(live, p), Within(lo, hi));
    FilterMembers(live, Within(LO, HI));
    forall u | u in UnitsOf(few) ensures u in UnitsOf(many) {
      UnitsOfMembers(few, u);
      UnitsOfMembers(many, u);
    }
    SubsetSize(UnitsOf(few), UnitsOf(many));
    FilterLength(Filter(live, p), OrphanWithin(lo, hi));
    FilterLength(live, OrphanWithin(LO, HI));
    SumFilterAtMost(live, p, Indicator(OrphanWithin(lo, hi)));
    SumBounds(live, Indicator(OrphanWithin(lo, hi)), Indicator(OrphanWithin(LO, HI)));
  }

  lemma OpenDay(a: Activity, bookings: seq<Stay>, d: int)
    requires a.bookingType == Daily && RentsWholeUnit(a)
    requires UnitsTaken(bookings, DayIn(a, d), DayOut(a, d)) < a.unitCount
    ensures var v := DayView(a, bookings, None, d, false);
            v.available.Some? && v.available.value >= 1 && !v.isFullyBooked
  {
  }

  lemma AcceptedLeavesRoom(a: Activity, live: seq<Stay>, lo: int, hi: int, g: nat)
    requires RentsWholeUnit(a) && g >= 1 && AllProper(live) && UnitsInRange(a, live)
    requires Decide(a, live, lo, hi, g).Accepted?
    ensures UnitsTaken(live, lo, hi) < a.unitCount
  {
    HouseAddsUp(a, live, lo, hi, g);
    WholeUnitVerdict(a, live, lo, hi, g);
  }

  lemma NightWithinStay(a: Activity, arrive: int, leave: int, d: int)
    requires arrive <= d < leave
    ensures arrive * DAY + a.checkIn <= DayIn(a, d) && DayOut(a, d) <= leave * DAY + a.checkOut
  {
    assert DAY * arrive <= DAY * d && DAY * (d + 1) <= DAY * leave;
  }

  /** Any stay createBooking accepts finds every one of its nights open on the calendar. */
  lemma AcceptedStayHasOpenNights(a: Activity, live: seq<Stay>, arrive: int, leave: int, g: nat, first: int, last: int, d: int)
    requires a.bookingType == Daily && RentsWholeUnit(a) && g >= 1
    requires AllProper(live) && UnitsInRange(a, live)
    requires Decide(a, live, arrive * DAY + a.checkIn, leave * DAY + a.checkOut, g).Accepted?
    requires arrive <= d < leave
    ensures var v := DayView(a, MonthBookings(live, first, last), None, d, false);
            v.available.Some? && v.available.value >= 1 && !v.isFullyBooked
  {
    var lo, hi := arrive * DAY + a.checkIn, leave * DAY + a.checkOut;
    AcceptedLeavesRoom(a, live, lo, hi, g);
    NightWithinStay(a, arrive, leave, d);
    TakenMonotone(live, TouchesMonth(first, last), lo, hi, DayIn(a, d), DayOut(a, d));
    OpenDay(a, MonthBookings(live, first, last), d);
  }

  /** Everything over some part of night `d` is found by the month query. */
  lemma NightInMonth(a: Activity, live: seq<Stay>, first: int, last: int, d: int, q: Stay -> bool)
    requires TimesOfDay(a) && first <= d <= last
    requires d < last || (a.checkOut <= a.checkIn && forall b | b in live :: NightStay(a, b))
    requires forall b :: q(b) ==> Overlaps(b, DayIn(a, d), DayOut(a, d))
    ensures Filter(MonthBookings(live, first, last), q) == Filter(live, q)
  {
    forall b | b in live && q(b) ensures TouchesMonth(first, last)(b) {
      if d < last {
        assert DAY * first <= DAY * d && DAY * (d + 1) <= DAY * last;
      } else {
        NightTouched(a, b, first, last, d);
      }
    }
    FilterTwice(live, TouchesMonth(first, last), q, q);
  }

  /** The month query finds all units taken on night `d`. */
  lemma NightTaken(a: Activity, live: seq<Stay>, first: int, last: int, d: int)
    requires TimesOfDay(a) && first <= d <= last
    requires d < last || (a.checkOut <= a.checkIn && forall b | b in live :: NightStay(a, b))
    ensures UnitsTaken(MonthBookings(live, first, last), DayIn(a, d), DayOut(a, d)) == UnitsTaken(live, DayIn(a, d), DayOut(a, d))
  {
    NightInMonth(a, live, first, last, d, Within(DayIn(a, d), DayOut(a, d)));
    NightInMonth(a, live, first, last, d, OrphanWithin(DayIn(a, d), DayOut(a, d)));
  }

  /** A night's figure is what the units taken leave. */
  lemma NightShows(a: Activity, bookings: seq<Stay>, d: int)
    requires a.bookingType == Daily && RentsWholeUnit(a)
    ensures var v := DayView(a, bookings, None, d, false);
            && v.available == Some(Max(0, a.unitCount - UnitsTaken(bookings, DayIn(a, d), DayOut(a, d))))
            && (v.isFullyBooked <==> v.available.value == 0)
  {
  }

  /**
   * Whole units: what the calendar shows for a night is the number of free units less the orphans,
   * so a single night is accepted exactly when its figure is positive (for any party a unit holds).
   * On the last day of the query this takes check-out not after check-in: see
   * WholeUnitNightsDecideExactly.
   */
  lemma WholeUnitNightIsExact(a: Activity, live: seq<Stay>, first: int, last: int, d: int, g: nat)
    requires a.bookingType == Daily && RentsWholeUnit(a) && TimesOfDay(a) && 1 <= g <= a.unitCapacity
    requires AllProper(live) && UnitsInRange(a, live) && first <= d <= last
    requires d < last || (a.checkOut <= a.checkIn && forall b | b in live :: NightStay(a, b))
    ensures var lo, hi := DayIn(a, d), DayOut(a, d);
            var v := DayView(a, MonthBookings(live, first, last), None, d, false);
            && v.available == Some(Max(0, |FreeUnits(a, live, lo, hi, g, a.unitCount)| - |UnassignedOverlapping(live, lo, hi)|))
            && (Decide(a, live, lo, hi, g).Accepted? <==> v.available.value >= 1)
            && (v.isFullyBooked <==> v.available.value == 0)
  {
    NightTaken(a, live, first, last, d);
    NightShows(a, MonthBookings(live, first, last), d);
    RoomByCount(a, live, DayIn(a, d), DayOut(a, d), g);
  }

  /** The night's figure is positive exactly when a party a unit holds is accepted for that night. */
  predicate NightDecides(a: Activity, live: seq<Stay>, first: int, last: int, d: int, g: nat) {
    var v := DayView(a, MonthBookings(live, first, last), None, d, false);
    v.available.Some? && (Decide(a, live, DayIn(a, d), DayOut(a, d), g).Accepted? <==> v.available.value >= 1)
  }

  /** Tables of night stays in units the activity has. */
  ghost predicate NightTable(a: Activity, live: seq<Stay>) {
    AllProper(live) && UnitsInRange(a, live) && forall b | b in live :: NightStay(a, b)
  }

  /** Over all tables, months, nights of the month (the last one too) and parties. */
  ghost predicate NightsAlwaysDecide(a: Activity) {
    forall live, first, last, d, g: nat | NightTable(a, live) && first <= d <= last && 1 <= g <= a.unitCapacity ::
      NightDecides(a, live, first, last, d, g)
  }

  /** Somebody in every unit from the day after the month on. */
  function NextFullHouse(a: Activity, last: int): seq<Stay> {
    seq(a.unitCount, i requires 0 <= i < a.unitCount =>
      Stay(i, (last + 1) * DAY + a.checkIn, (last + 2) * DAY + a.checkOut, 1, Some(i + 1)))
  }

  lemma NextFullHouseIsTable(a: Activity, last: int)
    requires TimesOfDay(a)
    ensures NightTable(a, NextFullHouse(a, last))
    ensures forall u | 1 <= u <= a.unitCount :: Stay(u - 1, DayIn(a, last + 1), DayOut(a, last + 1), 1, Some(u)) in NextFullHouse(a, last)
  {
    var live := NextFullHouse(a, last);
    forall b | b in live ensures NightStay(a, b) {
      assert b.start == (last + 1) * DAY + a.checkIn && b.end == (last + 2) * DAY + a.checkOut;
    }
    forall u | 1 <= u <= a.unitCount ensures Stay(u - 1, DayIn(a, last + 1), DayOut(a, last + 1), 1, Some(u)) in live {
      assert live[u - 1].unit == Some(u);
    }
  }

  /**
   * With check-out after check-in the last night shows every unit free although next day's arrivals
   * leave none for it.
   */
  lemma LastNightMissesFullHouse(a: Activity, first: int, last: int, g: nat)
    requires a.bookingType == Daily && RentsWholeUnit(a) && TimesOfDay(a) && a.checkIn < a.checkOut
    requires a.unitCount >= 1 && g >= 1
    ensures var live := NextFullHouse(a, last);
            && DayView(a, MonthBookings(live, first, last), None, last, false).available == Some(a.unitCount)
            && !Decide(a, live, DayIn(a, last), DayOut(a, last), g).Accepted?
  {
    var live, lo, hi := NextFullHouse(a, last), DayIn(a, last), DayOut(a, last);
    FilterNone(live, TouchesMonth(first, last));
    assert MonthBookings(live, first, last) == [];
    NightShows(a, [], last);
    NextFullHouseIsTable(a, last);
    forall u | 1 <= u <= a.unitCount ensures !UnitFits(a, live, lo, hi, g, u) {
      assert Overlaps(Stay(u - 1, DayIn(a, last + 1), DayOut(a, last + 1), 1, Some(u)), lo, hi);
    }
    NoneFree(a, live, lo, hi, g, a.unitCount);
    WholeUnitVerdict(a, live, lo, hi, g);
  }

  lemma {:induction false} NoneFree(a: Activity, live: seq<Stay>, lo: int, hi: int, g: nat, n: nat)
    requires forall u | 1 <= u <= n :: !UnitFits(a, live, lo, hi, g, u)
    ensures FreeUnits(a, live, lo, hi, g, n) == []
  {
    if n > 0 {
      NoneFree(a, live, lo, hi, g, n - 1);
    }
  }

  /** No units: nobody is accepted and nothing is shown. */
  lemma NoUnitsDecide(a: Activity, live: seq<Stay>, first: int, last: int, d: int, g: nat)
    requires a.bookingType == Daily && RentsWholeUnit(a) && a.unitCount == 0 && AllProper(live) && g >= 1
    ensures NightDecides(a, live, first, last, d, g)
  {
    NightShows(a, MonthBookings(live, first, last), d);
    WholeUnitVerdict(a, live, DayIn(a, d), DayOut(a, d), g);
  }

  /**
   * Whole units: the nightly figures decide every single night, the last of the month included,
   * exactly when check-out is not after check-in, or there is nothing to rent.
   */
  lemma WholeUnitNightsDecideExactly(a: Activity)
    requires a.bookingType == Daily && RentsWholeUnit(a) && TimesOfDay(a)
    ensures NightsAlwaysDecide(a) <==> a.checkOut <= a.checkIn || a.unitCount == 0 || a.unitCapacity == 0
  {
    if a.checkOut <= a.checkIn || a.unitCount == 0 || a.unitCapacity == 0 {
      forall live, first, last, d, g: nat | NightTable(a, live) && first <= d <= last && 1 <= g <= a.unitCapacity
        ensures NightDecides(a, live, first, last, d, g)
      {
        if a.unitCount == 0 {
          NoUnitsDecide(a, live, first, last, d, g);
        } else {
          WholeUnitNightIsExact(a, live, first, last, d, g);
        }
      }
    } else {
      NextFullHouseIsTable(a, 0);
      LastNightMissesFullHouse(a, 0, 0, 1);
      assert !NightDecides(a, NextFullHouse(a, 0), 0, 0, 0, 1);
    }
  }

  lemma RoomByCount(a: Activity, live: seq<Stay>, lo: int, hi: int, g: nat)
    requires RentsWholeUnit(a) && 1 <= g <= a.unitCapacity && AllProper(live) && UnitsInRange(a, live)
    ensures a.unitCount - UnitsTaken(live, lo, hi)
         == |FreeUnits(a, live, lo, hi, g, a.unitCount)| - |UnassignedOverlapping(live, lo, hi)|
    ensures Decide(a, live, lo, hi, g).Accepted? <==> UnitsTaken(live, lo, hi) < a.unitCount
  {
    HouseAddsUp(a, live, lo, hi, g);
    WholeUnitVerdict(a, live, lo, hi, g);
  }

  // ----- one unit, and shared units with orphans -----

  /** Everything that touches day `d` of the month is found by the month query. */
  ghost predicate MonthSees(a: Activity, live: seq<Stay>, first: int, last: int, d: int) {
    forall b | b in live && Overlaps(b, DayIn(a, d), DayOut(a, d)) :: TouchesMonth(first, last)(b)
  }

  lemma MonthQuerySees(a: Activity, live: seq<Stay>, first: int, last: int, d: int, q: Stay -> bool)
    requires MonthSees(a, live, first, last, d)
    requires forall b :: q(b) ==> Overlaps(b, DayIn(a, d), DayOut(a, d))
    ensures Filter(MonthBookings(live, first, last), q) == Filter(live, q)
  {
    FilterTwice(live, TouchesMonth(first, last), q, q);
  }

  function UnitDay(a: Activity, u: int, d: int): Stay -> bool {
    (b: Stay) => Shared(u)(b) && Overlaps(b, DayIn(a, d), DayOut(a, d))
  }

  lemma UnitDayBookings(a: Activity, live: seq<Stay>, first: int, last: int, u: int, d: int)
    requires MonthSees(a, live, first, last, d)
    ensures Filter(UnitMonthBookings(live, first, last, u), Within(DayIn(a, d), DayOut(a, d))) == Filter(live, UnitDay(a, u, d))
  {
    FilterTwice(MonthBookings(live, first, last), Shared(u), Within(DayIn(a, d), DayOut(a, d)), UnitDay(a, u, d));
    MonthQuerySees(a, live, first, last, d, UnitDay(a, u, d));
  }

  /**
   * One whole unit: the calendar shows the night free exactly when the unit is free and nobody
   * without a unit is in the house; a single night shown free is always accepted.
   */
  lemma UnitNightIsExact(a: Activity, live: seq<Stay>, first: int, last: int, u: int, d: int, g: nat)
    requires RentsWholeUnit(a) && AllProper(live) && MonthSees(a, live, first, last, d)
    requires 1 <= u <= a.unitCount && 1 <= g <= a.unitCapacity
    ensures var lo, hi := DayIn(a, d), DayOut(a, d);
            var f := DayFigure(a, UnitMonthBookings(live, first, last, u), Some(u), lo, hi);
            && (f.available == Some(1) || f.available == Some(0))
            && (f.available == Some(1) <==> UnitFits(a, live, lo, hi, g, u) && UnassignedOverlapping(live, lo, hi) == [])
            && (f.available == Some(1) ==> Decide(a, live, lo, hi, g).Accepted?)
  {
    var lo, hi := DayIn(a, d), DayOut(a, d);
    var here := Filter(live, UnitDay(a, u, d));
    UnitDayBookings(a, live, first, last, u, d);
    FilterMembers(live, UnitDay(a, u, d));
    FilterMembers(live, OrphanWithin(lo, hi));
    if here != [] {
      assert here[0] in here;
      assert here[0].unit == None ==> here[0] in UnassignedOverlapping(live, lo, hi);
    } else {
      forall b | b in live ensures !UnitDay(a, u, d)(b) {
        assert b !in here;
      }
      FilterNone(live, OrphanWithin(lo, hi));
      FreeUnitsMembers(a, live, lo, hi, g, a.unitCount);
      assert u in FreeUnits(a, live, lo, hi, g, a.unitCount);
    }
    WholeUnitVerdict(a, live, lo, hi, g);
  }

  /** A unit's stays and the orphans, together or one after the other, load the window alike. */
  lemma UnitDayPeak(a: Activity, live: seq<Stay>, u: int, d: int)
    ensures Peak(Filter(live, UnitDay(a, u, d)), DayIn(a, d), DayOut(a, d))
         == Peak(Filter(live, Shared(u)), DayIn(a, d), DayOut(a, d))
  {
    var lo, hi := DayIn(a, d), DayOut(a, d);
    forall t | lo <= t < hi ensures Load(Filter(live, UnitDay(a, u, d)), t) == Load(Filter(live, Shared(u)), t) {
      LoadOfFilter(live, UnitDay(a, u, d), t);
      LoadOfFilter(live, Shared(u), t);
      forall b | b in live ensures GuestsWhere(UnitDay(a, u, d), t)(b) == GuestsWhere(Shared(u), t)(b) {
        assert Covers(b, t) ==> Overlaps(b, lo, hi);
      }
      SumSame(live, GuestsWhere(UnitDay(a, u, d), t), GuestsWhere(Shared(u), t));
    }
    PeakSame(Filter(live, UnitDay(a, u, d)), Filter(live, Shared(u)), lo, hi);
  }

  /** One shared unit: the figure offers `g` places exactly when the unit has room for them all day. */
  lemma UnitDayIsExact(a: Activity, live: seq<Stay>, first: int, last: int, u: int, d: int, g: nat)
    requires a.bookingType == Hourly && a.hasUnits && !RentsWholeUnit(a) && DayIn(a, d) < DayOut(a, d)
    requires MonthSees(a, live, first, last, d) && 1 <= u <= a.unitCount && g >= 1
    ensures var lo, hi := DayIn(a, d), DayOut(a, d);
            var f := DayFigure(a, UnitMonthBookings(live, first, last, u), Some(u), lo, hi);
            f.available.Some? && (f.available.value >= g <==> RoomInUnit(a, live, lo, hi, g, u))
  {
    UnitDayBookings(a, live, first, last, u, d);
    UnitDayPeak(a, live, u, d);
    FitsMeansRoom(a, live, DayIn(a, d), DayOut(a, d), g, u);
  }

  /** Stays of a unit over the window, then the orphans: the list the loop sweeps. */
  lemma CombinedPeak(live: seq<Stay>, lo: int, hi: int, u: int)
    ensures Peak(Filter(live, OnUnitWithin(u, lo, hi)) + UnassignedOverlapping(live, lo, hi), lo, hi)
         == Peak(Filter(live, Shared(u)), lo, hi)
  {
    FilterTwice(live, Within(lo, hi), OnUnit(u), OnUnitWithin(u, lo, hi));
    SharedPeak(live, lo, hi, lo, hi, u);
  }

  lemma {:induction false} PlacesLeftSomewhere(a: Activity, live: seq<Stay>, lo: int, hi: int, n: nat)
    requires a.bookingType == Hourly && !RentsWholeUnit(a) && lo < hi && n <= a.unitCount
    ensures FreeBesideOrphans(a, live, lo, hi, n) >= 0
    ensures FreeBesideOrphans(a, live, lo, hi, n) >= 1 <==> exists u :: 1 <= u <= n && RoomInUnit(a, live, lo, hi, 1, u)
  {
    if n > 0 {
      PlacesLeftSomewhere(a, live, lo, hi, n - 1);
      CombinedPeak(live, lo, hi, n);
      FitsMeansRoom(a, live, lo, hi, 1, n);
    }
  }

  /**
   * Shared units on a day with orphans: the pooled figure is positive exactly when createBooking
   * would still take one guest for the whole of the day.
   */
  lemma OrphanDayIsExact(a: Activity, live: seq<Stay>, first: int, last: int, d: int)
    requires a.bookingType == Hourly && a.hasUnits && !RentsWholeUnit(a) && DayIn(a, d) < DayOut(a, d)
    requires MonthSees(a, live, first, last, d) && UnassignedOverlapping(live, DayIn(a, d), DayOut(a, d)) != []
    ensures var lo, hi := DayIn(a, d), DayOut(a, d);
            var f := DayFigure(a, MonthBookings(live, first, last), None, lo, hi);
            f.available.Some? && (f.available.value >= 1 <==> Decide(a, live, lo, hi, 1).Accepted?)
  {
    var lo, hi := DayIn(a, d), DayOut(a, d);
    MonthQuerySees(a, live, first, last, d, OrphanWithin(lo, hi));
    SameFree(a, live, first, last, d, a.unitCount);
    PlacesLeftSomewhere(a, live, lo, hi, a.unitCount);
    PerPersonVerdict(a, live, lo, hi, 1);
  }

  lemma {:induction false} SameFree(a: Activity, live: seq<Stay>, first: int, last: int, d: int, n: nat)
    requires MonthSees(a, live, first, last, d)
    ensures FreeBesideOrphans(a, MonthBookings(live, first, last), DayIn(a, d), DayOut(a, d), n)
         == FreeBesideOrphans(a, live, DayIn(a, d), DayOut(a, d), n)
  {
    if n > 0 {
      SameFree(a, live, first, last, d, n - 1);
      MonthQuerySees(a, live, first, last, d, OnUnitWithin(n, DayIn(a, d), DayOut(a, d)));
      MonthQuerySees(a, live, first, last, d, OrphanWithin(DayIn(a, d), DayOut(a, d)));
    }
  }

  // ----- days without units: the nightly sum is the peak of the stay -----

  /** A stay of this configuration: in at the check-in time of one day, out on a later day. */
  ghost predicate NightStay(a: Activity, b: Stay) {
    exists x, y :: x < y && b.start == x * DAY + a.checkIn && b.end == y * DAY + a.checkOut
  }

  /** With check-out not after check-in, touching night d means being there when night d starts. */
  lemma NightTouched(a: Activity, b: Stay, first: int, last: int, d: int)
    requires TimesOfDay(a) && a.checkOut <= a.checkIn && NightStay(a, b) && first <= d <= last
    ensures TouchesMonth(first, last)(b) && Overlaps(b, DayIn(a, d), DayOut(a, d)) <==> Covers(b, DayIn(a, d))
  {
    var x, y :| x < y && b.start == x * DAY + a.checkIn && b.end == y * DAY + a.checkOut;
    if Overlaps(b, DayIn(a, d), DayOut(a, d)) {
      assert x < d + 1 && d < y;
    }
  }

  lemma NightFigure(a: Activity, live: seq<Stay>, first: int, last: int, d: int)
    requires a.bookingType == Daily && !a.hasUnits && TimesOfDay(a) && a.checkOut <= a.checkIn
    requires forall b | b in live :: NightStay(a, b)
    requires first <= d <= last
    ensures DayView(a, MonthBookings(live, first, last), None, d, false).booked == Load(live, DayIn(a, d))
  {
    var t := DayIn(a, d);
    var there: Stay -> bool := (b: Stay) => Covers(b, t);
    forall b | b in live
      ensures there(b) == (TouchesMonth(first, last)(b) && Within(DayIn(a, d), DayOut(a, d))(b))
    {
      NightTouched(a, b, first, last, d);
    }
    FilterTwice(live, TouchesMonth(first, last), Within(DayIn(a, d), DayOut(a, d)), there);
    FilterMembers(live, there);
    SumSame(Filter(live, there), Guests(), GuestsAt(t));
    SumFilter(live, there, GuestsAt(t));
  }

  /** Whoever is present at some instant of a stay is present when one of its nights starts. */
  lemma InstantBelongsToNight(a: Activity, live: seq<Stay>, arrive: int, leave: int, t: int) returns (d: int)
    requires TimesOfDay(a) && a.checkOut <= a.checkIn
    requires forall b | b in live :: NightStay(a, b)
    requires arrive * DAY + a.checkIn <= t < leave * DAY + a.checkOut
    ensures arrive <= d < leave && Load(live, t) <= Load(live, DayIn(a, d))
  {
    d := (t - a.checkIn) / DAY;
    assert d * DAY + a.checkIn <= t < (d + 1) * DAY + a.checkIn;
    forall b | b in live ensures GuestsAt(t)(b) <= GuestsAt(DayIn(a, d))(b) {
      if Covers(b, t) {
        var x, y :| x < y && b.start == x * DAY + a.checkIn && b.end == y * DAY + a.checkOut;
        assert x < d + 1 && d < y;
      }
    }
    SumBounds(live, GuestsAt(t), GuestsAt(DayIn(a, d)));
  }

  /**
   * DAILY without units, check-out not after check-in: createBooking accepts a stay exactly when
   * every night's calendar figure shows at least that many places (or the activity is uncapped).
   * Nightly sums and the sweep over the whole stay are the same test.
   */
  lemma CalendarDecidesStays(a: Activity, live: seq<Stay>, arrive: int, leave: int, g: nat, first: int, last: int)
    requires a.bookingType == Daily && !a.hasUnits && TimesOfDay(a) && a.checkOut <= a.checkIn
    requires forall b | b in live :: NightStay(a, b)
    requires first <= arrive < leave <= last + 1 && g >= 1
    ensures Decide(a, live, arrive * DAY + a.checkIn, leave * DAY + a.checkOut, g).Accepted? <==>
            forall d | arrive <= d < leave ::
              var v := DayView(a, MonthBookings(live, first, last), None, d, false);
              v.available.None? || v.available.value >= g
  {
    var lo, hi := arrive * DAY + a.checkIn, leave * DAY + a.checkOut;
    assert lo < hi;
    PoolVerdict(a, live, lo, hi, g);
    if a.capacity.Some? {
      var c := a.capacity.value;
      forall d | arrive <= d < leave
        ensures DayView(a, MonthBookings(live, first, last), None, d, false).available == Some(Max(0, c - Load(live, DayIn(a, d))))
        ensures lo <= DayIn(a, d) < hi
      {
        NightFigure(a, live, first, last, d);
        assert DAY * arrive <= DAY * d && DAY * (d + 1) <= DAY * leave;
      }
      if forall d | arrive <= d < leave :: Load(live, DayIn(a, d)) + g <= c {
        forall t | lo <= t < hi ensures Load(live, t) + g <= c {
          var d := InstantBelongsToNight(a, live, arrive, leave, t);
        }
      }
    }
  }

  /** Every night of the stay shows at least `g` places, or the activity is uncapped. */
  predicate NightsOffer(a: Activity, live: seq<Stay>, arrive: int, leave: int, g: nat, first: int, last: int) {
    forall d | arrive <= d < leave ::
      var v := DayView(a, MonthBookings(live, first, last), None, d, false);
      v.available.None? || v.available.value >= g
  }

  predicate Agrees(a: Activity, live: seq<Stay>, arrive: int, leave: int, g: nat, first: int, last: int) {
    Decide(a, live, arrive * DAY + a.checkIn, leave * DAY + a.checkOut, g).Accepted?
    <==> NightsOffer(a, live, arrive, leave, g, first, last)
  }

  /** Over all tables of night stays, all stays within a month and all parties. */
  ghost predicate AlwaysAgrees(a: Activity) {
    forall live, arrive, leave, g, first, last
      | (forall b | b in live :: NightStay(a, b)) && first <= arrive < leave <= last + 1 && g >= 1 ::
      Agrees(a, live, arrive, leave, g, first, last)
  }

  /** Nothing to sell: nobody is accepted and no night shows a place. */
  lemma NothingToSellAgrees(a: Activity, live: seq<Stay>, arrive: int, leave: int, g: nat, first: int, last: int)
    requires a.bookingType == Daily && !a.hasUnits && a.capacity.Some? && a.capacity.value <= 0
    requires arrive < leave && g >= 1
    ensures Agrees(a, live, arrive, leave, g, first, last)
  {
    PeakNonNegative(live, arrive * DAY + a.checkIn, leave * DAY + a.checkOut);
    var dayBks := Filter(MonthBookings(live, first, last), Within(DayIn(a, arrive), DayOut(a, arrive)));
    SumNonNegative(dayBks, Guests());
    var v := DayView(a, MonthBookings(live, first, last), None, arrive, false);
    assert v.available == Some(0);
  }

  /** A full party arriving on the day after the month: in nobody's calendar, in the way of a late check-out. */
  function NextArrival(a: Activity, last: int, c: nat): Stay {
    Stay(0, (last + 1) * DAY + a.checkIn, (last + 2) * DAY + a.checkOut, c, None)
  }

  /**
   * With check-out after check-in the last night of a month misses whoever arrives the next day
   * before the guest of that night has left: all places are shown and nobody is accepted.
   */
  lemma LastNightMissesNextArrival(a: Activity, first: int, last: int)
    requires a.bookingType == Daily && !a.hasUnits && TimesOfDay(a) && first <= last
    requires a.capacity.Some? && a.capacity.value > 0 && a.checkIn < a.checkOut
    ensures var live := [NextArrival(a, last, a.capacity.value)];
            && (forall b | b in live :: NightStay(a, b))
            && DayView(a, MonthBookings(live, first, last), None, last, false).available == a.capacity
            && Decide(a, live, last * DAY + a.checkIn, (last + 1) * DAY + a.checkOut, 1) == TooFewPlaces
  {
    var c := a.capacity.value;
    var b := NextArrival(a, last, c);
    var live := [b];
    var lo, hi := last * DAY + a.checkIn, (last + 1) * DAY + a.checkOut;
    assert NightStay(a, b) by { assert b.start == (last + 1) * DAY + a.checkIn && b.end == (last + 2) * DAY + a.checkOut; }
    FilterNone(live, TouchesMonth(first, last));
    EmptyMonthShowsAll(a, last);
    assert [] + [b] == live;
    SumAppend([], b, GuestsAt(b.start));
    LoadAtMostPeak(live, lo, hi, b.start);
  }

  lemma EmptyMonthShowsAll(a: Activity, d: int)
    requires a.bookingType == Daily && !a.hasUnits && a.capacity.Some? && a.capacity.value >= 0
    ensures DayView(a, [], None, d, false).available == a.capacity
  {
  }

  /**
   * DAILY without units: the calendar's nightly figures decide every stay the way createBooking
   * does exactly when check-out is not after check-in, or the activity is uncapped or has nothing
   * to sell.
   */
  lemma CalendarAgreesExactly(a: Activity)
    requires a.bookingType == Daily && !a.hasUnits && TimesOfDay(a)
    ensures AlwaysAgrees(a) <==> a.checkOut <= a.checkIn || a.capacity.None? || a.capacity.value <= 0
  {
    if a.checkOut <= a.checkIn || a.capacity.None? || a.capacity.value <= 0 {
      forall live, arrive, leave, g, first, last
        | (forall b | b in live :: NightStay(a, b)) && first <= arrive < leave <= last + 1 && g >= 1
        ensures Agrees(a, live, arrive, leave, g, first, last)
      {
        if a.checkOut <= a.checkIn {
          CalendarDecidesStays(a, live, arrive, leave, g, first, last);
        } else if a.capacity.Some? {
          NothingToSellAgrees(a, live, arrive, leave, g, first, last);
        }
      }
    } else {
      LastNightDisagrees(a, 0, 0);
    }
  }

  lemma LastNightDisagrees(a: Activity, first: int, last: int)
    requires a.bookingType == Daily && !a.hasUnits && TimesOfDay(a) && first <= last
    requires a.capacity.Some? && a.capacity.value > 0 && a.checkIn < a.checkOut
    ensures !Agrees(a, [NextArrival(a, last, a.capacity.value)], last, last + 1, 1, first, last)
    ensures !AlwaysAgrees(a)
  {
    var live := [NextArrival(a, last, a.capacity.value)];
    LastNightMissesNextArrival(a, first, last);
    forall d | last <= d < last + 1
      ensures DayView(a, MonthBookings(live, first, last), None, d, false).available == a.capacity
    {
      assert d == last;
    }
    assert NightsOffer(a, live, last, last + 1, 1, first, last);
  }

  /**
   * With check-out after check-in the two also differ the other way: the night between a departure and an arrival
   * that never meet is counted twice by the sum, and a place the sweep would sell is not shown.
   */
  lemma LateCheckOutDiffers()
    ensures (forall b | b in TWO_STAYS :: NightStay(LATE_OUT, b))
            && Decide(LATE_OUT, TWO_STAYS, DAY + 600, 2 * DAY + 720, 1).Accepted?
            && DayView(LATE_OUT, MonthBookings(TWO_STAYS, 0, 29), None, 1, false).available == Some(0)
  {
    var x, y := TWO_STAYS[0], TWO_STAYS[1];
    assert NightStay(LATE_OUT, x) by { assert x.start == 0 * DAY + 600 && x.end == 1 * DAY + 720; }
    assert NightStay(LATE_OUT, y) by { assert y.start == 2 * DAY + 600 && y.end == 3 * DAY + 720; }
    forall t ensures Load(TWO_STAYS, t) <= 1 {
      SumPair(x, y, GuestsAt(t));
    }
    PoolVerdict(LATE_OUT, TWO_STAYS, DAY + 600, 2 * DAY + 720, 1);
    SumPair(x, y, Guests());
    FilterAll(TWO_STAYS, TouchesMonth(0, 29));
    FilterAll(TWO_STAYS, Within(DAY + 600, 2 * DAY + 720));
  }

  /** Check-in 10:00, check-out 12:00, two places; one stay leaves on day 1, one arrives on day 2. */
  const LATE_OUT := Activity(Daily, PerUnit, false, 0, 0, Some(2), 600, 720, 1)
  const TWO_STAYS := [Stay(0, 600, DAY + 720, 1, None), Stay(1, 2 * DAY + 600, 3 * DAY + 720, 1, None)]

  // ----- hourly days: full on the calendar means every slot is full -----

  /** The month's bookings that touch day `d`. */
  function QueriedOn(a: Activity, live: seq<Stay>, first: int, last: int, d: int): seq<Stay> {
    Filter(MonthBookings(live, first, last), Within(DayIn(a, d), DayOut(a, d)))
  }

  /** Inside opening hours, month query and day query together see what the hourly view sees. */
  lemma SlotBookings(a: Activity, live: seq<Stay>, first: int, last: int, d: int, lo: int, hi: int, q: Stay -> bool)
    requires TimesOfDay(a) && first <= d <= last
    requires DayIn(a, d) <= lo < hi <= d * DAY + a.checkOut
    requires forall b :: q(b) ==> Overlaps(b, lo, hi)
    ensures Filter(QueriedOn(a, live, first, last, d), q) == Filter(live, q)
  {
    assert DAY * first <= DAY * d <= DAY * last;
    FilterTwice(MonthBookings(live, first, last), Within(DayIn(a, d), DayOut(a, d)), q, q);
    FilterTwice(live, TouchesMonth(first, last), q, q);
  }

  /** No unit is left to sell exactly when named units and orphans reach the unit count. */
  lemma HouseFull(a: Activity, live: seq<Stay>, lo: int, hi: int)
    requires RentsWholeUnit(a) && UnitsInRange(a, live)
    ensures UnitsTaken(live, lo, hi) >= a.unitCount <==>
            |FreeUnits(a, live, lo, hi, 1, a.unitCount)| <= |UnassignedOverlapping(live, lo, hi)|
  {
    HouseAddsUp(a, live, lo, hi, 1);
  }

  lemma HourlyEmpty(a: Activity, live: seq<Stay>, day: seq<Stay>, LO: int, HI: int, lo: int, hi: int)
    requires a.bookingType == Hourly && RentsWholeUnit(a) && UnitConfigConsistent(a)
    requires AllProper(live) && UnitsInRange(a, live) && LO <= lo < hi <= HI && day == Filter(live, Within(LO, HI))
    ensures Empty(HourlyView(a, day, lo, hi)) <==> UnitsTaken(live, lo, hi) >= a.unitCount
  {
    HourlyOffer(a, live, day, LO, HI, lo, hi, 1);
    HouseFull(a, live, lo, hi);
  }

  lemma SlotTaken(a: Activity, live: seq<Stay>, first: int, last: int, d: int, lo: int, hi: int)
    requires TimesOfDay(a) && first <= d <= last
    requires DayIn(a, d) <= lo < hi <= d * DAY + a.checkOut
    ensures UnitsTaken(QueriedOn(a, live, first, last, d), lo, hi)
         == UnitsTaken(live, lo, hi)
  {
    SlotBookings(a, live, first, last, d, lo, hi, Within(lo, hi));
    SlotBookings(a, live, first, last, d, lo, hi, OrphanWithin(lo, hi));
  }

  lemma WholeSlotCounts(a: Activity, dayBks: seq<Stay>, lo: int, hi: int)
    requires RentsWholeUnit(a)
    ensures SlotFull(a, dayBks, None, lo, hi) <==> UnitsTaken(dayBks, lo, hi) >= a.unitCount
  {
  }

  lemma FullIffEmpty(a: Activity, dayBks: seq<Stay>, live: seq<Stay>, d: int, lo: int, hi: int)
    requires a.bookingType == Hourly && RentsWholeUnit(a) && UnitConfigConsistent(a)
    requires AllProper(live) && UnitsInRange(a, live)
    requires d * DAY + a.checkIn <= lo < hi <= d * DAY + a.checkOut
    requires UnitsTaken(dayBks, lo, hi) == UnitsTaken(live, lo, hi)
    ensures SlotFull(a, dayBks, None, lo, hi) <==> Empty(HourlyView(a, DayBookings(a, live, d), lo, hi))
  {
    WholeSlotCounts(a, dayBks, lo, hi);
    HourlyEmpty(a, live, DayBookings(a, live, d), d * DAY + a.checkIn, d * DAY + a.checkOut, lo, hi);
  }

  lemma WholeSlotFull(a: Activity, live: seq<Stay>, first: int, last: int, d: int, lo: int, hi: int)
    requires a.bookingType == Hourly && RentsWholeUnit(a) && UnitConfigConsistent(a) && TimesOfDay(a)
    requires AllProper(live) && UnitsInRange(a, live) && first <= d <= last
    requires DayIn(a, d) <= lo < hi <= d * DAY + a.checkOut
    ensures SlotFull(a, QueriedOn(a, live, first, last, d), None, lo, hi) <==> Empty(HourlyView(a, DayBookings(a, live, d), lo, hi))
  {
    SlotTaken(a, live, first, last, d, lo, hi);
    FullIffEmpty(a, QueriedOn(a, live, first, last, d), live, d, lo, hi);
  }

  lemma PoolSlotFull(a: Activity, live: seq<Stay>, first: int, last: int, d: int, lo: int, hi: int)
    requires a.bookingType == Hourly && !a.hasUnits && TimesOfDay(a) && first <= d <= last
    requires DayIn(a, d) <= lo < hi <= d * DAY + a.checkOut
    ensures SlotFull(a, QueriedOn(a, live, first, last, d), None, lo, hi) <==>
            Empty(HourlyView(a, DayBookings(a, live, d), lo, hi))
  {
    var dayBks := QueriedOn(a, live, first, last, d);
    SlotBookings(a, live, first, last, d, lo, hi, Within(lo, hi));
    WindowPeak(live, d * DAY + a.checkIn, d * DAY + a.checkOut, lo, hi);
    WindowPeak(dayBks, lo, hi, lo, hi);
    WindowPeak(live, lo, hi, lo, hi);
  }

  /**
   * HOURLY, whole units or no units, no vendor lock: the calendar marks a day fully booked
   * exactly when the day has slots and the hourly view shows every one of them with nothing left.
   */
  lemma FullyBookedMeansEverySlotFull(a: Activity, live: seq<Stay>, first: int, last: int, d: int)
    requires a.bookingType == Hourly && a.duration >= 1 && PlainCounting(a) && UnitConfigConsistent(a) && TimesOfDay(a)
    requires AllProper(live) && UnitsInRange(a, live) && first <= d <= last
    ensures DayView(a, MonthBookings(live, first, last), None, d, false).isFullyBooked <==>
            Slots(a.checkIn, a.checkOut, a.duration) != []
            && forall s | s in Slots(a.checkIn, a.checkOut, a.duration) ::
                 Empty(HourlyView(a, DayBookings(a, live, d), d * DAY + s, d * DAY + s + 60 * a.duration))
  {
    forall s | s in Slots(a.checkIn, a.checkOut, a.duration)
      ensures SlotFull(a, QueriedOn(a, live, first, last, d), None,
                       d * DAY + s, d * DAY + s + 60 * a.duration) <==>
              Empty(HourlyView(a, DayBookings(a, live, d), d * DAY + s, d * DAY + s + 60 * a.duration))
    {
      var lo, hi := d * DAY + s, d * DAY + s + 60 * a.duration;
      OfferedSlot(a, s);
      if RentsWholeUnit(a) {
        WholeSlotFull(a, live, first, last, d, lo, hi);
      } else {
        PoolSlotFull(a, live, first, last, d, lo, hi);
      }
    }
  }
}
