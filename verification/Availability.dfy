/**
 * The three read views of availability (hourly slots, daily range, monthly calendar) and how far
 * each of them agrees with what createBooking would decide.
 *
 * Times are minutes from a fixed midnight; day d runs from d * DAY. A time of day is 0..1439.
 */
module Availability {
  import opened Common
  import opened Occupancy
  import opened Capacity

  const DAY := 1440
  const HOURLY_SLOT_GRANULARITY_MINUTES := 30
  const MAX_HOURLY_SLOTS := 48
  const MAX_SLOT_UNITS := 24

  predicate TimeOfDay(t: int) {
    0 <= t < DAY
  }

  predicate TimesOfDay(a: Activity) {
    TimeOfDay(a.checkIn) && TimeOfDay(a.checkOut)
  }

  predicate AllProper(live: seq<Stay>) {
    forall b | b in live :: Proper(b)
  }

  // ----- slots offered and slots accepted -----

  function SlotCount(checkIn: int, checkOut: int, duration: int): nat {
    if duration <= 0 || checkIn + 60 * duration > checkOut then 0
    else Min(MAX_HOURLY_SLOTS, (checkOut - 60 * duration - checkIn) / HOURLY_SLOT_GRANULARITY_MINUTES + 1)
  }

  /** The start times on offer, in order. */
  function Slots(checkIn: int, checkOut: int, duration: int): seq<int> {
    seq(SlotCount(checkIn, checkOut, duration), k => checkIn + HOURLY_SLOT_GRANULARITY_MINUTES * k)
  }

  method ComputeSlots(checkIn: int, checkOut: int, duration: int) returns (slots: seq<int>)
    ensures slots == Slots(checkIn, checkOut, duration)
  {
    var slotDuration := duration * 60;
    if slotDuration <= 0 {
      return [];
    }
    slots := [];
    var t := checkIn;
    while t + slotDuration <= checkOut
      invariant t == checkIn + HOURLY_SLOT_GRANULARITY_MINUTES * |slots|
      invariant |slots| < MAX_HOURLY_SLOTS
      invariant |slots| <= SlotCount(checkIn, checkOut, duration)
      invariant forall k | 0 <= k < |slots| :: slots[k] == checkIn + HOURLY_SLOT_GRANULARITY_MINUTES * k
      decreases checkOut - t
    {
      slots := slots + [t];
      if |slots| >= MAX_HOURLY_SLOTS {
        break;
      }
      t := t + HOURLY_SLOT_GRANULARITY_MINUTES;
    }
  }

  /** The time-window checks of createBooking on an HOURLY request: the window booked, if any. */
  function TimeWindow(a: Activity, slotTime: int, slotEndTime: Option<int>): Option<(int, int)> {
    var unitMins := a.duration * 60;
    if a.duration == 0 || slotTime % 30 != 0 then None
    else
      var end := if slotEndTime.Some? then slotEndTime.value else slotTime + unitMins;
      var span := end - slotTime;
      if slotEndTime.Some?
         && (end % 30 != 0 || span <= 0 || span % 60 != 0 || span < unitMins || span > MAX_SLOT_UNITS * unitMins)
      then None
      else if slotTime < a.checkIn || end > a.checkOut then None
      else Some((slotTime, end))
  }

  lemma OfferedSlot(a: Activity, t: int)
    requires TimesOfDay(a)
    ensures t in Slots(a.checkIn, a.checkOut, a.duration) <==>
            a.duration >= 1 && a.checkIn <= t && t + 60 * a.duration <= a.checkOut
            && (t - a.checkIn) % HOURLY_SLOT_GRANULARITY_MINUTES == 0
  {
    var slots := Slots(a.checkIn, a.checkOut, a.duration);
    if a.duration >= 1 && a.checkIn <= t && t + 60 * a.duration <= a.checkOut && (t - a.checkIn) % 30 == 0 {
      var k := (t - a.checkIn) / 30;
      assert k < |slots| && slots[k] == t;
    }
  }

  /**
   * The slots offered are exactly the default-length slots accepted if and only if the activity
   * opens on the half-hour grid, or no slot fits into its opening hours at all.
   */
  lemma SlotsAreTheAcceptedOnes(a: Activity)
    requires TimesOfDay(a)
    ensures (forall t | TimeOfDay(t) ::
               t in Slots(a.checkIn, a.checkOut, a.duration) <==> TimeWindow(a, t, None).Some?)
       <==> (a.checkIn % 30 == 0 || a.duration == 0 || a.checkIn + 60 * a.duration > a.checkOut)
  {
    forall t | TimeOfDay(t)
      ensures t in Slots(a.checkIn, a.checkOut, a.duration) <==>
              a.duration >= 1 && a.checkIn <= t && t + 60 * a.duration <= a.checkOut
              && (t - a.checkIn) % HOURLY_SLOT_GRANULARITY_MINUTES == 0
    {
      OfferedSlot(a, t);
    }
    if a.checkIn % 30 != 0 && a.duration != 0 && a.checkIn + 60 * a.duration <= a.checkOut {
      assert TimeOfDay(a.checkIn);
      assert a.checkIn in Slots(a.checkIn, a.checkOut, a.duration);
      assert TimeWindow(a, a.checkIn, None).None?;
    }
  }

  // ----- unit lines and retiring units for orphans -----

  datatype UnitLine = UnitLine(booked: int, available: int)

  function Open(): UnitLine -> bool {
    (l: UnitLine) => l.available > 0
  }

  function Unbooked(): UnitLine -> bool {
    (l: UnitLine) => l.booked <= 0
  }

  /** Takes the first `k` lines satisfying `p` off the board. */
  function Retire(lines: seq<UnitLine>, p: UnitLine -> bool, k: nat, cap: int): seq<UnitLine> {
    if lines == [] || k == 0 then lines
    else if p(lines[0]) then [UnitLine(cap, 0)] + Retire(lines[1..], p, k - 1, cap)
    else [lines[0]] + Retire(lines[1..], p, k, cap)
  }

  method RetireUnits(lines: seq<UnitLine>, p: UnitLine -> bool, orphans: nat, cap: int) returns (unitSlots: seq<UnitLine>)
    ensures unitSlots == Retire(lines, p, orphans, cap)
  {
    unitSlots := lines;
    var toRetire := orphans;
    for i := 0 to |lines|
      invariant |unitSlots| == |lines| && unitSlots[i..] == lines[i..]
      invariant 0 <= toRetire
      invariant Retire(lines, p, orphans, cap) == unitSlots[..i] + Retire(lines[i..], p, toRetire, cap)
    {
      if toRetire == 0 {
        assert unitSlots == unitSlots[..i] + lines[i..];
        return;
      }
      assert lines[i..][1..] == lines[i + 1..];
      if p(unitSlots[i]) {
        unitSlots := unitSlots[i := UnitLine(cap, 0)];
        toRetire := toRetire - 1;
      }
      assert unitSlots[..i + 1] == unitSlots[..i] + [unitSlots[i]];
    }
    assert unitSlots == unitSlots[..|lines|] + [];
  }

  function Shown(): UnitLine -> int {
    Indicator(Open())
  }

  /** Number of units a view shows with something free. */
  function UnitsShown(lines: seq<UnitLine>): int {
    Sum(lines, Shown())
  }

  lemma SumHead<T>(s: seq<T>, w: T -> int)
    requires s != []
    ensures Sum(s, w) == w(s[0]) + Sum(s[1..], w)
  {
    assert s == [s[0]] + s[1..];
    SumConcat([s[0]], s[1..], w);
    assert [s[0]][..0] == [];
  }

  /** When `p` picks out the open units, k of them disappear, or all if there are fewer. */
  lemma {:induction false} RetireCount(lines: seq<UnitLine>, p: UnitLine -> bool, k: nat, cap: int)
    requires forall l | l in lines :: p(l) == Open()(l)
    ensures UnitsShown(Retire(lines, p, k, cap)) == Max(0, UnitsShown(lines) - k)
    ensures forall l | l in Retire(lines, p, k, cap) :: l in lines || l.available == 0
  {
    SumNonNegative(lines, Shown());
    if lines != [] && k > 0 {
      SumHead(lines, Shown());
      SumNonNegative(lines[1..], Shown());
      var k' := if p(lines[0]) then k - 1 else k;
      RetireCount(lines[1..], p, k', cap);
      assert lines[0] in lines;
      var r := Retire(lines, p, k, cap);
      assert r[1..] == Retire(lines[1..], p, k', cap);
      SumHead(r, Shown());
    }
  }

  /** Every line shows nothing or the whole unit. */
  predicate Uniform(lines: seq<UnitLine>, cap: int) {
    forall l | l in lines :: l.available == 0 || l.available == cap
  }

  lemma RetireKeepsUniform(lines: seq<UnitLine>, p: UnitLine -> bool, k: nat, cap: int)
    requires Uniform(lines, cap) && forall l | l in lines :: p(l) == Open()(l)
    ensures Uniform(Retire(lines, p, k, cap), cap)
    ensures UnitsShown(Retire(lines, p, k, cap)) == Max(0, UnitsShown(lines) - k)
  {
    RetireCount(lines, p, k, cap);
  }

  // ----- what a view says -----

  /** Per unit, or one pooled figure; `None` is an uncapped activity. */
  datatype View = Units(lines: seq<UnitLine>) | Pool(available: Option<int>)

  /** The view offers some unit (or the pool) with at least `g` places. */
  predicate Offers(v: View, g: int) {
    match v
    case Units(lines) => exists i :: 0 <= i < |lines| && lines[i].available >= g
    case Pool(available) => available.None? || available.value >= g
  }

  /** Nothing at all is on offer. */
  predicate Empty(v: View) {
    match v
    case Units(lines) => forall i | 0 <= i < |lines| :: lines[i].available == 0
    case Pool(available) => available == Some(0)
  }

  // ----- the hourly view -----

  function HourlyLine(a: Activity, day: seq<Stay>, lo: int, hi: int, u: int): UnitLine {
    if RentsWholeUnit(a) then
      var peak := Peak(Filter(day, OnUnit(u)), lo, hi);
      UnitLine(peak, if peak > 0 then 0 else a.unitCapacity)
    else
      var peak := Peak(Filter(day, OnUnit(u)) + UnassignedOverlapping(day, lo, hi), lo, hi);
      UnitLine(peak, Max(0, a.unitCapacity - peak))
  }

  function HourlyLines(a: Activity, day: seq<Stay>, lo: int, hi: int, n: nat): seq<UnitLine> {
    if n == 0 then [] else HourlyLines(a, day, lo, hi, n - 1) + [HourlyLine(a, day, lo, hi, n)]
  }

  /** One slot of the hourly view, from the bookings of the day. */
  function HourlyView(a: Activity, day: seq<Stay>, lo: int, hi: int): View {
    if a.hasUnits && a.unitCount > 0 then
      var lines := HourlyLines(a, day, lo, hi, a.unitCount);
      Units(if RentsWholeUnit(a) then Retire(lines, Open(), |UnassignedOverlapping(day, lo, hi)|, a.unitCapacity) else lines)
    else if a.capacity.None? then Pool(None)
    else Pool(Some(Max(0, a.capacity.value - Peak(day, lo, hi))))
  }

  method ShowSlotUnits(a: Activity, dayBookings: seq<Stay>, orphans: seq<Stay>, lo: int, hi: int) returns (unitSlots: seq<UnitLine>)
    requires orphans == UnassignedOverlapping(dayBookings, lo, hi)
    ensures unitSlots == HourlyLines(a, dayBookings, lo, hi, a.unitCount)
  {
    var wholeUnit := RentsWholeUnit(a);
    unitSlots := [];
    for unitNum := 1 to a.unitCount + 1
      invariant unitSlots == HourlyLines(a, dayBookings, lo, hi, unitNum - 1)
    {
      var unitBookings := Filter(dayBookings, OnUnit(unitNum));
      var peak := MaxConcurrentInWindow(if wholeUnit then unitBookings else unitBookings + orphans, lo, hi);
      var available :=
        if wholeUnit then (if peak > 0 then 0 else a.unitCapacity) else Max(0, a.unitCapacity - peak);
      unitSlots := unitSlots + [UnitLine(peak, available)];
    }
  }

  method ShowSlot(a: Activity, dayBookings: seq<Stay>, lo: int, hi: int) returns (v: View)
    ensures v == HourlyView(a, dayBookings, lo, hi)
  {
    if a.hasUnits && a.unitCount > 0 {
      var orphans := UnassignedOverlapping(dayBookings, lo, hi);
      var unitSlots := ShowSlotUnits(a, dayBookings, orphans, lo, hi);
      if RentsWholeUnit(a) {
        unitSlots := RetireUnits(unitSlots, Open(), |orphans|, a.unitCapacity);
      }
      return Units(unitSlots);
    }
    var peak := MaxConcurrentInWindow(dayBookings, lo, hi);
    if a.capacity.None? {
      return Pool(None);
    }
    return Pool(Some(Max(0, a.capacity.value - peak)));
  }

  /** The bookings fetched for one day: everything touching the opening hours. */
  function DayBookings(a: Activity, live: seq<Stay>, d: int): seq<Stay> {
    Filter(live, Within(d * DAY + a.checkIn, d * DAY + a.checkOut))
  }

  // ----- counting free units in a view -----

  /** A unit's sweep over a window is positive exactly when somebody's stay overlaps it. */
  lemma UnitTaken(a: Activity, live: seq<Stay>, lo: int, hi: int, g: nat, u: int)
    requires RentsWholeUnit(a) && AllProper(live)
    requires lo < hi
    ensures Peak(Filter(live, OnUnit(u)), lo, hi) > 0 <==> !UnitFits(a, live, lo, hi, g, u)
  {
    var f := Filter(live, OnUnit(u));
    FilterMembers(live, OnUnit(u));
    if UnitFits(a, live, lo, hi, g, u) {
      FreeUnitEmpty(a, live, lo, hi, g, u);
    } else {
      var b :| b in live && b.unit == Some(u) && Overlaps(b, lo, hi);
      var t := Max(b.start, lo);
      assert b in f && Covers(b, t);
      SumAtLeast(f, GuestsAt(t), b);
      LoadAtMostPeak(f, lo, hi, t);
    }
  }

  lemma LinesAppend(lines: seq<UnitLine>, l: UnitLine)
    ensures UnitsShown(lines + [l]) == UnitsShown(lines) + if l.available > 0 then 1 else 0
  {
    SumAppend(lines, l, Shown());
  }

  lemma {:induction false} HourlyFree(a: Activity, live: seq<Stay>, LO: int, HI: int, lo: int, hi: int, g: nat, n: nat)
    requires RentsWholeUnit(a) && a.unitCapacity >= 1 && AllProper(live) && LO <= lo < hi <= HI
    ensures var day := Filter(live, Within(LO, HI));
            UnitsShown(HourlyLines(a, day, lo, hi, n)) == |FreeUnits(a, live, lo, hi, g, n)|
            && Uniform(HourlyLines(a, day, lo, hi, n), a.unitCapacity)
  {
    if n > 0 {
      var day := Filter(live, Within(LO, HI));
      HourlyFree(a, live, LO, HI, lo, hi, g, n - 1);
      LinesAppend(HourlyLines(a, day, lo, hi, n - 1), HourlyLine(a, day, lo, hi, n));
      PeakOfWindow(live, OnUnit(n), LO, HI, lo, hi);
      UnitTaken(a, live, lo, hi, g, n);
    }
  }

  /** If every open line shows the same figure, the view offers g places iff a line is open. */
  lemma UniformOffer(lines: seq<UnitLine>, cap: int, g: int)
    requires Uniform(lines, cap)
    requires g >= 1 && cap >= 1
    ensures Offers(Units(lines), g) <==> g <= cap && UnitsShown(lines) > 0
    ensures Empty(Units(lines)) <==> UnitsShown(lines) == 0
  {
    if UnitsShown(lines) > 0 {
      if forall l | l in lines :: !Open()(l) {
        FilterNone(lines, Open());
        FilterLength(lines, Open());
      }
      var l :| l in lines && Open()(l);
      var i :| 0 <= i < |lines| && lines[i] == l;
    }
    if i :| 0 <= i < |lines| && lines[i].available > 0 {
      SumAtLeast(lines, Shown(), lines[i]);
    }
    SumNonNegative(lines, Shown());
  }

  lemma HourlyWholeUnits(a: Activity, live: seq<Stay>, day: seq<Stay>, LO: int, HI: int, lo: int, hi: int, g: nat)
    requires RentsWholeUnit(a) && UnitConfigConsistent(a) && AllProper(live) && LO <= lo < hi <= HI && g >= 1
    requires day == Filter(live, Within(LO, HI))
    ensures var v := HourlyView(a, day, lo, hi);
            v.Units?
            && UnitsShown(v.lines)
               == Max(0, |FreeUnits(a, live, lo, hi, g, a.unitCount)| - |UnassignedOverlapping(live, lo, hi)|)
            && Uniform(v.lines, a.unitCapacity)
  {
    FilterTwice(live, Within(LO, HI), OrphanWithin(lo, hi), OrphanWithin(lo, hi));
    HourlyFree(a, live, LO, HI, lo, hi, g, a.unitCount);
    RetireKeepsUniform(HourlyLines(a, day, lo, hi, a.unitCount), Open(), |UnassignedOverlapping(day, lo, hi)|, a.unitCapacity);
  }

  /** A view of uniform lines with `free` units of which `held` are kept back. */
  lemma OfferByCount(v: View, free: int, held: int, cap: int, g: int)
    requires v.Units? && UnitsShown(v.lines) == Max(0, free - held) && cap >= 1 && g >= 1
    requires Uniform(v.lines, cap)
    ensures Offers(v, g) <==> g <= cap && free > held
    ensures Empty(v) <==> free <= held
  {
    UniformOffer(v.lines, cap, g);
  }

  /** Whole units: what an hourly slot offers, in free units and orphans. */
  lemma HourlyOffer(a: Activity, live: seq<Stay>, day: seq<Stay>, LO: int, HI: int, lo: int, hi: int, g: nat)
    requires RentsWholeUnit(a) && UnitConfigConsistent(a) && AllProper(live) && LO <= lo < hi <= HI && g >= 1
    requires day == Filter(live, Within(LO, HI))
    ensures var v := HourlyView(a, day, lo, hi);
            var free, held := |FreeUnits(a, live, lo, hi, g, a.unitCount)|, |UnassignedOverlapping(live, lo, hi)|;
            (Offers(v, g) <==> g <= a.unitCapacity && free > held) && (Empty(v) <==> free <= held)
  {
    var free, held := |FreeUnits(a, live, lo, hi, g, a.unitCount)|, |UnassignedOverlapping(live, lo, hi)|;
    HourlyWholeUnits(a, live, day, LO, HI, lo, hi, g);
    OfferByCount(HourlyView(a, day, lo, hi), free, held, a.unitCapacity, g);
  }

  lemma HourlyWholeAgrees(a: Activity, live: seq<Stay>, day: seq<Stay>, LO: int, HI: int, lo: int, hi: int, g: nat)
    requires RentsWholeUnit(a) && UnitConfigConsistent(a) && AllProper(live) && LO <= lo < hi <= HI && g >= 1
    requires day == Filter(live, Within(LO, HI))
    ensures Decide(a, live, lo, hi, g).Accepted? <==> Offers(HourlyView(a, day, lo, hi), g)
  {
    HourlyOffer(a, live, day, LO, HI, lo, hi, g);
    WholeUnitVerdict(a, live, lo, hi, g);
  }

  lemma HourlyPoolAgrees(a: Activity, live: seq<Stay>, day: seq<Stay>, LO: int, HI: int, lo: int, hi: int, g: nat)
    requires !a.hasUnits && LO <= lo < hi <= HI && g >= 1
    requires day == Filter(live, Within(LO, HI))
    ensures Decide(a, live, lo, hi, g).Accepted? <==> Offers(HourlyView(a, day, lo, hi), g)
  {
    WindowPeak(live, LO, HI, lo, hi);
  }

  lemma {:induction false} HourlyLineAt(a: Activity, day: seq<Stay>, lo: int, hi: int, n: nat, u: nat)
    requires 1 <= u <= n
    ensures |HourlyLines(a, day, lo, hi, n)| == n
    ensures HourlyLines(a, day, lo, hi, n)[u - 1] == HourlyLine(a, day, lo, hi, u)
  {
    if u < n {
      HourlyLineAt(a, day, lo, hi, n - 1, u);
    } else if n > 1 {
      HourlyLineAt(a, day, lo, hi, n - 1, n - 1);
    }
  }

  /** A shared unit's line shows `g` places exactly when the unit has room for them. */
  lemma HourlyLineShowsRoom(a: Activity, live: seq<Stay>, LO: int, HI: int, lo: int, hi: int, g: nat, u: int)
    requires !RentsWholeUnit(a) && LO <= lo < hi <= HI && g >= 1 && 1 <= u <= a.unitCount
    ensures HourlyLine(a, Filter(live, Within(LO, HI)), lo, hi, u).available >= g <==> RoomInUnit(a, live, lo, hi, g, u)
  {
    FilterTwice(live, Within(LO, HI), OrphanWithin(lo, hi), OrphanWithin(lo, hi));
    SharedPeak(live, LO, HI, lo, hi, u);
    FitsMeansRoom(a, live, lo, hi, g, u);
  }

  lemma HourlySharedUnits(a: Activity, live: seq<Stay>, day: seq<Stay>, LO: int, HI: int, lo: int, hi: int, g: nat)
    requires a.hasUnits && !RentsWholeUnit(a) && UnitConfigConsistent(a) && LO <= lo < hi <= HI && g >= 1
    requires day == Filter(live, Within(LO, HI))
    ensures Decide(a, live, lo, hi, g).Accepted? <==> Offers(HourlyView(a, day, lo, hi), g)
  {
    var lines := HourlyLines(a, day, lo, hi, a.unitCount);
    PerPersonVerdict(a, live, lo, hi, g);
    HourlyLineAt(a, day, lo, hi, a.unitCount, 1);
    forall u | 1 <= u <= a.unitCount
      ensures |lines| == a.unitCount && (lines[u - 1].available >= g <==> RoomInUnit(a, live, lo, hi, g, u))
    {
      HourlyLineAt(a, day, lo, hi, a.unitCount, u);
      HourlyLineShowsRoom(a, live, LO, HI, lo, hi, g, u);
    }
    if Decide(a, live, lo, hi, g).Accepted? {
      var u :| RoomInUnit(a, live, lo, hi, g, u);
      assert lines[u - 1].available >= g;
    }
    if i :| 0 <= i < |lines| && lines[i].available >= g {
      assert RoomInUnit(a, live, lo, hi, g, i + 1);
    }
  }

  /**
   * For every slot the hourly view lists, createBooking's capacity test takes `g` guests exactly
   * when the view offers a unit (or the pool) with at least `g` places, orphans included.
   */
  lemma HourlyViewAgrees(a: Activity, live: seq<Stay>, d: int, slot: int, g: nat)
    requires TimesOfDay(a) && UnitConfigConsistent(a) && AllProper(live) && g >= 1
    requires slot in Slots(a.checkIn, a.checkOut, a.duration)
    ensures var lo, hi := d * DAY + slot, d * DAY + slot + 60 * a.duration;
            Decide(a, live, lo, hi, g).Accepted? <==> Offers(HourlyView(a, DayBookings(a, live, d), lo, hi), g)
  {
    var lo, hi := d * DAY + slot, d * DAY + slot + 60 * a.duration;
    var LO, HI := d * DAY + a.checkIn, d * DAY + a.checkOut;
    OfferedSlot(a, slot);
    if RentsWholeUnit(a) {
      HourlyWholeAgrees(a, live, DayBookings(a, live, d), LO, HI, lo, hi, g);
    } else if a.hasUnits {
      HourlySharedUnits(a, live, DayBookings(a, live, d), LO, HI, lo, hi, g);
    } else {
      HourlyPoolAgrees(a, live, DayBookings(a, live, d), LO, HI, lo, hi, g);
    }
  }

  /**
   * The unit configuration rule matters: with units on but none configured, createBooking refuses
   * everyone, while the hourly view falls back to the pool; they agree exactly when the pool shown
   * has fewer than `g` places.
   */
  lemma UnitlessConfigurationDisagrees(a: Activity, live: seq<Stay>, lo: int, hi: int, g: nat)
    requires a.hasUnits && a.unitCount == 0 && g >= 1
    ensures Decide(a, live, lo, hi, g) == TooFewPlaces
    ensures HourlyView(a, live, lo, hi).Pool?
    ensures (Decide(a, live, lo, hi, g).Accepted? <==> Offers(HourlyView(a, live, lo, hi), g))
       <==> a.capacity.Some? && a.capacity.value - Peak(live, lo, hi) < g
  {
    PeakNonNegative(live, lo, hi);
  }

  // ----- the daily range view -----

  function Guests(): Stay -> int {
    (b: Stay) => b.guests
  }

  /** Total guests of the stays on a unit: one group of the grouped query. */
  function BookedOn(window: seq<Stay>, u: int): int {
    Sum(Filter(window, OnUnit(u)), Guests())
  }

  function RangeLine(a: Activity, window: seq<Stay>, blocked: bool, u: int): UnitLine {
    var booked := BookedOn(window, u) + if RentsWholeUnit(a) then 0 else Sum(Filter(window, Orphan()), Guests());
    UnitLine(booked,
             if blocked then 0
             else if RentsWholeUnit(a) then (if booked > 0 then 0 else a.unitCapacity)
             else Max(0, a.unitCapacity - booked))
  }

  function RangeLines(a: Activity, window: seq<Stay>, blocked: bool, n: nat): seq<UnitLine> {
    if n == 0 then [] else RangeLines(a, window, blocked, n - 1) + [RangeLine(a, window, blocked, n)]
  }

  /** The daily view over [lo, hi) for all units at once. */
  function RangeView(a: Activity, live: seq<Stay>, blocked: bool, lo: int, hi: int): View {
    var window := Filter(live, Within(lo, hi));
    if a.hasUnits then
      var lines := RangeLines(a, window, blocked, a.unitCount);
      Units(if RentsWholeUnit(a) then Retire(lines, Unbooked(), |Filter(window, Orphan())|, a.unitCapacity) else lines)
    else if blocked then Pool(Some(0))
    else if a.capacity.None? then Pool(None)
    else Pool(Some(Max(0, a.capacity.value - Sum(window, Guests()))))
  }

  method ShowRange(a: Activity, live: seq<Stay>, blocked: bool, lo: int, hi: int) returns (v: View)
    ensures v == RangeView(a, live, blocked, lo, hi)
  {
    var window := Filter(live, Within(lo, hi));
    if !a.hasUnits {
      var booked := Sum(window, Guests());
      return Pool(if blocked then Some(0)
                  else if a.capacity.Some? then Some(Max(0, a.capacity.value - booked)) else None);
    }
    var units := ShowRangeLines(a, window, blocked);
    if RentsWholeUnit(a) {
      units := RetireUnits(units, Unbooked(), |Filter(window, Orphan())|, a.unitCapacity);
    }
    return Units(units);
  }

  method ShowRangeLines(a: Activity, window: seq<Stay>, blocked: bool) returns (units: seq<UnitLine>)
    ensures units == RangeLines(a, window, blocked, a.unitCount)
  {
    var wholeUnit := RentsWholeUnit(a);
    var orphanGuests := Sum(Filter(window, Orphan()), Guests());
    units := [];
    for unitNum := 1 to a.unitCount + 1
      invariant units == RangeLines(a, window, blocked, unitNum - 1)
    {
      var booked := BookedOn(window, unitNum) + if wholeUnit then 0 else orphanGuests;
      var available :=
        if blocked then 0
        else if wholeUnit then (if booked > 0 then 0 else a.unitCapacity)
        else Max(0, a.unitCapacity - booked);
      assert UnitLine(booked, available) == RangeLine(a, window, blocked, unitNum);
      units := units + [UnitLine(booked, available)];
    }
  }

  /** The daily view over [lo, hi) for one unit; an orphan could be sitting in it. */
  function RangeUnitView(a: Activity, live: seq<Stay>, blocked: bool, lo: int, hi: int, u: int): UnitLine {
    var window := Filter(live, Within(lo, hi));
    var line := RangeLine(a, window, blocked, u);
    if RentsWholeUnit(a) && Filter(window, Orphan()) != [] then line.(available := 0) else line
  }

  /** The single-unit query; `None` when there is no such unit. */
  method ShowRangeUnit(a: Activity, live: seq<Stay>, blocked: bool, lo: int, hi: int, u: int) returns (line: Option<UnitLine>)
    ensures line == if 1 <= u <= a.unitCount then Some(RangeUnitView(a, live, blocked, lo, hi, u)) else None
  {
    if u < 1 || u > a.unitCount {
      return None;
    }
    var window := Filter(live, Within(lo, hi));
    var wholeUnitHere := RentsWholeUnit(a);
    var orphanGuestsHere := Sum(Filter(window, Orphan()), Guests());
    var orphanCountHere := |Filter(window, Orphan())|;
    var booked := BookedOn(window, u) + if wholeUnitHere then 0 else orphanGuestsHere;
    var available :=
      if blocked then 0
      else if wholeUnitHere then (if booked > 0 || orphanCountHere > 0 then 0 else a.unitCapacity)
      else Max(0, a.unitCapacity - booked);
    return Some(UnitLine(booked, available));
  }

  lemma BookedMeansTaken(a: Activity, live: seq<Stay>, lo: int, hi: int, g: nat, u: int)
    requires RentsWholeUnit(a) && AllProper(live)
    ensures var booked := BookedOn(Filter(live, Within(lo, hi)), u);
            booked >= 0 && (booked > 0 <==> !UnitFits(a, live, lo, hi, g, u))
  {
    var w := Filter(live, Within(lo, hi));
    var f := Filter(w, OnUnit(u));
    FilterMembers(live, Within(lo, hi));
    FilterMembers(w, OnUnit(u));
    SumNonNegative(f, Guests());
    if f != [] {
      SumAtLeast(f, Guests(), f[0]);
      assert f[0] in f;
    }
    if !UnitFits(a, live, lo, hi, g, u) {
      var b :| b in live && b.unit == Some(u) && Overlaps(b, lo, hi);
      assert b in f;
    }
  }

  /** A unit's line is open, with the whole unit, exactly when the unit fits. */
  lemma LineShowsFit(a: Activity, live: seq<Stay>, lo: int, hi: int, g: nat, u: int)
    requires RentsWholeUnit(a) && AllProper(live)
    ensures var l := RangeLine(a, Filter(live, Within(lo, hi)), false, u);
            && Unbooked()(l) == UnitFits(a, live, lo, hi, g, u)
            && l.available == if UnitFits(a, live, lo, hi, g, u) then a.unitCapacity else 0
  {
    BookedMeansTaken(a, live, lo, hi, g, u);
  }

  lemma {:induction false} RangeFree(a: Activity, live: seq<Stay>, lo: int, hi: int, g: nat, n: nat)
    requires RentsWholeUnit(a) && a.unitCapacity >= 1 && AllProper(live)
    ensures var lines := RangeLines(a, Filter(live, Within(lo, hi)), false, n);
            UnitsShown(lines) == |FreeUnits(a, live, lo, hi, g, n)|
            && Uniform(lines, a.unitCapacity) && forall l | l in lines :: Unbooked()(l) == Open()(l)
  {
    if n > 0 {
      var w := Filter(live, Within(lo, hi));
      RangeFree(a, live, lo, hi, g, n - 1);
      LinesAppend(RangeLines(a, w, false, n - 1), RangeLine(a, w, false, n));
      LineShowsFit(a, live, lo, hi, g, n);
    }
  }

  lemma RangeShown(a: Activity, live: seq<Stay>, lo: int, hi: int, g: nat)
    requires RentsWholeUnit(a) && UnitConfigConsistent(a) && AllProper(live)
    ensures var lines := RangeView(a, live, false, lo, hi).lines;
            UnitsShown(lines)
               == Max(0, |FreeUnits(a, live, lo, hi, g, a.unitCount)| - |UnassignedOverlapping(live, lo, hi)|)
            && Uniform(lines, a.unitCapacity)
  {
    var window := Filter(live, Within(lo, hi));
    FilterTwice(live, Within(lo, hi), Orphan(), OrphanWithin(lo, hi));
    RangeFree(a, live, lo, hi, g, a.unitCount);
    RetireKeepsUniform(RangeLines(a, window, false, a.unitCount), Unbooked(), |Filter(window, Orphan())|, a.unitCapacity);
  }

  /**
   * The daily range view is exact for whole units: it shows as many units free as there are free
   * units beyond the orphans (none below zero), and offers `g` places exactly when createBooking
   * finds a unit for them.
   */
  lemma RangeViewIsExact(a: Activity, live: seq<Stay>, lo: int, hi: int, g: nat)
    requires RentsWholeUnit(a) && UnitConfigConsistent(a) && AllProper(live) && g >= 1
    ensures var v := RangeView(a, live, false, lo, hi);
            v.Units?
            && UnitsShown(v.lines)
               == Max(0, |FreeUnits(a, live, lo, hi, g, a.unitCount)| - |UnassignedOverlapping(live, lo, hi)|)
            && (Offers(v, g) <==> Decide(a, live, lo, hi, g).Accepted?)
  {
    RangeShown(a, live, lo, hi, g);
    OfferByCount(RangeView(a, live, false, lo, hi), |FreeUnits(a, live, lo, hi, g, a.unitCount)|,
                 |UnassignedOverlapping(live, lo, hi)|, a.unitCapacity, g);
    WholeUnitVerdict(a, live, lo, hi, g);
  }

  /**
   * The view of one whole unit offers `g` places exactly when a unit holds that many, this one is
   * free over the stay and nobody without a unit is there; such a request is always accepted.
   */
  lemma RangeUnitIsExact(a: Activity, live: seq<Stay>, lo: int, hi: int, g: nat, u: int)
    requires RentsWholeUnit(a) && UnitConfigConsistent(a) && AllProper(live) && g >= 1 && 1 <= u <= a.unitCount
    ensures var shown := RangeUnitView(a, live, false, lo, hi, u).available;
            && (shown >= g <==>
                  g <= a.unitCapacity && UnitFits(a, live, lo, hi, g, u) && UnassignedOverlapping(live, lo, hi) == [])
            && (shown >= g ==> Decide(a, live, lo, hi, g).Accepted?)
  {
    BookedMeansTaken(a, live, lo, hi, g, u);
    FilterTwice(live, Within(lo, hi), Orphan(), OrphanWithin(lo, hi));
    WholeUnitVerdict(a, live, lo, hi, g);
    FreeUnitsMembers(a, live, lo, hi, g, a.unitCount);
    if UnitFits(a, live, lo, hi, g, u) {
      assert u in FreeUnits(a, live, lo, hi, g, a.unitCount);
    }
  }

  lemma PeakAtMostSum(live: seq<Stay>, lo: int, hi: int)
    ensures Peak(live, lo, hi) <= Sum(Filter(live, Within(lo, hi)), Guests())
  {
    var w := Filter(live, Within(lo, hi));
    SumNonNegative(w, Guests());
    forall t | lo <= t < hi ensures Load(live, t) <= Sum(w, Guests()) {
      SumFilter(live, Within(lo, hi), GuestsAt(t));
      SumBounds(w, GuestsAt(t), Guests());
    }
    PeakAtMost(live, lo, hi, Sum(w, Guests()));
  }

  /** Without units the range view is safe: whatever number of places it shows is accepted. */
  lemma RangeViewIsSafe(a: Activity, live: seq<Stay>, blocked: bool, lo: int, hi: int, g: nat)
    requires !a.hasUnits && g >= 1
    requires Offers(RangeView(a, live, blocked, lo, hi), g)
    ensures Decide(a, live, lo, hi, g).Accepted?
  {
    PeakAtMostSum(live, lo, hi);
  }
}
