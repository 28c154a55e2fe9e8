/**
 * The capacity test of createBooking: which unit (if any) a request gets, and what accepting it
 * means for the load at every instant of the requested window.
 */
module Capacity {
  import opened Common
  import opened Occupancy

  datatype BookingType = Hourly | Daily
  datatype PricingModel = PerPerson | PerUnit

  /**
   * The configuration the capacity rules read. `capacity == None` is an uncapped activity.
   * Times of day are minutes from midnight; `duration` is the HOURLY default length in hours.
   */
  datatype Activity = Activity(
    bookingType: BookingType,
    pricing: PricingModel,
    hasUnits: bool,
    unitCount: nat,
    unitCapacity: nat,
    capacity: Option<int>,
    checkIn: int,
    checkOut: int,
    duration: nat)

  /** The cross-field rule enforced when an activity is saved with units switched on. */
  predicate UnitConfigConsistent(a: Activity) {
    a.hasUnits ==> a.unitCount >= 1 && a.unitCapacity >= 1
  }

  /** One booking owns the entire unit, whatever its number of guests. */
  predicate RentsWholeUnit(a: Activity) {
    a.hasUnits && (a.bookingType == Daily || a.pricing == PerUnit)
  }

  // ----- which stays count against which unit -----

  function OnUnit(u: int): Stay -> bool {
    (b: Stay) => b.unit == Some(u)
  }

  function Orphan(): Stay -> bool {
    (b: Stay) => b.unit == None
  }

  /** Stays charged to unit `u` when seats are sold one by one: its own and every orphan. */
  function Shared(u: int): Stay -> bool {
    (b: Stay) => b.unit == Some(u) || b.unit == None
  }

  function OutOfRange(n: nat): Stay -> bool {
    (b: Stay) => b.unit.Some? && !(1 <= b.unit.value <= n)
  }

  function Within(lo: int, hi: int): Stay -> bool {
    (b: Stay) => Overlaps(b, lo, hi)
  }

  function OnUnitWithin(u: int, lo: int, hi: int): Stay -> bool {
    (b: Stay) => b.unit == Some(u) && Overlaps(b, lo, hi)
  }

  function OrphanWithin(lo: int, hi: int): Stay -> bool {
    (b: Stay) => b.unit == None && Overlaps(b, lo, hi)
  }

  /** The bookings without a unit that overlap [lo, hi). */
  function UnassignedOverlapping(bs: seq<Stay>, lo: int, hi: int): seq<Stay> {
    Filter(bs, OrphanWithin(lo, hi))
  }

  function GuestsWhere(p: Stay -> bool, t: int): Stay -> int {
    b => if p(b) && Covers(b, t) then b.guests else 0
  }

  function OneWhere(p: Stay -> bool, t: int): Stay -> int {
    b => if p(b) && Covers(b, t) then 1 else 0
  }

  /** Guests present at `t` among the stays satisfying `p`. */
  function GuestsAmong(bs: seq<Stay>, p: Stay -> bool, t: int): int {
    Sum(bs, GuestsWhere(p, t))
  }

  /** Number of stays present at `t` among those satisfying `p`. */
  function CountAmong(bs: seq<Stay>, p: Stay -> bool, t: int): int {
    Sum(bs, OneWhere(p, t))
  }

  lemma LoadOfFilter(bs: seq<Stay>, p: Stay -> bool, t: int)
    ensures Load(Filter(bs, p), t) == GuestsAmong(bs, p, t)
  {
    SumFilter(bs, p, GuestsWhere(p, t));
    FilterMembers(bs, p);
    SumSame(Filter(bs, p), GuestsAt(t), GuestsWhere(p, t));
  }

  /** Pre-selecting the stays that overlap a window loses nothing inside the window. */
  lemma LoadOfWindow(bs: seq<Stay>, p: Stay -> bool, LO: int, HI: int, t: int)
    requires LO <= t < HI
    ensures Load(Filter(Filter(bs, Within(LO, HI)), p), t) == GuestsAmong(bs, p, t)
  {
    LoadOfFilter(Filter(bs, Within(LO, HI)), p, t);
    SumFilter(bs, Within(LO, HI), GuestsWhere(p, t));
  }

  /** ... so a query for an enclosing window [LO, HI) gives the right peak over [lo, hi). */
  lemma PeakOfWindow(bs: seq<Stay>, p: Stay -> bool, LO: int, HI: int, lo: int, hi: int)
    requires LO <= lo && hi <= HI
    ensures Peak(Filter(Filter(bs, Within(LO, HI)), p), lo, hi) == Peak(Filter(bs, p), lo, hi)
  {
    forall t | lo <= t < hi
      ensures Load(Filter(Filter(bs, Within(LO, HI)), p), t) == Load(Filter(bs, p), t)
    {
      LoadOfWindow(bs, p, LO, HI, t);
      LoadOfFilter(bs, p, t);
    }
    PeakSame(Filter(Filter(bs, Within(LO, HI)), p), Filter(bs, p), lo, hi);
  }

  // ----- the verdict -----

  datatype Verdict = Accepted(unit: Option<int>) | AllUnitsFull | TooFewPlaces

  /** Unit `u` can take `g` guests over [lo, hi). */
  predicate UnitFits(a: Activity, live: seq<Stay>, lo: int, hi: int, g: nat, u: int) {
    if RentsWholeUnit(a) then
      forall b | b in live && b.unit == Some(u) :: !Overlaps(b, lo, hi)
    else
      Peak(Filter(live, Shared(u)), lo, hi) + g <= a.unitCapacity
  }

  /** The units among 1..n that fit, lowest first. */
  function FreeUnits(a: Activity, live: seq<Stay>, lo: int, hi: int, g: nat, n: nat): seq<int> {
    if n == 0 then []
    else FreeUnits(a, live, lo, hi, g, n - 1) + if UnitFits(a, live, lo, hi, g, n) then [n] else []
  }

  /** Free units left to sell: whole-unit rental holds one back for every orphan in the window. */
  function Usable(a: Activity, live: seq<Stay>, lo: int, hi: int, g: nat): int {
    var free := |FreeUnits(a, live, lo, hi, g, a.unitCount)|;
    if RentsWholeUnit(a) then free - |UnassignedOverlapping(live, lo, hi)| else free
  }

  /** What createBooking decides for `g` guests over [lo, hi) given the bookings holding a seat. */
  function Decide(a: Activity, live: seq<Stay>, lo: int, hi: int, g: nat): Verdict {
    if a.hasUnits && a.unitCount > 0 then
      var free := FreeUnits(a, live, lo, hi, g, a.unitCount);
      if Usable(a, live, lo, hi, g) <= 0 || free == [] then AllUnitsFull
      else if g > a.unitCapacity - Peak(Filter(live, OnUnit(free[0])), lo, hi) then TooFewPlaces
      else Accepted(Some(free[0]))
    else if a.hasUnits then
      if g > 0 - Peak(live, lo, hi) then TooFewPlaces else Accepted(None)
    else if a.capacity.Some? && g > a.capacity.value - Peak(live, lo, hi) then TooFewPlaces
    else Accepted(None)
  }

  lemma {:induction false} FreeUnitsMembers(a: Activity, live: seq<Stay>, lo: int, hi: int, g: nat, n: nat)
    ensures forall u :: u in FreeUnits(a, live, lo, hi, g, n) <==> 1 <= u <= n && UnitFits(a, live, lo, hi, g, u)
    ensures forall i, j | 0 <= i < j < |FreeUnits(a, live, lo, hi, g, n)| ::
              FreeUnits(a, live, lo, hi, g, n)[i] < FreeUnits(a, live, lo, hi, g, n)[j]
  {
    if n > 0 {
      FreeUnitsMembers(a, live, lo, hi, g, n - 1);
      var f := FreeUnits(a, live, lo, hi, g, n - 1);
      forall i | 0 <= i < |f| ensures f[i] < n {
        assert f[i] in f;
      }
    }
  }

  /** The bookings the final check looks at: those of the chosen unit, or all. */
  function OfUnit(bs: seq<Stay>, unit: Option<int>): seq<Stay> {
    if unit.Some? then Filter(bs, OnUnit(unit.value)) else bs
  }

  lemma FinalPeak(live: seq<Stay>, unit: Option<int>, lo: int, hi: int)
    ensures Peak(OfUnit(Filter(live, Within(lo, hi)), unit), lo, hi) == Peak(OfUnit(live, unit), lo, hi)
  {
    if unit.Some? {
      PeakOfWindow(live, OnUnit(unit.value), lo, hi, lo, hi);
    } else {
      WindowPeak(live, lo, hi, lo, hi);
    }
  }

  /** The scan over the units, on the window's bookings. */
  method FindFreeUnits(a: Activity, ghost live: seq<Stay>, windowBookings: seq<Stay>, orphans: seq<Stay>, lo: int, hi: int, guests: nat)
    returns (freeUnits: seq<int>)
    requires windowBookings == Filter(live, Within(lo, hi)) && orphans == UnassignedOverlapping(live, lo, hi)
    ensures freeUnits == FreeUnits(a, live, lo, hi, guests, a.unitCount)
  {
    var wholeUnit := RentsWholeUnit(a);
    freeUnits := [];
    for unitNum := 1 to a.unitCount + 1
      invariant freeUnits == FreeUnits(a, live, lo, hi, guests, unitNum - 1)
    {
      var unitBookings := Filter(windowBookings, OnUnit(unitNum));
      UnitTest(a, live, lo, hi, guests, unitNum);
      if wholeUnit {
        if |unitBookings| == 0 {
          freeUnits := freeUnits + [unitNum];
        }
      } else {
        var peak := MaxConcurrentInWindow(unitBookings + orphans, lo, hi);
        if a.unitCapacity - peak >= guests {
          freeUnits := freeUnits + [unitNum];
        }
      }
    }
  }

  /** The unit choice and final check of createBooking, step by step over the window's bookings. */
  method CapacityTest(a: Activity, live: seq<Stay>, lo: int, hi: int, guests: nat) returns (v: Verdict)
    ensures v == Decide(a, live, lo, hi, guests)
  {
    var windowBookings := Filter(live, Within(lo, hi));
    var capacityLimit: Option<int> := if a.hasUnits then Some(0) else a.capacity;
    var resolved: Option<int> := None;
    if a.hasUnits && a.unitCount > 0 {
      var wholeUnit := RentsWholeUnit(a);
      var orphans := UnassignedOverlapping(windowBookings, lo, hi);
      WindowOrphans(live, lo, hi);
      var freeUnits := FindFreeUnits(a, live, windowBookings, orphans, lo, hi, guests);
      var usable := if wholeUnit then |freeUnits| - |orphans| else |freeUnits|;
      if usable <= 0 {
        return AllUnitsFull;
      }
      resolved := Some(freeUnits[0]);
      capacityLimit := Some(a.unitCapacity);
    }
    var finalBookings := OfUnit(windowBookings, resolved);
    var peakConcurrent := MaxConcurrentInWindow(finalBookings, lo, hi);
    FinalPeak(live, resolved, lo, hi);
    if capacityLimit.Some? && guests > capacityLimit.value - peakConcurrent {
      return TooFewPlaces;
    }
    return Accepted(resolved);
  }

  /** The window's bookings have the orphans of the whole list. */
  lemma WindowOrphans(live: seq<Stay>, lo: int, hi: int)
    ensures UnassignedOverlapping(Filter(live, Within(lo, hi)), lo, hi) == UnassignedOverlapping(live, lo, hi)
  {
    FilterTwice(live, Within(lo, hi), OrphanWithin(lo, hi), OrphanWithin(lo, hi));
  }

  /** What the loop tests for one unit on the window's bookings is whether the unit fits. */
  lemma UnitTest(a: Activity, live: seq<Stay>, lo: int, hi: int, g: nat, u: int)
    ensures var own := Filter(Filter(live, Within(lo, hi)), OnUnit(u));
            UnitFits(a, live, lo, hi, g, u) <==>
              if RentsWholeUnit(a) then own == []
              else a.unitCapacity - Peak(own + UnassignedOverlapping(live, lo, hi), lo, hi) >= g
  {
    var own := Filter(Filter(live, Within(lo, hi)), OnUnit(u));
    if RentsWholeUnit(a) {
      FilterMembers(live, Within(lo, hi));
      FilterMembers(Filter(live, Within(lo, hi)), OnUnit(u));
      if own != [] {
        assert own[0] in own;
      }
    } else {
      SharedPeak(live, lo, hi, lo, hi, u);
    }
  }

  lemma WindowPeak(bs: seq<Stay>, LO: int, HI: int, lo: int, hi: int)
    requires LO <= lo && hi <= HI
    ensures Peak(Filter(bs, Within(LO, HI)), lo, hi) == Peak(bs, lo, hi)
  {
    forall t | lo <= t < hi ensures Load(Filter(bs, Within(LO, HI)), t) == Load(bs, t) {
      SumFilter(bs, Within(LO, HI), GuestsAt(t));
    }
    PeakSame(Filter(bs, Within(LO, HI)), bs, lo, hi);
  }

  /** A unit's own stays followed by the orphans load the window like the shared list. */
  lemma SharedPeak(bs: seq<Stay>, LO: int, HI: int, lo: int, hi: int, u: int)
    requires LO <= lo && hi <= HI
    ensures Peak(Filter(Filter(bs, Within(LO, HI)), OnUnit(u)) + UnassignedOverlapping(bs, lo, hi), lo, hi)
         == Peak(Filter(bs, Shared(u)), lo, hi)
  {
    var own, orphans := Filter(Filter(bs, Within(LO, HI)), OnUnit(u)), UnassignedOverlapping(bs, lo, hi);
    forall t | lo <= t < hi ensures Load(own + orphans, t) == Load(Filter(bs, Shared(u)), t) {
      SumConcat(own, orphans, GuestsAt(t));
      LoadOfWindow(bs, OnUnit(u), LO, HI, t);
      LoadOfFilter(bs, OrphanWithin(lo, hi), t);
      LoadOfFilter(bs, Shared(u), t);
      SumSplit(bs, GuestsWhere(OnUnit(u), t), GuestsWhere(OrphanWithin(lo, hi), t), GuestsWhere(Shared(u), t));
    }
    PeakSame(own + orphans, Filter(bs, Shared(u)), lo, hi);
  }

  // ----- what a verdict means at every instant -----

  /**
   * Seats in shared units: a request is accepted exactly when some unit has room for it, next to
   * its own guests and every orphan, at every instant; it gets the lowest such unit, and the
   * final check never overrules that choice.
   */
  lemma PerPersonVerdict(a: Activity, live: seq<Stay>, lo: int, hi: int, g: nat)
    requires a.hasUnits && !RentsWholeUnit(a) && lo < hi && g >= 1
    ensures Decide(a, live, lo, hi, g).Accepted? <==> exists u :: RoomInUnit(a, live, lo, hi, g, u)
    ensures Decide(a, live, lo, hi, g).Accepted? ==>
              var u := Decide(a, live, lo, hi, g).unit;
              u.Some? && RoomInUnit(a, live, lo, hi, g, u.value)
              && forall v | 1 <= v < u.value :: !RoomInUnit(a, live, lo, hi, g, v)
  {
    var free := FreeUnits(a, live, lo, hi, g, a.unitCount);
    FreeUnitsMembers(a, live, lo, hi, g, a.unitCount);
    PeakNonNegative(live, lo, hi);
    forall u | 1 <= u <= a.unitCount
      ensures UnitFits(a, live, lo, hi, g, u) <==> RoomInUnit(a, live, lo, hi, g, u)
    {
      FitsMeansRoom(a, live, lo, hi, g, u);
    }
    if free != [] {
      assert free[0] in free;
      forall t | lo <= t < hi
        ensures Load(Filter(live, OnUnit(free[0])), t) <= Load(Filter(live, Shared(free[0])), t)
      {
        LoadOfFilter(live, OnUnit(free[0]), t);
        LoadOfFilter(live, Shared(free[0]), t);
        SumBounds(live, GuestsWhere(OnUnit(free[0]), t), GuestsWhere(Shared(free[0]), t));
      }
      PeakMonotone(Filter(live, OnUnit(free[0])), Filter(live, Shared(free[0])), lo, hi);
    }
  }

  /** `u` is a unit of the activity with `g` places free at every instant of [lo, hi). */
  ghost predicate RoomInUnit(a: Activity, live: seq<Stay>, lo: int, hi: int, g: nat, u: int) {
    && 1 <= u <= a.unitCount
    && forall t | lo <= t < hi :: GuestsAmong(live, Shared(u), t) + g <= a.unitCapacity
  }

  lemma FitsMeansRoom(a: Activity, live: seq<Stay>, lo: int, hi: int, g: nat, u: int)
    requires !RentsWholeUnit(a) && 1 <= u <= a.unitCount && lo < hi
    ensures UnitFits(a, live, lo, hi, g, u) <==> RoomInUnit(a, live, lo, hi, g, u)
  {
    forall t | lo <= t < hi ensures Load(Filter(live, Shared(u)), t) == GuestsAmong(live, Shared(u), t) {
      LoadOfFilter(live, Shared(u), t);
    }
    PeakNonNegative(Filter(live, Shared(u)), lo, hi);
    if a.unitCapacity >= g {
      PeakAtMost(Filter(live, Shared(u)), lo, hi, a.unitCapacity - g);
      if RoomInUnit(a, live, lo, hi, g, u) {
        assert forall t | lo <= t < hi :: Load(Filter(live, Shared(u)), t) <= a.unitCapacity - g;
      }
    } else {
      LoadNonNegative(Filter(live, Shared(u)), lo);
      assert lo <= lo < hi;
    }
  }

  /** No units: accepted exactly when the places suffice at every instant of the window. */
  lemma PoolVerdict(a: Activity, live: seq<Stay>, lo: int, hi: int, g: nat)
    requires !a.hasUnits && lo < hi
    ensures Decide(a, live, lo, hi, g).Accepted? <==>
            (a.capacity.Some? ==> forall t | lo <= t < hi :: Load(live, t) + g <= a.capacity.value)
  {
    if a.capacity.Some? {
      var c := a.capacity.value;
      PeakNonNegative(live, lo, hi);
      if c >= g {
        PeakAtMost(live, lo, hi, c - g);
        assert (forall t | lo <= t < hi :: Load(live, t) + g <= c)
           <==> (forall t | lo <= t < hi :: Load(live, t) <= c - g);
      } else {
        LoadNonNegative(live, lo);
        assert lo <= lo < hi;
      }
    }
  }

  /**
   * Whole units: an accepted request gets a unit nobody named holds in the window, and there are
   * strictly more such units than orphans in the window.
   */
  lemma WholeUnitVerdict(a: Activity, live: seq<Stay>, lo: int, hi: int, g: nat)
    requires RentsWholeUnit(a) && g >= 1
    requires forall b | b in live :: Proper(b)
    ensures Decide(a, live, lo, hi, g).Accepted? <==>
            g <= a.unitCapacity
            && |FreeUnits(a, live, lo, hi, g, a.unitCount)| > |UnassignedOverlapping(live, lo, hi)|
    ensures Decide(a, live, lo, hi, g).Accepted? ==>
              var u := Decide(a, live, lo, hi, g).unit;
              u.Some? && 1 <= u.value <= a.unitCount && UnitFits(a, live, lo, hi, g, u.value)
              && forall v | 1 <= v < u.value :: !UnitFits(a, live, lo, hi, g, v)
  {
    var free := FreeUnits(a, live, lo, hi, g, a.unitCount);
    FreeUnitsMembers(a, live, lo, hi, g, a.unitCount);
    if a.unitCount == 0 {
      PeakNonNegative(live, lo, hi);
    } else if free != [] {
      assert free[0] in free;
      FreeUnitEmpty(a, live, lo, hi, g, free[0]);
    }
  }

  lemma FreeUnitEmpty(a: Activity, live: seq<Stay>, lo: int, hi: int, g: nat, u: int)
    requires RentsWholeUnit(a) && UnitFits(a, live, lo, hi, g, u)
    ensures forall t | lo <= t < hi :: CountAmong(live, OnUnit(u), t) == 0
    ensures Peak(Filter(live, OnUnit(u)), lo, hi) == 0
  {
    forall t | lo <= t < hi
      ensures CountAmong(live, OnUnit(u), t) == 0 && Load(Filter(live, OnUnit(u)), t) == 0
    {
      LoadOfFilter(live, OnUnit(u), t);
      SumSame(live, OneWhere(OnUnit(u), t), Zero());
      SumSame(live, GuestsWhere(OnUnit(u), t), Zero());
      SumZero(live);
    }
    PeakNonNegative(Filter(live, OnUnit(u)), lo, hi);
    PeakAtMost(Filter(live, OnUnit(u)), lo, hi, 0);
  }

  function Zero(): Stay -> int {
    (b: Stay) => 0
  }

  lemma {:induction false} SumZero(bs: seq<Stay>)
    ensures Sum(bs, Zero()) == 0
  {
    if bs != [] {
      SumZero(bs[..|bs| - 1]);
    }
  }
}
