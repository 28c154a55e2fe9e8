/**
 * A captured payment whose booking was cancelled or deleted meanwhile. The booking is put back into
 * its own window and unit after a re-check of its own: when that keeps the table safe.
 */
module Recovery {
  import opened Common
  import opened Occupancy
  import opened Capacity
  import opened BookingTable
  import opened LateConfirms

  /** What the re-check counts: in the unit the booking names, orphans included, or everywhere. */
  function Rival(b: Stay): Stay -> bool {
    (x: Stay) => Overlaps(x, b.start, b.end) && (b.unit.Some? ==> Shared(b.unit.value)(x))
  }

  /** The limit it compares with; a booking without a unit is counted against the activity's pool. */
  function Limit(a: Activity, b: Stay): Option<int> {
    if a.hasUnits && b.unit.Some? then Some(a.unitCapacity) else a.capacity
  }

  predicate OwnsUnit(a: Activity, b: Stay) {
    b.unit.Some? && RentsWholeUnit(a)
  }

  predicate FitsAgain(a: Activity, live: seq<Stay>, b: Stay) {
    var rivals := Filter(live, Rival(b));
    if OwnsUnit(a, b) then rivals == []
    else Limit(a, b).None? || Peak(rivals, b.start, b.end) + b.guests <= Limit(a, b).value
  }

  method RecoverySlotAvailable(a: Activity, live: seq<Stay>, b: Stay) returns (free: bool)
    ensures free <==> FitsAgain(a, live, b)
  {
    var overlapping := Filter(live, Rival(b));
    var isUnit := a.hasUnits && b.unit.Some?;
    if isUnit && RentsWholeUnit(a) {
      return |overlapping| == 0;
    }
    var peak := MaxConcurrentInWindow(overlapping, b.start, b.end);
    var cap: Option<int> := if isUnit then Some(a.unitCapacity) else a.capacity;
    return cap.None? || peak + b.guests <= cap.value;
  }

  // ----- what the re-check says about an instant -----

  lemma RivalLoad(live: seq<Stay>, b: Stay, t: int)
    requires Covers(b, t)
    ensures Load(Filter(live, Rival(b)), t) == if b.unit.Some? then GuestsAmong(live, Shared(b.unit.value), t) else Load(live, t)
  {
    LoadOfFilter(live, Rival(b), t);
    if b.unit.Some? {
      var u := b.unit.value;
      forall x | x in live ensures GuestsWhere(Rival(b), t)(x) == GuestsWhere(Shared(u), t)(x) {
        assert Rival(b)(x) <==> Overlaps(x, b.start, b.end) && Shared(u)(x);
      }
      SumSame(live, GuestsWhere(Rival(b), t), GuestsWhere(Shared(u), t));
    } else {
      forall x | x in live ensures GuestsWhere(Rival(b), t)(x) == GuestsAt(t)(x) {
        assert Rival(b)(x) <==> Overlaps(x, b.start, b.end);
      }
      SumSame(live, GuestsWhere(Rival(b), t), GuestsAt(t));
    }
  }

  lemma RecheckHoldsAt(a: Activity, live: seq<Stay>, b: Stay, t: int)
    requires FitsAgain(a, live, b) && !OwnsUnit(a, b) && Limit(a, b).Some? && Covers(b, t)
    ensures (if b.unit.Some? then GuestsAmong(live, Shared(b.unit.value), t) else Load(live, t)) + b.guests <= Limit(a, b).value
  {
    RivalLoad(live, b, t);
    LoadAtMostPeak(Filter(live, Rival(b)), b.start, b.end, t);
  }

  lemma UnitIsOwn(live: seq<Stay>, b: Stay, t: int)
    requires b.unit.Some? && Filter(live, Rival(b)) == [] && Covers(b, t)
    ensures CountAmong(live, OnUnit(b.unit.value), t) == 0 && CountAmong(live, Orphan(), t) == 0
  {
    FilterMembers(live, Rival(b));
    var u := b.unit.value;
    forall x | x in live ensures OneWhere(OnUnit(u), t)(x) == 0 && OneWhere(Orphan(), t)(x) == 0 {
      assert x !in Filter(live, Rival(b));
      assert !(Overlaps(x, b.start, b.end) && Shared(u)(x));
    }
    SumSame(live, OneWhere(OnUnit(u), t), Zero());
    SumSame(live, OneWhere(Orphan(), t), Zero());
    SumZero(live);
  }

  lemma {:induction false} OneUnitEmpty(live: seq<Stay>, n: nat, u: int, t: int)
    requires 1 <= u && CountAmong(live, OnUnit(u), t) == 0
    ensures Occupied(live, n, t) <= if u <= n then n - 1 else n
  {
    if n > 0 {
      OneUnitEmpty(live, n - 1, u, t);
    }
  }

  /** Units on and a unit of the activity, or units off and no unit. */
  predicate UnitMatches(a: Activity, unit: Option<int>) {
    if a.hasUnits then unit.Some? && 1 <= unit.value <= a.unitCount else unit.None?
  }

  /** Where the booking was made under today's use of units, passing the re-check means room at every instant. */
  lemma MatchedRecheckMeansRoom(a: Activity, live: seq<Stay>, b: Stay, t: int)
    requires UnitMatches(a, b.unit) && FitsAgain(a, live, b) && Covers(b, t)
    ensures RoomAt(a, live, b, t)
  {
    if OwnsUnit(a, b) {
      UnitIsOwn(live, b, t);
      OneUnitEmpty(live, a.unitCount, b.unit.value, t);
    } else if Limit(a, b).Some? {
      RecheckHoldsAt(a, live, b, t);
      assert forall u | 1 <= u <= a.unitCount && Shared(u)(b) && b.unit.Some? :: u == b.unit.value;
    }
  }

  /**
   * So pool and shared units are re-checked exactly; a whole unit comes back iff it is free and no
   * orphan is in the house, who might be sitting in it.
   */
  lemma MatchedRecheckExactly(a: Activity, live: seq<Stay>, b: Stay)
    requires UnitMatches(a, b.unit) && Proper(b)
    ensures FitsAgain(a, live, b) <==>
            if RentsWholeUnit(a) then forall x | x in live && Overlaps(x, b.start, b.end) :: x.unit.Some? && x.unit != b.unit
            else forall t | b.start <= t < b.end :: RoomAt(a, live, b, t)
  {
    if RentsWholeUnit(a) {
      NoRivals(live, b);
    } else if FitsAgain(a, live, b) {
      forall t | b.start <= t < b.end ensures RoomAt(a, live, b, t) {
        MatchedRecheckMeansRoom(a, live, b, t);
      }
    } else if forall t | b.start <= t < b.end :: RoomAt(a, live, b, t) {
      RoomMeansRecheck(a, live, b);
    }
  }

  lemma NoRivals(live: seq<Stay>, b: Stay)
    requires b.unit.Some?
    ensures Filter(live, Rival(b)) == []
            <==> forall x | x in live && Overlaps(x, b.start, b.end) :: x.unit.Some? && x.unit != b.unit
  {
    var rivals, u := Filter(live, Rival(b)), b.unit.value;
    FilterMembers(live, Rival(b));
    forall x | x in live ensures x in rivals <==> Overlaps(x, b.start, b.end) && Shared(u)(x) {
    }
    if rivals != [] {
      assert rivals[0] in rivals && rivals[0] in live;
    }
  }

  lemma RoomMeansRecheck(a: Activity, live: seq<Stay>, b: Stay)
    requires UnitMatches(a, b.unit) && Proper(b) && !RentsWholeUnit(a)
    requires forall t | b.start <= t < b.end :: RoomAt(a, live, b, t)
    ensures FitsAgain(a, live, b)
  {
    if Limit(a, b).Some? {
      var rivals := Filter(live, Rival(b));
      forall t | b.start <= t < b.end ensures 0 <= Load(rivals, t) <= Limit(a, b).value - b.guests {
        RivalLoad(live, b, t);
        SumNonNegative(rivals, GuestsAt(t));
        assert RoomAt(a, live, b, t);
        assert b.unit.Some? ==> Shared(b.unit.value)(b);
      }
      assert 0 <= Load(rivals, b.start) <= Limit(a, b).value - b.guests;
      PeakAtMost(rivals, b.start, b.end, Limit(a, b).value - b.guests);
    }
  }

  // ----- bookings made under another use of units -----

  /** Everybody present holds a unit or is an orphan, and brings at least one guest. */
  lemma {:induction false} PresentAtMostLoad(live: seq<Stay>, n: nat, t: int)
    requires forall x | x in live :: Proper(x)
    ensures Occupied(live, n, t) + CountAmong(live, Orphan(), t) <= Load(live, t)
  {
    if live == [] {
      NobodyPresent(n, t);
    } else {
      var m := |live| - 1;
      var rest, b := live[..m], live[m];
      PresentAtMostLoad(rest, n, t);
      assert live == rest + [b] && b in live;
      SumAppend(rest, b, GuestsAt(t));
      SumAppend(rest, b, OneWhere(Orphan(), t));
      if Covers(b, t) {
        OccupiedAppend(rest, b, n, t);
      } else {
        OccupiedElsewhere(rest, b, n, t);
      }
    }
  }

  lemma {:induction false} NobodyPresent(n: nat, t: int)
    ensures Occupied([], n, t) == 0
  {
    if n > 0 {
      NobodyPresent(n - 1, t);
    }
  }

  /**
   * When a passed re-check is enough for a booking with this unit. It is if the booking's use of
   * units is today's; otherwise only if the pool it is counted against can never outgrow the units,
   * or there is no pool to outgrow.
   */
  predicate RecheckSuffices(a: Activity, unit: Option<int>) {
    if !a.hasUnits then unit.None? || a.capacity.None? || a.capacity.value <= 0
    else if unit.Some? then true
    else if RentsWholeUnit(a) then a.capacity.Some? && a.capacity.value <= a.unitCount
    else a.unitCount == 0 || (a.capacity.Some? && a.capacity.value <= a.unitCapacity)
  }

  lemma SufficientRecheckMeansRoom(a: Activity, live: seq<Stay>, b: Stay, t: int)
    requires RecheckSuffices(a, b.unit) && (a.hasUnits && b.unit.Some? ==> UnitMatches(a, b.unit))
    requires FitsAgain(a, live, b) && Covers(b, t) && Proper(b) && forall x | x in live :: Proper(x)
    ensures RoomAt(a, live, b, t)
  {
    if UnitMatches(a, b.unit) {
      MatchedRecheckMeansRoom(a, live, b, t);
    } else if !a.hasUnits {
      PeakNonNegative(Filter(live, Rival(b)), b.start, b.end);
    } else if RentsWholeUnit(a) {
      RecheckHoldsAt(a, live, b, t);
      PresentAtMostLoad(live, a.unitCount, t);
    } else if a.unitCount > 0 {
      RecheckHoldsAt(a, live, b, t);
      forall u ensures GuestsAmong(live, Shared(u), t) <= Load(live, t) {
        SumBounds(live, GuestsWhere(Shared(u), t), GuestsAt(t));
      }
    }
  }

  /** Whatever is booked and wherever the booking was: passing the re-check keeps every safe instant safe. */
  ghost predicate RecoveryIsSafe(a: Activity, unit: Option<int>) {
    forall live, b, t | Proper(b) && b.unit == unit && SafeAt(a, live, t) && FitsAgain(a, live, b) && (forall x | x in live :: Proper(x)) ::
      SafeAt(a, live + [b], t)
  }

  // ----- tables the re-check gets wrong -----

  /** One guest in each of the units 1..n. */
  function House(n: nat): seq<Stay> {
    if n == 0 then [] else House(n - 1) + [Stay(n - 1, 0, 1, 1, Some(n))]
  }

  lemma {:induction false} HouseCounts(n: nat, u: int)
    ensures CountAmong(House(n), OnUnit(u), 0) == if 1 <= u <= n then 1 else 0
    ensures CountAmong(House(n), Orphan(), 0) == 0 && Load(House(n), 0) == n
    ensures forall x | x in House(n) :: Proper(x)
  {
    if n > 0 {
      HouseCounts(n - 1, u);
      var b := Stay(n - 1, 0, 1, 1, Some(n));
      SumAppend(House(n - 1), b, OneWhere(OnUnit(u), 0));
      SumAppend(House(n - 1), b, OneWhere(Orphan(), 0));
      SumAppend(House(n - 1), b, GuestsAt(0));
    }
  }

  lemma {:induction false} HouseInRange(n: nat, m: nat)
    requires n <= m
    ensures CountAmong(House(n), OutOfRange(m), 0) == 0
  {
    if n > 0 {
      HouseInRange(n - 1, m);
      SumAppend(House(n - 1), Stay(n - 1, 0, 1, 1, Some(n)), OneWhere(OutOfRange(m), 0));
    }
  }

  lemma {:induction false} HouseIsFull(n: nat, m: nat)
    requires m <= n
    ensures Occupied(House(n), m, 0) == m
  {
    if m > 0 {
      HouseIsFull(n, m - 1);
      HouseCounts(n, m);
    }
  }

  const NEWCOMER := Stay(0, 0, 1, 1, None)

  /** A table and a booking by which the re-check lets one too many in. */
  ghost predicate Oversells(a: Activity, live: seq<Stay>, b: Stay) {
    && Proper(b) && (forall x | x in live :: Proper(x))
    && SafeAt(a, live, 0) && FitsAgain(a, live, b) && !SafeAt(a, live + [b], 0)
  }

  /** Whole units: a full house, and a guest without a unit the pool has a place for. */
  lemma WholeOversells(a: Activity)
    requires RentsWholeUnit(a) && !RecheckSuffices(a, None)
    ensures Oversells(a, House(a.unitCount), NEWCOMER)
  {
    var live := House(a.unitCount);
    forall u ensures CountAmong(live, OnUnit(u), 0) <= 1 {
      HouseCounts(a.unitCount, u);
    }
    HouseCounts(a.unitCount, 0);
    HouseInRange(a.unitCount, a.unitCount);
    HouseIsFull(a.unitCount, a.unitCount);
    PoolSays(a, live, NEWCOMER);
    OneMoreIsSafeExactly(a, live, NEWCOMER, 0);
  }

  /** For a stay of a single minute the re-check is about that minute. */
  lemma PoolSays(a: Activity, live: seq<Stay>, b: Stay)
    requires b.start == 0 && b.end == 1 && Proper(b) && !OwnsUnit(a, b)
    ensures FitsAgain(a, live, b) <==>
            Limit(a, b).None?
            || (if b.unit.Some? then GuestsAmong(live, Shared(b.unit.value), 0) else Load(live, 0)) + b.guests <= Limit(a, b).value
  {
    var rivals := Filter(live, Rival(b));
    RivalLoad(live, b, 0);
    SumNonNegative(rivals, GuestsAt(0));
    assert Peak(rivals, 1, 1) == 0;
    assert Peak(rivals, 0, 1) == Max(Load(rivals, 0), Peak(rivals, 1, 1));
  }

  function Party(guests: nat, unit: int): seq<Stay> {
    if guests == 0 then [] else [Stay(1, 0, 1, guests, Some(unit))]
  }

  lemma PartySums(guests: nat, unit: int, u: int, n: nat)
    ensures GuestsAmong(Party(guests, unit), Shared(u), 0) == if u == unit then guests else 0
    ensures Load(Party(guests, unit), 0) == guests
    ensures 1 <= unit <= n ==> CountAmong(Party(guests, unit), OutOfRange(n), 0) == 0
  {
    if guests > 0 {
      var b := Stay(1, 0, 1, guests, Some(unit));
      assert [] + [b] == [b];
      SumAppend([], b, GuestsWhere(Shared(u), 0));
      SumAppend([], b, GuestsAt(0));
      SumAppend([], b, OneWhere(OutOfRange(n), 0));
    }
  }

  /** Shared units: unit 1 is full, and the pool is larger than a unit. */
  lemma SharedOversells(a: Activity)
    requires a.hasUnits && !RentsWholeUnit(a) && !RecheckSuffices(a, None)
    ensures Oversells(a, Party(a.unitCapacity, 1), NEWCOMER)
  {
    var live := Party(a.unitCapacity, 1);
    forall u ensures GuestsAmong(live, Shared(u), 0) <= a.unitCapacity {
      PartySums(a.unitCapacity, 1, u, a.unitCount);
    }
    PartySums(a.unitCapacity, 1, 1, a.unitCount);
    PoolSays(a, live, NEWCOMER);
    OneMoreIsSafeExactly(a, live, NEWCOMER, 0);
    assert Shared(1)(NEWCOMER);
  }

  /** Units switched off: the pool is full of guests in another unit than the booking's. */
  lemma PoolOversells(a: Activity, unit: int)
    requires !a.hasUnits && !RecheckSuffices(a, Some(unit))
    ensures Oversells(a, Party(a.capacity.value, unit + 1), NEWCOMER.(unit := Some(unit)))
  {
    var live, b := Party(a.capacity.value, unit + 1), NEWCOMER.(unit := Some(unit));
    PartySums(a.capacity.value, unit + 1, unit, 0);
    PoolSays(a, live, b);
    OneMoreIsSafeExactly(a, live, b, 0);
  }

  /**
   * The re-check is meant to decide as createBooking does. Over all tables and stays, a booking it
   * puts back keeps every safe instant safe exactly when its use of units is today's, or the pool
   * cannot outgrow the units.
   */
  lemma RecoveryIsSafeExactly(a: Activity, unit: Option<int>)
    requires a.hasUnits && unit.Some? ==> UnitMatches(a, unit)
    ensures RecoveryIsSafe(a, unit) <==> RecheckSuffices(a, unit)
  {
    if RecheckSuffices(a, unit) {
      forall live, b, t | Proper(b) && b.unit == unit && SafeAt(a, live, t) && FitsAgain(a, live, b) && (forall x | x in live :: Proper(x))
        ensures SafeAt(a, live + [b], t)
      {
        if Covers(b, t) {
          SufficientRecheckMeansRoom(a, live, b, t);
          OneMoreIsSafeExactly(a, live, b, t);
        } else {
          OneMoreElsewhere(a, live, b, t);
        }
      }
    } else if !a.hasUnits {
      PoolOversells(a, unit.value);
    } else if RentsWholeUnit(a) {
      WholeOversells(a);
    } else {
      SharedOversells(a);
    }
  }
}
