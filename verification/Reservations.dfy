/**
 * Runs of one activity's booking table under a fixed configuration: bookings are created,
 * confirmed, completed, cancelled, deleted and backfilled while time passes and unpaid
 * reservations expire, and a captured payment brings its deleted booking back. A run double-sells
 * a seat or a unit exactly when a payment arrives after its reservation ran out and finds the room
 * gone, a booking from before a change of units comes back to where there is none, or, in the past,
 * a backfill meets a departed guest.
 */
module Reservations {
  import opened Common
  import opened Occupancy
  import opened Capacity
  import opened BookingTable
  import opened Backfill
  import opened LateConfirms
  import opened Recovery
  import opened PastInstants

  datatype Book = Book(rows: seq<Row>, now: int)

  datatype Action =
    | Create(lo: int, hi: int, guests: nat, paidByPoints: bool, window: nat)
    | Confirm(i: nat)   // the gateway reports the payment; the reservation's deadline is not looked at
    | Complete(i: nat)
    | Cancel(i: nat)
    | Delete(i: nat)    // the booking is dropped as unpaid: by its customer, by a clean-up, on a failed payment
    | Recover(i: nat)   // the gateway reports the payment of a deleted booking
    | Wait(minutes: nat)
    | AssignUnits

  /** The row an accepted request inserts: reserved for `window`, or confirmed when nothing is due. */
  function NewRow(b: Book, unit: Option<int>, lo: int, hi: int, guests: nat, paidByPoints: bool, window: nat): Row {
    Row(Stay(|b.rows|, lo, hi, guests, unit),
        if paidByPoints then Confirmed else Pending,
        if paidByPoints then None else Some(b.now + window),
        b.now,
        unit)
  }

  /** The row a captured payment inserts again, from what was frozen when the booking was created. */
  function Restored(r: Row): Row {
    r.(stay := r.stay.(unit := r.bookedUnit), status := Confirmed)
  }

  /** The booking is not over yet and passes the re-check. */
  predicate Recovers(a: Activity, b: Book, act: Action) {
    && act.Recover? && act.i < |b.rows| && b.rows[act.i].status == Removed && b.rows[act.i].stay.end > b.now
    && FitsAgain(a, Live(b.rows, b.now), Restored(b.rows[act.i]).stay)
  }

  function WithStatus(b: Book, i: nat, s: Status): Book
    requires i < |b.rows|
  {
    b.(rows := b.rows[i := b.rows[i].(status := s)])
  }

  /** The table after one action; an action whose guard fails changes nothing. */
  function Step(a: Activity, b: Book, act: Action): Book {
    match act
    case Create(lo, hi, g, paid, window) =>
      var v := Decide(a, Live(b.rows, b.now), lo, hi, g);
      if lo < hi && g >= 1 && v.Accepted?
      then b.(rows := b.rows + [NewRow(b, v.unit, lo, hi, g, paid, window)]) else b
    case Confirm(i) =>
      if i < |b.rows| && b.rows[i].status == Pending then WithStatus(b, i, Confirmed) else b
    case Complete(i) =>
      if i < |b.rows| && b.rows[i].status == Confirmed then WithStatus(b, i, Completed) else b
    case Cancel(i) =>
      if i < |b.rows| && b.rows[i].status != Removed then WithStatus(b, i, Cancelled) else b
    case Delete(i) =>
      if i < |b.rows| then WithStatus(b, i, Removed) else b
    case Recover(i) =>
      if Recovers(a, b, act) then b.(rows := b.rows[i := Restored(b.rows[i])]) else b
    case Wait(m) => b.(now := b.now + m)
    case AssignUnits => b.(rows := Backfilled(a, b.rows, b.now).1)
  }

  function Run(a: Activity, b: Book, acts: seq<Action>): Book {
    if acts == [] then b else Step(a, Run(a, b, acts[..|acts| - 1]), acts[|acts| - 1])
  }

  lemma StepWellFormed(a: Activity, b: Book, act: Action)
    requires WellFormed(b.rows)
    ensures WellFormed(Step(a, b, act).rows) && b.now <= Step(a, b, act).now
  {
    if act.AssignUnits? && Backfilled(a, b.rows, b.now).0.Done? {
      BackfillAssignsEveryone(a, b.rows, b.now, b.now);
    }
  }

  /** A payment for a reservation that holds no seat any more. */
  predicate LateConfirm(b: Book, act: Action) {
    act.Confirm? && act.i < |b.rows| && b.rows[act.i].status == Pending && !Holds(b.rows[act.i], b.now)
  }

  /** If the action is a late confirm, there is still room for its stay at `t`. */
  ghost predicate ConfirmFits(a: Activity, b: Book, act: Action, t: int) {
    LateConfirm(b, act) && Covers(b.rows[act.i].stay, t) ==> RoomAt(a, Live(b.rows, b.now), b.rows[act.i].stay, t)
  }

  /** If the action brings a booking back, there is room for it at `t`. */
  ghost predicate RecoveryFits(a: Activity, b: Book, act: Action, t: int) {
    Recovers(a, b, act) ==>
      var stay := Restored(b.rows[act.i]).stay; (Covers(stay, t) ==> RoomAt(a, Live(b.rows, b.now), stay, t))
  }

  /** If the action is a backfill of whole units, it puts nobody where a departed guest was at `t`. */
  ghost predicate BackfillFits(a: Activity, b: Book, act: Action, t: int) {
    act.AssignUnits? && RentsWholeUnit(a) && Backfilled(a, b.rows, b.now).0.Done? ==> !Clash(a, b.rows, b.now, t)
  }

  /**
   * Every action keeps a safe instant safe, past or future, except a late confirm whose room is
   * gone, a booking brought back where there is none, and a backfill that clashes with the past;
   * and those never do.
   */
  lemma StepKeepsSafeExactly(a: Activity, b: Book, act: Action, t: int)
    requires WellFormed(b.rows) && SafeAt(a, Live(b.rows, b.now), t)
    ensures SafeAt(a, Live(Step(a, b, act).rows, Step(a, b, act).now), t) <==>
            ConfirmFits(a, b, act, t) && RecoveryFits(a, b, act, t) && BackfillFits(a, b, act, t)
  {
    if act.AssignUnits? {
      BackfillStepExactly(a, b, t);
    } else if Recovers(a, b, act) {
      PutBackIsSafeExactly(a, b.rows, act.i, Restored(b.rows[act.i]), b.now, t);
    } else if LateConfirm(b, act) {
      PutBackIsSafeExactly(a, b.rows, act.i, b.rows[act.i].(status := Confirmed), b.now, t);
    } else {
      StepKeepsSafe(a, b, act, t);
    }
  }

  lemma BackfillStepExactly(a: Activity, b: Book, t: int)
    requires WellFormed(b.rows) && SafeAt(a, Live(b.rows, b.now), t)
    ensures SafeAt(a, Live(Step(a, b, AssignUnits).rows, b.now), t) <==> BackfillFits(a, b, AssignUnits, t)
  {
    if !RentsWholeUnit(a) {
      BackfillHarmsNoSharedInstant(a, b.rows, b.now, t);
    } else if Backfilled(a, b.rows, b.now).0.Done? {
      BackfillHarmsExactlyClashes(a, b.rows, b.now, t);
    }
  }

  /** Everything that puts no row back and assigns no units keeps every safe instant safe, past ones included. */
  lemma StepKeepsSafe(a: Activity, b: Book, act: Action, t: int)
    requires WellFormed(b.rows) && !act.AssignUnits? && !LateConfirm(b, act) && !Recovers(a, b, act)
    requires SafeAt(a, Live(b.rows, b.now), t)
    ensures SafeAt(a, Live(Step(a, b, act).rows, Step(a, b, act).now), t)
  {
    var b' := Step(a, b, act);
    if act.Create? && b' != b {
      var r := b'.rows[|b.rows|];
      LiveProper(b.rows, b.now);
      LiveAppend(b.rows, r, b.now);
      AcceptKeepsSafe(a, Live(b.rows, b.now), r.stay, t);
    } else {
      ShrinkKeepsSafe(a, b.rows, b.now, b'.rows, b'.now, t);
    }
  }

  // ----- whole runs -----

  lemma {:induction false} RunWellFormed(a: Activity, b: Book, acts: seq<Action>)
    requires WellFormed(b.rows)
    ensures WellFormed(Run(a, b, acts).rows) && b.now <= Run(a, b, acts).now
  {
    if acts != [] {
      RunWellFormed(a, b, acts[..|acts| - 1]);
      StepWellFormed(a, Run(a, b, acts[..|acts| - 1]), acts[|acts| - 1]);
    }
  }

  /** The instant is safe before the run, after it and all along. */
  ghost predicate SafeThroughout(a: Activity, b: Book, acts: seq<Action>, t: int) {
    && SafeAt(a, Live(Run(a, b, acts).rows, Run(a, b, acts).now), t)
    && (acts != [] ==> SafeThroughout(a, b, acts[..|acts| - 1], t))
  }

  /** Every late confirm of the run finds its room at `t`. */
  ghost predicate ConfirmsFit(a: Activity, b: Book, acts: seq<Action>, t: int) {
    acts == []
    || (ConfirmsFit(a, b, acts[..|acts| - 1], t) && ConfirmFits(a, Run(a, b, acts[..|acts| - 1]), acts[|acts| - 1], t))
  }

  /** Every booking the run brings back finds room at `t`. */
  ghost predicate RecoveriesFit(a: Activity, b: Book, acts: seq<Action>, t: int) {
    acts == []
    || (RecoveriesFit(a, b, acts[..|acts| - 1], t) && RecoveryFits(a, Run(a, b, acts[..|acts| - 1]), acts[|acts| - 1], t))
  }

  /** No backfill of the run clashes with the past at `t`. */
  ghost predicate BackfillsFit(a: Activity, b: Book, acts: seq<Action>, t: int) {
    acts == []
    || (BackfillsFit(a, b, acts[..|acts| - 1], t) && BackfillFits(a, Run(a, b, acts[..|acts| - 1]), acts[|acts| - 1], t))
  }

  /**
   * Over every run and for every instant, past or future: it stays safe throughout exactly when
   * every late confirm and every booking brought back finds its room and no backfill of whole units
   * clashes with the past.
   */
  lemma {:induction false} RunSafeExactly(a: Activity, b: Book, acts: seq<Action>, t: int)
    requires WellFormed(b.rows) && SafeAt(a, Live(b.rows, b.now), t)
    ensures SafeThroughout(a, b, acts, t) <==>
            ConfirmsFit(a, b, acts, t) && RecoveriesFit(a, b, acts, t) && BackfillsFit(a, b, acts, t)
  {
    if acts != [] {
      var n := |acts| - 1;
      RunSafeExactly(a, b, acts[..n], t);
      RunWellFormed(a, b, acts[..n]);
      if SafeThroughout(a, b, acts[..n], t) {
        StepKeepsSafeExactly(a, Run(a, b, acts[..n]), acts[n], t);
      }
    }
  }

  /** An instant that is not over at the end of the run never was, so no backfill clashes with it. */
  lemma {:induction false} FutureBackfillsFit(a: Activity, b: Book, acts: seq<Action>, t: int)
    requires WellFormed(b.rows) && Run(a, b, acts).now <= t
    ensures BackfillsFit(a, b, acts, t)
  {
    if acts != [] {
      var n := |acts| - 1;
      RunWellFormed(a, b, acts[..n]);
      StepWellFormed(a, Run(a, b, acts[..n]), acts[n]);
      FutureBackfillsFit(a, b, acts[..n], t);
    }
  }

  /**
   * Whatever is created, confirmed, cancelled, expired or backfilled: if the instants from `now` on
   * are safe at the start and every late confirm and every booking brought back finds its room,
   * they are safe at the end.
   */
  lemma NoOverbooking(a: Activity, b: Book, acts: seq<Action>)
    requires WellFormed(b.rows)
    requires SafeFrom(a, Live(b.rows, b.now), b.now)
    requires forall t | Run(a, b, acts).now <= t :: ConfirmsFit(a, b, acts, t) && RecoveriesFit(a, b, acts, t)
    ensures var e := Run(a, b, acts);
            WellFormed(e.rows) && b.now <= e.now && SafeFrom(a, Live(e.rows, e.now), e.now)
  {
    RunWellFormed(a, b, acts);
    var e := Run(a, b, acts);
    forall t | e.now <= t ensures SafeAt(a, Live(e.rows, e.now), t) {
      FutureBackfillsFit(a, b, acts, t);
      RunSafeExactly(a, b, acts, t);
    }
  }

  // ----- every instant, past ones included -----

  /** Every backfill of the run meets a clear past: nobody over and in a unit overlaps a waiting booking. */
  predicate PastAlwaysClear(a: Activity, b: Book, acts: seq<Action>) {
    acts == []
    || (PastAlwaysClear(a, b, acts[..|acts| - 1])
        && (acts[|acts| - 1].AssignUnits? ==>
              var m := Run(a, b, acts[..|acts| - 1]); PastIsClear(m.rows, m.now)))
  }

  lemma {:induction false} ClearPastBackfillsFit(a: Activity, b: Book, acts: seq<Action>, t: int)
    requires RentsWholeUnit(a) ==> PastAlwaysClear(a, b, acts)
    ensures BackfillsFit(a, b, acts, t)
  {
    if acts != [] {
      var n := |acts| - 1;
      ClearPastBackfillsFit(a, b, acts[..n], t);
      if RentsWholeUnit(a) && acts[n].AssignUnits? {
        ClearPastNeverClashes(a, Run(a, b, acts[..n]).rows, Run(a, b, acts[..n]).now, t);
      }
    }
  }

  /**
   * Seats from a pool or in shared units: every run whose late confirms and returning bookings find
   * their room at `t`, backfills included, keeps `t` safe, however far in the past. Whole units: so
   * does every such run whose backfills meet a clear past.
   */
  lemma NoOverbookingEver(a: Activity, b: Book, acts: seq<Action>, t: int)
    requires WellFormed(b.rows) && (RentsWholeUnit(a) ==> PastAlwaysClear(a, b, acts))
    requires SafeAt(a, Live(b.rows, b.now), t) && ConfirmsFit(a, b, acts, t) && RecoveriesFit(a, b, acts, t)
    ensures WellFormed(Run(a, b, acts).rows)
    ensures SafeAt(a, Live(Run(a, b, acts).rows, Run(a, b, acts).now), t)
  {
    RunWellFormed(a, b, acts);
    ClearPastBackfillsFit(a, b, acts, t);
    RunSafeExactly(a, b, acts, t);
  }

  /** On an activity with units every booking has one. */
  predicate NoOrphans(a: Activity, rows: seq<Row>) {
    a.hasUnits ==> forall i | 0 <= i < |rows| :: rows[i].stay.unit.Some? && rows[i].bookedUnit.Some?
  }

  lemma StepLeavesNoOrphans(a: Activity, b: Book, act: Action)
    requires WellFormed(b.rows) && NoOrphans(a, b.rows)
    ensures NoOrphans(a, Step(a, b, act).rows)
    ensures PastIsClear(b.rows, b.now) || !a.hasUnits
  {
    if act.Create? && a.hasUnits {
      PeakNonNegative(Live(b.rows, b.now), act.lo, act.hi);
    }
    if act.AssignUnits? && Backfilled(a, b.rows, b.now).0.Done? {
      BackfillAssignsEveryone(a, b.rows, b.now, b.now);
      forall i | 0 <= i < |b.rows| ensures Step(a, b, act).rows[i] == b.rows[i] {
        assert !WaitingRow(b.now)(b.rows[i]);
      }
    }
  }

  /** Under one configuration no run of an orphan-free table makes an orphan, so its past stays clear. */
  lemma {:induction false} RunsLeaveNoOrphans(a: Activity, b: Book, acts: seq<Action>)
    requires WellFormed(b.rows) && NoOrphans(a, b.rows)
    ensures WellFormed(Run(a, b, acts).rows) && NoOrphans(a, Run(a, b, acts).rows)
    ensures RentsWholeUnit(a) ==> PastAlwaysClear(a, b, acts)
  {
    if acts != [] {
      var m, act := Run(a, b, acts[..|acts| - 1]), acts[|acts| - 1];
      RunsLeaveNoOrphans(a, b, acts[..|acts| - 1]);
      StepWellFormed(a, m, act);
      StepLeavesNoOrphans(a, m, act);
    }
  }

  // ----- bookings that come back -----

  /** Every booking was made under the activity's present use of units. */
  predicate UnitsMatch(a: Activity, rows: seq<Row>) {
    forall i | 0 <= i < |rows| :: UnitMatches(a, rows[i].stay.unit) && UnitMatches(a, rows[i].bookedUnit)
  }

  lemma AcceptedUnitMatches(a: Activity, live: seq<Stay>, lo: int, hi: int, g: nat)
    requires lo < hi && g >= 1 && (forall x | x in live :: Proper(x)) && Decide(a, live, lo, hi, g).Accepted?
    ensures UnitMatches(a, Decide(a, live, lo, hi, g).unit)
  {
    PeakNonNegative(live, lo, hi);
    if RentsWholeUnit(a) {
      WholeUnitVerdict(a, live, lo, hi, g);
    } else if a.hasUnits {
      PerPersonVerdict(a, live, lo, hi, g);
    }
  }

  lemma StepKeepsUnits(a: Activity, b: Book, act: Action)
    requires WellFormed(b.rows) && UnitsMatch(a, b.rows)
    ensures UnitsMatch(a, Step(a, b, act).rows)
  {
    if act.Create? {
      LiveProper(b.rows, b.now);
      if act.lo < act.hi && act.guests >= 1 && Decide(a, Live(b.rows, b.now), act.lo, act.hi, act.guests).Accepted? {
        AcceptedUnitMatches(a, Live(b.rows, b.now), act.lo, act.hi, act.guests);
      }
    } else if act.AssignUnits? && Backfilled(a, b.rows, b.now).0.Done? {
      BackfillAssignsEveryone(a, b.rows, b.now, b.now);
    }
  }

  /**
   * From a table whose bookings were all made under the present use of units, every booking that
   * passes the re-check comes back to a place that is free.
   */
  lemma {:induction false} MatchedRecoveriesFit(a: Activity, b: Book, acts: seq<Action>, t: int)
    requires WellFormed(b.rows) && UnitsMatch(a, b.rows)
    ensures RecoveriesFit(a, b, acts, t)
    ensures UnitsMatch(a, Run(a, b, acts).rows)
  {
    if acts != [] {
      var n := |acts| - 1;
      var m := Run(a, b, acts[..n]);
      MatchedRecoveriesFit(a, b, acts[..n], t);
      RunWellFormed(a, b, acts[..n]);
      StepKeepsUnits(a, m, acts[n]);
      if Recovers(a, m, acts[n]) && Covers(Restored(m.rows[acts[n].i]).stay, t) {
        MatchedRecheckMeansRoom(a, Live(m.rows, m.now), Restored(m.rows[acts[n].i]).stay, t);
      }
    }
  }

  /**
   * An activity that starts with an empty table, any run and any instant: it is never overbooked
   * exactly when every late confirm of the run finds its room then.
   */
  lemma NewActivityOverbookedExactly(a: Activity, now: int, acts: seq<Action>, t: int)
    requires a.capacity.Some? ==> a.capacity.value >= 0
    ensures SafeThroughout(a, Book([], now), acts, t) <==> ConfirmsFit(a, Book([], now), acts, t)
  {
    EmptyIsSafe(a, now, t);
    RunsLeaveNoOrphans(a, Book([], now), acts);
    MatchedRecoveriesFit(a, Book([], now), acts, t);
    ClearPastBackfillsFit(a, Book([], now), acts, t);
    RunSafeExactly(a, Book([], now), acts, t);
  }

  lemma EmptyIsSafe(a: Activity, now: int, t: int)
    requires a.capacity.Some? ==> a.capacity.value >= 0
    ensures SafeAt(a, Live([], now), t)
  {
    assert Live([], now) == [];
    NobodyOccupies(a.unitCount, t);
  }

  /** No reservation of the run is paid for after it ran out. */
  predicate PaidInTime(a: Activity, b: Book, acts: seq<Action>) {
    acts == []
    || (PaidInTime(a, b, acts[..|acts| - 1]) && !LateConfirm(Run(a, b, acts[..|acts| - 1]), acts[|acts| - 1]))
  }

  lemma {:induction false} InTimeFits(a: Activity, b: Book, acts: seq<Action>, t: int)
    requires PaidInTime(a, b, acts)
    ensures ConfirmsFit(a, b, acts, t)
  {
    if acts != [] {
      InTimeFits(a, b, acts[..|acts| - 1], t);
    }
  }

  /** With every payment in time, an activity that starts empty is never overbooked at any instant. */
  lemma NewActivityNeverOverbooked(a: Activity, now: int, acts: seq<Action>, t: int)
    requires a.capacity.Some? ==> a.capacity.value >= 0
    requires PaidInTime(a, Book([], now), acts)
    ensures SafeThroughout(a, Book([], now), acts, t)
  {
    InTimeFits(a, Book([], now), acts, t);
    NewActivityOverbookedExactly(a, now, acts, t);
  }

  // ----- a late payment overbooks -----

  /** Two equal parties fit side by side: never into whole units, where both are given the same one. */
  predicate TwiceFits(a: Activity, g: nat) {
    if !a.hasUnits then a.capacity.Some? ==> g + g <= a.capacity.value
    else !RentsWholeUnit(a) && g + g <= a.unitCapacity
  }

  function LateRun(lo: int, hi: int, g: nat, window: nat): seq<Action> {
    [Create(lo, hi, g, false, window)] + [Wait(window + 1)] + [Create(lo, hi, g, false, window)] + [Confirm(0)]
  }

  lemma RunOn(a: Activity, b: Book, acts: seq<Action>, act: Action)
    ensures Run(a, b, acts + [act]) == Step(a, Run(a, b, acts), act)
  {
    assert (acts + [act])[..|acts|] == acts;
  }

  /** The table after a reservation expired and an equal one was taken. */
  function Reserved(v: Verdict, lo: int, hi: int, g: nat, window: nat, now: int): Book
    requires v.Accepted?
  {
    var first := Reservation(v.unit, 0, lo, hi, g, window, now);
    var second := Reservation(v.unit, 1, lo, hi, g, window, now + window + 1);
    Book([first, second], now + window + 1)
  }

  lemma LateRunBefore(a: Activity, lo: int, hi: int, g: nat, window: nat, now: int)
    requires lo < hi && g >= 1 && Decide(a, [], lo, hi, g).Accepted?
    ensures Run(a, Book([], now), LateRun(lo, hi, g, window)[..3]) == Reserved(Decide(a, [], lo, hi, g), lo, hi, g, window, now)
  {
    var b, r := Book([], now), Reserved(Decide(a, [], lo, hi, g), lo, hi, g, window, now);
    var create, wait := Create(lo, hi, g, false, window), Wait(window + 1);
    var s, m := Book([r.rows[0]], now), Book([r.rows[0]], now + window + 1);
    assert LateRun(lo, hi, g, window)[..3] == [create] + [wait] + [create];
    RunThree(a, b, create, wait, create);
    FirstReserves(a, lo, hi, g, window, now);
    SecondReserves(a, m, lo, hi, g, window);
    assert Step(a, s, wait) == m;
  }

  lemma RunThree(a: Activity, b: Book, x: Action, y: Action, z: Action)
    ensures Run(a, b, [x] + [y] + [z]) == Step(a, Step(a, Step(a, b, x), y), z)
  {
    RunOn(a, b, [], x);
    assert [] + [x] == [x];
    RunOn(a, b, [x], y);
    RunOn(a, b, [x] + [y], z);
  }

  function Reservation(unit: Option<int>, id: nat, lo: int, hi: int, g: nat, window: nat, now: int): Row {
    Row(Stay(id, lo, hi, g, unit), Pending, Some(now + window), now, unit)
  }

  lemma FirstReserves(a: Activity, lo: int, hi: int, g: nat, window: nat, now: int)
    requires lo < hi && g >= 1 && Decide(a, [], lo, hi, g).Accepted?
    ensures Step(a, Book([], now), Create(lo, hi, g, false, window))
         == Book([Reservation(Decide(a, [], lo, hi, g).unit, 0, lo, hi, g, window, now)], now)
  {
    assert Live([], now) == [];
  }

  /** When the only reservation has run out, another one like it is taken. */
  lemma SecondReserves(a: Activity, m: Book, lo: int, hi: int, g: nat, window: nat)
    requires lo < hi && g >= 1 && Decide(a, [], lo, hi, g).Accepted?
    requires |m.rows| == 1 && !Holds(m.rows[0], m.now)
    ensures Step(a, m, Create(lo, hi, g, false, window))
         == Book([m.rows[0], Reservation(Decide(a, [], lo, hi, g).unit, 1, lo, hi, g, window, m.now)], m.now)
  {
    assert m.rows == [m.rows[0]];
    LiveOne(m.rows[0], m.now);
  }

  /**
   * From an empty table, any activity, stay, party and reservation window: somebody reserves and
   * goes to pay, the reservation runs out, the same is sold again, and the payment arrives. The
   * table is safe at the start of the stay exactly when both parties fit side by side.
   */
  lemma LatePaymentOverbooks(a: Activity, lo: int, hi: int, g: nat, window: nat, now: int)
    requires lo < hi && g >= 1 && Decide(a, [], lo, hi, g).Accepted?
    ensures var e := Run(a, Book([], now), LateRun(lo, hi, g, window));
            SafeAt(a, Live(e.rows, e.now), lo) <==> TwiceFits(a, g)
  {
    var acts, v := LateRun(lo, hi, g, window), Decide(a, [], lo, hi, g);
    var m := Reserved(v, lo, hi, g, window, now);
    var first, second := m.rows[0], m.rows[1];
    LateRunBefore(a, lo, hi, g, window, now);
    RunOn(a, Book([], now), acts[..3], Confirm(0));
    assert acts == acts[..3] + [Confirm(0)];
    assert m.rows == [first] + [second];
    LiveConcat([first], [second], m.now);
    LiveOne(first, m.now);
    LiveOne(second, m.now);
    OneIsSafe(a, second.stay, lo);
    PutBackIsSafeExactly(a, m.rows, 0, first.(status := Confirmed), m.now, lo);
    RoomBesideEqual(a, first.stay, second.stay, lo);
  }

  /** A single accepted stay is safe. */
  lemma OneIsSafe(a: Activity, b: Stay, t: int)
    requires Proper(b) && Decide(a, [], b.start, b.end, b.guests) == Accepted(b.unit) && Covers(b, t)
    ensures SafeAt(a, [b], t)
  {
    assert [] + [b] == [b];
    NobodyOccupies(a.unitCount, t);
    EmptyHolds(a, b, t);
    AcceptKeepsSafe(a, [], b, t);
  }

  lemma EmptyHolds(a: Activity, b: Stay, t: int)
    requires Proper(b) && Decide(a, [], b.start, b.end, b.guests).Accepted? && Covers(b, t)
    ensures SafeAt(a, [], t)
  {
    NobodyOccupies(a.unitCount, t);
    if !a.hasUnits {
      PoolVerdict(a, [], b.start, b.end, b.guests);
    }
  }

  lemma WholeBesideEqual(a: Activity, x: Stay, y: Stay, u: int, t: int)
    requires RentsWholeUnit(a) && x.unit == Some(u) && y.unit == Some(u) && Covers(y, t)
    ensures !RoomAt(a, [y], x, t)
  {
    assert [] + [y] == [y];
    SumAppend([], y, OneWhere(OnUnit(u), t));
  }

  lemma SharedBesideEqual(a: Activity, x: Stay, y: Stay, u: int, t: int)
    requires a.hasUnits && !RentsWholeUnit(a) && 1 <= u <= a.unitCount
    requires x.unit == Some(u) && y.unit == Some(u) && x.guests == y.guests && Covers(y, t)
    ensures RoomAt(a, [y], x, t) <==> x.guests + x.guests <= a.unitCapacity
  {
    OneGuest(y, u, t);
    assert Shared(u)(x);
    forall w | Shared(w)(x) ensures w == u {
    }
  }

  lemma OneGuest(y: Stay, u: int, t: int)
    requires y.unit == Some(u) && Covers(y, t)
    ensures GuestsAmong([y], Shared(u), t) == y.guests
  {
    assert [] + [y] == [y];
    SumAppend([], y, GuestsWhere(Shared(u), t));
  }

  /** Room for a stay next to another one like it. */
  lemma RoomBesideEqual(a: Activity, x: Stay, y: Stay, t: int)
    requires Proper(x) && x.(id := y.id) == y && Covers(x, t)
    requires Decide(a, [], x.start, x.end, x.guests) == Accepted(x.unit)
    ensures RoomAt(a, [y], x, t) <==> TwiceFits(a, x.guests)
  {
    if !a.hasUnits {
      assert [] + [y] == [y];
      SumAppend([], y, GuestsAt(t));
    } else if RentsWholeUnit(a) {
      WholeUnitVerdict(a, [], x.start, x.end, x.guests);
      WholeBesideEqual(a, x, y, x.unit.value, t);
    } else {
      PerPersonVerdict(a, [], x.start, x.end, x.guests);
      SharedBesideEqual(a, x, y, x.unit.value, t);
    }
  }

  lemma {:induction false} NobodyOccupies(n: nat, t: int)
    ensures Occupied([], n, t) == 0
  {
    if n > 0 {
      NobodyOccupies(n - 1, t);
    }
  }

  lemma NoUnitsYet(a: Activity, b: Book, t: int)
    requires forall i | 0 <= i < |b.rows| :: b.rows[i].stay.unit == None
    ensures UnitsSafeAt(a, Live(b.rows, b.now), t)
  {
    var live := Live(b.rows, b.now);
    FilterMembers(b.rows, Holding(b.now));
    forall x | x in live ensures x.unit == None {
      var i :| 0 <= i < |live| && live[i] == x;
      assert Filter(b.rows, Holding(b.now))[i] in Filter(b.rows, Holding(b.now));
    }
    forall u | 1 <= u <= a.unitCount
      ensures CountAmong(live, OnUnit(u), t) == 0 && GuestsAmong(live, OnUnit(u), t) == 0
    {
      NoneAmong(live, OnUnit(u), t);
      SumSame(live, GuestsWhere(OnUnit(u), t), Zero());
      SumZero(live);
    }
  }

  /**
   * Switching units on: a successful backfill of bookings none of which has a unit makes every
   * instant from then on safe, so every later run whose late confirms and returning bookings find
   * their room is free of overbooking.
   */
  lemma SwitchingUnitsOn(a: Activity, b: Book, acts: seq<Action>)
    requires WellFormed(b.rows) && Backfilled(a, b.rows, b.now).0.Done?
    requires forall i | 0 <= i < |b.rows| :: b.rows[i].stay.unit == None
    requires var m := Step(a, b, AssignUnits); forall t | Run(a, m, acts).now <= t :: ConfirmsFit(a, m, acts, t) && RecoveriesFit(a, m, acts, t)
    ensures var e := Run(a, Step(a, b, AssignUnits), acts); SafeFrom(a, Live(e.rows, e.now), e.now)
  {
    forall t | b.now <= t ensures SafeAt(a, Live(Step(a, b, AssignUnits).rows, b.now), t) {
      NoUnitsYet(a, b, t);
      BackfillMakesSafe(a, b.rows, b.now, t);
    }
    StepWellFormed(a, b, AssignUnits);
    NoOverbooking(a, Step(a, b, AssignUnits), acts);
  }

  const LODGE := Activity(Daily, PerUnit, true, 2, 4, None, 0, 0, 1)
  const GONE := Row(Stay(0, 0, 10, 2, Some(1)), Confirmed, None, 0, Some(1))
  const IN_HOUSE := Row(Stay(1, 5, 20, 2, None), Confirmed, None, 1, None)

  /**
   * Why "from now on": the backfill does not look at stays that are over, so it can put a guest
   * who is still in house into the unit a departed guest had at the same time. Seen from `now`
   * nothing is wrong; seen at an instant in the past the unit is held twice.
   */
  lemma BackfillRewritesThePast()
    ensures var b := Book([GONE, IN_HOUSE], 12);
            && WellFormed(b.rows)
            && (forall t :: SafeAt(LODGE, Live(b.rows, b.now), t))
            && !SafeAt(LODGE, Live(Step(LODGE, b, AssignUnits).rows, b.now), 7)
  {
    SafeBefore(LODGE, GONE, IN_HOUSE);
    OnlyOneWaits(GONE, IN_HOUSE, LODGE);
    PairWellFormed(GONE, IN_HOUSE);
    UnsafeAfter(LODGE, GONE, IN_HOUSE.(stay := Onto(IN_HOUSE.stay, 1)));
  }

  lemma SafeBefore(a: Activity, x: Row, y: Row)
    requires RentsWholeUnit(a) && a.unitCount == 2 && x.stay.unit == Some(1) && y.stay.unit == None
    requires Holds(x, 12) && Holds(y, 12)
    ensures forall t :: SafeAt(a, Live([x, y], 12), t)
  {
    LivePair(x, y, 12);
    forall t ensures SafeAt(a, Live([x, y], 12), t) {
      PairIsSafe(a, x.stay, y.stay, t);
    }
  }

  lemma UnsafeAfter(a: Activity, x: Row, y: Row)
    requires RentsWholeUnit(a) && a.unitCount == 2 && x.stay.unit == y.stay.unit == Some(1)
    requires Holds(x, 12) && Holds(y, 12) && Covers(x.stay, 7) && Covers(y.stay, 7)
    ensures !SafeAt(a, Live([x, y], 12), 7)
  {
    LivePair(x, y, 12);
    PairIsUnsafe(a, x.stay, y.stay, 7);
  }

  lemma PairWellFormed(x: Row, y: Row)
    requires x.stay.id == 0 && y.stay.id == 1 && Proper(x.stay) && Proper(y.stay)
    ensures WellFormed([x, y])
  {
  }

  lemma PairIsUnsafe(a: Activity, x: Stay, y: Stay, t: int)
    requires RentsWholeUnit(a) && a.unitCount == 2 && x.unit == y.unit == Some(1) && Covers(x, t) && Covers(y, t)
    ensures !SafeAt(a, [x, y], t)
  {
    SumPair(x, y, OneWhere(OnUnit(1), t));
  }

  lemma PairIsSafe(a: Activity, x: Stay, y: Stay, t: int)
    requires RentsWholeUnit(a) && a.unitCount == 2 && x.unit == Some(1) && y.unit == None
    ensures SafeAt(a, [x, y], t)
  {
    SumPair(x, y, OneWhere(OutOfRange(2), t));
    SumPair(x, y, OneWhere(OnUnit(1), t));
    SumPair(x, y, OneWhere(OnUnit(2), t));
    SumPair(x, y, OneWhere(Orphan(), t));
    assert Occupied([x, y], 0, t) == 0;
    assert Occupied([x, y], 1, t) <= 1;
    assert Occupied([x, y], 2, t) <= 1;
  }

  lemma LivePair(x: Row, y: Row, now: int)
    requires Holds(x, now) && Holds(y, now)
    ensures Live([x, y], now) == [x.stay, y.stay]
  {
    assert [x, y] == [x] + [y];
    FilterAppend([x], y, Holding(now));
    assert Filter([x], Holding(now)) == [x];
  }

  lemma OnlyOneWaits(gone: Row, inHouse: Row, a: Activity)
    requires gone.stay == Stay(0, 0, 10, 2, Some(1)) && Holds(gone, 12)
    requires inHouse.stay == Stay(1, 5, 20, 2, None) && Holds(inHouse, 12)
    requires RentsWholeUnit(a) && a.unitCount == 2
    ensures Backfilled(a, [gone, inHouse], 12).1 == [gone, inHouse.(stay := Onto(inHouse.stay, 1))]
  {
    var rows := [gone, inHouse];
    FilterNone(rows, PlacedRow(12));
    FilterNone([gone], WaitingRow(12));
    FilterAppend([gone], inHouse, WaitingRow(12));
    assert rows == [gone] + [inHouse];
    assert Placed(rows, 12) == [];
    assert [inHouse][..0] == [];
    var none: seq<Row> := [];
    assert Sort(none, RowLe) == none && Insert(none, inHouse, RowLe) == none + [inHouse];
    assert Sort([inHouse], RowLe) == [inHouse];
    assert Waiting(rows, 12) == [inHouse.stay];
    PackOne(a, inHouse.stay);
    var chosen := Pack(a, [], [inHouse.stay]).chosen;
    assert Map(rows, AssignRow(chosen)) == [gone, inHouse.(stay := Onto(inHouse.stay, 1))];
  }

  lemma PackOne(a: Activity, b: Stay)
    requires RentsWholeUnit(a) && a.unitCount == 2
    ensures Pack(a, [], [b]) == Packing([Onto(b, 1)], map[b.id := 1], [])
  {
    assert [b][..0] == [];
    assert FirstFit(a, [], b, 1) == Some(1);
  }

  // ----- the table as an object -----

  class ReservationBook {
    const activity: Activity
    var rows: seq<Row>
    var now: int

    ghost predicate Valid()
      reads this
    {
      WellFormed(rows)
    }

    ghost function Value(): Book
      reads this
    {
      Book(rows, now)
    }

    constructor (activity: Activity, now: int)
      ensures Valid() && this.activity == activity && Value() == Book([], now)
    {
      this.activity := activity;
      rows, this.now := [], now;
    }

    /** The capacity transaction of createBooking. */
    method CreateBooking(lo: int, hi: int, guests: nat, paidByPoints: bool, window: nat) returns (v: Verdict)
      requires Valid() && lo < hi && guests >= 1
      modifies this
      ensures Valid()
      ensures v == Decide(activity, Live(old(rows), now), lo, hi, guests)
      ensures Value() == Step(activity, old(Value()), Create(lo, hi, guests, paidByPoints, window))
    {
      v := CapacityTest(activity, Live(rows, now), lo, hi, guests);
      if v.Accepted? {
        var stay := Stay(|rows|, lo, hi, guests, v.unit);
        if paidByPoints {
          rows := rows + [Row(stay, Confirmed, None, now, v.unit)];
        } else {
          rows := rows + [Row(stay, Pending, Some(now + window), now, v.unit)];
        }
      }
    }

    method ConfirmBooking(i: nat)
      requires Valid()
      modifies this
      ensures Valid() && Value() == Step(activity, old(Value()), Confirm(i))
    {
      if i < |rows| && rows[i].status == Pending {
        rows := rows[i := rows[i].(status := Confirmed)];
      }
    }

    method CancelBooking(i: nat)
      requires Valid()
      modifies this
      ensures Valid() && Value() == Step(activity, old(Value()), Cancel(i))
    {
      if i < |rows| && rows[i].status != Removed {
        rows := rows[i := rows[i].(status := Cancelled)];
      }
    }

    method DeleteBooking(i: nat)
      requires Valid()
      modifies this
      ensures Valid() && Value() == Step(activity, old(Value()), Delete(i))
    {
      if i < |rows| {
        rows := rows[i := rows[i].(status := Removed)];
      }
    }

    /** Brings a deleted booking back for a captured payment; false when the money has to be refunded instead. */
    method RecoverBooking(i: nat) returns (recreated: bool)
      requires Valid()
      modifies this
      ensures Valid() && Value() == Step(activity, old(Value()), Recover(i))
      ensures recreated <==> Recovers(activity, old(Value()), Recover(i))
    {
      if i >= |rows| || rows[i].status != Removed || rows[i].stay.end <= now {
        return false;
      }
      recreated := RecoverySlotAvailable(activity, Live(rows, now), rows[i].stay.(unit := rows[i].bookedUnit));
      if recreated {
        rows := rows[i := Restored(rows[i])];
      }
    }

    /** The backfill inside the transaction that changes the unit configuration. */
    method AssignUnitsToAll() returns (outcome: Outcome)
      requires Valid()
      modifies this
      ensures Valid() && Value() == Step(activity, old(Value()), AssignUnits)
      ensures outcome == Backfilled(activity, old(rows), now).0
      ensures !outcome.Done? ==> rows == old(rows)
    {
      StepWellFormed(activity, Value(), AssignUnits);
      outcome, rows := AssignMissingUnits(activity, rows, now);
    }

    method Tick(minutes: nat)
      requires Valid()
      modifies this
      ensures Valid() && Value() == Step(activity, old(Value()), Wait(minutes))
    {
      now := now + minutes;
    }
  }
}
