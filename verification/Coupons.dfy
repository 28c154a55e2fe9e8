/**
 * A coupon with a usage limit, over every interleaving of bookings that use it, cancellations that
 * read the coupon and later give the use back, the nightly expiry and the passing of time.
 */
module Coupons {
  import opened Common

  datatype CouponStatus = Approved | Expired

  datatype Coupon = Coupon(status: CouponStatus, usageLimit: nat, usedCount: int, validFrom: int, validTo: int)

  /**
   * A cancel under way. The guarded ones compare-and-set the booking or its payment, the customer's
   * hard delete does not; both read the coupon before they give the use back.
   */
  datatype Ticket = Ticket(id: nat, guarded: bool, read: Option<Coupon>)

  /**
   * The coupon, the live bookings that carry its code, all booking rows with the code (a cancelled
   * booking keeps its row), the cancels under way, the clock and the next booking id.
   */
  datatype Desk = Desk(coupon: Coupon, carriers: set<nat>, rows: set<nat>, open: seq<Ticket>, now: int, next: nat)

  /** A booking is serializable and so one step; a cancel is not, and takes three. */
  datatype Action =
    | Book
    | Begin(id: nat, guarded: bool)
    | ReadCoupon(k: nat)
    | Commit(k: nat)
    | Wait(time: nat)
    | Nightly

  /** The checks and the conditional increment of createBooking; the cap closes the coupon. */
  function Use(c: Coupon, now: int): Option<Coupon> {
    if c.status != Approved || now < c.validFrom || now > c.validTo || c.usedCount >= c.usageLimit then None
    else Some(c.(usedCount := c.usedCount + 1, status := if c.usedCount + 1 >= c.usageLimit then Expired else Approved))
  }

  /** The coupon read was closed by its cap, and it is still valid. */
  predicate ClosedByCap(read: Coupon, now: int) {
    read.status == Expired && read.usedCount >= read.usageLimit && read.validTo > now
  }

  /** Giving one use back; a coupon that was read as closed by its cap is reopened. */
  function GiveBack(read: Coupon, c: Coupon, now: int): Coupon {
    if c.usedCount <= 0 then c
    else c.(usedCount := c.usedCount - 1, status := if ClosedByCap(read, now) then Approved else c.status)
  }

  /** The cancel finds what it needs: a guarded one a live booking, a hard delete the row. */
  predicate Finds(d: Desk, t: Ticket) {
    t.read.Some? && (if t.guarded then t.id in d.carriers else t.id in d.rows)
  }

  function End(d: Desk, t: Ticket): Desk {
    if Finds(d, t)
    then d.(coupon := GiveBack(t.read.value, d.coupon, d.now), carriers := d.carriers - {t.id},
            rows := if t.guarded then d.rows else d.rows - {t.id})
    else d
  }

  function Step(d: Desk, act: Action): Desk {
    match act
    case Book =>
      var c := Use(d.coupon, d.now);
      if c.Some? then d.(coupon := c.value, carriers := d.carriers + {d.next}, rows := d.rows + {d.next}, next := d.next + 1) else d
    case Begin(id, guarded) => if id in d.carriers then d.(open := d.open + [Ticket(id, guarded, None)]) else d
    case ReadCoupon(k) =>
      if k < |d.open| && d.open[k].read.None? then d.(open := d.open[k := d.open[k].(read := Some(d.coupon))]) else d
    case Commit(k) =>
      if k < |d.open| then End(d, d.open[k]).(open := d.open[..k] + d.open[k + 1..]) else d
    case Wait(time) => d.(now := d.now + time)
    case Nightly => if d.coupon.validTo < d.now then d.(coupon := d.coupon.(status := Expired)) else d
  }

  function Run(d: Desk, acts: seq<Action>): Desk {
    if acts == [] then d else Step(Run(d, acts[..|acts| - 1]), acts[|acts| - 1])
  }

  // ----- what a step does -----

  /** A booking takes a use, and closes the coupon with the last one, only while it is APPROVED, in time and has one left. */
  lemma BookingOutcome(d: Desk)
    ensures var c, e := d.coupon, Step(d, Book);
            if c.status == Approved && c.validFrom <= d.now <= c.validTo && c.usedCount < c.usageLimit
            then e == d.(coupon := c.(usedCount := c.usedCount + 1, status := if c.usedCount + 1 == c.usageLimit then Expired else Approved),
                         carriers := d.carriers + {d.next}, rows := d.rows + {d.next}, next := d.next + 1)
            else e == d
  {
  }

  /**
   * A cancel that commits: a guarded one needs its booking live, a hard delete only its row. It takes a
   * use back if there is one, and reopens the coupon if it was read EXPIRED at its limit before its end.
   */
  lemma CommitOutcome(d: Desk, k: nat)
    requires k < |d.open| && d.open[k].read.Some?
    ensures var t, c, e := d.open[k], d.coupon, Step(d, Commit(k));
            var r := t.read.value;
            && e.open == d.open[..k] + d.open[k + 1..] && e.now == d.now && e.next == d.next
            && (if (t.guarded && t.id in d.carriers) || (!t.guarded && t.id in d.rows)
                then e.carriers == d.carriers - {t.id} && e.rows == (if t.guarded then d.rows else d.rows - {t.id})
                     && e.coupon == (if c.usedCount <= 0 then c
                                     else if r.status == Expired && r.usedCount >= r.usageLimit && r.validTo > d.now
                                     then c.(usedCount := c.usedCount - 1, status := Approved)
                                     else c.(usedCount := c.usedCount - 1))
                else e.carriers == d.carriers && e.rows == d.rows && e.coupon == c)
  {
  }

  /** A cancel begins only on a live booking, reads the coupon as it is, and commits nothing before that; the night closes what has ended. */
  lemma OtherOutcomes(d: Desk, id: nat, guarded: bool, k: nat)
    ensures Step(d, Begin(id, guarded)) == if id in d.carriers then d.(open := d.open + [Ticket(id, guarded, None)]) else d
    ensures k < |d.open| && d.open[k].read.None? ==>
              Step(d, ReadCoupon(k)) == d.(open := d.open[k := d.open[k].(read := Some(d.coupon))])
              && Step(d, Commit(k)) == d.(open := d.open[..k] + d.open[k + 1..])
    ensures Step(d, Nightly) == if d.now > d.coupon.validTo then d.(coupon := d.coupon.(status := Expired)) else d
  {
  }

  // ----- the count and the status -----

  /** Limit and end of a coupon never change. */
  predicate SameTerms(c: Coupon, d: Coupon) {
    c.usageLimit == d.usageLimit && c.validTo == d.validTo
  }

  /** Used as often as it is carried, and never beyond the limit. */
  ghost predicate CountSound(d: Desk) {
    && d.coupon.usageLimit > 0
    && d.coupon.usedCount == |d.carriers| <= d.coupon.usageLimit
    && d.carriers <= d.rows && (forall id | id in d.rows :: id < d.next)
    && (forall t | t in d.open && t.read.Some? :: SameTerms(t.read.value, d.coupon))
  }

  /** Closed at the cap, and before its end only there. */
  predicate StatusSound(c: Coupon, now: int) {
    && (c.usedCount == c.usageLimit ==> c.status == Expired)
    && (c.status == Expired ==> c.usedCount == c.usageLimit || c.validTo <= now)
  }

  ghost predicate Sound(d: Desk) {
    CountSound(d) && StatusSound(d.coupon, d.now)
  }

  /** Only a booking that carries the code gives a use back: always so but for a stale hard delete. */
  predicate Counts(d: Desk, t: Ticket) {
    Finds(d, t) ==> t.id in d.carriers || d.coupon.usedCount == 0
  }

  /** A coupon its cap has closed by now was closed by its cap when it was read. */
  predicate ReadFits(d: Desk, t: Ticket) {
    Finds(d, t) && d.coupon.usedCount > 0 && ClosedByCap(d.coupon, d.now) ==> ClosedByCap(t.read.value, d.now)
  }

  /** The count stays true exactly when the row is gone, still carries the code, or no use is left. */
  lemma EndKeepsCountExactly(d: Desk, t: Ticket)
    requires CountSound(d) && t in d.open
    ensures CountSound(End(d, t)) <==> Counts(d, t)
    ensures SameTerms(End(d, t).coupon, d.coupon)
  {
    if t.id in d.carriers {
      assert |d.carriers - {t.id}| == |d.carriers| - 1;
    } else {
      assert d.carriers - {t.id} == d.carriers;
    }
  }

  /** And the status stays right exactly when the coupon was not booked out between read and decrement. */
  lemma EndKeepsStatusExactly(d: Desk, t: Ticket)
    requires Sound(d) && t in d.open
    ensures StatusSound(End(d, t).coupon, d.now) <==> ReadFits(d, t)
  {
  }

  predicate CommitCounts(d: Desk, act: Action) {
    act.Commit? && act.k < |d.open| ==> Counts(d, d.open[act.k])
  }

  predicate CommitReads(d: Desk, act: Action) {
    act.Commit? && act.k < |d.open| ==> ReadFits(d, d.open[act.k])
  }

  lemma StepKeepsCountExactly(d: Desk, act: Action)
    requires CountSound(d)
    ensures CountSound(Step(d, act)) <==> CommitCounts(d, act)
    ensures SameTerms(Step(d, act).coupon, d.coupon)
  {
    if act.Book? {
      assert d.next !in d.carriers;
      assert |d.carriers + {d.next}| == |d.carriers| + 1;
    } else if act.Commit? && act.k < |d.open| {
      var t := d.open[act.k];
      EndKeepsCountExactly(d, t);
      assert t in d.open && forall u | u in d.open[..act.k] + d.open[act.k + 1..] :: u in d.open;
    }
  }

  lemma StepKeepsSoundExactly(d: Desk, act: Action)
    requires Sound(d)
    ensures Sound(Step(d, act)) <==> CommitCounts(d, act) && CommitReads(d, act)
  {
    StepKeepsCountExactly(d, act);
    if act.Commit? && act.k < |d.open| {
      EndKeepsStatusExactly(d, d.open[act.k]);
    }
  }

  // ----- runs -----

  predicate CommitsCount(d: Desk, acts: seq<Action>) {
    acts == []
    || (CommitsCount(d, acts[..|acts| - 1]) && CommitCounts(Run(d, acts[..|acts| - 1]), acts[|acts| - 1]))
  }

  predicate CommitsRead(d: Desk, acts: seq<Action>) {
    acts == []
    || (CommitsRead(d, acts[..|acts| - 1]) && CommitReads(Run(d, acts[..|acts| - 1]), acts[|acts| - 1]))
  }

  ghost predicate CountSoundThroughout(d: Desk, acts: seq<Action>) {
    CountSound(Run(d, acts)) && (acts == [] || CountSoundThroughout(d, acts[..|acts| - 1]))
  }

  ghost predicate SoundThroughout(d: Desk, acts: seq<Action>) {
    Sound(Run(d, acts)) && (acts == [] || SoundThroughout(d, acts[..|acts| - 1]))
  }

  /** Over every interleaving the count is right all along exactly when every hard delete counts. */
  lemma {:induction false} RunCountsExactly(d: Desk, acts: seq<Action>)
    requires CountSound(d)
    ensures CountSoundThroughout(d, acts) <==> CommitsCount(d, acts)
    ensures SameTerms(Run(d, acts).coupon, d.coupon) || !CommitsCount(d, acts)
  {
    if acts != [] {
      RunCountsExactly(d, acts[..|acts| - 1]);
      var m := Run(d, acts[..|acts| - 1]);
      if CountSound(m) {
        StepKeepsCountExactly(m, acts[|acts| - 1]);
      }
    }
  }

  /** Count and status are right all along exactly when, besides, every cancel's read still fits. */
  lemma {:induction false} RunSoundExactly(d: Desk, acts: seq<Action>)
    requires Sound(d)
    ensures SoundThroughout(d, acts) <==> CommitsCount(d, acts) && CommitsRead(d, acts)
  {
    if acts != [] {
      RunSoundExactly(d, acts[..|acts| - 1]);
      var m := Run(d, acts[..|acts| - 1]);
      if Sound(m) {
        StepKeepsSoundExactly(m, acts[|acts| - 1]);
      }
    }
  }

  /**
   * So over every interleaving whose hard deletes count, the usage counter is the number of live
   * bookings with the code and stays within the limit; and if the reads fit as well, a coupon still
   * valid is EXPIRED exactly at its cap.
   */
  lemma CouponNeverOverused(d: Desk, acts: seq<Action>)
    requires Sound(d) && CommitsCount(d, acts)
    ensures var e := Run(d, acts);
            && e.coupon.usedCount == |e.carriers| <= d.coupon.usageLimit
            && (CommitsRead(d, acts) && e.now < d.coupon.validTo ==>
                  (e.coupon.status == Expired <==> e.coupon.usedCount == d.coupon.usageLimit))
  {
    RunCountsExactly(d, acts);
    RunSoundExactly(d, acts);
  }

  // ----- cancels without interruption -----

  /** A cancel that nothing interrupts. */
  function AtOnce(d: Desk, id: nat, guarded: bool): Desk {
    Step(Step(Step(d, Begin(id, guarded)), ReadCoupon(|d.open|)), Commit(|d.open|))
  }

  lemma AtOnceEnds(d: Desk, id: nat, guarded: bool)
    requires id in d.carriers && d.carriers <= d.rows
    ensures AtOnce(d, id, guarded) == End(d, Ticket(id, guarded, Some(d.coupon)))
  {
    var m := Step(Step(d, Begin(id, guarded)), ReadCoupon(|d.open|));
    assert m == d.(open := d.open + [Ticket(id, guarded, Some(d.coupon))]);
    assert m.open[..|d.open|] + m.open[|d.open| + 1..] == d.open;
  }

  /** It keeps count and status right, hard delete or not: only bookings with the code are read. */
  lemma UninterruptedCancelKeepsSound(d: Desk, id: nat, guarded: bool)
    requires Sound(d)
    ensures Sound(AtOnce(d, id, guarded))
  {
    var a := Step(d, Begin(id, guarded));
    var b := Step(a, ReadCoupon(|d.open|));
    StepKeepsSoundExactly(d, Begin(id, guarded));
    StepKeepsSoundExactly(a, ReadCoupon(|d.open|));
    StepKeepsSoundExactly(b, Commit(|d.open|));
  }

  /**
   * Booking and cancelling again undoes the count always, and the status exactly when the booking
   * did not hit the cap or the coupon is still valid at the cancellation.
   */
  lemma BookThenCancel(d: Desk, time: nat)
    requires Sound(d) && Use(d.coupon, d.now).Some?
    ensures var e := AtOnce(Step(Step(d, Book), Wait(time)), d.next, true);
            && e.carriers == d.carriers && e.open == d.open && e.coupon.usedCount == d.coupon.usedCount
            && (e.coupon == d.coupon <==>
                  d.coupon.usedCount + 1 < d.coupon.usageLimit || d.now + time < d.coupon.validTo)
  {
    var m := Step(Step(d, Book), Wait(time));
    AtOnceEnds(m, d.next, true);
    assert d.next !in d.carriers;
    assert d.carriers + {d.next} - {d.next} == d.carriers;
  }

  /** A coupon nobody has used yet. */
  function Unused(limit: nat, validFrom: int, validTo: int, now: int): Desk {
    Desk(Coupon(Approved, limit, 0, validFrom, validTo), {}, {}, [], now, 0)
  }

  /** So an EXPIRED coupon need not be at its cap: cancel the only use after the coupon's last day. */
  lemma ExpiredBelowCap()
    ensures var d := Unused(1, 0, 10, 5);
            var e := AtOnce(Step(Step(d, Book), Wait(10)), 0, true);
            Sound(d) && e.coupon.status == Expired && e.coupon.usedCount == 0
  {
    AtOnceEnds(Step(Step(Unused(1, 0, 10, 5), Book), Wait(10)), 0, true);
  }

  // ----- what stale cancels do -----

  function Bookings(n: nat): seq<Action> {
    if n == 0 then [] else Bookings(n - 1) + [Book]
  }

  lemma RunSnoc(d: Desk, acts: seq<Action>, act: Action)
    ensures Run(d, acts + [act]) == Step(Run(d, acts), act)
  {
    assert (acts + [act])[..|acts|] == acts;
  }

  lemma {:induction false} RunConcat(d: Desk, a: seq<Action>, b: seq<Action>)
    ensures Run(d, a + b) == Run(Run(d, a), b)
  {
    if b == [] {
      assert a + b == a;
    } else {
      assert (a + b)[..|a + b| - 1] == a + b[..|b| - 1];
      RunConcat(d, a, b[..|b| - 1]);
    }
  }

  /** The coupon is open and `n` uses are left. */
  ghost predicate HasLeft(d: Desk, n: nat) {
    && Sound(d) && d.coupon.status == Approved && d.coupon.validFrom <= d.now <= d.coupon.validTo
    && d.coupon.usedCount + n <= d.coupon.usageLimit
  }

  /** After `n` bookings: the ids from `d.next` on carry the code, at the cap the coupon is closed. */
  ghost predicate BookedOn(d: Desk, e: Desk, n: nat) {
    && Sound(e) && e.open == d.open && e.now == d.now && e.next == d.next + n
    && d.carriers <= e.carriers && d.rows <= e.rows
    && (forall id | d.next <= id < e.next :: id in e.carriers)
    && (forall id | id in e.carriers :: id in d.carriers || d.next <= id)
    && e.coupon == d.coupon.(usedCount := d.coupon.usedCount + n,
         status := if n > 0 && d.coupon.usedCount + n == d.coupon.usageLimit then Expired else Approved)
  }

  lemma BookOne(d: Desk, m: Desk, n: nat)
    requires HasLeft(d, n + 1) && BookedOn(d, m, n)
    ensures BookedOn(d, Step(m, Book), n + 1)
  {
    StepKeepsSoundExactly(m, Book);
  }

  /** While the coupon has uses left, each booking takes one. */
  lemma {:induction false} BookMany(d: Desk, n: nat)
    requires HasLeft(d, n)
    ensures BookedOn(d, Run(d, Bookings(n)), n)
  {
    if n > 0 {
      BookMany(d, n - 1);
      RunSnoc(d, Bookings(n - 1), Book);
      BookOne(d, Run(d, Bookings(n - 1)), n - 1);
    }
  }

  /** One customer reads a booking to drop it, and an admin cancels it at once. */
  function ReadThenCancelled(): seq<Action> {
    [Book] + [Begin(0, false)] + [Begin(0, true)] + [ReadCoupon(1)] + [Commit(1)]
  }

  lemma ReadThenCancelledRun(limit: nat, validFrom: int, validTo: int, now: int)
    requires limit > 0 && validFrom <= now < validTo
    ensures Run(Unused(limit, validFrom, validTo, now), ReadThenCancelled())
         == Unused(limit, validFrom, validTo, now).(rows := {0}, open := [Ticket(0, false, None)], next := 1)
  {
    var d := Unused(limit, validFrom, validTo, now);
    var first := [Book] + [Begin(0, false)];
    RunSnoc(d, [], Book);
    assert [] + [Book] == [Book];
    RunSnoc(d, [Book], Begin(0, false));
    RunSnoc(d, first, Begin(0, true));
    RunSnoc(d, first + [Begin(0, true)], ReadCoupon(1));
    RunSnoc(d, first + [Begin(0, true)] + [ReadCoupon(1)], Commit(1));
    AtOnceEnds(Run(d, first), 0, true);
  }

  /** At the cap, the stale drop of a booking cancelled before lets one more in. */
  lemma OneTooMany(d: Desk)
    requires Sound(d) && d.open == [Ticket(0, false, None)] && 0 in d.rows && 0 !in d.carriers
    requires d.coupon.usedCount == d.coupon.usageLimit && d.coupon.validFrom <= d.now < d.coupon.validTo
    ensures |Step(Step(Step(d, ReadCoupon(0)), Commit(0)), Book).carriers| == d.coupon.usageLimit + 1
  {
    assert d.carriers - {0} == d.carriers;
    assert d.next !in d.carriers;
    assert |d.carriers + {d.next}| == d.coupon.usageLimit + 1;
  }

  /**
   * Whatever the limit: a booking is read to be dropped and then cancelled by an admin, the coupon
   * is booked out, the drop gives the use back a second time, and one more booking goes through.
   */
  lemma StaleDeleteOversells(limit: nat, validFrom: int, validTo: int, now: int)
    requires limit > 0 && validFrom <= now < validTo
    ensures var d := Unused(limit, validFrom, validTo, now);
            var e := Run(d, ReadThenCancelled() + Bookings(limit) + [ReadCoupon(0)] + [Commit(0)] + [Book]);
            Sound(d) && |e.carriers| == limit + 1
  {
    var d := Unused(limit, validFrom, validTo, now);
    ReadThenCancelledRun(limit, validFrom, validTo, now);
    var m := Run(d, ReadThenCancelled());
    BookMany(m, limit);
    var all := ReadThenCancelled() + Bookings(limit);
    RunConcat(d, ReadThenCancelled(), Bookings(limit));
    RunSnoc(d, all, ReadCoupon(0));
    RunSnoc(d, all + [ReadCoupon(0)], Commit(0));
    RunSnoc(d, all + [ReadCoupon(0)] + [Commit(0)], Book);
    OneTooMany(Run(d, all));
  }

  /** At the cap, a cancel that read the coupon open leaves it closed. */
  lemma ClosedForGood(d: Desk, read: Coupon)
    requires Sound(d) && d.open == [Ticket(0, true, Some(read))] && read.status == Approved && 0 in d.carriers
    requires d.coupon.usedCount == d.coupon.usageLimit
    ensures var e := Step(d, Commit(0));
            && CountSound(e) && e.now == d.now
            && e.coupon == d.coupon.(usedCount := d.coupon.usageLimit - 1, status := Expired)
  {
    StepKeepsCountExactly(d, Commit(0));
  }

  /** With one use left, a cancel that reads the coupon before that use is booked closes it. */
  lemma ReadThenClosed(m: Desk)
    requires Sound(m) && m.open == [] && 0 in m.carriers && m.coupon.status == Approved
    requires m.coupon.validFrom <= m.now < m.coupon.validTo && m.coupon.usedCount + 1 == m.coupon.usageLimit
    ensures var e := Step(Step(Step(Step(m, Begin(0, true)), ReadCoupon(0)), Book), Commit(0));
            && CountSound(e) && e.now == m.now && e.coupon == m.coupon.(status := Expired)
  {
    var a := Step(Step(m, Begin(0, true)), ReadCoupon(0));
    assert a == m.(open := [Ticket(0, true, Some(m.coupon))]);
    StepKeepsSoundExactly(a, Book);
    ClosedForGood(Step(a, Book), m.coupon);
  }

  /**
   * Whatever the limit above 1: a guarded cancel reads the coupon with one use left, a booking takes
   * that use and closes the coupon, the cancel gives its own use back and does not reopen it. A use
   * is left, the coupon is still valid, and nobody can take it.
   */
  lemma StaleReadClosesCoupon(limit: nat, validFrom: int, validTo: int, now: int)
    requires limit > 1 && validFrom <= now < validTo
    ensures var d := Unused(limit, validFrom, validTo, now);
            var e := Run(d, Bookings(limit - 1) + [Begin(0, true)] + [ReadCoupon(0)] + [Book] + [Commit(0)]);
            && Sound(d) && CountSound(e) && e.coupon.usedCount == limit - 1 && e.now < e.coupon.validTo
            && e.coupon.status == Expired && Use(e.coupon, e.now).None?
  {
    var d, n := Unused(limit, validFrom, validTo, now), limit - 1;
    BookMany(d, n);
    var m := Run(d, Bookings(n));
    RunSnoc(d, Bookings(n), Begin(0, true));
    RunSnoc(d, Bookings(n) + [Begin(0, true)], ReadCoupon(0));
    RunSnoc(d, Bookings(n) + [Begin(0, true)] + [ReadCoupon(0)], Book);
    RunSnoc(d, Bookings(n) + [Begin(0, true)] + [ReadCoupon(0)] + [Book], Commit(0));
    ReadThenClosed(m);
  }

  class CouponRow {
    var coupon: Coupon

    constructor (c: Coupon)
      ensures coupon == c
    {
      coupon := c;
    }

    /** Applying the code to a booking; false (and nothing written) when it is refused. */
    method Apply(now: int) returns (applied: bool)
      modifies this
      ensures applied <==> Use(old(coupon), now).Some?
      ensures coupon == if applied then Use(old(coupon), now).value else old(coupon)
    {
      if coupon.status != Approved || now < coupon.validFrom || now > coupon.validTo {
        return false;
      }
      var before := coupon.usedCount;
      if before >= coupon.usageLimit {
        return false;
      }
      coupon := coupon.(usedCount := coupon.usedCount + 1);
      if before + 1 >= coupon.usageLimit {
        coupon := coupon.(status := Expired);
      }
      return true;
    }

    /** Rolling one use back when a booking ends; `read` is the coupon as the call found it before. */
    method RefundCouponUsage(read: Coupon, now: int)
      modifies this
      ensures coupon == GiveBack(read, old(coupon), now)
    {
      var decremented := coupon.usedCount > 0;
      if decremented {
        coupon := coupon.(usedCount := coupon.usedCount - 1);
      }
      if decremented && read.status == Expired && read.usedCount >= read.usageLimit && read.validTo > now {
        coupon := coupon.(status := Approved);
      }
    }
  }
}
