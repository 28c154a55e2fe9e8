/**
 * Draining the email outbox: any number of drainers work on snapshots of the rows, and every write
 * is a compare-and-set on the row still being PENDING with the attempt count of the snapshot.
 */
module Outbox {
  import opened Common

  const MAX_ATTEMPTS := 5
  const MINUTE := 60000
  const HOUR := 3600000
  const BATCH_SIZE := 50

  datatype Status = Pending | Sent | Failed

  datatype Row = Row(status: Status, attempts: nat, nextAttemptAt: int)

  /** What a drainer picked up. */
  datatype Snapshot = Snapshot(id: nat, attempts: nat)

  /** How sending went: accepted, reported as failed (or malformed), or an exception. */
  datatype Dispatch = Accepted | SendFailed | UnknownType | Threw

  datatype Outcome = WasSent | WasRetried | GaveUp | Skipped

  predicate Untouched(rows: map<nat, Row>, s: Snapshot) {
    s.id in rows && rows[s.id].status == Pending && rows[s.id].attempts == s.attempts
  }

  function Pow4(n: nat): nat {
    if n == 0 then 1 else 4 * Pow4(n - 1)
  }

  /** Backoff before the next try; `jitter` is the random number in [0, 1). */
  function Delay(attempts: nat, jitter: real): int
    requires attempts >= 1
  {
    var base := Min(MINUTE * Pow4(attempts - 1), HOUR);
    var spread := if base as real * 0.2 < 30000.0 then base as real * 0.2 else 30000.0;
    base + (jitter * spread).Floor
  }

  /** The write a drainer makes after dispatching its snapshot, and how it counts it. */
  function Commit(rows: map<nat, Row>, s: Snapshot, d: Dispatch, now: int, jitter: real): (map<nat, Row>, Outcome) {
    if !Untouched(rows, s) then (rows, Skipped)
    else if d == Accepted then (rows[s.id := Row(Sent, s.attempts + 1, rows[s.id].nextAttemptAt)], WasSent)
    else if s.attempts + 1 >= MAX_ATTEMPTS then (rows[s.id := Row(Failed, s.attempts + 1, rows[s.id].nextAttemptAt)], GaveUp)
    else (rows[s.id := Row(Pending, s.attempts + 1, now + Delay(s.attempts + 1, jitter))], WasRetried)
  }

  // ----- all drainers together -----

  /** One committed or skipped write by somebody, or a new row enqueued. */
  datatype Event =
    | Write(s: Snapshot, d: Dispatch, now: int, jitter: real)
    | Enqueue(id: nat, now: int)

  function Step(rows: map<nat, Row>, e: Event): map<nat, Row> {
    match e
    case Write(s, d, now, jitter) => Commit(rows, s, d, now, jitter).0
    case Enqueue(id, now) => if id in rows then rows else rows[id := Row(Pending, 0, now)]
  }

  function Run(rows: map<nat, Row>, es: seq<Event>): map<nat, Row> {
    if es == [] then rows else Step(Run(rows, es[..|es| - 1]), es[|es| - 1])
  }

  /** Does the event change row `id`? */
  predicate Changes(rows: map<nat, Row>, e: Event, id: nat) {
    id in rows && Step(rows, e)[id] != rows[id]
  }

  /** How often row `id` changed after it existed. */
  function ChangeCount(rows: map<nat, Row>, es: seq<Event>, id: nat): nat {
    if es == [] then 0
    else
      ChangeCount(rows, es[..|es| - 1], id)
      + if Changes(Run(rows, es[..|es| - 1]), es[|es| - 1], id) then 1 else 0
  }

  /** Open rows have tries left; closed ones used at least one and at most all of them. */
  predicate RowGood(r: Row) {
    if r.status == Pending then r.attempts < MAX_ATTEMPTS else 1 <= r.attempts <= MAX_ATTEMPTS
  }

  predicate Good(rows: map<nat, Row>) {
    forall id | id in rows :: RowGood(rows[id])
  }

  /** A write leaves other rows alone and raises its own row's attempts by exactly one. */
  lemma StepEffect(rows: map<nat, Row>, e: Event, id: nat)
    requires Good(rows) && id in rows
    ensures Good(Step(rows, e)) && id in Step(rows, e)
    ensures rows[id].status != Pending ==> Step(rows, e)[id] == rows[id]
    ensures Step(rows, e)[id].attempts == rows[id].attempts + if Changes(rows, e, id) then 1 else 0
  {
  }

  /**
   * Whatever the drainers do, a row's attempts grow by exactly one per change, so it changes at
   * most MAX_ATTEMPTS times in all, and once SENT or FAILED it never changes again.
   */
  lemma {:induction false} RowsChangeBoundedly(rows: map<nat, Row>, es: seq<Event>, id: nat)
    requires Good(rows) && id in rows
    ensures var end := Run(rows, es);
            && Good(end) && id in end
            && end[id].attempts == rows[id].attempts + ChangeCount(rows, es, id)
            && ChangeCount(rows, es, id) <= MAX_ATTEMPTS - rows[id].attempts
            && (rows[id].status != Pending ==> end[id] == rows[id] && ChangeCount(rows, es, id) == 0)
  {
    if es != [] {
      RowsChangeBoundedly(rows, es[..|es| - 1], id);
      StepEffect(Run(rows, es[..|es| - 1]), es[|es| - 1], id);
    }
  }

  /** No two drainers act on the same attempt: of two writes from one snapshot the second is skipped. */
  lemma SecondWriteSkipped(rows: map<nat, Row>, s: Snapshot, first: Event, es: seq<Event>, d: Dispatch, now: int, jitter: real)
    requires Good(rows) && first.Write? && first.s == s && Untouched(rows, s)
    ensures Commit(Run(Step(rows, first), es), s, d, now, jitter).1 == Skipped
  {
    var after := Step(rows, first);
    StepEffect(rows, first, s.id);
    RowsChangeBoundedly(after, es, s.id);
  }

  lemma Pow4Monotone(n: nat)
    ensures 1 <= Pow4(n)
  {
  }

  /** Every scheduled retry lies between one minute and one hour plus 30 seconds away. */
  lemma DelayBounded(attempts: nat, jitter: real)
    requires attempts >= 1 && 0.0 <= jitter < 1.0
    ensures MINUTE <= Delay(attempts, jitter) < HOUR + 30000
  {
    Pow4Monotone(attempts - 1);
    var base := Min(MINUTE * Pow4(attempts - 1), HOUR);
    var spread := if base as real * 0.2 < 30000.0 then base as real * 0.2 else 30000.0;
    assert 0.0 <= jitter * spread < spread;
  }

  /** The schedule itself: about 1, 4, 16 and 60 minutes after the four failures that are retried. */
  lemma DelaySchedule(jitter: real)
    requires 0.0 <= jitter < 1.0
    ensures MINUTE <= Delay(1, jitter) < MINUTE + 12000
    ensures 4 * MINUTE <= Delay(2, jitter) < 4 * MINUTE + 30000
    ensures 16 * MINUTE <= Delay(3, jitter) < 16 * MINUTE + 30000
    ensures HOUR <= Delay(4, jitter) < HOUR + 30000
  {
    assert Pow4(0) == 1 && Pow4(1) == 4 && Pow4(2) == 16 && Pow4(3) == 64;
  }

  /**
   * What one write comes to. A row that is not pending or has been tried since is left alone; an
   * accepted mail is SENT; after the fifth failure the row is FAILED; before that it waits about 1, 4,
   * 16 and 60 minutes, plus the jitter's share of a fifth of that, of half a minute at most.
   */
  lemma WriteOutcome(rows: map<nat, Row>, s: Snapshot, d: Dispatch, now: int, jitter: real, wait: int)
    requires s.attempts < 4 ==>
               var minutes := if s.attempts == 0 then 1 else if s.attempts == 1 then 4 else if s.attempts == 2 then 16 else 60;
               wait == minutes * 60000 + (jitter * (if s.attempts == 0 then 12000.0 else 30000.0)).Floor
    ensures var (rows', outcome) := Commit(rows, s, d, now, jitter);
            if s.id !in rows || rows[s.id].status != Pending || rows[s.id].attempts != s.attempts
            then rows' == rows && outcome == Skipped
            else if d == Accepted
            then rows' == rows[s.id := Row(Sent, s.attempts + 1, rows[s.id].nextAttemptAt)] && outcome == WasSent
            else if s.attempts >= 4
            then rows' == rows[s.id := Row(Failed, s.attempts + 1, rows[s.id].nextAttemptAt)] && outcome == GaveUp
            else rows' == rows[s.id := Row(Pending, s.attempts + 1, now + wait)] && outcome == WasRetried
  {
    assert Pow4(0) == 1 && Pow4(1) == 4 && Pow4(2) == 16 && Pow4(3) == 64;
  }

  /** A mail enqueued is due at once and has not been tried; an id is used once. */
  lemma EnqueueOutcome(rows: map<nat, Row>, id: nat, now: int)
    ensures Step(rows, Enqueue(id, now)) == if id in rows then rows else rows[id := Row(Pending, 0, now)]
  {
  }

  // ----- one tick -----

  /** What happens while one row is being sent: other writers' events, then this dispatch's result. */
  datatype Sending = Sending(meanwhile: seq<Event>, result: Dispatch, now: int, jitter: real)

  /** The write a dispatch leads to. */
  function OwnEvent(s: Snapshot, x: Sending): Event {
    Write(s, x.result, x.now, x.jitter)
  }

  /** The tick's own events: for each row picked, the write its dispatch led to. */
  ghost predicate Owns(due: seq<Snapshot>, sendings: seq<Sending>, events: seq<Event>, marks: seq<int>) {
    |marks| == |due| == |sendings|
    && forall k | 0 <= k < |marks| ::
         0 <= marks[k] < |events|
         && events[marks[k]] == OwnEvent(due[k], sendings[k])
         && forall j | 0 <= j < k :: marks[j] < marks[k]
  }

  /** What the event at position m of the run came to. */
  function OutcomeAt(rows: map<nat, Row>, events: seq<Event>, m: int): Outcome {
    if 0 <= m < |events| && events[m].Write?
    then Commit(Run(rows, events[..m]), events[m].s, events[m].d, events[m].now, events[m].jitter).1 else Skipped
  }

  function CameTo(rows: map<nat, Row>, events: seq<Event>, o: Outcome): int -> int {
    (m: int) => if OutcomeAt(rows, events, m) == o then 1 else 0
  }

  /** How many of the marked events came to `o`. */
  function Tally(rows: map<nat, Row>, events: seq<Event>, marks: seq<int>, o: Outcome): int {
    Sum(marks, CameTo(rows, events, o))
  }

  ghost predicate Counted(rows: map<nat, Row>, events: seq<Event>, marks: seq<int>, sent: int, retried: int, gaveUp: int, skipped: int) {
    && sent == Tally(rows, events, marks, WasSent)
    && retried == Tally(rows, events, marks, WasRetried)
    && gaveUp == Tally(rows, events, marks, GaveUp)
    && skipped == Tally(rows, events, marks, Skipped)
  }

  lemma MarkOwn(due: seq<Snapshot>, sendings: seq<Sending>, i: nat, earlier: seq<Event>, events: seq<Event>, e: Event, marks: seq<int>)
    requires i < |due| == |sendings| && Owns(due[..i], sendings[..i], earlier, marks) && earlier <= events
    requires e == OwnEvent(due[i], sendings[i])
    ensures Owns(due[..i + 1], sendings[..i + 1], events + [e], marks + [|events|])
    ensures forall m | m in marks :: 0 <= m < |earlier|
  {
  }

  /** Later events do not change what earlier ones came to; a new own event adds one to its outcome. */
  lemma OneMore(rows: map<nat, Row>, earlier: seq<Event>, events: seq<Event>, e: Event, marks: seq<int>)
    requires earlier <= events && forall m | m in marks :: 0 <= m < |earlier|
    requires e.Write?
    ensures var o := Commit(Run(rows, events), e.s, e.d, e.now, e.jitter).1;
            forall p :: Tally(rows, events + [e], marks + [|events|], p) == Tally(rows, earlier, marks, p) + if p == o then 1 else 0
  {
    var all, o := events + [e], Commit(Run(rows, events), e.s, e.d, e.now, e.jitter).1;
    assert all[..|events|] == events;
    forall p ensures Tally(rows, all, marks + [|events|], p) == Tally(rows, earlier, marks, p) + if p == o then 1 else 0 {
      forall m | m in marks ensures CameTo(rows, all, p)(m) == CameTo(rows, earlier, p)(m) {
        assert all[..m] == earlier[..m] && all[m] == earlier[m];
      }
      SumSame(marks, CameTo(rows, all, p), CameTo(rows, earlier, p));
      SumAppend(marks, |events|, CameTo(rows, all, p));
    }
  }

  /** A counter of outcome p after an outcome o. */
  function Raised(n: int, o: Outcome, p: Outcome): int {
    if o == p then n + 1 else n
  }

  /** The tick's own write for row i extends its marks by one and raises the counter of its outcome. */
  lemma OwnWrite(start: map<nat, Row>, rows: map<nat, Row>, due: seq<Snapshot>, sendings: seq<Sending>, i: nat,
                 earlier: seq<Event>, events: seq<Event>, marks: seq<int>, sent: int, retried: int, gaveUp: int, skipped: int)
    requires i < |due| == |sendings| && earlier <= events
    requires Owns(due[..i], sendings[..i], earlier, marks) && Counted(start, earlier, marks, sent, retried, gaveUp, skipped)
    requires rows == Run(start, events) && Good(rows)
    ensures var (x, all, own) := (sendings[i], events + [OwnEvent(due[i], sendings[i])], marks + [|events|]);
            var (after, o) := Commit(rows, due[i], x.result, x.now, x.jitter);
            && after == Run(start, all) && Good(after)
            && Owns(due[..i + 1], sendings[..i + 1], all, own)
            && Counted(start, all, own,
                       Raised(sent, o, WasSent), Raised(retried, o, WasRetried),
                       Raised(gaveUp, o, GaveUp), Raised(skipped, o, Skipped))
  {
    var e := OwnEvent(due[i], sendings[i]);
    MarkOwn(due, sendings, i, earlier, events, e, marks);
    OneMore(start, earlier, events, e, marks);
    CommitGood(rows, e);
    assert (events + [e])[..|events|] == events;
  }

  class OutboxTable {
    var rows: map<nat, Row>

    constructor ()
      ensures rows == map[]
    {
      rows := map[];
    }

    /** After a failed send: schedule the next try or give up, unless the row has moved on. */
    method ScheduleRetryOrGiveUp(s: Snapshot, d: Dispatch, now: int, jitter: real) returns (outcome: Outcome)
      requires d != Accepted
      modifies this
      ensures (rows, outcome) == Commit(old(rows), s, d, now, jitter)
    {
      var attempts := s.attempts + 1;
      if !Untouched(rows, s) {
        return Skipped;
      }
      var row := rows[s.id];
      if attempts >= MAX_ATTEMPTS {
        rows := rows[s.id := row.(status := Failed, attempts := attempts)];
        return GaveUp;
      }
      rows := rows[s.id := row.(attempts := attempts, nextAttemptAt := now + Delay(attempts, jitter))];
      return WasRetried;
    }

    /** The write after one dispatch: SENT, or the retry bookkeeping. */
    method SendOne(s: Snapshot, x: Sending) returns (outcome: Outcome)
      modifies this
      ensures (rows, outcome) == Commit(old(rows), s, x.result, x.now, x.jitter)
    {
      if x.result == Accepted {
        if !Untouched(rows, s) {
          return Skipped;
        }
        rows := rows[s.id := rows[s.id].(status := Sent, attempts := s.attempts + 1)];
        return WasSent;
      }
      outcome := ScheduleRetryOrGiveUp(s, x.result, x.now, x.jitter);
    }

    /**
     * One tick over the rows picked up, with other drainers writing in between. `marks` says which
     * of the events are this tick's own: one per row picked, in order, and the four counters count
     * what those writes came to.
     */
    method Drain(due: seq<Snapshot>, sendings: seq<Sending>)
      returns (sent: int, retried: int, gaveUp: int, skipped: int, ghost events: seq<Event>, ghost marks: seq<int>)
      requires |sendings| == |due| <= BATCH_SIZE && Good(rows)
      modifies this
      ensures rows == Run(old(rows), events) && Good(rows)
      ensures Owns(due, sendings, events, marks)
      ensures Counted(old(rows), events, marks, sent, retried, gaveUp, skipped)
      ensures sent + retried + gaveUp + skipped == |due|
    {
      sent, retried, gaveUp, skipped := 0, 0, 0, 0;
      events, marks := [], [];
      ghost var start := rows;
      for i := 0 to |due|
        invariant sent + retried + gaveUp + skipped == i
        invariant rows == Run(start, events) && Good(rows)
        invariant Owns(due[..i], sendings[..i], events, marks)
        invariant Counted(start, events, marks, sent, retried, gaveUp, skipped)
      {
        var s, x := due[i], sendings[i];
        ghost var earlier := events;
        events := Others(x.meanwhile, events, start);
        OwnWrite(start, rows, due, sendings, i, earlier, events, marks, sent, retried, gaveUp, skipped);
        var outcome := SendOne(s, x);
        match outcome {
          case WasSent => sent := sent + 1;
          case WasRetried => retried := retried + 1;
          case GaveUp => gaveUp := gaveUp + 1;
          case Skipped => skipped := skipped + 1;
        }
        marks := marks + [|events|];
        events := events + [OwnEvent(s, x)];
      }
      assert due[..|due|] == due && sendings[..|sendings|] == sendings;
    }

    /** Other drainers' writes and new rows arriving. */
    method Others(es: seq<Event>, ghost before: seq<Event>, ghost start: map<nat, Row>) returns (ghost events: seq<Event>)
      requires rows == Run(start, before) && Good(rows)
      modifies this
      ensures events == before + es && rows == Run(start, events) && Good(rows)
    {
      events := before;
      for i := 0 to |es|
        invariant events == before + es[..i] && rows == Run(start, events) && Good(rows)
      {
        CommitGood(rows, es[i]);
        rows := Step(rows, es[i]);
        assert (events + [es[i]])[..|events|] == events;
        events := events + [es[i]];
      }
      assert es[..|es|] == es;
    }
  }

  lemma CommitGood(rows: map<nat, Row>, e: Event)
    requires Good(rows)
    ensures Good(Step(rows, e))
  {
  }
}
