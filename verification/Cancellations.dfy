/**
 * Ending a booking: customer cancel, admin cancel, cascade cancel and refund decisions, with the
 * loyalty ledger they write and gateway captures arriving from outside. Each transaction is one
 * atomic step. A customer or cascade cancel reads the booking before its transaction, so between
 * the two steps anything may happen.
 */
module Cancellations {
  import opened Common

  datatype BookingStatus = Pending | Confirmed | Completed | Cancelled

  datatype PaymentStatus = Unpaid | Success | Failed | RefundPending | Refunded | Rejected

  /**
   * A booking row with its payment row. Amounts are cents, points are hundredths. `rate` is the QAR
   * per point at which the refund was converted, kept here for the accounts only.
   */
  datatype Entry = Entry(
    customer: nat,
    status: BookingStatus,
    pay: PaymentStatus,
    amount: nat,
    inFlight: bool,              // the row carries a gateway basket id
    points: nat,                 // redeemed at creation
    refundAmount: Option<int>,
    rate: real)

  datatype Source = Granted | BookingRedeem | CancelRefundUnpaid | CancelRefundPaid | VendorRefundApproved | AdminRefundApproved

  /** One ledger row. `cash` is the money a refund row converts into points. */
  datatype LedgerRow = LedgerRow(booking: nat, customer: nat, source: Source, delta: int, cash: int)

  /**
   * `sessions` and `captured` are the gateway's own records, untouched by deleting our rows: the
   * amounts it may still take for a booking, and those it took.
   */
  datatype Books = Books(
    entries: map<nat, Entry>,
    ledger: seq<LedgerRow>,
    balance: map<nat, int>,
    sessions: map<nat, nat>,
    captured: map<nat, nat>,
    next: nat)

  function BalanceOf(b: Books, customer: nat): int {
    if customer in b.balance then b.balance[customer] else 0
  }

  // ----- sums over the ledger -----

  predicate ReturnsPoints(s: Source) {
    s == CancelRefundUnpaid || s == CancelRefundPaid
  }

  predicate CreditsRefund(s: Source) {
    s == VendorRefundApproved || s == AdminRefundApproved
  }

  function RedeemedW(id: nat): LedgerRow -> int {
    (r: LedgerRow) => if r.booking == id && r.source == BookingRedeem then 0 - r.delta else 0
  }

  function ReturnedW(id: nat): LedgerRow -> int {
    (r: LedgerRow) => if r.booking == id && ReturnsPoints(r.source) then r.delta else 0
  }

  function CreditsW(id: nat): LedgerRow -> int {
    (r: LedgerRow) => if r.booking == id && CreditsRefund(r.source) then 1 else 0
  }

  function CreditedCashW(id: nat): LedgerRow -> int {
    (r: LedgerRow) => if r.booking == id && CreditsRefund(r.source) then r.cash else 0
  }

  function CreditedPointsW(id: nat): LedgerRow -> int {
    (r: LedgerRow) => if r.booking == id && CreditsRefund(r.source) then r.delta else 0
  }

  function CustomerW(customer: nat): LedgerRow -> int {
    (r: LedgerRow) => if r.customer == customer then r.delta else 0
  }

  /** Points the booking took and gave back when it ended; refunds credited, their cash and their points. */
  function Redeemed(b: Books, id: nat): int { Sum(b.ledger, RedeemedW(id)) }
  function Returned(b: Books, id: nat): int { Sum(b.ledger, ReturnedW(id)) }
  function Credits(b: Books, id: nat): int { Sum(b.ledger, CreditsW(id)) }
  function CreditedCash(b: Books, id: nat): int { Sum(b.ledger, CreditedCashW(id)) }
  function CreditedPoints(b: Books, id: nat): int { Sum(b.ledger, CreditedPointsW(id)) }

  // ----- writing rows -----

  function Put(b: Books, id: nat, e: Entry): Books {
    b.(entries := b.entries[id := e])
  }

  /** A ledger row and the balance move together. */
  function Write(b: Books, r: LedgerRow): Books {
    b.(ledger := b.ledger + [r], balance := b.balance[r.customer := BalanceOf(b, r.customer) + r.delta])
  }

  function ReturnPoints(b: Books, id: nat, e: Entry, source: Source): Books {
    if e.points > 0 then Write(b, LedgerRow(id, e.customer, source, e.points, 0)) else b
  }

  /** Hundredths of a point for `amount` cents at `q` QAR per point. */
  function RefundPoints(amount: int, q: real): int {
    if amount > 0 && q > 0.0 then Round(amount as real / q) else 0
  }

  function CreditRefund(b: Books, id: nat, e: Entry, source: Source, amount: int, q: real): Books {
    var points := RefundPoints(amount, q);
    if points > 0 then Write(b, LedgerRow(id, e.customer, source, points, amount)) else b
  }

  // ----- creation and the outside world -----

  function NewEntry(customer: nat, points: nat, amount: nat): Entry {
    if amount == 0 then Entry(customer, Confirmed, Success, 0, false, points, None, 0.0)
    else Entry(customer, Pending, Unpaid, amount, false, points, None, 0.0)
  }

  /** createBooking: points are debited in the same transaction, or nothing happens. */
  function Create(b: Books, customer: nat, points: nat, amount: nat): Books {
    if BalanceOf(b, customer) < points then b
    else
      var b' := Put(b, b.next, NewEntry(customer, points, amount)).(next := b.next + 1);
      if points > 0 then Write(b', LedgerRow(b.next, customer, BookingRedeem, 0 - points, 0)) else b'
  }

  /** Going to the gateway: the row gets its basket id and the gateway a session that can take money. */
  function OpenCheckout(b: Books, id: nat): Books {
    if id in b.entries && b.entries[id].pay == Unpaid
    then Put(b, id, b.entries[id].(inFlight := true)).(sessions := b.sessions[id := b.entries[id].amount])
    else b
  }

  /**
   * The gateway takes the money of an open session, whatever became of our rows. A pending payment
   * is confirmed; one failed by a cancel meanwhile has its full refund queued; with the row gone
   * there is nothing to confirm.
   */
  function Capture(b: Books, id: nat): Books {
    if id !in b.sessions then b
    else if id !in b.entries then b.(captured := b.captured[id := b.sessions[id]], sessions := b.sessions - {id})
    else if b.entries[id].pay == Unpaid then
      Put(b, id, b.entries[id].(pay := Success, status := Confirmed))
        .(captured := b.captured[id := b.sessions[id]], sessions := b.sessions - {id})
    else if b.entries[id].pay == Failed then
      Put(b, id, b.entries[id].(pay := RefundPending, refundAmount := Some(b.entries[id].amount)))
        .(captured := b.captured[id := b.sessions[id]], sessions := b.sessions - {id})
    else b
  }

  function Complete(b: Books, id: nat): Books {
    if id in b.entries && b.entries[id].status == Confirmed then Put(b, id, b.entries[id].(status := Completed)) else b
  }

  /** Points arriving from elsewhere (earning, adjustments). */
  function Grant(b: Books, customer: nat, points: nat): Books {
    if points > 0 then Write(b, LedgerRow(b.next, customer, Granted, points, 0)) else b
  }

  // ----- customer cancel -----

  datatype Policy = FreeCancellation | PartialRefund | NonRefundable

  /** What the customer's terms say at the moment of the cancel. */
  datatype Terms = Terms(policy: Policy, hoursUntilStart: real, deadlineHours: real, partialPercent: real)

  /** The branch a customer cancel decides on from the row it read. */
  datatype Branch = PointsOnly | Paid(percent: real) | InFlight | Drop

  function RefundPercent(t: Terms): real {
    var partial := if t.partialPercent < 0.0 then 0.0 else if t.partialPercent > 100.0 then 100.0 else t.partialPercent;
    if t.policy == NonRefundable || t.hoursUntilStart < t.deadlineHours then 0.0
    else if t.policy == PartialRefund then partial else 100.0
  }

  function ChooseBranch(e: Entry, t: Terms): Option<Branch> {
    if e.status == Cancelled || e.status == Completed || t.hoursUntilStart < 0.0 then None
    else if e.pay == Success then Some(if e.amount == 0 then PointsOnly else Paid(RefundPercent(t)))
    else if e.pay == Unpaid && e.inFlight then Some(InFlight)
    else Some(Drop)
  }

  function SuggestedRefund(amount: nat, percent: real): Option<int> {
    var s := if percent > 0.0 then Round(amount as real * percent / 100.0) else 0;
    if s > 0 then Some(s) else None
  }

  /** The transaction of a customer cancel. A failed compare-and-set rolls everything back. */
  function CommitCancel(b: Books, id: nat, br: Branch): Books {
    if id !in b.entries then b
    else
      var e := b.entries[id];
      match br
      case PointsOnly =>
        if e.pay != Success then b
        else ReturnPoints(Put(b, id, e.(status := Cancelled, pay := Refunded, refundAmount := Some(0))), id, e, CancelRefundPaid)
      case Paid(percent) =>
        if e.pay != Success then b
        else ReturnPoints(Put(b, id, e.(status := Cancelled, pay := RefundPending, refundAmount := SuggestedRefund(e.amount, percent))),
                          id, e, CancelRefundPaid)
      case InFlight =>
        if e.pay != Unpaid then b
        else ReturnPoints(Put(b, id, e.(status := Cancelled, pay := Failed)), id, e, CancelRefundUnpaid)
      case Drop =>
        ReturnPoints(b.(entries := b.entries - {id}), id, e, CancelRefundUnpaid)
  }

  /** A customer cancel with nothing happening between its read and its transaction. */
  function CancelCall(b: Books, id: nat, t: Terms): Books {
    if id in b.entries && ChooseBranch(b.entries[id], t).Some?
    then CommitCancel(b, id, ChooseBranch(b.entries[id], t).value) else b
  }

  // ----- admin and cascade cancel, refund decisions -----

  function RefundInFull(b: Books, id: nat, e: Entry, q: real): Books {
    CreditRefund(Put(b, id, e.(status := Cancelled, pay := Refunded, refundAmount := Some(e.amount), rate := q)),
                 id, e, AdminRefundApproved, e.amount, q)
  }

  function AdminCancel(b: Books, id: nat, q: real): Books {
    if id !in b.entries || b.entries[id].status == Cancelled then b
    else
      var e := b.entries[id];
      var b' :=
        if e.pay == Success then RefundInFull(b, id, e, q)
        else Put(b, id, e.(status := Cancelled, pay := if e.pay == Unpaid then Failed else e.pay));
      ReturnPoints(b', id, e, CancelRefundPaid)
  }

  /** One booking of a cascade, acting on the payment status `read` seen before the transaction. */
  function CascadeCommit(b: Books, id: nat, read: PaymentStatus, q: real): Books {
    if id !in b.entries || !(b.entries[id].status == Pending || b.entries[id].status == Confirmed) then b
    else
      var e := b.entries[id];
      if read == Success then ReturnPoints(RefundInFull(b, id, e, q), id, e, CancelRefundPaid)
      else if read == Unpaid then
        if e.pay != Unpaid then b
        else ReturnPoints(Put(b, id, e.(status := Cancelled, pay := Failed)), id, e, CancelRefundPaid)
      else ReturnPoints(Put(b, id, e.(status := Cancelled)), id, e, CancelRefundPaid)
  }

  /** The cascade's second pass: a stranded refund request is approved in full. */
  function ResolvePending(b: Books, id: nat, q: real): Books {
    if id in b.entries && b.entries[id].pay == RefundPending then
      var e := b.entries[id];
      CreditRefund(Put(b, id, e.(pay := Refunded, refundAmount := Some(e.amount), rate := q)), id, e, AdminRefundApproved, e.amount, q)
    else b
  }

  /** A refund decision: `approve == None` rejects, otherwise approves that many cents. */
  function RefundDecision(b: Books, id: nat, approve: Option<real>, admin: bool, q: real): Books {
    if id !in b.entries || b.entries[id].status != Cancelled || b.entries[id].pay != RefundPending then b
    else
      var e := b.entries[id];
      match approve
      case None => Put(b, id, e.(pay := Rejected, refundAmount := None))
      case Some(amount) =>
        if amount < 0.0 || amount > e.amount as real then b
        else
          CreditRefund(Put(b, id, e.(pay := Refunded, refundAmount := Some(Round(amount)), rate := q)), id, e,
                       if admin then AdminRefundApproved else VendorRefundApproved, Round(amount), q)
  }

  // ----- what must hold -----

  predicate EntryConsistent(e: Entry) {
    && (e.pay == Unpaid ==> e.status == Pending) && (e.pay in {Unpaid, Failed} ==> e.amount > 0)
    && (e.pay == Success ==> e.status == Confirmed || e.status == Completed)
    && (e.pay in {Failed, RefundPending, Refunded, Rejected} ==> e.status == Cancelled)
    && (e.refundAmount.Some? ==> 0 <= e.refundAmount.value <= e.amount)
    && (e.pay == Refunded ==> e.refundAmount.Some?)
  }

  /** The points a refunded booking is owed for its refund. */
  function RefundDue(e: Entry): int {
    if e.pay == Refunded && e.refundAmount.Some? then RefundPoints(e.refundAmount.value, e.rate) else 0
  }

  /** The accounts of one booking, present or gone. */
  predicate Settled(b: Books, id: nat) {
    if id in b.entries then
      var e := b.entries[id];
      && EntryConsistent(e)
      && Redeemed(b, id) == e.points
      && Returned(b, id) == (if e.status == Cancelled then e.points else 0)
      && CreditedPoints(b, id) == RefundDue(e)
      && Credits(b, id) == (if RefundDue(e) > 0 then 1 else 0)
      && CreditedCash(b, id) == (if RefundDue(e) > 0 then e.refundAmount.value else 0)
      && (if e.pay in {Unpaid, Failed} || e.amount == 0 then id !in b.captured
          else id in b.captured && b.captured[id] == e.amount)
    else
      && Returned(b, id) == Redeemed(b, id) && Credits(b, id) == 0 && CreditedCash(b, id) == 0
      && CreditedPoints(b, id) == 0 && id !in b.captured
  }

  predicate SessionKnown(b: Books, id: nat)
    requires id in b.sessions
  {
    id in b.entries && b.entries[id].inFlight && b.sessions[id] == b.entries[id].amount
  }

  /**
   * The books are right: every booking settled, no gateway session open without a row that knows
   * it, every balance the sum of its ledger rows and not negative, ids fresh from `next` on.
   */
  ghost predicate Right(b: Books) {
    && (forall id :: Settled(b, id))
    && (forall id | id in b.entries :: id < b.next)
    && (forall id | id in b.sessions :: SessionKnown(b, id))
    && (forall u :: BalanceOf(b, u) == Sum(b.ledger, CustomerW(u)))
    && (forall u :: 0 <= BalanceOf(b, u))
    && (forall r | r in b.ledger :: r.source == Granted || r.booking < b.next)
    && (forall id | id in b.captured :: id < b.next)
  }

  // ----- every transaction keeps the books right -----

  lemma WriteSumsAt(b: Books, r: LedgerRow, id: nat)
    ensures var b' := Write(b, r);
            && Redeemed(b', id) == Redeemed(b, id) + RedeemedW(id)(r)
            && Returned(b', id) == Returned(b, id) + ReturnedW(id)(r)
            && Credits(b', id) == Credits(b, id) + CreditsW(id)(r)
            && CreditedCash(b', id) == CreditedCash(b, id) + CreditedCashW(id)(r)
            && CreditedPoints(b', id) == CreditedPoints(b, id) + CreditedPointsW(id)(r)
  {
    SumAppend(b.ledger, r, CreditedPointsW(id));
    SumAppend(b.ledger, r, RedeemedW(id));
    SumAppend(b.ledger, r, ReturnedW(id));
    SumAppend(b.ledger, r, CreditsW(id));
    SumAppend(b.ledger, r, CreditedCashW(id));
  }

  /** Appending a row moves only its own booking's sums and its own customer's. */
  lemma WriteSums(b: Books, r: LedgerRow)
    ensures forall id :: Redeemed(Write(b, r), id) == Redeemed(b, id) + RedeemedW(id)(r)
    ensures forall id :: Returned(Write(b, r), id) == Returned(b, id) + ReturnedW(id)(r)
    ensures forall id :: Credits(Write(b, r), id) == Credits(b, id) + CreditsW(id)(r)
    ensures forall id :: CreditedCash(Write(b, r), id) == CreditedCash(b, id) + CreditedCashW(id)(r)
    ensures forall id :: CreditedPoints(Write(b, r), id) == CreditedPoints(b, id) + CreditedPointsW(id)(r)
    ensures forall u :: Sum(Write(b, r).ledger, CustomerW(u)) == Sum(b.ledger, CustomerW(u)) + CustomerW(u)(r)
  {
    forall id
      ensures Redeemed(Write(b, r), id) == Redeemed(b, id) + RedeemedW(id)(r)
      ensures Returned(Write(b, r), id) == Returned(b, id) + ReturnedW(id)(r)
      ensures Credits(Write(b, r), id) == Credits(b, id) + CreditsW(id)(r)
      ensures CreditedCash(Write(b, r), id) == CreditedCash(b, id) + CreditedCashW(id)(r)
      ensures CreditedPoints(Write(b, r), id) == CreditedPoints(b, id) + CreditedPointsW(id)(r)
    {
      WriteSumsAt(b, r, id);
    }
    forall u ensures Sum(Write(b, r).ledger, CustomerW(u)) == Sum(b.ledger, CustomerW(u)) + CustomerW(u)(r) {
      SumAppend(b.ledger, r, CustomerW(u));
    }
  }

  /** What one transaction may do to the books of booking `id`: everything else stays as it is. */
  ghost predicate Touches(b: Books, b': Books, id: nat) {
    && b'.next == b.next && b'.captured == b.captured && b'.sessions == b.sessions
    && b'.entries.Keys <= b.entries.Keys && id < b.next
    && (forall o | o != id && o in b.entries :: o in b'.entries && b'.entries[o] == b.entries[o])
    && (forall o | o != id :: Redeemed(b', o) == Redeemed(b, o) && Returned(b', o) == Returned(b, o)
                              && Credits(b', o) == Credits(b, o) && CreditedCash(b', o) == CreditedCash(b, o)
                              && CreditedPoints(b', o) == CreditedPoints(b, o))
    && (forall u :: BalanceOf(b', u) - BalanceOf(b, u) == Sum(b'.ledger, CustomerW(u)) - Sum(b.ledger, CustomerW(u)))
    && (forall u :: BalanceOf(b', u) >= BalanceOf(b, u))
    && (forall r | r in b'.ledger :: r in b.ledger || r.booking == id)
  }

  lemma TouchKeepsRight(b: Books, b': Books, id: nat)
    requires Right(b) && Touches(b, b', id) && Settled(b', id)
    requires id in b'.sessions ==> SessionKnown(b', id)
    ensures Right(b')
  {
    forall o ensures Settled(b', o) {
      assert Settled(b, o);
    }
  }

  /** The row of `id` written or deleted. */
  function SetRow(b: Books, id: nat, e': Entry, gone: bool): Books {
    if gone then b.(entries := b.entries - {id}) else Put(b, id, e')
  }

  function WriteIf(b: Books, r: LedgerRow): Books {
    if r.delta > 0 then Write(b, r) else b
  }

  /** The row change, then at most one credit, then the points: the shape of every ending. */
  function EndWith(b: Books, id: nat, e': Entry, gone: bool, points: int, source: Source, cashSource: Source, credit: int, cash: int): Books
    requires id in b.entries
  {
    var customer := b.entries[id].customer;
    WriteIf(WriteIf(SetRow(b, id, e', gone), LedgerRow(id, customer, cashSource, credit, cash)),
            LedgerRow(id, customer, source, points, 0))
  }

  lemma SetRowTouches(b: Books, id: nat, e': Entry, gone: bool)
    requires Right(b) && id in b.entries
    ensures Touches(b, SetRow(b, id, e', gone), id)
  {
  }

  lemma WriteTouches(b: Books, m: Books, r: LedgerRow)
    requires Touches(b, m, r.booking) && r.delta >= 0
    ensures Touches(b, WriteIf(m, r), r.booking)
  {
    WriteSums(m, r);
  }

  /** A refund row, if any points come of it, adds one credit, its cash and its points. */
  lemma RefundRow(b: Books, r: LedgerRow)
    requires CreditsRefund(r.source) && r.delta >= 0
    ensures var b', on := WriteIf(b, r), r.delta > 0;
            && Redeemed(b', r.booking) == Redeemed(b, r.booking) && Returned(b', r.booking) == Returned(b, r.booking)
            && Credits(b', r.booking) == Credits(b, r.booking) + (if on then 1 else 0)
            && CreditedCash(b', r.booking) == CreditedCash(b, r.booking) + (if on then r.cash else 0)
            && CreditedPoints(b', r.booking) == CreditedPoints(b, r.booking) + r.delta
  {
    if r.delta > 0 {
      var id := r.booking;
      WriteSumsAt(b, r, id);
      assert RedeemedW(id)(r) == 0 && ReturnedW(id)(r) == 0;
      assert CreditsW(id)(r) == 1 && CreditedCashW(id)(r) == r.cash && CreditedPointsW(id)(r) == r.delta;
    } else {
      assert WriteIf(b, r) == b;
    }
  }

  /** A row giving points back adds them to what was returned and to nothing else. */
  lemma PointsRow(b: Books, r: LedgerRow)
    requires ReturnsPoints(r.source) && r.delta >= 0
    ensures var b' := WriteIf(b, r);
            && Redeemed(b', r.booking) == Redeemed(b, r.booking) && Returned(b', r.booking) == Returned(b, r.booking) + r.delta
            && Credits(b', r.booking) == Credits(b, r.booking) && CreditedCash(b', r.booking) == CreditedCash(b, r.booking)
            && CreditedPoints(b', r.booking) == CreditedPoints(b, r.booking)
  {
    if r.delta > 0 {
      var id := r.booking;
      WriteSumsAt(b, r, id);
      assert RedeemedW(id)(r) == 0 && ReturnedW(id)(r) == r.delta;
      assert CreditsW(id)(r) == 0 && CreditedCashW(id)(r) == 0 && CreditedPointsW(id)(r) == 0;
    } else {
      assert WriteIf(b, r) == b;
    }
  }

  lemma EndTouches(b: Books, id: nat, e': Entry, gone: bool, points: int, source: Source, cashSource: Source, credit: int, cash: int)
    requires Right(b) && id in b.entries && points >= 0 && credit >= 0
    ensures Touches(b, EndWith(b, id, e', gone, points, source, cashSource, credit, cash), id)
  {
    var customer := b.entries[id].customer;
    var m := SetRow(b, id, e', gone);
    var r := LedgerRow(id, customer, cashSource, credit, cash);
    SetRowTouches(b, id, e', gone);
    WriteTouches(b, m, r);
    WriteTouches(b, WriteIf(m, r), LedgerRow(id, customer, source, points, 0));
  }

  lemma EndSums(b: Books, id: nat, e': Entry, gone: bool, points: int, source: Source, cashSource: Source, credit: int, cash: int)
    requires id in b.entries
    requires ReturnsPoints(source) && CreditsRefund(cashSource) && points >= 0 && credit >= 0
    ensures var b' := EndWith(b, id, e', gone, points, source, cashSource, credit, cash);
            && Redeemed(b', id) == Redeemed(b, id) && Returned(b', id) == Returned(b, id) + points
            && Credits(b', id) == Credits(b, id) + (if credit > 0 then 1 else 0)
            && CreditedCash(b', id) == CreditedCash(b, id) + (if credit > 0 then cash else 0)
            && CreditedPoints(b', id) == CreditedPoints(b, id) + credit
  {
    var customer := b.entries[id].customer;
    var m := SetRow(b, id, e', gone);
    var r := LedgerRow(id, customer, cashSource, credit, cash);
    assert m.ledger == b.ledger;
    RefundRow(m, r);
    PointsRow(WriteIf(m, r), LedgerRow(id, customer, source, points, 0));
  }

  lemma EndBooking(b: Books, id: nat, e': Entry, gone: bool, points: int, source: Source, cashSource: Source, credit: int, cash: int)
    returns (b': Books)
    requires Right(b) && id in b.entries
    requires ReturnsPoints(source) && CreditsRefund(cashSource) && points >= 0 && credit >= 0
    ensures b' == EndWith(b, id, e', gone, points, source, cashSource, credit, cash)
    ensures b'.entries == SetRow(b, id, e', gone).entries && b'.captured == b.captured && b'.sessions == b.sessions
    ensures Touches(b, b', id)
    ensures Redeemed(b', id) == Redeemed(b, id) && Returned(b', id) == Returned(b, id) + points
    ensures Credits(b', id) == Credits(b, id) + if credit > 0 then 1 else 0
    ensures CreditedCash(b', id) == CreditedCash(b, id) + if credit > 0 then cash else 0
    ensures CreditedPoints(b', id) == CreditedPoints(b, id) + credit
  {
    b' := EndWith(b, id, e', gone, points, source, cashSource, credit, cash);
    EndTouches(b, id, e', gone, points, source, cashSource, credit, cash);
    EndSums(b, id, e', gone, points, source, cashSource, credit, cash);
  }

  lemma RefundPointsNonNegative(amount: int, q: real)
    ensures 0 <= RefundPoints(amount, q)
  {
    if amount > 0 && q > 0.0 {
      QuotientNonNegative(amount as real, q);
      RoundMonotone(amount as real / q, 0);
    }
  }

  lemma SuggestedWithinPaid(amount: nat, percent: real)
    requires 0.0 <= percent <= 100.0
    ensures var s := SuggestedRefund(amount, percent); s.Some? ==> 0 <= s.value <= amount
  {
    assert amount as real * percent <= amount as real * 100.0;
    RoundMonotone(amount as real * percent / 100.0, amount);
  }

  /** An ending that squares: the row cancelled, its points back unless they were, its refund paid in points. */
  predicate Squares(e: Entry, e': Entry, points: int, credit: int, cash: int) {
    && e' == e.(status := Cancelled, pay := e'.pay, refundAmount := e'.refundAmount, rate := e'.rate)
    && EntryConsistent(e')
    && points == (if e.status == Cancelled then 0 else e.points)
    && RefundDue(e) == 0 <= credit == RefundDue(e')
    && (credit > 0 ==> cash == e'.refundAmount.value)
    && (e.pay in {Unpaid, Failed} <==> e'.pay in {Unpaid, Failed})
  }

  lemma SquareIsSettled(b: Books, b': Books, id: nat, points: int, credit: int, cash: int)
    requires Settled(b, id) && id in b.entries && id in b'.entries && b'.captured == b.captured
    requires Squares(b.entries[id], b'.entries[id], points, credit, cash)
    requires Redeemed(b', id) == Redeemed(b, id) && Returned(b', id) == Returned(b, id) + points
    requires Credits(b', id) == Credits(b, id) + if credit > 0 then 1 else 0
    requires CreditedCash(b', id) == CreditedCash(b, id) + if credit > 0 then cash else 0
    requires CreditedPoints(b', id) == CreditedPoints(b, id) + credit
    ensures Settled(b', id)
  {
  }

  lemma EndKeepsRight(b: Books, id: nat, e': Entry, points: int, source: Source, cashSource: Source, credit: int, cash: int)
    requires Right(b) && id in b.entries && Squares(b.entries[id], e', points, credit, cash)
    requires ReturnsPoints(source) && CreditsRefund(cashSource)
    ensures Right(EndWith(b, id, e', false, points, source, cashSource, credit, cash))
  {
    assert Settled(b, id);
    var b' := EndBooking(b, id, e', false, points, source, cashSource, credit, cash);
    SquareIsSettled(b, b', id, points, credit, cash);
    TouchKeepsRight(b, b', id);
  }

  /** Customer cancels other than the hard delete never unsettle the books, however stale their read. */
  lemma CommitKeepsRight(b: Books, id: nat, br: Branch)
    requires Right(b) && br != Drop && (br.Paid? ==> 0.0 <= br.percent <= 100.0)
    ensures Right(CommitCancel(b, id, br))
  {
    assert Settled(b, id);
    if CommitCancel(b, id, br) != b {
      var e := b.entries[id];
      if br == InFlight {
        UnpaidEndKeepsRight(b, id, CancelRefundUnpaid);
      } else if br == PointsOnly {
        PaidEndKeepsRight(b, id, e.(status := Cancelled, pay := Refunded, refundAmount := Some(0)));
      } else {
        SuggestedWithinPaid(e.amount, br.percent);
        PaidEndKeepsRight(b, id, e.(status := Cancelled, pay := RefundPending, refundAmount := SuggestedRefund(e.amount, br.percent)));
      }
    }
  }

  /** Ending a paid booking without crediting anything yet, its points back. */
  lemma PaidEndKeepsRight(b: Books, id: nat, e': Entry)
    requires Right(b) && id in b.entries && b.entries[id].pay == Success
    requires Squares(b.entries[id], e', b.entries[id].points, 0, 0)
    ensures Right(ReturnPoints(Put(b, id, e'), id, b.entries[id], CancelRefundPaid))
  {
    EndKeepsRight(b, id, e', b.entries[id].points, CancelRefundPaid, AdminRefundApproved, 0, 0);
  }

  /** Ending a paid booking with a full refund and its points back. */
  lemma FullRefundKeepsRight(b: Books, id: nat, q: real)
    requires Right(b) && id in b.entries && b.entries[id].pay == Success
    ensures Right(ReturnPoints(RefundInFull(b, id, b.entries[id], q), id, b.entries[id], CancelRefundPaid))
  {
    assert Settled(b, id);
    var e := b.entries[id];
    RefundPointsNonNegative(e.amount, q);
    EndKeepsRight(b, id, e.(status := Cancelled, pay := Refunded, refundAmount := Some(e.amount), rate := q), e.points,
                  CancelRefundPaid, AdminRefundApproved, RefundPoints(e.amount, q), e.amount);
  }

  /** Ending a booking nobody paid for, its points back. */
  lemma UnpaidEndKeepsRight(b: Books, id: nat, source: Source)
    requires Right(b) && id in b.entries && b.entries[id].pay == Unpaid && ReturnsPoints(source)
    ensures Right(ReturnPoints(Put(b, id, b.entries[id].(status := Cancelled, pay := Failed)), id, b.entries[id], source))
  {
    assert Settled(b, id);
    var e := b.entries[id];
    EndKeepsRight(b, id, e.(status := Cancelled, pay := Failed), e.points, source, AdminRefundApproved, 0, 0);
  }

  lemma AdminCancelKeepsRight(b: Books, id: nat, q: real)
    requires Right(b)
    ensures Right(AdminCancel(b, id, q))
  {
    assert Settled(b, id);
    if id in b.entries && b.entries[id].status != Cancelled {
      var e := b.entries[id];
      if e.pay == Success {
        FullRefundKeepsRight(b, id, q);
      } else {
        UnpaidEndKeepsRight(b, id, CancelRefundPaid);
      }
    }
  }

  /** A cascade read of "paid" stays good: such a booking is never pending again. */
  predicate CascadeReadHolds(b: Books, id: nat, read: PaymentStatus) {
    && (read == Unpaid || read == Success)
    && (read == Success && id in b.entries ==> b.entries[id].status != Pending)
    && id < b.next
  }

  lemma CascadeKeepsRight(b: Books, id: nat, read: PaymentStatus, q: real)
    requires Right(b) && CascadeReadHolds(b, id, read)
    ensures Right(CascadeCommit(b, id, read, q))
  {
    assert Settled(b, id);
    if id in b.entries && b.entries[id].status in {Pending, Confirmed} && (read == Success || b.entries[id].pay == Unpaid) {
      var e := b.entries[id];
      if read == Success {
        FullRefundKeepsRight(b, id, q);
      } else {
        UnpaidEndKeepsRight(b, id, CancelRefundPaid);
      }
    }
  }

  /** A queued refund decided: credited at the rate of the decision, or rejected. */
  lemma DecidedKeepsRight(b: Books, id: nat, e': Entry, cashSource: Source)
    requires Right(b) && id in b.entries && b.entries[id].pay == RefundPending && CreditsRefund(cashSource)
    requires Squares(b.entries[id], e', 0, RefundDue(e'), if e'.refundAmount.Some? then e'.refundAmount.value else 0)
    ensures Right(if e'.pay == Refunded && e'.refundAmount.Some?
                  then CreditRefund(Put(b, id, e'), id, b.entries[id], cashSource, e'.refundAmount.value, e'.rate) else Put(b, id, e'))
  {
    EndKeepsRight(b, id, e', 0, CancelRefundPaid, cashSource, RefundDue(e'), if e'.refundAmount.Some? then e'.refundAmount.value else 0);
  }

  lemma ResolveKeepsRight(b: Books, id: nat, q: real)
    requires Right(b)
    ensures Right(ResolvePending(b, id, q))
  {
    assert Settled(b, id);
    if id in b.entries && b.entries[id].pay == RefundPending {
      var e := b.entries[id];
      RefundPointsNonNegative(e.amount, q);
      DecidedKeepsRight(b, id, e.(pay := Refunded, refundAmount := Some(e.amount), rate := q), AdminRefundApproved);
    }
  }

  lemma DecisionKeepsRight(b: Books, id: nat, approve: Option<real>, admin: bool, q: real)
    requires Right(b)
    ensures Right(RefundDecision(b, id, approve, admin, q))
  {
    assert Settled(b, id);
    if RefundDecision(b, id, approve, admin, q) != b {
      var e := b.entries[id];
      if approve.None? {
        DecidedKeepsRight(b, id, e.(pay := Rejected, refundAmount := None), AdminRefundApproved);
      } else {
        RoundMonotone(approve.value, 0);
        RoundMonotone(approve.value, e.amount);
        RefundPointsNonNegative(Round(approve.value), q);
        DecidedKeepsRight(b, id, e.(pay := Refunded, refundAmount := Some(Round(approve.value)), rate := q),
                          if admin then AdminRefundApproved else VendorRefundApproved);
      }
    }
  }

  // ----- the hard delete -----

  /** Nothing of value hangs on the row: no gateway session, no captured money, no points already given back. */
  predicate SafeToDrop(b: Books, id: nat) {
    id in b.entries ==>
      id !in b.sessions && id !in b.captured && (b.entries[id].status != Cancelled || b.entries[id].points == 0)
  }

  /**
   * The hard delete of an "unpaid" booking has no compare-and-set. It keeps the books right exactly
   * when, at the moment it commits, the booking is gone, or no gateway session is open for it, no
   * payment was captured and it has not been cancelled with points to give back in the meantime.
   */
  lemma DropKeepsRightExactly(b: Books, id: nat)
    requires Right(b)
    ensures Right(CommitCancel(b, id, Drop)) <==> SafeToDrop(b, id)
  {
    assert Settled(b, id);
    if id in b.entries {
      var e := b.entries[id];
      var b' := EndBooking(b, id, e, true, e.points, CancelRefundUnpaid, AdminRefundApproved, 0, 0);
      assert b' == CommitCancel(b, id, Drop);
      if SafeToDrop(b, id) {
        TouchKeepsRight(b, b', id);
      }
      assert Right(b') ==> Settled(b', id) && id !in b'.sessions;
    }
  }

  /** Run without interruption, the customer cancel only drops what is safe to drop. */
  lemma CancelCallKeepsRight(b: Books, id: nat, t: Terms)
    requires Right(b)
    ensures Right(CancelCall(b, id, t))
  {
    assert Settled(b, id);
    if id in b.entries && ChooseBranch(b.entries[id], t).Some? {
      var br := ChooseBranch(b.entries[id], t).value;
      if br == Drop {
        DropKeepsRightExactly(b, id);
      } else {
        CommitKeepsRight(b, id, br);
      }
    }
  }

  // ----- the outside world keeps the books right -----

  lemma FreshId(b: Books)
    requires Right(b)
    ensures Redeemed(b, b.next) == 0 && Returned(b, b.next) == 0 && b.next !in b.sessions
  {
    SumSame(b.ledger, RedeemedW(b.next), NoRow());
    SumSame(b.ledger, ReturnedW(b.next), NoRow());
    SumNoRow(b.ledger);
  }

  function NoRow(): LedgerRow -> int {
    (r: LedgerRow) => 0
  }

  lemma {:induction false} SumNoRow(s: seq<LedgerRow>)
    ensures Sum(s, NoRow()) == 0
  {
    if s != [] {
      SumNoRow(s[..|s| - 1]);
    }
  }

  /** The accounts of the booking just created. */
  lemma NewBookingSettled(b: Books, customer: nat, points: nat, amount: nat)
    requires Right(b) && BalanceOf(b, customer) >= points
    ensures Settled(Create(b, customer, points, amount), b.next)
  {
    var m := Put(b, b.next, NewEntry(customer, points, amount)).(next := b.next + 1);
    var r := LedgerRow(b.next, customer, BookingRedeem, 0 - points, 0);
    FreshId(b);
    assert Settled(b, b.next);
    if points > 0 {
      WriteSums(m, r);
    }
  }

  /** Creating a booking moves nobody else's accounts, and every balance still matches its rows. */
  lemma CreateLeavesOthers(b: Books, customer: nat, points: nat, amount: nat)
    requires Right(b) && BalanceOf(b, customer) >= points
    ensures var b' := Create(b, customer, points, amount);
            && (forall id | id != b.next :: Settled(b', id))
            && (forall u :: BalanceOf(b', u) == Sum(b'.ledger, CustomerW(u)) && 0 <= BalanceOf(b', u))
  {
    var b' := Create(b, customer, points, amount);
    if points > 0 {
      WriteSums(Put(b, b.next, NewEntry(customer, points, amount)).(next := b.next + 1),
                LedgerRow(b.next, customer, BookingRedeem, 0 - points, 0));
    }
    forall id | id != b.next ensures Settled(b', id) {
      assert Settled(b, id);
      SameAccounts(b, b', id);
    }
  }

  lemma CreateKeepsRight(b: Books, customer: nat, points: nat, amount: nat)
    requires Right(b)
    ensures Right(Create(b, customer, points, amount))
  {
    if BalanceOf(b, customer) >= points {
      NewBookingSettled(b, customer, points, amount);
      CreateLeavesOthers(b, customer, points, amount);
    }
  }

  lemma SameAccounts(b: Books, b': Books, id: nat)
    requires Settled(b, id)
    requires Redeemed(b', id) == Redeemed(b, id) && Returned(b', id) == Returned(b, id)
    requires Credits(b', id) == Credits(b, id) && CreditedCash(b', id) == CreditedCash(b, id)
    requires CreditedPoints(b', id) == CreditedPoints(b, id)
    requires (id in b'.entries) == (id in b.entries) && (id in b.entries ==> b'.entries[id] == b.entries[id])
    requires b'.captured == b.captured
    ensures Settled(b', id)
  {
  }

  lemma CheckoutKeepsRight(b: Books, id: nat)
    requires Right(b)
    ensures Right(OpenCheckout(b, id))
  {
    forall o ensures Settled(OpenCheckout(b, id), o) {
      assert Settled(b, o);
    }
  }

  lemma CaptureKeepsRight(b: Books, id: nat)
    requires Right(b)
    ensures Right(Capture(b, id))
  {
    if id in b.sessions {
      CaptureSettles(b, id);
    }
    forall o ensures Settled(Capture(b, id), o) {
      assert Settled(b, o);
    }
  }

  lemma CaptureSettles(b: Books, id: nat)
    requires Settled(b, id) && id in b.sessions && SessionKnown(b, id)
    ensures Settled(Capture(b, id), id)
  {
  }

  lemma CompleteKeepsRight(b: Books, id: nat)
    requires Right(b)
    ensures Right(Complete(b, id))
  {
    forall o ensures Settled(Complete(b, id), o) {
      assert Settled(b, o);
    }
  }

  lemma GrantKeepsRight(b: Books, customer: nat, points: nat)
    requires Right(b)
    ensures Right(Grant(b, customer, points))
  {
    if points > 0 {
      var b' := Grant(b, customer, points);
      WriteSums(b, LedgerRow(b.next, customer, Granted, points, 0));
      forall id ensures Settled(b', id) {
        assert Settled(b, id);
      }
    }
  }

  // ----- runs -----

  /** A read waiting for its transaction. */
  datatype Read = CustomerRead(id: nat, br: Branch) | CascadeRead(id: nat, pay: PaymentStatus)

  datatype Desk = Desk(books: Books, open: seq<Read>)

  datatype Action =
    | Book(customer: nat, points: nat, amount: nat)
    | GrantPoints(customer: nat, points: nat)
    | Checkout(id: nat)
    | GatewayCapture(id: nat)
    | Finish(id: nat)
    | CancelAtOnce(id: nat, terms: Terms)
    | ReadCancel(id: nat, terms: Terms)
    | ReadCascade(id: nat)
    | Commit(k: nat, q: real)
    | CancelByAdmin(id: nat, q: real)
    | ApproveStranded(id: nat, q: real)
    | Decide(id: nat, approve: Option<real>, admin: bool, q: real)

  function CommitRead(b: Books, r: Read, q: real): Books {
    match r
    case CustomerRead(id, br) => CommitCancel(b, id, br)
    case CascadeRead(id, pay) => CascadeCommit(b, id, pay, q)
  }

  function StepBooks(d: Desk, act: Action): Books {
    var b := d.books;
    match act
    case Book(customer, points, amount) => Create(b, customer, points, amount)
    case GrantPoints(customer, points) => Grant(b, customer, points)
    case Checkout(id) => OpenCheckout(b, id)
    case GatewayCapture(id) => Capture(b, id)
    case Finish(id) => Complete(b, id)
    case CancelAtOnce(id, t) => CancelCall(b, id, t)
    case ReadCancel(id, t) => b
    case ReadCascade(id) => b
    case Commit(k, q) => if k < |d.open| then CommitRead(b, d.open[k], q) else b
    case CancelByAdmin(id, q) => AdminCancel(b, id, q)
    case ApproveStranded(id, q) => ResolvePending(b, id, q)
    case Decide(id, approve, admin, q) => RefundDecision(b, id, approve, admin, q)
  }

  function StepOpen(d: Desk, act: Action): seq<Read> {
    match act
    case ReadCancel(id, t) =>
      if id in d.books.entries && ChooseBranch(d.books.entries[id], t).Some?
      then d.open + [CustomerRead(id, ChooseBranch(d.books.entries[id], t).value)] else d.open
    case ReadCascade(id) =>
      if id in d.books.entries && d.books.entries[id].status in {Pending, Confirmed}
      then d.open + [CascadeRead(id, d.books.entries[id].pay)] else d.open
    case Commit(k, q) => if k < |d.open| then d.open[..k] + d.open[k + 1..] else d.open
    case _ => d.open
  }

  function Step(d: Desk, act: Action): Desk {
    Desk(StepBooks(d, act), StepOpen(d, act))
  }

  function Run(d: Desk, acts: seq<Action>): Desk {
    if acts == [] then d else Step(Run(d, acts[..|acts| - 1]), acts[|acts| - 1])
  }

  predicate ReadHolds(b: Books, r: Read) {
    match r
    case CustomerRead(id, br) => br.Paid? ==> 0.0 <= br.percent <= 100.0
    case CascadeRead(id, pay) => CascadeReadHolds(b, id, pay)
  }

  ghost predicate RightDesk(d: Desk) {
    Right(d.books) && forall r | r in d.open :: ReadHolds(d.books, r)
  }

  /** No booking becomes pending again, and no id is used twice. */
  ghost predicate Forward(b: Books, b': Books) {
    && b.next <= b'.next
    && forall id | id < b.next && id in b'.entries ::
         id in b.entries && (b'.entries[id].status == Pending ==> b.entries[id].status == Pending)
  }

  lemma CommitForward(b: Books, id: nat, br: Branch)
    ensures Forward(b, CommitCancel(b, id, br))
  {
  }

  lemma CascadeForward(b: Books, id: nat, pay: PaymentStatus, q: real)
    ensures Forward(b, CascadeCommit(b, id, pay, q))
  {
  }

  lemma AdminForward(b: Books, id: nat, q: real)
    ensures Forward(b, AdminCancel(b, id, q))
  {
  }

  lemma ResolveForward(b: Books, id: nat, q: real)
    ensures Forward(b, ResolvePending(b, id, q))
  {
  }

  lemma DecisionForward(b: Books, id: nat, approve: Option<real>, admin: bool, q: real)
    ensures Forward(b, RefundDecision(b, id, approve, admin, q))
  {
  }

  lemma OutsideForward(b: Books, id: nat, customer: nat, points: nat, amount: nat)
    ensures Forward(b, OpenCheckout(b, id)) && Forward(b, Capture(b, id)) && Forward(b, Complete(b, id))
    ensures Forward(b, Create(b, customer, points, amount)) && Forward(b, Grant(b, customer, points))
  {
  }

  lemma StepForward(d: Desk, act: Action)
    ensures Forward(d.books, StepBooks(d, act))
  {
    var b := d.books;
    match act
    case Book(customer, points, amount) => OutsideForward(b, 0, customer, points, amount);
    case GrantPoints(customer, points) => OutsideForward(b, 0, customer, points, 0);
    case Checkout(id) => OutsideForward(b, id, 0, 0, 0);
    case GatewayCapture(id) => OutsideForward(b, id, 0, 0, 0);
    case Finish(id) => OutsideForward(b, id, 0, 0, 0);
    case CancelAtOnce(id, t) =>
      if id in b.entries && ChooseBranch(b.entries[id], t).Some? {
        CommitForward(b, id, ChooseBranch(b.entries[id], t).value);
      }
    case ReadCancel(id, t) =>
    case ReadCascade(id) =>
    case Commit(k, q) =>
      if k < |d.open| {
        match d.open[k]
        case CustomerRead(id, br) => CommitForward(b, id, br);
        case CascadeRead(id, pay) => CascadeForward(b, id, pay, q);
      }
    case CancelByAdmin(id, q) => AdminForward(b, id, q);
    case ApproveStranded(id, q) => ResolveForward(b, id, q);
    case Decide(id, approve, admin, q) => DecisionForward(b, id, approve, admin, q);
  }

  lemma ReadsStayGood(b: Books, b': Books, r: Read)
    requires Forward(b, b') && ReadHolds(b, r)
    ensures ReadHolds(b', r)
  {
  }

  /** A delete about to commit, if the action is one. */
  predicate DropIsSafe(d: Desk, act: Action) {
    act.Commit? && act.k < |d.open| && d.open[act.k].CustomerRead? && d.open[act.k].br == Drop
    ==> SafeToDrop(d.books, d.open[act.k].id)
  }

  lemma StepBooksKeepsRight(d: Desk, act: Action)
    requires RightDesk(d) && DropIsSafe(d, act)
    ensures Right(StepBooks(d, act))
  {
    var b := d.books;
    match act
    case Book(customer, points, amount) => CreateKeepsRight(b, customer, points, amount);
    case GrantPoints(customer, points) => GrantKeepsRight(b, customer, points);
    case Checkout(id) => CheckoutKeepsRight(b, id);
    case GatewayCapture(id) => CaptureKeepsRight(b, id);
    case Finish(id) => CompleteKeepsRight(b, id);
    case CancelAtOnce(id, t) => CancelCallKeepsRight(b, id, t);
    case ReadCancel(id, t) =>
    case ReadCascade(id) =>
    case Commit(k, q) =>
      if k < |d.open| {
        assert ReadHolds(b, d.open[k]);
        match d.open[k]
        case CustomerRead(id, br) => if br == Drop { DropKeepsRightExactly(b, id); } else { CommitKeepsRight(b, id, br); }
        case CascadeRead(id, pay) => CascadeKeepsRight(b, id, pay, q);
      }
    case CancelByAdmin(id, q) => AdminCancelKeepsRight(b, id, q);
    case ApproveStranded(id, q) => ResolveKeepsRight(b, id, q);
    case Decide(id, approve, admin, q) => DecisionKeepsRight(b, id, approve, admin, q);
  }

  lemma StepKeepsRight(d: Desk, act: Action)
    requires RightDesk(d) && DropIsSafe(d, act)
    ensures RightDesk(Step(d, act))
  {
    var d' := Step(d, act);
    StepBooksKeepsRight(d, act);
    StepForward(d, act);
    forall r | r in d'.open ensures ReadHolds(d'.books, r) {
      if r in d.open {
        ReadsStayGood(d.books, d'.books, r);
      } else if act.ReadCascade? {
        assert Settled(d.books, act.id);
      }
    }
  }

  /** Every hard delete of the run commits when it is safe. */
  predicate DropsAreSafe(d: Desk, acts: seq<Action>) {
    acts == []
    || (DropsAreSafe(d, acts[..|acts| - 1]) && DropIsSafe(Run(d, acts[..|acts| - 1]), acts[|acts| - 1]))
  }

  /**
   * All interleavings of reads and transactions: the books stay right as long as every hard delete
   * commits when it is safe. The other cancels need no such condition.
   */
  lemma {:induction false} InterleavingsKeepBooksRight(d: Desk, acts: seq<Action>)
    requires RightDesk(d) && DropsAreSafe(d, acts)
    ensures RightDesk(Run(d, acts))
  {
    if acts != [] {
      InterleavingsKeepBooksRight(d, acts[..|acts| - 1]);
      StepKeepsRight(Run(d, acts[..|acts| - 1]), acts[|acts| - 1]);
    }
  }

  /** The accounts of every booking stay settled in every later run whose own deletes are safe. */
  ghost predicate SettledForGood(d: Desk) {
    forall acts, id | DropsAreSafe(d, acts) :: Settled(Run(d, acts).books, id)
  }

  /** After a hard delete its own booking is settled exactly when no money and no returned points hung on it. */
  lemma DropSettles(b: Books, id: nat)
    requires Right(b) && id in b.entries
    ensures var b' := CommitCancel(b, id, Drop);
            && (forall o | o != id :: Settled(b', o))
            && id !in b'.entries && b'.sessions == b.sessions && b'.captured == b.captured
            && (Settled(b', id) <==> id !in b.captured && (b.entries[id].status != Cancelled || b.entries[id].points == 0))
  {
    assert Settled(b, id);
    var e := b.entries[id];
    var b' := EndBooking(b, id, e, true, e.points, CancelRefundUnpaid, AdminRefundApproved, 0, 0);
    assert b' == CommitCancel(b, id, Drop);
    forall o | o != id ensures Settled(b', o) {
      assert Settled(b, o);
    }
  }

  /**
   * A stale hard delete does no lasting harm, over every later run, exactly when at the moment it
   * commits no gateway session is open for the booking, nothing was captured and no points were
   * given back.
   */
  lemma DropIsSafeForGoodExactly(d: Desk, k: nat, q: real)
    requires RightDesk(d) && k < |d.open| && d.open[k].CustomerRead? && d.open[k].br == Drop
    ensures SettledForGood(Step(d, Commit(k, q))) <==> SafeToDrop(d.books, d.open[k].id)
  {
    var id, b := d.open[k].id, d.books;
    var d' := Step(d, Commit(k, q));
    if SafeToDrop(b, id) {
      StepKeepsRight(d, Commit(k, q));
      forall acts, o | DropsAreSafe(d', acts) ensures Settled(Run(d', acts).books, o) {
        InterleavingsKeepBooksRight(d', acts);
      }
    } else {
      DropSettles(b, id);
      var late := [GatewayCapture(id)];
      assert late[..0] == [];
      assert DropsAreSafe(d', []) && DropsAreSafe(d', late);
      assert Run(d', []) == d' && Run(d', late) == Step(d', GatewayCapture(id));
      assert !Settled(Run(d', []).books, id) || !Settled(Run(d', late).books, id);
    }
  }

  predicate NoCustomerRead(open: seq<Read>) {
    forall r | r in open :: r.CascadeRead?
  }

  /**
   * When a customer cancel runs at once, no condition is left: every run of bookings, captures,
   * customer, admin and cascade cancels (the latter split into read and transaction) and refund
   * decisions keeps the books right.
   */
  lemma {:induction false} RunsKeepBooksRight(d: Desk, acts: seq<Action>)
    requires RightDesk(d) && NoCustomerRead(d.open)
    requires forall act | act in acts :: !act.ReadCancel?
    ensures RightDesk(Run(d, acts)) && NoCustomerRead(Run(d, acts).open)
  {
    if acts != [] {
      var n := |acts| - 1;
      RunsKeepBooksRight(d, acts[..n]);
      assert acts[n] in acts;
      var m := Run(d, acts[..n]);
      if acts[n].Commit? && acts[n].k < |m.open| {
        assert m.open[acts[n].k] in m.open;
      }
      StepKeepsRight(m, acts[n]);
    }
  }

  /**
   * What right books mean for one booking that is over: its points came back exactly once; a
   * refunded payment was credited exactly once, with the points its decided amount is worth, and
   * no more was decided than paid; nobody else was credited; and no money is without its booking.
   */
  lemma EndedBookingAccounts(b: Books, id: nat)
    requires Right(b) && id < b.next
    ensures id !in b.entries || b.entries[id].status == Cancelled ==> Returned(b, id) == Redeemed(b, id)
    ensures id in b.entries && b.entries[id].status != Cancelled ==> Returned(b, id) == 0 && Credits(b, id) == 0
    ensures id in b.entries && b.entries[id].pay == Refunded ==>
              var e := b.entries[id];
              && e.refundAmount.Some? && 0 <= e.refundAmount.value <= e.amount
              && CreditedPoints(b, id) == RefundPoints(e.refundAmount.value, e.rate)
              && Credits(b, id) == (if CreditedPoints(b, id) > 0 then 1 else 0)
    ensures id !in b.entries || b.entries[id].pay != Refunded ==> Credits(b, id) == CreditedCash(b, id) == CreditedPoints(b, id) == 0
    ensures id in b.entries && b.entries[id].pay in {RefundPending, Refunded, Rejected} ==> b.entries[id].status == Cancelled
    ensures id in b.captured ==> id in b.entries && b.captured[id] == b.entries[id].amount
    ensures id in b.sessions ==> id in b.entries
  {
    assert Settled(b, id);
  }

  /** Taking points and giving the same points back leaves every balance as it was. */
  lemma DebitThenReturn(b: Books, id: nat, customer: nat, points: nat, source: Source, user: nat)
    ensures var debited := if points > 0 then Write(b, LedgerRow(id, customer, BookingRedeem, 0 - points, 0)) else b;
            var back := if points > 0 then Write(debited, LedgerRow(id, customer, source, points, 0)) else debited;
            BalanceOf(back, user) == BalanceOf(b, user)
  {
  }

  lemma DropNewBooking(b: Books, customer: nat, points: nat, amount: nat, user: nat)
    requires points <= BalanceOf(b, customer) && amount > 0
    ensures var b' := CommitCancel(Create(b, customer, points, amount), b.next, Drop);
            BalanceOf(b', user) == BalanceOf(b, user) && b'.entries == b.entries - {b.next}
  {
    DebitThenReturn(b, b.next, customer, points, CancelRefundUnpaid, user);
    assert Create(b, customer, points, amount).entries - {b.next} == b.entries - {b.next};
  }

  lemma CloseNewBooking(b: Books, customer: nat, points: nat, user: nat)
    requires points <= BalanceOf(b, customer)
    ensures var b' := CommitCancel(Create(b, customer, points, 0), b.next, PointsOnly);
            && BalanceOf(b', user) == BalanceOf(b, user)
            && b.next in b'.entries && b'.entries[b.next].status == Cancelled && b'.entries[b.next].pay == Refunded
  {
    DebitThenReturn(b, b.next, customer, points, CancelRefundPaid, user);
  }

  /** Booking and cancelling before paying leaves every balance as it was, whatever the policy says. */
  lemma BookThenCancelRestoresBalances(b: Books, customer: nat, points: nat, amount: nat, t: Terms, user: nat)
    requires points <= BalanceOf(b, customer) && t.hoursUntilStart >= 0.0
    ensures BalanceOf(CancelCall(Create(b, customer, points, amount), b.next, t), user) == BalanceOf(b, user)
    ensures var b' := CancelCall(Create(b, customer, points, amount), b.next, t);
            if amount > 0 then b'.entries == b.entries - {b.next}
            else b.next in b'.entries && b'.entries[b.next].status == Cancelled && b'.entries[b.next].pay == Refunded
  {
    var e := NewEntry(customer, points, amount);
    assert Create(b, customer, points, amount).entries[b.next] == e;
    if amount == 0 {
      assert ChooseBranch(e, t) == Some(PointsOnly);
      CloseNewBooking(b, customer, points, user);
    } else {
      assert ChooseBranch(e, t) == Some(Drop);
      DropNewBooking(b, customer, points, amount, user);
    }
  }

  // ----- the two ways a stale delete goes wrong -----

  const NO_BOOKS := Books(map[], [], map[], map[], map[], 0)
  const EASY_TERMS := Terms(FreeCancellation, 48.0, 24.0, 50.0)

  lemma NoBooksRight()
    ensures RightDesk(Desk(NO_BOOKS, []))
  {
    forall id: nat ensures Settled(NO_BOOKS, id) {
      assert Redeemed(NO_BOOKS, id) == Returned(NO_BOOKS, id) == Credits(NO_BOOKS, id) == CreditedCash(NO_BOOKS, id) == CreditedPoints(NO_BOOKS, id) == 0;
    }
    assert forall u: nat :: BalanceOf(NO_BOOKS, u) == 0 == Sum(NO_BOOKS.ledger, CustomerW(u));
  }

  /** One more step of a run keeps the desk right. */
  lemma Advance(d: Desk, acts: seq<Action>, act: Action)
    requires RightDesk(Run(d, acts)) && DropIsSafe(Run(d, acts), act)
    ensures Run(d, acts + [act]) == Step(Run(d, acts), act)
    ensures RightDesk(Run(d, acts + [act]))
  {
    assert (acts + [act])[..|acts|] == acts;
    StepKeepsRight(Run(d, acts), act);
  }

  const START := Desk(NO_BOOKS, [])

  /** The run in which a customer books with points and then opens a cancel, unpaid. */
  function Booked(customer: nat, points: nat, amount: nat): seq<Action> {
    [GrantPoints(customer, points)] + [Book(customer, points, amount)]
  }

  function BookedAndRead(customer: nat, points: nat, amount: nat): seq<Action> {
    Booked(customer, points, amount) + [ReadCancel(0, EASY_TERMS)]
  }

  lemma AfterGrant(customer: nat, points: nat)
    requires points > 0
    ensures var d := Run(START, [GrantPoints(customer, points)]);
            RightDesk(d) && d.open == [] && d.books.entries == map[] && d.books.next == 0
            && d.books.sessions == map[] && d.books.captured == map[] && BalanceOf(d.books, customer) == points
  {
    NoBooksRight();
    Advance(START, [], GrantPoints(customer, points));
    assert [] + [GrantPoints(customer, points)] == [GrantPoints(customer, points)];
  }

  lemma AfterBooking(customer: nat, points: nat, amount: nat)
    requires points > 0 && amount > 0
    ensures var d := Run(START, Booked(customer, points, amount));
            RightDesk(d) && d.open == [] && d.books.sessions == map[] && d.books.captured == map[]
            && d.books.entries == map[0 := Entry(customer, Pending, Unpaid, amount, false, points, None, 0.0)]
  {
    AfterGrant(customer, points);
    Advance(START, [GrantPoints(customer, points)], Book(customer, points, amount));
  }

  lemma AfterReading(customer: nat, points: nat, amount: nat)
    requires points > 0 && amount > 0
    ensures var d := Run(START, BookedAndRead(customer, points, amount));
            RightDesk(d) && d.open == [CustomerRead(0, Drop)] && d.books.sessions == map[] && d.books.captured == map[]
            && d.books.entries == map[0 := Entry(customer, Pending, Unpaid, amount, false, points, None, 0.0)]
  {
    AfterBooking(customer, points, amount);
    Advance(START, Booked(customer, points, amount), ReadCancel(0, EASY_TERMS));
  }

  /**
   * An admin cancels between the customer's read and the customer's delete: the points come back
   * twice (under two ledger sources, so no uniqueness rule on booking and source notices).
   */
  lemma StaleDeleteReturnsPointsTwice(customer: nat, points: nat, amount: nat)
    requires points > 0 && amount > 0
    ensures var m := Run(START, BookedAndRead(customer, points, amount) + [CancelByAdmin(0, 1.0)]);
            RightDesk(m) && !Right(Step(m, Commit(0, 1.0)).books)
  {
    var acts := BookedAndRead(customer, points, amount);
    AfterReading(customer, points, amount);
    Advance(START, acts, CancelByAdmin(0, 1.0));
    DropKeepsRightExactly(Run(START, acts + [CancelByAdmin(0, 1.0)]).books, 0);
  }

  /** The customer pays in another tab in between: the captured payment's row is deleted. */
  lemma StaleDeleteLosesCapture(customer: nat, points: nat, amount: nat)
    requires points > 0 && amount > 0
    ensures var m := Run(START, BookedAndRead(customer, points, amount) + [Checkout(0)] + [GatewayCapture(0)]);
            RightDesk(m) && !Right(Step(m, Commit(0, 1.0)).books)
  {
    var acts := BookedAndRead(customer, points, amount);
    AfterReading(customer, points, amount);
    Advance(START, acts, Checkout(0));
    Advance(START, acts + [Checkout(0)], GatewayCapture(0));
    DropKeepsRightExactly(Run(START, acts + [Checkout(0)] + [GatewayCapture(0)]).books, 0);
  }

  /**
   * The customer goes to the gateway in another tab in between. The delete leaves a session behind
   * that no row knows; when the gateway takes the money there is no booking and no payment for it.
   */
  lemma StaleDeleteOrphansSession(customer: nat, points: nat, amount: nat)
    requires points > 0 && amount > 0
    ensures var m := Run(START, BookedAndRead(customer, points, amount) + [Checkout(0)]);
            var e := Step(m, Commit(0, 1.0));
            && RightDesk(m) && (forall id :: Settled(e.books, id)) && !Right(e.books)
            && Step(e, GatewayCapture(0)).books.captured == map[0 := amount]
            && 0 !in Step(e, GatewayCapture(0)).books.entries
  {
    var acts := BookedAndRead(customer, points, amount);
    AfterReading(customer, points, amount);
    Advance(START, acts, Checkout(0));
    OrphanedSession(Run(START, acts + [Checkout(0)]), 0, amount);
  }

  /** A delete that leaves an open session behind, and the capture on it. */
  lemma OrphanedSession(m: Desk, id: nat, amount: nat)
    requires RightDesk(m) && m.open == [CustomerRead(id, Drop)] && id in m.books.entries
    requires m.books.sessions == map[id := amount] && m.books.captured == map[]
    requires m.books.entries[id].status != Cancelled
    ensures var e := Step(m, Commit(0, 1.0));
            && (forall o :: Settled(e.books, o)) && !Right(e.books)
            && Step(e, GatewayCapture(id)).books.captured == map[id := amount]
            && id !in Step(e, GatewayCapture(id)).books.entries
  {
    DropKeepsRightExactly(m.books, id);
    DropSettles(m.books, id);
  }

  // ----- the desk as an object -----

  class CancellationDesk {
    var entries: map<nat, Entry>
    var ledger: seq<LedgerRow>
    var balance: map<nat, int>
    var sessions: map<nat, nat>
    var captured: map<nat, nat>
    var next: nat

    ghost function Value(): Books
      reads this
    {
      Books(entries, ledger, balance, sessions, captured, next)
    }

    constructor ()
      ensures Value() == NO_BOOKS
    {
      entries, ledger, balance, sessions, captured, next := map[], [], map[], map[], map[], 0;
    }

    /** Crediting points: the balance and one ledger row. */
    method Refund(customer: nat, amount: int, booking: nat, source: Source, cash: int)
      modifies `balance, `ledger
      ensures Value() == Write(old(Value()), LedgerRow(booking, customer, source, amount, cash))
    {
      var current := if customer in balance then balance[customer] else 0;
      balance := balance[customer := current + amount];
      ledger := ledger + [LedgerRow(booking, customer, source, amount, cash)];
    }

    /** The transaction of a customer cancel on the branch its read chose; false when it aborts. */
    method CommitCustomerCancel(id: nat, br: Branch) returns (committed: bool)
      modifies this
      ensures Value() == CommitCancel(old(Value()), id, br)
      ensures !committed ==> Value() == old(Value())
    {
      if id !in entries {
        return false;
      }
      var e := entries[id];
      var source := CancelRefundPaid;
      match br {
        case PointsOnly =>
          if e.pay != Success {
            return false;
          }
          entries := entries[id := e.(pay := Refunded, refundAmount := Some(0), status := Cancelled)];
        case Paid(percent) =>
          if e.pay != Success {
            return false;
          }
          entries := entries[id := e.(pay := RefundPending, refundAmount := SuggestedRefund(e.amount, percent), status := Cancelled)];
        case InFlight =>
          if e.pay != Unpaid {
            return false;
          }
          entries := entries[id := e.(pay := Failed, status := Cancelled)];
          source := CancelRefundUnpaid;
        case Drop =>
          entries := entries - {id};
          source := CancelRefundUnpaid;
      }
      if e.points > 0 {
        Refund(e.customer, e.points, id, source, 0);
      }
      return true;
    }

    method CancelBooking(id: nat, terms: Terms) returns (committed: bool)
      modifies this
      ensures Value() == CancelCall(old(Value()), id, terms)
      ensures old(Right(Value())) ==> Right(Value())
    {
      if old(Right(Value())) {
        CancelCallKeepsRight(Value(), id, terms);
      }
      if id !in entries {
        return false;
      }
      var br := ChooseBranch(entries[id], terms);
      if br.None? {
        return false;
      }
      committed := CommitCustomerCancel(id, br.value);
    }

    /** The cancel branch of the admin status change. */
    method CancelByStaff(id: nat, q: real)
      modifies this
      ensures Value() == AdminCancel(old(Value()), id, q)
      ensures old(Right(Value())) ==> Right(Value())
    {
      if old(Right(Value())) {
        AdminCancelKeepsRight(Value(), id, q);
      }
      if id !in entries || entries[id].status == Cancelled {
        return;
      }
      var e := entries[id];
      if e.pay == Success {
        entries := entries[id := e.(status := Cancelled, pay := Refunded, refundAmount := Some(e.amount), rate := q)];
        var refundPoints := RefundPoints(e.amount, q);
        if refundPoints > 0 {
          Refund(e.customer, refundPoints, id, AdminRefundApproved, e.amount);
        }
      } else if e.pay == Unpaid {
        entries := entries[id := e.(status := Cancelled, pay := Failed)];
      } else {
        entries := entries[id := e.(status := Cancelled)];
      }
      if e.points > 0 {
        Refund(e.customer, e.points, id, CancelRefundPaid, 0);
      }
    }

    /** The transaction the cascade runs per booking, on the payment status it read before. */
    method CascadeOne(id: nat, read: PaymentStatus, q: real) returns (committed: bool)
      modifies this
      ensures Value() == CascadeCommit(old(Value()), id, read, q)
      ensures !committed ==> Value() == old(Value())
    {
      if id !in entries || !(entries[id].status == Pending || entries[id].status == Confirmed) {
        return false;
      }
      var e := entries[id];
      if read == Unpaid && e.pay != Unpaid {
        return false;
      }
      if read == Success {
        entries := entries[id := e.(status := Cancelled, pay := Refunded, refundAmount := Some(e.amount), rate := q)];
        var refundPoints := RefundPoints(e.amount, q);
        if refundPoints > 0 {
          Refund(e.customer, refundPoints, id, AdminRefundApproved, e.amount);
        }
      } else if read == Unpaid {
        entries := entries[id := e.(status := Cancelled, pay := Failed)];
      } else {
        entries := entries[id := e.(status := Cancelled)];
      }
      if e.points > 0 {
        Refund(e.customer, e.points, id, CancelRefundPaid, 0);
      }
      return true;
    }

    /** The vendor's or admin's decision on a queued refund; false when it is refused. */
    method RecordRefundDecision(id: nat, approve: Option<real>, admin: bool, q: real) returns (recorded: bool)
      modifies this
      ensures Value() == RefundDecision(old(Value()), id, approve, admin, q)
      ensures old(Right(Value())) ==> Right(Value())
      ensures !recorded ==> Value() == old(Value())
    {
      if old(Right(Value())) {
        DecisionKeepsRight(Value(), id, approve, admin, q);
      }
      if id !in entries || entries[id].status != Cancelled || entries[id].pay != RefundPending {
        return false;
      }
      var e := entries[id];
      if approve.None? {
        entries := entries[id := e.(pay := Rejected, refundAmount := None)];
        return true;
      }
      if approve.value < 0.0 || approve.value > e.amount as real {
        return false;
      }
      var finalAmount := Round(approve.value);
      entries := entries[id := e.(pay := Refunded, refundAmount := Some(finalAmount), rate := q)];
      var refundPoints := RefundPoints(finalAmount, q);
      if refundPoints > 0 {
        Refund(e.customer, refundPoints, id, if admin then AdminRefundApproved else VendorRefundApproved, finalAmount);
      }
      return true;
    }
  }
}
