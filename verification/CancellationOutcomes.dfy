/**
 * What each way of ending a booking does to its row and to the customer's points, in fields alone:
 * when it is refused, what is queued or credited, and what comes back.
 */
module CancellationOutcomes {
  import opened Common
  import opened Cancellations

  // ----- what is written down -----

  /** The ledger row that gives redeemed points back, if any were redeemed. */
  function PointsBack(id: nat, e: Entry, source: Source): seq<LedgerRow> {
    if e.points > 0 then [LedgerRow(id, e.customer, source, e.points, 0)] else []
  }

  /** The ledger row that credits `worth` hundredths for `cash` cents, if they are worth anything. */
  function CreditFor(id: nat, e: Entry, source: Source, worth: int, cash: int): seq<LedgerRow> {
    if worth > 0 then [LedgerRow(id, e.customer, source, worth, cash)] else []
  }

  // ----- the customer's cancel -----

  /** The booking can still be cancelled by its customer: neither over nor cancelled nor started. */
  predicate Cancellable(e: Entry, hoursUntilStart: real) {
    e.status != Cancelled && e.status != Completed && hoursUntilStart >= 0.0
  }

  lemma CancelIsRefusedExactly(b: Books, id: nat, t: Terms)
    requires id in b.entries && SaneStatus(b.entries[id])
    ensures CancelCall(b, id, t) == b <==> !Cancellable(b.entries[id], t.hoursUntilStart)
  {
  }

  /** The statuses a booking and its payment can have together before it ends. */
  predicate SaneStatus(e: Entry) {
    e.pay == Success || e.pay == Unpaid || e.status == Cancelled
  }

  /** The percentage a partial refund pays: the configured one, kept within 0..100. */
  predicate Share(t: Terms, percent: real) {
    percent == (if t.partialPercent < 0.0 then 0.0 else if t.partialPercent > 100.0 then 100.0 else t.partialPercent)
  }

  /**
   * A paid booking: the customer's cancel queues the whole amount for free cancellation in time, the
   * rounded share for a partial refund in time, and nothing for a non-refundable activity or after
   * the deadline. The redeemed points come back in every case.
   */
  lemma RefundFollowsTheTerms(b: Books, id: nat, t: Terms, percent: real, share: int)
    requires id in b.entries && b.entries[id].pay == Success && b.entries[id].amount > 0
    requires Cancellable(b.entries[id], t.hoursUntilStart)
    requires Share(t, percent) && Nearest(share, b.entries[id].amount as real * percent / 100.0)
    ensures var e, b' := b.entries[id], CancelCall(b, id, t);
            && id in b'.entries && BalanceOf(b', e.customer) == BalanceOf(b, e.customer) + e.points
            && b'.ledger == b.ledger + PointsBack(id, e, CancelRefundPaid)
            && b'.entries[id] == e.(status := Cancelled, pay := RefundPending,
                 refundAmount := if t.policy == NonRefundable || t.hoursUntilStart < t.deadlineHours then None
                                 else if t.policy == FreeCancellation then Some(e.amount)
                                 else if share > 0 then Some(share) else None)
  {
    var amount := b.entries[id].amount;
    SuggestionIsShare(amount, percent, share);
    SuggestionIsShare(amount, 100.0, amount);
  }

  lemma SuggestionIsShare(amount: nat, percent: real, share: int)
    requires 0.0 <= percent && Nearest(share, amount as real * percent / 100.0)
    ensures SuggestedRefund(amount, percent) == if share > 0 then Some(share) else None
  {
    NearestIsRound(share, amount as real * percent / 100.0);
    if percent == 0.0 {
      assert amount as real * percent / 100.0 == 0.0;
    }
  }

  /** What a cancel queues for the customer, nothing counting as 0. */
  function Queued(b: Books, id: nat): int {
    if id in b.entries && b.entries[id].refundAmount.Some? then b.entries[id].refundAmount.value else 0
  }

  /** Cancelling a paid booking earlier never queues less. */
  lemma EarlierNeverQueuesLess(b: Books, id: nat, early: Terms, late: Terms)
    requires id in b.entries && b.entries[id].pay == Success && b.entries[id].amount > 0
    requires Cancellable(b.entries[id], late.hoursUntilStart)
    requires early == late.(hoursUntilStart := early.hoursUntilStart) && early.hoursUntilStart >= late.hoursUntilStart
    ensures Queued(CancelCall(b, id, early), id) >= Queued(CancelCall(b, id, late), id) >= 0
  {
    var amount := b.entries[id].amount;
    var percent := if late.partialPercent < 0.0 then 0.0 else if late.partialPercent > 100.0 then 100.0 else late.partialPercent;
    var share := Round(amount as real * percent / 100.0);
    NearestIsRound(share, amount as real * percent / 100.0);
    RefundFollowsTheTerms(b, id, early, percent, share);
    RefundFollowsTheTerms(b, id, late, percent, share);
  }

  /**
   * Bookings without cash: one paid by points is refunded as it is, one at the gateway is closed with
   * its payment failed, one never sent there disappears. The points come back in every case.
   */
  lemma UnpaidCancels(b: Books, id: nat, t: Terms)
    requires id in b.entries && SaneStatus(b.entries[id]) && Cancellable(b.entries[id], t.hoursUntilStart)
    requires !(b.entries[id].pay == Success && b.entries[id].amount > 0)
    ensures var e, b' := b.entries[id], CancelCall(b, id, t);
            && BalanceOf(b', e.customer) == BalanceOf(b, e.customer) + e.points
            && b'.ledger == b.ledger + PointsBack(id, e, if e.pay == Success then CancelRefundPaid else CancelRefundUnpaid)
            && b'.entries == if e.pay == Success then b.entries[id := e.(status := Cancelled, pay := Refunded, refundAmount := Some(0))]
                             else if e.inFlight then b.entries[id := e.(status := Cancelled, pay := Failed)]
                             else b.entries - {id}
  {
  }

  // ----- cancels by the house -----

  /** `points` hundredths are what `amount` cents are worth at `q` QAR per point. */
  predicate WorthOf(points: int, amount: int, q: real) {
    if amount > 0 && q > 0.0 then Nearest(points, amount as real / q) else points == 0
  }

  lemma WorthIsRefundPoints(points: int, amount: int, q: real)
    ensures WorthOf(points, amount, q) <==> points == RefundPoints(amount, q)
    ensures RefundPoints(amount, q) >= 0
  {
    if amount > 0 && q > 0.0 {
      NearestIsRound(points, amount as real / q);
      QuotientNonNegative(amount as real, q);
      RoundMonotone(amount as real / q, 0);
    }
  }

  /** The admin's cancel: a paid booking is refunded in full, in points; redeemed points come back. */
  lemma AdminCancelOutcome(b: Books, id: nat, q: real, worth: int)
    requires id in b.entries && WorthOf(worth, b.entries[id].amount, q)
    ensures var e, b' := b.entries[id], AdminCancel(b, id, q);
            if e.status == Cancelled then b' == b
            else
              && b'.entries == b.entries[id :=
                   if e.pay == Success then e.(status := Cancelled, pay := Refunded, refundAmount := Some(e.amount), rate := q)
                   else if e.pay == Unpaid then e.(status := Cancelled, pay := Failed) else e.(status := Cancelled)]
              && BalanceOf(b', e.customer) == BalanceOf(b, e.customer) + e.points + (if e.pay == Success then worth else 0)
              && b'.ledger == b.ledger + (if e.pay == Success then CreditFor(id, e, AdminRefundApproved, worth, e.amount) else [])
                                       + PointsBack(id, e, CancelRefundPaid)
  {
    WorthIsRefundPoints(worth, b.entries[id].amount, q);
  }

  /** The cascade: as the payment status read before says, and only bookings that are still open. */
  lemma CascadeOutcome(b: Books, id: nat, read: PaymentStatus, q: real, worth: int)
    requires id in b.entries && WorthOf(worth, b.entries[id].amount, q)
    ensures var e, b' := b.entries[id], CascadeCommit(b, id, read, q);
            if e.status in {Completed, Cancelled} || (read == Unpaid && e.pay != Unpaid) then b' == b
            else
              && b'.entries == b.entries[id :=
                   if read == Success then e.(status := Cancelled, pay := Refunded, refundAmount := Some(e.amount), rate := q)
                   else if read == Unpaid then e.(status := Cancelled, pay := Failed) else e.(status := Cancelled)]
              && BalanceOf(b', e.customer) == BalanceOf(b, e.customer) + e.points + (if read == Success then worth else 0)
              && b'.ledger == b.ledger + (if read == Success then CreditFor(id, e, AdminRefundApproved, worth, e.amount) else [])
                                       + PointsBack(id, e, CancelRefundPaid)
  {
    WorthIsRefundPoints(worth, b.entries[id].amount, q);
  }

  /** A stranded refund request is approved in full, once. */
  lemma ResolveOutcome(b: Books, id: nat, q: real, worth: int)
    requires id in b.entries && WorthOf(worth, b.entries[id].amount, q)
    ensures var e, b' := b.entries[id], ResolvePending(b, id, q);
            if e.pay != RefundPending then b' == b
            else
              && b'.entries == b.entries[id := e.(pay := Refunded, refundAmount := Some(e.amount), rate := q)]
              && BalanceOf(b', e.customer) == BalanceOf(b, e.customer) + worth
              && b'.ledger == b.ledger + CreditFor(id, e, AdminRefundApproved, worth, e.amount)
  {
    WorthIsRefundPoints(worth, b.entries[id].amount, q);
  }

  // ----- refund decisions -----

  /** A rejection closes the request and credits nothing. */
  lemma RejectionOutcome(b: Books, id: nat, admin: bool, q: real)
    requires id in b.entries
    ensures var e, b' := b.entries[id], RefundDecision(b, id, None, admin, q);
            b' == if e.status == Cancelled && e.pay == RefundPending
                  then b.(entries := b.entries[id := e.(pay := Rejected, refundAmount := None)]) else b
  {
  }

  /** An approval is refused outside 0..what was paid, and otherwise credits its amount, rounded to cents, in points. */
  lemma ApprovalOutcome(b: Books, id: nat, amount: real, admin: bool, q: real, cents: int, worth: int)
    requires id in b.entries && Nearest(cents, amount) && WorthOf(worth, cents, q)
    ensures var e, b' := b.entries[id], RefundDecision(b, id, Some(amount), admin, q);
            if e.status != Cancelled || e.pay != RefundPending || amount < 0.0 || amount > e.amount as real then b' == b
            else
              && b'.entries == b.entries[id := e.(pay := Refunded, refundAmount := Some(cents), rate := q)]
              && BalanceOf(b', e.customer) == BalanceOf(b, e.customer) + worth
              && b'.ledger == b.ledger + CreditFor(id, e, if admin then AdminRefundApproved else VendorRefundApproved, worth, cents)
  {
    NearestIsRound(cents, amount);
    WorthIsRefundPoints(worth, cents, q);
  }

  // ----- booking, checkout, capture -----

  /** Booking takes the points or nothing happens; without cash due it is confirmed and paid at once. */
  lemma BookingOutcome(b: Books, customer: nat, points: nat, amount: nat)
    requires b.next !in b.entries
    ensures var b' := Create(b, customer, points, amount);
            if BalanceOf(b, customer) < points then b' == b
            else
              && BalanceOf(b', customer) == BalanceOf(b, customer) - points && b'.next == b.next + 1
              && b'.ledger == b.ledger + (if points > 0 then [LedgerRow(b.next, customer, BookingRedeem, 0 - points, 0)] else [])
              && b'.entries == b.entries[b.next := Entry(customer, if amount == 0 then Confirmed else Pending,
                                                         if amount == 0 then Success else Unpaid, amount, false, points, None, 0.0)]
  {
  }

  /** Going to the gateway marks an unpaid row and opens a session for its amount. */
  lemma CheckoutOutcome(b: Books, id: nat)
    requires id in b.entries
    ensures var e := b.entries[id];
            OpenCheckout(b, id)
            == (if e.pay == Unpaid
                then b.(entries := b.entries[id := e.(inFlight := true)], sessions := b.sessions[id := e.amount]) else b)
  {
  }

  /**
   * The gateway takes an open session's money once: a pending payment is confirmed, one failed by a
   * cancel has its full refund queued, and for a row that is gone nothing is left to confirm.
   */
  lemma CaptureOutcome(b: Books, id: nat)
    requires id in b.sessions
    ensures var taken := b.(captured := b.captured[id := b.sessions[id]], sessions := b.sessions - {id});
            Capture(b, id)
            == (if id !in b.entries then taken
                else if b.entries[id].pay == Unpaid
                then taken.(entries := b.entries[id := b.entries[id].(pay := Success, status := Confirmed)])
                else if b.entries[id].pay == Failed
                then taken.(entries := b.entries[id := b.entries[id].(pay := RefundPending, refundAmount := Some(b.entries[id].amount))])
                else b)
  {
  }

  /** Only a confirmed booking is completed. */
  lemma CompletionOutcome(b: Books, id: nat)
    requires id in b.entries
    ensures Complete(b, id)
         == if b.entries[id].status == Confirmed then b.(entries := b.entries[id := b.entries[id].(status := Completed)]) else b
  {
  }

  /** Points from elsewhere raise the balance and are written down. */
  lemma GrantOutcome(b: Books, customer: nat, points: nat)
    ensures var b' := Grant(b, customer, points);
            && BalanceOf(b', customer) == BalanceOf(b, customer) + points && b'.entries == b.entries
            && b'.ledger == b.ledger + (if points > 0 then [LedgerRow(b.next, customer, Granted, points, 0)] else [])
  {
  }
}
