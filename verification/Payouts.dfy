/**
 * Vendor payouts: requests (PENDING, APPROVED, REJECTED, COMPLETED) that lock payments, and the
 * payments' own UNPAID/PAID flag. The two must never disagree about money that left the bank.
 */
module Payouts {
  import opened Common

  /** A payment row, in order of creation; `share` is the vendor's part in cents. */
  datatype Payment = Payment(vendor: nat, share: int, success: bool, paid: bool, end: int)

  datatype RequestStatus = Pending | Approved | Rejected | Completed

  datatype Request = Request(vendor: nat, amount: int, status: RequestStatus, ids: seq<int>)

  datatype State = State(payments: seq<Payment>, requests: map<nat, Request>, next: nat)

  predicate InFlight(r: Request) {
    r.status == Pending || r.status == Approved
  }

  predicate Locks(r: Request) {
    r.status == Approved || r.status == Completed
  }

  predicate Settleable(s: State, p: int) {
    0 <= p < |s.payments| && s.payments[p].success && !s.payments[p].paid
  }

  /** Payable now: settled, not paid out, and the activity over for long enough. */
  predicate Eligible(s: State, vendor: nat, cutoff: int, p: int) {
    Settleable(s, p) && s.payments[p].vendor == vendor && s.payments[p].end < cutoff
  }

  /** The eligible payments among the first n, oldest first. */
  function EligibleIds(s: State, vendor: nat, cutoff: int, n: nat): seq<int> {
    if n == 0 then []
    else EligibleIds(s, vendor, cutoff, n - 1) + if Eligible(s, vendor, cutoff, n - 1) then [n - 1] else []
  }

  function Share(payments: seq<Payment>): int -> int {
    (p: int) => if 0 <= p < |payments| then payments[p].share else 0
  }

  function Total(s: State, ids: seq<int>): int {
    Sum(ids, Share(s.payments))
  }

  function HasShare(payments: seq<Payment>): int -> bool {
    (p: int) => Share(payments)(p) > 0
  }

  /** The queue an approval draws from: eligible payments with something to pay, oldest first. */
  function Queue(s: State, vendor: nat, cutoff: int): seq<int> {
    Filter(EligibleIds(s, vendor, cutoff, |s.payments|), HasShare(s.payments))
  }

  /** How many of `queue` it takes to reach `requested` (all of them if they never do). */
  function Needed(s: State, queue: seq<int>, requested: int): (n: nat)
    ensures n <= |queue|
  {
    if queue == [] || requested <= 0 then 0 else 1 + Needed(s, queue[1..], requested - Share(s.payments)(queue[0]))
  }

  function LockSet(s: State, vendor: nat, cutoff: int, requested: int): seq<int> {
    var q := Queue(s, vendor, cutoff);
    q[..Needed(s, q, requested)]
  }

  lemma TotalHead(s: State, ids: seq<int>)
    requires ids != []
    ensures Total(s, ids) == Share(s.payments)(ids[0]) + Total(s, ids[1..])
  {
    assert ids == [ids[0]] + ids[1..];
    SumConcat([ids[0]], ids[1..], Share(s.payments));
    assert [ids[0]][..0] == [];
  }

  // ----- the steps -----

  datatype Decision = Approve | Reject | Finish

  datatype Action =
    | NewPayment(vendor: nat, share: int, end: int)
    | Refund(p: int)
    | File(vendor: nat, cutoff: int, minimum: int)
    | Process(id: nat, decision: Decision, cutoff: int)
    | Revert(id: nat, target: RequestStatus)
    | Delete(id: nat)
    | MarkPaid(ids: seq<int>, cutoff: int, suspended: set<nat>)
    | MarkUnpaid(p: int)

  function PutRequest(s: State, id: nat, r: Request): State {
    s.(requests := s.requests[id := r])
  }

  predicate VendorBusy(s: State, vendor: nat, except: Option<nat>) {
    exists id :: id in s.requests && Some(id) != except && s.requests[id].vendor == vendor && InFlight(s.requests[id])
  }

  predicate LockedBy(s: State, p: int, status: RequestStatus) {
    exists id :: id in s.requests && s.requests[id].status == status && p in s.requests[id].ids
  }

  function Unlocked(s: State): int -> bool {
    (p: int) => !LockedBy(s, p, Approved) && !LockedBy(s, p, Completed)
  }

  /** What a vendor may ask for: eligible money no request has locked. */
  function Available(s: State, vendor: nat, cutoff: int): int {
    Max(0, Total(s, Filter(EligibleIds(s, vendor, cutoff, |s.payments|), Unlocked(s))))
  }

  function FileStep(s: State, vendor: nat, cutoff: int, minimum: int): State {
    var available := Available(s, vendor, cutoff);
    if VendorBusy(s, vendor, None) || available <= 0 || available < minimum then s
    else PutRequest(s, s.next, Request(vendor, available, Pending, [])).(next := s.next + 1)
  }

  function ApproveStep(s: State, id: nat, cutoff: int): State
    requires id in s.requests
  {
    var r := s.requests[id];
    var ids := LockSet(s, r.vendor, cutoff, r.amount);
    if Total(s, ids) <= 0 then s
    else PutRequest(s, id, r.(status := Approved, amount := Min(r.amount, Total(s, ids)), ids := ids))
  }

  function FinishStep(s: State, id: nat): State
    requires id in s.requests
  {
    var r := s.requests[id];
    if r.ids == [] then s
    else if forall p | p in r.ids :: Settleable(s, p) then PutRequest(s, id, r.(status := Completed))
    else PutRequest(s, id, r.(status := Pending, ids := []))
  }

  /** The write of a rejection; it does not look at the status again. */
  function RejectWrite(s: State, id: nat): State
    requires id in s.requests
  {
    PutRequest(s, id, s.requests[id].(status := Rejected))
  }

  function ProcessStep(s: State, id: nat, decision: Decision, cutoff: int): State {
    if id !in s.requests then s
    else match (s.requests[id].status, decision)
      case (Pending, Approve) => ApproveStep(s, id, cutoff)
      case (Pending, Reject) => RejectWrite(s, id)
      case (Approved, Finish) => FinishStep(s, id)
      case _ => s
  }

  predicate MayRevert(status: RequestStatus, target: RequestStatus) {
    match status
    case Approved => target == Pending
    case Completed => target == Pending || target == Approved
    case Rejected => target == Pending
    case Pending => false
  }

  function RevertStep(s: State, id: nat, target: RequestStatus): State {
    if id !in s.requests || !MayRevert(s.requests[id].status, target) || VendorBusy(s, s.requests[id].vendor, Some(id)) then s
    else
      var r := s.requests[id];
      if r.status == Completed && exists p :: p in r.ids && !Settleable(s, p) then s
      else PutRequest(s, id, r.(status := target, ids := if target == Pending then [] else r.ids))
  }

  /** A payment an unresolved request claims: every payment of a vendor with a PENDING one, or locked. */
  predicate Blocked(s: State, p: int) {
    0 <= p < |s.payments|
    && exists id :: id in s.requests && s.requests[id].vendor == s.payments[p].vendor
         && (s.requests[id].status == Pending || (s.requests[id].status == Approved && p in s.requests[id].ids))
  }

  function SetPaid(s: State, ids: seq<int>, cutoff: int): seq<Payment> {
    seq(|s.payments|, p requires 0 <= p < |s.payments| =>
      if p in ids && Settleable(s, p) && s.payments[p].end < cutoff then s.payments[p].(paid := true) else s.payments[p])
  }

  /** The batch is refused for this payment: its vendor is suspended, a request claims it, or it is in escrow. */
  predicate Refused(s: State, p: int, cutoff: int, suspended: set<nat>) {
    || (0 <= p < |s.payments| && s.payments[p].vendor in suspended)
    || Blocked(s, p)
    || (Settleable(s, p) && s.payments[p].end >= cutoff)
  }

  function MarkPaidStep(s: State, ids: seq<int>, cutoff: int, suspended: set<nat>): State {
    if exists p :: p in ids && Refused(s, p, cutoff, suspended) then s
    else s.(payments := SetPaid(s, ids, cutoff))
  }

  function MarkUnpaidStep(s: State, p: int): State {
    if 0 <= p < |s.payments| && s.payments[p].success && s.payments[p].paid && Unlocked(s)(p)
    then s.(payments := s.payments[p := s.payments[p].(paid := false)]) else s
  }

  function Step(s: State, act: Action): State {
    match act
    case NewPayment(vendor, share, end) => s.(payments := s.payments + [Payment(vendor, share, true, false, end)])
    case Refund(p) => if 0 <= p < |s.payments| then s.(payments := s.payments[p := s.payments[p].(success := false)]) else s
    case File(vendor, cutoff, minimum) => FileStep(s, vendor, cutoff, minimum)
    case Process(id, decision, cutoff) => ProcessStep(s, id, decision, cutoff)
    case Revert(id, target) => RevertStep(s, id, target)
    case Delete(id) => if id in s.requests && s.requests[id].status == Rejected then s.(requests := s.requests - {id}) else s
    case MarkPaid(ids, cutoff, suspended) => MarkPaidStep(s, ids, cutoff, suspended)
    case MarkUnpaid(p) => MarkUnpaidStep(s, p)
  }

  function Run(s: State, acts: seq<Action>): State {
    if acts == [] then s else Step(Run(s, acts[..|acts| - 1]), acts[|acts| - 1])
  }

  // ----- approval locks the shortest sufficient prefix of the queue -----

  lemma {:induction false} EligibleIdsMembers(s: State, vendor: nat, cutoff: int, n: nat)
    ensures forall p :: p in EligibleIds(s, vendor, cutoff, n) <==> p < n && Eligible(s, vendor, cutoff, p)
    ensures forall i, j | 0 <= i < j < |EligibleIds(s, vendor, cutoff, n)| ::
              EligibleIds(s, vendor, cutoff, n)[i] < EligibleIds(s, vendor, cutoff, n)[j]
  {
    if n > 0 {
      EligibleIdsMembers(s, vendor, cutoff, n - 1);
      var ids := EligibleIds(s, vendor, cutoff, n - 1);
      forall i | 0 <= i < |ids| ensures ids[i] < n - 1 {
        assert ids[i] in ids;
      }
    }
  }

  lemma {:induction false} NeededIsShortest(s: State, queue: seq<int>, requested: int)
    requires forall p | p in queue :: HasShare(s.payments)(p)
    ensures var k := Needed(s, queue, requested);
            && k <= |queue|
            && (forall j | 0 <= j < k :: Total(s, queue[..j]) < requested)
            && (Total(s, queue[..k]) >= requested || k == |queue|)
  {
    if queue != [] && requested > 0 {
      var rest, left := queue[1..], requested - Share(s.payments)(queue[0]);
      NeededIsShortest(s, rest, left);
      var k := Needed(s, queue, requested);
      forall j | 1 <= j <= |queue| ensures Total(s, queue[..j]) == Share(s.payments)(queue[0]) + Total(s, rest[..j - 1]) {
        TotalHead(s, queue[..j]);
        assert queue[..j][1..] == rest[..j - 1];
      }
      forall j | 0 <= j < k ensures Total(s, queue[..j]) < requested {
        if j > 0 {
          assert Total(s, rest[..j - 1]) < left;
        }
      }
      assert Total(s, rest[..k - 1]) >= left || k == |queue|;
    }
  }

  lemma {:induction false} TotalGrows(s: State, queue: seq<int>, i: nat, j: nat)
    requires i <= j <= |queue| && forall p | p in queue :: HasShare(s.payments)(p)
    ensures Total(s, queue[..i]) + (j - i) <= Total(s, queue[..j])
  {
    if i < j {
      TotalGrows(s, queue, i, j - 1);
      assert queue[..j] == queue[..j - 1] + [queue[j - 1]];
      SumAppend(queue[..j - 1], queue[j - 1], Share(s.payments));
      assert queue[j - 1] in queue;
    }
  }

  /**
   * An approval locks exactly the shortest prefix of the queue whose shares reach the requested
   * amount, or the whole queue; the approved amount is the smaller of the requested one and the
   * locked total, and it is a reduction exactly when the whole queue falls short.
   */
  lemma ApprovalLocksShortestPrefix(s: State, id: nat, cutoff: int)
    requires id in s.requests && s.requests[id].status == Pending
    requires ApproveStep(s, id, cutoff) != s
    ensures var r, r' := s.requests[id], ApproveStep(s, id, cutoff).requests[id];
            var q := Queue(s, r.vendor, cutoff);
            && r'.status == Approved && r'.ids <= q && r'.ids != []
            && (forall j | 0 <= j < |r'.ids| :: Total(s, q[..j]) < r.amount)
            && (Total(s, r'.ids) >= r.amount || r'.ids == q)
            && r'.amount == Min(r.amount, Total(s, r'.ids)) > 0
            && (r'.amount < r.amount <==> Total(s, q) < r.amount)
  {
    var r := s.requests[id];
    var q := Queue(s, r.vendor, cutoff);
    FilterMembers(EligibleIds(s, r.vendor, cutoff, |s.payments|), HasShare(s.payments));
    NeededIsShortest(s, q, r.amount);
    var k := Needed(s, q, r.amount);
    TotalGrows(s, q, k, |q|);
    assert q[..|q|] == q;
    assert r.amount > 0 by {
      assert q[..0] == [];
    }
  }

  /**
   * An approval pays exactly what it locks when the requested amount is the total of some prefix of
   * the queue or at least that of the whole queue; otherwise it settles payments for less.
   */
  lemma ApprovalPaysWhatItLocksExactly(s: State, id: nat, cutoff: int)
    requires id in s.requests && s.requests[id].status == Pending
    requires ApproveStep(s, id, cutoff) != s
    ensures var r, r' := s.requests[id], ApproveStep(s, id, cutoff).requests[id];
            var q := Queue(s, r.vendor, cutoff);
            r'.amount == Total(s, r'.ids) <==>
              (r.amount >= Total(s, q) || exists j :: 0 <= j <= |q| && Total(s, q[..j]) == r.amount)
  {
    var r, r' := s.requests[id], ApproveStep(s, id, cutoff).requests[id];
    var q, k := Queue(s, r.vendor, cutoff), |r'.ids|;
    ApprovalLocksShortestPrefix(s, id, cutoff);
    FilterMembers(EligibleIds(s, r.vendor, cutoff, |s.payments|), HasShare(s.payments));
    assert r'.ids == q[..k] && q[..|q|] == q;
    TotalGrows(s, q, k, |q|);
    if j :| 0 <= j <= |q| && Total(s, q[..j]) == r.amount {
      assert k <= j;
      TotalGrows(s, q, k, j);
    }
  }

  /** Nothing to approve exactly when nothing was asked for or the queue is empty. */
  lemma ApprovalRefused(s: State, id: nat, cutoff: int)
    requires id in s.requests && s.requests[id].status == Pending
    ensures ApproveStep(s, id, cutoff) == s <==>
            s.requests[id].amount <= 0 || Queue(s, s.requests[id].vendor, cutoff) == []
  {
    var r := s.requests[id];
    var q := Queue(s, r.vendor, cutoff);
    FilterMembers(EligibleIds(s, r.vendor, cutoff, |s.payments|), HasShare(s.payments));
    NeededIsShortest(s, q, r.amount);
    TotalGrows(s, q, 0, Needed(s, q, r.amount));
    assert q[..0] == [];
  }

  // ----- requests and payments never disagree -----

  ghost predicate RequestSound(s: State, r: Request) {
    && (if Locks(r) then r.ids != [] else r.ids == [])
    && (forall i, j | 0 <= i < j < |r.ids| :: r.ids[i] != r.ids[j])
    && (forall p | p in r.ids :: 0 <= p < |s.payments| && s.payments[p].vendor == r.vendor)
    && (r.status == Approved ==> forall p | p in r.ids :: !s.payments[p].paid)
    && (Locks(r) ==> 0 < r.amount <= Total(s, r.ids))
  }

  /**
   * PENDING and REJECTED requests lock nothing, APPROVED and COMPLETED ones a non-empty set of
   * their vendor's payments worth at least the amount granted, nothing under an APPROVED request is
   * PAID, and a vendor has at most one request in flight.
   */
  ghost predicate Sound(s: State) {
    && (forall id | id in s.requests :: id < s.next && RequestSound(s, s.requests[id]))
    && (forall i, j | i in s.requests && j in s.requests && i != j && InFlight(s.requests[i]) && InFlight(s.requests[j]) ::
          s.requests[i].vendor != s.requests[j].vendor)
  }

  /** Payments may change as long as none is lost, moves to another vendor or is paid while approved. */
  lemma PaymentsChange(s: State, s': State)
    requires Sound(s) && s'.requests == s.requests && s'.next == s.next && |s.payments| <= |s'.payments|
    requires forall p | 0 <= p < |s.payments| :: SameOwner(s.payments[p], s'.payments[p])
    requires forall p | 0 <= p < |s.payments| && s'.payments[p].paid && !s.payments[p].paid :: !LockedBy(s, p, Approved)
    ensures Sound(s')
  {
    forall id | id in s'.requests ensures RequestSound(s', s'.requests[id]) {
      SumSame(s.requests[id].ids, Share(s'.payments), Share(s.payments));
    }
  }

  /** The vendor and the share of a payment never change. */
  predicate SameOwner(x: Payment, y: Payment) {
    x.vendor == y.vendor && x.share == y.share
  }

  lemma LockSetFacts(s: State, vendor: nat, cutoff: int, requested: int)
    ensures var ids := LockSet(s, vendor, cutoff, requested);
            && (forall i, j | 0 <= i < j < |ids| :: ids[i] != ids[j])
            && (forall p | p in ids :: Eligible(s, vendor, cutoff, p))
  {
    EligibleIdsMembers(s, vendor, cutoff, |s.payments|);
    FilterMembers(EligibleIds(s, vendor, cutoff, |s.payments|), HasShare(s.payments));
    QueueDistinct(s, vendor, cutoff);
    var q, ids := Queue(s, vendor, cutoff), LockSet(s, vendor, cutoff, requested);
    forall p | p in ids ensures Eligible(s, vendor, cutoff, p) {
      assert p in q;
    }
  }

  function Itself(): int -> int {
    (p: int) => p
  }

  /** Rewriting one request soundly, with nobody else of the vendor in flight if it is. */
  lemma RequestChange(s: State, id: nat, r: Request)
    requires Sound(s) && id in s.requests && r.vendor == s.requests[id].vendor && RequestSound(s, r)
    requires InFlight(r) ==> InFlight(s.requests[id]) || !VendorBusy(s, r.vendor, Some(id))
    ensures Sound(PutRequest(s, id, r))
  {
    var s' := PutRequest(s, id, r);
    forall i, j | i in s'.requests && j in s'.requests && i != j && InFlight(s'.requests[i]) && InFlight(s'.requests[j])
      ensures s'.requests[i].vendor != s'.requests[j].vendor
    {
      assert Some(i) != Some(j);
    }
  }

  lemma ApproveKeepsSound(s: State, id: nat, cutoff: int)
    requires Sound(s) && id in s.requests && s.requests[id].status == Pending
    ensures Sound(ApproveStep(s, id, cutoff))
  {
    var r := s.requests[id];
    var ids := LockSet(s, r.vendor, cutoff, r.amount);
    LockSetFacts(s, r.vendor, cutoff, r.amount);
    if Total(s, ids) > 0 {
      RequestChange(s, id, r.(status := Approved, amount := Min(r.amount, Total(s, ids)), ids := ids));
    }
  }

  lemma ProcessKeepsSound(s: State, id: nat, decision: Decision, cutoff: int)
    requires Sound(s)
    ensures Sound(ProcessStep(s, id, decision, cutoff))
  {
    if id in s.requests {
      var r := s.requests[id];
      match (r.status, decision)
      case (Pending, Approve) => ApproveKeepsSound(s, id, cutoff);
      case (Pending, Reject) => RequestChange(s, id, r.(status := Rejected));
      case (Approved, Finish) =>
        RequestChange(s, id, r.(status := Completed));
        RequestChange(s, id, r.(status := Pending, ids := []));
      case _ =>
    }
  }

  lemma RevertKeepsSound(s: State, id: nat, target: RequestStatus)
    requires Sound(s)
    ensures Sound(RevertStep(s, id, target))
  {
    if RevertStep(s, id, target) != s {
      var r := s.requests[id];
      RequestChange(s, id, r.(status := target, ids := if target == Pending then [] else r.ids));
    }
  }

  lemma FileKeepsSound(s: State, vendor: nat, cutoff: int, minimum: int)
    requires Sound(s)
    ensures Sound(FileStep(s, vendor, cutoff, minimum))
  {
    var s' := FileStep(s, vendor, cutoff, minimum);
    forall id | id in s'.requests ensures id < s'.next && RequestSound(s', s'.requests[id]) {
      assert id in s.requests ==> RequestSound(s, s.requests[id]);
    }
    forall i, j | i in s'.requests && j in s'.requests && i != j && InFlight(s'.requests[i]) && InFlight(s'.requests[j])
      ensures s'.requests[i].vendor != s'.requests[j].vendor
    {
      assert Some(i) != None && Some(j) != None;
    }
  }

  lemma StepKeepsSound(s: State, act: Action)
    requires Sound(s)
    ensures Sound(Step(s, act))
  {
    match act
    case NewPayment(vendor, share, end) => PaymentsChange(s, Step(s, act));
    case Refund(p) => PaymentsChange(s, Step(s, act));
    case File(vendor, cutoff, minimum) => FileKeepsSound(s, vendor, cutoff, minimum);
    case Process(id, decision, cutoff) => ProcessKeepsSound(s, id, decision, cutoff);
    case Revert(id, target) => RevertKeepsSound(s, id, target);
    case Delete(id) =>
    case MarkPaid(ids, cutoff, suspended) => MarkPaidKeepsSound(s, ids, cutoff, suspended);
    case MarkUnpaid(p) => PaymentsChange(s, Step(s, act));
  }

  lemma MarkPaidKeepsSound(s: State, ids: seq<int>, cutoff: int, suspended: set<nat>)
    requires Sound(s)
    ensures Sound(MarkPaidStep(s, ids, cutoff, suspended))
  {
    var s' := MarkPaidStep(s, ids, cutoff, suspended);
    forall p | 0 <= p < |s.payments| && s'.payments[p].paid && !s.payments[p].paid ensures !LockedBy(s, p, Approved) {
      assert p in ids && !Refused(s, p, cutoff, suspended);
    }
    PaymentsChange(s, s');
  }

  /** Over every run requests and payments stay in step. */
  lemma {:induction false} RunsKeepSound(s: State, acts: seq<Action>)
    requires Sound(s)
    ensures Sound(Run(s, acts))
  {
    if acts != [] {
      RunsKeepSound(s, acts[..|acts| - 1]);
      StepKeepsSound(Run(s, acts[..|acts| - 1]), acts[|acts| - 1]);
    }
  }

  /** Money out of the bank under a closed request. */
  predicate SettledUnder(s: State, id: nat, p: int) {
    && id in s.requests && s.requests[id].status == Completed && p in s.requests[id].ids
    && 0 <= p < |s.payments| && s.payments[p].paid
  }

  /** A payment PAID under a COMPLETED request stays PAID, and the request stays COMPLETED, for good. */
  lemma {:induction false} PaidUnderCompletedStays(s: State, acts: seq<Action>, id: nat, p: int)
    requires Sound(s) && SettledUnder(s, id, p)
    ensures SettledUnder(Run(s, acts), id, p)
    ensures Run(s, acts).requests[id] == s.requests[id]
  {
    if acts != [] {
      var m, act := Run(s, acts[..|acts| - 1]), acts[|acts| - 1];
      PaidUnderCompletedStays(s, acts[..|acts| - 1], id, p);
      RunsKeepSound(s, acts[..|acts| - 1]);
      StepKeepsSettled(m, act, id, p);
    }
  }

  lemma StepKeepsSettled(s: State, act: Action, id: nat, p: int)
    requires Sound(s) && SettledUnder(s, id, p)
    ensures SettledUnder(Step(s, act), id, p) && Step(s, act).requests[id] == s.requests[id]
  {
    assert LockedBy(s, p, Completed);
    if act.Revert? && act.id == id {
      assert p in s.requests[id].ids && !Settleable(s, p);
    }
  }

  /**
   * A rejection checks the status and writes it in two steps, so another admin can approve in
   * between. The late write keeps requests and payments in agreement exactly when the request
   * has not been given payments to lock in the meantime.
   */
  lemma StaleRejectKeepsSoundExactly(s: State, id: nat)
    requires Sound(s) && id in s.requests
    ensures Sound(RejectWrite(s, id)) <==> !Locks(s.requests[id])
  {
    var s' := RejectWrite(s, id);
    if Locks(s.requests[id]) {
      assert !RequestSound(s', s'.requests[id]);
    } else {
      RequestChange(s, id, s'.requests[id]);
    }
  }

  // ----- calls whose check and write are apart -----

  /** A call that has checked and not yet written. Each remembers what its write will use. */
  datatype Write =
    | RejectLater(id: nat)
    | RevertLater(id: nat, seen: RequestStatus, target: RequestStatus)
    | ApproveLater(id: nat, vendor: nat, ids: seq<int>, amount: int)
    | MarkLater(ids: seq<int>, cutoff: int)
    | UnmarkLater(p: int)
    | FinishLater(id: nat, complete: bool)

  datatype Desk = Desk(state: State, open: seq<Write>)

  datatype Event =
    | Whole(act: Action)
    | CheckReject(id: nat)
    | CheckRevert(id: nat, target: RequestStatus)
    | CheckApprove(id: nat, cutoff: int)
    | CheckMark(ids: seq<int>, cutoff: int, suspended: set<nat>)
    | CheckUnmark(p: int)
    | CheckFinish(id: nat)
    | Commit(k: nat)

  /** The checks of a reversal. */
  predicate RevertPasses(s: State, id: nat, target: RequestStatus) {
    && id in s.requests && MayRevert(s.requests[id].status, target)
    && !VendorBusy(s, s.requests[id].vendor, Some(id))
    && (s.requests[id].status == Completed ==> forall p | p in s.requests[id].ids :: Settleable(s, p))
  }

  /** The payment is settled and PAID: what an unmark compares and sets. */
  predicate PaidOut(s: State, p: int) {
    0 <= p < |s.payments| && s.payments[p].success && s.payments[p].paid
  }

  /** What a check leaves to write, if it passes. */
  function Checked(s: State, e: Event): seq<Write> {
    match e
    case CheckReject(id) => if id in s.requests && s.requests[id].status == Pending then [RejectLater(id)] else []
    case CheckRevert(id, target) => if RevertPasses(s, id, target) then [RevertLater(id, s.requests[id].status, target)] else []
    case CheckApprove(id, cutoff) =>
      if id in s.requests && s.requests[id].status == Pending then
        var r := s.requests[id];
        var ids := LockSet(s, r.vendor, cutoff, r.amount);
        if Total(s, ids) > 0 then [ApproveLater(id, r.vendor, ids, Min(r.amount, Total(s, ids)))] else []
      else []
    case CheckMark(ids, cutoff, suspended) =>
      if exists p :: p in ids && Refused(s, p, cutoff, suspended) then [] else [MarkLater(ids, cutoff)]
    case CheckUnmark(p) => if PaidOut(s, p) && Unlocked(s)(p) then [UnmarkLater(p)] else []
    case CheckFinish(id) =>
      if id in s.requests && s.requests[id].status == Approved && s.requests[id].ids != []
      then [FinishLater(id, forall p | p in s.requests[id].ids :: Settleable(s, p))] else []
    case _ => []
  }

  /** The writes: all but a rejection compare-and-set the status they saw, and nothing else. */
  function Apply(s: State, w: Write): State {
    match w
    case RejectLater(id) => if id in s.requests then RejectWrite(s, id) else s
    case RevertLater(id, seen, target) =>
      if id in s.requests && s.requests[id].status == seen
      then PutRequest(s, id, s.requests[id].(status := target, ids := if target == Pending then [] else s.requests[id].ids)) else s
    case ApproveLater(id, vendor, ids, amount) =>
      if id in s.requests && s.requests[id].status == Pending
      then PutRequest(s, id, s.requests[id].(status := Approved, amount := amount, ids := ids)) else s
    case MarkLater(ids, cutoff) => s.(payments := SetPaid(s, ids, cutoff))
    case UnmarkLater(p) => if PaidOut(s, p) then s.(payments := s.payments[p := s.payments[p].(paid := false)]) else s
    case FinishLater(id, complete) =>
      if id in s.requests && s.requests[id].status == Approved
      then PutRequest(s, id, if complete then s.requests[id].(status := Completed) else s.requests[id].(status := Pending, ids := [])) else s
  }

  function DeskStep(d: Desk, e: Event): Desk {
    match e
    case Whole(act) => Desk(Step(d.state, act), d.open)
    case Commit(k) => if k < |d.open| then Desk(Apply(d.state, d.open[k]), d.open[..k] + d.open[k + 1..]) else d
    case _ => Desk(d.state, d.open + Checked(d.state, e))
  }

  function DeskRun(d: Desk, es: seq<Event>): Desk {
    if es == [] then d else DeskStep(DeskRun(d, es[..|es| - 1]), es[|es| - 1])
  }

  /** What a check guarantees its write for good: vendors, shares and ids never change. */
  ghost predicate Holds(s: State, w: Write) {
    match w
    case RevertLater(id, seen, target) => MayRevert(seen, target)
    case ApproveLater(id, vendor, ids, amount) =>
      && id < s.next && (id in s.requests ==> s.requests[id].vendor == vendor)
      && ids != [] && (forall i, j | 0 <= i < j < |ids| :: ids[i] != ids[j])
      && (forall p | p in ids :: 0 <= p < |s.payments| && s.payments[p].vendor == vendor)
      && 0 < amount <= Total(s, ids)
    case _ => true
  }

  /**
   * When the write still fits what has happened since the check: a rejected request has locked
   * nothing by now; a reversal finds the vendor free and, if it locks again, nothing paid; an
   * approval finds its payments unpaid; no payment marked is locked by an approval.
   */
  predicate Fits(s: State, w: Write) {
    match w
    case RejectLater(id) => id in s.requests ==> !Locks(s.requests[id])
    case RevertLater(id, seen, target) =>
      id in s.requests && s.requests[id].status == seen ==>
        && !VendorBusy(s, s.requests[id].vendor, Some(id))
        && (target == Approved ==> forall p | p in s.requests[id].ids && 0 <= p < |s.payments| :: !s.payments[p].paid)
    case ApproveLater(id, vendor, ids, amount) =>
      id in s.requests && s.requests[id].status == Pending ==> forall p | p in ids && 0 <= p < |s.payments| :: !s.payments[p].paid
    case MarkLater(ids, cutoff) =>
      forall p | p in ids && Settleable(s, p) && s.payments[p].end < cutoff :: !LockedBy(s, p, Approved)
    case UnmarkLater(p) => true
    case FinishLater(id, complete) => true
  }

  lemma RevertLaterExactly(s: State, id: nat, seen: RequestStatus, target: RequestStatus)
    requires Sound(s) && MayRevert(seen, target)
    ensures Sound(Apply(s, RevertLater(id, seen, target))) <==> Fits(s, RevertLater(id, seen, target))
  {
    if id in s.requests && s.requests[id].status == seen {
      var s' := Apply(s, RevertLater(id, seen, target));
      var r, r' := s.requests[id], s'.requests[id];
      if VendorBusy(s, r.vendor, Some(id)) {
        var o :| o in s.requests && Some(o) != Some(id) && s.requests[o].vendor == r.vendor && InFlight(s.requests[o]);
        assert o != id && InFlight(s'.requests[o]) && InFlight(s'.requests[id]);
      } else if target == Approved && exists p :: p in r.ids && s.payments[p].paid {
        assert !RequestSound(s', s'.requests[id]);
      } else {
        RequestChange(s, id, r');
      }
    }
  }

  lemma ApproveLaterExactly(s: State, id: nat, vendor: nat, ids: seq<int>, amount: int)
    requires Sound(s) && Holds(s, ApproveLater(id, vendor, ids, amount))
    ensures Sound(Apply(s, ApproveLater(id, vendor, ids, amount))) <==> Fits(s, ApproveLater(id, vendor, ids, amount))
  {
    if id in s.requests && s.requests[id].status == Pending {
      var s' := Apply(s, ApproveLater(id, vendor, ids, amount));
      if exists p :: p in ids && s.payments[p].paid {
        assert !RequestSound(s', s'.requests[id]);
      } else {
        RequestChange(s, id, s'.requests[id]);
      }
    }
  }

  /** Marking a payment an approval locks breaks the agreement. */
  lemma MarkUnderApproval(s: State, ids: seq<int>, cutoff: int, p: int)
    requires Sound(s) && p in ids && Settleable(s, p) && s.payments[p].end < cutoff && LockedBy(s, p, Approved)
    ensures !Sound(Apply(s, MarkLater(ids, cutoff)))
  {
    var s' := Apply(s, MarkLater(ids, cutoff));
    var id :| id in s.requests && s.requests[id].status == Approved && p in s.requests[id].ids;
    assert s'.payments[p].paid;
    assert !RequestSound(s', s'.requests[id]);
  }

  lemma MarkLaterExactly(s: State, ids: seq<int>, cutoff: int)
    requires Sound(s)
    ensures Sound(Apply(s, MarkLater(ids, cutoff))) <==> Fits(s, MarkLater(ids, cutoff))
  {
    var s' := Apply(s, MarkLater(ids, cutoff));
    if p :| p in ids && Settleable(s, p) && s.payments[p].end < cutoff && LockedBy(s, p, Approved) {
      MarkUnderApproval(s, ids, cutoff, p);
    } else {
      forall p | 0 <= p < |s.payments| && s'.payments[p].paid && !s.payments[p].paid ensures !LockedBy(s, p, Approved) {
        assert p in ids && Settleable(s, p);
      }
      PaymentsChange(s, s');
    }
  }

  /** A late write keeps requests and payments in agreement exactly when it still fits. */
  lemma LateWriteKeepsSoundExactly(s: State, w: Write)
    requires Sound(s) && Holds(s, w)
    ensures Sound(Apply(s, w)) <==> Fits(s, w)
  {
    match w
    case RejectLater(id) => if id in s.requests { StaleRejectKeepsSoundExactly(s, id); }
    case RevertLater(id, seen, target) => RevertLaterExactly(s, id, seen, target);
    case ApproveLater(id, vendor, ids, amount) => ApproveLaterExactly(s, id, vendor, ids, amount);
    case MarkLater(ids, cutoff) => MarkLaterExactly(s, ids, cutoff);
    case UnmarkLater(p) => PaymentsChange(s, Apply(s, w));
    case FinishLater(id, complete) =>
      if id in s.requests && s.requests[id].status == Approved {
        RequestChange(s, id, Apply(s, w).requests[id]);
      }
  }

  /** Payments keep vendor and share, requests their vendor, and ids are not used twice. */
  ghost predicate Grows(s: State, s': State) {
    && |s.payments| <= |s'.payments| && s.next <= s'.next
    && (forall p | 0 <= p < |s.payments| :: SameOwner(s.payments[p], s'.payments[p]))
    && (forall id | id < s.next && id in s'.requests :: id in s.requests && s'.requests[id].vendor == s.requests[id].vendor)
  }

  lemma StepGrows(s: State, act: Action)
    ensures Grows(s, Step(s, act))
  {
  }

  lemma ApplyGrows(s: State, w: Write)
    ensures Grows(s, Apply(s, w))
  {
  }

  lemma HoldsStill(s: State, s': State, w: Write)
    requires Grows(s, s') && Holds(s, w)
    ensures Holds(s', w)
  {
    if w.ApproveLater? {
      SumSame(w.ids, Share(s'.payments), Share(s.payments));
    }
  }

  lemma CheckHolds(s: State, e: Event)
    requires Sound(s)
    ensures forall w | w in Checked(s, e) :: Holds(s, w)
  {
    if e.CheckApprove? && e.id in s.requests {
      LockSetFacts(s, s.requests[e.id].vendor, e.cutoff, s.requests[e.id].amount);
      if s.requests[e.id].status == Pending && Total(s, LockSet(s, s.requests[e.id].vendor, e.cutoff, s.requests[e.id].amount)) > 0 {
        ApproveAmounts(s, e.id, e.cutoff);
      }
    }
  }

  lemma ApproveAmounts(s: State, id: nat, cutoff: int)
    requires id in s.requests && s.requests[id].status == Pending
    requires Total(s, LockSet(s, s.requests[id].vendor, cutoff, s.requests[id].amount)) > 0
    ensures var ids := LockSet(s, s.requests[id].vendor, cutoff, s.requests[id].amount);
            ids != [] && 0 < Min(s.requests[id].amount, Total(s, ids)) <= Total(s, ids)
  {
    assert ApproveStep(s, id, cutoff).requests[id].status == Approved;
    ApprovalLocksShortestPrefix(s, id, cutoff);
  }

  ghost predicate SoundDesk(d: Desk) {
    Sound(d.state) && forall w | w in d.open :: Holds(d.state, w)
  }

  predicate CommitFits(d: Desk, e: Event) {
    e.Commit? && e.k < |d.open| ==> Fits(d.state, d.open[e.k])
  }

  predicate CommitsFit(d: Desk, es: seq<Event>) {
    es == [] || (CommitsFit(d, es[..|es| - 1]) && CommitFits(DeskRun(d, es[..|es| - 1]), es[|es| - 1]))
  }

  lemma DeskStepKeepsSound(d: Desk, e: Event)
    requires SoundDesk(d)
    ensures SoundDesk(DeskStep(d, e)) <==> CommitFits(d, e)
  {
    var d' := DeskStep(d, e);
    if e.Whole? {
      StepKeepsSound(d.state, e.act);
      StepGrows(d.state, e.act);
    } else if e.Commit? && e.k < |d.open| {
      assert d.open[e.k] in d.open;
      LateWriteKeepsSoundExactly(d.state, d.open[e.k]);
      ApplyGrows(d.state, d.open[e.k]);
    } else {
      CheckHolds(d.state, e);
    }
    forall w | w in d'.open && w in d.open ensures Holds(d'.state, w) {
      HoldsStill(d.state, d'.state, w);
    }
  }

  /** Over every interleaving of whole calls, checks and late writes that still fit, agreement is kept. */
  lemma {:induction false} InterleavingsKeepSound(d: Desk, es: seq<Event>)
    requires SoundDesk(d) && CommitsFit(d, es)
    ensures SoundDesk(DeskRun(d, es))
  {
    if es != [] {
      InterleavingsKeepSound(d, es[..|es| - 1]);
      DeskStepKeepsSound(DeskRun(d, es[..|es| - 1]), es[|es| - 1]);
    }
  }

  // ----- money that left the bank, with checks and writes apart -----

  /**
   * When the write leaves alone what is PAID under a COMPLETED request: a rejection or a reversal
   * of such a request finds none of its payments PAID, an unmark finds its payment unclaimed.
   */
  ghost predicate SparesSettled(s: State, w: Write) {
    match w
    case RejectLater(id) => id in s.requests && s.requests[id].status == Completed ==> NonePaid(s, s.requests[id].ids)
    case RevertLater(id, seen, target) =>
      id in s.requests && s.requests[id].status == seen == Completed ==> NonePaid(s, s.requests[id].ids)
    case UnmarkLater(p) => PaidOut(s, p) ==> !LockedBy(s, p, Completed)
    case _ => true
  }

  ghost predicate NonePaid(s: State, ids: seq<int>) {
    forall p | p in ids && 0 <= p < |s.payments| :: !s.payments[p].paid
  }

  /** Whatever is PAID under a COMPLETED request before is so after, the request unchanged. */
  ghost predicate SettledStays(s: State, s': State) {
    forall id, p | SettledUnder(s, id, p) :: SettledUnder(s', id, p) && s'.requests[id] == s.requests[id]
  }

  /** Closing or reopening a COMPLETED request with a PAID payment unsettles it. */
  lemma StatusWriteUnsettles(s: State, w: Write, id: nat)
    requires Sound(s) && (w.RejectLater? || (w.RevertLater? && w.seen == Completed && MayRevert(w.seen, w.target))) && w.id == id
    requires id in s.requests && s.requests[id].status == Completed && !NonePaid(s, s.requests[id].ids)
    ensures !SettledStays(s, Apply(s, w))
  {
    var p :| p in s.requests[id].ids && 0 <= p < |s.payments| && s.payments[p].paid;
    assert SettledUnder(s, id, p) && !SettledUnder(Apply(s, w), id, p);
  }

  lemma UnmarkUnsettles(s: State, p: int)
    requires PaidOut(s, p) && LockedBy(s, p, Completed)
    ensures !SettledStays(s, Apply(s, UnmarkLater(p)))
  {
    var id :| id in s.requests && s.requests[id].status == Completed && p in s.requests[id].ids;
    assert SettledUnder(s, id, p) && !SettledUnder(Apply(s, UnmarkLater(p)), id, p);
  }

  lemma SparedStays(s: State, w: Write)
    requires Sound(s) && Holds(s, w) && SparesSettled(s, w)
    ensures SettledStays(s, Apply(s, w))
  {
    forall id, p | SettledUnder(s, id, p) ensures SettledUnder(Apply(s, w), id, p) && Apply(s, w).requests[id] == s.requests[id] {
      assert LockedBy(s, p, Completed);
    }
  }

  /** A late write leaves every PAID payment of every COMPLETED request as it is exactly when it spares them. */
  lemma LateWriteKeepsSettledExactly(s: State, w: Write)
    requires Sound(s) && Holds(s, w)
    ensures SettledStays(s, Apply(s, w)) <==> SparesSettled(s, w)
  {
    if SparesSettled(s, w) {
      SparedStays(s, w);
    } else if w.UnmarkLater? {
      UnmarkUnsettles(s, w.p);
    } else {
      StatusWriteUnsettles(s, w, w.id);
    }
  }

  predicate CommitOf(d: Desk, e: Event) {
    e.Commit? && e.k < |d.open|
  }

  /** Every late write of the run spares what is settled when it commits. */
  ghost predicate CommitsSpare(d: Desk, es: seq<Event>) {
    es == []
    || (CommitsSpare(d, es[..|es| - 1])
        && var m, e := DeskRun(d, es[..|es| - 1]), es[|es| - 1];
           (CommitOf(m, e) ==> SparesSettled(m.state, m.open[e.k])))
  }

  lemma DeskStepKeepsSettled(d: Desk, e: Event)
    requires SoundDesk(d) && (CommitOf(d, e) ==> SparesSettled(d.state, d.open[e.k]))
    ensures SettledStays(d.state, DeskStep(d, e).state)
  {
    if e.Whole? {
      forall id, p | SettledUnder(d.state, id, p)
        ensures SettledUnder(Step(d.state, e.act), id, p) && Step(d.state, e.act).requests[id] == d.state.requests[id]
      {
        StepKeepsSettled(d.state, e.act, id, p);
      }
    } else if CommitOf(d, e) {
      assert d.open[e.k] in d.open;
      SparedStays(d.state, d.open[e.k]);
    }
  }

  /**
   * Over every interleaving whose late writes still fit and spare what is settled, a payment PAID
   * under a COMPLETED request stays PAID and the request stays as it is.
   */
  lemma {:induction false} InterleavingsKeepSettled(d: Desk, es: seq<Event>)
    requires SoundDesk(d) && CommitsFit(d, es) && CommitsSpare(d, es)
    ensures SettledStays(d.state, DeskRun(d, es).state)
  {
    if es != [] {
      var n := |es| - 1;
      InterleavingsKeepSettled(d, es[..n]);
      InterleavingsKeepSound(d, es[..n]);
      DeskStepKeepsSettled(DeskRun(d, es[..n]), es[n]);
    }
  }

  /**
   * Such a write does come late: a reversal of a COMPLETED request passes its checks, its payments
   * are marked PAID, and the reversal still commits.
   */
  lemma LateReversalUnsettles(s: State, id: nat, ids: seq<int>, cutoff: int)
    requires Sound(s) && id in s.requests && s.requests[id].status == Completed && s.requests[id].ids == ids
    requires RevertPasses(s, id, Pending)
    requires forall p | p in ids :: !Refused(s, p, cutoff, {})
    ensures var d := DeskRun(Desk(s, []), [CheckRevert(id, Pending)] + [Whole(MarkPaid(ids, cutoff, {}))]);
            && d.open == [RevertLater(id, Completed, Pending)] && CommitFits(d, Commit(0))
            && (forall p | p in ids :: SettledUnder(d.state, id, p))
            && id in DeskStep(d, Commit(0)).state.requests && DeskStep(d, Commit(0)).state.requests[id].status == Pending
  {
    var d0, check, mark := Desk(s, []), CheckRevert(id, Pending), MarkPaid(ids, cutoff, {});
    RunTwo(d0, check, Whole(mark));
    assert DeskStep(d0, check) == Desk(s, [RevertLater(id, Completed, Pending)]);
    MarkSettles(s, id, ids, cutoff, Step(s, mark));
    MarkUnderReversal(s, Step(s, mark), id);
  }

  lemma RunTwo(d: Desk, a: Event, b: Event)
    ensures DeskRun(d, [a] + [b]) == DeskStep(DeskStep(d, a), b)
  {
    assert ([a] + [b])[..1] == [a] && [a][..0] == [];
    assert DeskRun(d, [a]) == DeskStep(DeskRun(d, []), a);
  }

  /** Marking all payments of a COMPLETED request settles them under it. */
  lemma MarkSettles(s: State, id: nat, ids: seq<int>, cutoff: int, m: State)
    requires m == Step(s, MarkPaid(ids, cutoff, {}))
    requires id in s.requests && s.requests[id].status == Completed && s.requests[id].ids == ids
    requires forall p | p in ids :: !Refused(s, p, cutoff, {})
    requires forall p | p in ids :: Settleable(s, p)
    ensures m.requests == s.requests && forall p | p in ids :: SettledUnder(m, id, p)
  {
  }

  /** A reversal allowed while the payments were unpaid still fits once they are PAID. */
  lemma MarkUnderReversal(s: State, m: State, id: nat)
    requires id in s.requests && s.requests[id].status == Completed && RevertPasses(s, id, Pending) && m.requests == s.requests
    ensures var d := Desk(m, [RevertLater(id, Completed, Pending)]);
            && CommitFits(d, Commit(0))
            && id in DeskStep(d, Commit(0)).state.requests && DeskStep(d, Commit(0)).state.requests[id].status == Pending
  {
  }

  /** The call a check begins. */
  function Call(e: Event): Action
    requires !e.Whole? && !e.Commit?
  {
    match e
    case CheckReject(id) => Process(id, Reject, 0)
    case CheckRevert(id, target) => Revert(id, target)
    case CheckApprove(id, cutoff) => Process(id, Approve, cutoff)
    case CheckMark(ids, cutoff, suspended) => MarkPaid(ids, cutoff, suspended)
    case CheckUnmark(p) => MarkUnpaid(p)
    case CheckFinish(id) => Process(id, Finish, 0)
  }

  /** Check and write back to back are the whole call. */
  lemma AtOnceIsTheCall(s: State, e: Event)
    requires !e.Whole? && !e.Commit?
    ensures DeskStep(DeskStep(Desk(s, []), e), Commit(0)).state == Step(s, Call(e))
  {
  }

  // ----- one payment under two requests -----

  /**
   * The schema promises that a payment of a closed request never lands in another one; approval
   * does not look. The promise is kept exactly when the shares queued before every payment that a
   * COMPLETED request already claims reach the requested amount on their own.
   */
  lemma ApprovalReclaimsExactly(s: State, id: nat, cutoff: int)
    requires Sound(s) && id in s.requests && s.requests[id].status == Pending
    requires ApproveStep(s, id, cutoff) != s
    ensures var q := Queue(s, s.requests[id].vendor, cutoff);
            (forall p | p in ApproveStep(s, id, cutoff).requests[id].ids :: !LockedBy(s, p, Completed)) <==>
            (forall j | 0 <= j < |q| && LockedBy(s, q[j], Completed) :: Total(s, q[..j]) >= s.requests[id].amount)
  {
    var r := s.requests[id];
    var q, ids := Queue(s, r.vendor, cutoff), ApproveStep(s, id, cutoff).requests[id].ids;
    ApprovalLocksShortestPrefix(s, id, cutoff);
    FilterMembers(EligibleIds(s, r.vendor, cutoff, |s.payments|), HasShare(s.payments));
    forall j | 0 <= j < |q| ensures j < |ids| <==> Total(s, q[..j]) < r.amount {
      assert ids == q[..|ids|];
      if |ids| <= j {
        TotalGrows(s, q, |ids|, j);
      }
    }
    forall j | 0 <= j < |ids| ensures ids[j] == q[j] {
    }
    forall j | 0 <= j < |q| ensures j < |ids| <==> q[j] in ids {
      QueueDistinct(s, r.vendor, cutoff);
      if q[j] in ids {
        var k :| 0 <= k < |ids| && ids[k] == q[j];
        assert k == j;
      }
    }
  }

  lemma QueueDistinct(s: State, vendor: nat, cutoff: int)
    ensures forall i, j | 0 <= i < j < |Queue(s, vendor, cutoff)| ::
              Queue(s, vendor, cutoff)[i] != Queue(s, vendor, cutoff)[j]
  {
    var all, q := EligibleIds(s, vendor, cutoff, |s.payments|), Queue(s, vendor, cutoff);
    EligibleIdsMembers(s, vendor, cutoff, |s.payments|);
    FilterDistinct(all, HasShare(s.payments), Itself());
    forall i, j | 0 <= i < j < |q| ensures q[i] != q[j] {
      assert Itself()(q[i]) != Itself()(q[j]);
    }
  }

  // ----- what one call undoes -----

  /** Reopening a request that was completed with all its payments in place undoes the completion. */
  lemma ReopenUndoesCompletion(s: State, id: nat)
    requires Sound(s) && id in s.requests && s.requests[id].status == Approved
    requires forall p | p in s.requests[id].ids :: Settleable(s, p)
    ensures RevertStep(FinishStep(s, id), id, Approved) == s
  {
    var m := FinishStep(s, id);
    assert m.requests[id].status == Completed && !VendorBusy(m, m.requests[id].vendor, Some(id));
    assert RevertStep(m, id, Approved).requests == s.requests;
  }

  /** Sending an approved request back and approving it again locks the same payments for the same amount. */
  lemma ReapprovalIsStable(s: State, id: nat, cutoff: int)
    requires Sound(s) && id in s.requests && s.requests[id].status == Pending
    requires ApproveStep(s, id, cutoff) != s
    ensures var once := ApproveStep(s, id, cutoff);
            ApproveStep(RevertStep(once, id, Pending), id, cutoff) == once
  {
    var once := ApproveStep(s, id, cutoff);
    var back := RevertStep(once, id, Pending);
    var vendor, r1 := s.requests[id].vendor, once.requests[id];
    ApproveKeepsSound(s, id, cutoff);
    assert !VendorBusy(once, vendor, Some(id));
    assert back == PutRequest(once, id, r1.(status := Pending, ids := []));
    SameLockSet(s, back, vendor, cutoff, r1.amount);
    LockSetStable(s, id, cutoff);
    assert ApproveStep(back, id, cutoff).requests == once.requests;
  }

  /** Asking again for what was approved locks the same payments. */
  lemma LockSetStable(s: State, id: nat, cutoff: int)
    requires id in s.requests && s.requests[id].status == Pending
    requires ApproveStep(s, id, cutoff) != s
    ensures var r, r' := s.requests[id], ApproveStep(s, id, cutoff).requests[id];
            LockSet(s, r.vendor, cutoff, r'.amount) == r'.ids && Min(r'.amount, Total(s, r'.ids)) == r'.amount > 0
  {
    var r, r1 := s.requests[id], ApproveStep(s, id, cutoff).requests[id];
    var q := Queue(s, r.vendor, cutoff);
    FilterMembers(EligibleIds(s, r.vendor, cutoff, |s.payments|), HasShare(s.payments));
    ApprovalLocksShortestPrefix(s, id, cutoff);
    assert r1.ids == q[..|r1.ids|];
    forall j | 0 <= j < |r1.ids| ensures Total(s, q[..j]) < r1.amount {
      TotalGrows(s, q, j, |r1.ids|);
    }
    NeededUnique(s, q, r1.amount, |r1.ids|);
  }

  lemma {:induction false} SameEligible(s: State, s': State, vendor: nat, cutoff: int, n: nat)
    requires s'.payments == s.payments
    ensures EligibleIds(s', vendor, cutoff, n) == EligibleIds(s, vendor, cutoff, n)
  {
    if n > 0 {
      SameEligible(s, s', vendor, cutoff, n - 1);
    }
  }

  lemma {:induction false} SameNeeded(s: State, s': State, queue: seq<int>, requested: int)
    requires s'.payments == s.payments
    ensures Needed(s', queue, requested) == Needed(s, queue, requested)
  {
    if queue != [] && requested > 0 {
      SameNeeded(s, s', queue[1..], requested - Share(s.payments)(queue[0]));
    }
  }

  /** What an approval would lock depends on the payments only. */
  lemma SameLockSet(s: State, s': State, vendor: nat, cutoff: int, requested: int)
    requires s'.payments == s.payments
    ensures LockSet(s', vendor, cutoff, requested) == LockSet(s, vendor, cutoff, requested)
    ensures Total(s', LockSet(s, vendor, cutoff, requested)) == Total(s, LockSet(s, vendor, cutoff, requested))
  {
    SameEligible(s, s', vendor, cutoff, |s.payments|);
    SameNeeded(s, s', Queue(s, vendor, cutoff), requested);
  }

  /**
   * Taking back a payment just marked paid restores everything exactly when no COMPLETED request
   * claims it; one that does keeps it PAID.
   */
  lemma UnmarkUndoesMark(s: State, p: int, cutoff: int, suspended: set<nat>)
    requires Settleable(s, p) && !Refused(s, p, cutoff, suspended) && Sound(s)
    ensures MarkPaidStep(s, [p], cutoff, suspended).payments == s.payments[p := s.payments[p].(paid := true)]
    ensures MarkUnpaidStep(MarkPaidStep(s, [p], cutoff, suspended), p) == s <==> !LockedBy(s, p, Completed)
  {
    var m := MarkPaidStep(s, [p], cutoff, suspended);
    assert m.payments[p] == s.payments[p].(paid := true);
    assert !LockedBy(s, p, Approved);
    assert LockedBy(m, p, Approved) == LockedBy(s, p, Approved) && LockedBy(m, p, Completed) == LockedBy(s, p, Completed);
    assert m.payments[p := m.payments[p].(paid := false)] == s.payments;
  }

  const FIRST := Payment(7, 100, true, false, 0)
  const SECOND := Payment(7, 50, true, false, 0)
  const ZERO: seq<int> := [0]

  /** The first payment is claimed by a completed request and not yet marked paid. */
  const CLAIMED := State([FIRST], map[0 := Request(7, 100, Completed, ZERO)], 1)

  lemma FirstRound()
    ensures Run(State([], map[], 0), [NewPayment(7, 100, 0), File(7, 5, 10), Process(0, Approve, 5), Process(0, Finish, 5)]) == CLAIMED
  {
    var s0 := State([], map[], 0);
    var s1 := State([FIRST], map[], 0);
    var s2 := State([FIRST], map[0 := Request(7, 100, Pending, [])], 1);
    var s3 := State([FIRST], map[0 := Request(7, 100, Approved, ZERO)], 1);
    FirstFile(s1, s2);
    FirstApprove(s2, s3);
    FirstFinish(s3);
    FourSteps(s0, s1, s2, s3, CLAIMED, NewPayment(7, 100, 0), File(7, 5, 10), Process(0, Approve, 5), Process(0, Finish, 5));
  }

  lemma FirstFinish(s: State)
    requires s == State([FIRST], map[0 := Request(7, 100, Approved, ZERO)], 1)
    ensures Step(s, Process(0, Finish, 5)) == CLAIMED
  {
    assert forall p | p in ZERO :: Settleable(s, p);
    assert FinishStep(s, 0).requests == CLAIMED.requests;
  }

  lemma FirstFile(s: State, s': State)
    requires s == State([FIRST], map[], 0)
    requires s' == State([FIRST], map[0 := Request(7, 100, Pending, [])], 1)
    ensures Step(s, File(7, 5, 10)) == s'
  {
    OneEligible(s, 7, 5);
  }

  lemma FirstApprove(s: State, s': State)
    requires s == State([FIRST], map[0 := Request(7, 100, Pending, [])], 1)
    requires s' == State([FIRST], map[0 := Request(7, 100, Approved, ZERO)], 1)
    ensures Step(s, Process(0, Approve, 5)) == s'
  {
    OneEligible(s, 7, 5);
  }

  lemma FourSteps(s: State, s1: State, s2: State, s3: State, s4: State, a: Action, b: Action, c: Action, d: Action)
    requires Step(s, a) == s1 && Step(s1, b) == s2 && Step(s2, c) == s3 && Step(s3, d) == s4
    ensures Run(s, [a, b, c, d]) == s4
  {
    ThreeSteps(s, a, b, c);
    assert [a, b, c, d][..3] == [a, b, c];
  }

  lemma ThreeSteps(s: State, a: Action, b: Action, c: Action)
    ensures Run(s, [a, b, c]) == Step(Step(Step(s, a), b), c)
  {
    assert [a, b, c][..2] == [a, b] && [a, b][..1] == [a] && [a][..0] == [];
    assert Run(s, [a]) == Step(s, a);
    assert Run(s, [a, b]) == Step(Run(s, [a]), b);
  }

  /**
   * From there the vendor files for a second payment, and the approval locks the first one again
   * and the second one not at all.
   */
  lemma PaymentReclaimed()
    ensures var s := Run(CLAIMED, [NewPayment(7, 50, 0), File(7, 5, 10), Process(1, Approve, 5)]);
            s.requests == map[0 := Request(7, 100, Completed, ZERO), 1 := Request(7, 50, Approved, ZERO)]
  {
    SecondRequest();
    ThreeSteps(CLAIMED, NewPayment(7, 50, 0), File(7, 5, 10), Process(1, Approve, 5));
  }

  /** With the second payment in and, later, the second request filed. */
  const WITH_SECOND := State([FIRST, SECOND], CLAIMED.requests, 1)
  const SECOND_FILED := State([FIRST, SECOND], CLAIMED.requests[1 := Request(7, 50, Pending, [])], 2)

  lemma SecondRequest()
    ensures Step(CLAIMED, NewPayment(7, 50, 0)) == WITH_SECOND
    ensures Step(WITH_SECOND, File(7, 5, 10)) == SECOND_FILED
    ensures Step(SECOND_FILED, Process(1, Approve, 5)).requests
         == map[0 := Request(7, 100, Completed, ZERO), 1 := Request(7, 50, Approved, ZERO)]
  {
    FileSecond();
    ApproveSecond();
  }

  lemma FileSecond()
    ensures Step(WITH_SECOND, File(7, 5, 10)) == SECOND_FILED
  {
    assert FirstClaimed(WITH_SECOND, 7, 5);
    TwoEligible(WITH_SECOND, 7, 5);
  }

  lemma ApproveSecond()
    ensures Step(SECOND_FILED, Process(1, Approve, 5)).requests
         == map[0 := Request(7, 100, Completed, ZERO), 1 := Request(7, 50, Approved, ZERO)]
  {
    assert FirstClaimed(SECOND_FILED, 7, 5);
    TwoEligible(SECOND_FILED, 7, 5);
  }

  lemma OneFilter(p: int, f: int -> bool)
    ensures Filter([p], f) == if f(p) then [p] else []
  {
    assert [p][..0] == [];
  }

  lemma TotalOne(s: State, p: int)
    ensures Total(s, [p]) == Share(s.payments)(p)
  {
    var ps: seq<int> := [p];
    assert Sum(ps[..0], Share(s.payments)) == 0;
  }

  lemma OneEligible(s: State, vendor: nat, cutoff: int)
    requires |s.payments| == 1 && Eligible(s, vendor, cutoff, 0) && s.payments[0].share == 100
    requires forall id | id in s.requests :: s.requests[id].ids == []
    ensures Available(s, vendor, cutoff) == 100
    ensures LockSet(s, vendor, cutoff, 100) == ZERO && Total(s, ZERO) == 100
  {
    assert EligibleIds(s, vendor, cutoff, 1) == ZERO;
    OneFilter(0, HasShare(s.payments));
    OneFilter(0, Unlocked(s));
    TotalOne(s, 0);
    assert Needed(s, ZERO[1..], 0) == 0;
  }

  /** Both payments are due, and the first is claimed by a completed request. */
  ghost predicate FirstClaimed(s: State, vendor: nat, cutoff: int) {
    && |s.payments| == 2 && Eligible(s, vendor, cutoff, 0) && Eligible(s, vendor, cutoff, 1)
    && s.payments[0].share == 100 && s.payments[1].share == 50
    && 0 in s.requests && s.requests[0].ids == ZERO && s.requests[0].status == Completed
    && forall id | id in s.requests && id != 0 :: s.requests[id].ids == []
  }

  lemma BothEligible(s: State, vendor: nat, cutoff: int)
    requires FirstClaimed(s, vendor, cutoff)
    ensures EligibleIds(s, vendor, cutoff, 2) == ZERO + ONE
  {
    assert EligibleIds(s, vendor, cutoff, 1) == ZERO;
  }

  lemma SecondAvailable(s: State, vendor: nat, cutoff: int)
    requires FirstClaimed(s, vendor, cutoff)
    ensures Available(s, vendor, cutoff) == 50
  {
    BothEligible(s, vendor, cutoff);
    TwoFilter(Unlocked(s));
    assert LockedBy(s, 0, Completed);
    assert Filter(ZERO + ONE, Unlocked(s)) == ONE;
    TotalOne(s, 1);
  }

  lemma TwoEligible(s: State, vendor: nat, cutoff: int)
    requires FirstClaimed(s, vendor, cutoff)
    ensures Available(s, vendor, cutoff) == 50
    ensures LockSet(s, vendor, cutoff, 50) == ZERO && Total(s, ZERO) == 100
  {
    SecondAvailable(s, vendor, cutoff);
    BothEligible(s, vendor, cutoff);
    TwoFilter(HasShare(s.payments));
    TotalOne(s, 0);
    assert Needed(s, (ZERO + ONE)[1..], 50 - 100) == 0;
  }

  const ONE: seq<int> := [1]

  lemma TwoFilter(f: int -> bool)
    ensures Filter(ZERO + ONE, f) == (if f(0) then ZERO else []) + (if f(1) then ONE else [])
  {
    FilterConcat(ZERO, ONE, f);
    OneFilter(0, f);
    OneFilter(1, f);
  }

  // ----- the code -----

  lemma NeededUnique(s: State, queue: seq<int>, requested: int, k: nat)
    requires forall p | p in queue :: HasShare(s.payments)(p)
    requires k <= |queue| && forall j | 0 <= j < k :: Total(s, queue[..j]) < requested
    requires Total(s, queue[..k]) >= requested || k == |queue|
    ensures k == Needed(s, queue, requested)
  {
    NeededIsShortest(s, queue, requested);
    var n := Needed(s, queue, requested);
    var atN, atK := Total(s, queue[..n]), Total(s, queue[..k]);
  }

  /** Where the loop over the eligible payments stands after taking `locked`. */
  ghost predicate Taken(s: State, eligible: seq<int>, i: nat, requested: int, locked: seq<int>)
    requires i <= |eligible|
  {
    && locked == Filter(eligible[..i], HasShare(s.payments))
    && forall j | 0 <= j < |locked| :: Total(s, locked[..j]) < requested
  }

  lemma TakeOne(s: State, eligible: seq<int>, i: nat, requested: int, locked: seq<int>)
    requires i < |eligible| && Taken(s, eligible, i, requested, locked)
    requires Share(s.payments)(eligible[i]) > 0 ==> Total(s, locked) < requested
    ensures var locked' := if Share(s.payments)(eligible[i]) > 0 then locked + [eligible[i]] else locked;
            Taken(s, eligible, i + 1, requested, locked')
            && Total(s, locked') == Total(s, locked) + if Share(s.payments)(eligible[i]) > 0 then Share(s.payments)(eligible[i]) else 0
  {
    var x := eligible[i];
    FilterNext(eligible, i, HasShare(s.payments));
    if Share(s.payments)(x) > 0 {
      SumAppend(locked, x, Share(s.payments));
      forall j | 0 <= j < |locked + [x]| ensures Total(s, (locked + [x])[..j]) < requested {
        assert (locked + [x])[..j] == locked[..j];
        assert j == |locked| ==> locked[..j] == locked;
      }
    }
  }

  /** Stopping at the first payment not needed, or at the end, leaves the lock set. */
  lemma TakenIsLockSet(s: State, eligible: seq<int>, i: nat, requested: int, locked: seq<int>)
    requires i <= |eligible| && Taken(s, eligible, i, requested, locked)
    requires Total(s, locked) >= requested || i == |eligible|
    ensures var q := Filter(eligible, HasShare(s.payments)); locked == q[..Needed(s, q, requested)]
  {
    var q := Filter(eligible, HasShare(s.payments));
    FilterMembers(eligible, HasShare(s.payments));
    FilterPrefix(eligible, i, HasShare(s.payments));
    assert i == |eligible| ==> eligible[..i] == eligible;
    assert q[..|locked|] == locked;
    forall j | 0 <= j < |locked| ensures Total(s, q[..j]) < requested {
      assert q[..j] == locked[..j];
    }
    NeededUnique(s, q, requested, |locked|);
  }

  class PayoutDesk {
    var payments: seq<Payment>
    var requests: map<nat, Request>
    var next: nat

    function Value(): State
      reads this
    {
      State(payments, requests, next)
    }

    constructor ()
      ensures Value() == State([], map[], 0) && Sound(Value())
    {
      payments, requests, next := [], map[], 0;
    }

    /** Oldest first, take payments until the requested amount is reached. */
    method LockPayments(eligible: seq<int>, requested: int) returns (paymentsToLock: seq<int>, accumulated: int)
      ensures var q := Filter(eligible, HasShare(payments)); paymentsToLock == q[..Needed(Value(), q, requested)]
      ensures accumulated == Total(Value(), paymentsToLock)
    {
      ghost var s := Value();
      paymentsToLock, accumulated := [], 0;
      var i := 0;
      while i < |eligible|
        invariant 0 <= i <= |eligible|
        invariant Taken(s, eligible, i, requested, paymentsToLock)
        invariant accumulated == Total(s, paymentsToLock)
      {
        var p := eligible[i];
        var vendorShare := if 0 <= p < |payments| then payments[p].share else 0;
        if vendorShare > 0 && accumulated >= requested {
          break;
        }
        TakeOne(s, eligible, i, requested, paymentsToLock);
        if vendorShare > 0 {
          accumulated := accumulated + vendorShare;
          paymentsToLock := paymentsToLock + [p];
        }
        i := i + 1;
      }
      TakenIsLockSet(s, eligible, i, requested, paymentsToLock);
    }

    /** Approve, reject or complete a request. */
    method ProcessPayoutRequest(id: nat, action: Decision, cutoff: int)
      requires Sound(Value())
      modifies this
      ensures Value() == Step(old(Value()), Process(id, action, cutoff)) && Sound(Value())
    {
      ProcessKeepsSound(Value(), id, action, cutoff);
      if id !in requests {
        return;
      }
      var request := requests[id];
      if action == Approve && request.status == Pending {
        var eligible := EligibleIds(Value(), request.vendor, cutoff, |payments|);
        var paymentsToLock, accumulated := LockPayments(eligible, request.amount);
        if accumulated <= 0 {
          return;
        }
        var finalAmount := if request.amount < accumulated then request.amount else accumulated;
        requests := requests[id := Request(request.vendor, finalAmount, Approved, paymentsToLock)];
      } else if action == Finish && request.status == Approved {
        var stillEligible := CountSettleable(request.ids);
        if |request.ids| == 0 {
          return;
        }
        if stillEligible != |request.ids| {
          requests := requests[id := request.(status := Pending, ids := [])];
        } else {
          requests := requests[id := request.(status := Completed)];
        }
      } else if action == Reject && request.status == Pending {
        requests := requests[id := request.(status := Rejected)];
      }
    }

    /** How many of `ids` are still settled and unpaid. */
    method CountSettleable(ids: seq<int>) returns (count: nat)
      ensures count <= |ids| && (count == |ids| <==> forall p | p in ids :: Settleable(Value(), p))
    {
      count := 0;
      for i := 0 to |ids|
        invariant count <= i && (count == i <==> forall k | 0 <= k < i :: Settleable(Value(), ids[k]))
      {
        if 0 <= ids[i] < |payments| && payments[ids[i]].success && !payments[ids[i]].paid {
          count := count + 1;
        }
      }
      if count != |ids| {
        ghost var k :| 0 <= k < |ids| && !Settleable(Value(), ids[k]);
        assert ids[k] in ids;
      }
    }

    /** Re-opening a request, refused while the vendor has another one in flight. */
    method RevertPayoutRequest(id: nat, target: RequestStatus)
      requires Sound(Value())
      modifies this
      ensures Value() == Step(old(Value()), Revert(id, target)) && Sound(Value())
    {
      RevertKeepsSound(Value(), id, target);
      if id !in requests || !MayRevert(requests[id].status, target) {
        return;
      }
      var request := requests[id];
      if VendorBusy(Value(), request.vendor, Some(id)) {
        return;
      }
      if request.status == Completed && |request.ids| > 0 {
        var stillUnpaid := CountSettleable(request.ids);
        if stillUnpaid != |request.ids| {
          return;
        }
      }
      if target == Pending {
        requests := requests[id := request.(status := target, ids := [])];
      } else {
        requests := requests[id := request.(status := target)];
      }
    }

    /** Recording a bank transfer for a batch: all of it is acceptable or nothing is written. */
    method MarkPayoutsPaid(ids: seq<int>, cutoff: int, suspended: set<nat>)
      requires Sound(Value())
      modifies this
      ensures Value() == Step(old(Value()), MarkPaid(ids, cutoff, suspended)) && Sound(Value())
    {
      MarkPaidKeepsSound(Value(), ids, cutoff, suspended);
      ghost var s := Value();
      for i := 0 to |ids|
        invariant forall k | 0 <= k < i :: !Refused(s, ids[k], cutoff, suspended)
        invariant Value() == s
      {
        var p := ids[i];
        assert p in ids;
        if 0 <= p < |payments| && payments[p].vendor in suspended {
          return;
        }
        if Blocked(Value(), p) {
          return;
        }
        if Settleable(Value(), p) && payments[p].end >= cutoff {
          return;
        }
      }
      for p := 0 to |payments|
        invariant Value() == s.(payments := payments) && |payments| == |s.payments|
        invariant forall k | 0 <= k < p :: payments[k] == SetPaid(s, ids, cutoff)[k]
        invariant forall k | p <= k < |payments| :: payments[k] == s.payments[k]
      {
        var row := payments[p];
        if p in ids && row.success && !row.paid && row.end < cutoff {
          payments := payments[p := row.(paid := true)];
        }
      }
      assert payments == SetPaid(s, ids, cutoff);
    }

    /** Undoing a payout that no request has claimed. */
    method MarkPayoutUnpaid(p: int)
      requires Sound(Value())
      modifies this
      ensures Value() == Step(old(Value()), MarkUnpaid(p)) && Sound(Value())
    {
      StepKeepsSound(Value(), MarkUnpaid(p));
      if !(0 <= p < |payments|) || !payments[p].success || !payments[p].paid || !Unlocked(Value())(p) {
        return;
      }
      payments := payments[p := payments[p].(paid := false)];
    }
  }
}
