/**
 * What each payout call does, in statuses, flags and shares alone, and when a request may call
 * itself completed.
 */
module PayoutOutcomes {
  import opened Common
  import opened Payouts

  // ----- what is payable -----

  /** Payment p is the vendor's, captured, not paid out, and its activity was over before the cutoff. */
  predicate Payable(s: State, vendor: nat, cutoff: int, p: int) {
    && 0 <= p < |s.payments| && s.payments[p].vendor == vendor
    && s.payments[p].success && !s.payments[p].paid && s.payments[p].end < cutoff
  }

  /** An APPROVED or COMPLETED request holds payment p. */
  predicate Held(s: State, p: int) {
    exists id :: id in s.requests && s.requests[id].status in {Approved, Completed} && p in s.requests[id].ids
  }

  /** The vendor has a request that is PENDING or APPROVED, other than `except`. */
  predicate Busy(s: State, vendor: nat, except: Option<nat>) {
    exists id :: id in s.requests && Some(id) != except && s.requests[id].vendor == vendor && s.requests[id].status in {Pending, Approved}
  }

  /** The payable payments among the first n that no request holds. */
  function Free(s: State, vendor: nat, cutoff: int, n: nat): seq<int>
    requires n <= |s.payments|
  {
    if n == 0 then []
    else Free(s, vendor, cutoff, n - 1) + if Payable(s, vendor, cutoff, n - 1) && !Held(s, n - 1) then [n - 1] else []
  }

  /** The payable payments with something to pay among the first n, oldest first. */
  function Line(s: State, vendor: nat, cutoff: int, n: nat): seq<int>
    requires n <= |s.payments|
  {
    if n == 0 then []
    else
      Line(s, vendor, cutoff, n - 1)
      + if Payable(s, vendor, cutoff, n - 1) && s.payments[n - 1].share > 0 then [n - 1] else []
  }

  /** What the payments `ids` are worth. */
  function Worth(s: State, ids: seq<int>): int {
    if ids == [] then 0
    else
      var p := ids[|ids| - 1];
      Worth(s, ids[..|ids| - 1]) + if 0 <= p < |s.payments| then s.payments[p].share else 0
  }

  lemma {:induction false} WorthIsTotal(s: State, ids: seq<int>)
    ensures Worth(s, ids) == Total(s, ids)
  {
    if ids != [] {
      WorthIsTotal(s, ids[..|ids| - 1]);
    }
  }

  lemma HeldIsLocked(s: State, p: int)
    ensures Held(s, p) <==> !Unlocked(s)(p)
  {
    if Held(s, p) {
      var id :| id in s.requests && s.requests[id].status in {Approved, Completed} && p in s.requests[id].ids;
      assert LockedBy(s, p, s.requests[id].status);
    }
  }

  lemma EligibleNext(s: State, vendor: nat, cutoff: int, n: nat)
    requires 0 < n <= |s.payments|
    ensures EligibleIds(s, vendor, cutoff, n)
         == if Payable(s, vendor, cutoff, n - 1) then EligibleIds(s, vendor, cutoff, n - 1) + [n - 1] else EligibleIds(s, vendor, cutoff, n - 1)
  {
  }

  lemma OneMoreFree(s: State, before: seq<int>, p: int)
    ensures Filter(before + [p], Unlocked(s)) == Filter(before, Unlocked(s)) + if Held(s, p) then [] else [p]
  {
    FilterAppend(before, p, Unlocked(s));
    HeldIsLocked(s, p);
  }

  lemma {:induction false} FreeIsUnlocked(s: State, vendor: nat, cutoff: int, n: nat)
    requires n <= |s.payments|
    ensures Free(s, vendor, cutoff, n) == Filter(EligibleIds(s, vendor, cutoff, n), Unlocked(s))
  {
    if n > 0 {
      FreeIsUnlocked(s, vendor, cutoff, n - 1);
      EligibleNext(s, vendor, cutoff, n);
      OneMoreFree(s, EligibleIds(s, vendor, cutoff, n - 1), n - 1);
    }
  }

  lemma OneMoreInLine(s: State, before: seq<int>, p: int)
    requires 0 <= p < |s.payments|
    ensures Filter(before + [p], HasShare(s.payments))
         == Filter(before, HasShare(s.payments)) + if s.payments[p].share > 0 then [p] else []
  {
    FilterAppend(before, p, HasShare(s.payments));
    assert Share(s.payments)(p) == s.payments[p].share;
  }

  lemma {:induction false} LineIsQueue(s: State, vendor: nat, cutoff: int, n: nat)
    requires n <= |s.payments|
    ensures Line(s, vendor, cutoff, n) == Filter(EligibleIds(s, vendor, cutoff, n), HasShare(s.payments))
  {
    if n > 0 {
      LineIsQueue(s, vendor, cutoff, n - 1);
      EligibleNext(s, vendor, cutoff, n);
      OneMoreInLine(s, EligibleIds(s, vendor, cutoff, n - 1), n - 1);
    }
  }

  // ----- filing and deciding -----

  /** A vendor may file unless a request is in flight, and asks for all its free money if that meets the minimum. */
  lemma FilingOutcome(s: State, vendor: nat, cutoff: int, minimum: int)
    ensures var money := Worth(s, Free(s, vendor, cutoff, |s.payments|));
            Step(s, File(vendor, cutoff, minimum))
            == (if Busy(s, vendor, None) || money <= 0 || money < minimum then s
                else s.(requests := s.requests[s.next := Request(vendor, money, Pending, [])], next := s.next + 1))
  {
    AvailableIsFree(s, vendor, cutoff);
    assert Busy(s, vendor, None) <==> VendorBusy(s, vendor, None);
  }

  lemma AvailableIsFree(s: State, vendor: nat, cutoff: int)
    ensures Available(s, vendor, cutoff) == Max(0, Worth(s, Free(s, vendor, cutoff, |s.payments|)))
  {
    FreeIsUnlocked(s, vendor, cutoff, |s.payments|);
    WorthIsTotal(s, Free(s, vendor, cutoff, |s.payments|));
  }

  /** The first k of the line are worth the amount, or all of it are not, and no fewer are. */
  predicate ShortestPrefix(s: State, line: seq<int>, amount: int, k: nat) {
    && k <= |line| && (forall j | 0 <= j < k :: Worth(s, line[..j]) < amount)
    && (k == |line| || Worth(s, line[..k]) >= amount)
  }

  lemma LockedIsPrefix(s: State, vendor: nat, cutoff: int, amount: int, line: seq<int>) returns (k: nat)
    requires line == Line(s, vendor, cutoff, |s.payments|)
    ensures ShortestPrefix(s, line, amount, k) && LockSet(s, vendor, cutoff, amount) == line[..k]
    ensures Total(s, line[..k]) == Worth(s, line[..k]) >= k
  {
    LineIsQueue(s, vendor, cutoff, |s.payments|);
    FilterMembers(EligibleIds(s, vendor, cutoff, |s.payments|), HasShare(s.payments));
    NeededIsShortest(s, line, amount);
    k := Needed(s, line, amount);
    forall j | 0 <= j <= |line| ensures Worth(s, line[..j]) == Total(s, line[..j]) {
      WorthIsTotal(s, line[..j]);
    }
    TotalGrows(s, line, 0, k);
    assert line[..0] == [];
  }

  /**
   * Approving takes the shortest prefix of the line worth the amount, or the whole line: refused
   * when there is nothing to take, and never granting more than was asked or than is taken.
   */
  lemma ApprovalOutcome(s: State, id: nat, cutoff: int) returns (k: nat)
    requires id in s.requests && s.requests[id].status == Pending
    ensures var r := s.requests[id];
            var line := Line(s, r.vendor, cutoff, |s.payments|);
            && ShortestPrefix(s, line, r.amount, k)
            && Step(s, Process(id, Approve, cutoff))
            == (if k == 0 then s
                else s.(requests := s.requests[id := Request(r.vendor, Min(r.amount, Worth(s, line[..k])), Approved, line[..k])]))
  {
    var r := s.requests[id];
    var line := Line(s, r.vendor, cutoff, |s.payments|);
    k := LockedIsPrefix(s, r.vendor, cutoff, r.amount, line);
    ApprovalLocks(s, id, cutoff, line[..k]);
    if k == 0 {
      assert line[..0] == [];
    }
  }

  lemma ApprovalLocks(s: State, id: nat, cutoff: int, ids: seq<int>)
    requires id in s.requests && s.requests[id].status == Pending
    requires ids == LockSet(s, s.requests[id].vendor, cutoff, s.requests[id].amount)
    ensures Step(s, Process(id, Approve, cutoff))
         == if Total(s, ids) <= 0 then s
            else s.(requests := s.requests[id := s.requests[id].(status := Approved, amount := Min(s.requests[id].amount, Total(s, ids)), ids := ids)])
  {
  }

  /** Only a PENDING request can be rejected; nothing else changes. */
  lemma RejectionOutcome(s: State, id: nat, cutoff: int)
    requires id in s.requests
    ensures Step(s, Process(id, Reject, cutoff))
         == if s.requests[id].status == Pending then s.(requests := s.requests[id := s.requests[id].(status := Rejected)]) else s
  {
  }

  /** Everything the request holds is captured and not paid out, and it holds something. */
  predicate AllOpen(s: State, ids: seq<int>) {
    ids != [] && forall p | p in ids :: 0 <= p < |s.payments| && s.payments[p].success && !s.payments[p].paid
  }

  /**
   * Finishing an APPROVED request completes it if all it holds is still open; if some payment was
   * refunded or paid out meanwhile it goes back to PENDING and holds nothing.
   */
  lemma FinishOutcome(s: State, id: nat, cutoff: int)
    requires id in s.requests
    ensures var r := s.requests[id];
            Step(s, Process(id, Finish, cutoff))
            == (if r.status != Approved || r.ids == [] then s
                else s.(requests := s.requests[id := if AllOpen(s, r.ids) then r.(status := Completed) else r.(status := Pending, ids := [])]))
  {
  }

  /** A request is turned COMPLETED by no step but one that finds it APPROVED with all it holds open. */
  lemma CompletesOnlyOverOpenPayments(s: State, act: Action, id: nat)
    requires id in Step(s, act).requests && Step(s, act).requests[id].status == Completed
    requires id !in s.requests || s.requests[id].status != Completed
    ensures id in s.requests && s.requests[id].status == Approved && AllOpen(s, s.requests[id].ids)
    ensures Step(s, act).requests[id] == s.requests[id].(status := Completed)
  {
  }

  /** The request was completed at some point of the run, over payments that were all open then. */
  ghost predicate WasCompletedOpen(s: State, acts: seq<Action>, id: nat, ids: seq<int>) {
    exists k :: 0 <= k < |acts| && FoundOpen(Run(s, acts[..k]), id, ids)
  }

  predicate FoundOpen(s: State, id: nat, ids: seq<int>) {
    id in s.requests && s.requests[id].status == Approved && s.requests[id].ids == ids && AllOpen(s, ids)
  }

  /**
   * Over every run: whatever is COMPLETED at the end was so from the start, or was completed in the
   * run while everything it holds was captured and not paid out.
   */
  lemma {:induction false} CompletedWasOpen(s: State, acts: seq<Action>, id: nat)
    requires id in Run(s, acts).requests && Run(s, acts).requests[id].status == Completed
    ensures (id in s.requests && s.requests[id] == Run(s, acts).requests[id])
            || WasCompletedOpen(s, acts, id, Run(s, acts).requests[id].ids)
  {
    if acts != [] {
      var n := |acts| - 1;
      var m := Run(s, acts[..n]);
      if id in m.requests && m.requests[id].status == Completed {
        CompletedStays(m, acts[n], id);
        CompletedWasOpen(s, acts[..n], id);
        var ids := m.requests[id].ids;
        if WasCompletedOpen(s, acts[..n], id, ids) {
          var k :| 0 <= k < n && FoundOpen(Run(s, acts[..n][..k]), id, ids);
          assert acts[..n][..k] == acts[..k];
        }
      } else {
        CompletesOnlyOverOpenPayments(m, acts[n], id);
        assert FoundOpen(Run(s, acts[..n]), id, m.requests[id].ids);
      }
    }
  }

  lemma CompletedStays(m: State, act: Action, id: nat)
    requires id in m.requests && m.requests[id].status == Completed
    requires id in Step(m, act).requests && Step(m, act).requests[id].status == Completed
    ensures Step(m, act).requests[id] == m.requests[id]
  {
  }

  // ----- completing with check and write apart -----

  /** The write about to commit completes no request, or one with all it holds open. */
  predicate CompletionFits(d: Desk, e: Event) {
    e.Commit? && e.k < |d.open| && d.open[e.k].FinishLater? && d.open[e.k].complete
    && d.open[e.k].id in d.state.requests && d.state.requests[d.open[e.k].id].status == Approved
    ==> AllOpen(d.state, d.state.requests[d.open[e.k].id].ids)
  }

  predicate CompletionsFit(d: Desk, es: seq<Event>) {
    es == [] || (CompletionsFit(d, es[..|es| - 1]) && CompletionFits(DeskRun(d, es[..|es| - 1]), es[|es| - 1]))
  }

  /** No write in the hands of its call would set a request to COMPLETED otherwise. */
  predicate Sane(d: Desk) {
    forall w | w in d.open && w.RevertLater? :: MayRevert(w.seen, w.target)
  }

  lemma {:induction false} RunIsSane(d: Desk, es: seq<Event>)
    requires Sane(d)
    ensures Sane(DeskRun(d, es))
  {
    if es != [] {
      RunIsSane(d, es[..|es| - 1]);
    }
  }

  /** One step turns requests COMPLETED over open payments only, exactly when a late completion it commits still fits. */
  lemma LateCompletionExactly(d: Desk, e: Event)
    requires Sane(d) && (forall id | id in d.state.requests && d.state.requests[id].status == Approved :: d.state.requests[id].ids != [])
    ensures CompletionFits(d, e)
            <==> forall id | id in DeskStep(d, e).state.requests && DeskStep(d, e).state.requests[id].status == Completed
                             && !(id in d.state.requests && d.state.requests[id].status == Completed) ::
                   id in d.state.requests && FoundOpen(d.state, id, d.state.requests[id].ids)
  {
    var s, e' := d.state, DeskStep(d, e);
    if e.Whole? {
      forall id | id in e'.state.requests && e'.state.requests[id].status == Completed && !(id in s.requests && s.requests[id].status == Completed)
        ensures FoundOpen(s, id, s.requests[id].ids)
      {
        CompletesOnlyOverOpenPayments(s, e.act, id);
      }
    } else if e.Commit? && e.k < |d.open| {
      assert d.open[e.k] in d.open;
    }
  }

  lemma CompletedStaysAtDesk(d: Desk, e: Event, id: nat)
    requires id in d.state.requests && d.state.requests[id].status == Completed
    requires id in DeskStep(d, e).state.requests && DeskStep(d, e).state.requests[id].status == Completed
    requires Sane(d)
    ensures DeskStep(d, e).state.requests[id] == d.state.requests[id]
  {
    if e.Whole? {
      CompletedStays(d.state, e.act, id);
    } else if e.Commit? && e.k < |d.open| {
      assert d.open[e.k] in d.open;
    }
  }

  /** At some point of the run the request was APPROVED for these payments, and all of them were open. */
  ghost predicate WasFoundOpen(d: Desk, es: seq<Event>, id: nat, ids: seq<int>) {
    exists k :: 0 <= k < |es| && FoundOpen(DeskRun(d, es[..k]).state, id, ids)
  }

  /**
   * Over every interleaving whose late writes and completions fit: whatever is COMPLETED at the end was
   * so from the start, or all it holds was captured and not paid out when it was completed.
   */
  lemma {:induction false} InterleavedCompletedWasOpen(d: Desk, es: seq<Event>, id: nat)
    requires SoundDesk(d) && Sane(d) && CommitsFit(d, es) && CompletionsFit(d, es)
    requires id in DeskRun(d, es).state.requests && DeskRun(d, es).state.requests[id].status == Completed
    ensures (id in d.state.requests && d.state.requests[id] == DeskRun(d, es).state.requests[id])
            || WasFoundOpen(d, es, id, DeskRun(d, es).state.requests[id].ids)
  {
    if es != [] {
      var n := |es| - 1;
      var m := DeskRun(d, es[..n]);
      RunIsSane(d, es[..n]);
      InterleavingsKeepSound(d, es[..n]);
      if id in m.state.requests && m.state.requests[id].status == Completed {
        CompletedStaysAtDesk(m, es[n], id);
        InterleavedCompletedWasOpen(d, es[..n], id);
        var ids := m.state.requests[id].ids;
        if WasFoundOpen(d, es[..n], id, ids) {
          var k :| 0 <= k < n && FoundOpen(DeskRun(d, es[..n][..k]).state, id, ids);
          assert es[..n][..k] == es[..k];
        }
      } else {
        ApprovedHoldSomething(m.state);
        LateCompletionExactly(m, es[n]);
        CompletedKeepsIds(m, es[n], id);
        assert FoundOpen(DeskRun(d, es[..n]).state, id, m.state.requests[id].ids);
      }
    }
  }

  lemma ApprovedHoldSomething(s: State)
    requires Sound(s)
    ensures forall id | id in s.requests && s.requests[id].status == Approved :: s.requests[id].ids != []
  {
  }

  /** Completing changes nothing but the status. */
  lemma CompletedKeepsIds(d: Desk, e: Event, id: nat)
    requires Sane(d) && id in d.state.requests && d.state.requests[id].status == Approved
    requires id in DeskStep(d, e).state.requests && DeskStep(d, e).state.requests[id].status == Completed
    ensures DeskStep(d, e).state.requests[id].ids == d.state.requests[id].ids
  {
    if e.Whole? {
      CompletesOnlyOverOpenPayments(d.state, e.act, id);
    } else if e.Commit? && e.k < |d.open| {
      assert d.open[e.k] in d.open;
    }
  }

  /**
   * Such a completion does come late: the count passes, a payment is refunded (or marked paid), and the
   * request is COMPLETED all the same.
   */
  lemma LateCompletionOverRefund(s: State, id: nat, p: int)
    requires id in s.requests && s.requests[id].status == Approved && AllOpen(s, s.requests[id].ids) && p in s.requests[id].ids
    ensures var d := DeskStep(DeskStep(Desk(s, []), CheckFinish(id)), Whole(Refund(p)));
            var e := DeskStep(d, Commit(0)).state;
            && !CompletionFits(d, Commit(0))
            && id in e.requests && e.requests[id].status == Completed && p in e.requests[id].ids && !e.payments[p].success
  {
    var d := DeskStep(Desk(s, []), CheckFinish(id));
    assert d == Desk(s, [FinishLater(id, true)]);
    var m := DeskStep(d, Whole(Refund(p)));
    assert m.open == [FinishLater(id, true)] && m.state.requests == s.requests;
  }

  // ----- taking back -----

  /**
   * A request can be sent back to PENDING from APPROVED, REJECTED or COMPLETED, and to APPROVED from
   * COMPLETED, if its vendor has no other in flight; a COMPLETED one only while all it holds is open.
   */
  lemma ReversalOutcome(s: State, id: nat, target: RequestStatus)
    requires id in s.requests
    ensures var r := s.requests[id];
            Step(s, Revert(id, target))
            == (if ((target == Pending && r.status != Pending) || (target == Approved && r.status == Completed))
               && !Busy(s, r.vendor, Some(id))
               && (r.status == Completed ==> forall p | p in r.ids :: 0 <= p < |s.payments| && s.payments[p].success && !s.payments[p].paid)
            then s.(requests := s.requests[id := r.(status := target, ids := if target == Pending then [] else r.ids)]) else s)
  {
  }

  /** Only a REJECTED request can be deleted. */
  lemma DeletionOutcome(s: State, id: nat)
    requires id in s.requests
    ensures Step(s, Delete(id)) == if s.requests[id].status == Rejected then s.(requests := s.requests - {id}) else s
  {
  }

  // ----- marking payments -----

  /** A request speaks for payment p: PENDING for everything of its vendor, APPROVED for what it holds. */
  predicate Claimed(s: State, p: int) {
    0 <= p < |s.payments|
    && exists id :: id in s.requests
         && ((s.requests[id].status == Pending && s.requests[id].vendor == s.payments[p].vendor)
             || (s.requests[id].status == Approved && s.requests[id].vendor == s.payments[p].vendor && p in s.requests[id].ids))
  }

  /** The batch is refused if it names somebody suspended, something claimed, or something open too recent. */
  predicate BatchRefused(s: State, ids: seq<int>, cutoff: int, suspended: set<nat>) {
    exists p :: p in ids && 0 <= p < |s.payments|
      && (s.payments[p].vendor in suspended || Claimed(s, p)
          || (s.payments[p].success && !s.payments[p].paid && s.payments[p].end >= cutoff))
  }

  /** All or nothing: a batch that is not refused marks exactly its captured payments. */
  lemma MarkPaidOutcome(s: State, ids: seq<int>, cutoff: int, suspended: set<nat>)
    ensures var s' := Step(s, MarkPaid(ids, cutoff, suspended));
            if BatchRefused(s, ids, cutoff, suspended) then s' == s
            else
              && s'.requests == s.requests && s'.next == s.next && |s'.payments| == |s.payments|
              && forall p | 0 <= p < |s.payments| ::
                   s'.payments[p] == if p in ids && s.payments[p].success then s.payments[p].(paid := true) else s.payments[p]
  {
    if BatchRefused(s, ids, cutoff, suspended) {
      var p :| p in ids && 0 <= p < |s.payments|
               && (s.payments[p].vendor in suspended || Claimed(s, p)
                   || (s.payments[p].success && !s.payments[p].paid && s.payments[p].end >= cutoff));
      ClaimedIsBlocked(s, p);
      assert Refused(s, p, cutoff, suspended);
    } else {
      forall p | p in ids ensures !Refused(s, p, cutoff, suspended) {
        ClaimedIsBlocked(s, p);
      }
    }
  }

  lemma ClaimedIsBlocked(s: State, p: int)
    ensures Claimed(s, p) <==> Blocked(s, p)
  {
  }

  /** Only a captured PAID payment that no request holds can be taken back. */
  lemma MarkUnpaidOutcome(s: State, p: int)
    ensures Step(s, MarkUnpaid(p))
         == if 0 <= p < |s.payments| && s.payments[p].success && s.payments[p].paid && !Held(s, p)
            then s.(payments := s.payments[p := s.payments[p].(paid := false)]) else s
  {
    HeldIsLocked(s, p);
  }
}
