/**
 * Peak concurrency of bookings: the event sweep, proved equal to the largest load at any instant.
 *
 * Times are integers (any unit finer than a minute works the same way). A stay is present at `t`
 * when start <= t < end: leaving at the moment another guest arrives is not an overlap.
 */
module Occupancy {
  import opened Common

  /** A row of the availability queries. `unit == None` is an unassigned ("orphan") booking. */
  datatype Stay = Stay(id: nat, start: int, end: int, guests: nat, unit: Option<int>)

  /** What every stored booking satisfies: a non-empty time range and at least one guest. */
  predicate Proper(b: Stay) {
    b.start < b.end && b.guests >= 1
  }

  predicate Overlaps(b: Stay, lo: int, hi: int) {
    b.start < hi && b.end > lo
  }

  predicate Covers(b: Stay, t: int) {
    b.start <= t < b.end
  }

  // ----- the simple form: load at an instant -----

  function GuestsAt(t: int): Stay -> int {
    (b: Stay) => if Covers(b, t) then b.guests else 0
  }

  function Load(bs: seq<Stay>, t: int): int {
    Sum(bs, GuestsAt(t))
  }

  lemma LoadNonNegative(bs: seq<Stay>, t: int)
    ensures 0 <= Load(bs, t)
  {
    SumNonNegative(bs, GuestsAt(t));
  }

  /** The largest number of guests present at any instant of [from, to); 0 for an empty window. */
  function Peak(bs: seq<Stay>, lo: int, hi: int): int
    decreases hi - lo
  {
    if lo >= hi then 0 else Max(Load(bs, lo), Peak(bs, lo + 1, hi))
  }

  lemma {:induction false} PeakAtMost(bs: seq<Stay>, lo: int, hi: int, k: int)
    requires 0 <= k
    ensures Peak(bs, lo, hi) <= k <==> (forall t | lo <= t < hi :: Load(bs, t) <= k)
    decreases hi - lo
  {
    if lo < hi {
      PeakAtMost(bs, lo + 1, hi, k);
      assert lo <= lo < hi;
    }
  }

  lemma {:induction false} PeakNonNegative(bs: seq<Stay>, lo: int, hi: int)
    ensures 0 <= Peak(bs, lo, hi)
    decreases hi - lo
  {
    if lo < hi {
      PeakNonNegative(bs, lo + 1, hi);
    }
  }

  lemma LoadAtMostPeak(bs: seq<Stay>, lo: int, hi: int, t: int)
    requires lo <= t < hi
    ensures Load(bs, t) <= Peak(bs, lo, hi)
  {
    PeakNonNegative(bs, lo, hi);
    PeakAtMost(bs, lo, hi, Peak(bs, lo, hi));
  }

  /** Two lists with the same load throughout the window have the same peak there. */
  lemma {:induction false} PeakSame(a: seq<Stay>, b: seq<Stay>, lo: int, hi: int)
    requires forall t | lo <= t < hi :: Load(a, t) == Load(b, t)
    ensures Peak(a, lo, hi) == Peak(b, lo, hi)
    decreases hi - lo
  {
    if lo < hi {
      PeakSame(a, b, lo + 1, hi);
    }
  }

  lemma {:induction false} PeakMonotone(a: seq<Stay>, b: seq<Stay>, lo: int, hi: int)
    requires forall t | lo <= t < hi :: Load(a, t) <= Load(b, t)
    ensures Peak(a, lo, hi) <= Peak(b, lo, hi)
    decreases hi - lo
  {
    if lo < hi {
      PeakMonotone(a, b, lo + 1, hi);
    }
  }

  // ----- the fast form: a sweep over start and end events -----

  datatype Event = Event(time: int, delta: int, isStart: bool)

  /** The comparator of the sweep: by time, and at one instant departures before arrivals. */
  predicate EventLe(a: Event, b: Event) {
    a.time < b.time || (a.time == b.time && (!a.isStart || b.isStart))
  }

  /** The two events of one booking, clipped to the window; none if it misses the window. */
  function EventsOf(b: Stay, lo: int, hi: int): seq<Event> {
    var s, e := Max(b.start, lo), Min(b.end, hi);
    if s >= e then [] else [Event(s, b.guests, true), Event(e, 0 - b.guests, false)]
  }

  function Events(bs: seq<Stay>, lo: int, hi: int): seq<Event> {
    if bs == [] then [] else Events(bs[..|bs| - 1], lo, hi) + EventsOf(bs[|bs| - 1], lo, hi)
  }

  function Delta(): Event -> int {
    (e: Event) => e.delta
  }

  /** The highest value a running total over `evs` reaches, starting from 0. */
  function Sweep(evs: seq<Event>): int {
    if evs == [] then 0 else Max(Sweep(evs[..|evs| - 1]), Sum(evs, Delta()))
  }

  function DeltaUpTo(t: int): Event -> int {
    (e: Event) => if e.time <= t then e.delta else 0
  }

  /** Every event time lies in the window; arrivals strictly before its end. */
  predicate InWindow(e: Event, lo: int, hi: int) {
    && lo <= e.time <= hi
    && (e.isStart ==> e.time < hi && e.delta >= 0)
    && (!e.isStart ==> e.delta <= 0)
  }

  lemma {:induction false} EventsInWindow(bs: seq<Stay>, lo: int, hi: int)
    ensures forall e | e in Events(bs, lo, hi) :: InWindow(e, lo, hi)
  {
    if bs != [] {
      EventsInWindow(bs[..|bs| - 1], lo, hi);
    }
  }

  /** Inside the window the load is what the events up to that instant add up to. */
  lemma {:induction false} LoadFromEvents(bs: seq<Stay>, lo: int, hi: int, t: int)
    requires lo <= t < hi
    ensures Load(bs, t) == Sum(Events(bs, lo, hi), DeltaUpTo(t))
  {
    if bs != [] {
      var n := |bs| - 1;
      var es := EventsOf(bs[n], lo, hi);
      LoadFromEvents(bs[..n], lo, hi, t);
      SumConcat(Events(bs[..n], lo, hi), es, DeltaUpTo(t));
      if es != [] {
        SumConcat([es[0]], [es[1]], DeltaUpTo(t));
        assert es == [es[0]] + [es[1]];
        SumAppend([], es[0], DeltaUpTo(t));
        SumAppend([], es[1], DeltaUpTo(t));
        assert [] + [es[0]] == [es[0]] && [] + [es[1]] == [es[1]];
      }
    }
  }

  lemma {:induction false} SweepReaches(evs: seq<Event>, k: nat)
    requires k <= |evs|
    ensures Sum(evs[..k], Delta()) <= Sweep(evs) && 0 <= Sweep(evs)
  {
    if k == |evs| {
      assert evs[..k] == evs;
      if evs != [] {
        SweepReaches(evs[..|evs| - 1], 0);
      }
    } else {
      assert evs[..|evs| - 1][..k] == evs[..k];
      SweepReaches(evs[..|evs| - 1], k);
    }
  }

  /** In sorted order the events up to `t` form a prefix. */
  lemma {:induction false} PrefixUpTo(evs: seq<Event>, t: int) returns (k: nat)
    requires Sorted(evs, EventLe)
    ensures k <= |evs|
    ensures forall i | 0 <= i < k :: evs[i].time <= t
    ensures forall i | k <= i < |evs| :: evs[i].time > t
    ensures Sum(evs, DeltaUpTo(t)) == Sum(evs[..k], Delta())
  {
    if evs == [] {
      return 0;
    }
    var n := |evs| - 1;
    if evs[n].time <= t {
      k := |evs|;
      assert evs[..k] == evs;
      forall i | 0 <= i < n ensures evs[i].time <= t {
        assert EventLe(evs[i], evs[n]);
      }
      SumSame(evs, DeltaUpTo(t), Delta());
    } else {
      k := PrefixUpTo(evs[..n], t);
      assert evs[..n][..k] == evs[..k];
    }
  }

  /** Every running total is bounded by the load at some instant of the window (or by 0). */
  lemma {:induction false} SweepBounded(all: seq<Event>, k: nat, lo: int, hi: int, bound: int)
    requires k <= |all| && Sorted(all, EventLe) && 0 <= bound
    requires forall e | e in all :: InWindow(e, lo, hi)
    requires forall t | lo <= t < hi :: Sum(all, DeltaUpTo(t)) <= bound
    ensures Sum(all[..k], Delta()) <= bound && Sweep(all[..k]) <= bound
  {
    if k > 0 {
      var last := all[k - 1];
      assert all[..k][..k - 1] == all[..k - 1];
      assert last in all;
      SweepBounded(all, k - 1, lo, hi, bound);
      if last.isStart {
        var j := PrefixUpTo(all, last.time);
        assert k <= j;
        assert all[..j] == all[..k] + all[k..j];
        SumConcat(all[..k], all[k..j], Delta());
        forall x | x in all[k..j] ensures 0 <= Delta()(x) {
          var i :| k <= i < j && all[i] == x;
          assert EventLe(last, all[i]) && all[i] in all;
        }
        SumNonNegative(all[k..j], Delta());
      }
    }
  }

  /**
   * The sweep is exact whatever order the sort leaves tied events in: any arrangement of the
   * events that respects the comparator gives the largest load over the half-open window.
   */
  lemma SweepIsPeak(bs: seq<Stay>, lo: int, hi: int, evs: seq<Event>)
    requires multiset(evs) == multiset(Events(bs, lo, hi))
    requires Sorted(evs, EventLe)
    ensures Sweep(evs) == Peak(bs, lo, hi)
  {
    var es, peak := Events(bs, lo, hi), Peak(bs, lo, hi);
    EventsInWindow(bs, lo, hi);
    PeakNonNegative(bs, lo, hi);
    forall e | e in evs ensures InWindow(e, lo, hi) {
      assert e in multiset(evs);
    }
    forall t | lo <= t < hi ensures Load(bs, t) == Sum(evs, DeltaUpTo(t)) {
      LoadFromEvents(bs, lo, hi, t);
      SumPermutation(evs, es, DeltaUpTo(t));
    }
    SweepReaches(evs, 0);
    forall t | lo <= t < hi ensures Load(bs, t) <= Sweep(evs) {
      var k := PrefixUpTo(evs, t);
      SweepReaches(evs, k);
    }
    PeakAtMost(bs, lo, hi, Sweep(evs));
    forall t | lo <= t < hi ensures Sum(evs, DeltaUpTo(t)) <= peak {
      LoadAtMostPeak(bs, lo, hi, t);
    }
    SweepBounded(evs, |evs|, lo, hi, peak);
    assert evs[..|evs|] == evs;
  }

  lemma EventLeTotal()
    ensures TotalPreorder(EventLe)
  {
  }

  /** Peak number of guests present at one instant of [windowStart, windowEnd). */
  method MaxConcurrentInWindow(bookings: seq<Stay>, windowStart: int, windowEnd: int) returns (peak: int)
    ensures peak == Peak(bookings, windowStart, windowEnd)
  {
    var events: seq<Event> := [];
    for i := 0 to |bookings|
      invariant events == Events(bookings[..i], windowStart, windowEnd)
    {
      var b := bookings[i];
      assert bookings[..i + 1][..i] == bookings[..i];
      var s := if b.start > windowStart then b.start else windowStart;
      var e := if b.end < windowEnd then b.end else windowEnd;
      if s >= e {
        continue;
      }
      events := events + [Event(s, b.guests, true)];
      events := events + [Event(e, 0 - b.guests, false)];
    }
    assert bookings[..|bookings|] == bookings;
    var sorted := Sort(events, EventLe);
    var current := 0;
    peak := 0;
    for i := 0 to |sorted|
      invariant current == Sum(sorted[..i], Delta())
      invariant peak == Sweep(sorted[..i])
    {
      assert sorted[..i + 1][..i] == sorted[..i];
      current := current + sorted[i].delta;
      if current > peak {
        peak := current;
      }
    }
    assert sorted[..|sorted|] == sorted;
    EventLeTotal();
    SortSorts(events, EventLe);
    SweepIsPeak(bookings, windowStart, windowEnd, sorted);
  }
}
