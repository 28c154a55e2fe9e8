/**
 * Giving units to bookings taken before their activity had any: first-fit packing in start order
 * around the bookings that already hold a unit, all or nothing.
 */
module Backfill {
  import opened Common
  import opened Occupancy
  import opened Capacity
  import opened BookingTable

  // ----- what the backfill reads -----

  function PlacedRow(now: int): Row -> bool {
    (r: Row) => Holds(r, now) && r.stay.end > now && r.stay.unit.Some?
  }

  function WaitingRow(now: int): Row -> bool {
    (r: Row) => Holds(r, now) && r.stay.end > now && r.stay.unit.None?
  }

  /** Oldest stay first, then by creation, then by id. */
  predicate RowLe(x: Row, y: Row) {
    x.stay.start < y.stay.start
    || (x.stay.start == y.stay.start
        && (x.createdAt < y.createdAt || (x.createdAt == y.createdAt && x.stay.id <= y.stay.id)))
  }

  function Placed(rows: seq<Row>, now: int): seq<Stay> {
    Map(Filter(rows, PlacedRow(now)), StayOf())
  }

  function Waiting(rows: seq<Row>, now: int): seq<Stay> {
    Map(Sort(Filter(rows, WaitingRow(now)), RowLe), StayOf())
  }

  // ----- the packing -----

  datatype Packing = Packing(placed: seq<Stay>, chosen: map<nat, int>, failed: seq<nat>)

  /** The lowest unit from `u` up that takes `b` next to what is already placed. */
  function FirstFit(a: Activity, placed: seq<Stay>, b: Stay, u: nat): Option<int>
    decreases a.unitCount + 1 - u
  {
    if u > a.unitCount then None
    else if UnitFits(a, placed, b.start, b.end, b.guests, u) then Some(u)
    else FirstFit(a, placed, b, u + 1)
  }

  /** The stay `b` placed on unit `u`. */
  function Onto(b: Stay, u: int): Stay {
    b.(unit := Some(u))
  }

  /** Packs `todo` in order; a booking no unit takes is reported and left out. */
  function Pack(a: Activity, placed: seq<Stay>, todo: seq<Stay>): Packing {
    if todo == [] then Packing(placed, map[], [])
    else
      var p, b := Pack(a, placed, todo[..|todo| - 1]), todo[|todo| - 1];
      match FirstFit(a, p.placed, b, 1)
      case None => p.(failed := p.failed + [b.id])
      case Some(u) => Packing(p.placed + [Onto(b, u)], p.chosen[b.id := u], p.failed)
  }

  function AssignStay(chosen: map<nat, int>): Stay -> Stay {
    (b: Stay) => if b.id in chosen then Onto(b, chosen[b.id]) else b
  }

  function AssignRow(chosen: map<nat, int>): Row -> Row {
    (r: Row) => if r.stay.id in chosen then r.(stay := Onto(r.stay, chosen[r.stay.id])) else r
  }

  datatype Outcome = Skipped | RefusedOutOfRange | RefusedUnplaceable(ids: seq<nat>) | Done(count: nat)

  /** The outcome and the table afterwards. */
  function Backfilled(a: Activity, rows: seq<Row>, now: int): (Outcome, seq<Row>) {
    if !a.hasUnits || a.unitCount < 1 then (Skipped, rows)
    else if Filter(Placed(rows, now), OutOfRange(a.unitCount)) != [] then (RefusedOutOfRange, rows)
    else
      var p := Pack(a, Placed(rows, now), Waiting(rows, now));
      if p.failed != [] then (RefusedUnplaceable(p.failed), rows)
      else (Done(|Waiting(rows, now)|), Map(rows, AssignRow(p.chosen)))
  }

  lemma RowLeTotal()
    ensures TotalPreorder(RowLe)
  {
  }

  // ----- what first-fit guarantees -----

  lemma {:induction false} FirstFitIsLowest(a: Activity, placed: seq<Stay>, b: Stay, u: nat)
    ensures match FirstFit(a, placed, b, u)
            case Some(v) =>
              u <= v <= a.unitCount && UnitFits(a, placed, b.start, b.end, b.guests, v)
              && forall w | u <= w < v :: !UnitFits(a, placed, b.start, b.end, b.guests, w)
            case None => forall w | u <= w <= a.unitCount :: !UnitFits(a, placed, b.start, b.end, b.guests, w)
    decreases a.unitCount + 1 - u
  {
    if u <= a.unitCount && !UnitFits(a, placed, b.start, b.end, b.guests, u) {
      FirstFitIsLowest(a, placed, b, u + 1);
    }
  }

  function IdOf(): Stay -> nat {
    (b: Stay) => b.id
  }

  function Ids(bs: seq<Stay>): set<nat> {
    if bs == [] then {} else Ids(bs[..|bs| - 1]) + {bs[|bs| - 1].id}
  }

  lemma {:induction false} IdsMember(bs: seq<Stay>, id: nat)
    ensures id in Ids(bs) <==> exists b :: b in bs && b.id == id
  {
    if bs != [] {
      var n := |bs| - 1;
      IdsMember(bs[..n], id);
      assert bs == bs[..n] + [bs[n]];
      if id in Ids(bs[..n]) {
        var b :| b in bs[..n] && b.id == id;
        assert b in bs;
      } else if id == bs[n].id {
        assert bs[n] in bs;
      }
    }
  }

  /** A complete packing chooses a unit in range for exactly the waiting stays. */
  lemma {:induction false} PackChooses(a: Activity, placed: seq<Stay>, todo: seq<Stay>)
    requires Pack(a, placed, todo).failed == []
    ensures Pack(a, placed, todo).chosen.Keys == Ids(todo)
    ensures forall id | id in Pack(a, placed, todo).chosen :: 1 <= Pack(a, placed, todo).chosen[id] <= a.unitCount
  {
    if todo != [] {
      var n := |todo| - 1;
      PackChooses(a, placed, todo[..n]);
      FirstFitIsLowest(a, Pack(a, placed, todo[..n]).placed, todo[n], 1);
    }
  }

  /** Choosing a unit for the last of distinct stays leaves the others' assignment as it was. */
  lemma AssignLast(todo: seq<Stay>, chosen: map<nat, int>, u: int)
    requires todo != [] && Distinct(todo, IdOf())
    ensures var n := |todo| - 1;
            Map(todo, AssignStay(chosen[todo[n].id := u])) == Map(todo[..n], AssignStay(chosen)) + [Onto(todo[n], u)]
  {
    var n := |todo| - 1;
    var after := chosen[todo[n].id := u];
    forall i | 0 <= i < n ensures AssignStay(after)(todo[i]) == AssignStay(chosen)(todo[i]) {
      assert IdOf()(todo[i]) != IdOf()(todo[n]);
    }
  }

  /** A complete packing appends every waiting stay, unchanged but for its unit. */
  lemma {:induction false} PackAppends(a: Activity, placed: seq<Stay>, todo: seq<Stay>)
    requires Distinct(todo, IdOf())
    requires Pack(a, placed, todo).failed == []
    ensures Pack(a, placed, todo).placed == placed + Map(todo, AssignStay(Pack(a, placed, todo).chosen))
  {
    if todo != [] {
      var n := |todo| - 1;
      var q := Pack(a, placed, todo[..n]);
      PackAppends(a, placed, todo[..n]);
      AssignLast(todo, q.chosen, FirstFit(a, q.placed, todo[n], 1).value);
    }
  }

  /** Each unit, on its own, is not oversold at `t`. */
  ghost predicate UnitsSafeAt(a: Activity, bs: seq<Stay>, t: int) {
    forall u | 1 <= u <= a.unitCount ::
      if RentsWholeUnit(a) then CountAmong(bs, OnUnit(u), t) <= 1
      else GuestsAmong(bs, OnUnit(u), t) <= a.unitCapacity
  }

  predicate AllHaveUnits(bs: seq<Stay>) {
    forall b | b in bs :: b.unit.Some?
  }

  lemma {:induction false} PackHasUnits(a: Activity, placed: seq<Stay>, todo: seq<Stay>)
    requires AllHaveUnits(placed)
    ensures AllHaveUnits(Pack(a, placed, todo).placed)
  {
    if todo != [] {
      PackHasUnits(a, placed, todo[..|todo| - 1]);
    }
  }

  /** Packing never oversells a unit at an instant at which it was not oversold already. */
  lemma {:induction false} PackKeepsUnitsSafe(a: Activity, placed: seq<Stay>, todo: seq<Stay>, t: int)
    requires a.hasUnits && AllHaveUnits(placed) && UnitsSafeAt(a, placed, t)
    requires forall b | b in todo :: Proper(b)
    ensures UnitsSafeAt(a, Pack(a, placed, todo).placed, t)
  {
    if todo != [] {
      var n := |todo| - 1;
      var p, b := Pack(a, placed, todo[..n]), todo[n];
      PackKeepsUnitsSafe(a, placed, todo[..n], t);
      PackHasUnits(a, placed, todo[..n]);
      FirstFitIsLowest(a, p.placed, b, 1);
      match FirstFit(a, p.placed, b, 1)
      case None =>
      case Some(v) =>
        PlaceKeepsUnitsSafe(a, p.placed, b, v, t);
    }
  }

  lemma PlaceKeepsUnitsSafe(a: Activity, placed: seq<Stay>, b: Stay, v: int, t: int)
    requires a.hasUnits && AllHaveUnits(placed) && UnitsSafeAt(a, placed, t) && Proper(b)
    requires 1 <= v <= a.unitCount && UnitFits(a, placed, b.start, b.end, b.guests, v)
    ensures UnitsSafeAt(a, placed + [Onto(b, v)], t)
  {
    var c := Onto(b, v);
    forall u | 1 <= u <= a.unitCount
      ensures if RentsWholeUnit(a) then CountAmong(placed + [c], OnUnit(u), t) <= 1
              else GuestsAmong(placed + [c], OnUnit(u), t) <= a.unitCapacity
    {
      SumAppend(placed, c, OneWhere(OnUnit(u), t));
      SumAppend(placed, c, GuestsWhere(OnUnit(u), t));
      if u == v && Covers(b, t) {
        if RentsWholeUnit(a) {
          FreeUnitEmpty(a, placed, b.start, b.end, b.guests, v);
        } else {
          FitsMeansRoom(a, placed, b.start, b.end, b.guests, v);
          assert GuestsAmong(placed, Shared(v), t) + b.guests <= a.unitCapacity;
          SumSame(placed, GuestsWhere(OnUnit(u), t), GuestsWhere(Shared(u), t));
        }
      }
    }
  }

  // ----- greedy packing never gives up on a packable set -----

  function Anyone(): Stay -> bool {
    (b: Stay) => true
  }

  predicate StartSorted(bs: seq<Stay>) {
    forall i, j | 0 <= i < j < |bs| :: bs[i].start <= bs[j].start
  }

  function AmongUnits(n: nat): Stay -> bool {
    (b: Stay) => b.unit.Some? && 1 <= b.unit.value <= n
  }

  /** If no unit is held twice at `t`, at most n stays sit in units 1..n. */
  lemma {:induction false} AtMostOnePerUnit(bs: seq<Stay>, n: nat, t: int)
    requires forall u | 1 <= u <= n :: CountAmong(bs, OnUnit(u), t) <= 1
    ensures CountAmong(bs, AmongUnits(n), t) <= n
  {
    if n == 0 {
      SumSame(bs, OneWhere(AmongUnits(0), t), Zero());
      SumZero(bs);
    } else {
      AtMostOnePerUnit(bs, n - 1, t);
      SumSplit(bs, OneWhere(AmongUnits(n - 1), t), OneWhere(OnUnit(n), t), OneWhere(AmongUnits(n), t));
    }
  }

  /** If every unit 1..n is held at `t`, at least n stays sit in them. */
  lemma {:induction false} AtLeastOnePerUnit(bs: seq<Stay>, n: nat, t: int)
    requires forall u | 1 <= u <= n :: CountAmong(bs, OnUnit(u), t) >= 1
    ensures CountAmong(bs, AmongUnits(n), t) >= n
  {
    if n == 0 {
      SumNonNegative(bs, OneWhere(AmongUnits(0), t));
    } else {
      AtLeastOnePerUnit(bs, n - 1, t);
      SumSplit(bs, OneWhere(AmongUnits(n - 1), t), OneWhere(OnUnit(n), t), OneWhere(AmongUnits(n), t));
    }
  }

  lemma SamePresence(b: Stay, u: int, t: int)
    ensures OneWhere(Anyone(), t)(Onto(b, u)) == OneWhere(Anyone(), t)(b)
  {
    assert Covers(Onto(b, u), t) == Covers(b, t);
  }

  /** Placing a stay changes nothing about who is present when; failures are only left out. */
  lemma {:induction false} PackCount(a: Activity, placed: seq<Stay>, todo: seq<Stay>, t: int)
    ensures var p := Pack(a, placed, todo);
            CountAmong(p.placed, Anyone(), t) <= CountAmong(placed, Anyone(), t) + CountAmong(todo, Anyone(), t)
            && (p.failed == [] ==>
                  CountAmong(p.placed, Anyone(), t) == CountAmong(placed, Anyone(), t) + CountAmong(todo, Anyone(), t))
  {
    if todo != [] {
      var n := |todo| - 1;
      var p, b := Pack(a, placed, todo[..n]), todo[n];
      var w := OneWhere(Anyone(), t);
      PackCount(a, placed, todo[..n], t);
      match FirstFit(a, p.placed, b, 1)
      case None =>
      case Some(u) =>
        SumAppend(p.placed, Onto(b, u), w);
        SamePresence(b, u, t);
    }
  }

  /** Everything placed so far started no later than a bound that `placed` and `todo` respect. */
  lemma {:induction false} PackStarts(a: Activity, placed: seq<Stay>, todo: seq<Stay>, s: int)
    requires forall b | b in placed :: b.start <= s
    requires forall b | b in todo :: b.start <= s
    ensures forall b | b in Pack(a, placed, todo).placed :: b.start <= s
  {
    if todo != [] {
      PackStarts(a, placed, todo[..|todo| - 1], s);
    }
  }

  /** A stay first-fit cannot place arrives while every unit is taken. */
  lemma {:induction false} FailureMeansOverload(a: Activity, todo: seq<Stay>) returns (t: int)
    requires RentsWholeUnit(a) && StartSorted(todo)
    requires forall b | b in todo :: Proper(b)
    requires Pack(a, [], todo).failed != []
    ensures CountAmong(todo, Anyone(), t) > a.unitCount
  {
    var n := |todo| - 1;
    var p, b := Pack(a, [], todo[..n]), todo[n];
    assert todo == todo[..n] + [b];
    if p.failed != [] {
      t := FailureMeansOverload(a, todo[..n]);
      SumAppend(todo[..n], b, OneWhere(Anyone(), t));
    } else {
      t := b.start;
      FirstFitIsLowest(a, p.placed, b, 1);
      PackStarts(a, [], todo[..n], b.start);
      forall u | 1 <= u <= a.unitCount ensures CountAmong(p.placed, OnUnit(u), t) >= 1 {
        assert !UnitFits(a, p.placed, b.start, b.end, b.guests, u);
        var x :| x in p.placed && x.unit == Some(u) && Overlaps(x, b.start, b.end);
        SumAtLeast(p.placed, OneWhere(OnUnit(u), t), x);
      }
      AtLeastOnePerUnit(p.placed, a.unitCount, t);
      assert CountAmong(p.placed, AmongUnits(a.unitCount), t) >= a.unitCount;
      SumBounds(p.placed, OneWhere(AmongUnits(a.unitCount), t), OneWhere(Anyone(), t));
      PackCount(a, [], todo[..n], t);
      assert CountAmong(p.placed, Anyone(), t) == CountAmong(todo[..n], Anyone(), t);
      SumAppend(todo[..n], b, OneWhere(Anyone(), t));
      assert Proper(b) && Covers(b, t);
    }
  }

  lemma {:induction false} PackInRange(a: Activity, placed: seq<Stay>, todo: seq<Stay>)
    requires forall b | b in placed :: AmongUnits(a.unitCount)(b)
    ensures forall b | b in Pack(a, placed, todo).placed :: AmongUnits(a.unitCount)(b)
  {
    if todo != [] {
      var n := |todo| - 1;
      PackInRange(a, placed, todo[..n]);
      FirstFitIsLowest(a, Pack(a, placed, todo[..n]).placed, todo[n], 1);
    }
  }

  /**
   * Whole units, nobody placed yet, stays taken in start order: first-fit leaves somebody out
   * exactly when at some instant more stays are present than there are units.
   */
  lemma PackingIsOptimal(a: Activity, todo: seq<Stay>)
    requires RentsWholeUnit(a) && StartSorted(todo)
    requires forall b | b in todo :: Proper(b)
    ensures Pack(a, [], todo).failed != [] <==> exists t :: CountAmong(todo, Anyone(), t) > a.unitCount
  {
    if Pack(a, [], todo).failed != [] {
      var t := FailureMeansOverload(a, todo);
    } else {
      var p := Pack(a, [], todo).placed;
      PackInRange(a, [], todo);
      forall t ensures CountAmong(todo, Anyone(), t) <= a.unitCount {
        PackKeepsUnitsSafe(a, [], todo, t);
        AtMostOnePerUnit(p, a.unitCount, t);
        SumSame(p, OneWhere(AmongUnits(a.unitCount), t), OneWhere(Anyone(), t));
        PackCount(a, [], todo, t);
      }
    }
  }

  // ----- the whole backfill -----

  function FutureRow(now: int): Row -> bool {
    (r: Row) => Holds(r, now) && r.stay.end > now
  }

  /** The live bookings the backfill looks at: holding a seat and not over yet. */
  function Future(rows: seq<Row>, now: int): seq<Stay> {
    Map(Filter(rows, FutureRow(now)), StayOf())
  }

  function RowId(): Row -> nat {
    (r: Row) => r.stay.id
  }

  lemma SortedRows(rows: seq<Row>, now: int)
    requires WellFormed(rows)
    ensures var f := Filter(rows, WaitingRow(now));
            && Sorted(Sort(f, RowLe), RowLe) && Distinct(Sort(f, RowLe), RowId())
            && multiset(Sort(f, RowLe)) == multiset(f)
    ensures forall r :: r in Sort(Filter(rows, WaitingRow(now)), RowLe) <==> r in rows && WaitingRow(now)(r)
  {
    var f := Filter(rows, WaitingRow(now));
    RowLeTotal();
    SortSorts(f, RowLe);
    FilterMembers(rows, WaitingRow(now));
    FilterDistinct(rows, WaitingRow(now), RowId());
    SortDistinct(f, RowLe, RowId());
    forall r ensures r in Sort(f, RowLe) <==> r in f {
      assert r in Sort(f, RowLe) <==> r in multiset(Sort(f, RowLe));
      assert r in f <==> r in multiset(f);
    }
  }

  lemma WaitingFacts(rows: seq<Row>, now: int)
    requires WellFormed(rows)
    ensures Distinct(Waiting(rows, now), IdOf()) && StartSorted(Waiting(rows, now))
    ensures forall b | b in Waiting(rows, now) :: Proper(b)
    ensures multiset(Waiting(rows, now)) == multiset(Map(Filter(rows, WaitingRow(now)), StayOf()))
  {
    var s, w := Sort(Filter(rows, WaitingRow(now)), RowLe), Waiting(rows, now);
    SortedRows(rows, now);
    MapPermutation(s, Filter(rows, WaitingRow(now)), StayOf());
    forall i, j | 0 <= i < j < |w| ensures IdOf()(w[i]) != IdOf()(w[j]) && w[i].start <= w[j].start {
      assert RowId()(s[i]) != RowId()(s[j]) && RowLe(s[i], s[j]);
    }
    forall b | b in w ensures Proper(b) {
      var i :| 0 <= i < |w| && w[i] == b;
      assert s[i] in s;
    }
  }

  lemma WaitingIds(rows: seq<Row>, now: int, id: nat)
    requires WellFormed(rows)
    ensures id in Ids(Waiting(rows, now)) <==> id < |rows| && WaitingRow(now)(rows[id])
  {
    var s, w := Sort(Filter(rows, WaitingRow(now)), RowLe), Waiting(rows, now);
    SortedRows(rows, now);
    IdsMember(w, id);
    if id in Ids(w) {
      var b :| b in w && b.id == id;
      var i :| 0 <= i < |w| && w[i] == b;
      assert s[i] in s;
    }
    if id < |rows| && WaitingRow(now)(rows[id]) {
      assert rows[id] in s;
      var i :| 0 <= i < |s| && s[i] == rows[id];
      assert w[i] == rows[id].stay && w[i] in w;
    }
  }

  lemma PlacedFacts(rows: seq<Row>, now: int)
    ensures AllHaveUnits(Placed(rows, now))
  {
    FilterMembers(rows, PlacedRow(now));
    var p := Placed(rows, now);
    forall b | b in p ensures b.unit.Some? {
      var i :| 0 <= i < |p| && p[i] == b;
      assert Filter(rows, PlacedRow(now))[i] in Filter(rows, PlacedRow(now));
    }
  }

  lemma FutureSplits(rows: seq<Row>, now: int)
    requires WellFormed(rows)
    ensures multiset(Future(rows, now)) == multiset(Placed(rows, now) + Waiting(rows, now))
  {
    var f, p, w := Filter(rows, FutureRow(now)), Filter(rows, PlacedRow(now)), Filter(rows, WaitingRow(now));
    FutureFilters(rows, now);
    MapPermutation(f, p + w, StayOf());
    MapConcat(p, w, StayOf());
    WaitingFacts(rows, now);
  }

  lemma {:induction false} FutureFilters(rows: seq<Row>, now: int)
    ensures multiset(Filter(rows, FutureRow(now)))
         == multiset(Filter(rows, PlacedRow(now)) + Filter(rows, WaitingRow(now)))
  {
    if rows != [] {
      FutureFilters(rows[..|rows| - 1], now);
    }
  }

  /** An instant from `now` on only sees bookings the backfill sees. */
  lemma FutureIsWhatMatters(rows: seq<Row>, now: int, t: int, w: Stay -> int)
    requires now <= t && forall b | !Covers(b, t) :: w(b) == 0
    ensures Sum(Live(rows, now), w) == Sum(Future(rows, now), w)
  {
    SumMap(Filter(rows, Holding(now)), StayOf(), w);
    SumMap(Filter(rows, FutureRow(now)), StayOf(), w);
    FilterTwice(rows, Holding(now), FutureRow(now), FutureRow(now));
    FilterMembers(rows, Holding(now));
    SumFilter(Filter(rows, Holding(now)), FutureRow(now), Compose(StayOf(), w));
  }

  /** Reading the written rows back gives what writing the read rows gives. */
  lemma WriteThenRead(rs: seq<Row>, chosen: map<nat, int>)
    ensures Map(Map(rs, AssignRow(chosen)), StayOf()) == Map(Map(rs, StayOf()), AssignStay(chosen))
  {
  }

  /** The live bookings after a successful backfill are exactly the packed ones. */
  lemma FutureAfter(a: Activity, rows: seq<Row>, now: int)
    requires WellFormed(rows) && a.hasUnits && a.unitCount >= 1
    requires Pack(a, Placed(rows, now), Waiting(rows, now)).failed == []
    ensures var p := Pack(a, Placed(rows, now), Waiting(rows, now));
            multiset(Future(Map(rows, AssignRow(p.chosen)), now)) == multiset(p.placed)
  {
    var placed, todo := Placed(rows, now), Waiting(rows, now);
    var chosen := Pack(a, placed, todo).chosen;
    WaitingFacts(rows, now);
    PackAppends(a, placed, todo);
    FilterMap(rows, AssignRow(chosen), FutureRow(now));
    WriteThenRead(Filter(rows, FutureRow(now)), chosen);
    FutureSplits(rows, now);
    MapPermutation(Future(rows, now), placed + todo, AssignStay(chosen));
    MapConcat(placed, todo, AssignStay(chosen));
    PlacedUntouched(a, rows, now);
  }

  lemma PlacedUntouched(a: Activity, rows: seq<Row>, now: int)
    requires WellFormed(rows)
    requires Pack(a, Placed(rows, now), Waiting(rows, now)).failed == []
    ensures Map(Placed(rows, now), AssignStay(Pack(a, Placed(rows, now), Waiting(rows, now)).chosen)) == Placed(rows, now)
  {
    var placed, f := Placed(rows, now), Filter(rows, PlacedRow(now));
    PackChooses(a, placed, Waiting(rows, now));
    FilterMembers(rows, PlacedRow(now));
    forall i | 0 <= i < |placed| ensures placed[i].id !in Ids(Waiting(rows, now)) {
      assert f[i] in f;
      WaitingIds(rows, now, placed[i].id);
    }
  }

  /**
   * A successful backfill: every booking it is responsible for ends up with a unit that exists,
   * no unit already given is changed, nothing but units is written, and running it again (then
   * or later) finds nothing to do.
   */
  lemma BackfillAssignsEveryone(a: Activity, rows: seq<Row>, now: int, later: int)
    requires WellFormed(rows) && now <= later
    requires Backfilled(a, rows, now).0.Done?
    ensures var rows' := Backfilled(a, rows, now).1;
            && WellFormed(rows') && |rows'| == |rows|
            && (forall i | 0 <= i < |rows| ::
                  && rows'[i].(stay := rows[i].stay) == rows[i]
                  && rows'[i].stay.(unit := rows[i].stay.unit) == rows[i].stay
                  && (!WaitingRow(now)(rows[i]) ==> rows'[i] == rows[i]))
            && (forall i | 0 <= i < |rows| && FutureRow(now)(rows'[i]) :: AmongUnits(a.unitCount)(rows'[i].stay))
            && Backfilled(a, rows', later) == (Done(0), rows')
  {
    var rows' := Backfilled(a, rows, now).1;
    var p := Pack(a, Placed(rows, now), Waiting(rows, now));
    PackChooses(a, Placed(rows, now), Waiting(rows, now));
    forall i: nat | i < |rows| ensures i in p.chosen <==> WaitingRow(now)(rows[i]) {
      WaitingIds(rows, now, i);
    }
    forall i | 0 <= i < |rows|
      ensures rows'[i] == if WaitingRow(now)(rows[i]) then rows[i].(stay := Onto(rows[i].stay, p.chosen[i])) else rows[i]
    {
      assert rows' == Map(rows, AssignRow(p.chosen));
      assert rows[i].stay.id == i;
      assert rows'[i] == AssignRow(p.chosen)(rows[i]);
    }
    forall i | 0 <= i < |rows| && FutureRow(now)(rows'[i]) ensures AmongUnits(a.unitCount)(rows'[i].stay) {
      if rows[i].stay.unit.Some? {
        PlacedInRange(a, rows, now, i);
      }
    }
    NothingLeft(a, rows', now, later);
  }

  lemma PlacedInRange(a: Activity, rows: seq<Row>, now: int, i: nat)
    requires i < |rows| && PlacedRow(now)(rows[i])
    requires Filter(Placed(rows, now), OutOfRange(a.unitCount)) == []
    ensures AmongUnits(a.unitCount)(rows[i].stay)
  {
    var f := Filter(rows, PlacedRow(now));
    FilterMembers(rows, PlacedRow(now));
    FilterMembers(Placed(rows, now), OutOfRange(a.unitCount));
    assert rows[i] in f;
    var j :| 0 <= j < |f| && f[j] == rows[i];
    assert Placed(rows, now)[j] == rows[i].stay;
    assert rows[i].stay in Placed(rows, now);
  }

  /** Once every live booking sits in a real unit, a backfill is a no-op. */
  lemma NothingLeft(a: Activity, rows: seq<Row>, now: int, later: int)
    requires a.hasUnits && a.unitCount >= 1 && now <= later
    requires forall i | 0 <= i < |rows| && FutureRow(now)(rows[i]) :: AmongUnits(a.unitCount)(rows[i].stay)
    ensures Backfilled(a, rows, later) == (Done(0), rows)
  {
    forall r | r in rows ensures !WaitingRow(later)(r) {
      var i :| 0 <= i < |rows| && rows[i] == r;
      assert FutureRow(now)(r) ==> r.stay.unit.Some?;
    }
    FilterNone(rows, WaitingRow(later));
    var p := Filter(rows, PlacedRow(later));
    FilterMembers(rows, PlacedRow(later));
    forall b | b in Placed(rows, later) ensures !OutOfRange(a.unitCount)(b) {
      var j :| 0 <= j < |p| && Placed(rows, later)[j] == b;
      assert p[j] in p;
      var i :| 0 <= i < |rows| && rows[i] == p[j];
      assert FutureRow(now)(rows[i]);
    }
    FilterNone(Placed(rows, later), OutOfRange(a.unitCount));
    assert Pack(a, Placed(rows, later), []).chosen == map[];
    var none: map<nat, int> := map[];
    forall i | 0 <= i < |rows| ensures AssignRow(none)(rows[i]) == rows[i] {
    }
    assert Map(rows, AssignRow(none)) == rows;
  }

  /** A complete packing: every stay in a unit of the activity, and no unit oversold at `t`. */
  lemma PackedSafe(a: Activity, rows: seq<Row>, now: int, t: int)
    requires WellFormed(rows) && now <= t
    requires Backfilled(a, rows, now).0.Done?
    requires UnitsSafeAt(a, Live(rows, now), t)
    ensures var p := Pack(a, Placed(rows, now), Waiting(rows, now)).placed;
            && UnitsSafeAt(a, p, t)
            && CountAmong(p, Orphan(), t) == 0 && CountAmong(p, OutOfRange(a.unitCount), t) == 0
            && AllHaveUnits(p)
  {
    var n, placed, todo := a.unitCount, Placed(rows, now), Waiting(rows, now);
    var p := Pack(a, placed, todo).placed;
    WaitingFacts(rows, now);
    PlacedFacts(rows, now);
    PlacedUnitsSafe(a, rows, now, t);
    PackKeepsUnitsSafe(a, placed, todo, t);
    PackHasUnits(a, placed, todo);
    forall b | b in placed ensures AmongUnits(n)(b) {
      FilterMembers(placed, OutOfRange(n));
      assert b !in Filter(placed, OutOfRange(n));
    }
    PackInRange(a, placed, todo);
    NoneAmong(p, Orphan(), t);
    NoneAmong(p, OutOfRange(n), t);
  }

  /**
   * A successful backfill makes every instant from `now` on safe, orphans included, provided the
   * units handed out before were each not oversold there. It needs no bound on the orphans.
   */
  lemma BackfillMakesSafe(a: Activity, rows: seq<Row>, now: int, t: int)
    requires WellFormed(rows) && now <= t
    requires Backfilled(a, rows, now).0.Done?
    requires UnitsSafeAt(a, Live(rows, now), t)
    ensures SafeAt(a, Live(Backfilled(a, rows, now).1, now), t)
  {
    var live', n := Live(Backfilled(a, rows, now).1, now), a.unitCount;
    var p := Pack(a, Placed(rows, now), Waiting(rows, now)).placed;
    PackedSafe(a, rows, now, t);
    SameAfter(a, rows, now, t, OneWhere(Orphan(), t));
    SameAfter(a, rows, now, t, OneWhere(OutOfRange(n), t));
    forall u | 1 <= u <= n
      ensures CountAmong(live', OnUnit(u), t) == CountAmong(p, OnUnit(u), t)
      ensures GuestsAmong(live', Shared(u), t) == GuestsAmong(p, OnUnit(u), t)
    {
      SumSame(p, GuestsWhere(OnUnit(u), t), GuestsWhere(Shared(u), t));
      SameAfter(a, rows, now, t, OneWhere(OnUnit(u), t));
      SameAfter(a, rows, now, t, GuestsWhere(Shared(u), t));
    }
    OccupiedAtMost(live', n, t);
  }

  lemma NoneAmong(bs: seq<Stay>, p: Stay -> bool, t: int)
    requires forall b | b in bs :: !p(b)
    ensures CountAmong(bs, p, t) == 0
  {
    SumSame(bs, OneWhere(p, t), Zero());
    SumZero(bs);
  }

  /** From `now` on, the table after a backfill weighs what the packing weighs. */
  lemma SameAfter(a: Activity, rows: seq<Row>, now: int, t: int, w: Stay -> int)
    requires WellFormed(rows) && now <= t && Backfilled(a, rows, now).0.Done?
    requires forall b | !Covers(b, t) :: w(b) == 0
    ensures Sum(Live(Backfilled(a, rows, now).1, now), w)
         == Sum(Pack(a, Placed(rows, now), Waiting(rows, now)).placed, w)
  {
    FutureAfter(a, rows, now);
    FutureIsWhatMatters(Backfilled(a, rows, now).1, now, t, w);
    SumPermutation(Future(Backfilled(a, rows, now).1, now), Pack(a, Placed(rows, now), Waiting(rows, now)).placed, w);
  }

  lemma {:induction false} OccupiedAtMost(bs: seq<Stay>, n: nat, t: int)
    ensures Occupied(bs, n, t) <= n
  {
    if n > 0 {
      OccupiedAtMost(bs, n - 1, t);
    }
  }

  lemma PlacedUnitsSafe(a: Activity, rows: seq<Row>, now: int, t: int)
    requires WellFormed(rows) && now <= t
    requires UnitsSafeAt(a, Live(rows, now), t)
    ensures UnitsSafeAt(a, Placed(rows, now), t)
  {
    forall u
      ensures CountAmong(Placed(rows, now), OnUnit(u), t) <= CountAmong(Live(rows, now), OnUnit(u), t)
      ensures GuestsAmong(Placed(rows, now), OnUnit(u), t) <= GuestsAmong(Live(rows, now), OnUnit(u), t)
    {
      PlacedAtMostLive(rows, now, t, OneWhere(OnUnit(u), t));
      PlacedAtMostLive(rows, now, t, GuestsWhere(OnUnit(u), t));
    }
  }

  lemma PlacedAtMostLive(rows: seq<Row>, now: int, t: int, w: Stay -> int)
    requires WellFormed(rows) && now <= t
    requires forall b :: 0 <= w(b)
    requires forall b | !Covers(b, t) :: w(b) == 0
    ensures Sum(Placed(rows, now), w) <= Sum(Live(rows, now), w)
  {
    FutureIsWhatMatters(rows, now, t, w);
    FutureSplits(rows, now);
    SumPermutation(Future(rows, now), Placed(rows, now) + Waiting(rows, now), w);
    SumConcat(Placed(rows, now), Waiting(rows, now), w);
    SumNonNegative(Waiting(rows, now), w);
  }

  /**
   * Switching whole-unit rental on: with no unit given out yet, the backfill refuses exactly when
   * at some instant more live bookings are present than there are units.
   */
  lemma BackfillRefusesExactlyOverload(a: Activity, rows: seq<Row>, now: int)
    requires WellFormed(rows) && RentsWholeUnit(a) && a.unitCount >= 1
    requires Placed(rows, now) == []
    ensures Backfilled(a, rows, now).0.RefusedUnplaceable? <==>
            exists t :: CountAmong(Future(rows, now), Anyone(), t) > a.unitCount
    ensures Backfilled(a, rows, now).0.RefusedUnplaceable? || Backfilled(a, rows, now).0.Done?
  {
    var todo := Waiting(rows, now);
    WaitingFacts(rows, now);
    FutureSplits(rows, now);
    assert [] + todo == todo;
    PackingIsOptimal(a, todo);
    forall t ensures CountAmong(Future(rows, now), Anyone(), t) == CountAmong(todo, Anyone(), t) {
      SumPermutation(Future(rows, now), todo, OneWhere(Anyone(), t));
    }
  }

  // ----- the code -----

  /** The test the loop runs on the stays of one unit is the test createBooking runs. */
  lemma InUnitDecides(a: Activity, placed: seq<Stay>, b: Stay, u: int)
    requires AllHaveUnits(placed)
    ensures var inUnit := Filter(placed, OnUnitWithin(u, b.start, b.end));
            UnitFits(a, placed, b.start, b.end, b.guests, u) <==>
              if RentsWholeUnit(a) then inUnit == []
              else Peak(inUnit, b.start, b.end) + b.guests <= a.unitCapacity
  {
    var p := OnUnitWithin(u, b.start, b.end);
    var inUnit := Filter(placed, p);
    if RentsWholeUnit(a) {
      FilterMembers(placed, p);
      if inUnit != [] {
        assert inUnit[0] in inUnit;
      }
    } else {
      forall t | b.start <= t < b.end ensures Load(inUnit, t) == Load(Filter(placed, Shared(u)), t) {
        LoadOfFilter(placed, p, t);
        LoadOfFilter(placed, Shared(u), t);
        SumSame(placed, GuestsWhere(p, t), GuestsWhere(Shared(u), t));
      }
      PeakSame(inUnit, Filter(placed, Shared(u)), b.start, b.end);
    }
  }

  /** `byUnit` lists, unit by unit, exactly the choices made. */
  ghost predicate Groups(byUnit: map<int, seq<nat>>, chosen: map<nat, int>) {
    && (forall u, id | u in byUnit && id in byUnit[u] :: id in chosen && chosen[id] == u)
    && (forall id | id in chosen :: chosen[id] in byUnit && id in byUnit[chosen[id]])
  }

  /** The scan over the units for one booking: the first that takes it. */
  method ScanUnits(a: Activity, placed: seq<Stay>, booking: Stay) returns (chosen: Option<int>)
    requires AllHaveUnits(placed)
    ensures chosen == FirstFit(a, placed, booking, 1)
  {
    var wholeUnit := RentsWholeUnit(a);
    for unit := 1 to a.unitCount + 1
      invariant FirstFit(a, placed, booking, 1) == FirstFit(a, placed, booking, unit)
    {
      var inUnit := Filter(placed, OnUnitWithin(unit, booking.start, booking.end));
      InUnitDecides(a, placed, booking, unit);
      if wholeUnit {
        if |inUnit| == 0 {
          return Some(unit);
        }
      } else {
        var peak := MaxConcurrentInWindow(inUnit, booking.start, booking.end);
        if peak + booking.guests <= a.unitCapacity {
          return Some(unit);
        }
      }
    }
    return None;
  }

  /** First-fit around the placed stays, collecting the chosen ids per unit. */
  method ChooseUnits(a: Activity, obstacles: seq<Stay>, unassigned: seq<Stay>)
    returns (placed: seq<Stay>, byUnit: map<int, seq<nat>>, unassignable: seq<nat>)
    requires AllHaveUnits(obstacles) && Distinct(unassigned, IdOf())
    ensures placed == Pack(a, obstacles, unassigned).placed
    ensures unassignable == Pack(a, obstacles, unassigned).failed
    ensures Groups(byUnit, Pack(a, obstacles, unassigned).chosen)
  {
    placed, byUnit, unassignable := obstacles, map[], [];
    ghost var chosenSoFar: map<nat, int> := map[];
    for i := 0 to |unassigned|
      invariant Packing(placed, chosenSoFar, unassignable) == Pack(a, obstacles, unassigned[..i])
      invariant AllHaveUnits(placed)
      invariant Groups(byUnit, chosenSoFar) && chosenSoFar.Keys <= Ids(unassigned[..i])
    {
      var booking := unassigned[i];
      assert unassigned[..i + 1][..i] == unassigned[..i];
      NewId(unassigned, i);
      var chosen := ScanUnits(a, placed, booking);
      if chosen.None? {
        unassignable := unassignable + [booking.id];
        continue;
      }
      var ids := if chosen.value in byUnit then byUnit[chosen.value] else [];
      GroupsGrows(byUnit, chosenSoFar, booking.id, chosen.value);
      byUnit := byUnit[chosen.value := ids + [booking.id]];
      placed := placed + [Onto(booking, chosen.value)];
      chosenSoFar := chosenSoFar[booking.id := chosen.value];
    }
    assert unassigned[..|unassigned|] == unassigned;
  }

  lemma GroupsGrows(byUnit: map<int, seq<nat>>, chosen: map<nat, int>, id: nat, u: int)
    requires Groups(byUnit, chosen) && id !in chosen
    ensures Groups(byUnit[u := (if u in byUnit then byUnit[u] else []) + [id]], chosen[id := u])
  {
  }

  lemma NewId(todo: seq<Stay>, i: nat)
    requires i < |todo| && Distinct(todo, IdOf())
    ensures todo[i].id !in Ids(todo[..i])
  {
    IdsMember(todo[..i], todo[i].id);
    forall b | b in todo[..i] ensures b.id != todo[i].id {
      var j :| 0 <= j < i && todo[j] == b;
      assert IdOf()(todo[j]) != IdOf()(todo[i]);
    }
  }

  function IdAmong(ids: seq<nat>): Row -> bool {
    (r: Row) => r.stay.id in ids
  }

  function GiveUnit(ids: seq<nat>, u: int): Row -> Row {
    (r: Row) => if r.stay.id in ids then r.(stay := Onto(r.stay, u)) else r
  }

  /** The choices that fall on units below `u`. */
  function Below(chosen: map<nat, int>, u: int): map<nat, int> {
    map id | id in chosen && chosen[id] < u :: chosen[id]
  }

  function IdChosen(chosen: map<nat, int>): Row -> bool {
    (r: Row) => r.stay.id in chosen
  }

  /** Gives every live booking without a unit a unit, or changes nothing and says why not. */
  method AssignMissingUnits(a: Activity, rows: seq<Row>, now: int) returns (outcome: Outcome, rows': seq<Row>)
    requires WellFormed(rows)
    ensures (outcome, rows') == Backfilled(a, rows, now)
  {
    rows' := rows;
    if !a.hasUnits || a.unitCount < 1 {
      return Skipped, rows;
    }
    var placed := Placed(rows, now);
    if |Filter(placed, OutOfRange(a.unitCount))| > 0 {
      return RefusedOutOfRange, rows;
    }
    var unassigned := Waiting(rows, now);
    ghost var chosen := Pack(a, placed, unassigned).chosen;
    if |unassigned| == 0 {
      assert Map(rows, AssignRow(chosen)) == rows;
      return Done(0), rows;
    }
    WaitingFacts(rows, now);
    PlacedFacts(rows, now);
    var packed, byUnit, unassignable := ChooseUnits(a, placed, unassigned);
    if |unassignable| > 0 {
      return RefusedUnplaceable(unassignable), rows;
    }
    PackChooses(a, placed, unassigned);
    var updated;
    rows', updated := WriteUnits(rows, a.unitCount, byUnit, chosen);
    CountChosen(a, rows, now);
    outcome := Done(updated);
  }

  /** One write per unit, counting the rows it touches. */
  method WriteUnits(rows: seq<Row>, unitCount: nat, byUnit: map<int, seq<nat>>, ghost chosen: map<nat, int>)
    returns (rows': seq<Row>, updated: int)
    requires Groups(byUnit, chosen)
    requires forall id | id in chosen :: 1 <= chosen[id] <= unitCount
    ensures rows' == Map(rows, AssignRow(chosen))
    ensures updated == Sum(rows, Indicator(IdChosen(chosen)))
  {
    rows', updated := rows, 0;
    NothingBelow(rows, chosen);
    for unit := 1 to unitCount + 1
      invariant rows' == Map(rows, AssignRow(Below(chosen, unit)))
      invariant updated == Sum(rows, Indicator(IdChosen(Below(chosen, unit))))
    {
      if unit in byUnit {
        WriteUnit(rows, chosen, byUnit, unit);
        updated := updated + |Filter(rows', IdAmong(byUnit[unit]))|;
        rows' := Map(rows', GiveUnit(byUnit[unit], unit));
      } else {
        SkipUnit(chosen, byUnit, unit);
      }
    }
    AllBelow(chosen, unitCount);
  }

  lemma SkipUnit(chosen: map<nat, int>, byUnit: map<int, seq<nat>>, u: int)
    requires Groups(byUnit, chosen) && u !in byUnit
    ensures Below(chosen, u + 1) == Below(chosen, u)
  {
  }

  lemma AllBelow(chosen: map<nat, int>, n: nat)
    requires forall id | id in chosen :: chosen[id] <= n
    ensures Below(chosen, n + 1) == chosen
  {
  }

  lemma NothingBelow(rows: seq<Row>, chosen: map<nat, int>)
    requires forall id | id in chosen :: 1 <= chosen[id]
    ensures Map(rows, AssignRow(Below(chosen, 1))) == rows
    ensures Sum(rows, Indicator(IdChosen(Below(chosen, 1)))) == 0
  {
    FilterNone(rows, IdChosen(Below(chosen, 1)));
    FilterLength(rows, IdChosen(Below(chosen, 1)));
  }

  /** Writing one unit's ids completes the assignment of the units below the next one. */
  lemma WriteUnit(rows: seq<Row>, chosen: map<nat, int>, byUnit: map<int, seq<nat>>, u: int)
    requires Groups(byUnit, chosen) && u in byUnit
    ensures Map(Map(rows, AssignRow(Below(chosen, u))), GiveUnit(byUnit[u], u)) == Map(rows, AssignRow(Below(chosen, u + 1)))
    ensures Sum(rows, Indicator(IdChosen(Below(chosen, u + 1))))
         == Sum(rows, Indicator(IdChosen(Below(chosen, u))))
            + |Filter(Map(rows, AssignRow(Below(chosen, u))), IdAmong(byUnit[u]))|
  {
    forall id: nat ensures id in Below(chosen, u + 1) <==> id in Below(chosen, u) || id in byUnit[u] {
    }
    SumSplit(rows, Indicator(IdChosen(Below(chosen, u))), Indicator(IdAmong(byUnit[u])), Indicator(IdChosen(Below(chosen, u + 1))));
    FilterMap(rows, AssignRow(Below(chosen, u)), IdAmong(byUnit[u]));
    FilterLength(rows, IdAmong(byUnit[u]));
  }

  /** As many rows are written as bookings were waiting. */
  lemma CountChosen(a: Activity, rows: seq<Row>, now: int)
    requires WellFormed(rows)
    requires Pack(a, Placed(rows, now), Waiting(rows, now)).failed == []
    ensures Sum(rows, Indicator(IdChosen(Pack(a, Placed(rows, now), Waiting(rows, now)).chosen))) == |Waiting(rows, now)|
  {
    var chosen := Pack(a, Placed(rows, now), Waiting(rows, now)).chosen;
    PackChooses(a, Placed(rows, now), Waiting(rows, now));
    forall r | r in rows ensures IdChosen(chosen)(r) == WaitingRow(now)(r) {
      var i :| 0 <= i < |rows| && rows[i] == r;
      WaitingIds(rows, now, i);
    }
    SumSame(rows, Indicator(IdChosen(chosen)), Indicator(WaitingRow(now)));
    FilterLength(rows, WaitingRow(now));
    SortedRows(rows, now);
    assert |Filter(rows, WaitingRow(now))| == |multiset(Filter(rows, WaitingRow(now)))|;
    assert |Sort(Filter(rows, WaitingRow(now)), RowLe)| == |multiset(Sort(Filter(rows, WaitingRow(now)), RowLe))|;
  }
}
