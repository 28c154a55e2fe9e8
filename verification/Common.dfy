/** Sums, filters and orderings over sequences: the small algebra every other module counts with. */
module Common {

  datatype Option<+T> = None | Some(value: T)

  function Max(a: int, b: int): int {
    if a < b then b else a
  }

  function Min(a: int, b: int): int {
    if a < b then a else b
  }

  // ----- rounding -----

  /** Rounding to the nearest integer, halves up. */
  function Round(x: real): int {
    (x + 0.5).Floor
  }

  /** `n` is `x` rounded to the nearest whole number, halves up. */
  predicate Nearest(n: int, x: real) {
    n as real - 0.5 <= x < n as real + 0.5
  }

  lemma NearestIsRound(n: int, x: real)
    ensures Nearest(n, x) <==> n == Round(x)
  {
    if Nearest(n, x) {
      assert n as real <= x + 0.5 < n as real + 1.0;
    }
  }

  lemma RoundMonotone(x: real, n: int)
    ensures x <= n as real ==> Round(x) <= n
    ensures x >= n as real ==> Round(x) >= n
    ensures x - 0.5 < Round(x) as real <= x + 0.5
  {
  }

  lemma QuotientBound(x: real, q: real, r: real)
    requires q > 0.0 && x <= r * q
    ensures x / q <= r
  {
    var gap := r - x / q;
    assert gap * q == r * q - x;
  }

  lemma QuotientNonNegative(x: real, q: real)
    requires q > 0.0 && x >= 0.0
    ensures 0.0 <= x / q && (x / q) * q == x
  {
  }

  // ----- sums -----

  /** Total weight of a sequence. Loads, counts and ledger balances are all sums. */
  function Sum<T>(s: seq<T>, w: T -> int): int {
    if s == [] then 0 else Sum(s[..|s| - 1], w) + w(s[|s| - 1])
  }

  lemma SumAppend<T>(s: seq<T>, x: T, w: T -> int)
    ensures Sum(s + [x], w) == Sum(s, w) + w(x)
  {
    assert (s + [x])[..|s|] == s;
  }

  lemma SumPair<T>(x: T, y: T, w: T -> int)
    ensures Sum([x, y], w) == w(x) + w(y)
  {
    assert [x, y] == [x] + [y];
    SumAppend([x], y, w);
  }

  lemma {:induction false} SumConcat<T>(a: seq<T>, b: seq<T>, w: T -> int)
    ensures Sum(a + b, w) == Sum(a, w) + Sum(b, w)
  {
    if b == [] {
      assert a + b == a;
    } else {
      assert (a + b)[..|a + b| - 1] == a + b[..|b| - 1];
      SumConcat(a, b[..|b| - 1], w);
    }
  }

  lemma {:induction false} SumBounds<T>(s: seq<T>, v: T -> int, w: T -> int)
    requires forall x | x in s :: v(x) <= w(x)
    ensures Sum(s, v) <= Sum(s, w)
  {
    if s != [] {
      SumBounds(s[..|s| - 1], v, w);
    }
  }

  lemma {:induction false} SumSame<T>(s: seq<T>, v: T -> int, w: T -> int)
    requires forall x | x in s :: v(x) == w(x)
    ensures Sum(s, v) == Sum(s, w)
  {
    SumBounds(s, v, w);
    SumBounds(s, w, v);
  }

  /** Two sequences compared position by position. */
  lemma {:induction false} SumPointwise<T>(a: seq<T>, b: seq<T>, w: T -> int)
    requires |a| == |b| && forall i | 0 <= i < |a| :: w(a[i]) <= w(b[i])
    ensures Sum(a, w) <= Sum(b, w)
  {
    if a != [] {
      SumPointwise(a[..|a| - 1], b[..|b| - 1], w);
    }
  }

  lemma {:induction false} SumNonNegative<T>(s: seq<T>, w: T -> int)
    requires forall x | x in s :: 0 <= w(x)
    ensures 0 <= Sum(s, w)
  {
    if s != [] {
      SumNonNegative(s[..|s| - 1], w);
    }
  }

  lemma {:induction false} SumAtLeast<T>(s: seq<T>, w: T -> int, x: T)
    requires x in s
    requires forall y | y in s :: 0 <= w(y)
    ensures w(x) <= Sum(s, w)
  {
    var n := |s| - 1;
    SumNonNegative(s[..n], w);
    if s[n] != x {
      SumAtLeast(s[..n], w, x);
    }
  }

  /** Splitting a weight splits the sum. */
  lemma {:induction false} SumSplit<T>(s: seq<T>, u: T -> int, v: T -> int, w: T -> int)
    requires forall x | x in s :: w(x) == u(x) + v(x)
    ensures Sum(s, w) == Sum(s, u) + Sum(s, v)
  {
    if s != [] {
      SumSplit(s[..|s| - 1], u, v, w);
    }
  }

  /** Replacing one element moves the sum by the difference of the two weights. */
  lemma SumUpdate<T>(s: seq<T>, i: nat, x: T, w: T -> int)
    requires i < |s|
    ensures Sum(s[i := x], w) == Sum(s, w) - w(s[i]) + w(x)
  {
    assert s == s[..i] + [s[i]] + s[i + 1..];
    assert s[i := x] == s[..i] + [x] + s[i + 1..];
    SumConcat(s[..i] + [s[i]], s[i + 1..], w);
    SumConcat(s[..i] + [x], s[i + 1..], w);
    SumAppend(s[..i], s[i], w);
    SumAppend(s[..i], x, w);
  }

  /** Cutting one occurrence of `x` out of a sequence. */
  lemma CutOut<T>(s: seq<T>, x: T) returns (i: nat)
    requires x in multiset(s)
    ensures i < |s| && s[i] == x && s == s[..i] + [x] + s[i + 1..]
    ensures multiset(s[..i] + s[i + 1..]) == multiset(s) - multiset{x}
  {
    i :| 0 <= i < |s| && s[i] == x;
    assert s == s[..i] + [x] + s[i + 1..];
    assert multiset(s) == multiset(s[..i]) + multiset{x} + multiset(s[i + 1..]);
  }

  lemma LastOf<T>(s: seq<T>)
    requires s != []
    ensures s == s[..|s| - 1] + [s[|s| - 1]]
    ensures multiset(s[..|s| - 1]) == multiset(s) - multiset{s[|s| - 1]}
    ensures s[|s| - 1] in multiset(s)
  {
    assert s == s[..|s| - 1] + [s[|s| - 1]];
  }

  lemma SumAround<T>(a: seq<T>, x: T, b: seq<T>, w: T -> int)
    ensures Sum(a + [x] + b, w) == Sum(a + b, w) + w(x)
  {
    SumConcat(a + [x], b, w);
    SumAppend(a, x, w);
    SumConcat(a, b, w);
  }

  lemma SumCut<T>(s: seq<T>, i: nat, w: T -> int)
    requires i < |s|
    ensures Sum(s, w) == Sum(s[..i] + s[i + 1..], w) + w(s[i])
  {
    var whole := s[..i] + [s[i]] + s[i + 1..];
    assert s == whole;
    SumAround(s[..i], s[i], s[i + 1..], w);
  }

  /** A sum does not depend on the order of its terms. */
  lemma {:induction false} SumPermutation<T>(a: seq<T>, b: seq<T>, w: T -> int)
    requires multiset(a) == multiset(b)
    ensures Sum(a, w) == Sum(b, w)
    decreases |a|
  {
    if a == [] {
      assert |multiset(b)| == 0;
    } else {
      LastOf(a);
      var i := CutOut(b, a[|a| - 1]);
      SumPermutation(a[..|a| - 1], b[..i] + b[i + 1..], w);
      SumCut(b, i, w);
    }
  }

  // ----- filters -----

  function Filter<T>(s: seq<T>, p: T -> bool): seq<T> {
    if s == [] then []
    else Filter(s[..|s| - 1], p) + if p(s[|s| - 1]) then [s[|s| - 1]] else []
  }

  lemma {:induction false} FilterMembers<T(!new)>(s: seq<T>, p: T -> bool)
    ensures forall x :: x in Filter(s, p) <==> x in s && p(x)
  {
    if s != [] {
      FilterMembers(s[..|s| - 1], p);
      assert s == s[..|s| - 1] + [s[|s| - 1]];
    }
  }

  lemma {:induction false} FilterConcat<T>(a: seq<T>, b: seq<T>, p: T -> bool)
    ensures Filter(a + b, p) == Filter(a, p) + Filter(b, p)
  {
    if b == [] {
      assert a + b == a;
    } else {
      assert (a + b)[..|a + b| - 1] == a + b[..|b| - 1];
      FilterConcat(a, b[..|b| - 1], p);
    }
  }

  lemma FilterPrefix<T>(s: seq<T>, i: nat, p: T -> bool)
    requires i <= |s|
    ensures Filter(s, p) == Filter(s[..i], p) + Filter(s[i..], p)
  {
    var whole := s[..i] + s[i..];
    assert s == whole;
    FilterConcat(s[..i], s[i..], p);
  }

  lemma FilterNext<T>(s: seq<T>, i: nat, p: T -> bool)
    requires i < |s|
    ensures Filter(s[..i + 1], p) == Filter(s[..i], p) + if p(s[i]) then [s[i]] else []
  {
    assert s[..i + 1] == s[..i] + [s[i]];
    FilterAppend(s[..i], s[i], p);
  }

  lemma {:induction false} FilterAll<T>(s: seq<T>, p: T -> bool)
    requires forall x | x in s :: p(x)
    ensures Filter(s, p) == s
  {
    if s != [] {
      var n := |s| - 1;
      assert s == s[..n] + [s[n]] && s[n] in s;
      FilterAll(s[..n], p);
    }
  }

  lemma {:induction false} FilterNone<T>(s: seq<T>, p: T -> bool)
    requires forall x | x in s :: !p(x)
    ensures Filter(s, p) == []
  {
    if s != [] {
      var n := |s| - 1;
      assert s[n] in s;
      FilterNone(s[..n], p);
    }
  }

  lemma FilterAppend<T>(s: seq<T>, x: T, p: T -> bool)
    ensures Filter(s + [x], p) == Filter(s, p) + if p(x) then [x] else []
  {
    assert (s + [x])[..|s|] == s;
  }

  lemma {:induction false} FilterSame<T>(s: seq<T>, p: T -> bool, q: T -> bool)
    requires forall x | x in s :: p(x) == q(x)
    ensures Filter(s, p) == Filter(s, q)
  {
    if s != [] {
      FilterSame(s[..|s| - 1], p, q);
    }
  }

  /** What a filter drops carries no weight, so the sum is unchanged. */
  lemma {:induction false} SumFilter<T>(s: seq<T>, p: T -> bool, w: T -> int)
    requires forall x | x in s && !p(x) :: w(x) == 0
    ensures Sum(Filter(s, p), w) == Sum(s, w)
  {
    if s != [] {
      var n := |s| - 1;
      SumFilter(s[..n], p, w);
      SumConcat(Filter(s[..n], p), if p(s[n]) then [s[n]] else [], w);
    }
  }

  lemma {:induction false} SumFilterAtMost<T>(s: seq<T>, p: T -> bool, w: T -> int)
    requires forall x | x in s :: 0 <= w(x)
    ensures Sum(Filter(s, p), w) <= Sum(s, w)
  {
    if s != [] {
      var n := |s| - 1;
      SumFilterAtMost(s[..n], p, w);
      SumAppend(Filter(s[..n], p), s[n], w);
      assert Filter(s[..n], p) + [] == Filter(s[..n], p);
    }
  }

  /** Selecting in two steps. */
  lemma {:induction false} FilterTwice<T>(s: seq<T>, p: T -> bool, q: T -> bool, both: T -> bool)
    requires forall x | x in s :: both(x) == (p(x) && q(x))
    ensures Filter(Filter(s, p), q) == Filter(s, both)
  {
    if s != [] {
      var n := |s| - 1;
      FilterTwice(s[..n], p, q, both);
      if p(s[n]) {
        FilterAppend(Filter(s[..n], p), s[n], q);
      } else {
        assert Filter(s, p) == Filter(s[..n], p);
      }
    }
  }

  function Indicator<T>(p: T -> bool): T -> int {
    x => if p(x) then 1 else 0
  }

  lemma {:induction false} FilterLength<T>(s: seq<T>, p: T -> bool)
    ensures |Filter(s, p)| == Sum(s, Indicator(p))
  {
    if s != [] {
      FilterLength(s[..|s| - 1], p);
    }
  }

  lemma {:induction false} FilterSplitsMultiset<T>(s: seq<T>, p: T -> bool, q: T -> bool)
    requires forall x | x in s :: q(x) == !p(x)
    ensures multiset(s) == multiset(Filter(s, p)) + multiset(Filter(s, q))
  {
    if s != [] {
      var n := |s| - 1;
      var a, x := s[..n], s[n];
      assert s == a + [x];
      FilterSplitsMultiset(a, p, q);
      FilterAppend(a, x, p);
      FilterAppend(a, x, q);
      assert multiset(s) == multiset(a) + multiset{x};
      if p(x) {
        assert Filter(a, q) + [] == Filter(a, q);
      } else {
        assert Filter(a, p) + [] == Filter(a, p);
      }
    }
  }

  // ----- sorting: the library sort and the database ORDER BY -----

  ghost predicate TotalPreorder<T(!new)>(le: (T, T) -> bool) {
    && (forall x, y :: le(x, y) || le(y, x))
    && (forall x, y, z :: le(x, y) && le(y, z) ==> le(x, z))
  }

  predicate Sorted<T>(s: seq<T>, le: (T, T) -> bool) {
    forall i, j | 0 <= i < j < |s| :: le(s[i], s[j])
  }

  function Insert<T>(s: seq<T>, x: T, le: (T, T) -> bool): seq<T> {
    if s == [] || le(s[|s| - 1], x) then s + [x]
    else Insert(s[..|s| - 1], x, le) + [s[|s| - 1]]
  }

  /** A stable sort: equal elements keep their order. */
  function Sort<T>(s: seq<T>, le: (T, T) -> bool): seq<T> {
    if s == [] then [] else Insert(Sort(s[..|s| - 1], le), s[|s| - 1], le)
  }

  lemma {:induction false} InsertSorts<T(!new)>(s: seq<T>, x: T, le: (T, T) -> bool)
    requires TotalPreorder(le) && Sorted(s, le)
    ensures Sorted(Insert(s, x, le), le)
    ensures multiset(Insert(s, x, le)) == multiset(s) + multiset{x}
  {
    if s == [] {
      assert s + [x] == [x];
    } else if le(s[|s| - 1], x) {
      forall i | 0 <= i < |s| ensures le(s[i], x) {
        assert i < |s| - 1 ==> le(s[i], s[|s| - 1]);
      }
    } else {
      var n := |s| - 1;
      assert s == s[..n] + [s[n]];
      InsertSorts(s[..n], x, le);
      var r := Insert(s[..n], x, le);
      forall i | 0 <= i < |r| ensures le(r[i], s[n]) {
        assert r[i] in multiset(r);
        assert r[i] in s[..n] || r[i] == x;
      }
    }
  }

  lemma {:induction false} SortSorts<T(!new)>(s: seq<T>, le: (T, T) -> bool)
    requires TotalPreorder(le)
    ensures Sorted(Sort(s, le), le)
    ensures multiset(Sort(s, le)) == multiset(s)
  {
    if s != [] {
      var n := |s| - 1;
      var r := Sort(s[..n], le);
      SortSorts(s[..n], le);
      InsertSorts(r, s[n], le);
      LastOf(s);
      assert Sort(s, le) == Insert(r, s[n], le);
    }
  }

  ghost predicate Distinct<T, K>(s: seq<T>, key: T -> K) {
    forall i, j | 0 <= i < j < |s| :: key(s[i]) != key(s[j])
  }

  lemma {:induction false} FilterDistinct<T(!new), K>(s: seq<T>, p: T -> bool, key: T -> K)
    requires Distinct(s, key)
    ensures Distinct(Filter(s, p), key)
  {
    if s != [] {
      var n := |s| - 1;
      FilterDistinct(s[..n], p, key);
      FilterMembers(s[..n], p);
      var f := Filter(s[..n], p);
      forall i | 0 <= i < |f| ensures key(f[i]) != key(s[n]) {
        assert f[i] in f;
      }
    }
  }

  lemma {:induction false} InsertDistinct<T(!new), K>(s: seq<T>, x: T, le: (T, T) -> bool, key: T -> K)
    requires TotalPreorder(le) && Sorted(s, le)
    requires Distinct(s, key) && forall y | y in s :: key(y) != key(x)
    ensures Distinct(Insert(s, x, le), key)
  {
    if s == [] || le(s[|s| - 1], x) {
    } else {
      var n := |s| - 1;
      InsertDistinct(s[..n], x, le, key);
      InsertSorts(s[..n], x, le);
      var r := Insert(s[..n], x, le);
      forall i | 0 <= i < |r| ensures key(r[i]) != key(s[n]) {
        assert r[i] in multiset(r);
        assert r[i] in s[..n] || r[i] == x;
      }
      assert Insert(s, x, le) == r + [s[n]];
    }
  }

  lemma {:induction false} SortDistinct<T(!new), K>(s: seq<T>, le: (T, T) -> bool, key: T -> K)
    requires TotalPreorder(le) && Distinct(s, key)
    ensures Distinct(Sort(s, le), key)
  {
    if s != [] {
      var n := |s| - 1;
      SortDistinct(s[..n], le, key);
      SortSorts(s[..n], le);
      forall y | y in Sort(s[..n], le) ensures key(y) != key(s[n]) {
        assert y in multiset(Sort(s[..n], le));
        assert y in s[..n];
      }
      InsertDistinct(Sort(s[..n], le), s[n], le, key);
    }
  }

  // ----- maps over sequences -----

  function Map<T, U>(s: seq<T>, f: T -> U): seq<U> {
    seq(|s|, i requires 0 <= i < |s| => f(s[i]))
  }

  lemma MapConcat<T, U>(a: seq<T>, b: seq<T>, f: T -> U)
    ensures Map(a + b, f) == Map(a, f) + Map(b, f)
  {
  }

  lemma {:induction false} MapPermutation<T, U>(a: seq<T>, b: seq<T>, f: T -> U)
    requires multiset(a) == multiset(b)
    ensures multiset(Map(a, f)) == multiset(Map(b, f))
    decreases |a|
  {
    if a == [] {
      assert |multiset(b)| == 0;
    } else {
      var a', x := a[..|a| - 1], a[|a| - 1];
      LastOf(a);
      var i := CutOut(b, x);
      MapPermutation(a', b[..i] + b[i + 1..], f);
      MapConcat(a', [x], f);
      MapConcat(b[..i], b[i + 1..], f);
      MapConcat(b[..i], [x], f);
      MapConcat(b[..i] + [x], b[i + 1..], f);
    }
  }

  function Compose<T, U>(f: T -> U, w: U -> int): T -> int {
    x => w(f(x))
  }

  lemma {:induction false} SumMap<T, U>(s: seq<T>, f: T -> U, w: U -> int)
    ensures Sum(Map(s, f), w) == Sum(s, Compose(f, w))
  {
    if s != [] {
      SumMap(s[..|s| - 1], f, w);
      assert Map(s, f)[..|s| - 1] == Map(s[..|s| - 1], f);
    }
  }

  /** Filtering and mapping commute when the map does not change what the filter looks at. */
  lemma {:induction false} FilterMap<T>(s: seq<T>, f: T -> T, p: T -> bool)
    requires forall x | x in s :: p(f(x)) == p(x)
    ensures Filter(Map(s, f), p) == Map(Filter(s, p), f)
  {
    if s != [] {
      FilterMap(s[..|s| - 1], f, p);
      assert Map(s, f)[..|s| - 1] == Map(s[..|s| - 1], f);
      MapConcat(Filter(s[..|s| - 1], p), if p(s[|s| - 1]) then [s[|s| - 1]] else [], f);
    }
  }
}
