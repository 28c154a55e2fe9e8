/**
 * Refresh-token rotation. A refresh call is six separate steps (read and check, consume, clean up,
 * list, delete, create) that interleave freely with other calls; a login is the last four. Consuming
 * is the only compare-and-set. Times are milliseconds.
 */
module Sessions {
  import opened Common

  /** A refresh-token row, identified by its position; `gone` is a deleted row. */
  datatype Token = Token(user: nat, family: nat, started: int, expires: int, rotatedAt: Option<int>, gone: bool)

  datatype Config = Config(lifetime: nat, sessionMax: nat, reuseGrace: nat, maxActive: nat)

  /** What a refresh call remembers of the token it read and checked at `readAt`. */
  datatype Ticket = Ticket(token: nat, user: nat, family: nat, started: int, readAt: int)

  /**
   * How far a call is with making room: expired rows deleted, the active tokens beyond the cap
   * listed, those deleted. `upTo` is how many rows there were at the listing; no step reads it.
   */
  datatype Phase = Begun | Cleaned | Listed(doomed: seq<nat>, upTo: nat) | Cleared(upTo: nat)

  /** A call about to create a token: a rotation carries its session's start, a login has none yet. */
  datatype Issue = Issue(user: nat, family: nat, started: Option<int>, since: int, phase: Phase)

  /**
   * `wins` records which tokens were consumed, in order; `starts` when each family's first token
   * was created. Neither is read by any step.
   */
  datatype State = State(
    tokens: seq<Token>,
    reading: seq<Ticket>,
    issuing: seq<Issue>,
    now: int,
    nextFamily: nat,
    wins: seq<nat>,
    starts: map<nat, int>)

  predicate Active(t: Token) {
    !t.gone && t.rotatedAt.None?
  }

  // ----- the effects on the token table -----

  function Dropped(t: Token): Token {
    t.(gone := true)
  }

  function DropFamily(tokens: seq<Token>, family: nat): seq<Token> {
    seq(|tokens|, i requires 0 <= i < |tokens| => if tokens[i].family == family then Dropped(tokens[i]) else tokens[i])
  }

  function DropUser(tokens: seq<Token>, user: nat): seq<Token> {
    seq(|tokens|, i requires 0 <= i < |tokens| => if tokens[i].user == user then Dropped(tokens[i]) else tokens[i])
  }

  /** Deletes expired rows, of one user or (None) of everybody. */
  function DropExpired(tokens: seq<Token>, user: Option<nat>, now: int): seq<Token> {
    seq(|tokens|, i requires 0 <= i < |tokens| =>
      if tokens[i].expires < now && (user == None || user == Some(tokens[i].user)) then Dropped(tokens[i]) else tokens[i])
  }

  /** Keeps the newest `k` active tokens of `user` and deletes the older ones. */
  function EvictOld(tokens: seq<Token>, user: nat, k: nat): seq<Token> {
    if tokens == [] then []
    else
      var n := |tokens| - 1;
      var t := tokens[n];
      if Active(t) && t.user == user then
        if k > 0 then EvictOld(tokens[..n], user, k - 1) + [t] else EvictOld(tokens[..n], user, 0) + [Dropped(t)]
      else EvictOld(tokens[..n], user, k) + [t]
  }

  function Evict(tokens: seq<Token>, user: nat, now: int, maxActive: nat): seq<Token>
    requires maxActive >= 1
  {
    EvictOld(DropExpired(tokens, Some(user), now), user, maxActive - 1)
  }

  // ----- the steps -----

  datatype Action =
    | BeginLogin(user: nat)
    | Read(i: nat)
    | Consume(k: nat)
    | Room(k: nat)        // the next of the three statements that make room
    | CreateFor(k: nat)
    | Refuse(k: nat)      // the user is gone or suspended: all of that user's sessions end
    | Logout(i: nat)
    | Purge
    | Wait(ms: nat)

  function Without<T>(s: seq<T>, k: nat): seq<T>
    requires k < |s|
  {
    s[..k] + s[k + 1..]
  }

  /** Ends a session: every row of its family is deleted. */
  function Revoke(s: State, f: nat): State {
    s.(tokens := DropFamily(s.tokens, f))
  }

  /** The checks of a refresh on the row it finds. */
  function ReadStep(c: Config, s: State, i: nat): State {
    if i >= |s.tokens| || s.tokens[i].gone then s
    else
      var t := s.tokens[i];
      if t.rotatedAt.Some? then
        if s.now - t.rotatedAt.value > c.reuseGrace then Revoke(s, t.family) else s
      else if t.expires < s.now then s.(tokens := s.tokens[i := Dropped(t)])
      else if s.now - t.started > c.sessionMax then Revoke(s, t.family)
      else s.(reading := s.reading + [Ticket(i, t.user, t.family, t.started, s.now)])
  }

  /** Marks the token rotated if nobody has: the winner goes on to issue, a loser just ends. */
  function ConsumeStep(s: State, k: nat): State {
    if k >= |s.reading| then s
    else
      var r := s.reading[k];
      var s' := s.(reading := Without(s.reading, k));
      if r.token < |s.tokens| && Active(s.tokens[r.token]) then
        s'.(tokens := s.tokens[r.token := s.tokens[r.token].(rotatedAt := Some(s.now))],
            issuing := s.issuing + [Issue(r.user, r.family, Some(r.started), r.readAt, Begun)],
            wins := s.wins + [r.token])
      else s'
  }

  function Enter(s: State, k: nat, phase: Phase): State
    requires k < |s.issuing|
  {
    s.(issuing := s.issuing[k := s.issuing[k].(phase := phase)])
  }

  /** Positions of the user's active tokens, newest first. */
  function ActiveIds(tokens: seq<Token>, user: nat): seq<nat> {
    if tokens == [] then []
    else
      var n := |tokens| - 1;
      (if Active(tokens[n]) && tokens[n].user == user then [n] else []) + ActiveIds(tokens[..n], user)
  }

  /** The active tokens that leave no room for one more. */
  function TooMany(tokens: seq<Token>, user: nat, maxActive: nat): seq<nat>
    requires maxActive >= 1
  {
    var ids := ActiveIds(tokens, user);
    if |ids| >= maxActive then ids[maxActive - 1..] else []
  }

  function DropIds(tokens: seq<Token>, ids: seq<nat>): seq<Token> {
    seq(|tokens|, i requires 0 <= i < |tokens| => if i in ids then Dropped(tokens[i]) else tokens[i])
  }

  /** Making room takes three statements: expired rows go, the surplus is listed, the listed rows go. */
  function RoomStep(c: Config, s: State, k: nat): State
    requires c.maxActive >= 1
  {
    if k >= |s.issuing| then s
    else
      var r := s.issuing[k];
      match r.phase
      case Begun => Enter(s.(tokens := DropExpired(s.tokens, Some(r.user), s.now)), k, Cleaned)
      case Cleaned => Enter(s, k, Listed(TooMany(s.tokens, r.user, c.maxActive), |s.tokens|))
      case Listed(doomed, upTo) => Enter(s.(tokens := DropIds(s.tokens, doomed)), k, Cleared(upTo))
      case Cleared(upTo) => s
  }

  /** Inserts the new row. `delay` bounds how long after its read a call may still be creating. */
  function CreateStep(c: Config, s: State, k: nat, delay: nat): State {
    if k >= |s.issuing| || !s.issuing[k].phase.Cleared? || s.now > s.issuing[k].since + delay then s
    else
      var r := s.issuing[k];
      var started := if r.started.Some? then r.started.value else s.now;
      s.(tokens := s.tokens + [Token(r.user, r.family, started, s.now + c.lifetime, None, false)],
         issuing := Without(s.issuing, k),
         starts := if r.started.None? then s.starts[r.family := s.now] else s.starts)
  }

  function Step(c: Config, s: State, act: Action, delay: nat): State
    requires c.maxActive >= 1
  {
    match act
    case BeginLogin(user) =>
      s.(issuing := s.issuing + [Issue(user, s.nextFamily, None, s.now, Begun)], nextFamily := s.nextFamily + 1)
    case Read(i) => ReadStep(c, s, i)
    case Consume(k) => ConsumeStep(s, k)
    case Room(k) => RoomStep(c, s, k)
    case CreateFor(k) => CreateStep(c, s, k, delay)
    case Refuse(k) =>
      if k < |s.issuing| && s.issuing[k].phase.Begun? then s.(tokens := DropUser(s.tokens, s.issuing[k].user), issuing := Without(s.issuing, k)) else s
    case Logout(i) =>
      if i < |s.tokens| && !s.tokens[i].gone then Revoke(s, s.tokens[i].family) else s
    case Purge => s.(tokens := DropExpired(s.tokens, None, s.now))
    case Wait(ms) => s.(now := s.now + ms)
  }

  function Run(c: Config, s: State, acts: seq<Action>, delay: nat): State
    requires c.maxActive >= 1
  {
    if acts == [] then s else Step(c, Run(c, s, acts[..|acts| - 1], delay), acts[|acts| - 1], delay)
  }

  // ----- single use -----

  function ActiveIn(family: nat): Token -> int {
    (t: Token) => if Active(t) && t.family == family then 1 else 0
  }

  function IssuingIn(family: nat): Issue -> int {
    (r: Issue) => if r.family == family then 1 else 0
  }

  /** Unrotated tokens of a family, counting those still being issued. */
  function Unrotated(s: State, family: nat): int {
    Sum(s.tokens, ActiveIn(family)) + Sum(s.issuing, IssuingIn(family))
  }

  /** Rows only ever lose activity; user, family, start and expiry are fixed at creation. */
  ghost predicate Weaker(a: seq<Token>, b: seq<Token>) {
    |a| == |b| && forall i | 0 <= i < |a| ::
      && (Active(b[i]) ==> Active(a[i]))
      && b[i].user == a[i].user && b[i].family == a[i].family && b[i].started == a[i].started && b[i].expires == a[i].expires
  }

  /**
   * Each token consumed at most once and never active again, each family with at most one
   * unrotated token (rotations in flight included), tickets true to the rows they were read from,
   * families fresh from `nextFamily` on.
   */
  ghost predicate SingleUse(s: State) {
    && (forall f :: Unrotated(s, f) <= 1)
    && (forall i, j | 0 <= i < j < |s.wins| :: s.wins[i] != s.wins[j])
    && (forall w | w in s.wins :: w < |s.tokens| && !Active(s.tokens[w]))
    && (forall r | r in s.reading :: r.token < |s.tokens| && s.tokens[r.token].family == r.family
                                     && s.tokens[r.token].user == r.user && s.tokens[r.token].started == r.started)
    && (forall t | t in s.tokens :: t.family < s.nextFamily)
    && (forall r | r in s.issuing :: r.family < s.nextFamily)
  }

  lemma {:induction false} EvictWeaker(tokens: seq<Token>, user: nat, k: nat)
    ensures Weaker(tokens, EvictOld(tokens, user, k))
  {
    if tokens != [] {
      var n := |tokens| - 1;
      EvictWeaker(tokens[..n], user, k);
      if k > 0 {
        EvictWeaker(tokens[..n], user, k - 1);
      } else {
        EvictWeaker(tokens[..n], user, 0);
      }
    }
  }

  lemma WeakerCounts(a: seq<Token>, b: seq<Token>, family: nat)
    requires Weaker(a, b)
    ensures Sum(b, ActiveIn(family)) <= Sum(a, ActiveIn(family))
  {
    SumPointwise(b, a, ActiveIn(family));
  }

  /** Any deletion keeps single use. */
  lemma WeakeningKeepsSingleUse(s: State, tokens: seq<Token>)
    requires SingleUse(s) && Weaker(s.tokens, tokens)
    ensures SingleUse(s.(tokens := tokens))
  {
    forall f ensures Unrotated(s.(tokens := tokens), f) <= 1 {
      assert Unrotated(s, f) <= 1;
      WeakerCounts(s.tokens, tokens, f);
    }
    forall t | t in tokens ensures t.family < s.nextFamily {
      var i :| 0 <= i < |tokens| && tokens[i] == t;
      assert s.tokens[i] in s.tokens;
    }
  }

  lemma WithoutSum<T>(s: seq<T>, k: nat, w: T -> int)
    requires k < |s|
    ensures Sum(Without(s, k), w) == Sum(s, w) - w(s[k])
  {
    SumCut(s, k, w);
  }

  lemma WithoutMembers<T>(s: seq<T>, k: nat)
    requires k < |s|
    ensures forall x | x in Without(s, k) :: x in s
  {
  }

  lemma ConsumeKeepsSingleUse(s: State, k: nat)
    requires SingleUse(s)
    ensures SingleUse(ConsumeStep(s, k))
  {
    if k < |s.reading| {
      var r, s' := s.reading[k], ConsumeStep(s, k);
      assert r in s.reading;
      WithoutMembers(s.reading, k);
      if Active(s.tokens[r.token]) {
        var t := s.tokens[r.token];
        var next := Issue(r.user, r.family, Some(r.started), r.readAt, Begun);
        forall f ensures Unrotated(s', f) <= 1 {
          assert Unrotated(s, f) <= 1;
          SumUpdate(s.tokens, r.token, t.(rotatedAt := Some(s.now)), ActiveIn(f));
          SumAppend(s.issuing, next, IssuingIn(f));
        }
        assert t in s.tokens;
        forall x | x in s'.tokens ensures x.family < s.nextFamily {
          var i :| 0 <= i < |s'.tokens| && s'.tokens[i] == x;
          assert s.tokens[i] in s.tokens;
        }
      } else {
        forall f ensures Unrotated(s', f) <= 1 {
          assert Unrotated(s, f) <= 1;
        }
      }
    }
  }

  lemma CreateKeepsSingleUse(c: Config, s: State, k: nat, delay: nat)
    requires SingleUse(s)
    ensures SingleUse(CreateStep(c, s, k, delay))
  {
    var s' := CreateStep(c, s, k, delay);
    if s' != s {
      var r, t := s.issuing[k], s'.tokens[|s.tokens|];
      assert r in s.issuing;
      WithoutMembers(s.issuing, k);
      forall f ensures Unrotated(s', f) <= 1 {
        assert Unrotated(s, f) <= 1;
        SumAppend(s.tokens, t, ActiveIn(f));
        WithoutSum(s.issuing, k, IssuingIn(f));
      }
    }
  }

  lemma LoginKeepsSingleUse(c: Config, s: State, user: nat, delay: nat)
    requires SingleUse(s) && c.maxActive >= 1
    ensures SingleUse(Step(c, s, BeginLogin(user), delay))
  {
    var s' := Step(c, s, BeginLogin(user), delay);
    forall f ensures Unrotated(s', f) <= 1 {
      SumAppend(s.issuing, Issue(user, s.nextFamily, None, s.now, Begun), IssuingIn(f));
      assert Unrotated(s, f) <= 1;
      if f == s.nextFamily {
        UnusedFamily(s, f);
      }
    }
  }

  lemma UnusedFamily(s: State, f: nat)
    requires SingleUse(s) && f == s.nextFamily
    ensures Unrotated(s, f) == 0
  {
    SumBounds(s.tokens, ActiveIn(f), NoToken());
    SumBounds(s.issuing, IssuingIn(f), NoIssue());
    SumConst(s.tokens, NoToken());
    SumConst(s.issuing, NoIssue());
    SumNonNegative(s.tokens, ActiveIn(f));
    SumNonNegative(s.issuing, IssuingIn(f));
  }

  function NoToken(): Token -> int {
    (t: Token) => 0
  }

  function NoIssue(): Issue -> int {
    (r: Issue) => 0
  }

  lemma {:induction false} SumConst<T>(s: seq<T>, w: T -> int)
    requires forall x | x in s :: w(x) == 0
    ensures Sum(s, w) == 0
  {
    if s != [] {
      SumConst(s[..|s| - 1], w);
    }
  }

  lemma StepKeepsSingleUse(c: Config, s: State, act: Action, delay: nat)
    requires SingleUse(s) && c.maxActive >= 1
    ensures SingleUse(Step(c, s, act, delay))
  {
    match act
    case BeginLogin(user) => LoginKeepsSingleUse(c, s, user, delay);
    case Read(i) => ReadKeepsSingleUse(c, s, i);
    case Consume(k) => ConsumeKeepsSingleUse(s, k);
    case Room(k) => RoomKeepsSingleUse(c, s, k);
    case CreateFor(k) => CreateKeepsSingleUse(c, s, k, delay);
    case Refuse(k) => RefuseKeepsSingleUse(c, s, k, delay);
    case Logout(i) =>
      if i < |s.tokens| {
        WeakeningKeepsSingleUse(s, DropFamily(s.tokens, s.tokens[i].family));
      }
    case Purge => WeakeningKeepsSingleUse(s, DropExpired(s.tokens, None, s.now));
    case Wait(ms) =>
      forall f ensures Unrotated(Step(c, s, act, delay), f) <= 1 {
        assert Unrotated(s, f) <= 1;
      }
  }

  lemma ReadKeepsSingleUse(c: Config, s: State, i: nat)
    requires SingleUse(s)
    ensures SingleUse(ReadStep(c, s, i))
  {
    if i < |s.tokens| {
      WeakeningKeepsSingleUse(s, DropFamily(s.tokens, s.tokens[i].family));
      WeakeningKeepsSingleUse(s, s.tokens[i := Dropped(s.tokens[i])]);
      forall f ensures Unrotated(s.(reading := ReadStep(c, s, i).reading), f) <= 1 {
        assert Unrotated(s, f) <= 1;
      }
    }
  }

  /** A step towards room only deletes rows and notes how far the call is. */
  ghost predicate OnlyMakesRoom(s: State, e: State, k: nat) {
    && k < |s.issuing| && k < |e.issuing| && e == s.(tokens := e.tokens, issuing := e.issuing)
    && Weaker(s.tokens, e.tokens) && e.issuing == s.issuing[k := s.issuing[k].(phase := e.issuing[k].phase)]
  }

  lemma RoomStepFrame(c: Config, s: State, k: nat)
    requires c.maxActive >= 1
    ensures RoomStep(c, s, k) == s || OnlyMakesRoom(s, RoomStep(c, s, k), k)
  {
  }

  lemma RoomKeepsSingleUse(c: Config, s: State, k: nat)
    requires SingleUse(s) && c.maxActive >= 1
    ensures SingleUse(RoomStep(c, s, k))
  {
    var e := RoomStep(c, s, k);
    RoomStepFrame(c, s, k);
    if e != s {
      forall f ensures Unrotated(e, f) <= 1 {
        assert Unrotated(s, f) <= 1;
        WeakerCounts(s.tokens, e.tokens, f);
        SumUpdate(s.issuing, k, e.issuing[k], IssuingIn(f));
      }
      forall r | r in e.issuing ensures r.family < s.nextFamily {
        var i :| 0 <= i < |e.issuing| && e.issuing[i] == r;
        assert s.issuing[i] in s.issuing;
      }
      WeakeningKeepsSingleUse(s, e.tokens);
    }
  }

  lemma RefuseKeepsSingleUse(c: Config, s: State, k: nat, delay: nat)
    requires SingleUse(s) && c.maxActive >= 1
    ensures SingleUse(Step(c, s, Refuse(k), delay))
  {
    if k < |s.issuing| {
      WithoutMembers(s.issuing, k);
      forall f ensures Unrotated(s.(issuing := Without(s.issuing, k)), f) <= 1 {
        assert Unrotated(s, f) <= 1;
        WithoutSum(s.issuing, k, IssuingIn(f));
      }
      WeakeningKeepsSingleUse(s.(issuing := Without(s.issuing, k)), DropUser(s.tokens, s.issuing[k].user));
    }
  }

  /**
   * In every interleaving of logins, refreshes (step by step), logouts and deletions each refresh
   * token is consumed at most once, and no family ever has more than one unrotated token.
   */
  lemma {:induction false} TokensAreSingleUse(c: Config, s: State, acts: seq<Action>, delay: nat)
    requires SingleUse(s) && c.maxActive >= 1
    ensures SingleUse(Run(c, s, acts, delay))
  {
    if acts != [] {
      TokensAreSingleUse(c, s, acts[..|acts| - 1], delay);
      StepKeepsSingleUse(c, Run(c, s, acts[..|acts| - 1], delay), acts[|acts| - 1], delay);
    }
  }

  // ----- bounded sessions -----

  /**
   * All rows and calls of a family share the start recorded for it; nothing was read past the
   * session cap; and no token outlives its session's start by more than the cap, the time a call
   * may take, and one token lifetime.
   */
  ghost predicate Bounded(c: Config, s: State, delay: nat) {
    && (forall t | t in s.tokens :: t.family in s.starts && t.started == s.starts[t.family]
                                    && t.expires <= t.started + c.sessionMax + delay + c.lifetime)
    && (forall r | r in s.reading :: r.family in s.starts && r.started == s.starts[r.family]
                                     && r.readAt <= r.started + c.sessionMax)
    && (forall r | r in s.issuing ::
          if r.started.None? then r.family !in s.starts
          else r.family in s.starts && r.started.value == s.starts[r.family] && r.since <= r.started.value + c.sessionMax)
    && (forall f | f in s.starts :: f < s.nextFamily)
  }

  lemma WeakeningKeepsBounded(c: Config, s: State, tokens: seq<Token>, delay: nat)
    requires Bounded(c, s, delay) && Weaker(s.tokens, tokens)
    ensures Bounded(c, s.(tokens := tokens), delay)
  {
    forall t | t in tokens
      ensures t.family in s.starts && t.started == s.starts[t.family] && t.expires <= t.started + c.sessionMax + delay + c.lifetime
    {
      var i :| 0 <= i < |tokens| && tokens[i] == t;
      assert s.tokens[i] in s.tokens;
    }
  }

  lemma ReadKeepsBounded(c: Config, s: State, i: nat, delay: nat)
    requires Bounded(c, s, delay)
    ensures Bounded(c, ReadStep(c, s, i), delay)
  {
    if i < |s.tokens| {
      assert s.tokens[i] in s.tokens;
      WeakeningKeepsBounded(c, s, DropFamily(s.tokens, s.tokens[i].family), delay);
      WeakeningKeepsBounded(c, s, s.tokens[i := Dropped(s.tokens[i])], delay);
    }
  }

  lemma ConsumeKeepsBounded(c: Config, s: State, k: nat, delay: nat)
    requires Bounded(c, s, delay)
    ensures Bounded(c, ConsumeStep(s, k), delay)
  {
    if k < |s.reading| {
      var r := s.reading[k];
      assert r in s.reading;
      WithoutMembers(s.reading, k);
      WeakeningKeepsBounded(c, s, ConsumeStep(s, k).tokens, delay);
    }
  }

  lemma CreateKeepsBounded(c: Config, s: State, k: nat, delay: nat)
    requires Bounded(c, s, delay) && SingleUse(s)
    ensures Bounded(c, CreateStep(c, s, k, delay), delay)
  {
    var s' := CreateStep(c, s, k, delay);
    if s' != s {
      var r := s.issuing[k];
      assert r in s.issuing;
      WithoutMembers(s.issuing, k);
      if r.started.None? {
        forall x | x in Without(s.issuing, k) ensures x.family != r.family {
          assert Unrotated(s, r.family) <= 1;
          SumNonNegative(s.tokens, ActiveIn(r.family));
          WithoutSum(s.issuing, k, IssuingIn(r.family));
          SumAtLeast(Without(s.issuing, k), IssuingIn(r.family), x);
        }
      }
    }
  }

  lemma RoomKeepsBounded(c: Config, s: State, k: nat, delay: nat)
    requires Bounded(c, s, delay) && c.maxActive >= 1
    ensures Bounded(c, RoomStep(c, s, k), delay)
  {
    var e := RoomStep(c, s, k);
    RoomStepFrame(c, s, k);
    if e != s {
      assert s.issuing[k] in s.issuing;
      WeakeningKeepsBounded(c, s, e.tokens, delay);
    }
  }

  lemma RefuseKeepsBounded(c: Config, s: State, k: nat, delay: nat)
    requires Bounded(c, s, delay) && c.maxActive >= 1
    ensures Bounded(c, Step(c, s, Refuse(k), delay), delay)
  {
    if k < |s.issuing| {
      WithoutMembers(s.issuing, k);
      WeakeningKeepsBounded(c, s, DropUser(s.tokens, s.issuing[k].user), delay);
    }
  }

  lemma StepKeepsBounded(c: Config, s: State, act: Action, delay: nat)
    requires Bounded(c, s, delay) && SingleUse(s) && c.maxActive >= 1
    ensures Bounded(c, Step(c, s, act, delay), delay)
  {
    match act
    case BeginLogin(user) =>
    case Read(i) => ReadKeepsBounded(c, s, i, delay);
    case Consume(k) => ConsumeKeepsBounded(c, s, k, delay);
    case Room(k) => RoomKeepsBounded(c, s, k, delay);
    case CreateFor(k) => CreateKeepsBounded(c, s, k, delay);
    case Refuse(k) => RefuseKeepsBounded(c, s, k, delay);
    case Logout(i) =>
      if i < |s.tokens| {
        WeakeningKeepsBounded(c, s, DropFamily(s.tokens, s.tokens[i].family), delay);
      }
    case Purge => WeakeningKeepsBounded(c, s, DropExpired(s.tokens, None, s.now), delay);
    case Wait(ms) =>
  }

  /**
   * However often it is rotated, a session ends: over every interleaving in which a call creates
   * its token within `delay` of its read, all tokens of a family share one start, only reads within
   * the cap go on, and every token expires by start + cap + delay + lifetime.
   */
  lemma {:induction false} SessionsAreBounded(c: Config, s: State, acts: seq<Action>, delay: nat)
    requires Bounded(c, s, delay) && SingleUse(s) && c.maxActive >= 1
    ensures Bounded(c, Run(c, s, acts, delay), delay)
  {
    if acts != [] {
      var n := |acts| - 1;
      SessionsAreBounded(c, s, acts[..n], delay);
      TokensAreSingleUse(c, s, acts[..n], delay);
      StepKeepsBounded(c, Run(c, s, acts[..n], delay), acts[n], delay);
    }
  }

  // ----- revocation -----

  /** No active token, and no call that could still bring one in. */
  ghost predicate DeadFamily(s: State, f: nat, delay: nat) {
    && f < s.nextFamily
    && (forall t | t in s.tokens && t.family == f :: !Active(t))
    && (forall r | r in s.issuing && r.family == f :: s.now > r.since + delay)
  }

  lemma WeakerKeepsDead(s: State, tokens: seq<Token>, f: nat, delay: nat)
    requires DeadFamily(s, f, delay) && Weaker(s.tokens, tokens)
    ensures DeadFamily(s.(tokens := tokens), f, delay)
  {
    forall t | t in tokens && t.family == f ensures !Active(t) {
      var i :| 0 <= i < |tokens| && tokens[i] == t;
      assert s.tokens[i] in s.tokens;
    }
  }

  lemma ConsumeKeepsDead(s: State, k: nat, f: nat, delay: nat)
    requires DeadFamily(s, f, delay) && SingleUse(s)
    ensures DeadFamily(ConsumeStep(s, k), f, delay)
  {
    if k < |s.reading| {
      var r := s.reading[k];
      assert r in s.reading;
      if Active(s.tokens[r.token]) {
        assert s.tokens[r.token] in s.tokens;
        assert r.family != f;
      }
    }
  }

  lemma RoomKeepsDead(c: Config, s: State, k: nat, f: nat, delay: nat)
    requires c.maxActive >= 1 && DeadFamily(s, f, delay)
    ensures DeadFamily(RoomStep(c, s, k), f, delay)
  {
    var e := RoomStep(c, s, k);
    RoomStepFrame(c, s, k);
    if e != s {
      WeakerKeepsDead(s, e.tokens, f, delay);
      assert s.issuing[k] in s.issuing;
    }
  }

  lemma CreateKeepsDead(c: Config, s: State, k: nat, f: nat, delay: nat)
    requires DeadFamily(s, f, delay)
    ensures DeadFamily(CreateStep(c, s, k, delay), f, delay)
  {
    if k < |s.issuing| {
      assert s.issuing[k] in s.issuing;
      WithoutMembers(s.issuing, k);
    }
  }

  lemma RefuseKeepsDead(c: Config, s: State, k: nat, f: nat, delay: nat)
    requires c.maxActive >= 1 && DeadFamily(s, f, delay)
    ensures DeadFamily(Step(c, s, Refuse(k), delay), f, delay)
  {
    if k < |s.issuing| {
      WithoutMembers(s.issuing, k);
      WeakerKeepsDead(s, DropUser(s.tokens, s.issuing[k].user), f, delay);
    }
  }

  lemma StepKeepsDead(c: Config, s: State, act: Action, f: nat, delay: nat)
    requires c.maxActive >= 1 && DeadFamily(s, f, delay) && SingleUse(s)
    ensures DeadFamily(Step(c, s, act, delay), f, delay)
  {
    match act
    case BeginLogin(user) =>
    case Read(i) => WeakerKeepsDead(s, ReadStep(c, s, i).tokens, f, delay);
    case Consume(k) => ConsumeKeepsDead(s, k, f, delay);
    case Room(k) => RoomKeepsDead(c, s, k, f, delay);
    case CreateFor(k) => CreateKeepsDead(c, s, k, f, delay);
    case Refuse(k) => RefuseKeepsDead(c, s, k, f, delay);
    case Logout(i) => WeakerKeepsDead(s, Step(c, s, act, delay).tokens, f, delay);
    case Purge => WeakerKeepsDead(s, DropExpired(s.tokens, None, s.now), f, delay);
    case Wait(ms) =>
  }

  lemma {:induction false} DeadStaysDead(c: Config, s: State, acts: seq<Action>, f: nat, delay: nat)
    requires c.maxActive >= 1 && DeadFamily(s, f, delay) && SingleUse(s)
    ensures DeadFamily(Run(c, s, acts, delay), f, delay)
  {
    if acts != [] {
      var n := |acts| - 1;
      DeadStaysDead(c, s, acts[..n], f, delay);
      TokensAreSingleUse(c, s, acts[..n], delay);
      StepKeepsDead(c, Run(c, s, acts[..n], delay), acts[n], f, delay);
    }
  }

  ghost predicate Alive(s: State, f: nat) {
    exists t :: t in s.tokens && t.family == f && Active(t)
  }

  /** A rotation of the family past its consume and still in time to insert its token. */
  predicate InFlight(s: State, f: nat, delay: nat) {
    exists k :: 0 <= k < |s.issuing| && s.issuing[k].family == f && s.now <= s.issuing[k].since + delay
  }

  /** No run from here ever sees an active token of the family again. */
  ghost predicate EndedForGood(c: Config, s: State, f: nat, delay: nat)
    requires c.maxActive >= 1
  {
    forall acts :: !Alive(Run(c, s, acts, delay), f)
  }

  /**
   * Revoking a family (on reuse, on the age cap, on logout) ends it for good, over every run,
   * exactly when no rotation of it is in flight; one that is brings the session back.
   */
  lemma RevocationIsFinalExactly(c: Config, s: State, f: nat, delay: nat)
    requires c.maxActive >= 1 && SingleUse(s) && f < s.nextFamily
    ensures EndedForGood(c, Revoke(s, f), f, delay) <==> !InFlight(s, f, delay)
  {
    var revoked := Revoke(s, f);
    WeakeningKeepsSingleUse(s, revoked.tokens);
    if InFlight(s, f, delay) {
      var k :| 0 <= k < |s.issuing| && s.issuing[k].family == f && s.now <= s.issuing[k].since + delay;
      InFlightRevives(c, revoked, k, delay);
    } else {
      forall r | r in revoked.issuing && r.family == f ensures s.now > r.since + delay {
        var k :| 0 <= k < |s.issuing| && s.issuing[k] == r;
      }
      forall acts ensures !Alive(Run(c, revoked, acts, delay), f) {
        DeadStaysDead(c, revoked, acts, f, delay);
      }
    }
  }

  /** What is left to do for a call that creates its token, from any phase. */
  function Finish(k: nat): seq<Action> {
    [Room(k)] + [Room(k)] + [Room(k)] + [CreateFor(k)]
  }

  lemma RunOneMore(c: Config, s: State, acts: seq<Action>, act: Action, delay: nat)
    requires c.maxActive >= 1
    ensures Run(c, s, acts + [act], delay) == Step(c, Run(c, s, acts, delay), act, delay)
  {
    assert (acts + [act])[..|acts|] == acts;
  }

  function Prepared(c: Config, s: State, k: nat): State
    requires c.maxActive >= 1
  {
    RoomStep(c, RoomStep(c, RoomStep(c, s, k), k), k)
  }

  lemma RunFinish(c: Config, s: State, k: nat, delay: nat)
    requires c.maxActive >= 1
    ensures Run(c, s, Finish(k), delay) == CreateStep(c, Prepared(c, s, k), k, delay)
  {
    RunOneMore(c, s, [], Room(k), delay);
    assert [] + [Room(k)] == [Room(k)];
    RunOneMore(c, s, [Room(k)], Room(k), delay);
    RunOneMore(c, s, [Room(k)] + [Room(k)], Room(k), delay);
    RunOneMore(c, s, [Room(k)] + [Room(k)] + [Room(k)], CreateFor(k), delay);
  }

  /** Whatever phase a call is in, it gets through. */
  lemma PreparedIsCleared(c: Config, s: State, k: nat)
    requires c.maxActive >= 1 && k < |s.issuing|
    ensures var e := Prepared(c, s, k);
            && k < |e.issuing| && e.issuing[k] == s.issuing[k].(phase := e.issuing[k].phase) && e.issuing[k].phase.Cleared?
            && e.now == s.now
  {
    var a := RoomStep(c, s, k);
    var b := RoomStep(c, a, k);
    RoomAdvances(c, s, k);
    RoomAdvances(c, a, k);
    RoomAdvances(c, b, k);
  }

  function StatementsLeft(phase: Phase): nat {
    match phase
    case Begun => 3
    case Cleaned => 2
    case Listed(doomed, upTo) => 1
    case Cleared(upTo) => 0
  }

  lemma RoomAdvances(c: Config, s: State, k: nat)
    requires c.maxActive >= 1 && k < |s.issuing|
    ensures var e := RoomStep(c, s, k);
            && k < |e.issuing| && e.issuing[k] == s.issuing[k].(phase := e.issuing[k].phase) && e.now == s.now
            && StatementsLeft(e.issuing[k].phase) == Max(0, StatementsLeft(s.issuing[k].phase) - 1)
  {
  }

  lemma InFlightRevives(c: Config, s: State, k: nat, delay: nat)
    requires c.maxActive >= 1 && k < |s.issuing| && s.now <= s.issuing[k].since + delay
    ensures Alive(Run(c, s, Finish(k), delay), s.issuing[k].family)
  {
    RunFinish(c, s, k, delay);
    PreparedIsCleared(c, s, k);
    var e := CreateStep(c, Prepared(c, s, k), k, delay);
    var t := e.tokens[|e.tokens| - 1];
    assert t in e.tokens && t.family == s.issuing[k].family && Active(t);
  }

  // ----- the cap on active tokens -----

  function ActiveBy(user: nat): Token -> int {
    (t: Token) => if Active(t) && t.user == user then 1 else 0
  }

  function ActiveOf(s: State, user: nat): int {
    Sum(s.tokens, ActiveBy(user))
  }

  predicate ActiveFor(t: Token, user: nat) {
    Active(t) && t.user == user
  }

  lemma {:induction false} EvictShape(tokens: seq<Token>, user: nat, k: nat)
    ensures var r := EvictOld(tokens, user, k);
            && |r| == |tokens|
            && (forall i | 0 <= i < |r| :: r[i] == tokens[i] || (ActiveFor(tokens[i], user) && r[i] == Dropped(tokens[i])))
            && (k == 0 ==> forall i | 0 <= i < |r| :: !ActiveFor(r[i], user))
  {
    if tokens != [] {
      var n := |tokens| - 1;
      EvictShape(tokens[..n], user, if ActiveFor(tokens[n], user) && k > 0 then k - 1 else k);
    }
  }

  lemma {:induction false} EvictCount(tokens: seq<Token>, user: nat, k: nat)
    ensures Sum(EvictOld(tokens, user, k), ActiveBy(user)) == Min(k, Sum(tokens, ActiveBy(user)))
  {
    SumNonNegative(tokens, ActiveBy(user));
    if tokens != [] {
      var n := |tokens| - 1;
      var t := tokens[n];
      var k' := if ActiveFor(t, user) && k > 0 then k - 1 else k;
      EvictCount(tokens[..n], user, k');
      SumNonNegative(tokens[..n], ActiveBy(user));
      var last := if ActiveFor(t, user) && k == 0 then Dropped(t) else t;
      assert EvictOld(tokens, user, k) == EvictOld(tokens[..n], user, k') + [last];
      SumAppend(EvictOld(tokens[..n], user, k'), last, ActiveBy(user));
    }
  }

  lemma {:induction false} EvictOrder(tokens: seq<Token>, user: nat, k: nat)
    ensures var r := EvictOld(tokens, user, k);
            && |r| == |tokens|
            && (forall i, j | 0 <= i < j < |r| && ActiveFor(r[i], user) && ActiveFor(tokens[j], user) :: ActiveFor(r[j], user))
  {
    EvictShape(tokens, user, k);
    if tokens != [] && k > 0 {
      var n := |tokens| - 1;
      var k' := if ActiveFor(tokens[n], user) then k - 1 else k;
      EvictOrder(tokens[..n], user, k');
      assert EvictOld(tokens, user, k) == EvictOld(tokens[..n], user, k') + [tokens[n]];
    }
  }

  /**
   * Evicting down to k touches nobody else's tokens, leaves k of the user's active ones or all if
   * there were fewer, and never drops one while keeping an older one.
   */
  lemma EvictKeepsNewest(tokens: seq<Token>, user: nat, k: nat)
    ensures var r := EvictOld(tokens, user, k);
            && |r| == |tokens|
            && (forall i | 0 <= i < |r| :: r[i] == tokens[i] || (ActiveFor(tokens[i], user) && r[i] == Dropped(tokens[i])))
            && (forall i, j | 0 <= i < j < |r| && ActiveFor(r[i], user) && ActiveFor(tokens[j], user) :: ActiveFor(r[j], user))
            && Sum(r, ActiveBy(user)) == Min(k, Sum(tokens, ActiveBy(user)))
  {
    EvictShape(tokens, user, k);
    EvictOrder(tokens, user, k);
    EvictCount(tokens, user, k);
  }

  /** Nobody has more active tokens than allowed, and no call is under way. */
  ghost predicate Capped(c: Config, s: State) {
    && s.reading == [] && s.issuing == []
    && forall u :: ActiveOf(s, u) <= c.maxActive
  }

  /** One call on its own: its steps back to back. */
  datatype Call = LoginCall(user: nat) | RefreshCall(i: nat) | LogoutCall(i: nat) | PurgeCall | Pause(ms: nat)

  function StepsOf(call: Call): seq<Action> {
    match call
    case LoginCall(user) => [BeginLogin(user)] + Finish(0)
    case RefreshCall(i) => [Read(i)] + [Consume(0)] + Finish(0)
    case LogoutCall(i) => [Logout(i)]
    case PurgeCall => [Purge]
    case Pause(ms) => [Wait(ms)]
  }

  function Calls(c: Config, s: State, calls: seq<Call>): State
    requires c.maxActive >= 1
  {
    if calls == [] then s else Run(c, Calls(c, s, calls[..|calls| - 1]), StepsOf(calls[|calls| - 1]), 0)
  }

  /** Losing activity never lifts a user over the cap. */
  lemma WeakerKeepsCount(a: seq<Token>, b: seq<Token>, user: nat)
    requires Weaker(a, b)
    ensures Sum(b, ActiveBy(user)) <= Sum(a, ActiveBy(user))
  {
    SumPointwise(b, a, ActiveBy(user));
  }

  ghost predicate UnderCap(c: Config, tokens: seq<Token>) {
    forall u :: Sum(tokens, ActiveBy(u)) <= c.maxActive
  }

  lemma WeakerUnderCap(c: Config, a: seq<Token>, b: seq<Token>)
    requires UnderCap(c, a) && Weaker(a, b)
    ensures UnderCap(c, b)
  {
    forall u ensures Sum(b, ActiveBy(u)) <= c.maxActive {
      WeakerKeepsCount(a, b, u);
    }
  }

  /** Evicting and then creating leaves every user within the cap. */
  lemma IssueUnderCap(c: Config, tokens: seq<Token>, user: nat, now: int, t: Token)
    requires UnderCap(c, tokens) && c.maxActive >= 1 && t.user == user
    ensures UnderCap(c, Evict(tokens, user, now, c.maxActive) + [t])
  {
    var kept := DropExpired(tokens, Some(user), now);
    var left := Evict(tokens, user, now, c.maxActive);
    EvictWeaker(kept, user, c.maxActive - 1);
    WeakerUnderCap(c, tokens, left);
    EvictKeepsNewest(kept, user, c.maxActive - 1);
    forall u ensures Sum(left + [t], ActiveBy(u)) <= c.maxActive {
      SumAppend(left, t, ActiveBy(u));
    }
  }

  /** Begun and not interrupted, a call leaves what it keeps after its clean-up. */
  function MakeRoom(c: Config, s: State, k: nat): State
    requires c.maxActive >= 1 && k < |s.issuing|
  {
    Enter(s.(tokens := Evict(s.tokens, s.issuing[k].user, s.now, c.maxActive)), k, Cleared(|s.tokens|))
  }

  lemma TooManyEvicts(tokens: seq<Token>, user: nat, maxActive: nat)
    requires maxActive >= 1
    ensures DropIds(tokens, TooMany(tokens, user, maxActive)) == EvictOld(tokens, user, maxActive - 1)
  {
    DropIdsEvicts(tokens, user, maxActive - 1);
    var ids := ActiveIds(tokens, user);
    if |ids| == maxActive - 1 {
      assert ids[maxActive - 1..] == [];
    }
  }

  lemma EnterTwice(s: State, k: nat, first: Phase, second: Phase)
    requires k < |s.issuing|
    ensures Enter(Enter(s, k, first), k, second) == Enter(s, k, second)
  {
    assert s.issuing[k := s.issuing[k].(phase := first)][k := s.issuing[k].(phase := second)]
        == s.issuing[k := s.issuing[k].(phase := second)];
  }

  /** Listing and deleting back to back is the eviction. */
  lemma ListedAtOnce(c: Config, s: State, k: nat, kept: seq<Token>)
    requires c.maxActive >= 1 && k < |s.issuing| && kept == EvictOld(s.tokens, s.issuing[k].user, c.maxActive - 1)
    ensures var a := Enter(s, k, Cleaned);
            RoomStep(c, RoomStep(c, a, k), k) == Enter(s.(tokens := kept), k, Cleared(|s.tokens|))
  {
    var doomed := TooMany(s.tokens, s.issuing[k].user, c.maxActive);
    var phase := Listed(doomed, |s.tokens|);
    TooManyEvicts(s.tokens, s.issuing[k].user, c.maxActive);
    EnterTwice(s, k, Cleaned, phase);
    assert RoomStep(c, Enter(s, k, Cleaned), k) == Enter(s, k, phase);
    EnterTwice(s.(tokens := kept), k, phase, Cleared(|s.tokens|));
  }

  lemma PreparedAtOnce(c: Config, s: State, k: nat)
    requires c.maxActive >= 1 && k < |s.issuing| && s.issuing[k].phase.Begun?
    ensures Prepared(c, s, k) == MakeRoom(c, s, k)
  {
    var m := s.(tokens := DropExpired(s.tokens, Some(s.issuing[k].user), s.now));
    ListedAtOnce(c, m, k, Evict(s.tokens, s.issuing[k].user, s.now, c.maxActive));
    assert RoomStep(c, s, k) == Enter(m, k, Cleaned);
  }

  lemma IssueAtOnce(c: Config, s: State)
    requires c.maxActive >= 1 && UnderCap(c, s.tokens) && s.reading == []
    requires s.issuing == [] || (|s.issuing| == 1 && s.issuing[0].phase.Begun? && s.issuing[0].since == s.now)
    ensures Capped(c, Run(c, s, Finish(0), 0))
  {
    RunFinish(c, s, 0, 0);
    if s.issuing != [] {
      PreparedAtOnce(c, s, 0);
      var e := MakeRoom(c, s, 0);
      var d := CreateStep(c, e, 0, 0);
      assert d.issuing == [];
      var t := d.tokens[|e.tokens|];
      assert d.tokens == e.tokens + [t];
      IssueUnderCap(c, s.tokens, s.issuing[0].user, s.now, t);
    }
    CapFromTokens(c, Run(c, s, Finish(0), 0));
  }

  lemma RefreshUpToIssue(c: Config, s: State, i: nat)
    requires c.maxActive >= 1 && Capped(c, s)
    ensures var m := Step(c, Step(c, s, Read(i), 0), Consume(0), 0);
            UnderCap(c, m.tokens) && m.reading == []
            && (m.issuing == [] || (|m.issuing| == 1 && m.issuing[0].phase.Begun? && m.issuing[0].since == m.now))
  {
    var r := Step(c, s, Read(i), 0);
    var m := Step(c, r, Consume(0), 0);
    assert UnderCap(c, s.tokens) by {
      assert forall u :: ActiveOf(s, u) == Sum(s.tokens, ActiveBy(u));
    }
    if i < |s.tokens| {
      WeakerUnderCap(c, s.tokens, r.tokens);
    }
    WeakerUnderCap(c, r.tokens, m.tokens);
  }

  lemma CallKeepsCap(c: Config, s: State, call: Call)
    requires c.maxActive >= 1 && Capped(c, s)
    ensures Capped(c, Run(c, s, StepsOf(call), 0))
  {
    assert UnderCap(c, s.tokens) by {
      assert forall u :: ActiveOf(s, u) == Sum(s.tokens, ActiveBy(u));
    }
    match call
    case LoginCall(user) =>
      OneStep(c, s, BeginLogin(user));
      RunConcat(c, s, [BeginLogin(user)], Finish(0), 0, 0);
      IssueAtOnce(c, Step(c, s, BeginLogin(user), 0));
    case RefreshCall(i) =>
      OneStep(c, s, Read(i));
      RunOneMore(c, s, [Read(i)], Consume(0), 0);
      RunConcat(c, s, [Read(i)] + [Consume(0)], Finish(0), 0, 0);
      RefreshUpToIssue(c, s, i);
      IssueAtOnce(c, Step(c, Step(c, s, Read(i), 0), Consume(0), 0));
    case LogoutCall(i) =>
      OneStep(c, s, Logout(i));
      if i < |s.tokens| {
        WeakerUnderCap(c, s.tokens, DropFamily(s.tokens, s.tokens[i].family));
      }
      CapFromTokens(c, Step(c, s, Logout(i), 0));
    case PurgeCall =>
      OneStep(c, s, Purge);
      WeakerUnderCap(c, s.tokens, DropExpired(s.tokens, None, s.now));
      CapFromTokens(c, Step(c, s, Purge, 0));
    case Pause(ms) =>
      OneStep(c, s, Wait(ms));
      CapFromTokens(c, Step(c, s, Wait(ms), 0));
  }

  lemma CapFromTokens(c: Config, s: State)
    requires UnderCap(c, s.tokens)
    ensures forall u :: ActiveOf(s, u) <= c.maxActive
  {
  }

  lemma OneStep(c: Config, s: State, a: Action)
    requires c.maxActive >= 1
    ensures Run(c, s, [a], 0) == Step(c, s, a, 0)
  {
    RunOneMore(c, s, [], a, 0);
    assert [] + [a] == [a];
  }

  /** With calls run one at a time no user ever has more active tokens than allowed. */
  lemma {:induction false} SerialCallsKeepCap(c: Config, s: State, calls: seq<Call>)
    requires c.maxActive >= 1 && Capped(c, s)
    ensures Capped(c, Calls(c, s, calls))
  {
    if calls != [] {
      SerialCallsKeepCap(c, s, calls[..|calls| - 1]);
      CallKeepsCap(c, Calls(c, s, calls[..|calls| - 1]), calls[|calls| - 1]);
    }
  }

  const EMPTY := State([], [], [], 0, 0, [], map[])

  lemma EmptyIsGood(c: Config, delay: nat)
    ensures SingleUse(EMPTY) && Bounded(c, EMPTY, delay) && Capped(c, EMPTY)
  {
    assert forall f: nat :: Unrotated(EMPTY, f) == 0;
    assert forall u: nat :: ActiveOf(EMPTY, u) == 0;
  }

  // ----- overlapping calls -----

  /** Past its listing: what the call will leave is decided, and its token still to come. */
  predicate Pends(r: Issue) {
    r.phase.Listed? || r.phase.Cleared?
  }

  function PendingBy(user: nat): Issue -> int {
    (r: Issue) => if Pends(r) && r.user == user then 1 else 0
  }

  /** Calls of the user between listing and insert. */
  function PendingOf(s: State, user: nat): int {
    Sum(s.issuing, PendingBy(user))
  }

  ghost predicate PendingAtMost(s: State, most: nat) {
    forall u :: PendingOf(s, u) <= most
  }

  /** At no point of the run has a user more than `most` calls between listing and insert. */
  ghost predicate OverlapAtMost(c: Config, s: State, acts: seq<Action>, most: nat, delay: nat)
    requires c.maxActive >= 1
  {
    PendingAtMost(Run(c, s, acts, delay), most) && (acts != [] ==> OverlapAtMost(c, s, acts[..|acts| - 1], most, delay))
  }

  /** Of those calls the ones whose listing saw at most `n` rows. */
  function PendingUpTo(n: nat, user: nat): Issue -> int {
    (r: Issue) => if Pends(r) && r.phase.upTo <= n && r.user == user then 1 else 0
  }

  /** The user's active tokens among the first n rows, and among the others. */
  function ActiveUpTo(tokens: seq<Token>, n: nat, user: nat): int
    requires n <= |tokens|
  {
    Sum(tokens[..n], ActiveBy(user))
  }

  function ActiveFrom(tokens: seq<Token>, n: nat, user: nat): int
    requires n <= |tokens|
  {
    Sum(tokens[n..], ActiveBy(user))
  }

  /** Newer active tokens and those to come from listings that saw no more than n rows. */
  ghost predicate FewSince(s: State, n: nat, user: nat, most: nat) {
    n <= |s.tokens| && ActiveFrom(s.tokens, n, user) + Sum(s.issuing, PendingUpTo(n, user)) <= most
  }

  /** Deleting what the call has listed will leave one place free among the rows it saw. */
  ghost predicate ListingFits(c: Config, s: State, r: Issue, most: nat) {
    && r.phase.Listed? && FewSince(s, r.phase.upTo, r.user, most)
    && ActiveUpTo(DropIds(s.tokens, r.phase.doomed), r.phase.upTo, r.user) <= c.maxActive - 1
  }

  /**
   * The first `bar` rows have one place free for the user, few tokens are newer or to come, no call
   * that has deleted saw more rows, and a call that has yet to delete and saw more fits as well.
   */
  ghost predicate Barred(c: Config, s: State, user: nat, bar: nat, most: nat) {
    && FewSince(s, bar, user, most) && ActiveUpTo(s.tokens, bar, user) <= c.maxActive - 1
    && (forall r | r in s.issuing && r.user == user && r.phase.Cleared? :: r.phase.upTo <= bar)
    && (forall r | r in s.issuing && r.user == user && r.phase.Listed? && r.phase.upTo > bar :: ListingFits(c, s, r, most))
  }

  ghost predicate HasBar(c: Config, s: State, user: nat, most: nat) {
    exists bar: nat :: Barred(c, s, user, bar, most)
  }

  ghost predicate RoomKept(c: Config, s: State, most: nat) {
    forall u :: HasBar(c, s, u, most)
  }

  lemma BarredBounds(c: Config, s: State, user: nat, bar: nat, most: nat)
    requires Barred(c, s, user, bar, most)
    ensures ActiveOf(s, user) <= c.maxActive - 1 + most
  {
    assert s.tokens[..bar] + s.tokens[bar..] == s.tokens;
    SumConcat(s.tokens[..bar], s.tokens[bar..], ActiveBy(user));
    SumNonNegative(s.issuing, PendingUpTo(bar, user));
  }

  lemma WeakerFew(s: State, e: State, n: nat, user: nat, most: nat)
    requires FewSince(s, n, user, most) && Weaker(s.tokens, e.tokens)
    requires Sum(e.issuing, PendingUpTo(n, user)) <= Sum(s.issuing, PendingUpTo(n, user))
    ensures FewSince(e, n, user, most)
  {
    WeakerKeepsCount(s.tokens[n..], e.tokens[n..], user);
  }

  /** Wherever the bar, no more tokens of the user are to come. */
  ghost predicate FewerPend(s: State, e: State, user: nat) {
    forall n: nat :: Sum(e.issuing, PendingUpTo(n, user)) <= Sum(s.issuing, PendingUpTo(n, user))
  }

  /** Calls of the user that have deleted saw no rows past the bar, those that have not were there before. */
  ghost predicate NoneMoves(s: State, e: State, user: nat, bar: nat) {
    && (forall r | r in e.issuing && r.user == user && r.phase.Cleared? :: r.phase.upTo <= bar)
    && (forall r | r in e.issuing && r.user == user && r.phase.Listed? && r.phase.upTo > bar :: r in s.issuing)
  }

  lemma ListingStands(c: Config, s: State, e: State, r: Issue, most: nat)
    requires ListingFits(c, s, r, most) && Weaker(s.tokens, e.tokens) && FewerPend(s, e, r.user)
    ensures ListingFits(c, e, r, most)
  {
    var n := r.phase.upTo;
    WeakerFew(s, e, n, r.user, most);
    DropIdsWeaker(s.tokens, e.tokens, r.phase.doomed);
    WeakerKeepsCount(DropIds(s.tokens, r.phase.doomed)[..n], DropIds(e.tokens, r.phase.doomed)[..n], r.user);
  }

  lemma DropIdsWeaker(a: seq<Token>, b: seq<Token>, ids: seq<nat>)
    requires Weaker(a, b)
    ensures Weaker(DropIds(a, ids), DropIds(b, ids))
  {
  }

  /** The bar stands when rows are deleted, calls give up and no call of the user gets further. */
  lemma BarStands(c: Config, s: State, e: State, user: nat, bar: nat, most: nat)
    requires Barred(c, s, user, bar, most) && Weaker(s.tokens, e.tokens)
    requires FewerPend(s, e, user) && NoneMoves(s, e, user, bar)
    ensures Barred(c, e, user, bar, most)
  {
    WeakerFew(s, e, bar, user, most);
    WeakerKeepsCount(s.tokens[..bar], e.tokens[..bar], user);
    forall r | r in e.issuing && r.user == user && r.phase.Listed? && r.phase.upTo > bar ensures ListingFits(c, e, r, most) {
      ListingStands(c, s, e, r, most);
    }
  }

  /** Rows are deleted and no call moves. */
  lemma WeakerKeepsBar(c: Config, s: State, e: State, user: nat, bar: nat, most: nat)
    requires Barred(c, s, user, bar, most) && Weaker(s.tokens, e.tokens) && e.issuing == s.issuing
    ensures Barred(c, e, user, bar, most)
  {
    BarStands(c, s, e, user, bar, most);
  }

  /** A call begins. */
  lemma BeginKeepsBar(c: Config, s: State, e: State, user: nat, bar: nat, most: nat, r: Issue)
    requires Barred(c, s, user, bar, most) && Weaker(s.tokens, e.tokens)
    requires e.issuing == s.issuing + [r] && r.phase.Begun?
    ensures Barred(c, e, user, bar, most)
  {
    forall n: nat ensures Sum(e.issuing, PendingUpTo(n, user)) == Sum(s.issuing, PendingUpTo(n, user)) {
      SumAppend(s.issuing, r, PendingUpTo(n, user));
    }
    BarStands(c, s, e, user, bar, most);
  }

  lemma LoginKeepsBar(c: Config, s: State, u: nat, user: nat, bar: nat, most: nat, delay: nat)
    requires c.maxActive >= 1 && Barred(c, s, user, bar, most)
    ensures Barred(c, Step(c, s, BeginLogin(u), delay), user, bar, most)
  {
    BeginKeepsBar(c, s, Step(c, s, BeginLogin(u), delay), user, bar, most, Issue(u, s.nextFamily, None, s.now, Begun));
  }

  lemma ConsumeKeepsBar(c: Config, s: State, k: nat, user: nat, bar: nat, most: nat)
    requires Barred(c, s, user, bar, most)
    ensures Barred(c, ConsumeStep(s, k), user, bar, most)
  {
    var e := ConsumeStep(s, k);
    if e.issuing == s.issuing {
      WeakerKeepsBar(c, s, e, user, bar, most);
    } else {
      BeginKeepsBar(c, s, e, user, bar, most, e.issuing[|s.issuing|]);
    }
  }

  lemma RefuseKeepsBar(c: Config, s: State, k: nat, user: nat, bar: nat, most: nat, delay: nat)
    requires c.maxActive >= 1 && Barred(c, s, user, bar, most)
    ensures Barred(c, Step(c, s, Refuse(k), delay), user, bar, most)
  {
    var e := Step(c, s, Refuse(k), delay);
    if e != s {
      WithoutMembers(s.issuing, k);
      forall n: nat ensures Sum(e.issuing, PendingUpTo(n, user)) <= Sum(s.issuing, PendingUpTo(n, user)) {
        WithoutSum(s.issuing, k, PendingUpTo(n, user));
      }
      BarStands(c, s, e, user, bar, most);
    }
  }

  /** A call of another user, or one that only cleans up. */
  lemma OtherRoomKeepsBar(c: Config, s: State, k: nat, user: nat, bar: nat, most: nat)
    requires c.maxActive >= 1 && Barred(c, s, user, bar, most)
    requires k < |s.issuing| && (s.issuing[k].user != user || s.issuing[k].phase.Begun?)
    ensures Barred(c, RoomStep(c, s, k), user, bar, most)
  {
    var e := RoomStep(c, s, k);
    RoomStepFrame(c, s, k);
    if e != s {
      forall n: nat ensures Sum(e.issuing, PendingUpTo(n, user)) == Sum(s.issuing, PendingUpTo(n, user)) {
        SumUpdate(s.issuing, k, e.issuing[k], PendingUpTo(n, user));
      }
      forall r | r in e.issuing && r.user == user && Pends(r) ensures r in s.issuing {
        var i :| 0 <= i < |e.issuing| && e.issuing[i] == r;
        assert i != k;
      }
      BarStands(c, s, e, user, bar, most);
    }
  }

  /** Listing leaves what FewSince counts alone, or at the newest row counts all pending calls. */
  lemma ListKeepsFew(s: State, e: State, k: nat, n: nat, user: nat, most: nat)
    requires FewSince(s, n, user, most) && PendingAtMost(e, most) && e.tokens == s.tokens
    requires k < |s.issuing| && !Pends(s.issuing[k]) && |e.issuing| == |s.issuing| && e.issuing == s.issuing[k := e.issuing[k]]
    requires e.issuing[k].phase.Listed? && e.issuing[k].phase.upTo == |s.tokens|
    ensures FewSince(e, n, user, most)
  {
    if n < |s.tokens| {
      SumUpdate(s.issuing, k, e.issuing[k], PendingUpTo(n, user));
    } else {
      NewestFew(e, user, most);
    }
  }

  lemma NewestFew(e: State, user: nat, most: nat)
    requires PendingAtMost(e, most)
    ensures FewSince(e, |e.tokens|, user, most)
  {
    SumBounds(e.issuing, PendingUpTo(|e.tokens|, user), PendingBy(user));
    assert PendingOf(e, user) <= most;
  }

  lemma ListKeepsBar(c: Config, s: State, k: nat, bar: nat, most: nat)
    requires c.maxActive >= 1 && k < |s.issuing| && Barred(c, s, s.issuing[k].user, bar, most)
    requires s.issuing[k].phase.Cleaned? && PendingAtMost(RoomStep(c, s, k), most)
    ensures Barred(c, RoomStep(c, s, k), s.issuing[k].user, bar, most)
  {
    var e, user := RoomStep(c, s, k), s.issuing[k].user;
    ListKeepsFew(s, e, k, bar, user, most);
    forall r | r in e.issuing && r.user == user && Pends(r)
      ensures if r.phase.Cleared? then r.phase.upTo <= bar else r.phase.upTo > bar ==> ListingFits(c, e, r, most)
    {
      var i :| 0 <= i < |e.issuing| && e.issuing[i] == r;
      if i == k {
        NewListingFits(c, e, r, most);
      } else {
        assert s.issuing[i] == r && r in s.issuing;
        if r.phase.Listed? && r.phase.upTo > bar {
          assert ListingFits(c, s, r, most);
          ListKeepsFew(s, e, k, r.phase.upTo, user, most);
        }
      }
    }
  }

  lemma NewListingFits(c: Config, e: State, r: Issue, most: nat)
    requires c.maxActive >= 1 && PendingAtMost(e, most)
    requires r.phase == Listed(TooMany(e.tokens, r.user, c.maxActive), |e.tokens|)
    ensures ListingFits(c, e, r, most)
  {
    NewestFew(e, r.user, most);
    OnePlaceFree(e.tokens, r.user, c.maxActive, r.phase.doomed);
  }

  lemma OnePlaceFree(tokens: seq<Token>, user: nat, maxActive: nat, doomed: seq<nat>)
    requires maxActive >= 1 && doomed == TooMany(tokens, user, maxActive)
    ensures ActiveUpTo(DropIds(tokens, doomed), |tokens|, user) <= maxActive - 1
  {
    var left := EvictOld(tokens, user, maxActive - 1);
    TooManyEvicts(tokens, user, maxActive);
    EvictCount(tokens, user, maxActive - 1);
    EvictShape(tokens, user, maxActive - 1);
    assert left[..|tokens|] == left;
  }

  /** A call deletes what it listed: if it saw more rows than the bar, it sets a new one. */
  lemma ClearMovesBar(c: Config, s: State, k: nat, bar: nat, most: nat) returns (next: nat)
    requires c.maxActive >= 1 && k < |s.issuing| && Barred(c, s, s.issuing[k].user, bar, most) && s.issuing[k].phase.Listed?
    ensures Barred(c, RoomStep(c, s, k), s.issuing[k].user, next, most)
  {
    var r, e := s.issuing[k], RoomStep(c, s, k);
    assert r in s.issuing;
    var m := s.(tokens := e.tokens);
    WeakerKeepsBar(c, s, m, r.user, bar, most);
    next := Max(bar, r.phase.upTo);
    if next > bar {
      assert ListingFits(c, s, r, most) && ListingFits(c, m, r, most);
      assert Barred(c, m, r.user, next, most);
    }
    ClearedKeepsBar(c, m, k, next, most);
    assert Enter(m, k, Cleared(r.phase.upTo)) == e;
  }

  /** A call that saw no more rows than the bar may count as having deleted. */
  lemma ClearedKeepsBar(c: Config, m: State, k: nat, bar: nat, most: nat)
    requires k < |m.issuing| && m.issuing[k].phase.Listed? && m.issuing[k].phase.upTo <= bar
    requires Barred(c, m, m.issuing[k].user, bar, most)
    ensures Barred(c, Enter(m, k, Cleared(m.issuing[k].phase.upTo)), m.issuing[k].user, bar, most)
  {
    var r := m.issuing[k];
    var e := Enter(m, k, Cleared(r.phase.upTo));
    forall n: nat ensures Sum(e.issuing, PendingUpTo(n, r.user)) == Sum(m.issuing, PendingUpTo(n, r.user)) {
      SumUpdate(m.issuing, k, e.issuing[k], PendingUpTo(n, r.user));
    }
    forall x | x in e.issuing && x.user == r.user && Pends(x)
      ensures if x.phase.Cleared? then x.phase.upTo <= bar else x in m.issuing
    {
      var i :| 0 <= i < |e.issuing| && e.issuing[i] == x;
      assert i != k ==> m.issuing[i] in m.issuing;
    }
    BarStands(c, m, e, r.user, bar, most);
  }

  /** The new token is above the bar, and was counted as one to come. */
  lemma CreateKeepsFew(c: Config, s: State, k: nat, delay: nat, n: nat, user: nat, most: nat)
    requires FewSince(s, n, user, most) && k < |s.issuing| && CreateStep(c, s, k, delay) != s
    requires s.issuing[k].user == user ==> s.issuing[k].phase.upTo <= n
    ensures FewSince(CreateStep(c, s, k, delay), n, user, most)
  {
    var e := CreateStep(c, s, k, delay);
    var t := e.tokens[|s.tokens|];
    assert e.tokens[n..] == s.tokens[n..] + [t];
    SumAppend(s.tokens[n..], t, ActiveBy(user));
    WithoutSum(s.issuing, k, PendingUpTo(n, user));
  }

  lemma CreateKeepsBar(c: Config, s: State, k: nat, delay: nat, user: nat, bar: nat, most: nat)
    requires Barred(c, s, user, bar, most)
    ensures Barred(c, CreateStep(c, s, k, delay), user, bar, most)
  {
    var e := CreateStep(c, s, k, delay);
    if e != s {
      assert s.issuing[k] in s.issuing;
      WithoutMembers(s.issuing, k);
      CreateKeepsFew(c, s, k, delay, bar, user, most);
      assert e.tokens[..bar] == s.tokens[..bar];
      forall r | r in e.issuing && r.user == user && r.phase.Listed? && r.phase.upTo > bar ensures ListingFits(c, e, r, most) {
        CreateKeepsListing(c, s, k, delay, r, most);
      }
    }
  }

  lemma CreateKeepsListing(c: Config, s: State, k: nat, delay: nat, r: Issue, most: nat)
    requires ListingFits(c, s, r, most) && k < |s.issuing| && CreateStep(c, s, k, delay) != s
    requires s.issuing[k].user == r.user ==> s.issuing[k].phase.upTo <= r.phase.upTo
    ensures ListingFits(c, CreateStep(c, s, k, delay), r, most)
  {
    var e, n := CreateStep(c, s, k, delay), r.phase.upTo;
    CreateKeepsFew(c, s, k, delay, n, r.user, most);
    assert DropIds(e.tokens, r.phase.doomed)[..n] == DropIds(s.tokens, r.phase.doomed)[..n];
  }

  lemma RoomKeepsBar(c: Config, s: State, k: nat, user: nat, bar: nat, most: nat) returns (next: nat)
    requires c.maxActive >= 1 && Barred(c, s, user, bar, most) && PendingAtMost(RoomStep(c, s, k), most)
    ensures Barred(c, RoomStep(c, s, k), user, next, most)
  {
    next := bar;
    if k < |s.issuing| {
      var r := s.issuing[k];
      if r.user != user || r.phase.Begun? {
        OtherRoomKeepsBar(c, s, k, user, bar, most);
      } else if r.phase.Cleaned? {
        ListKeepsBar(c, s, k, bar, most);
      } else if r.phase.Listed? {
        next := ClearMovesBar(c, s, k, bar, most);
      }
    }
  }

  /** Checks, logouts, clean-ups and time create nothing. */
  lemma DeletionsOnly(c: Config, s: State, act: Action, delay: nat)
    requires c.maxActive >= 1 && (act.Read? || act.Logout? || act.Purge? || act.Wait?)
    ensures Weaker(s.tokens, Step(c, s, act, delay).tokens) && Step(c, s, act, delay).issuing == s.issuing
  {
  }

  /** One step moves a user's bar at most to the rows a finishing deletion saw. */
  lemma StepKeepsBar(c: Config, s: State, act: Action, user: nat, bar: nat, most: nat, delay: nat) returns (next: nat)
    requires c.maxActive >= 1 && Barred(c, s, user, bar, most) && PendingAtMost(Step(c, s, act, delay), most)
    ensures Barred(c, Step(c, s, act, delay), user, next, most)
  {
    var e := Step(c, s, act, delay);
    next := bar;
    match act
    case BeginLogin(u) => LoginKeepsBar(c, s, u, user, bar, most, delay);
    case Consume(k) => ConsumeKeepsBar(c, s, k, user, bar, most);
    case CreateFor(k) => CreateKeepsBar(c, s, k, delay, user, bar, most);
    case Refuse(k) => RefuseKeepsBar(c, s, k, user, bar, most, delay);
    case Room(k) => next := RoomKeepsBar(c, s, k, user, bar, most);
    case _ =>
      DeletionsOnly(c, s, act, delay);
      WeakerKeepsBar(c, s, e, user, bar, most);
  }

  lemma StepKeepsRoom(c: Config, s: State, act: Action, most: nat, delay: nat)
    requires c.maxActive >= 1 && RoomKept(c, s, most) && PendingAtMost(Step(c, s, act, delay), most)
    ensures RoomKept(c, Step(c, s, act, delay), most)
  {
    forall u ensures HasBar(c, Step(c, s, act, delay), u, most) {
      assert HasBar(c, s, u, most);
      var bar: nat :| Barred(c, s, u, bar, most);
      var next := StepKeepsBar(c, s, act, u, bar, most, delay);
    }
  }

  /**
   * Over every interleaving in which a user never has more than `most` calls between listing and
   * insert, active tokens stay within the cap plus `most` less one.
   */
  lemma {:induction false} OverlapBoundsTokens(c: Config, s: State, acts: seq<Action>, most: nat, delay: nat)
    requires c.maxActive >= 1 && RoomKept(c, s, most) && OverlapAtMost(c, s, acts, most, delay)
    ensures RoomKept(c, Run(c, s, acts, delay), most)
    ensures forall u :: ActiveOf(Run(c, s, acts, delay), u) <= c.maxActive - 1 + most
  {
    if acts != [] {
      var n := |acts| - 1;
      OverlapBoundsTokens(c, s, acts[..n], most, delay);
      StepKeepsRoom(c, Run(c, s, acts[..n], delay), acts[n], most, delay);
    }
    var e := Run(c, s, acts, delay);
    forall u ensures ActiveOf(e, u) <= c.maxActive - 1 + most {
      assert HasBar(c, e, u, most);
      var bar: nat :| Barred(c, e, u, bar, most);
      BarredBounds(c, e, u, bar, most);
    }
  }

  // ----- the bound is reached -----

  lemma {:induction false} RunConcat(c: Config, s: State, a: seq<Action>, b: seq<Action>, most: nat, delay: nat)
    requires c.maxActive >= 1
    ensures Run(c, s, a + b, delay) == Run(c, Run(c, s, a, delay), b, delay)
    ensures OverlapAtMost(c, s, a, most, delay) && OverlapAtMost(c, Run(c, s, a, delay), b, most, delay)
            ==> OverlapAtMost(c, s, a + b, most, delay)
  {
    if b == [] {
      assert a + b == a;
    } else {
      assert (a + b)[..|a + b| - 1] == a + b[..|b| - 1];
      RunConcat(c, s, a, b[..|b| - 1], most, delay);
    }
  }

  lemma RunOn(c: Config, s: State, acts: seq<Action>, act: Action, most: nat, delay: nat)
    requires c.maxActive >= 1
    ensures Run(c, s, acts + [act], delay) == Step(c, Run(c, s, acts, delay), act, delay)
    ensures OverlapAtMost(c, s, acts, most, delay) && PendingAtMost(Run(c, s, acts + [act], delay), most)
            ==> OverlapAtMost(c, s, acts + [act], most, delay)
  {
    assert (acts + [act])[..|acts|] == acts;
  }

  /** Uninterrupted, a call that has just begun makes room; on the way no more calls are pending than after. */
  lemma RunRoom(c: Config, s: State, acts: seq<Action>, k: nat, most: nat, delay: nat) returns (more: seq<Action>)
    requires c.maxActive >= 1
    requires var m := Run(c, s, acts, delay); k < |m.issuing| && m.issuing[k].phase.Begun?
    ensures Run(c, s, more, delay) == MakeRoom(c, Run(c, s, acts, delay), k)
    ensures OverlapAtMost(c, s, acts, most, delay) && PendingAtMost(MakeRoom(c, Run(c, s, acts, delay), k), most)
            ==> OverlapAtMost(c, s, more, most, delay)
  {
    var m := Run(c, s, acts, delay);
    PreparedAtOnce(c, m, k);
    RoomPending(c, m, k, most);
    RunOn(c, s, acts, Room(k), most, delay);
    RunOn(c, s, acts + [Room(k)], Room(k), most, delay);
    RunOn(c, s, acts + [Room(k)] + [Room(k)], Room(k), most, delay);
    more := acts + [Room(k)] + [Room(k)] + [Room(k)];
  }

  lemma RoomPending(c: Config, s: State, k: nat, most: nat)
    requires c.maxActive >= 1 && k < |s.issuing| && s.issuing[k].phase.Begun?
    ensures var a := RoomStep(c, s, k);
            var b := RoomStep(c, a, k);
            PendingAtMost(MakeRoom(c, s, k), most) ==> PendingAtMost(a, most) && PendingAtMost(b, most)
  {
    var a := RoomStep(c, s, k);
    var b, e := RoomStep(c, a, k), MakeRoom(c, s, k);
    forall u ensures PendingOf(a, u) <= PendingOf(e, u) && PendingOf(b, u) == PendingOf(e, u) {
      SumUpdate(s.issuing, k, a.issuing[k], PendingBy(u));
      SumUpdate(a.issuing, k, b.issuing[k], PendingBy(u));
      SumUpdate(s.issuing, k, e.issuing[k], PendingBy(u));
    }
  }

  /**
   * A wave of logins of user 0: `begun` calls under way, the first `cleared` of them past their
   * deletions, `active` tokens, none of them expired.
   */
  ghost predicate Wave(s: State, begun: nat, cleared: nat, active: nat) {
    && |s.issuing| == begun && cleared <= begun && UpToCleared(s.issuing, cleared)
    && (forall k | 0 <= k < begun :: s.issuing[k].since == s.now)
    && ActiveOf(s, 0) == active
    && (forall t | t in s.tokens :: t.expires >= s.now)
  }

  /** All of user 0, the first `cleared` ready to insert, the others at their start. */
  ghost predicate UpToCleared(issuing: seq<Issue>, cleared: nat) {
    forall k | 0 <= k < |issuing| ::
      issuing[k].user == 0 && if k < cleared then issuing[k].phase.Cleared? else issuing[k].phase.Begun?
  }

  lemma {:induction false} CountPending(issuing: seq<Issue>, cleared: nat, user: nat)
    requires cleared <= |issuing| && UpToCleared(issuing, cleared)
    ensures Sum(issuing, PendingBy(user)) == if user == 0 then cleared else 0
  {
    if issuing != [] {
      var n := |issuing| - 1;
      CountPending(issuing[..n], Min(cleared, n), user);
    }
  }

  lemma WavePending(s: State, begun: nat, cleared: nat, active: nat, most: nat)
    requires Wave(s, begun, cleared, active) && cleared <= most
    ensures PendingAtMost(s, most)
  {
    forall u ensures PendingOf(s, u) <= most {
      CountPending(s.issuing, cleared, u);
    }
  }

  lemma WaveBegins(c: Config, s: State, n: nat, active: nat, delay: nat)
    requires c.maxActive >= 1 && Wave(s, n, 0, active)
    ensures Wave(Step(c, s, BeginLogin(0), delay), n + 1, 0, active)
  {
  }

  lemma NothingExpired(tokens: seq<Token>, user: nat, now: int)
    requires forall t | t in tokens :: t.expires >= now
    ensures DropExpired(tokens, Some(user), now) == tokens
  {
    forall j | 0 <= j < |tokens| ensures DropExpired(tokens, Some(user), now)[j] == tokens[j] {
      assert tokens[j] in tokens;
    }
  }

  lemma EvictKeepsExpiry(tokens: seq<Token>, user: nat, k: nat, now: int)
    requires forall t | t in tokens :: t.expires >= now
    ensures forall t | t in EvictOld(tokens, user, k) :: t.expires >= now
  {
    EvictShape(tokens, user, k);
    var r := EvictOld(tokens, user, k);
    forall t | t in r ensures t.expires >= now {
      var j :| 0 <= j < |r| && r[j] == t;
      assert tokens[j] in tokens;
    }
  }

  /** With room for one more and nothing expired, an eviction drops nothing. */
  lemma EvictDropsNothing(c: Config, tokens: seq<Token>, now: int)
    requires c.maxActive >= 1 && Sum(tokens, ActiveBy(0)) <= c.maxActive - 1
    requires forall t | t in tokens :: t.expires >= now
    ensures Sum(Evict(tokens, 0, now, c.maxActive), ActiveBy(0)) == Sum(tokens, ActiveBy(0))
    ensures forall t | t in Evict(tokens, 0, now, c.maxActive) :: t.expires >= now
  {
    NothingExpired(tokens, 0, now);
    EvictCount(tokens, 0, c.maxActive - 1);
    EvictKeepsExpiry(tokens, 0, c.maxActive - 1, now);
  }

  lemma WaveEvicts(c: Config, s: State, n: nat, i: nat, active: nat)
    requires c.maxActive >= 1 && Wave(s, n, i, active) && i < n && active <= c.maxActive - 1
    ensures Wave(MakeRoom(c, s, i), n, i + 1, active)
  {
    EvictDropsNothing(c, s.tokens, s.now);
  }

  lemma WaveCreates(c: Config, s: State, n: nat, active: nat, delay: nat)
    requires c.maxActive >= 1 && Wave(s, n, n, active) && n > 0
    ensures Wave(Step(c, s, CreateFor(0), delay), n - 1, n - 1, active + 1)
  {
    var e := Step(c, s, CreateFor(0), delay);
    SumAppend(s.tokens, e.tokens[|s.tokens|], ActiveBy(0));
    assert e.issuing == s.issuing[1..];
  }

  /** n logins that all make room before any of them inserts. */
  lemma WaveOf(c: Config, s: State, n: nat, active: nat, most: nat, delay: nat) returns (acts: seq<Action>)
    requires c.maxActive >= 1 && Wave(s, 0, 0, active) && active <= c.maxActive - 1 && n <= most
    ensures OverlapAtMost(c, s, acts, most, delay) && Wave(Run(c, s, acts, delay), 0, 0, active + n)
  {
    acts := [];
    WavePending(s, 0, 0, active, most);
    for i := 0 to n
      invariant OverlapAtMost(c, s, acts, most, delay) && Wave(Run(c, s, acts, delay), i, 0, active)
    {
      var m := Run(c, s, acts, delay);
      WaveBegins(c, m, i, active, delay);
      WavePending(Step(c, m, BeginLogin(0), delay), i + 1, 0, active, most);
      RunOn(c, s, acts, BeginLogin(0), most, delay);
      acts := acts + [BeginLogin(0)];
    }
    for i := 0 to n
      invariant OverlapAtMost(c, s, acts, most, delay) && Wave(Run(c, s, acts, delay), n, i, active)
    {
      var m := Run(c, s, acts, delay);
      WaveEvicts(c, m, n, i, active);
      WavePending(MakeRoom(c, m, i), n, i + 1, active, most);
      acts := RunRoom(c, s, acts, i, most, delay);
    }
    for i := 0 to n
      invariant OverlapAtMost(c, s, acts, most, delay) && Wave(Run(c, s, acts, delay), n - i, n - i, active + i)
    {
      var m := Run(c, s, acts, delay);
      WaveCreates(c, m, n - i, active + i, delay);
      WavePending(Step(c, m, CreateFor(0), delay), n - i - 1, n - i - 1, active + i + 1, most);
      RunOn(c, s, acts, CreateFor(0), most, delay);
      acts := acts + [CreateFor(0)];
    }
  }

  /** One login after the other up to one below the cap, then `most` at once: the bound is reached. */
  lemma OverlapReachesBound(c: Config, most: nat, delay: nat) returns (acts: seq<Action>)
    requires c.maxActive >= 1 && most >= 1
    ensures OverlapAtMost(c, EMPTY, acts, most, delay)
    ensures ActiveOf(Run(c, EMPTY, acts, delay), 0) == c.maxActive - 1 + most
  {
    acts := [];
    assert Wave(EMPTY, 0, 0, 0);
    WavePending(EMPTY, 0, 0, 0, most);
    for i := 0 to c.maxActive - 1
      invariant OverlapAtMost(c, EMPTY, acts, most, delay) && Wave(Run(c, EMPTY, acts, delay), 0, 0, i)
    {
      var wave := WaveOf(c, Run(c, EMPTY, acts, delay), 1, i, most, delay);
      RunConcat(c, EMPTY, acts, wave, most, delay);
      acts := acts + wave;
    }
    var wave := WaveOf(c, Run(c, EMPTY, acts, delay), most, c.maxActive - 1, most, delay);
    RunConcat(c, EMPTY, acts, wave, most, delay);
    acts := acts + wave;
  }

  /** Whoever the user and whatever the run, no more active tokens than allowed. */
  ghost predicate CapKept(c: Config, most: nat, delay: nat)
    requires c.maxActive >= 1
  {
    forall acts, u | OverlapAtMost(c, EMPTY, acts, most, delay) :: ActiveOf(Run(c, EMPTY, acts, delay), u) <= c.maxActive
  }

  /** The cap on active tokens holds over all runs exactly when no two calls of a user overlap between listing and insert. */
  lemma CapKeptExactly(c: Config, most: nat, delay: nat)
    requires c.maxActive >= 1
    ensures CapKept(c, most, delay) <==> most <= 1
  {
    if most <= 1 {
      forall u: nat ensures HasBar(c, EMPTY, u, most) {
        assert Barred(c, EMPTY, u, 0, most);
      }
      forall acts, u | OverlapAtMost(c, EMPTY, acts, most, delay) ensures ActiveOf(Run(c, EMPTY, acts, delay), u) <= c.maxActive {
        OverlapBoundsTokens(c, EMPTY, acts, most, delay);
      }
    } else {
      var acts := OverlapReachesBound(c, most, delay);
    }
  }

  // ----- the age bound is reached -----

  /** Between calls, the newest token is active, as fresh as can be, and dates from time 0. */
  ghost predicate Fresh(c: Config, s: State) {
    && s.reading == [] && s.issuing == [] && s.tokens != []
    && var t := s.tokens[|s.tokens| - 1];
       Active(t) && t.started == 0 && t.expires == s.now + c.lifetime
  }

  /** The newest token passes every check while neither it nor its session is too old. */
  lemma ReadsFresh(c: Config, s: State)
    requires s.reading == [] && s.tokens != []
    requires var t := s.tokens[|s.tokens| - 1]; Active(t) && t.started == 0 && s.now <= t.expires && s.now <= c.sessionMax
    ensures var n := |s.tokens| - 1;
            ReadStep(c, s, n) == s.(reading := [Ticket(n, s.tokens[n].user, s.tokens[n].family, 0, s.now)])
  {
  }

  lemma UsesTicket(s: State, r: Ticket)
    requires s.reading == [r] && s.issuing == [] && r.token < |s.tokens| && Active(s.tokens[r.token])
    ensures var e := ConsumeStep(s, 0);
            e.now == s.now && e.reading == [] && e.issuing == [Issue(r.user, r.family, Some(r.started), r.readAt, Begun)]
  {
  }

  /** The first half of a refresh: its check and its compare-and-set. */
  lemma RenewUpToIssue(c: Config, s: State, pause: nat, delay: nat) returns (acts: seq<Action>)
    requires c.maxActive >= 1 && Fresh(c, s) && pause <= c.lifetime && s.now + pause <= c.sessionMax
    ensures var e := Run(c, s, acts, delay);
            var t := s.tokens[|s.tokens| - 1];
            && e.now == s.now + pause && e.reading == []
            && e.issuing == [Issue(t.user, t.family, Some(0), s.now + pause, Begun)]
  {
    var n := |s.tokens| - 1;
    var w := s.(now := s.now + pause);
    var r := w.(reading := [Ticket(n, s.tokens[n].user, s.tokens[n].family, 0, w.now)]);
    ReadsFresh(c, w);
    StepsAre(c, s, w, r, pause, n, delay);
    UsesTicket(r, r.reading[0]);
    acts := RunThroughThree(c, s, Wait(pause), Read(n), Consume(0), delay);
  }

  lemma StepsAre(c: Config, s: State, w: State, r: State, pause: nat, n: nat, delay: nat)
    requires c.maxActive >= 1 && w == s.(now := s.now + pause) && r == ReadStep(c, w, n)
    ensures Step(c, Step(c, Step(c, s, Wait(pause), delay), Read(n), delay), Consume(0), delay) == ConsumeStep(r, 0)
  {
    assert Step(c, s, Wait(pause), delay) == w;
    assert Step(c, w, Read(n), delay) == r;
  }

  lemma RunThroughThree(c: Config, s: State, a: Action, b: Action, d: Action, delay: nat) returns (acts: seq<Action>)
    requires c.maxActive >= 1
    ensures Run(c, s, acts, delay) == Step(c, Step(c, Step(c, s, a, delay), b, delay), d, delay)
  {
    RunOn(c, s, [], a, 0, delay);
    RunOn(c, s, [] + [a], b, 0, delay);
    RunOn(c, s, [] + [a] + [b], d, 0, delay);
    acts := [] + [a] + [b] + [d];
  }

  /** A refresh `pause` after the last one that takes `hold` from its check to its insert. */
  lemma Renew(c: Config, s: State, pause: nat, hold: nat, delay: nat) returns (acts: seq<Action>)
    requires c.maxActive >= 1 && Fresh(c, s) && pause <= c.lifetime && s.now + pause <= c.sessionMax && hold <= delay
    ensures var e := Run(c, s, acts, delay); Fresh(c, e) && e.now == s.now + pause + hold
  {
    acts := RenewUpToIssue(c, s, pause, delay);
    acts := RunRoom(c, s, acts, 0, 0, delay);
    RunOn(c, s, acts, Wait(hold), 0, delay);
    acts := acts + [Wait(hold)];
    RunOn(c, s, acts, CreateFor(0), 0, delay);
    InsertIsFresh(c, Run(c, s, acts, delay), delay);
    acts := acts + [CreateFor(0)];
  }

  lemma InsertIsFresh(c: Config, s: State, delay: nat)
    requires c.maxActive >= 1 && s.reading == [] && |s.issuing| == 1 && s.issuing[0].phase.Cleared?
    requires s.issuing[0].started == Some(0) && s.now <= s.issuing[0].since + delay
    ensures Fresh(c, Step(c, s, CreateFor(0), delay)) && Step(c, s, CreateFor(0), delay).now == s.now
  {
  }

  /**
   * The bound on a session's life is reached, call time included: refreshed every millisecond up to
   * the cap and then once more by a call that takes as long as calls may.
   */
  lemma SessionBoundIsReached(c: Config, delay: nat) returns (acts: seq<Action>)
    requires c.maxActive >= 1 && (c.lifetime >= 1 || c.sessionMax == 0)
    ensures exists t :: t in Run(c, EMPTY, acts, delay).tokens && Active(t) && t.expires == t.started + c.sessionMax + delay + c.lifetime
  {
    acts := FirstLogin(c, delay);
    for age := 0 to c.sessionMax
      invariant Fresh(c, Run(c, EMPTY, acts, delay)) && Run(c, EMPTY, acts, delay).now == age
    {
      var more := Renew(c, Run(c, EMPTY, acts, delay), 1, 0, delay);
      RunConcat(c, EMPTY, acts, more, 0, delay);
      acts := acts + more;
    }
    var late := Renew(c, Run(c, EMPTY, acts, delay), 0, delay, delay);
    RunConcat(c, EMPTY, acts, late, 0, delay);
    acts := acts + late;
    var tokens := Run(c, EMPTY, acts, delay).tokens;
    assert tokens[|tokens| - 1] in tokens;
  }

  lemma FirstLogin(c: Config, delay: nat) returns (acts: seq<Action>)
    requires c.maxActive >= 1
    ensures Fresh(c, Run(c, EMPTY, acts, delay)) && Run(c, EMPTY, acts, delay).now == 0
  {
    RunOn(c, EMPTY, [], BeginLogin(0), 0, delay);
    acts := RunRoom(c, EMPTY, [] + [BeginLogin(0)], 0, 0, delay);
    var m := Run(c, EMPTY, acts, delay);
    assert m.issuing == [Issue(0, 0, None, 0, Cleared(0))];
    RunOn(c, EMPTY, acts, CreateFor(0), 0, delay);
    acts := acts + [CreateFor(0)];
  }

  // ----- the code -----

  lemma {:induction false} ActiveIdsBelow(tokens: seq<Token>, user: nat)
    ensures forall i | i in ActiveIds(tokens, user) :: i < |tokens|
  {
    if tokens != [] {
      ActiveIdsBelow(tokens[..|tokens| - 1], user);
    }
  }

  lemma DropLast(tokens: seq<Token>, ids: seq<nat>, last: bool)
    requires tokens != [] && forall i | i in ids :: i < |tokens| - 1
    ensures var n := |tokens| - 1;
            DropIds(tokens, (if last then [n] else []) + ids)
            == DropIds(tokens[..n], ids) + [if last then Dropped(tokens[n]) else tokens[n]]
  {
    var n := |tokens| - 1;
    var gone := (if last then [n] else []) + ids;
    forall i | 0 <= i < n ensures i in gone <==> i in ids {
    }
  }

  /** Deleting all but the first k ids of the newest-first list is the eviction. */
  lemma {:induction false} DropIdsEvicts(tokens: seq<Token>, user: nat, k: nat)
    ensures var ids := ActiveIds(tokens, user);
            DropIds(tokens, if k <= |ids| then ids[k..] else []) == EvictOld(tokens, user, k)
  {
    if tokens != [] {
      var n := |tokens| - 1;
      var t, rest := tokens[n], tokens[..n];
      var ids, older := ActiveIds(tokens, user), ActiveIds(rest, user);
      ActiveIdsBelow(rest, user);
      var mine := Active(t) && t.user == user;
      var k' := if mine && k > 0 then k - 1 else if mine then 0 else k;
      DropIdsEvicts(rest, user, k');
      var gone := if k <= |ids| then ids[k..] else [];
      var goneOlder := if k' <= |older| then older[k'..] else [];
      assert gone == (if mine && k == 0 then [n] else []) + goneOlder;
      forall i | i in goneOlder ensures i < n {
        assert i in older;
      }
      DropLast(tokens, goneOlder, mine && k == 0);
    }
  }

  class SessionStore {
    const config: Config
    var tokens: seq<Token>
    var now: int

    constructor (config: Config)
      ensures this.config == config && tokens == [] && now == 0
    {
      this.config := config;
      tokens, now := [], 0;
    }

    /** Looks a token up and checks it; a good one yields a ticket to go on with. */
    method CheckToken(i: nat) returns (ticket: Option<Ticket>)
      modifies this
      ensures now == old(now)
      ensures ReadStep(config, State(old(tokens), [], [], now, 0, [], map[]), i)
           == State(tokens, if ticket.Some? then [ticket.value] else [], [], now, 0, [], map[])
    {
      if i >= |tokens| || tokens[i].gone {
        return None;
      }
      var stored := tokens[i];
      if stored.rotatedAt.Some? {
        if now - stored.rotatedAt.value > config.reuseGrace {
          tokens := DropFamily(tokens, stored.family);
        }
        return None;
      }
      if stored.expires < now {
        tokens := tokens[i := Dropped(stored)];
        return None;
      }
      if now - stored.started > config.sessionMax {
        tokens := DropFamily(tokens, stored.family);
        return None;
      }
      return Some(Ticket(i, stored.user, stored.family, stored.started, now));
    }

    /** The compare-and-set of the rotation. */
    method ConsumeToken(ticket: Ticket) returns (won: bool)
      modifies this
      ensures now == old(now)
      ensures ConsumeStep(State(old(tokens), [ticket], [], now, 0, [], map[]), 0)
           == State(tokens, [], if won then [Issue(ticket.user, ticket.family, Some(ticket.started), ticket.readAt, Begun)] else [],
                    now, 0, if won then [ticket.token] else [], map[])
    {
      if ticket.token >= |tokens| || !Active(tokens[ticket.token]) {
        return false;
      }
      tokens := tokens[ticket.token := tokens[ticket.token].(rotatedAt := Some(now))];
      return true;
    }

    /** Cleans up, makes room and inserts the new token of a session. */
    method IssueTokens(user: nat, family: nat, started: Option<int>)
      requires config.maxActive >= 1
      modifies this
      ensures now == old(now)
      ensures tokens == Evict(old(tokens), user, now, config.maxActive)
                        + [Token(user, family, if started.Some? then started.value else now, now + config.lifetime, None, false)]
    {
      tokens := DropExpired(tokens, Some(user), now);
      var activeTokens := ActiveIds(tokens, user);
      TooManyEvicts(tokens, user, config.maxActive);
      if |activeTokens| >= config.maxActive {
        tokens := DropIds(tokens, activeTokens[config.maxActive - 1..]);
      } else {
        assert DropIds(tokens, []) == tokens;
      }
      var start := if started.Some? then started.value else now;
      tokens := tokens + [Token(user, family, start, now + config.lifetime, None, false)];
    }

    /** Ends the session the token belongs to. */
    method EndSession(i: nat)
      modifies this
      ensures now == old(now)
      ensures tokens == if i < |old(tokens)| && !old(tokens)[i].gone then DropFamily(old(tokens), old(tokens)[i].family) else old(tokens)
    {
      if i < |tokens| && !tokens[i].gone {
        tokens := DropFamily(tokens, tokens[i].family);
      }
    }
  }
}
