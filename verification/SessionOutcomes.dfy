/**
 * What presenting a refresh token leads to, token by token: a good one goes on, a replayed one ends
 * the session, and over every run it ends it for good exactly when no rotation is in flight.
 */
module SessionOutcomes {
  import opened Common
  import opened Sessions

  /** All rows of family f are deleted, all others are as they were. */
  predicate FamilyGone(s: State, e: State, f: nat) {
    && |e.tokens| == |s.tokens|
    && forall i | 0 <= i < |s.tokens| ::
         if s.tokens[i].family == f then e.tokens[i] == s.tokens[i].(gone := true) else e.tokens[i] == s.tokens[i]
  }

  /** Nothing but the token rows differs: nobody got a ticket. */
  predicate OnlyTokens(s: State, e: State) {
    e == s.(tokens := e.tokens)
  }

  /** A login begins a session of its own, without a start until its token is inserted. */
  lemma LoginBegins(c: Config, s: State, user: nat, delay: nat)
    requires c.maxActive >= 1
    ensures Step(c, s, BeginLogin(user), delay)
         == s.(issuing := s.issuing + [Issue(user, s.nextFamily, None, s.now, Begun)], nextFamily := s.nextFamily + 1)
  {
  }

  /** A token nobody issued, or one already deleted, changes nothing. */
  lemma UnknownTokenIsRefused(c: Config, s: State, i: nat, delay: nat)
    requires c.maxActive >= 1 && (i >= |s.tokens| || s.tokens[i].gone)
    ensures Step(c, s, Read(i), delay) == s
  {
  }

  /**
   * A token presented again after it was rotated: within the grace nothing happens, later the whole
   * session ends. Either way nobody may go on.
   */
  lemma ReplayedTokenEndsSession(c: Config, s: State, i: nat, delay: nat)
    requires c.maxActive >= 1 && i < |s.tokens| && !s.tokens[i].gone && s.tokens[i].rotatedAt.Some?
    ensures var t, e := s.tokens[i], Step(c, s, Read(i), delay);
            if s.now - t.rotatedAt.value <= c.reuseGrace then e == s
            else OnlyTokens(s, e) && FamilyGone(s, e, t.family)
  {
  }

  /**
   * A token not rotated yet: expired, its row goes; its session older than allowed, the session
   * ends; otherwise its holder may go on, and no row changes.
   */
  lemma FreshTokenIsChecked(c: Config, s: State, i: nat, delay: nat)
    requires c.maxActive >= 1 && i < |s.tokens| && !s.tokens[i].gone && s.tokens[i].rotatedAt.None?
    ensures var t, e := s.tokens[i], Step(c, s, Read(i), delay);
            if t.expires < s.now then e == s.(tokens := s.tokens[i := t.(gone := true)])
            else if s.now - t.started > c.sessionMax then OnlyTokens(s, e) && FamilyGone(s, e, t.family)
            else e == s.(reading := s.reading + [Ticket(i, t.user, t.family, t.started, s.now)])
  {
  }

  /** Some row of the family could still be used. */
  predicate Usable(s: State, f: nat) {
    exists i :: 0 <= i < |s.tokens| && s.tokens[i].family == f && !s.tokens[i].gone && s.tokens[i].rotatedAt.None?
  }

  /** No run from here sees a usable row of the family again. */
  ghost predicate OverForGood(c: Config, s: State, f: nat, delay: nat)
    requires c.maxActive >= 1
  {
    forall acts :: !Usable(Run(c, s, acts, delay), f)
  }

  lemma UsableIsAlive(s: State, f: nat)
    ensures Usable(s, f) <==> Alive(s, f)
  {
    if Alive(s, f) {
      var t :| t in s.tokens && t.family == f && Active(t);
      var i :| 0 <= i < |s.tokens| && s.tokens[i] == t;
    }
  }

  /**
   * A replay past the grace, and likewise a session grown too old, is over for good in every run
   * exactly when no rotation of the session is past its compare-and-set and still in time to insert.
   */
  lemma EndedSessionStaysOver(c: Config, s: State, i: nat, delay: nat)
    requires c.maxActive >= 1 && SingleUse(s) && i < |s.tokens| && !s.tokens[i].gone
    requires var t := s.tokens[i];
             if t.rotatedAt.Some? then s.now - t.rotatedAt.value > c.reuseGrace
             else t.expires >= s.now && s.now - t.started > c.sessionMax
    ensures var f := s.tokens[i].family;
            OverForGood(c, Step(c, s, Read(i), delay), f, delay)
            <==> !exists k :: 0 <= k < |s.issuing| && s.issuing[k].family == f && s.now <= s.issuing[k].since + delay
  {
    var f := s.tokens[i].family;
    assert s.tokens[i] in s.tokens;
    assert Step(c, s, Read(i), delay) == Revoke(s, f);
    RevocationIsFinalExactly(c, s, f, delay);
    OverIsEnded(c, Revoke(s, f), f, delay);
  }

  lemma OverIsEnded(c: Config, s: State, f: nat, delay: nat)
    requires c.maxActive >= 1
    ensures OverForGood(c, s, f, delay) <==> EndedForGood(c, s, f, delay)
  {
    forall acts ensures Usable(Run(c, s, acts, delay), f) <==> Alive(Run(c, s, acts, delay), f) {
      UsableIsAlive(Run(c, s, acts, delay), f);
    }
  }

  /** Using the ticket: one winner marks the token rotated and goes on to issue, a loser just ends. */
  lemma TicketIsUsedOnce(c: Config, s: State, k: nat, delay: nat)
    requires c.maxActive >= 1 && k < |s.reading| && s.reading[k].token < |s.tokens|
    ensures var r, e := s.reading[k], Step(c, s, Consume(k), delay);
            var t := s.tokens[r.token];
            && e.reading == s.reading[..k] + s.reading[k + 1..] && e.now == s.now
            && (if !t.gone && t.rotatedAt.None?
                then e.tokens == s.tokens[r.token := t.(rotatedAt := Some(s.now))]
                     && e.issuing == s.issuing + [Issue(r.user, r.family, Some(r.started), r.readAt, Begun)]
                else e.tokens == s.tokens && e.issuing == s.issuing)
  {
  }

  /** The new row: the session's family and start, a full lifetime, ready to be used. */
  lemma InsertedToken(c: Config, s: State, k: nat, delay: nat)
    requires c.maxActive >= 1 && k < |s.issuing| && s.issuing[k].phase.Cleared? && s.now <= s.issuing[k].since + delay
    ensures var r, e := s.issuing[k], Step(c, s, CreateFor(k), delay);
            && e.issuing == s.issuing[..k] + s.issuing[k + 1..] && e.reading == s.reading
            && e.tokens == s.tokens + [Token(r.user, r.family, if r.started.Some? then r.started.value else s.now,
                                             s.now + c.lifetime, None, false)]
  {
  }

  /** Logging out deletes the session's rows; the nightly purge deletes what has expired. */
  lemma LogoutAndPurge(c: Config, s: State, i: nat, delay: nat)
    requires c.maxActive >= 1
    ensures var e := Step(c, s, Logout(i), delay);
            if i < |s.tokens| && !s.tokens[i].gone then OnlyTokens(s, e) && FamilyGone(s, e, s.tokens[i].family) else e == s
    ensures var e := Step(c, s, Purge, delay);
            && OnlyTokens(s, e) && |e.tokens| == |s.tokens|
            && forall j | 0 <= j < |s.tokens| ::
                 e.tokens[j] == if s.tokens[j].expires < s.now then s.tokens[j].(gone := true) else s.tokens[j]
  {
  }

  /** A user found gone or suspended loses every row, and the call ends. */
  lemma RefusalDropsUser(c: Config, s: State, k: nat, delay: nat)
    requires c.maxActive >= 1 && k < |s.issuing| && s.issuing[k].phase.Begun?
    ensures var e := Step(c, s, Refuse(k), delay);
            && e.issuing == s.issuing[..k] + s.issuing[k + 1..] && |e.tokens| == |s.tokens|
            && forall j | 0 <= j < |s.tokens| ::
                 e.tokens[j] == if s.tokens[j].user == s.issuing[k].user then s.tokens[j].(gone := true) else s.tokens[j]
  {
  }

  /**
   * Making room, statement by statement: the user's expired rows go; the active rows beyond the
   * newest but one below the cap are listed; exactly the listed ones go.
   */
  lemma RoomIsMade(c: Config, s: State, k: nat, delay: nat)
    requires c.maxActive >= 1 && k < |s.issuing|
    ensures var r, e := s.issuing[k], Step(c, s, Room(k), delay);
            && |e.tokens| == |s.tokens| && |e.issuing| == |s.issuing|
            && match r.phase
               case Begun =>
                 e.issuing[k].phase == Cleaned
                 && forall j | 0 <= j < |s.tokens| ::
                      e.tokens[j] == if s.tokens[j].expires < s.now && s.tokens[j].user == r.user then s.tokens[j].(gone := true) else s.tokens[j]
               case Cleaned => e.tokens == s.tokens && e.issuing[k].phase.Listed? && Surplus(s.tokens, r.user, c.maxActive, e.issuing[k].phase.doomed)
               case Listed(doomed, upTo) =>
                 e.issuing[k].phase == Cleared(upTo)
                 && forall j | 0 <= j < |s.tokens| :: e.tokens[j] == if j in doomed then s.tokens[j].(gone := true) else s.tokens[j]
               case Cleared(upTo) => e == s
  {
    if s.issuing[k].phase.Cleaned? {
      SurplusIsTooMany(s.tokens, s.issuing[k].user, c.maxActive);
    }
  }

  /** A usable row of the user. */
  predicate Holds(tokens: seq<Token>, user: nat, j: nat) {
    j < |tokens| && tokens[j].user == user && !tokens[j].gone && tokens[j].rotatedAt.None?
  }

  /** How many usable rows of the user come after row j. */
  function Newer(tokens: seq<Token>, user: nat, j: nat): nat {
    if |tokens| <= j + 1 then 0
    else
      var n := |tokens| - 1;
      Newer(tokens[..n], user, j) + if Holds(tokens, user, n) then 1 else 0
  }

  /** The usable rows that leave no room for one more: those with too many newer ones. */
  ghost predicate Surplus(tokens: seq<Token>, user: nat, maxActive: nat, doomed: seq<nat>) {
    forall j :: j in doomed <==> Holds(tokens, user, j) && Newer(tokens, user, j) + 1 >= maxActive
  }

  lemma {:induction false} TailOfActive(tokens: seq<Token>, user: nat, k: nat, j: nat)
    ensures var ids := ActiveIds(tokens, user);
            j in (if k <= |ids| then ids[k..] else []) <==> Holds(tokens, user, j) && Newer(tokens, user, j) >= k
  {
    if tokens != [] {
      var n := |tokens| - 1;
      var ids, older := ActiveIds(tokens, user), ActiveIds(tokens[..n], user);
      var mine := Holds(tokens, user, n);
      TailOfActive(tokens[..n], user, if mine && k > 0 then k - 1 else k, j);
      ActiveIdsBelow(tokens[..n], user);
      if mine {
        assert ids == [n] + older;
        assert k > 0 && k <= |ids| ==> ids[k..] == older[k - 1..];
      } else {
        assert ids == older;
      }
      if mine && k == 0 {
        assert ids[0..] == ids && older[0..] == older;
      }
    }
  }

  lemma SurplusIsTooMany(tokens: seq<Token>, user: nat, maxActive: nat)
    requires maxActive >= 1
    ensures Surplus(tokens, user, maxActive, TooMany(tokens, user, maxActive))
  {
    var ids := ActiveIds(tokens, user);
    forall j: nat
      ensures j in TooMany(tokens, user, maxActive) <==> Holds(tokens, user, j) && Newer(tokens, user, j) + 1 >= maxActive
    {
      TailOfActive(tokens, user, maxActive - 1, j);
      if |ids| == maxActive - 1 {
        assert ids[maxActive - 1..] == [];
      }
    }
  }
}
