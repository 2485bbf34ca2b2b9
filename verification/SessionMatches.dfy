// Sessions, games and the queue together: somebody who still has a game can be
// matched again, and then the partner is left in a room that does not exist.
module SessionMatches {
  import opened Basics
  import opened Rooms
  import opened RoomIndex
  import opened Online
  import opened Game
  import opened GameProofs
  import opened GameReturns
  import opened MatchSpec
  import opened Session
  import opened SessionProofs
  import opened SessionTheorems

  // ----- what becomes of a matched pair -----

  // A match seats both or nobody: both if neither has a game, and otherwise nothing
  // changes at all, and a partner without a game, whom the match has marked as
  // being in a room, is turned away by every later match.start.
  lemma MatchSeatsBothIff(s: Sessions, u: UserId, v: UserId, id: RoomId)
    requires SessionInv(s) && Allowed(s.game, EStart(u, v, id))
    requires StatusOf(s.game.online, u) == InRoom && StatusOf(s.game.online, v) == InRoom
    ensures
      var s' := WithGame(s, Start(s.game, u, v, id).0);
      if RoomOf(s.game.table, u).None? && RoomOf(s.game.table, v).None? then
        RoomOf(s'.game.table, u) == Some(id) && RoomOf(s'.game.table, v) == Some(id)
      else s' == s
  {
    StartRefusedIff(s.game, u, v, id);
    if Start(s.game, u, v, id).1 != "" {
      StartSeatsBoth(s.game, u, v, id);
    }
  }

  lemma TurnedAway(s: Sessions, v: UserId, h: Handle, token: UserId, score: int, now: Millis)
    requires SessionInv(s) && h in s.users && s.users[h] == v && StatusOf(s.game.online, v) == InRoom
    ensures MatchStart(s, token, h, score, now) == (s, [NotInHall])
  {
    assert HandleOk(s, h);
  }

  // ----- runs -----

  ghost predicate ComesTo(s: Sessions, t: Sessions) {
    SessionInv(s) && exists es :: SessionRunOk(s, es) && SessionRun(s, es) == t
  }

  lemma Now(s: Sessions)
    requires SessionInv(s)
    ensures ComesTo(s, s)
  {
    assert SessionRunOk(s, []) && SessionRun(s, []) == s;
  }

  lemma OneEarlier(s: Sessions, e: SessionEvent, es: seq<SessionEvent>)
    requires SessionInv(s) && MayStep(s, e) && BoardsOk(s.game) && SessionInv(SessionStep(s, e))
    requires SessionRunOk(SessionStep(s, e), es)
    ensures SessionRunOk(s, [e] + es) && SessionRun(s, [e] + es) == SessionRun(SessionStep(s, e), es)
  {
    assert ([e] + es)[0] == e && ([e] + es)[1..] == es;
  }

  lemma Earlier(s: Sessions, e: SessionEvent, t: Sessions)
    requires SessionInv(s) && MayStep(s, e)
    requires BoardsOk(s.game) && ComesTo(SessionStep(s, e), t)
    ensures ComesTo(s, t)
  {
    var s1 := SessionStep(s, e);
    var es :| SessionRunOk(s1, es) && SessionRun(s1, es) == t;
    OneEarlier(s, e, es);
  }

  // ----- the scene -----

  // u plays on handle h; v is idle in the hall on handle k; nobody is queued.
  ghost predicate Scene(s: Sessions, u: UserId, h: Handle, v: UserId, k: Handle) {
    && SessionInv(s) && u != v
    && h in s.users && s.users[h] == u && k in s.users && s.users[k] == v
    && RoomOf(s.game.table, u).Some? && RoomOf(s.game.table, v).None?
    && StatusOf(s.game.online, v) == HallIdle
    && s.pending == map[] && s.queue.reqs == map[]
    && s.queue.incoming == [[], [], []] && s.queue.pending == [[], [], []]
  }

  // u closes the page ...
  lemma Closes(s: Sessions, u: UserId, h: Handle, v: UserId, k: Handle, now: Time)
    requires Scene(s, u, h, v, k)
    ensures u > 0 && v > 0 && h != k
    ensures OnClose(s, h, now) == s.(users := s.users - {h}, conns := s.conns - {u}, pending := map[u := now + GRACE])
    ensures SessionInv(OnClose(s, h, now))
  {
    assert HandleOk(s, h) && HandleOk(s, k);
    At(s.game, RoomOf(s.game.table, u).value);
    CloseKeepsInv(s, h, now);
  }

  // ... and stays away beyond the grace period: the same people, with u no longer
  // connected, offline and flagged.
  ghost predicate Gone(s: Sessions, s': Sessions, u: UserId, h: Handle) {
    && SessionInv(s')
    && s'.users == s.users - {h} && s'.conns == s.conns - {u} && s'.pending == map[]
    && s'.game == Lose(s.game, u).(online := s.game.online - {u})
    && s'.queue.reqs == map[] && s'.queue.incoming == [[], [], []] && s'.queue.pending == [[], [], []]
    && s'.queue.results == s.queue.results
  }

  lemma Flushes(s: Sessions, u: UserId, h: Handle, v: UserId, k: Handle, now: Time)
    requires Scene(s, u, h, v, k)
    ensures MayStep(OnClose(s, h, now), SFlush(now + GRACE, [u]))
    ensures Gone(s, Flush(OnClose(s, h, now), now + GRACE, [u]), u, h)
  {
    Closes(s, u, h, v, k, now);
    var s1 := OnClose(s, h, now);
    var s2 := s1.(pending := map[]);
    assert Expired(s1, now + GRACE) == {u};
    assert s1.pending - {u} == map[];
    FlushStepKeepsInv(s1, now + GRACE, [u]);
    DisconnectIs(s2, u);
    assert FlushUsers(s2, [u]) == FlushUsers(ExecuteDisconnect(s2, u), [u][1..]);
    assert s1.conns - {u} == s1.conns;
  }

  // u comes back through the hall and is idle there, the game still on.
  ghost predicate IdleWithGame(s: Sessions, u: UserId, h: Handle, v: UserId, k: Handle) {
    SessionInv(s) && BothIdle(s, u, h, v, k)
  }

  predicate BothIdle(s: Sessions, u: UserId, h: Handle, v: UserId, k: Handle) {
    && u != v && u > 0 && v > 0
    && h in s.users && s.users[h] == u && k in s.users && s.users[k] == v
    && RoomOf(s.game.table, u).Some? && RoomOf(s.game.table, v).None?
    && StatusOf(s.game.online, u) == HallIdle && StatusOf(s.game.online, v) == HallIdle
    && s.queue.reqs == map[] && s.queue.incoming == [[], [], []] && s.queue.pending == [[], [], []]
  }

  lemma LoseKeepsSeats(g: Game, u: UserId, v: UserId)
    ensures RoomOf(Lose(g, u).table, v) == RoomOf(g.table, v)
  {
  }

  lemma AuthOutOfGrace(s: Sessions, u: UserId, h: Handle, hall: bool)
    requires u > 0 && u !in s.pending
    ensures Auth(s, u, h, hall).0 == SetUserConnection(s, u, h)
  {
  }

  lemma ReturnsToHall(s: Sessions, s1: Sessions, u: UserId, h: Handle, v: UserId, k: Handle, h2: Handle)
    requires Scene(s, u, h, v, k) && Gone(s, s1, u, h) && h2 !in s.users && h != k && u > 0 && v > 0
    ensures MayStep(s1, SAuth(u, h2, true)) && IdleWithGame(Auth(s1, u, h2, true).0, u, h2, v, k)
  {
    AuthKeepsInv(s1, u, h2, true);
    AuthOutOfGrace(s1, u, h2, true);
    LoseKeepsSeats(s.game, u, u);
    LoseKeepsSeats(s.game, u, v);
    IdleAgain(s1, u, v, k, h2);
  }

  lemma IdleAgain(s: Sessions, u: UserId, v: UserId, k: Handle, h: Handle)
    requires u != v && u > 0 && v > 0 && h != k && k in s.users && s.users[k] == v
    requires RoomOf(s.game.table, u).Some? && RoomOf(s.game.table, v).None?
    requires u !in s.game.online && StatusOf(s.game.online, v) == HallIdle
    requires s.queue.reqs == map[] && s.queue.incoming == [[], [], []] && s.queue.pending == [[], [], []]
    ensures BothIdle(SetUserConnection(s, u, h), u, h, v, k)
  {
  }

  // ----- the match -----

  lemma Enqueues(s: Sessions, u: UserId, h: Handle, score: int, now: Millis)
    requires SessionInv(s) && h in s.users && s.users[h] == u && u > 0
    requires StatusOf(s.game.online, u) == HallIdle && u !in s.queue.reqs
    ensures
      var r := Req(u, score, now, s.queue.lastReq + 1, false);
      MatchStart(s, 0, h, score, now) == (WithQueue(s, Issue(s.queue, r)), [MatchWaiting])
    ensures SessionInv(MatchStart(s, 0, h, score, now).0)
  {
    MatchStartKeepsInv(s, 0, h, score, now);
  }

  // Two live requests of the lowest tier meet in one body of the loop.
  lemma TwoMeet(m: MState, a: Req, b: Req, now: Millis)
    requires m.incoming == [[a, b], [], []] && m.pending == [[], [], []]
    requires IsLive(m, a) && IsLive(m, b)
    ensures LoopBody(m, now, now) == Finalize(m.(incoming := [[], [], []]), a, b)
  {
    var m1 := Drain(m);
    var m2 := m1.(pending := [[], [], []]);
    var none: seq<Req> := [];
    assert none + [a, b] == [a, b] && none + none == none;
    assert m1.pending == [[a, b], [], []];
    TwoArePaired(m1, a, b);
    assert m1.pending[0 := []] == m2.pending;
    var f := Finalize(m2, a, b);
    NothingPending(f, now);
  }

  lemma TwoArePaired(m: MState, a: Req, b: Req)
    requires m.pending[0] == [a, b] && IsLive(m, a) && IsLive(m, b)
    ensures SameTier(m, 0) == Finalize(m.(pending := m.pending[0 := []]), a, b)
  {
    var q := [a, b];
    assert q[1..] == [b] && q[1..][1..] == [];
    assert Live(m, q[1..]) == [b] + Live(m, []);
    assert Live(m, q) == [a] + Live(m, q[1..]);
    assert Live(m, q) == [a, b];
    assert Leftover(q) == [] && q[2..] == [];
    var f := Finalize(m.(pending := m.pending[0 := []]), a, b);
    assert PairUp(f, q[2..]) == f;
  }

  lemma NothingPending(m: MState, now: Millis)
    requires m.pending == [[], [], []]
    ensures SameTier(m, 1) == m && SameTier(m, 2) == m && CrossTier(m, 0, now) == m && CrossTier(m, 1, now) == m
  {
    assert m.pending[1 := []] == m.pending && m.pending[2 := []] == m.pending;
    assert m.pending[0 := []][1 := []] == m.pending && m.pending[1 := []][2 := []] == m.pending;
  }

  // Both queue up and are matched; the one has a game and the other has none.
  ghost predicate Mismatched(s: Sessions, u: UserId, v: UserId, k: Handle) {
    && SessionInv(s) && k in s.users && s.users[k] == v
    && |s.queue.results| > 0
    && s.queue.results[|s.queue.results| - 1].p1.user == u && s.queue.results[|s.queue.results| - 1].p2.user == v
    && RoomOf(s.game.table, u).Some? && RoomOf(s.game.table, v).None?
    && StatusOf(s.game.online, u) == InRoom && StatusOf(s.game.online, v) == InRoom
  }

  lemma GetMatched(s: Sessions, u: UserId, h: Handle, v: UserId, k: Handle, now: Millis) returns (t: Sessions)
    requires IdleWithGame(s, u, h, v, k)
    ensures ComesTo(s, t) && Mismatched(t, u, v, k)
  {
    var a := Req(u, 1000, now, s.queue.lastReq + 1, false);
    Enqueues(s, u, h, 1000, now);
    var s1 := MatchStart(s, 0, h, 1000, now).0;
    assert [] + [a] == [a];
    assert s1.queue.incoming == [[a], [], []];
    t := GetSecondMatched(s1, a, h, v, k, now);
    InvGivesBoards(s.game);
    Earlier(s, SMatchStart(0, h, 1000, now), t);
  }

  lemma GetSecondMatched(s: Sessions, a: Req, h: Handle, v: UserId, k: Handle, now: Millis) returns (t: Sessions)
    requires SessionInv(s) && k in s.users && s.users[k] == v && v > 0 && a.user != v
    requires RoomOf(s.game.table, a.user).Some? && RoomOf(s.game.table, v).None?
    requires StatusOf(s.game.online, v) == HallIdle && v !in s.queue.reqs && IsLive(s.queue, a) && TierOf(a.score) == 0
    requires s.queue.incoming == [[a], [], []] && s.queue.pending == [[], [], []]
    ensures ComesTo(s, t) && Mismatched(t, a.user, v, k)
  {
    var b := Req(v, 1000, now, s.queue.lastReq + 1, false);
    Enqueues(s, v, k, 1000, now);
    var s2 := MatchStart(s, 0, k, 1000, now).0;
    assert [a] + [b] == [a, b];
    assert s2.queue.incoming == [[a, b], [], []];
    t := TwoGetMatched(s2, a, b, v, k, now);
    InvGivesBoards(s.game);
    Earlier(s, SMatchStart(0, k, 1000, now), t);
  }

  lemma TwoGetMatched(s: Sessions, a: Req, b: Req, v: UserId, k: Handle, now: Millis) returns (t: Sessions)
    requires SessionInv(s) && k in s.users && s.users[k] == v && b.user == v
    requires RoomOf(s.game.table, a.user).Some? && RoomOf(s.game.table, v).None?
    requires a.user in s.game.online && v in s.game.online && IsLive(s.queue, a) && IsLive(s.queue, b)
    requires s.queue.incoming == [[a, b], [], []] && s.queue.pending == [[], [], []]
    ensures ComesTo(s, t) && Mismatched(t, a.user, v, k)
  {
    TwoMeet(s.queue, a, b, now);
    t := MatchedNow(s, a.user, a, v, b, k, now);
    InvGivesBoards(s.game);
    Now(t);
    Earlier(s, SLoop(now, now), t);
  }

  lemma MatchedNow(s: Sessions, u: UserId, a: Req, v: UserId, b: Req, k: Handle, now: Millis) returns (t: Sessions)
    requires SessionInv(s) && a.user == u && b.user == v && k in s.users && s.users[k] == v
    requires RoomOf(s.game.table, u).Some? && RoomOf(s.game.table, v).None?
    requires u in s.game.online && v in s.game.online
    requires LoopBody(s.queue, now, now) == Finalize(s.queue.(incoming := [[], [], []]), a, b)
    ensures t == WithQueue(s, LoopBody(s.queue, now, now)) && Mismatched(t, u, v, k)
  {
    t := WithQueue(s, LoopBody(s.queue, now, now));
    LoopKeepsOnline(s.queue, now, now);
    QueueStepKeepsInv(s, LoopBody(s.queue, now, now));
  }

  // ----- the run -----

  // From any state with a player, an idle user and nobody queued, by six events -
  // the player's page closes, the grace ends, the player returns to the hall, both
  // ask for a match, the match loop turns - one comes to a state in which the two
  // are matched, no game starts, and the idle user is in no room but marked as
  // being in one, and turned away whenever it asks for a match again.
  lemma PartnerLeftBehind(s: Sessions, u: UserId, h: Handle, v: UserId, k: Handle, h2: Handle, now: Time, at: Millis)
    returns (t: Sessions)
    requires Scene(s, u, h, v, k) && h2 !in s.users
    ensures ComesTo(s, t) && Mismatched(t, u, v, k)
    ensures forall id :: Allowed(t.game, EStart(u, v, id)) ==> WithGame(t, Start(t.game, u, v, id).0) == t
    ensures forall score, later :: MatchStart(t, 0, k, score, later) == (t, [NotInHall])
  {
    Closes(s, u, h, v, k, now);
    var s1 := OnClose(s, h, now);
    Flushes(s, u, h, v, k, now);
    var s2 := Flush(s1, now + GRACE, [u]);
    ReturnsToHall(s, s2, u, h, v, k, h2);
    var s3 := Auth(s2, u, h2, true).0;
    t := GetMatched(s3, u, h2, v, k, at);
    InvGivesBoards(s.game);
    InvGivesBoards(s1.game);
    InvGivesBoards(s2.game);
    Earlier(s2, SAuth(u, h2, true), t);
    Earlier(s1, SFlush(now + GRACE, [u]), t);
    Earlier(s, SClose(h, now), t);
    forall id | Allowed(t.game, EStart(u, v, id))
      ensures WithGame(t, Start(t.game, u, v, id).0) == t
    {
      MatchSeatsBothIff(t, u, v, id);
    }
    forall score, later
      ensures MatchStart(t, 0, k, score, later) == (t, [NotInHall])
    {
      TurnedAway(t, v, k, 0, score, later);
    }
  }
}
