// What each message to the session layer comes to, in plain terms.
module SessionAnswers {
  import opened Basics
  import opened Rooms
  import opened RoomIndex
  import opened Online
  import opened Game
  import opened GameProofs
  import opened GameAnswers
  import opened MatchSpec
  import opened Session
  import opened SessionProofs
  import opened SessionTheorems

  // ----- closing a connection -----

  // A handle that nobody is authenticated on changes nothing.  The last connection
  // of a player starts the grace of three seconds and nothing else; that of
  // anybody else makes the user leave at once: offline, out of the queue, and no
  // grace.
  lemma CloseAnswers(s: Sessions, h: Handle, now: Time)
    requires SessionInv(s)
    ensures
      var s' := OnClose(s, h, now);
      if h !in s.users then s' == s
      else
        var u := s.users[h];
        && s'.users == s.users - {h} && s'.conns == s.conns - {u}
        && if RoomOf(s.game.table, u).Some? then
             s'.pending == s.pending[u := now + 3] && s'.game == s.game && s'.queue == s.queue
           else
             && s'.pending == s.pending && s'.game == s.game.(online := s.game.online - {u})
             && s'.queue.reqs == s.queue.reqs - {u}
  {
    if h in s.users {
      var u := s.users[h];
      assert HandleOk(s, h);
      var s2 := s.(users := s.users - {h}, conns := s.conns - {u});
      if RoomOf(s.game.table, u).Some? {
        At(s.game, RoomOf(s.game.table, u).value);
      } else {
        DisconnectIs(s2, u);
        assert s2.conns - {u} == s2.conns;
        WithoutARoom(s.game, u, 0, 0, {});
      }
    }
  }

  // A handle that was replaced by a newer one only loses its user, whatever else
  // the maps say.
  lemma StaleCloseAnswers(s: Sessions, h: Handle, now: Time)
    requires h in s.users && s.users[h] in s.conns && s.conns[s.users[h]] != h
    ensures OnClose(s, h, now) == s.(users := s.users - {h})
  {
  }

  // ----- authentication -----

  // A player in grace who comes back through the hall is given up as absent: the
  // room is flagged, the timers swap, the opponent is told, and the player is
  // offered to reconnect.
  lemma HallAuthAnswers(s: Sessions, u: UserId, h: Handle, r: RoomId)
    requires SessionInv(s) && u > 0 && OneUserPerHandle(s, u, h) && u in s.pending
    requires RoomOf(s.game.table, u) == Some(r) && s.game.table.rooms[r].lost.None?
    ensures
      var m := s.game.table.rooms[r];
      var (s', replies) := Auth(s, u, h, true);
      && r in s'.game.table.rooms && s'.game.table.rooms[r] == m.(lost := Some(u))
      && r in s'.game.lostTimers && r !in s'.game.turnTimers && u !in s'.pending
      && s'.game.outbox == s.game.outbox + [Sent(m.Opponent(u), OpponentDisconnected)]
      && replies == [AuthSuccess(u), ReconnectAvailable(r)]
  {
    SetConnectionKeepsInv(s, u, h);
    var s1 := SetUserConnection(s, u, h);
    At(s1.game, r);
    LossAnswers(s1.game, u, r);
    assert RoomOf(Lose(s1.game, u).table, u) == Some(r);
  }

  // What an authentication does to the maps and the statuses, and what it offers,
  // when no grace is committed.
  predicate PlainlyAuthenticated(s: Sessions, s': Sessions, u: UserId, h: Handle, replies: seq<Reply>) {
    var at := RoomOf(s.game.table, u);
    && s'.game == s.game.(online := s'.game.online) && s'.pending == s.pending
    && h in s'.users && s'.users[h] == u && u in s'.conns && s'.conns[u] == h
    && s'.game.online == (if u in s.game.online then s.game.online else s.game.online[u := HallIdle])
    && replies ==
      if at.Some? && s.game.table.rooms[at.value].lost == Some(u) then [AuthSuccess(u), ReconnectAvailable(at.value)]
      else [AuthSuccess(u)]
  }

  // An invalid token changes nothing.  Otherwise authentication changes no room
  // and no timer, and says nothing to anybody else; the offer is made exactly to a
  // player who is flagged.
  lemma PlainAuthAnswers(s: Sessions, u: UserId, h: Handle, hall: bool)
    requires SessionInv(s) && OneUserPerHandle(s, u, h) && !(hall && u in s.pending && RoomOf(s.game.table, u).Some?)
    ensures
      var (s', replies) := Auth(s, u, h, hall);
      if u == 0 then s' == s && replies == [InvalidToken] else PlainlyAuthenticated(s, s', u, h, replies)
  {
    if RoomOf(s.game.table, u).Some? {
      At(s.game, RoomOf(s.game.table, u).value);
    }
    ConnectionSet(s, u, h);
  }

  lemma ConnectionSet(s: Sessions, u: UserId, h: Handle)
    ensures
      var s' := SetUserConnection(s, u, h);
      && s'.game == s.game.(online := s'.game.online) && s'.pending == s.pending
      && h in s'.users && s'.users[h] == u && u in s'.conns && s'.conns[u] == h
      && s'.game.online == (if u in s.game.online then s.game.online else s.game.online[u := HallIdle])
  {
  }

  // ----- exactly when a room gets flagged -----

  lemma LoseKeepsRoom(g: Game, v: UserId, r: RoomId)
    requires r in g.table.rooms
    ensures
      var g' := Lose(g, v);
      && r in g'.table.rooms
      && g'.table.rooms[r].black == g.table.rooms[r].black && g'.table.rooms[r].white == g.table.rooms[r].white
      && (g.table.rooms[r].lost.Some? ==> g'.table.rooms[r].lost == g.table.rooms[r].lost)
      && (g.table.rooms[r].lost.None? && RoomOf(g.table, v) == Some(r) ==> g'.table.rooms[r].lost == Some(v))
  {
  }

  // The same players, and a flag is not cleared.
  predicate StillThere(g: Game, g': Game, r: RoomId) {
    && r in g.table.rooms && r in g'.table.rooms
    && g'.table.rooms[r].black == g.table.rooms[r].black && g'.table.rooms[r].white == g.table.rooms[r].white
    && (g.table.rooms[r].lost.Some? ==> g'.table.rooms[r].lost.Some?)
  }

  // One user of a flush is handled.
  lemma FlushHead(s: Sessions, v: UserId, rest: seq<UserId>, r: RoomId)
    requires FlushInv(s, Members([v] + rest)) && v !in s.conns && r in s.game.table.rooms
    ensures
      var s1 := ExecuteDisconnect(s, v);
      && FlushInv(s1, Members(rest)) && s1.conns == s.conns && StillThere(s.game, s1.game, r)
      && (s.game.table.rooms[r].HasPlayer(v) ==> s1.game.table.rooms[r].lost.Some?)
  {
    var s1 := ExecuteDisconnect(s, v);
    assert Members([v] + rest) == Members(rest) + {v};
    DisconnectIs(s, v);
    LoseKeepsRoom(s.game, v, r);
    BijectionMeans(s.game.table, v, r);
    assert s.conns - {v} == s.conns;
    SameMapsSameInverse(s, s1);
  }

  lemma SkipHead(s: Sessions, v: UserId, rest: seq<UserId>)
    requires FlushInv(s, Members([v] + rest)) && v in s.conns
    ensures FlushInv(s, Members(rest))
  {
    assert Members([v] + rest) == Members(rest) + {v};
  }

  lemma {:induction false} FlushKeepsRoom(s: Sessions, order: seq<UserId>, r: RoomId)
    requires FlushInv(s, Members(order)) && r in s.game.table.rooms
    ensures StillThere(s.game, FlushUsers(s, order).game, r)
    decreases |order|
  {
    if order != [] {
      assert [order[0]] + order[1..] == order;
      if order[0] in s.conns {
        SkipHead(s, order[0], order[1..]);
        FlushKeepsRoom(s, order[1..], r);
      } else {
        FlushHead(s, order[0], order[1..], r);
        FlushKeepsRoom(ExecuteDisconnect(s, order[0]), order[1..], r);
      }
    }
  }

  // A flush that handles a player without a connection leaves the room flagged.
  lemma {:induction false} FlushFlagsRoom(s: Sessions, order: seq<UserId>, r: RoomId, u: UserId)
    requires FlushInv(s, Members(order)) && r in s.game.table.rooms
    requires u in order && s.game.table.rooms[r].HasPlayer(u) && u !in s.conns
    ensures Flagged(FlushUsers(s, order).game, r)
    decreases |order|
  {
    var v, rest := order[0], order[1..];
    assert [v] + rest == order;
    if v in s.conns {
      SkipHead(s, v, rest);
      FlushFlagsRoom(s, rest, r, u);
    } else {
      FlushHead(s, v, rest, r);
      if v == u {
        FlushKeepsRoom(ExecuteDisconnect(s, v), rest, r);
      } else {
        FlushFlagsRoom(ExecuteDisconnect(s, v), rest, r, u);
      }
    }
  }

  lemma FlushBegins(s: Sessions, now: Time, order: seq<UserId>)
    requires SessionInv(s) && Lists(order, Expired(s, now))
    ensures FlushInv(s.(pending := s.pending - Expired(s, now)), Members(order))
  {
    var s1 := s.(pending := s.pending - Expired(s, now));
    assert Members(order) == Expired(s, now);
    SameMapsSameInverse(s, s1);
    assert s1.pending.Keys + Members(order) == s.pending.Keys;
  }

  ghost predicate Flagged(g: Game, r: RoomId) {
    r in g.table.rooms && g.table.rooms[r].lost.Some?
  }

  ghost predicate SomePlayerAbsent(s: Sessions, e: SessionEvent, r: RoomId)
    requires r in s.game.table.rooms
  {
    exists u :: s.game.table.rooms[r].HasPlayer(u) && Absent(s, e, u)
  }

  // An unflagged room becomes flagged in a step if and only if one of its players
  // is absent: past the deadline without a connection when a flush comes, or back
  // through the hall within the grace.
  lemma FlaggedIff(s: Sessions, e: SessionEvent, r: RoomId)
    requires SessionInv(s) && MayStep(s, e) && r in s.game.table.rooms && s.game.table.rooms[r].lost.None?
    ensures BoardsOk(s.game)
    ensures Flagged(SessionStep(s, e).game, r) <==> SomePlayerAbsent(s, e, r)
  {
    SessionStepKeepsInv(s, e);
    if Flagged(SessionStep(s, e).game, r) {
      FlaggedOnlyIf(s, e, r);
    }
    if SomePlayerAbsent(s, e, r) {
      var u :| s.game.table.rooms[r].HasPlayer(u) && Absent(s, e, u);
      AbsentIsFlagged(s, e, r, u);
    }
  }

  lemma FlaggedOnlyIf(s: Sessions, e: SessionEvent, r: RoomId)
    requires SessionInv(s) && MayStep(s, e) && r in s.game.table.rooms && s.game.table.rooms[r].lost.None?
    requires BoardsOk(s.game) && SessionInv(SessionStep(s, e)) && Flagged(SessionStep(s, e).game, r)
    ensures SomePlayerAbsent(s, e, r)
  {
    var g' := SessionStep(s, e).game;
    var u := g'.table.rooms[r].lost.value;
    OnlyAbsenceFlags(s, e, r, u);
    assert Absent(s, e, u);
    AbsenceKeepsSeats(s, e, r, u);
    FlagIsPlayer(s.game, g', r);
  }

  lemma FlagIsPlayer(g: Game, g': Game, r: RoomId)
    requires GameInv(g') && StillThere(g, g', r) && Flagged(g', r)
    ensures g.table.rooms[r].HasPlayer(g'.table.rooms[r].lost.value)
  {
    At(g', r);
  }

  lemma AbsenceKeepsSeats(s: Sessions, e: SessionEvent, r: RoomId, u: UserId)
    requires SessionInv(s) && MayStep(s, e) && r in s.game.table.rooms && BoardsOk(s.game) && Absent(s, e, u)
    ensures StillThere(s.game, SessionStep(s, e).game, r)
  {
    match e {
      case SFlush(now, order) => FlushKeepsSeats(s, now, order, r);
      case SAuth(v, h, hall) => AuthKeepsSeats(s, v, h, hall, r);
    }
  }

  lemma FlushKeepsSeats(s: Sessions, now: Time, order: seq<UserId>, r: RoomId)
    requires SessionInv(s) && Lists(order, Expired(s, now)) && r in s.game.table.rooms
    ensures StillThere(s.game, Flush(s, now, order).game, r)
  {
    FlushBegins(s, now, order);
    FlushKeepsRoom(s.(pending := s.pending - Expired(s, now)), order, r);
  }

  lemma AuthKeepsSeats(s: Sessions, u: UserId, h: Handle, hall: bool, r: RoomId)
    requires r in s.game.table.rooms
    ensures StillThere(s.game, Auth(s, u, h, hall).0.game, r)
  {
    LoseKeepsRoom(SetUserConnection(s, u, h).game, u, r);
  }

  lemma AbsentIsFlagged(s: Sessions, e: SessionEvent, r: RoomId, u: UserId)
    requires SessionInv(s) && MayStep(s, e) && r in s.game.table.rooms && s.game.table.rooms[r].lost.None?
    requires BoardsOk(s.game) && s.game.table.rooms[r].HasPlayer(u) && Absent(s, e, u)
    ensures Flagged(SessionStep(s, e).game, r)
  {
    At(s.game, r);
    BijectionMeans(s.game.table, u, r);
    if e.SFlush? {
      FlushBegins(s, e.now, e.order);
      assert u in Expired(s, e.now);
      FlushFlagsRoom(s.(pending := s.pending - Expired(s, e.now)), e.order, r, u);
    } else {
      HallAuthAnswers(s, u, e.h, r);
    }
  }

  // ----- asking for a match -----

  // Without a user, neither known nor by the token, the message is refused; a user
  // who is not idle is turned away, and so is one who has an entry already; anybody
  // else waits from then on, in the tier of the score.
  lemma MatchStartAnswers(s: Sessions, token: UserId, h: Handle, score: int, now: Millis)
    requires SessionInv(s)
    ensures
      var (s', replies) := MatchStart(s, token, h, score, now);
      var u := if UserOf(s, h) > 0 then UserOf(s, h) else token;
      var idle := u !in s.game.online || s.game.online[u] == HallIdle;
      var waiting := u in s.queue.reqs;
      && (u == 0 ==> s' == s && replies == [InvalidToken])
      && (u > 0 && !idle ==> s' == (if UserOf(s, h) > 0 then s else SetUserConnection(s, u, h)) && replies == [NotInHall])
      && (u > 0 && idle && waiting ==> s'.queue.reqs == s.queue.reqs && replies == [EnqueueFailed])
      && (u > 0 && idle && !waiting ==>
        && replies == [MatchWaiting] && u in s'.queue.reqs && InBand(score, s'.queue.reqs[u].tier)
        && StatusOf(s'.game.online, u) == Matching)
  {
    assert h in s.users ==> HandleOk(s, h);
  }

  // A cancel is confirmed exactly to a user who was waiting, who then is idle; a
  // user who was not waiting is told so.
  lemma MatchCancelAnswers(s: Sessions, h: Handle)
    requires SessionInv(s)
    ensures
      var (s', replies) := MatchCancel(s, h);
      var u := UserOf(s, h);
      if u == 0 then s' == s && replies == [Unauthenticated]
      else if u in s.queue.reqs then
        replies == [MatchCancelled] && s'.queue.reqs == s.queue.reqs - {u} && StatusOf(s'.game.online, u) == HallIdle
      else s' == s && replies == [CancelFailed]
  {
  }

  // ----- game.reconnect -----

  // Only the user of the handle is let through, and a token, if there is one, must
  // be that user's; who is let through is no longer in grace and gets the snapshot,
  // or is told that there is no room.
  lemma ReturnAnswers(s: Sessions, h: Handle, token: Option<UserId>)
    requires SessionInv(s)
    ensures BoardsOk(s.game)
    ensures
      var (s', replies) := ReturnFrom(s, h, token);
      var u := UserOf(s, h);
      && (u == 0 ==> s' == s && replies == [Unauthenticated])
      && (u > 0 && token.Some? && token.value != u ==> s' == s && replies == [InvalidToken])
      && (u > 0 && (token.Some? ==> token.value == u) ==>
        && replies == [] && s'.pending == s.pending - {u} && s'.conns == s.conns && s'.users == s.users
        && |s'.game.outbox| > 0 && s'.game.outbox[|s'.game.outbox| - 1].to == u
        && var msg := s'.game.outbox[|s'.game.outbox| - 1].msg;
        && if RoomOf(s.game.table, u).None? then msg == Error(4004)
           else msg.GameReconnect? && msg.room == RoomOf(s.game.table, u).value)
  {
    InvGivesBoards(s.game);
    if RoomOf(s.game.table, UserOf(s, h)).Some? {
      At(s.game, RoomOf(s.game.table, UserOf(s, h)).value);
    }
  }
}
