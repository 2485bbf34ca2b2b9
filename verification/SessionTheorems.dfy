// The main results about sessions: no ghost users, and page changes that the
// game does not notice.
module SessionTheorems {
  import opened Basics
  import opened Rooms
  import opened RoomIndex
  import opened ScoreTable
  import opened Game
  import opened MatchSpec
  import opened GameProofs
  import opened Session
  import opened SessionProofs

  // ----- runs -----

  ghost predicate SessionRunOk(s: Sessions, es: seq<SessionEvent>)
    requires SessionInv(s)
    decreases |es|
  {
    es == [] ||
    (MayStep(s, es[0]) && (SessionStepKeepsInv(s, es[0]); SessionRunOk(SessionStep(s, es[0]), es[1..])))
  }

  ghost function SessionRun(s: Sessions, es: seq<SessionEvent>): (s': Sessions)
    requires SessionInv(s) && SessionRunOk(s, es)
    ensures SessionInv(s')
    decreases |es|
  {
    if es == [] then s else
    SessionStepKeepsInv(s, es[0]);
    SessionRun(SessionStep(s, es[0]), es[1..])
  }

  // ----- no ghost users -----

  // A flush leaves each user whose deadline has passed either connected or
  // offline, and nobody who is offline waits for a match; once all deadlines have
  // passed, exactly the connected users are online.
  ghost predicate NoGhostsAfter(s: Sessions, s': Sessions, now: Time) {
    && (forall u :: u in s.pending && s.pending[u] <= now ==>
      (u in s'.conns <==> u in s'.game.online) && u !in s'.pending)
    && (forall u :: u in s'.queue.reqs ==> u in s'.game.online)
    && ((forall u :: u in s.pending ==> s.pending[u] <= now) ==> s'.conns.Keys == s'.game.online.Keys)
    && (forall h, u :: (h in s'.users && s'.users[h] == u) <==> (u in s'.conns && s'.conns[u] == h))
  }

  lemma FlushLeavesNoGhosts(s: Sessions, now: Time, order: seq<UserId>)
    requires SessionInv(s) && Lists(order, Expired(s, now))
    ensures NoGhostsAfter(s, Flush(s, now, order), now)
  {
    FlushStepKeepsInv(s, now, order);
    NoGhostsFromShape(s, Flush(s, now, order), now);
  }

  lemma NoGhostsFromShape(s: Sessions, s': Sessions, now: Time)
    requires Inverse(s') && Covered(s') && QueueFits(s') && s'.conns == s.conns
    requires s'.pending == s.pending - Expired(s, now)
    requires forall u :: u in s.pending && s.pending[u] <= now ==> u in s.conns || u !in s'.game.online
    ensures NoGhostsAfter(s, s', now)
  {
    if forall u :: u in s.pending ==> s.pending[u] <= now {
      assert s'.pending.Keys == {};
    }
    forall h, u
      ensures (h in s'.users && s'.users[h] == u) <==> (u in s'.conns && s'.conns[u] == h)
    {
      InverseMeans(s', h, u);
    }
  }

  // So there are no ghosts in any reachable state.
  lemma NoGhosts(s0: Sessions, es: seq<SessionEvent>, now: Time, order: seq<UserId>)
    requires SessionInv(s0) && SessionRunOk(s0, es)
    requires Lists(order, Expired(SessionRun(s0, es), now))
    ensures NoGhostsAfter(SessionRun(s0, es), Flush(SessionRun(s0, es), now, order), now)
  {
    FlushLeavesNoGhosts(SessionRun(s0, es), now, order);
  }

  // ----- who gets flagged -----

  predicate FlaggedFor(g: Game, r: RoomId, u: UserId) {
    r in g.table.rooms && g.table.rooms[r].lost == Some(u)
  }

  // The room and its flag.
  lemma LoseFlags(g: Game, v: UserId, r: RoomId, u: UserId)
    requires !FlaggedFor(g, r, u)
    ensures FlaggedFor(Lose(g, v), r, u) ==> v == u
  {
  }

  lemma EndNeverFlags(g: Game, id: RoomId, res: GameResult, w: UserId, l: UserId, fails: set<DbStep>, r: RoomId, u: UserId)
    requires !FlaggedFor(g, r, u)
    ensures !FlaggedFor(EndGame(g, id, res, w, l, fails), r, u)
  {
  }

  lemma AfterMoveNeverFlags(g: Game, id: RoomId, v: UserId, row: int, col: int, m: Room, res: GameResult, fails: set<DbStep>, r: RoomId, u: UserId)
    requires id in g.table.rooms && m.lost == g.table.rooms[id].lost && !FlaggedFor(g, r, u)
    ensures !FlaggedFor(AfterMove(g, id, v, row, col, m, res, fails), r, u)
  {
    var g1 := Change(g, id, m);
    var g2 := Broadcast(g1, id, GameMove(row, col, ShownColor(m, v), None));
    EndNeverFlags(g2, id, res, m.black, m.white, fails, r, u);
    EndNeverFlags(g2, id, res, m.white, m.black, fails, r, u);
    EndNeverFlags(g1, id, res, 0, 0, fails, r, u);
  }

  // Nothing that happens in the games themselves flags anybody.
  lemma PlainNeverFlags(g: Game, e: GameEvent, r: RoomId, u: UserId)
    requires BoardsOk(g) && Plain(e) && !FlaggedFor(g, r, u)
    ensures !FlaggedFor(GameStep(g, e), r, u)
  {
    match e {
      case EStart(p1, p2, id) =>
      case EMove(v, row, col, fails) =>
        if RoomOf(g.table, v).Some? {
          var id := RoomOf(g.table, v).value;
          var (m, res) := PlacePiece(g.table.rooms[id], v, row, col);
          AfterMoveNeverFlags(g, id, v, row, col, m, res, fails, r, u);
        }
      case ESurrender(v, fails) =>
        if RoomOf(g.table, v).Some? {
          var id := RoomOf(g.table, v).value;
          var m := Resign(g.table.rooms[id], v).0;
          EndNeverFlags(Change(g, id, m), id, GaveUp, m.Opponent(v), v, fails, r, u);
        }
      case EAccept(v) =>
      case EReject(v, fails) =>
        if RoomOf(g.table, v).Some? {
          var id := RoomOf(g.table, v).value;
          var m := g.table.rooms[id];
          EndNeverFlags(Change(g, id, m.(lost := None)).(lostTimers := g.lostTimers - {id}), id, GaveUp, m.Opponent(v), v, fails, r, u);
        }
      case ETurnFires(id, fails) => FiringNeverFlags(g, id, fails, r, u);
      case ELostFires(id, fails) => FiringNeverFlags(g, id, fails, r, u);
    }
  }

  lemma FiringNeverFlags(g: Game, id: RoomId, fails: set<DbStep>, r: RoomId, u: UserId)
    requires !FlaggedFor(g, r, u)
    ensures !FlaggedFor(TurnFires(g, id, fails), r, u)
    ensures !FlaggedFor(LostFires(g, id, fails), r, u)
  {
    if id in g.table.rooms {
      var m := g.table.rooms[id];
      EndNeverFlags(g.(turnTimers := g.turnTimers - {id}), id, Timeout, m.Opponent(m.CurrentTurn()), m.CurrentTurn(), fails, r, u);
      if m.lost.Some? {
        var g1 := Change(g.(lostTimers := g.lostTimers - {id}), id, m.(lost := None));
        EndNeverFlags(g1, id, Timeout, m.Opponent(m.lost.value), m.lost.value, fails, r, u);
      }
    }
  }

  lemma {:induction false} FlushFlags(s: Sessions, order: seq<UserId>, r: RoomId, u: UserId)
    requires FlushInv(s, Members(order)) && !FlaggedFor(s.game, r, u)
    ensures FlaggedFor(FlushUsers(s, order).game, r, u) ==> u in order && u !in s.conns
    decreases |order|
  {
    if order != [] {
      var v, rest := order[0], order[1..];
      assert Members(order) == Members(rest) + {v};
      if v in s.conns {
        FlushFlags(s, rest, r, u);
      } else {
        DisconnectIs(s, v);
        LoseFlags(s.game, v, r, u);
        var s1 := ExecuteDisconnect(s, v);
        assert s.conns - {v} == s.conns;
        SameMapsSameInverse(s, s1);
        if v != u {
          FlushFlags(s1, rest, r, u);
        }
      }
    }
  }

  // A room gets flagged for a user only when the grace of that user is over and
  // there is no connection, or when the user came back through the hall.
  ghost predicate Absent(s: Sessions, e: SessionEvent, u: UserId) {
    || (e.SFlush? && u in s.pending && s.pending[u] <= e.now && u !in s.conns)
    || (e.SAuth? && e.user == u && e.hall && u in s.pending)
  }

  lemma OnlyAbsenceFlags(s: Sessions, e: SessionEvent, r: RoomId, u: UserId)
    requires SessionInv(s) && MayStep(s, e) && !FlaggedFor(s.game, r, u)
    ensures BoardsOk(s.game)
    ensures FlaggedFor(SessionStep(s, e).game, r, u) ==> Absent(s, e, u)
  {
    InvGivesBoards(s.game);
    match e {
      case SClose(h, now) => CloseNeverFlags(s, h, now, r, u);
      case SAuth(v, h, hall) => AuthFlags(s, v, h, hall, r, u);
      case SMatchStart(v, h, score, at) => QueueNeverFlags(s, v, h, score, at, r, u);
      case SMatchCancel(h) =>
      case SReturn(h, token) => ReturnNeverFlags(s, h, token, r, u);
      case SFlush(now, order) => FlushStepFlags(s, now, order, r, u);
      case SPlay(e) => PlainNeverFlags(s.game, e, r, u);
      case SLoop(_, _) =>
      case SStatus(online) =>
    }
  }

  lemma ReturnNeverFlags(s: Sessions, h: Handle, token: Option<UserId>, r: RoomId, u: UserId)
    requires BoardsOk(s.game) && !FlaggedFor(s.game, r, u)
    ensures !FlaggedFor(ReturnFrom(s, h, token).0.game, r, u)
  {
  }

  lemma QueueNeverFlags(s: Sessions, v: UserId, h: Handle, score: int, now: Millis, r: RoomId, u: UserId)
    requires !FlaggedFor(s.game, r, u)
    ensures !FlaggedFor(MatchStart(s, v, h, score, now).0.game, r, u)
  {
  }

  lemma AuthFlags(s: Sessions, v: UserId, h: Handle, hall: bool, r: RoomId, u: UserId)
    requires !FlaggedFor(s.game, r, u)
    ensures FlaggedFor(Auth(s, v, h, hall).0.game, r, u) ==> v == u && hall && u in s.pending
  {
    LoseFlags(SetUserConnection(s, v, h).game, v, r, u);
  }

  lemma FlushStepFlags(s: Sessions, now: Time, order: seq<UserId>, r: RoomId, u: UserId)
    requires SessionInv(s) && Lists(order, Expired(s, now)) && !FlaggedFor(s.game, r, u)
    ensures FlaggedFor(Flush(s, now, order).game, r, u) ==> u in Expired(s, now) && u !in s.conns
  {
    var s1 := s.(pending := s.pending - Expired(s, now));
    assert Members(order) == Expired(s, now);
    SameMapsSameInverse(s, s1);
    assert s1.pending.Keys + Members(order) == s.pending.Keys;
    FlushFlags(s1, order, r, u);
  }

  lemma CloseNeverFlags(s: Sessions, h: Handle, now: Time, r: RoomId, u: UserId)
    requires SessionInv(s) && !FlaggedFor(s.game, r, u)
    ensures !FlaggedFor(OnClose(s, h, now).game, r, u)
  {
    if h in s.users && RoomOf(s.game.table, s.users[h]).Some? {
      At(s.game, RoomOf(s.game.table, s.users[h]).value);
    }
  }

  // ----- changing the page -----

  // Closing the old page and opening the room page again - close, auth from the
  // room, game.reconnect - leaves rooms, flags, timers and statuses as they
  // were; the only trace is the snapshot sent to the user.
  lemma PageChangeIsInvisible(s: Sessions, u: UserId, r: RoomId, h: Handle, now: Time, h2: Handle)
    requires SessionInv(s) && h in s.users && s.users[h] == u && RoomOf(s.game.table, u) == Some(r)
    requires !FlaggedFor(s.game, r, u) && (h2 in s.users ==> h2 == h)
    ensures BoardsOk(s.game)
    ensures
      var s1 := OnClose(s, h, now);
      var s2 := Auth(s1, u, h2, false).0;
      && BoardsOk(s2.game)
      && var s3 := Return(s2, u);
      && s3.game == Send(s.game, u, Snapshot(s.game.table.rooms[r], r, u))
      && s1.pending == s.pending[u := now + GRACE] && u !in s3.pending
      && s3.conns == s.conns[u := h2] && s3.queue == s.queue
  {
    At(s.game, r);
    InverseMeans(s, h, u);
    RemovalKeepsInverse(s, h);
    var s1 := OnClose(s, h, now);
    assert s1.game == s.game;
    assert s.game.online.Keys >= s.conns.Keys;
    var s2 := Auth(s1, u, h2, false).0;
    assert s2.game == s.game;
  }

  // An event of the time before the deadline that does not bring u through the
  // hall: connections close no earlier than `from`, flushes come before `until`.
  predicate Patient(e: SessionEvent, u: UserId, from: Time, until: Time) {
    match e
    case SClose(_, now) => from <= now
    case SFlush(now, _) => now < until
    case SAuth(v, _, hall) => !(v == u && hall)
    case _ => true
  }

  predicate NotDueBefore(s: Sessions, u: UserId, until: Time) {
    u in s.pending ==> until <= s.pending[u]
  }

  lemma {:induction false} FlushSpares(s: Sessions, order: seq<UserId>)
    ensures FlushUsers(s, order).pending == s.pending
    decreases |order|
  {
    if order != [] {
      FlushSpares(if order[0] in s.conns then s else ExecuteDisconnect(s, order[0]), order[1..]);
    }
  }

  lemma DeadlineStays(s: Sessions, e: SessionEvent, u: UserId, from: Time, until: Time)
    requires BoardsOk(s.game) && Patient(e, u, from, until) && until <= from + GRACE && NotDueBefore(s, u, until)
    ensures NotDueBefore(SessionStep(s, e), u, until)
  {
    if e.SFlush? {
      FlushSpares(s.(pending := s.pending - Expired(s, e.now)), e.order);
    }
  }

  // Between closing a page and the end of the grace period the game is not told
  // that the user is away, whatever else happens on the server.
  lemma {:induction false} GraceHidesTheAbsence(s: Sessions, es: seq<SessionEvent>, r: RoomId, u: UserId, from: Time, until: Time)
    requires SessionInv(s) && SessionRunOk(s, es) && until <= from + GRACE
    requires !FlaggedFor(s.game, r, u) && NotDueBefore(s, u, until)
    requires forall k :: 0 <= k < |es| ==> Patient(es[k], u, from, until)
    ensures !FlaggedFor(SessionRun(s, es).game, r, u)
    decreases |es|
  {
    if es != [] {
      var e := es[0];
      SessionStepKeepsInv(s, e);
      OnlyAbsenceFlags(s, e, r, u);
      DeadlineStays(s, e, u, from, until);
      assert Patient(e, u, from, until);
      GraceHidesTheAbsence(SessionStep(s, e), es[1..], r, u, from, until);
    }
  }
}
