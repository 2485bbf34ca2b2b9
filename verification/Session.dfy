// The session layer on values: connection handles, users, the disconnect grace
// queue, and behind it the game controller and the matchmaker.  Each handler is
// one step.
module Session {
  import opened Basics
  import opened Rooms
  import opened RoomIndex
  import opened Online
  import opened Game
  import opened MatchSpec

  type Handle = nat
  type Time = nat

  const GRACE: nat := 3

  // `users` knows the user of an authenticated handle, `conns` the current
  // handle of a user, `pending` the deadlines of postponed disconnects.  The game
  // and the matchmaker share one status map.
  datatype Sessions = Sessions(
    users: map<Handle, UserId>,
    conns: map<UserId, Handle>,
    pending: map<UserId, Time>,
    game: Game,
    queue: MState)

  datatype Reply =
    | AuthSuccess(user: UserId)
    | ReconnectAvailable(room: RoomId)
    | OldResult
    | InvalidToken
    | Unauthenticated
    | NotInHall
    | EnqueueFailed
    | MatchWaiting
    | CancelFailed
    | MatchCancelled

  // The game or the matchmaker has moved on, with the statuses.
  function WithGame(s: Sessions, g: Game): Sessions {
    s.(game := g, queue := s.queue.(online := g.online))
  }

  function WithQueue(s: Sessions, m: MState): Sessions {
    s.(queue := m, game := s.game.(online := m.online))
  }

  // ----- the handlers -----

  function UserOf(s: Sessions, h: Handle): UserId {
    if h in s.users then s.users[h] else 0
  }

  function SetUserConnection(s: Sessions, u: UserId, h: Handle): Sessions {
    WithGame(
      s.(users := (map x | x in s.users && s.users[x] != u :: s.users[x])[h := u], conns := s.conns[u := h]),
      if u in s.game.online then s.game else s.game.(online := s.game.online[u := HallIdle]))
  }

  function HasActiveRoom(g: Game, u: UserId): bool {
    RoomOf(g.table, u).Some? && g.table.rooms[RoomOf(g.table, u).value].status == Playing
  }

  // Offline first, and then the matchmaker is told.
  function ExecuteDisconnect(s: Sessions, u: UserId): Sessions {
    var s1 := WithGame(s, Lose(s.game, u)).(conns := s.conns - {u});
    var s2 := WithQueue(s1, Disconnect(s1.queue, u));
    WithGame(s2, Cleanup(s2.game, u))
  }

  function OnClose(s: Sessions, h: Handle, now: Time): Sessions {
    if h !in s.users then s else
    var u := s.users[h];
    var s1 := s.(users := s.users - {h});
    if u == 0 then s1
    else if u in s1.conns && s1.conns[u] != h then s1
    else
      var s2 := s1.(conns := s1.conns - {u});
      if HasActiveRoom(s2.game, u) then s2.(pending := s2.pending[u := now + GRACE])
      else ExecuteDisconnect(s2, u)
  }

  function CommitPending(s: Sessions, u: UserId): Sessions {
    if u !in s.pending then s else
    WithGame(s.(pending := s.pending - {u}), Lose(s.game, u))
  }

  // The auth message.  u is the user that its token verifies, or 0; `hall` tells
  // that the message comes from the hall page.
  function Auth(s: Sessions, u: UserId, h: Handle, hall: bool): (Sessions, seq<Reply>) {
    if u == 0 then (s, [InvalidToken]) else
    var s1 := SetUserConnection(s, u, h);
    var at := RoomOf(s1.game.table, u);
    if at.None? then (s1, [AuthSuccess(u)])
    else if s1.game.table.rooms[at.value].status == Playing then
      var s2 := if u in s1.pending && hall then CommitPending(s1, u) else s1;
      var at2 := RoomOf(s2.game.table, u);
      if at2.Some? && s2.game.table.rooms[at2.value].lost == Some(u) then
        (s2, [AuthSuccess(u), ReconnectAvailable(at2.value)])
      else (s2, [AuthSuccess(u)])
    else if s1.game.table.rooms[at.value].status == Finished then (s1, [AuthSuccess(u), OldResult])
    else (s1, [AuthSuccess(u)])
  }

  function StartWaiting(s: Sessions, u: UserId, score: int, now: Millis): (Sessions, seq<Reply>) {
    if StatusOf(s.game.online, u) != HallIdle then (s, [NotInHall]) else
    var (m, ok) := Enqueue(s.queue, u, score, now, false);
    (WithQueue(s, m), [if ok then MatchWaiting else EnqueueFailed])
  }

  // match.start: an authenticated handle goes by its user, another one by the
  // token, which authenticates it.
  function MatchStart(s: Sessions, u: UserId, h: Handle, score: int, now: Millis): (Sessions, seq<Reply>) {
    if UserOf(s, h) > 0 then StartWaiting(s, UserOf(s, h), score, now)
    else if u == 0 then (s, [InvalidToken])
    else StartWaiting(SetUserConnection(s, u, h), u, score, now)
  }

  function MatchCancel(s: Sessions, h: Handle): (Sessions, seq<Reply>) {
    if UserOf(s, h) == 0 then (s, [Unauthenticated]) else
    var (m, ok) := Cancel(s.queue, UserOf(s, h));
    (WithQueue(s, m), [if ok then MatchCancelled else CancelFailed])
  }

  ghost function Return(s: Sessions, u: UserId): Sessions
    requires BoardsOk(s.game)
  {
    WithGame(s.(pending := s.pending - {u}), Reconnect(s.game, u))
  }

  // game.reconnect.  If the message carries a token, it must verify the user of
  // the handle.
  ghost function ReturnFrom(s: Sessions, h: Handle, token: Option<UserId>): (Sessions, seq<Reply>)
    requires BoardsOk(s.game)
  {
    var u := UserOf(s, h);
    if u == 0 then (s, [Unauthenticated])
    else if token.Some? && (token.value == 0 || token.value != u) then (s, [InvalidToken])
    else (Return(s, u), [])
  }

  function Expired(s: Sessions, now: Time): set<UserId> {
    set u | u in s.pending && s.pending[u] <= now
  }

  // The expired users are handled one after the other, in the order in which
  // the pending map happens to list them.
  function FlushUsers(s: Sessions, order: seq<UserId>): Sessions
    decreases |order|
  {
    if order == [] then s
    else FlushUsers(if order[0] in s.conns then s else ExecuteDisconnect(s, order[0]), order[1..])
  }

  function Flush(s: Sessions, now: Time, order: seq<UserId>): Sessions {
    FlushUsers(s.(pending := s.pending - Expired(s, now)), order)
  }

  ghost predicate Lists(order: seq<UserId>, us: set<UserId>) {
    && (forall u :: u in us <==> u in order)
    && (forall i, j :: 0 <= i < j < |order| ==> order[i] != order[j])
  }

  // ----- events -----

  datatype SessionEvent =
    | SClose(h: Handle, now: Time)
    | SAuth(user: UserId, h: Handle, hall: bool)
    | SMatchStart(user: UserId, h: Handle, score: int, at: Millis)
    | SMatchCancel(h: Handle)
    | SReturn(h: Handle, token: Option<UserId>)
    | SFlush(now: Time, order: seq<UserId>)
    | SPlay(e: GameEvent)                       // moves, timers, starts, ...
    | SLoop(now0: Millis, now1: Millis)         // one body of the match loop
    | SStatus(online: Users)                    // the match thread in mid-pass

  // Events of the game that do not come from the session layer itself.
  predicate Plain(e: GameEvent) {
    !e.ELose? && !e.EReconnect? && !e.ECleanup? && !e.EOnline?
  }

  ghost predicate MayStep(s: Sessions, e: SessionEvent) {
    match e
    case SAuth(u, h, _) => OneUserPerHandle(s, u, h)
    case SFlush(now, order) => Lists(order, Expired(s, now))
    case SPlay(e) => Plain(e) && Allowed(s.game, e)
    case SStatus(online) => online.Keys == s.game.online.Keys
    case _ => true
  }

  // A handle is only ever authenticated as one user.
  predicate OneUserPerHandle(s: Sessions, u: UserId, h: Handle) {
    u > 0 && h in s.users ==> s.users[h] == u
  }

  ghost function SessionStep(s: Sessions, e: SessionEvent): Sessions
    requires BoardsOk(s.game)
  {
    match e
    case SClose(h, now) => OnClose(s, h, now)
    case SAuth(u, h, hall) => Auth(s, u, h, hall).0
    case SMatchStart(u, h, score, at) => MatchStart(s, u, h, score, at).0
    case SMatchCancel(h) => MatchCancel(s, h).0
    case SReturn(h, token) => ReturnFrom(s, h, token).0
    case SFlush(now, order) => Flush(s, now, order)
    case SPlay(e) => WithGame(s, GameStep(s.game, e))
    case SLoop(now0, now1) => WithQueue(s, LoopBody(s.queue, now0, now1))
    case SStatus(online) => WithGame(s, s.game.(online := online))
  }
}
