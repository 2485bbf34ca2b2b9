// The page of a player agrees with the room on the server.
module Replica {
  import opened Basics
  import opened Board
  import opened BoardText
  import opened Rooms
  import opened RoomIndex
  import opened ScoreTable
  import opened Online
  import opened Game
  import opened GameProofs
  import opened GameTheorems
  import opened GameOutcomes
  import opened Client

  // Same board, right colour, right turn flag, game on.
  predicate Agrees(p: Page, m: Room, u: UserId) {
    p.board == m.board && p.color == m.ColorOf(u) && (p.myTurn <==> m.CurrentTurn() == u) && p.active
  }

  // ----- one message -----

  lemma MoveKeepsAgreement(p: Page, m: Room, u: UserId, mover: UserId, row: int, col: int)
    requires LiveRoom(m) && m.HasPlayer(u) && Agrees(p, m, u)
    ensures
      var (m', res) := PlacePiece(m, mover, row, col);
      res == MoveSuccess ==>
        && OnBoard(row, col)
        && Agrees(Handle(p, GameMove(row, col, ShownColor(m', mover), Some(ShownColor(m', m'.CurrentTurn())))), m', u)
  {
  }

  // On any page the snapshot shows the room's board; the turn is judged by the
  // colour the page knows, so that there is agreement exactly if it is the right
  // one.
  predicate ShowsRoom(p: Page, m: Room) {
    p.board == m.board && p.active && (p.myTurn <==> p.color == m.ColorOf(m.CurrentTurn()))
  }

  lemma SnapshotGivesAgreement(p: Page, m: Room, id: RoomId, u: UserId)
    requires LiveRoom(m) && m.HasPlayer(u) && IsBoard(p.board)
    ensures
      var p' := Handle(p, Snapshot(m, id, u));
      ShowsRoom(p', m) && p'.color == p.color && (Agrees(p', m, u) <==> p.color == m.ColorOf(u))
  {
    DecodeEncode(m.board, p.board);
  }

  // ----- what a step delivers -----

  lemma Tail(a: seq<Sent>, b: seq<Sent>)
    ensures (a + b)[|a|..] == b
  {
  }

  lemma ForOne(to: UserId, msg: Message, u: UserId)
    ensures For([Sent(to, msg)], u) == if to == u then [msg] else []
  {
    assert [Sent(to, msg)][1..] == [];
  }

  lemma ForTwo(a: UserId, x: Message, b: UserId, y: Message, u: UserId)
    requires a != b
    ensures For([Sent(a, x), Sent(b, y)], u) == if a == u then [x] else if b == u then [y] else []
  {
    assert [Sent(a, x), Sent(b, y)][1..] == [Sent(b, y)];
    ForOne(b, y, u);
  }

  lemma HandleOne(p: Page, msg: Message)
    requires IsBoard(p.board)
    ensures HandleAll(p, [msg]) == Handle(p, msg)
  {
    assert [msg][1..] == [];
  }

  lemma {:induction false} NoneFor(log: seq<Sent>, u: UserId)
    requires forall k :: 0 <= k < |log| ==> log[k].to != u
    ensures For(log, u) == []
    decreases |log|
  {
    if log != [] {
      NoneFor(log[1..], u);
    }
  }

  // The messages of a step.
  function News(g: Game, g': Game): seq<Sent>
    requires |g.outbox| <= |g'.outbox|
  {
    g'.outbox[|g.outbox|..]
  }

  // Messages go to the user who acts, or to the players of the room concerned.
  predicate Reaches(g: Game, e: GameEvent, to: UserId) {
    match e
    case EStart(p1, p2, _) => p1 !in g.table.users && p2 !in g.table.users && (to == p1 || to == p2)
    case EMove(v, _, _, _) => to == v || InTarget(g, e, to)
    case ESurrender(v, _) => to == v || InTarget(g, e, to)
    case ELose(v) => to == v || InTarget(g, e, to)
    case EReconnect(v) => to == v || InTarget(g, e, to)
    case EAccept(v) => to == v || InTarget(g, e, to)
    case EReject(v, _) => to == v || InTarget(g, e, to)
    case ETurnFires(_, _) => InTarget(g, e, to)
    case ELostFires(_, _) => InTarget(g, e, to)
    case ECleanup(_) => false
    case EOnline(_) => false
  }

  predicate InTarget(g: Game, e: GameEvent, to: UserId) {
    TargetId(g, e) in g.table.rooms && g.table.rooms[TargetId(g, e)].HasPlayer(to)
  }

  predicate Within(log: seq<Sent>, log': seq<Sent>, m: Room, v: UserId) {
    && log <= log'
    && forall k :: |log| <= k < |log'| ==> log'[k].to == v || m.HasPlayer(log'[k].to)
  }

  lemma EndStaysWithin(g: Game, id: RoomId, m: Room, res: GameResult, w: UserId, l: UserId, fails: set<DbStep>, v: UserId)
    requires id in g.table.rooms && g.table.rooms[id] == m && (w != 0 && l != 0 ==> m.HasPlayer(w) && m.HasPlayer(l))
    ensures Within(g.outbox, EndGame(g, id, res, w, l, fails).outbox, m, v)
  {
  }

  lemma AfterMoveStaysWithin(g: Game, id: RoomId, u: UserId, row: int, col: int, m: Room, res: GameResult, fails: set<DbStep>)
    requires id in g.table.rooms && SameSeats(g.table.rooms[id], m)
    ensures Within(g.outbox, AfterMove(g, id, u, row, col, m, res, fails).outbox, m, u)
  {
    var g1 := Change(g, id, m);
    if res == BlackWin || res == WhiteWin {
      var g2 := Broadcast(g1, id, GameMove(row, col, ShownColor(m, u), None));
      var (w, l) := if res == BlackWin then (m.black, m.white) else (m.white, m.black);
      EndStaysWithin(g2, id, m, res, w, l, fails, u);
    } else if res == Draw {
      EndStaysWithin(g1, id, m, res, 0, 0, fails, u);
    }
  }

  lemma FlagStaysWithin(g: Game, id: RoomId, u: UserId)
    requires BoardsOk(g) && RoomOf(g.table, u) == Some(id) && g.table.rooms[id].HasPlayer(u)
    ensures Within(g.outbox, Lose(g, u).outbox, g.table.rooms[id], u)
    ensures Within(g.outbox, Reconnect(g, u).outbox, g.table.rooms[id], u)
    ensures Within(g.outbox, Accept(g, u).outbox, g.table.rooms[id], u)
  {
  }

  lemma QuitStaysWithin(g: Game, id: RoomId, u: UserId, fails: set<DbStep>)
    requires RoomOf(g.table, u) == Some(id) && g.table.rooms[id].HasPlayer(u)
    ensures Within(g.outbox, Surrender(g, u, fails).outbox, g.table.rooms[id], u)
    ensures Within(g.outbox, Reject(g, u, fails).outbox, g.table.rooms[id], u)
  {
    var m := g.table.rooms[id];
    var m1 := Resign(m, u).0;
    EndStaysWithin(Change(g, id, m1), id, m1, GaveUp, m1.Opponent(u), u, fails, u);
    var m2 := m.(lost := None);
    EndStaysWithin(Change(g, id, m2).(lostTimers := g.lostTimers - {id}), id, m2, GaveUp, m2.Opponent(u), u, fails, u);
  }

  lemma FiringStaysWithin(g: Game, id: RoomId, fails: set<DbStep>)
    requires id in g.table.rooms && (g.table.rooms[id].lost.Some? ==> g.table.rooms[id].HasPlayer(g.table.rooms[id].lost.value))
    ensures Within(g.outbox, TurnFires(g, id, fails).outbox, g.table.rooms[id], g.table.rooms[id].black)
    ensures Within(g.outbox, LostFires(g, id, fails).outbox, g.table.rooms[id], g.table.rooms[id].black)
  {
    var m := g.table.rooms[id];
    EndStaysWithin(g.(turnTimers := g.turnTimers - {id}), id, m, Timeout, m.Opponent(m.CurrentTurn()), m.CurrentTurn(), fails, m.black);
    if m.lost.Some? {
      var m1 := m.(lost := None);
      EndStaysWithin(Change(g.(lostTimers := g.lostTimers - {id}), id, m1), id, m1, Timeout, m1.Opponent(m.lost.value), m.lost.value, fails, m.black);
    }
  }

  lemma StepReaches(g: Game, e: GameEvent)
    requires GameInv(g) && Allowed(g, e)
    ensures BoardsOk(g)
    ensures g.outbox <= GameStep(g, e).outbox
    ensures forall k :: |g.outbox| <= k < |GameStep(g, e).outbox| ==> Reaches(g, e, GameStep(g, e).outbox[k].to)
  {
    InvGivesBoards(g);
    if e.EMove? || e.ESurrender? || e.EReject? {
      ActionReaches(g, e);
    } else if e.ELose? || e.EReconnect? || e.EAccept? {
      PresenceReaches(g, e);
    } else if e.ECleanup? {
      CleanupDoesNothing(g, e.user);
    } else if (e.ETurnFires? || e.ELostFires?) && e.id in g.table.rooms {
      At(g, e.id);
      FiringStaysWithin(g, e.id, e.fails);
    }
  }

  // A player moves, gives up or declines to come back.
  lemma ActionReaches(g: Game, e: GameEvent)
    requires GameInv(g) && BoardsOk(g) && (e.EMove? || e.ESurrender? || e.EReject?)
    ensures g.outbox <= GameStep(g, e).outbox
    ensures forall k :: |g.outbox| <= k < |GameStep(g, e).outbox| ==> Reaches(g, e, GameStep(g, e).outbox[k].to)
  {
    if RoomOf(g.table, e.user).Some? {
      var id := RoomOf(g.table, e.user).value;
      At(g, id);
      BijectionMeans(g.table, e.user, id);
      match e {
        case EMove(v, row, col, fails) => MoveStaysWithin(g, id, v, row, col, fails);
        case ESurrender(v, fails) => QuitStaysWithin(g, id, v, fails);
        case EReject(v, fails) => QuitStaysWithin(g, id, v, fails);
      }
    }
  }

  // A player goes or comes back.
  lemma PresenceReaches(g: Game, e: GameEvent)
    requires GameInv(g) && BoardsOk(g) && (e.ELose? || e.EReconnect? || e.EAccept?)
    ensures g.outbox <= GameStep(g, e).outbox
    ensures forall k :: |g.outbox| <= k < |GameStep(g, e).outbox| ==> Reaches(g, e, GameStep(g, e).outbox[k].to)
  {
    if RoomOf(g.table, e.user).Some? {
      var id := RoomOf(g.table, e.user).value;
      At(g, id);
      BijectionMeans(g.table, e.user, id);
      FlagStaysWithin(g, id, e.user);
    }
  }

  lemma MoveStaysWithin(g: Game, id: RoomId, u: UserId, row: int, col: int, fails: set<DbStep>)
    requires BoardsOk(g) && RoomOf(g.table, u) == Some(id)
    ensures Within(g.outbox, Move(g, u, row, col, fails).outbox, g.table.rooms[id], u)
  {
    var (m, res) := PlacePiece(g.table.rooms[id], u, row, col);
    AfterMoveStaysWithin(g, id, u, row, col, m, res, fails);
  }

  // A player of one room hears nothing of the others.
  lemma OtherRoomsAreSilent(g: Game, e: GameEvent, r: RoomId, u: UserId)
    requires GameInv(g) && Allowed(g, e) && TargetId(g, e) != r
    requires r in g.table.rooms && g.table.rooms[r].HasPlayer(u)
    ensures BoardsOk(g) && g.outbox <= GameStep(g, e).outbox
    ensures For(News(g, GameStep(g, e)), u) == []
  {
    StepReaches(g, e);
    BijectionMeans(g.table, u, r);
    if TargetId(g, e) in g.table.rooms {
      BijectionMeans(g.table, u, TargetId(g, e));
    }
    NoneFor(News(g, GameStep(g, e)), u);
  }

  // ----- one step, in the room of the player -----

  lemma MoveInSync(g: Game, r: RoomId, u: UserId, p: Page, v: UserId, row: int, col: int, fails: set<DbStep>)
    requires GameInv(g) && RoomOf(g.table, v) == Some(r) && g.table.rooms[r].HasPlayer(u)
    requires Agrees(p, g.table.rooms[r], u)
    ensures BoardsOk(g)
    ensures
      var g' := Move(g, v, row, col, fails);
      r in g'.table.rooms ==>
        g.outbox <= g'.outbox && Agrees(HandleAll(p, For(News(g, g'), u)), g'.table.rooms[r], u)
  {
    At(g, r);
    var m := g.table.rooms[r];
    var (m', res) := PlacePiece(m, v, row, col);
    MoveKeepsLive(m, v, row, col);
    MoveKeepsAgreement(p, m, u, v, row, col);
    AfterMoveInSync(g, r, u, p, v, row, col, m', res, fails);
  }

  lemma AfterMoveInSync(g: Game, r: RoomId, u: UserId, p: Page, v: UserId, row: int, col: int, m: Room, res: GameResult, fails: set<DbStep>)
    requires r in g.table.rooms && SameSeats(g.table.rooms[r], m) && m.HasPlayer(u) && m.black != m.white && IsBoard(p.board)
    requires res in {NoResult, MoveSuccess, BlackWin, WhiteWin, Draw}
    requires res == NoResult ==> Agrees(p, m, u)
    requires res == MoveSuccess ==> Agrees(Handle(p, GameMove(row, col, ShownColor(m, v), Some(ShownColor(m, m.CurrentTurn())))), m, u)
    ensures
      var g' := AfterMove(g, r, v, row, col, m, res, fails);
      r in g'.table.rooms ==>
        g.outbox <= g'.outbox && Agrees(HandleAll(p, For(News(g, g'), u)), g'.table.rooms[r], u)
  {
    if res == NoResult {
      Tail(g.outbox, [Sent(v, Error(4002))]);
      ForOne(v, Error(4002), u);
      HandleOne(p, Error(4002));
    } else if res == MoveSuccess {
      var msg := GameMove(row, col, ShownColor(m, v), Some(ShownColor(m, m.CurrentTurn())));
      Tail(g.outbox, [Sent(m.black, msg), Sent(m.white, msg)]);
      ForTwo(m.black, msg, m.white, msg, u);
      HandleOne(p, msg);
    }
  }

  lemma LoseInSync(g: Game, r: RoomId, u: UserId, p: Page, v: UserId)
    requires RoomOf(g.table, v) == Some(r) && IsBoard(p.board) && Agrees(p, g.table.rooms[r], u)
    ensures
      var g' := Lose(g, v);
      && r in g'.table.rooms && g.outbox <= g'.outbox
      && Agrees(HandleAll(p, For(News(g, g'), u)), g'.table.rooms[r], u)
  {
    var other := g.table.rooms[r].Opponent(v);
    Tail(g.outbox, []);
    Tail(g.outbox, [Sent(other, OpponentDisconnected)]);
    ForOne(other, OpponentDisconnected, u);
    HandleOne(p, OpponentDisconnected);
  }

  lemma WelcomeInSync(g: Game, r: RoomId, u: UserId, p: Page, v: UserId)
    requires r in g.table.rooms && IsBoard(p.board) && Agrees(p, g.table.rooms[r], u)
    ensures
      var g' := Welcome(g, r, v);
      && r in g'.table.rooms && g.outbox <= g'.outbox
      && Agrees(HandleAll(p, For(News(g, g'), u)), g'.table.rooms[r], u)
  {
    var other := g.table.rooms[r].Opponent(v);
    Tail(g.outbox, []);
    Tail(g.outbox, [Sent(other, OpponentReconnected)]);
    ForOne(other, OpponentReconnected, u);
    HandleOne(p, OpponentReconnected);
  }

  // One more message after some others.
  lemma OneMore(g: Game, g1: Game, to: UserId, msg: Message, u: UserId, p: Page)
    requires g.outbox <= g1.outbox && IsBoard(p.board)
    ensures
      var g' := Send(g1, to, msg);
      var p1 := HandleAll(p, For(News(g, g1), u));
      && g.outbox <= g'.outbox
      && HandleAll(p, For(News(g, g'), u)) == (if to == u then Handle(p1, msg) else p1)
  {
    var g' := Send(g1, to, msg);
    assert News(g, g') == News(g, g1) + [Sent(to, msg)];
    ForInParts(News(g, g1), [Sent(to, msg)], u);
    ForOne(to, msg, u);
    HandleInParts(p, For(News(g, g1), u), For([Sent(to, msg)], u));
    HandleOne(HandleAll(p, For(News(g, g1), u)), msg);
  }

  lemma ReconnectInSync(g: Game, r: RoomId, u: UserId, p: Page, v: UserId)
    requires GameInv(g) && RoomOf(g.table, v) == Some(r) && IsBoard(p.board)
    requires Agrees(p, g.table.rooms[r], u) && g.table.rooms[r].HasPlayer(u)
    ensures BoardsOk(g)
    ensures
      var g' := Reconnect(g, v);
      && r in g'.table.rooms && g.outbox <= g'.outbox
      && Agrees(HandleAll(p, For(News(g, g'), u)), g'.table.rooms[r], u)
  {
    InvGivesBoards(g);
    WelcomeKeepsInv(g, r, v);
    WelcomeInSync(g, r, u, p, v);
    var g1 := Welcome(g, r, v);
    At(g1, r);
    var p1 := HandleAll(p, For(News(g, g1), u));
    OneMore(g, g1, v, Snapshot(g1.table.rooms[r], r, v), u, p);
    if v == u {
      SnapshotGivesAgreement(p1, g1.table.rooms[r], r, u);
    }
  }

  lemma AcceptInSync(g: Game, r: RoomId, u: UserId, p: Page, v: UserId)
    requires RoomOf(g.table, v) == Some(r) && IsBoard(p.board) && Agrees(p, g.table.rooms[r], u)
    ensures
      var g' := Accept(g, v);
      && r in g'.table.rooms && g.outbox <= g'.outbox
      && Agrees(HandleAll(p, For(News(g, g'), u)), g'.table.rooms[r], u)
  {
    WelcomeInSync(g, r, u, p, v);
    var g1 := Welcome(g, r, v);
    var g2 := g1.(online := WithStatus(g1.online, v, InRoom));
    assert News(g, g2) == News(g, g1);
    OneMore(g, g2, v, ReconnectAccepted(r, ShownColor(g1.table.rooms[r], v)), u, p);
  }

  // After any operation that leaves the player's room alive, handling the new
  // messages in order brings the page to the room again.
  lemma StepInSync(g: Game, e: GameEvent, r: RoomId, u: UserId, p: Page)
    requires GameInv(g) && Allowed(g, e) && r in g.table.rooms && g.table.rooms[r].HasPlayer(u)
    requires IsBoard(p.board) && Agrees(p, g.table.rooms[r], u)
    ensures BoardsOk(g)
    ensures
      var g' := GameStep(g, e);
      && g.outbox <= g'.outbox
      && (r in g'.table.rooms ==> Agrees(HandleAll(p, For(News(g, g'), u)), g'.table.rooms[r], u))
  {
    InvGivesBoards(g);
    StepReaches(g, e);
    if TargetId(g, e) != r {
      OtherRoomsAreSilent(g, e, r, u);
      OtherRoomsUntouched(g, e, r);
    } else {
      TargetInSync(g, e, r, u, p);
    }
  }

  lemma TargetInSync(g: Game, e: GameEvent, r: RoomId, u: UserId, p: Page)
    requires GameInv(g) && Allowed(g, e) && r in g.table.rooms && g.table.rooms[r].HasPlayer(u)
    requires IsBoard(p.board) && Agrees(p, g.table.rooms[r], u) && TargetId(g, e) == r && BoardsOk(g)
    requires g.outbox <= GameStep(g, e).outbox
    ensures
      var g' := GameStep(g, e);
      r in g'.table.rooms ==> Agrees(HandleAll(p, For(News(g, g'), u)), g'.table.rooms[r], u)
  {
    At(g, r);
    assert HandleAll(p, []) == p;
    match e {
      case EMove(v, row, col, fails) => MoveInSync(g, r, u, p, v, row, col, fails);
      case ESurrender(v, fails) => QuitEndsRoom(g, r, v, fails);
      case EReject(v, fails) => QuitEndsRoom(g, r, v, fails);
      case ETurnFires(_, _) => ExpiryInSync(g, e, r, u, p);
      case ELostFires(_, _) => ExpiryInSync(g, e, r, u, p);
      case ECleanup(_) => ExpiryInSync(g, e, r, u, p);
      case _ => PresenceInSync(g, e, r, u, p);
    }
  }

  lemma ExpiryInSync(g: Game, e: GameEvent, r: RoomId, u: UserId, p: Page)
    requires GameInv(g) && r in g.table.rooms && g.table.rooms[r].HasPlayer(u)
    requires IsBoard(p.board) && Agrees(p, g.table.rooms[r], u) && TargetId(g, e) == r && BoardsOk(g)
    requires e.ETurnFires? || e.ELostFires? || e.ECleanup?
    requires g.outbox <= GameStep(g, e).outbox
    ensures
      var g' := GameStep(g, e);
      r in g'.table.rooms ==> Agrees(HandleAll(p, For(News(g, g'), u)), g'.table.rooms[r], u)
  {
    assert HandleAll(p, []) == p;
    if e.ECleanup? {
      CleanupDoesNothing(g, e.user);
    } else {
      FiringInSync(g, r, e.fails);
    }
  }

  lemma PresenceInSync(g: Game, e: GameEvent, r: RoomId, u: UserId, p: Page)
    requires GameInv(g) && r in g.table.rooms && g.table.rooms[r].HasPlayer(u) && (e.EStart? ==> Allowed(g, e))
    requires IsBoard(p.board) && Agrees(p, g.table.rooms[r], u) && TargetId(g, e) == r && BoardsOk(g)
    requires e.ELose? || e.EReconnect? || e.EAccept? || e.EStart? || e.EOnline?
    requires g.outbox <= GameStep(g, e).outbox
    ensures
      var g' := GameStep(g, e);
      r in g'.table.rooms ==> Agrees(HandleAll(p, For(News(g, g'), u)), g'.table.rooms[r], u)
  {
    At(g, r);
    assert HandleAll(p, []) == p;
    match e {
      case ELose(v) => LoseInSync(g, r, u, p, v);
      case EReconnect(v) => ReconnectInSync(g, r, u, p, v);
      case EAccept(v) => AcceptInSync(g, r, u, p, v);
      case _ =>
    }
  }

  lemma QuitEndsRoom(g: Game, r: RoomId, v: UserId, fails: set<DbStep>)
    requires GameInv(g) && RoomOf(g.table, v) == Some(r)
    ensures r !in Surrender(g, v, fails).table.rooms && r !in Reject(g, v, fails).table.rooms
  {
    At(g, r);
    BijectionMeans(g.table, v, r);
  }

  lemma FiringInSync(g: Game, r: RoomId, fails: set<DbStep>)
    requires GameInv(g) && r in g.table.rooms
    ensures
      var g' := TurnFires(g, r, fails);
      r in g'.table.rooms ==> g'.table == g.table && g'.outbox == g.outbox
    ensures
      var g' := LostFires(g, r, fails);
      r in g'.table.rooms ==> g'.table == g.table && g'.outbox == g.outbox
  {
    At(g, r);
  }

  // ----- whole runs -----

  lemma OverStaysOver(g: Game, e: GameEvent)
    requires GameInv(g) && Allowed(g, e)
    ensures BoardsOk(g) && g.ended <= GameStep(g, e).ended
  {
    EveryStepHasAShape(g, e);
  }

  // A room that has left the table never comes back.
  lemma {:induction false} GoneStaysGone(g: Game, es: seq<GameEvent>, b: nat)
    requires GameInv(g) && RunOk(g, es) && b in BirthsIn(g.ended)
    ensures forall r :: r in GameRun(g, es).table.rooms ==> GameRun(g, es).table.rooms[r].birth != b
    decreases |es|
  {
    var i :| 0 <= i < |g.ended| && g.ended[i].birth == b;
    if es != [] {
      GameStepKeepsInv(g, es[0]);
      OverStaysOver(g, es[0]);
      assert GameStep(g, es[0]).ended[i].birth == b;
      GoneStaysGone(GameStep(g, es[0]), es[1..], b);
    }
  }

  // The log only grows.
  lemma {:induction false} LogGrows(g: Game, es: seq<GameEvent>)
    requires GameInv(g) && RunOk(g, es)
    ensures g.outbox <= GameRun(g, es).outbox
    decreases |es|
  {
    if es != [] {
      GameStepKeepsInv(g, es[0]);
      StepReaches(g, es[0]);
      LogGrows(GameStep(g, es[0]), es[1..]);
    }
  }

  lemma Joined(g: Game, g1: Game, g2: Game, u: UserId, p: Page)
    requires g.outbox <= g1.outbox <= g2.outbox && IsBoard(p.board)
    ensures
      HandleAll(p, For(News(g, g2), u)) == HandleAll(HandleAll(p, For(News(g, g1), u)), For(News(g1, g2), u))
  {
    assert News(g, g2) == News(g, g1) + News(g1, g2);
    ForInParts(News(g, g1), News(g1, g2), u);
    HandleInParts(p, For(News(g, g1), u), For(News(g1, g2), u));
  }

  // A room that is there at the end of a run was there after its first step.
  lemma ThereAllAlong(g: Game, es: seq<GameEvent>, r: RoomId)
    requires GameInv(g) && RunOk(g, es) && es != [] && r in g.table.rooms
    requires r in GameRun(g, es).table.rooms && GameRun(g, es).table.rooms[r].birth == g.table.rooms[r].birth
    ensures BoardsOk(g) && r in GameStep(g, es[0]).table.rooms
    ensures SameSeats(g.table.rooms[r], GameStep(g, es[0]).table.rooms[r])
  {
    GameStepKeepsInv(g, es[0]);
    StaysOrGone(g, es[0], r);
    if r !in GameStep(g, es[0]).table.rooms {
      GoneStaysGone(GameStep(g, es[0]), es[1..], g.table.rooms[r].birth);
    }
  }

  // As long as the player's room lives, a page that agreed once and has handled
  // every message sent to the player since then, in order, agrees again:
  // whatever moves, rejected moves, disconnections, reconnections, timer
  // firings and games of other players happened in between.
  lemma {:induction false} ReplicaAgrees(g: Game, es: seq<GameEvent>, r: RoomId, u: UserId, p: Page)
    requires GameInv(g) && RunOk(g, es) && r in g.table.rooms && g.table.rooms[r].HasPlayer(u)
    requires IsBoard(p.board) && Agrees(p, g.table.rooms[r], u)
    requires r in GameRun(g, es).table.rooms && GameRun(g, es).table.rooms[r].birth == g.table.rooms[r].birth
    ensures g.outbox <= GameRun(g, es).outbox
    ensures Agrees(HandleAll(p, For(News(g, GameRun(g, es)), u)), GameRun(g, es).table.rooms[r], u)
    decreases |es|
  {
    LogGrows(g, es);
    if es == [] {
      assert News(g, g) == [];
    } else {
      ThereAllAlong(g, es, r);
      StepInSync(g, es[0], r, u, p);
      GameStepKeepsInv(g, es[0]);
      var g1 := GameStep(g, es[0]);
      LogGrows(g1, es[1..]);
      Joined(g, g1, GameRun(g1, es[1..]), u, p);
      ReplicaAgrees(g1, es[1..], r, u, HandleAll(p, For(News(g, g1), u)));
    }
  }

  lemma StaysOrGone(g: Game, e: GameEvent, r: RoomId)
    requires GameInv(g) && Allowed(g, e) && r in g.table.rooms
    ensures BoardsOk(g)
    ensures
      var g' := GameStep(g, e);
      if r in g'.table.rooms then SameSeats(g.table.rooms[r], g'.table.rooms[r])
      else g.table.rooms[r].birth in BirthsIn(g'.ended)
  {
    EveryStepHasAShape(g, e);
    EndingCleansUp(g, e, r);
    if r in GameStep(g, e).table.rooms {
      ShapeKeepsSeats(g, GameStep(g, e), TargetId(g, e), r);
    }
  }

  // Where agreement comes from: the snapshot that answers game.reconnect, which
  // brings any page to the room's board, and to agreement if and only if the page
  // knows its player's colour; and the start of a game, on a fresh page.
  lemma SnapshotStartsAgreement(g: Game, r: RoomId, u: UserId, p: Page)
    requires GameInv(g) && RoomOf(g.table, u) == Some(r) && IsBoard(p.board)
    ensures BoardsOk(g)
    ensures
      var g' := Reconnect(g, u);
      && r in g'.table.rooms && g.outbox <= g'.outbox
      && var p' := HandleAll(p, For(News(g, g'), u));
      && ShowsRoom(p', g'.table.rooms[r]) && p'.color == p.color
      && (Agrees(p', g'.table.rooms[r], u) <==> p.color == g.table.rooms[r].ColorOf(u))
  {
    InvGivesBoards(g);
    At(g, r);
    BijectionMeans(g.table, u, r);
    WelcomeKeepsInv(g, r, u);
    var g1 := Welcome(g, r, u);
    At(g1, r);
    WelcomeSaysLittle(g, r, u, p);
    var p1 := HandleAll(p, For(News(g, g1), u));
    OneMore(g, g1, u, Snapshot(g1.table.rooms[r], r, u), u, p);
    SnapshotGivesAgreement(p1, g1.table.rooms[r], r, u);
  }

  lemma WelcomeSaysLittle(g: Game, r: RoomId, u: UserId, p: Page)
    requires r in g.table.rooms && LiveRoom(g.table.rooms[r]) && IsBoard(p.board) && g.table.rooms[r].HasPlayer(u)
    ensures
      var g' := Welcome(g, r, u);
      && g.outbox <= g'.outbox && r in g'.table.rooms && SameSeats(g.table.rooms[r], g'.table.rooms[r])
      && HandleAll(p, For(News(g, g'), u)) == p
  {
    var other := g.table.rooms[r].Opponent(u);
    Tail(g.outbox, []);
    Tail(g.outbox, [Sent(other, OpponentReconnected)]);
    ForOne(other, OpponentReconnected, u);
  }

  lemma StartStartsAgreement(g: Game, p1: UserId, p2: UserId, id: RoomId, u: UserId, p: Page)
    requires GameInv(g) && Allowed(g, EStart(p1, p2, id)) && p1 !in g.table.users && p2 !in g.table.users
    requires (u == p1 || u == p2) && p.board == Blank()
    ensures
      var g' := Start(g, p1, p2, id).0;
      && id in g'.table.rooms && g.outbox <= g'.outbox
      && Agrees(HandleAll(p, For(News(g, g'), u)), g'.table.rooms[id], u)
  {
    var m1, m2 := GameStart(id, p1, Black, true), GameStart(id, p2, White, false);
    Tail(g.outbox, [Sent(p1, m1), Sent(p2, m2)]);
    ForTwo(p1, m1, p2, m2, u);
    HandleOne(p, m1);
    HandleOne(p, m2);
  }

  // The last stone: a move ends the game if and only if it is accepted and makes
  // a five or fills the board, and then it reaches the pages if and only if it
  // makes a five.
  lemma LastStone(g: Game, r: RoomId, u: UserId, p: Page, v: UserId, row: int, col: int, fails: set<DbStep>)
    requires GameInv(g) && RoomOf(g.table, v) == Some(r) && g.table.rooms[r].HasPlayer(u)
    requires IsBoard(p.board) && Agrees(p, g.table.rooms[r], u)
    ensures BoardsOk(g)
    ensures
      var m := g.table.rooms[r];
      var g' := Move(g, v, row, col, fails);
      var last := Accepts(m, v, row, col) && (m.moves == FULL - 1 || MakesFive(m, v, row, col));
      && (r !in g'.table.rooms <==> last)
      && (last ==>
        && g.outbox <= g'.outbox
        && (HandleAll(p, For(News(g, g'), u)).board == Dropped(m, v, row, col).board <==> MakesFive(m, v, row, col)))
  {
    At(g, r);
    var m := g.table.rooms[r];
    var (m', res) := PlacePiece(m, v, row, col);
    MoveKeepsLive(m, v, row, col);
    AnswerForetold(m, v, row, col);
    MoveEndsRoom(g, r, v, row, col, m', res, fails);
    if res == BlackWin || res == WhiteWin {
      WinningStone(g, r, u, p, v, row, col, m', res, fails);
    } else if res == Draw {
      DrawingStone(g, r, u, p, v, row, col, m', fails);
    }
  }

  lemma MoveEndsRoom(g: Game, r: RoomId, v: UserId, row: int, col: int, m: Room, res: GameResult, fails: set<DbStep>)
    requires r in g.table.rooms
    ensures r !in AfterMove(g, r, v, row, col, m, res, fails).table.rooms <==> res in {BlackWin, WhiteWin, Draw}
  {
  }

  lemma WinningStone(g: Game, r: RoomId, u: UserId, p: Page, v: UserId, row: int, col: int, m: Room, res: GameResult, fails: set<DbStep>)
    requires r in g.table.rooms && SameSeats(g.table.rooms[r], m) && LiveRoom(g.table.rooms[r]) && m.HasPlayer(u)
    requires (m, res) == PlacePiece(g.table.rooms[r], v, row, col) && (res == BlackWin || res == WhiteWin)
    requires IsBoard(p.board) && p.board == g.table.rooms[r].board
    ensures
      var g' := AfterMove(g, r, v, row, col, m, res, fails);
      && g.outbox <= g'.outbox
      && HandleAll(p, For(News(g, g'), u)).board == m.board
  {
    var msg := GameMove(row, col, ShownColor(m, v), None);
    assert Handle(p, msg).board == m.board;
    WinDelivers(g, r, u, p, v, row, col, m, res, fails);
  }

  lemma WinDelivers(g: Game, r: RoomId, u: UserId, p: Page, v: UserId, row: int, col: int, m: Room, res: GameResult, fails: set<DbStep>)
    requires r in g.table.rooms && SameSeats(g.table.rooms[r], m) && m.black != m.white && m.black > 0 && m.white > 0
    requires (res == BlackWin || res == WhiteWin) && IsBoard(p.board) && m.HasPlayer(u)
    ensures
      var g' := AfterMove(g, r, v, row, col, m, res, fails);
      && g.outbox <= g'.outbox
      && HandleAll(p, For(News(g, g'), u)).board == Handle(p, GameMove(row, col, ShownColor(m, v), None)).board
  {
    var msg := GameMove(row, col, ShownColor(m, v), None);
    var stone := [Sent(m.black, msg), Sent(m.white, msg)];
    var over := WinNews(g, r, v, row, col, m, res, fails);
    ForInParts(stone, over, u);
    ForTwo(m.black, msg, m.white, msg, u);
    HandleInParts(p, [msg], For(over, u));
    HandleOne(p, msg);
    OnlyGoodbyes(Handle(p, msg), over, u);
  }

  lemma WinNews(g: Game, r: RoomId, v: UserId, row: int, col: int, m: Room, res: GameResult, fails: set<DbStep>)
    returns (over: seq<Sent>)
    requires r in g.table.rooms && SameSeats(g.table.rooms[r], m) && (res == BlackWin || res == WhiteWin)
    ensures
      var g' := AfterMove(g, r, v, row, col, m, res, fails);
      var msg := GameMove(row, col, ShownColor(m, v), None);
      g.outbox <= g'.outbox && News(g, g') == [Sent(m.black, msg), Sent(m.white, msg)] + over
    ensures forall k :: 0 <= k < |over| ==> over[k].msg.GameOver?
  {
    var (w, l) := if res == BlackWin then (m.black, m.white) else (m.white, m.black);
    over := Farewell(m, res, w, l);
  }

  lemma {:induction false} OnlyGoodbyes(p: Page, log: seq<Sent>, u: UserId)
    requires IsBoard(p.board) && forall k :: 0 <= k < |log| ==> log[k].msg.GameOver?
    ensures HandleAll(p, For(log, u)).board == p.board
    decreases |log|
  {
    if log != [] {
      if log[0].to == u {
        assert ([log[0].msg] + For(log[1..], u))[1..] == For(log[1..], u);
        OnlyGoodbyes(Handle(p, log[0].msg), log[1..], u);
      } else {
        assert [] + For(log[1..], u) == For(log[1..], u);
        OnlyGoodbyes(p, log[1..], u);
      }
    }
  }

  lemma DrawingStone(g: Game, r: RoomId, u: UserId, p: Page, v: UserId, row: int, col: int, m: Room, fails: set<DbStep>)
    requires r in g.table.rooms && SameSeats(g.table.rooms[r], m) && LiveRoom(g.table.rooms[r]) && m.HasPlayer(u)
    requires (m, Draw) == PlacePiece(g.table.rooms[r], v, row, col)
    requires IsBoard(p.board) && p.board == g.table.rooms[r].board
    ensures
      var g' := AfterMove(g, r, v, row, col, m, Draw, fails);
      && g.outbox <= g'.outbox
      && HandleAll(p, For(News(g, g'), u)).board != m.board
  {
    var over := Farewell(m, Draw, 0, 0);
    var g' := AfterMove(g, r, v, row, col, m, Draw, fails);
    assert News(g, g') == over;
    ForTwo(m.black, over[0].msg, m.white, over[1].msg, u);
    HandleOne(p, over[0].msg);
    HandleOne(p, over[1].msg);
    assert p.board[row][col] == 0 && m.board[row][col] != 0;
  }

  // ----- the page after the game -----

  // Two players are told that the game is over, whatever they were told before.
  lemma OverStops(p: Page, before: seq<Sent>, a: UserId, x: Message, b: UserId, y: Message, u: UserId)
    requires IsBoard(p.board) && a != b && (u == a || u == b) && x.GameOver? && y.GameOver?
    ensures !HandleAll(p, For(before + [Sent(a, x), Sent(b, y)], u)).active
  {
    var over := [Sent(a, x), Sent(b, y)];
    ForInParts(before, over, u);
    ForTwo(a, x, b, y, u);
    var p1 := HandleAll(p, For(before, u));
    HandleInParts(p, For(before, u), For(over, u));
    HandleOne(p1, x);
    HandleOne(p1, y);
  }

  // A page is inactive as soon as it has handled the messages of the operation that
  // ends its game, whatever it showed before.
  lemma PageStopsWithTheGame(g: Game, e: GameEvent, r: RoomId, u: UserId, p: Page)
    requires GameInv(g) && Allowed(g, e) && r in g.table.rooms && g.table.rooms[r].HasPlayer(u) && IsBoard(p.board)
    ensures BoardsOk(g) && g.outbox <= GameStep(g, e).outbox
    ensures r !in GameStep(g, e).table.rooms ==> !HandleAll(p, For(News(g, GameStep(g, e)), u)).active
  {
    StepReaches(g, e);
    EndedHere(g, e, r);
    if r !in GameStep(g, e).table.rooms {
      WinnerAgreement(g, e);
      At(g, r);
      var m, g' := g.table.rooms[r], GameStep(g, e);
      if g'.outbox == g.outbox + DrawAnnouncement(m) {
        DrawStops(g, g', m, u, p);
      } else {
        DecisionStops(g, g', r, HowOf(e), LoserOf(m, e), FailsOf(e), u, p);
      }
    }
  }

  lemma DrawStops(g: Game, g': Game, m: Room, u: UserId, p: Page)
    requires m.HasPlayer(u) && m.black != m.white && IsBoard(p.board) && g'.outbox == g.outbox + DrawAnnouncement(m)
    ensures !HandleAll(p, For(News(g, g'), u)).active
  {
    var over := DrawAnnouncement(m);
    Tail(g.outbox, over);
    assert News(g, g') == [] + over;
    OverStops(p, [], m.black, over[0].msg, m.white, over[1].msg, u);
  }

  lemma DecisionStops(g: Game, g': Game, r: RoomId, how: string, loser: UserId, fails: set<DbStep>, u: UserId, p: Page)
    requires DecidedAgainst(g, g', r, how, loser, fails) && g.table.rooms[r].HasPlayer(u) && IsBoard(p.board)
    requires g.outbox <= g'.outbox
    ensures !HandleAll(p, For(News(g, g'), u)).active
  {
    var m, winner, news := g.table.rooms[r], g'.ended[|g.ended|].winner, News(g, g');
    var over := Announcement(m, how, winner, loser);
    var before := news[..|news| - 2];
    assert news[|news| - 2..] == over;
    assert news == before + over;
    OverStops(p, before, winner, over[0].msg, loser, over[1].msg, u);
  }

  lemma EndedHere(g: Game, e: GameEvent, r: RoomId)
    requires GameInv(g) && Allowed(g, e) && r in g.table.rooms
    ensures BoardsOk(g)
    ensures r !in GameStep(g, e).table.rooms ==> |GameStep(g, e).ended| > |g.ended| && TargetId(g, e) == r
  {
    EndingCleansUp(g, e, r);
    if TargetId(g, e) != r {
      OtherRoomsUntouched(g, e, r);
    }
  }

  // Who asks for a game that is gone is told so, and the page stops, too.
  lemma PageStopsWithoutAGame(g: Game, u: UserId, p: Page)
    requires GameInv(g) && RoomOf(g.table, u).None? && IsBoard(p.board)
    ensures BoardsOk(g) && g.outbox <= Reconnect(g, u).outbox
    ensures HandleAll(p, For(News(g, Reconnect(g, u)), u)) == p.(active := false)
  {
    InvGivesBoards(g);
    Tail(g.outbox, [Sent(u, Error(4004))]);
    ForOne(u, Error(4004), u);
    HandleOne(p, Error(4004));
  }
}
