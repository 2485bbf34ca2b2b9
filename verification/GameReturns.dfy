// What going away, coming back and starting over do and undo.
module GameReturns {
  import opened Basics
  import opened Rooms
  import opened RoomIndex
  import opened ScoreTable
  import opened Online
  import opened Game
  import opened GameProofs
  import opened GameTheorems
  import opened Replica

  // A player who goes and comes back by game.reconnect leaves the controller as
  // it was, but for what was said to both players.
  lemma ReturnUndoesLoss(g: Game, u: UserId, r: RoomId)
    requires GameInv(g) && RoomOf(g.table, u) == Some(r) && g.table.rooms[r].lost.None?
    ensures BoardsOk(g) && BoardsOk(Lose(g, u))
    ensures
      var m := g.table.rooms[r];
      Reconnect(Lose(g, u), u) == g.(outbox := g.outbox
        + [Sent(m.Opponent(u), OpponentDisconnected), Sent(m.Opponent(u), OpponentReconnected), Sent(u, Snapshot(m, r, u))])
  {
    At(g, r);
    BijectionMeans(g.table, u, r);
    LoseKeepsInv(g, u);
    InvGivesBoards(g);
    InvGivesBoards(Lose(g, u));
    LossThenWelcome(g, u, r);
    var m := g.table.rooms[r];
    var a, b := Sent(m.Opponent(u), OpponentDisconnected), Sent(m.Opponent(u), OpponentReconnected);
    assert (g.outbox + [a, b]) + [Sent(u, Snapshot(m, r, u))] == g.outbox + [a, b, Sent(u, Snapshot(m, r, u))];
  }

  lemma LossThenWelcome(g: Game, u: UserId, r: RoomId)
    requires GameInv(g) && RoomOf(g.table, u) == Some(r) && g.table.rooms[r].lost.None?
    requires g.table.rooms[r].Opponent(u) > 0 && r in g.turnTimers && r !in g.lostTimers
    ensures r in Lose(g, u).table.rooms
    ensures
      var m := g.table.rooms[r];
      Welcome(Lose(g, u), r, u) == g.(outbox := g.outbox
        + [Sent(m.Opponent(u), OpponentDisconnected), Sent(m.Opponent(u), OpponentReconnected)])
  {
    var m := g.table.rooms[r];
    var g1 := Lose(g, u);
    var g2 := Welcome(g1, r, u);
    var a, b := Sent(m.Opponent(u), OpponentDisconnected), Sent(m.Opponent(u), OpponentReconnected);
    assert m.(lost := Some(u)).(lost := None) == m;
    assert g2.table.rooms == g.table.rooms[r := m.(lost := Some(u))][r := m] == g.table.rooms;
    assert g2.turnTimers == g.turnTimers && g2.lostTimers == g.lostTimers;
    assert g.outbox + [a] + [b] == g.outbox + [a, b];
  }

  // The same through reconnect.accept, which also puts the player into the room.
  lemma AcceptUndoesLoss(g: Game, u: UserId, r: RoomId)
    requires GameInv(g) && RoomOf(g.table, u) == Some(r) && g.table.rooms[r].lost.None?
    ensures
      var g' := Accept(Lose(g, u), u);
      && g'.table == g.table && g'.turnTimers == g.turnTimers && g'.lostTimers == g.lostTimers
      && g'.online == WithStatus(g.online, u, InRoom)
      && g'.rows == g.rows && g'.calls == g.calls && g'.ended == g.ended
  {
    At(g, r);
    BijectionMeans(g.table, u, r);
    LossThenWelcome(g, u, r);
  }

  // While one player is away, the absence of the other one goes unnoticed.
  lemma SecondAbsenceIsIgnored(g: Game, u: UserId, v: UserId, r: RoomId)
    requires GameInv(g) && RoomOf(g.table, v) == Some(r) && RoomOf(Lose(g, u).table, u) == Some(r)
    ensures Lose(Lose(g, u), v) == Lose(g, u)
    ensures g.table.rooms[r].lost.None? ==> Lose(g, u).table.rooms[r].lost == Some(u)
  {
  }

  // Only the player who is away can clear the flag.
  predicate ComesBack(e: GameEvent, u: UserId) {
    e == EReconnect(u) || e == EAccept(u)
  }

  predicate Away(g: Game, r: RoomId, u: UserId) {
    r in g.table.rooms ==> g.table.rooms[r].lost == Some(u)
  }

  lemma StaysAway(g: Game, e: GameEvent, r: RoomId, u: UserId)
    requires GameInv(g) && Allowed(g, e) && r in g.table.rooms && Away(g, r, u) && !ComesBack(e, u)
    ensures BoardsOk(g) && Away(GameStep(g, e), r, u)
  {
    InvGivesBoards(g);
    if TargetId(g, e) != r {
      OtherRoomsUntouched(g, e, r);
    } else if e.EMove? {
      TurnTimerAfterMove(g, e.user, r, e.row, e.col, e.fails);
    } else {
      StaysAwayHere(g, e, r, u);
    }
  }

  lemma StaysAwayHere(g: Game, e: GameEvent, r: RoomId, u: UserId)
    requires GameInv(g) && Allowed(g, e) && r in g.table.rooms && Away(g, r, u) && !ComesBack(e, u)
    requires TargetId(g, e) == r && !e.EMove? && BoardsOk(g)
    ensures Away(GameStep(g, e), r, u)
  {
    if e.ECleanup? {
      CleanupDoesNothing(g, e.user);
    }
  }

  // Whatever happens in between - moves, the other player's absence and return,
  // timers, other games - a room that still lives is flagged for the same player
  // until that player comes back.
  lemma {:induction false} FlagLasts(g: Game, es: seq<GameEvent>, r: RoomId, u: UserId)
    requires GameInv(g) && RunOk(g, es) && r in g.table.rooms && Away(g, r, u)
    requires forall k :: 0 <= k < |es| ==> !ComesBack(es[k], u)
    requires r in GameRun(g, es).table.rooms && GameRun(g, es).table.rooms[r].birth == g.table.rooms[r].birth
    ensures GameRun(g, es).table.rooms[r].lost == Some(u)
    decreases |es|
  {
    if es != [] {
      GameStepKeepsInv(g, es[0]);
      ThereAllAlong(g, es, r);
      StaysAway(g, es[0], r, u);
      FlagLasts(GameStep(g, es[0]), es[1..], r, u);
    }
  }

  // After a move that leaves the room alive, the turn timer is armed exactly when
  // it was before or the move was acceptable, whether or not a player is away.
  lemma TurnTimerAfterMove(g: Game, u: UserId, r: RoomId, row: int, col: int, fails: set<DbStep>)
    requires GameInv(g) && RoomOf(g.table, u) == Some(r)
    ensures BoardsOk(g)
    ensures
      var g' := Move(g, u, row, col, fails);
      r in g'.table.rooms ==>
        && (r in g'.turnTimers <==> r in g.turnTimers || Accepts(g.table.rooms[r], u, row, col))
        && g'.table.rooms[r].lost == g.table.rooms[r].lost && (r in g'.lostTimers <==> r in g.lostTimers)
  {
    At(g, r);
    InvGivesBoards(g);
    var (m, res) := PlacePiece(g.table.rooms[r], u, row, col);
    AnswerForetold(g.table.rooms[r], u, row, col);
    TimersAfterMove(g, r, u, row, col, m, res, fails);
  }

  lemma TimersAfterMove(g: Game, r: RoomId, u: UserId, row: int, col: int, m: Room, res: GameResult, fails: set<DbStep>)
    requires r in g.table.rooms && m.lost == g.table.rooms[r].lost
    ensures
      var g' := AfterMove(g, r, u, row, col, m, res, fails);
      r in g'.table.rooms ==>
        && res !in {BlackWin, WhiteWin, Draw}
        && (r in g'.turnTimers <==> r in g.turnTimers || res == MoveSuccess)
        && g'.table.rooms[r].lost == g.table.rooms[r].lost && (r in g'.lostTimers <==> r in g.lostTimers)
  {
  }

  // A game is refused exactly when one of the two already plays, and then nothing
  // happens.
  lemma StartRefusedIff(g: Game, p1: UserId, p2: UserId, id: RoomId)
    requires GameInv(g) && Allowed(g, EStart(p1, p2, id))
    ensures
      var (g', answer) := Start(g, p1, p2, id);
      && (answer == "" <==> RoomOf(g.table, p1).Some? || RoomOf(g.table, p2).Some?)
      && (if answer == "" then g' == g else answer == id)
  {
    if p1 in g.table.users {
      BijectionMeans(g.table, p1, g.table.users[p1]);
    }
    if p2 in g.table.users {
      BijectionMeans(g.table, p2, g.table.users[p2]);
    }
  }

  // Otherwise both get their seats, black begins, and who is online is in a room.
  lemma StartSeatsBoth(g: Game, p1: UserId, p2: UserId, id: RoomId)
    requires GameInv(g) && Allowed(g, EStart(p1, p2, id)) && Start(g, p1, p2, id).1 != ""
    ensures
      var g' := Start(g, p1, p2, id).0;
      && RoomOf(g'.table, p1) == Some(id) && RoomOf(g'.table, p2) == Some(id)
      && g'.table.rooms[id].black == p1 && g'.table.rooms[id].white == p2 && g'.table.rooms[id].CurrentTurn() == p1
      && (p1 in g.online ==> g'.online[p1] == InRoom) && (p2 in g.online ==> g'.online[p2] == InRoom)
      && id in g'.turnTimers && id !in g'.lostTimers
  {
    assert id in g.lostTimers ==> TimersFit(g.table.rooms, g.turnTimers, g.lostTimers, id);
  }

  // Once a game is over its players are free: they may be started again.
  lemma PlayersAreFreeAfterwards(g: Game, id: RoomId, res: GameResult, w: UserId, l: UserId, fails: set<DbStep>, p1: UserId, p2: UserId, newId: RoomId)
    requires GameInv(g) && id in g.table.rooms
    requires {p1, p2} == {g.table.rooms[id].black, g.table.rooms[id].white}
    requires newId != ""
    ensures
      var g' := EndGame(g, id, res, w, l, fails);
      && Start(g', p1, p2, newId).1 == newId
      && (p1 in g.online ==> g'.online[p1] == HallIdle) && (p2 in g.online ==> g'.online[p2] == HallIdle)
  {
    DestroyRemovesItsPlayers(g.table, id);
    assert p1 in {p1, p2} && p2 in {p1, p2};
  }
}
