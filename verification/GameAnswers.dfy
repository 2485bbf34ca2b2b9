// What the players are told by each operation that does not end their game.
module GameAnswers {
  import opened Basics
  import opened Board
  import opened Rooms
  import opened RoomIndex
  import opened ScoreTable
  import opened Game
  import opened GameProofs

  // The state after one more message and nothing else.
  function Told(g: Game, to: UserId, msg: Message): Game {
    g.(outbox := g.outbox + [Sent(to, msg)])
  }

  // ----- refusals -----

  // Who plays in no room is told so, and nothing else happens.
  lemma WithoutARoom(g: Game, u: UserId, row: int, col: int, fails: set<DbStep>)
    requires GameInv(g) && RoomOf(g.table, u).None?
    ensures BoardsOk(g)
    ensures Move(g, u, row, col, fails) == Told(g, u, Error(4001))
    ensures Surrender(g, u, fails) == Told(g, u, Error(4001))
    ensures Reconnect(g, u) == Accept(g, u) == Reject(g, u, fails) == Told(g, u, Error(4004))
    ensures Lose(g, u) == g
  {
    InvGivesBoards(g);
  }

  // A move is refused exactly when it is not the player's turn, or the cell is not
  // a free one on the board; then the player is told so and nothing else happens.
  // A move after which the game goes on is shown to black and then to white, with
  // the colours of the player who moved and of the one who is next.
  lemma MoveAnswers(g: Game, u: UserId, r: RoomId, row: int, col: int, fails: set<DbStep>)
    requires GameInv(g) && RoomOf(g.table, u) == Some(r)
    ensures BoardsOk(g)
    ensures
      var m := g.table.rooms[r];
      var g' := Move(g, u, row, col, fails);
      var legal := u == m.CurrentTurn() && 0 <= row < 15 && 0 <= col < 15 && m.board[row][col] == 0;
      && (!legal ==> g' == Told(g, u, Error(4002)))
      && (legal && r in g'.table.rooms ==>
        var stone := if u == m.black then GameMove(row, col, Black, Some(White)) else GameMove(row, col, White, Some(Black));
        g'.outbox == g.outbox + [Sent(m.black, stone), Sent(m.white, stone)])
  {
    At(g, r);
    InvGivesBoards(g);
    BijectionMeans(g.table, u, r);
    var m := g.table.rooms[r];
    var (m', res) := PlacePiece(m, u, row, col);
    AnswerForetold(m, u, row, col);
    AcceptsMeans(m, u, row, col);
    if res == NoResult {
      assert g.table.rooms[r := m] == g.table.rooms;
    } else {
      assert m.HasPlayer(u) && m'.black == m.black && m'.white == m.white;
      MoveNews(g, r, u, row, col, m', res, fails);
      TurnPasses(m, u, row, col);
    }
  }

  // A winning move is shown to black and to white with nobody next, and then both
  // are told the result.
  lemma WinAnswers(g: Game, u: UserId, r: RoomId, row: int, col: int, fails: set<DbStep>)
    requires GameInv(g) && RoomOf(g.table, u) == Some(r) && IsBoard(g.table.rooms[r].board)
    requires Accepts(g.table.rooms[r], u, row, col) && MakesFive(g.table.rooms[r], u, row, col)
    ensures BoardsOk(g)
    ensures
      var m := g.table.rooms[r];
      var stone := GameMove(row, col, if u == m.black then Black else White, None);
      var text := if u == m.black then "black_win" else "white_win";
      Move(g, u, row, col, fails).outbox == g.outbox
        + [Sent(m.black, stone), Sent(m.white, stone)]
        + [Sent(u, GameOver(text, "five_in_row", u, 25)), Sent(m.Opponent(u), GameOver(text, "five_in_row", u, -15))]
  {
    At(g, r);
    InvGivesBoards(g);
    var m := g.table.rooms[r];
    var (m', res) := PlacePiece(m, u, row, col);
    AnswerForetold(m, u, row, col);
    WinNamesMover(m, u, row, col);
    WinNews(g, r, u, row, col, m', res, fails);
  }

  lemma WinNamesMover(m: Room, u: UserId, row: int, col: int)
    requires LiveRoom(m) && Accepts(m, u, row, col) && MakesFive(m, u, row, col)
    ensures
      var (m', res) := PlacePiece(m, u, row, col);
      && m'.black == m.black && m'.white == m.white && ShownColor(m', u) == (if u == m.black then Black else White)
      && res == (if u == m.black then BlackWin else WhiteWin)
      && u == (if u == m.black then m.black else m.white) && m.Opponent(u) == (if u == m.black then m.white else m.black)
  {
  }

  lemma WinNews(g: Game, r: RoomId, u: UserId, row: int, col: int, m: Room, res: GameResult, fails: set<DbStep>)
    requires r in g.table.rooms && m.black > 0 && m.white > 0 && (res == BlackWin || res == WhiteWin)
    ensures
      var stone := GameMove(row, col, ShownColor(m, u), None);
      var (w, l) := if res == BlackWin then (m.black, m.white) else (m.white, m.black);
      var text := if res == BlackWin then "black_win" else "white_win";
      AfterMove(g, r, u, row, col, m, res, fails).outbox == g.outbox
        + [Sent(m.black, stone), Sent(m.white, stone)]
        + [Sent(w, GameOver(text, "five_in_row", w, 25)), Sent(l, GameOver(text, "five_in_row", w, -15))]
  {
  }

  lemma AcceptsMeans(m: Room, u: UserId, row: int, col: int)
    requires LiveRoom(m)
    ensures Accepts(m, u, row, col) <==>
      u == m.CurrentTurn() && 0 <= row < 15 && 0 <= col < 15 && m.board[row][col] == 0
  {
  }

  lemma TurnPasses(m: Room, u: UserId, row: int, col: int)
    requires LiveRoom(m) && Accepts(m, u, row, col)
    ensures
      var (m', res) := PlacePiece(m, u, row, col);
      res == MoveSuccess ==>
        && ShownColor(m', u) == (if u == m.black then Black else White)
        && ShownColor(m', m'.CurrentTurn()) == (if u == m.black then White else Black)
  {
  }

  lemma MoveNews(g: Game, r: RoomId, u: UserId, row: int, col: int, m: Room, res: GameResult, fails: set<DbStep>)
    requires r in g.table.rooms && res in {MoveSuccess, BlackWin, WhiteWin, Draw}
    ensures
      var g' := AfterMove(g, r, u, row, col, m, res, fails);
      r in g'.table.rooms ==> res == MoveSuccess
    ensures
      var msg := GameMove(row, col, ShownColor(m, u), Some(ShownColor(m, m.CurrentTurn())));
      res == MoveSuccess ==>
        AfterMove(g, r, u, row, col, m, res, fails).outbox == g.outbox + [Sent(m.black, msg), Sent(m.white, msg)]
  {
  }

  // ----- coming back -----

  // reconnect.accept tells the player the room and the player's own colour, and
  // the opponent, before that, that the player is back, if that was missing.
  lemma AcceptAnswers(g: Game, u: UserId, r: RoomId)
    requires GameInv(g) && RoomOf(g.table, u) == Some(r)
    ensures
      var m := g.table.rooms[r];
      var back := if m.lost == Some(u) then [Sent(m.Opponent(u), OpponentReconnected)] else [];
      var mine := ReconnectAccepted(r, if u == m.black then Black else White);
      Accept(g, u).outbox == g.outbox + back + [Sent(u, mine)]
  {
    At(g, r);
    BijectionMeans(g.table, u, r);
    var m := g.table.rooms[r];
    assert g.outbox + [] == g.outbox;
  }

  // A player who goes is flagged, and the opponent is told, exactly when nobody is
  // flagged yet.
  lemma LossAnswers(g: Game, u: UserId, r: RoomId)
    requires GameInv(g) && RoomOf(g.table, u) == Some(r)
    ensures
      var m := g.table.rooms[r];
      var g' := Lose(g, u);
      if m.lost.Some? then g' == g
      else
        && g'.outbox == g.outbox + [Sent(m.Opponent(u), OpponentDisconnected)]
        && r in g'.table.rooms && g'.table.rooms[r] == m.(lost := Some(u))
        && r in g'.lostTimers && r !in g'.turnTimers
        && g'.table.users == g.table.users && g'.online == g.online && g'.rows == g.rows && g'.ended == g.ended
  {
    At(g, r);
    BijectionMeans(g.table, u, r);
  }

  // ----- clean-up -----

  // A room of which somebody closes the page is destroyed if and only if it is
  // finished and both players are offline; nothing else is touched.
  lemma CleanupIff(g: Game, u: UserId, r: RoomId)
    requires RoomOf(g.table, u) == Some(r)
    ensures
      var m := g.table.rooms[r];
      && (r !in Cleanup(g, u).table.rooms <==> m.status == Finished && m.black !in g.online && m.white !in g.online)
      && (r in Cleanup(g, u).table.rooms ==> Cleanup(g, u) == g)
      && Cleanup(g, u).outbox == g.outbox
  {
  }
}
