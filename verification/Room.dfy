// One game room: its board, its two players, whose turn it is, its status and
// result, and the mark of a disconnected player.
module Rooms {
  import opened Basics
  import opened Board
  import opened BoardText

  type RoomId = string

  datatype Color = Black | White
  datatype RoomStatus = Waiting | Playing | Finished
  datatype GameResult = NoResult | BlackWin | WhiteWin | Draw | Timeout | GaveUp | MoveSuccess

  function Opposite(c: Color): Color {
    if c == Black then White else Black
  }

  function StoneOf(c: Color): (v: int)
    ensures 1 <= v <= 2
  {
    if c == Black then 1 else 2
  }

  function WinFor(c: Color): GameResult {
    if c == Black then BlackWin else WhiteWin
  }

  // `birth` is a history variable: the sequence number with which the room was
  // created.  The program itself does not store it.  `lost` is the player
  // marked as disconnected, if any.
  datatype Room = Room(
    id: RoomId,
    birth: nat,
    black: UserId,
    white: UserId,
    status: RoomStatus,
    result: GameResult,
    board: Cells,
    turn: int,
    moves: int,
    lost: Option<UserId>)
  {
    function PlayerIndex(u: UserId): int {
      if u == black then 0 else if u == white then 1 else -1
    }

    predicate HasPlayer(u: UserId) {
      PlayerIndex(u) >= 0
    }

    function PlayerAt(i: int): UserId {
      if i == 0 then black else white
    }

    function ColorAt(i: int): Color {
      if i == 0 then Black else White
    }

    function ColorOf(u: UserId): Option<Color> {
      if HasPlayer(u) then Some(ColorAt(PlayerIndex(u))) else None
    }

    // The other player; 0 for somebody who does not play here.
    function Opponent(u: UserId): UserId {
      if HasPlayer(u) then PlayerAt(1 - PlayerIndex(u)) else 0
    }

    // Whose turn it is; 0 once the room is no longer being played.
    function CurrentTurn(): UserId {
      if status != Playing then 0 else PlayerAt(turn)
    }
  }

  function NewRoom(id: RoomId, birth: nat, p1: UserId, p2: UserId): Room {
    Room(id, birth, p1, p2, Playing, NoResult, Blank(), 0, 0, None)
  }

  // ----- the operations as functions -----

  predicate Accepts(m: Room, u: UserId, r: int, c: int)
    requires IsBoard(m.board)
  {
    m.status == Playing && m.HasPlayer(u) && m.PlayerIndex(u) == m.turn && OnBoard(r, c) && m.board[r][c] == 0
  }

  // The room after the stone is down, before its status and turn are settled.
  function Dropped(m: Room, u: UserId, r: int, c: int): Room
    requires IsBoard(m.board) && Accepts(m, u, r, c)
  {
    m.(board := Put(m.board, r, c, StoneOf(m.ColorAt(m.PlayerIndex(u)))), moves := m.moves + 1)
  }

  // Win, draw or next turn, after a stone of the given colour landed on (r, c).
  ghost function Settled(m: Room, color: Color, r: int, c: int): (Room, GameResult)
    requires IsBoard(m.board)
  {
    if FiveThrough(m.board, StoneOf(color), r, c) then
      (m.(status := Finished, result := WinFor(color)), WinFor(color))
    else if m.moves >= FULL then
      (m.(status := Finished, result := Draw), Draw)
    else
      (m.(turn := 1 - m.turn), MoveSuccess)
  }

  ghost function PlacePiece(m: Room, u: UserId, r: int, c: int): (Room, GameResult)
    requires IsBoard(m.board)
  {
    if !Accepts(m, u, r, c) then (m, NoResult)
    else Settled(Dropped(m, u, r, c), m.ColorAt(m.PlayerIndex(u)), r, c)
  }

  function Resign(m: Room, u: UserId): (Room, GameResult) {
    if m.status != Playing || !m.HasPlayer(u) then (m, NoResult) else
    var res := WinFor(Opposite(m.ColorAt(m.PlayerIndex(u))));
    (m.(status := Finished, result := res), res)
  }

  function SetGameOver(m: Room, result: GameResult): Room {
    m.(status := Finished, result := result)
  }

  // ----- what every room satisfies -----

  ghost predicate RoomInv(m: Room) {
    && IsBoard(m.board)
    && m.black != m.white
    && 0 <= m.turn <= 1
    && 0 <= m.moves <= FULL
    && Count(m.board, 1) == (m.moves + 1) / 2
    && Count(m.board, 2) == m.moves / 2
    && (m.status == Playing ==>
      && m.result == NoResult
      && m.turn == m.moves % 2
      && m.moves < FULL
      && !HasFive(m.board, 1)
      && !HasFive(m.board, 2))
  }

  lemma NewRoomInv(id: RoomId, birth: nat, p1: UserId, p2: UserId)
    requires p1 != p2
    ensures RoomInv(NewRoom(id, birth, p1, p2))
  {
    BlankBoard();
  }

  // The scan around the last stone decides the whole-board question: an
  // accepted move wins exactly when the new board has a five of the mover's
  // colour anywhere.  The opponent never gets a five out of it.
  lemma WinIsExact(m: Room, u: UserId, r: int, c: int)
    requires RoomInv(m) && Accepts(m, u, r, c)
    ensures
      var (m', res) := PlacePiece(m, u, r, c);
      var mine := m.ColorAt(m.turn);
      && (res == WinFor(mine) <==> HasFive(m'.board, StoneOf(mine)))
      && !HasFive(m'.board, StoneOf(Opposite(mine)))
      && res != WinFor(Opposite(mine))
  {
    var mine := m.ColorAt(m.turn);
    NewFiveGoesThroughNewStone(m.board, r, c, StoneOf(mine));
    NoFiveForTheOther(m.board, r, c, StoneOf(mine), StoneOf(Opposite(mine)));
  }

  lemma PlacePieceKeepsInv(m: Room, u: UserId, r: int, c: int)
    requires RoomInv(m)
    ensures RoomInv(PlacePiece(m, u, r, c).0)
  {
    if Accepts(m, u, r, c) {
      WinIsExact(m, u, r, c);
      var v := StoneOf(m.ColorAt(m.turn));
      CountUpdate(m.board, r, c, v, 1);
      CountUpdate(m.board, r, c, v, 2);
    }
  }

  // A draw is declared only on a full board that holds no five.
  lemma DrawMeansFullBoardWithoutFive(m: Room, u: UserId, r: int, c: int)
    requires RoomInv(m)
    ensures
      var (m', res) := PlacePiece(m, u, r, c);
      res == Draw <==>
        && Accepts(m, u, r, c)
        && (forall i, j :: OnBoard(i, j) ==> m'.board[i][j] != 0)
        && !HasFive(m'.board, 1) && !HasFive(m'.board, 2)
  {
    var (m', res) := PlacePiece(m, u, r, c);
    if Accepts(m, u, r, c) {
      WinIsExact(m, u, r, c);
      PlacePieceKeepsInv(m, u, r, c);
      CountTotal(m'.board);
      CountFinds(m'.board, 0);
      if m'.moves < FULL {
        var i :| 0 <= i < |m'.board| && 0 in m'.board[i];
        var j :| 0 <= j < SIZE && m'.board[i][j] == 0;
        assert OnBoard(i, j);
      }
    }
  }

  // Whether an accepted stone of u on (r, c) makes a five, seen before the move.
  ghost predicate MakesFive(m: Room, u: UserId, r: int, c: int)
    requires IsBoard(m.board) && Accepts(m, u, r, c)
  {
    FiveThrough(Dropped(m, u, r, c).board, StoneOf(m.ColorAt(m.turn)), r, c)
  }

  // The answer of place_piece, foretold from the room before the move.
  lemma AnswerForetold(m: Room, u: UserId, r: int, c: int)
    requires RoomInv(m)
    ensures
      var (m', res) := PlacePiece(m, u, r, c);
      if !Accepts(m, u, r, c) then res == NoResult && m' == m
      else if MakesFive(m, u, r, c) then res == WinFor(m.ColorAt(m.turn)) && m'.status == Finished
      else if m.moves == FULL - 1 then res == Draw && m'.status == Finished
      else res == MoveSuccess && m'.status == Playing
  {
  }

  // Giving up a game that is on makes the other colour win; anything else is
  // refused and changes nothing.
  lemma GiveUpIsExact(m: Room, u: UserId)
    requires RoomInv(m)
    ensures
      var (m', res) := Resign(m, u);
      if m.status == Playing && u == m.black then m' == m.(status := Finished, result := WhiteWin) && res == WhiteWin
      else if m.status == Playing && u == m.white then m' == m.(status := Finished, result := BlackWin) && res == BlackWin
      else m' == m && res == NoResult
  {
  }

  // As long as a room is being played there is a cell to play on.
  lemma PlayingRoomHasEmptyCell(m: Room)
    requires RoomInv(m) && m.status == Playing
    ensures exists r, c :: OnBoard(r, c) && Accepts(m, m.CurrentTurn(), r, c)
  {
    CountTotal(m.board);
    CountFinds(m.board, 0);
    var r :| 0 <= r < |m.board| && 0 in m.board[r];
    var c :| 0 <= c < SIZE && m.board[r][c] == 0;
    assert OnBoard(r, c) && Accepts(m, m.CurrentTurn(), r, c);
  }

  // ----- runs -----

  datatype RoomEvent =
    | Place(user: UserId, row: int, col: int)
    | GiveUp(user: UserId)
    | Over(result: GameResult)
    | Mark(user: UserId)
    | Clear

  ghost function Step(m: Room, e: RoomEvent): Room
    requires IsBoard(m.board)
  {
    match e
    case Place(u, r, c) => PlacePiece(m, u, r, c).0
    case GiveUp(u) => Resign(m, u).0
    case Over(res) => SetGameOver(m, res)
    case Mark(u) => m.(lost := Some(u))
    case Clear => m.(lost := None)
  }

  ghost function AcceptedBy(m: Room, e: RoomEvent): nat
    requires IsBoard(m.board)
  {
    if e.Place? && Accepts(m, e.user, e.row, e.col) then 1 else 0
  }

  lemma StepKeepsInv(m: Room, e: RoomEvent)
    requires RoomInv(m)
    ensures RoomInv(Step(m, e))
    ensures Step(m, e).moves == m.moves + AcceptedBy(m, e)
    ensures forall r, c :: OnBoard(r, c) && m.board[r][c] != 0 ==> Step(m, e).board[r][c] == m.board[r][c]
    ensures m.status != Playing ==> Step(m, e).status != Playing
  {
    if e.Place? {
      PlacePieceKeepsInv(m, e.user, e.row, e.col);
    }
  }

  ghost function Run(m: Room, es: seq<RoomEvent>): (m': Room)
    requires RoomInv(m)
    ensures RoomInv(m')
    decreases |es|
  {
    if es == [] then m else
    StepKeepsInv(m, es[0]);
    Run(Step(m, es[0]), es[1..])
  }

  ghost function AcceptedIn(m: Room, es: seq<RoomEvent>): nat
    requires RoomInv(m)
    decreases |es|
  {
    if es == [] then 0 else
    StepKeepsInv(m, es[0]);
    AcceptedBy(m, es[0]) + AcceptedIn(Step(m, es[0]), es[1..])
  }

  // Over every run of a room: stones are never moved or removed, every accepted
  // move adds one stone, and so at most 225 moves are ever accepted; black and
  // white alternate, black having played ceil(n/2) and white floor(n/2) of them.
  lemma {:induction false} WholeGame(m: Room, es: seq<RoomEvent>)
    requires RoomInv(m)
    ensures
      var m' := Run(m, es);
      && m'.moves == m.moves + AcceptedIn(m, es)
      && AcceptedIn(m, es) <= FULL - m.moves
      && Count(m'.board, 1) == (m'.moves + 1) / 2
      && Count(m'.board, 2) == m'.moves / 2
      && (forall r, c :: OnBoard(r, c) && m.board[r][c] != 0 ==> m'.board[r][c] == m.board[r][c])
      && (m'.status == Playing ==> m.status == Playing && !HasFive(m'.board, 1) && !HasFive(m'.board, 2))
    decreases |es|
  {
    if es != [] {
      StepKeepsInv(m, es[0]);
      WholeGame(Step(m, es[0]), es[1..]);
    }
  }

  // ----- the room object -----

  class GameRoom {
    const id: RoomId
    const board: array2<int>
    const players: seq<UserId>
    var status: RoomStatus
    var result: GameResult
    var turn: int
    var moves: int
    var lost: Option<UserId>
    ghost const birth: nat

    ghost predicate Valid()
      reads this, board
    {
      IsGrid(board) && |players| == 2 && 0 <= turn <= 1
    }

    ghost function State(): Room
      requires Valid()
      reads this, board
    {
      Room(id, birth, players[0], players[1], status, result, CellsOf(board), turn, moves, lost)
    }

    constructor (roomId: RoomId, player1: UserId, player2: UserId, ghost seqNo: nat)
      ensures Valid() && fresh(board)
      ensures State() == NewRoom(roomId, seqNo, player1, player2)
    {
      id := roomId;
      board := new int[SIZE, SIZE]((r, c) => 0);
      players := [player1, player2];
      status := Playing;
      result := NoResult;
      turn := 0;
      moves := 0;
      lost := None;
      birth := seqNo;
      new;
      SameCells(CellsOf(board), Blank());
    }

    method FindPlayerIndex(u: UserId) returns (i: int)
      requires Valid()
      ensures i == State().PlayerIndex(u)
    {
      if players[0] == u {
        return 0;
      }
      if players[1] == u {
        return 1;
      }
      return -1;
    }

    // Counts the stones of colour v next to (row, col), at most four steps away
    // in direction d or, when back is set, against it.
    method Walk(row: int, col: int, v: int, d: int, back: bool) returns (n: int)
      requires Valid()
      ensures Reach(CellsOf(board), v, row, col, d, back, n)
    {
      n := 0;
      var step := 1;
      while step <= 4
        invariant 1 <= step <= 5 && n == step - 1
        invariant forall k :: 1 <= k <= n ==> StoneAt(CellsOf(board), v, row, col, d, Signed(back, k))
      {
        var r2 := RowAt(row, d, Signed(back, step));
        var c2 := ColAt(col, d, Signed(back, step));
        if r2 < 0 || r2 >= 15 || c2 < 0 || c2 >= 15 {
          break;
        }
        if board[r2, c2] != v {
          break;
        }
        n := n + 1;
        step := step + 1;
      }
    }

    method CheckWin(row: int, col: int, v: int) returns (win: bool)
      requires Valid() && Stone(CellsOf(board), v, row, col)
      ensures win <==> FiveThrough(CellsOf(board), v, row, col)
    {
      var d := 0;
      while d < 4
        invariant 0 <= d <= 4
        invariant forall e :: 0 <= e < d ==> !FiveThroughAlong(CellsOf(board), v, row, col, e)
      {
        var count := 1;
        var fwd := Walk(row, col, v, d, false);
        var bwd := Walk(row, col, v, d, true);
        count := count + fwd + bwd;
        ScanIsExact(CellsOf(board), v, row, col, d, fwd, bwd);
        if count >= 5 {
          ThroughHasDirection(CellsOf(board), v, row, col);
          return true;
        }
        d := d + 1;
      }
      ThroughHasDirection(CellsOf(board), v, row, col);
      return false;
    }

    method IsValidMove(row: int, col: int) returns (ok: bool)
      requires IsGrid(board)
      ensures ok <==> Stone(CellsOf(board), 0, row, col)
    {
      if row < 0 || row >= 15 || col < 0 || col >= 15 {
        return false;
      }
      return board[row, col] == 0;
    }

    // The second half of a move, once the stone is down: win, draw or next turn.
    method Settle(color: Color, row: int, col: int) returns (res: GameResult)
      requires Valid() && Stone(CellsOf(board), StoneOf(color), row, col)
      modifies this
      ensures Valid()
      ensures (State(), res) == Settled(old(State()), color, row, col)
    {
      var win := CheckWin(row, col, StoneOf(color));
      if win {
        status := Finished;
        result := if color == Black then BlackWin else WhiteWin;
        return result;
      }
      if moves >= 225 {
        status := Finished;
        result := Draw;
        return result;
      }
      turn := 1 - turn;
      return MoveSuccess;
    }

    method Place(u: UserId, row: int, col: int) returns (res: GameResult)
      requires Valid()
      modifies this, board
      ensures Valid()
      ensures (State(), res) == PlacePiece(old(State()), u, row, col)
    {
      if status != Playing {
        return NoResult;
      }
      var idx := FindPlayerIndex(u);
      if idx < 0 || idx != turn {
        return NoResult;
      }
      var free := IsValidMove(row, col);
      if !free {
        return NoResult;
      }
      var color := if idx == 0 then Black else White;
      SetCell(board, row, col, StoneOf(color));
      moves := moves + 1;
      res := Settle(color, row, col);
    }

    method GiveUp(u: UserId) returns (res: GameResult)
      requires Valid()
      modifies this
      ensures Valid()
      ensures (State(), res) == Resign(old(State()), u)
    {
      if status != Playing {
        return NoResult;
      }
      var idx := FindPlayerIndex(u);
      if idx < 0 {
        return NoResult;
      }
      status := Finished;
      result := if idx == 0 then WhiteWin else BlackWin;
      return result;
    }

    method EndWith(res: GameResult)
      requires Valid()
      modifies this
      ensures Valid()
      ensures State() == SetGameOver(old(State()), res)
    {
      status := Finished;
      result := res;
    }

    method MarkDisconnected(u: UserId)
      requires Valid()
      modifies this
      ensures Valid()
      ensures State() == old(State()).(lost := Some(u))
    {
      lost := Some(u);
    }

    method ClearDisconnected()
      requires Valid()
      modifies this
      ensures Valid()
      ensures State() == old(State()).(lost := None)
    {
      lost := None;
    }

    method OpponentOf(u: UserId) returns (o: UserId)
      requires Valid()
      ensures o == State().Opponent(u)
    {
      var idx := FindPlayerIndex(u);
      if idx < 0 {
        return 0;
      }
      return players[1 - idx];
    }

    method PlayerColor(u: UserId) returns (c: Option<Color>)
      requires Valid()
      ensures c == State().ColorOf(u)
    {
      var idx := FindPlayerIndex(u);
      if idx < 0 {
        return None;
      }
      return Some(if idx == 0 then Black else White);
    }

    method BoardText() returns (s: string)
      requires Valid()
      ensures s == Encode(CellsOf(board))
    {
      var buf := new char[FULL](i => '0');
      var r := 0;
      while r < 15
        invariant 0 <= r <= 15
        invariant forall i :: 0 <= i < r * SIZE ==> buf[i] == Encode(CellsOf(board))[i]
      {
        var c := 0;
        while c < 15
          invariant 0 <= c <= 15
          invariant forall i :: 0 <= i < r * SIZE + c ==> buf[i] == Encode(CellsOf(board))[i]
        {
          Index(r, c);
          buf[r * 15 + c] := Digit(board[r, c]);
          c := c + 1;
        }
        r := r + 1;
      }
      return buf[..];
    }

    method CurrentTurn() returns (u: UserId)
      requires Valid()
      ensures u == State().CurrentTurn()
    {
      if status != Playing {
        return 0;
      }
      return players[turn];
    }
  }
}
