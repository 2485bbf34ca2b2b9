// The game controller as a state machine on values: rooms, timers, the user
// table, the messages sent, and one function per handler.
module Game {
  import opened Basics
  import opened Board
  import opened Rooms
  import opened RoomIndex
  import opened ScoreTable
  import opened Online
  import opened BoardText

  datatype Message =
    | GameStart(room: RoomId, opponent: UserId, color: Color, yourTurn: bool)
    | GameMove(row: int, col: int, color: Color, next: Option<Color>)
    | GameReconnect(room: RoomId, board: string, current: Color, opponent: UserId)
    | ReconnectAccepted(room: RoomId, color: Color)
    | OpponentDisconnected
    | OpponentReconnected
    | GameOver(result: string, reason: string, winner: UserId, scoreChange: int)
    | Error(code: int)

  datatype Sent = Sent(to: UserId, msg: Message)

  // One finished room.  (0, 0) stands for no winner and no loser.
  datatype Ended = Ended(birth: nat, room: RoomId, result: GameResult, winner: UserId, loser: UserId)

  // `ended` is a history variable.  A timer is armed for a room when the room
  // is a key of the timer map; what the timer does when it fires is
  // TurnFires and LostFires below.
  datatype Game = Game(
    table: Table,
    online: Users,
    turnTimers: set<RoomId>,
    lostTimers: set<RoomId>,
    rows: map<UserId, Row>,
    calls: nat,
    outbox: seq<Sent>,
    ended: seq<Ended>)

  function EmptyGame(rows: map<UserId, Row>): Game {
    Game(Table(map[], map[], 0), map[], {}, {}, rows, 0, [], [])
  }

  // ----- small parts -----

  function Send(g: Game, to: UserId, msg: Message): Game {
    g.(outbox := g.outbox + [Sent(to, msg)])
  }

  // To both players of a room, the black one first; nothing if it is gone.
  function Broadcast(g: Game, id: RoomId, msg: Message): Game {
    if id !in g.table.rooms then g else
    g.(outbox := g.outbox + [Sent(g.table.rooms[id].black, msg), Sent(g.table.rooms[id].white, msg)])
  }

  function Change(g: Game, id: RoomId, m: Room): Game {
    g.(table := Update(g.table, id, m))
  }

  // The colour shown in messages; the program asks only for players.
  function ShownColor(m: Room, u: UserId): Color {
    if m.ColorOf(u) == Some(Black) then Black else White
  }

  function ResultText(m: Room, result: GameResult, winner: UserId, loser: UserId): string {
    match result
    case BlackWin => "black_win"
    case WhiteWin => "white_win"
    case Draw => "draw"
    case Timeout =>
      if winner == m.Opponent(loser) then
        if m.ColorOf(winner) == Some(Black) then "black_win" else "white_win"
      else "timeout"
    case GaveUp =>
      if winner == m.Opponent(loser) then
        if m.ColorOf(winner) == Some(Black) then "black_win" else "white_win"
      else "giveup"
    case _ => "unknown"
  }

  function ReasonText(result: GameResult): string {
    match result
    case BlackWin => "five_in_row"
    case WhiteWin => "five_in_row"
    case Draw => "board_full"
    case Timeout => "timeout"
    case GaveUp => "giveup"
    case _ => "unknown"
  }

  function StopTimers(g: Game, id: RoomId): Game {
    g.(turnTimers := g.turnTimers - {id}, lostTimers := g.lostTimers - {id})
  }

  function Farewell(m: Room, result: GameResult, winner: UserId, loser: UserId): seq<Sent> {
    var text := ResultText(m, result, winner, loser);
    var reason := ReasonText(result);
    if winner != 0 && loser != 0 then
      [Sent(winner, GameOver(text, reason, winner, 25)), Sent(loser, GameOver(text, reason, winner, -15))]
    else
      [Sent(m.black, GameOver(text, reason, winner, 0)), Sent(m.white, GameOver(text, reason, winner, 0))]
  }

  // The common end of every game: timers, result, score, messages, status of
  // both players, and the room itself.
  function EndGame(g: Game, id: RoomId, result: GameResult, winner: UserId, loser: UserId, fails: set<DbStep>): Game {
    var g1 := StopTimers(g, id);
    if id !in g.table.rooms then g1 else
    var m := g.table.rooms[id];
    var scored := winner != 0 && loser != 0;
    g1.(
      table := Destroy(g.table, id),
      online := WithStatus(WithStatus(g.online, m.black, HallIdle), m.white, HallIdle),
      rows := if scored then UpdateScore(g.rows, winner, loser, 25, 15, fails) else g.rows,
      calls := if scored then g.calls + 1 else g.calls,
      outbox := g.outbox + Farewell(m, result, winner, loser),
      ended := g.ended + [Ended(m.birth, id, result, winner, loser)])
  }

  // ----- the handlers -----

  // Note that each player's game.start carries the player's own id as the
  // opponent's, as the program has it.
  function Start(g: Game, p1: UserId, p2: UserId, newId: RoomId): (Game, RoomId) {
    var (t, id) := Create(g.table, p1, p2, newId);
    if id == "" then (g, "") else
    (g.(
      table := t,
      online := WithStatus(WithStatus(g.online, p1, InRoom), p2, InRoom),
      outbox := g.outbox + [Sent(p1, GameStart(id, p1, Black, true)), Sent(p2, GameStart(id, p2, White, false))],
      turnTimers := g.turnTimers + {id}), id)
  }

  ghost function Move(g: Game, u: UserId, row: int, col: int, fails: set<DbStep>): Game
    requires BoardsOk(g)
  {
    var at := RoomOf(g.table, u);
    if at.None? then Send(g, u, Error(4001)) else
    var (m, res) := PlacePiece(g.table.rooms[at.value], u, row, col);
    AfterMove(g, at.value, u, row, col, m, res, fails)
  }

  // What the controller does with the answer of the room.
  function AfterMove(g: Game, id: RoomId, u: UserId, row: int, col: int, m: Room, res: GameResult, fails: set<DbStep>): Game {
    var g1 := Change(g, id, m);
    if res == NoResult then Send(g1, u, Error(4002))
    else if res == MoveSuccess then
      Broadcast(g1, id, GameMove(row, col, ShownColor(m, u), Some(ShownColor(m, m.CurrentTurn()))))
        .(turnTimers := g.turnTimers + {id})
    else if res == BlackWin || res == WhiteWin then
      var g2 := Broadcast(g1, id, GameMove(row, col, ShownColor(m, u), None));
      var (w, l) := if res == BlackWin then (m.black, m.white) else (m.white, m.black);
      EndGame(g2, id, res, w, l, fails)
    else if res == Draw then EndGame(g1, id, res, 0, 0, fails)
    else g1
  }

  function Surrender(g: Game, u: UserId, fails: set<DbStep>): Game {
    var at := RoomOf(g.table, u);
    if at.None? then Send(g, u, Error(4001)) else
    var id := at.value;
    var (m, res) := Resign(g.table.rooms[id], u);
    var g1 := Change(g, id, m);
    if res == NoResult then Send(g1, u, Error(4003))
    else EndGame(g1, id, GaveUp, m.Opponent(u), u, fails)
  }

  function Lose(g: Game, u: UserId): Game {
    var at := RoomOf(g.table, u);
    if at.None? then g else
    var id := at.value;
    var m := g.table.rooms[id];
    if m.lost.Some? then g else
    var g1 := Change(g, id, m.(lost := Some(u)))
      .(turnTimers := g.turnTimers - {id}, lostTimers := g.lostTimers + {id});
    if m.Opponent(u) > 0 then Send(g1, m.Opponent(u), OpponentDisconnected) else g1
  }

  // The flag of a player who came back is cleared and the timers swap.
  function Welcome(g: Game, id: RoomId, u: UserId): Game
    requires id in g.table.rooms
  {
    var m := g.table.rooms[id];
    if m.lost != Some(u) then g else
    var g1 := Change(g, id, m.(lost := None)).(lostTimers := g.lostTimers - {id}, turnTimers := g.turnTimers + {id});
    if m.Opponent(u) > 0 then Send(g1, m.Opponent(u), OpponentReconnected) else g1
  }

  function Snapshot(m: Room, id: RoomId, u: UserId): Message
    requires IsBoard(m.board)
  {
    GameReconnect(id, Encode(m.board), ShownColor(m, m.CurrentTurn()), m.Opponent(u))
  }

  function Reconnect(g: Game, u: UserId): Game
    requires BoardsOk(g)
  {
    var at := RoomOf(g.table, u);
    if at.None? then Send(g, u, Error(4004)) else
    var g1 := Welcome(g, at.value, u);
    Send(g1, u, Snapshot(g1.table.rooms[at.value], at.value, u))
  }

  function Accept(g: Game, u: UserId): Game {
    var at := RoomOf(g.table, u);
    if at.None? then Send(g, u, Error(4004)) else
    var g1 := Welcome(g, at.value, u);
    var g2 := g1.(online := WithStatus(g1.online, u, InRoom));
    Send(g2, u, ReconnectAccepted(at.value, ShownColor(g1.table.rooms[at.value], u)))
  }

  function Reject(g: Game, u: UserId, fails: set<DbStep>): Game {
    var at := RoomOf(g.table, u);
    if at.None? then Send(g, u, Error(4004)) else
    var id := at.value;
    var m := g.table.rooms[id];
    var g1 := Change(g, id, m.(lost := None)).(lostTimers := g.lostTimers - {id});
    EndGame(g1, id, GaveUp, m.Opponent(u), u, fails)
  }

  // A turn timer callback.  It may arrive at any time, for any room.
  function TurnFires(g: Game, id: RoomId, fails: set<DbStep>): Game {
    var g1 := g.(turnTimers := g.turnTimers - {id});
    if id in g.table.rooms && g.table.rooms[id].status == Playing && g.table.rooms[id].lost.None? then
      var m := g.table.rooms[id];
      EndGame(g1, id, Timeout, m.Opponent(m.CurrentTurn()), m.CurrentTurn(), fails)
    else g1
  }

  // A disconnect timer callback, likewise.
  function LostFires(g: Game, id: RoomId, fails: set<DbStep>): Game {
    var g1 := g.(lostTimers := g.lostTimers - {id});
    if id in g.table.rooms && g.table.rooms[id].status == Playing && g.table.rooms[id].lost.Some? then
      var m := g.table.rooms[id];
      var gone := m.lost.value;
      EndGame(Change(g1, id, m.(lost := None)), id, Timeout, m.Opponent(gone), gone, fails)
    else g1
  }

  function Cleanup(g: Game, u: UserId): Game {
    var at := RoomOf(g.table, u);
    if at.None? then g else
    var m := g.table.rooms[at.value];
    if m.status != Finished then g
    else if m.black !in g.online && m.white !in g.online then g.(table := Destroy(g.table, at.value))
    else g
  }

  predicate BoardsOk(g: Game) {
    forall r :: r in g.table.rooms ==> IsBoard(g.table.rooms[r].board)
  }

  // ----- events and runs -----

  datatype GameEvent =
    | EStart(p1: UserId, p2: UserId, newId: RoomId)
    | EMove(user: UserId, row: int, col: int, fails: set<DbStep>)
    | ESurrender(user: UserId, fails: set<DbStep>)
    | ELose(user: UserId)
    | EReconnect(user: UserId)
    | EAccept(user: UserId)
    | EReject(user: UserId, fails: set<DbStep>)
    | ETurnFires(id: RoomId, fails: set<DbStep>)
    | ELostFires(id: RoomId, fails: set<DbStep>)
    | ECleanup(user: UserId)
    | EOnline(users: Users)  // other components change the status map

  ghost function GameStep(g: Game, e: GameEvent): Game
    requires BoardsOk(g)
  {
    match e
    case EStart(p1, p2, newId) => Start(g, p1, p2, newId).0
    case EMove(u, row, col, fails) => Move(g, u, row, col, fails)
    case ESurrender(u, fails) => Surrender(g, u, fails)
    case ELose(u) => Lose(g, u)
    case EReconnect(u) => Reconnect(g, u)
    case EAccept(u) => Accept(g, u)
    case EReject(u, fails) => Reject(g, u, fails)
    case ETurnFires(id, fails) => TurnFires(g, id, fails)
    case ELostFires(id, fails) => LostFires(g, id, fails)
    case ECleanup(u) => Cleanup(g, u)
    case EOnline(users) => g.(online := users)
  }

  // The matcher hands over two different users; the identifier generated for
  // the room is not in use.
  predicate Allowed(g: Game, e: GameEvent) {
    e.EStart? ==> e.p1 != e.p2 && e.p1 > 0 && e.p2 > 0 && e.newId !in g.table.rooms && e.newId != ""
  }
}
