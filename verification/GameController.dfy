// The controller object: it owns the room table, the status map, the user
// table, the outgoing messages and the two timer maps, and each of its methods
// does exactly what the function of the same event in module Game says.
module Controller {
  import opened Basics
  import opened Rooms
  import opened RoomIndex
  import opened RoomIds
  import opened ScoreTable
  import opened Online
  import opened Game

  class MessageSender {
    var log: seq<Sent>

    constructor ()
      ensures log == []
    {
      log := [];
    }

    method Send(to: UserId, msg: Message)
      modifies this
      ensures log == old(log) + [Sent(to, msg)]
    {
      log := log + [Sent(to, msg)];
    }

    method Broadcast(u1: UserId, u2: UserId, msg: Message)
      modifies this
      ensures log == old(log) + [Sent(u1, msg), Sent(u2, msg)]
    {
      Send(u1, msg);
      Send(u2, msg);
    }
  }

  class GameController {
    const rooms: RoomManager
    const online: OnlineManager
    const sender: MessageSender
    const users: UserTable
    var turnTimers: set<RoomId>
    var lostTimers: set<RoomId>
    ghost var ended: seq<Ended>

    ghost predicate Valid()
      reads this, rooms, rooms.Repr, online, sender, users
    {
      && rooms.Valid()
      && this !in rooms.Repr && rooms !in rooms.Repr && online !in rooms.Repr
      && sender !in rooms.Repr && users !in rooms.Repr
    }

    ghost function State(): (g: Game)
      requires Valid()
      reads this, rooms, rooms.Repr, online, sender, users
      ensures BoardsOk(g)
    {
      Game(rooms.State(), online.users, turnTimers, lostTimers, users.rows, users.calls, sender.log, ended)
    }

    constructor (onlineMgr: OnlineManager, userTable: UserTable)
      requires onlineMgr.users == map[] && userTable.calls == 0
      ensures Valid() && fresh(rooms) && fresh(sender) && rooms.Repr == {}
      ensures online == onlineMgr && users == userTable
      ensures State() == EmptyGame(userTable.rows)
    {
      rooms := new RoomManager();
      online := onlineMgr;
      sender := new MessageSender();
      users := userTable;
      turnTimers := {};
      lostTimers := {};
      ended := [];
    }

    // ----- single effects -----

    method SendTo(to: UserId, msg: Message)
      requires Valid()
      modifies sender
      ensures Valid() && State() == Send(old(State()), to, msg)
    {
      sender.Send(to, msg);
    }

    method SendToBoth(u1: UserId, u2: UserId, msg: Message)
      requires Valid()
      modifies sender
      ensures Valid() && State() == old(State()).(outbox := old(sender.log) + [Sent(u1, msg), Sent(u2, msg)])
    {
      sender.Broadcast(u1, u2, msg);
    }

    method BroadcastToRoom(id: RoomId, msg: Message)
      requires Valid()
      modifies sender
      ensures Valid() && State() == Broadcast(old(State()), id, msg)
    {
      var room := rooms.GetRoom(id);
      if room == null {
        return;
      }
      RoomView(room, id);
      SendToBoth(room.players[0], room.players[1], msg);
    }

    method StartTurnTimer(id: RoomId)
      requires Valid()
      modifies this`turnTimers
      ensures Valid() && State() == old(State()).(turnTimers := old(turnTimers) + {id})
    {
      turnTimers := turnTimers - {id};
      turnTimers := turnTimers + {id};
      assert turnTimers == old(turnTimers) + {id};
    }

    method StopTurnTimer(id: RoomId)
      requires Valid()
      modifies this`turnTimers
      ensures Valid() && State() == old(State()).(turnTimers := old(turnTimers) - {id})
    {
      turnTimers := turnTimers - {id};
    }

    method StartLostTimer(id: RoomId)
      requires Valid()
      modifies this`lostTimers
      ensures Valid() && State() == old(State()).(lostTimers := old(lostTimers) + {id})
    {
      lostTimers := lostTimers - {id};
      lostTimers := lostTimers + {id};
      assert lostTimers == old(lostTimers) + {id};
    }

    method StopLostTimer(id: RoomId)
      requires Valid()
      modifies this`lostTimers
      ensures Valid() && State() == old(State()).(lostTimers := old(lostTimers) - {id})
    {
      lostTimers := lostTimers - {id};
    }

    method SetOnlineStatus(u: UserId, s: OnlineStatus)
      requires Valid()
      modifies online
      ensures Valid() && State() == old(State()).(online := WithStatus(old(online.users), u, s))
    {
      var ok := online.SetStatus(u, s);
    }

    // ----- single effects on one room -----

    ghost predicate Has(room: GameRoom, id: RoomId)
      reads rooms
    {
      id in rooms.rooms && rooms.rooms[id] == room
    }

    lemma RoomView(room: GameRoom, id: RoomId)
      requires Valid() && Has(room, id)
      ensures room.Valid() && room.id == id && room in rooms.Repr && room.board in rooms.Repr
      ensures id in State().table.rooms && State().table.rooms[id] == room.State()
    {
      assert rooms.Shows(id);
    }

    // The room a user plays in, and the identifier it is stored under.
    method RoomByUser(u: UserId) returns (room: GameRoom?)
      requires Valid()
      ensures room == null <==> RoomOf(State().table, u).None?
      ensures room != null ==> RoomOf(State().table, u) == Some(room.id) && Has(room, room.id)
      ensures room != null ==> room in rooms.Repr && room.board in rooms.Repr
    {
      room := rooms.GetRoomByUser(u);
      if room != null {
        assert rooms.Shows(RoomOf(State().table, u).value);
      }
    }

    method PlaceIn(room: GameRoom, u: UserId, row: int, col: int) returns (res: GameResult)
      requires Valid() && Has(room, room.id)
      modifies room, room.board, rooms`view
      ensures Valid() && Has(room, room.id)
      ensures
        var (m, r) := PlacePiece(old(State().table.rooms[room.id]), u, row, col);
        State() == Change(old(State()), room.id, m) && res == r
    {
      RoomView(room, room.id);
      res := room.Place(u, row, col);
      rooms.Refresh(room.id);
    }

    method GiveUpIn(room: GameRoom, u: UserId) returns (res: GameResult)
      requires Valid() && Has(room, room.id)
      modifies room, rooms`view
      ensures Valid() && Has(room, room.id)
      ensures
        var (m, r) := Resign(old(State().table.rooms[room.id]), u);
        State() == Change(old(State()), room.id, m) && res == r
    {
      RoomView(room, room.id);
      res := room.GiveUp(u);
      rooms.Refresh(room.id);
    }

    method SetFlag(room: GameRoom, lost: Option<UserId>)
      requires Valid() && Has(room, room.id)
      modifies room, rooms`view
      ensures Valid() && Has(room, room.id)
      ensures State() == Change(old(State()), room.id, old(State().table.rooms[room.id]).(lost := lost))
    {
      RoomView(room, room.id);
      SetLost(room, lost);
      rooms.Refresh(room.id);
    }

    method SetLost(room: GameRoom, lost: Option<UserId>)
      requires room.Valid()
      modifies room
      ensures room.Valid() && room.State() == old(room.State()).(lost := lost)
    {
      match lost {
        case Some(u) => room.MarkDisconnected(u);
        case None => room.ClearDisconnected();
      }
    }

    method Finish(room: GameRoom, res: GameResult)
      requires Valid() && Has(room, room.id)
      modifies room, rooms`view
      ensures Valid() && Has(room, room.id)
      ensures State() == Change(old(State()), room.id, SetGameOver(old(State().table.rooms[room.id]), res))
    {
      RoomView(room, room.id);
      room.EndWith(res);
      rooms.Refresh(room.id);
    }

    // ----- the end of a game -----

    method Score(winner: UserId, loser: UserId, fails: set<DbStep>)
      requires Valid()
      modifies users
      ensures Valid()
      ensures State() == old(State()).(
        rows := UpdateScore(old(users.rows), winner, loser, 25, 15, fails), calls := old(users.calls) + 1)
    {
      var ok := users.UpdateScoreMatch(winner, loser, 25, 15, fails);
    }

    method ScoreIfDecided(winner: UserId, loser: UserId, fails: set<DbStep>)
      requires Valid()
      modifies users
      ensures Valid() && State() == Scoring(old(State()), winner, loser, fails)
    {
      if winner != 0 && loser != 0 {
        Score(winner, loser, fails);
      }
    }

    // The text of the result and its reason, in the order of the switch.
    method Describe(room: GameRoom, result: GameResult, winner: UserId, loser: UserId) returns (text: string, reason: string)
      requires Valid() && Has(room, room.id)
      ensures text == ResultText(State().table.rooms[room.id], result, winner, loser)
      ensures reason == ReasonText(result)
    {
      RoomView(room, room.id);
      var other := room.OpponentOf(loser);
      var color := room.PlayerColor(winner);
      match result {
        case BlackWin => return "black_win", "five_in_row";
        case WhiteWin => return "white_win", "five_in_row";
        case Draw => return "draw", "board_full";
        case Timeout =>
          text := if winner == other then (if color == Some(Black) then "black_win" else "white_win") else "timeout";
          return text, "timeout";
        case GaveUp =>
          text := if winner == other then (if color == Some(Black) then "black_win" else "white_win") else "giveup";
          return text, "giveup";
        case NoResult => return "unknown", "unknown";
        case MoveSuccess => return "unknown", "unknown";
      }
    }

    method SayFarewell(room: GameRoom, result: GameResult, winner: UserId, loser: UserId)
      requires Valid() && Has(room, room.id)
      modifies sender
      ensures Valid() && Has(room, room.id)
      ensures State() == old(State()).(
        outbox := old(sender.log) + Farewell(old(State().table.rooms[room.id]), result, winner, loser))
    {
      RoomView(room, room.id);
      var text, reason := Describe(room, result, winner, loser);
      if winner != 0 && loser != 0 {
        SendTo(winner, GameOver(text, reason, winner, 25));
        SendTo(loser, GameOver(text, reason, winner, -15));
      } else {
        BroadcastToRoom(room.id, GameOver(text, reason, winner, 0));
      }
    }

    method DestroyIn(id: RoomId)
      requires Valid()
      modifies rooms
      ensures Valid() && rooms.Repr == old(rooms.Repr)
      ensures State() == old(State()).(table := Destroy(old(State().table), id))
    {
      rooms.DestroyRoom(id);
    }

    // Result, score and messages.
    method Settle(room: GameRoom, result: GameResult, winner: UserId, loser: UserId, fails: set<DbStep>)
      requires Valid() && Has(room, room.id)
      modifies room, rooms`view, sender, users
      ensures Valid() && Has(room, room.id)
      ensures State() == Settlement(old(State()), room.id, result, winner, loser, fails)
    {
      Finish(room, result);
      ScoreIfDecided(winner, loser, fails);
      SameFarewell(old(State().table.rooms[room.id]), result, winner, loser);
      SayFarewell(room, result, winner, loser);
    }

    ghost method Record(e: Ended)
      requires Valid()
      modifies this`ended
      ensures Valid() && State() == old(State()).(ended := old(ended) + [e])
    {
      ended := ended + [e];
    }

    // Both players are idle again, and the room is gone.
    method Retire(room: GameRoom, result: GameResult, winner: UserId, loser: UserId)
      requires Valid() && Has(room, room.id)
      modifies this`ended, rooms, online
      ensures Valid() && rooms.Repr == old(rooms.Repr)
      ensures State() == Retirement(old(State()), room.id, result, winner, loser)
    {
      RoomView(room, room.id);
      SetOnlineStatus(room.players[0], HallIdle);
      SetOnlineStatus(room.players[1], HallIdle);
      Record(Ended(room.birth, room.id, result, winner, loser));
      DestroyIn(room.id);
    }

    method StopBothTimers(id: RoomId)
      requires Valid()
      modifies this`turnTimers, this`lostTimers
      ensures Valid() && State() == StopTimers(old(State()), id)
    {
      StopTurnTimer(id);
      StopLostTimer(id);
    }

    method CloseRoom(room: GameRoom, result: GameResult, winner: UserId, loser: UserId, fails: set<DbStep>)
      requires Valid() && Has(room, room.id)
      modifies this, rooms, room, online, sender, users
      ensures Valid() && rooms.Repr == old(rooms.Repr)
      ensures State() == Retirement(Settlement(old(State()), room.id, result, winner, loser, fails), room.id, result, winner, loser)
    {
      RoomView(room, room.id);
      Settle(room, result, winner, loser, fails);
      Retire(room, result, winner, loser);
    }

    method OnGameOver(id: RoomId, result: GameResult, winner: UserId, loser: UserId, fails: set<DbStep>)
      requires Valid()
      modifies this, rooms, rooms.Repr, online, sender, users
      ensures Valid() && rooms.Repr == old(rooms.Repr)
      ensures State() == EndGame(old(State()), id, result, winner, loser, fails)
    {
      EndInSteps(State(), id, result, winner, loser, fails);
      StopBothTimers(id);
      var room := rooms.GetRoom(id);
      if room == null {
        return;
      }
      RoomView(room, id);
      CloseRoom(room, result, winner, loser, fails);
    }

    // ----- the handlers -----

    method HandleGameStart(p1: UserId, p2: UserId, clock: nat) returns (id: RoomId)
      requires Valid()
      modifies this, rooms, online, sender
      ensures Valid() && fresh(rooms.Repr - old(rooms.Repr))
      ensures (State(), id) == Start(old(State()), p1, p2, MakeId(clock, old(rooms.nextSeq)))
    {
      assert |MakeId(clock, rooms.nextSeq)| > 0;
      id := rooms.CreateRoom(p1, p2, clock);
      if id == "" {
        return;
      }
      SetOnlineStatus(p1, InRoom);
      SetOnlineStatus(p2, InRoom);
      SendTo(p1, GameStart(id, p1, Black, true));
      SendTo(p2, GameStart(id, p2, White, false));
      assert sender.log == old(sender.log) + [Sent(p1, GameStart(id, p1, Black, true)), Sent(p2, GameStart(id, p2, White, false))];
      StartTurnTimer(id);
    }

    method HandleMove(u: UserId, row: int, col: int, fails: set<DbStep>)
      requires Valid()
      modifies this, rooms, rooms.Repr, online, sender, users
      ensures Valid() && rooms.Repr == old(rooms.Repr)
      ensures State() == Move(old(State()), u, row, col, fails)
    {
      var room := RoomByUser(u);
      if room == null {
        SendTo(u, Error(4001));
        return;
      }
      RoomView(room, room.id);
      var res := PlaceIn(room, u, row, col);
      ReportMove(room, u, row, col, res, fails);
      SameChange(old(State()), room.id, PlacePiece(old(State().table.rooms[room.id]), u, row, col).0, u, row, col, res, fails);
    }

    // What follows the answer of the room.
    method ReportMove(room: GameRoom, u: UserId, row: int, col: int, res: GameResult, fails: set<DbStep>)
      requires Valid() && Has(room, room.id)
      modifies this, rooms, rooms.Repr, online, sender, users
      ensures Valid() && rooms.Repr == old(rooms.Repr)
      ensures State() == AfterMove(old(State()), room.id, u, row, col, old(State().table.rooms[room.id]), res, fails)
    {
      RoomView(room, room.id);
      SameRoom(State(), room.id);
      if res == NoResult {
        SendTo(u, Error(4002));
        return;
      }
      var color := room.PlayerColor(u);
      var mine := if color == Some(Black) then Black else White;
      if res == MoveSuccess {
        PassTurn(room, row, col, mine);
      } else if res == BlackWin || res == WhiteWin {
        BroadcastToRoom(room.id, GameMove(row, col, mine, None));
        EndByFive(room, res, fails);
      } else if res == Draw {
        OnGameOver(room.id, res, 0, 0, fails);
      }
    }

    // The game goes on: both pages are told who is next, and the clock restarts.
    method PassTurn(room: GameRoom, row: int, col: int, mine: Color)
      requires Valid() && Has(room, room.id)
      modifies sender, this`turnTimers
      ensures Valid()
      ensures
        var g := old(State());
        var m := g.table.rooms[room.id];
        State() == Broadcast(g, room.id, GameMove(row, col, mine, Some(ShownColor(m, m.CurrentTurn()))))
          .(turnTimers := g.turnTimers + {room.id})
    {
      RoomView(room, room.id);
      var next := room.CurrentTurn();
      var nextColor := room.PlayerColor(next);
      BroadcastToRoom(room.id, GameMove(row, col, mine, Some(if nextColor == Some(Black) then Black else White)));
      StartTurnTimer(room.id);
    }

    method EndByFive(room: GameRoom, res: GameResult, fails: set<DbStep>)
      requires Valid() && Has(room, room.id) && (res == BlackWin || res == WhiteWin)
      modifies this, rooms, rooms.Repr, online, sender, users
      ensures Valid() && rooms.Repr == old(rooms.Repr)
      ensures
        var g := old(State());
        var m := g.table.rooms[room.id];
        var (w, l) := if res == BlackWin then (m.black, m.white) else (m.white, m.black);
        State() == EndGame(g, room.id, res, w, l, fails)
    {
      RoomView(room, room.id);
      if res == BlackWin {
        OnGameOver(room.id, res, room.players[0], room.players[1], fails);
      } else {
        OnGameOver(room.id, res, room.players[1], room.players[0], fails);
      }
    }

    // The game ends because u gives it up, one way or the other.
    method EndAgainst(room: GameRoom, u: UserId, fails: set<DbStep>)
      requires Valid() && Has(room, room.id)
      modifies this, rooms, rooms.Repr, online, sender, users
      ensures Valid() && rooms.Repr == old(rooms.Repr)
      ensures State() == EndGame(old(State()), room.id, GaveUp, old(State().table.rooms[room.id]).Opponent(u), u, fails)
    {
      RoomView(room, room.id);
      var winner := room.OpponentOf(u);
      OnGameOver(room.id, GaveUp, winner, u, fails);
    }

    method HandleGiveUp(u: UserId, fails: set<DbStep>)
      requires Valid()
      modifies this, rooms, rooms.Repr, online, sender, users
      ensures Valid() && rooms.Repr == old(rooms.Repr)
      ensures State() == Surrender(old(State()), u, fails)
    {
      var room := RoomByUser(u);
      if room == null {
        SendTo(u, Error(4001));
        return;
      }
      RoomView(room, room.id);
      var res := GiveUpIn(room, u);
      if res == NoResult {
        SendTo(u, Error(4003));
        return;
      }
      EndAgainst(room, u, fails);
    }

    method TellOpponent(room: GameRoom, u: UserId, msg: Message)
      requires Valid() && Has(room, room.id)
      modifies sender
      ensures Valid() && Has(room, room.id)
      ensures
        var other := old(State().table.rooms[room.id]).Opponent(u);
        State() == if other > 0 then Send(old(State()), other, msg) else old(State())
    {
      RoomView(room, room.id);
      var opponent := room.OpponentOf(u);
      if opponent > 0 {
        SendTo(opponent, msg);
      }
    }

    method MarkLost(room: GameRoom, u: UserId)
      requires Valid() && Has(room, room.id)
      modifies this`turnTimers, this`lostTimers, rooms`view, room
      ensures Valid() && Has(room, room.id)
      ensures
        var g := old(State());
        State() == Change(g, room.id, g.table.rooms[room.id].(lost := Some(u)))
          .(turnTimers := g.turnTimers - {room.id}, lostTimers := g.lostTimers + {room.id})
    {
      SetFlag(room, Some(u));
      StopTurnTimer(room.id);
      StartLostTimer(room.id);
    }

    method HandleDisconnect(u: UserId)
      requires Valid()
      modifies this, rooms`view, rooms.Repr, sender
      ensures Valid() && rooms.Repr == old(rooms.Repr)
      ensures State() == Lose(old(State()), u)
    {
      var room := RoomByUser(u);
      if room == null {
        return;
      }
      RoomView(room, room.id);
      if room.lost.Some? {
        return;
      }
      MarkLost(room, u);
      TellOpponent(room, u, OpponentDisconnected);
    }

    method MarkFound(room: GameRoom)
      requires Valid() && Has(room, room.id)
      modifies this`turnTimers, this`lostTimers, rooms`view, room
      ensures Valid() && Has(room, room.id)
      ensures
        var g := old(State());
        State() == Change(g, room.id, g.table.rooms[room.id].(lost := None))
          .(lostTimers := g.lostTimers - {room.id}, turnTimers := g.turnTimers + {room.id})
    {
      SetFlag(room, None);
      StopLostTimer(room.id);
      StartTurnTimer(room.id);
    }

    method WelcomeBack(room: GameRoom, u: UserId)
      requires Valid() && Has(room, room.id)
      modifies this, rooms`view, rooms.Repr, sender
      ensures Valid() && rooms.Repr == old(rooms.Repr) && Has(room, room.id)
      ensures State() == Welcome(old(State()), room.id, u)
    {
      RoomView(room, room.id);
      if room.lost == Some(u) {
        MarkFound(room);
        TellOpponent(room, u, OpponentReconnected);
      }
    }

    // The snapshot of a room for one of its players.
    method SendState(room: GameRoom, u: UserId)
      requires Valid() && Has(room, room.id)
      modifies sender
      ensures Valid()
      ensures State() == Send(old(State()), u, Snapshot(old(State().table.rooms[room.id]), room.id, u))
    {
      RoomView(room, room.id);
      var text := room.BoardText();
      var turn := room.CurrentTurn();
      var turnColor := room.PlayerColor(turn);
      var opponent := room.OpponentOf(u);
      SendTo(u, GameReconnect(room.id, text, if turnColor == Some(Black) then Black else White, opponent));
    }

    method HandleReconnect(u: UserId)
      requires Valid()
      modifies this, rooms`view, rooms.Repr, sender
      ensures Valid() && rooms.Repr == old(rooms.Repr)
      ensures State() == Reconnect(old(State()), u)
    {
      var room := RoomByUser(u);
      if room == null {
        SendTo(u, Error(4004));
        return;
      }
      RoomView(room, room.id);
      WelcomeBack(room, u);
      SendState(room, u);
    }

    method HandleReconnectAccept(u: UserId)
      requires Valid()
      modifies this, rooms`view, rooms.Repr, sender, online
      ensures Valid() && rooms.Repr == old(rooms.Repr)
      ensures State() == Accept(old(State()), u)
    {
      var room := RoomByUser(u);
      if room == null {
        SendTo(u, Error(4004));
        return;
      }
      WelcomeBack(room, u);
      SetOnlineStatus(u, InRoom);
      RoomView(room, room.id);
      var color := room.PlayerColor(u);
      SendTo(u, ReconnectAccepted(room.id, if color == Some(Black) then Black else White));
    }

    method HandleReconnectReject(u: UserId, fails: set<DbStep>)
      requires Valid()
      modifies this, rooms, rooms.Repr, online, sender, users
      ensures Valid() && rooms.Repr == old(rooms.Repr)
      ensures State() == Reject(old(State()), u, fails)
    {
      var room := RoomByUser(u);
      if room == null {
        SendTo(u, Error(4004));
        return;
      }
      ClearMark(room);
      EndAgainst(room, u, fails);
    }

    method ClearMark(room: GameRoom)
      requires Valid() && Has(room, room.id)
      modifies this`lostTimers, rooms`view, room
      ensures Valid() && Has(room, room.id) && room in rooms.Repr
      ensures
        var g := old(State());
        State() == Change(g, room.id, g.table.rooms[room.id].(lost := None)).(lostTimers := g.lostTimers - {room.id})
    {
      StopLostTimer(room.id);
      SetFlag(room, None);
      RoomView(room, room.id);
    }

    method OnTurnTimeout(id: RoomId, fails: set<DbStep>)
      requires Valid()
      modifies this, rooms, rooms.Repr, online, sender, users
      ensures Valid() && rooms.Repr == old(rooms.Repr)
      ensures State() == TurnFires(old(State()), id, fails)
    {
      StopTurnTimer(id);
      var room := rooms.GetRoom(id);
      if room != null {
        RoomView(room, id);
        if room.status == Playing && room.lost.None? {
          var current := room.CurrentTurn();
          var opponent := room.OpponentOf(current);
          OnGameOver(id, Timeout, opponent, current, fails);
        }
      }
    }

    method OnDisconnectTimeout(id: RoomId, fails: set<DbStep>)
      requires Valid()
      modifies this, rooms, rooms.Repr, online, sender, users
      ensures Valid() && rooms.Repr == old(rooms.Repr)
      ensures State() == LostFires(old(State()), id, fails)
    {
      StopLostTimer(id);
      var room := rooms.GetRoom(id);
      if room != null {
        RoomView(room, id);
        if room.status == Playing && room.lost.Some? {
          var gone := room.lost.value;
          var winner := room.OpponentOf(gone);
          SetFlag(room, None);
          OnGameOver(id, Timeout, winner, gone, fails);
        }
      }
    }

    method CleanupFinishedRoom(u: UserId)
      requires Valid()
      modifies rooms
      ensures Valid() && rooms.Repr == old(rooms.Repr)
      ensures State() == Cleanup(old(State()), u)
    {
      var room := RoomByUser(u);
      if room == null {
        return;
      }
      RoomView(room, room.id);
      if room.status != Finished {
        return;
      }
      var on1 := online.IsOnline(room.players[0]);
      var on2 := online.IsOnline(room.players[1]);
      if !on1 && !on2 {
        DestroyIn(room.id);
      }
    }
  }

  // A room put back where it was changes nothing.
  lemma SameRoom(g: Game, id: RoomId)
    requires id in g.table.rooms
    ensures Change(g, id, g.table.rooms[id]) == g
  {
    assert g.table.rooms[id := g.table.rooms[id]] == g.table.rooms;
  }

  // Reporting a move whose room is already changed is reporting the move.
  lemma SameChange(g: Game, id: RoomId, m: Room, u: UserId, row: int, col: int, res: GameResult, fails: set<DbStep>)
    requires id in g.table.rooms
    ensures AfterMove(Change(g, id, m), id, u, row, col, m, res, fails) == AfterMove(g, id, u, row, col, m, res, fails)
  {
    assert g.table.rooms[id := m][id := m] == g.table.rooms[id := m];
  }

  function Scoring(g: Game, winner: UserId, loser: UserId, fails: set<DbStep>): Game {
    if winner != 0 && loser != 0 then
      g.(rows := UpdateScore(g.rows, winner, loser, 25, 15, fails), calls := g.calls + 1)
    else g
  }

  function Settlement(g: Game, id: RoomId, result: GameResult, winner: UserId, loser: UserId, fails: set<DbStep>): Game
    requires id in g.table.rooms
  {
    var m := g.table.rooms[id];
    Scoring(Change(g, id, SetGameOver(m, result)), winner, loser, fails)
      .(outbox := g.outbox + Farewell(m, result, winner, loser))
  }

  function Retirement(g: Game, id: RoomId, result: GameResult, winner: UserId, loser: UserId): Game
    requires id in g.table.rooms
  {
    var m := g.table.rooms[id];
    g.(
      table := Destroy(g.table, id),
      online := WithStatus(WithStatus(g.online, m.black, HallIdle), m.white, HallIdle),
      ended := g.ended + [Ended(m.birth, id, result, winner, loser)])
  }

  // The end of a game, step by step, is the end of a game.
  lemma EndInSteps(g: Game, id: RoomId, result: GameResult, winner: UserId, loser: UserId, fails: set<DbStep>)
    ensures
      var g1 := StopTimers(g, id);
      EndGame(g, id, result, winner, loser, fails) ==
        if id in g.table.rooms then Retirement(Settlement(g1, id, result, winner, loser, fails), id, result, winner, loser)
        else g1
  {
    if id in g.table.rooms {
      ChangedThenDestroyed(g.table, id, SetGameOver(g.table.rooms[id], result));
    }
  }

  // The farewell depends only on who plays in the room.
  lemma SameFarewell(m: Room, result: GameResult, winner: UserId, loser: UserId)
    ensures Farewell(SetGameOver(m, result), result, winner, loser) == Farewell(m, result, winner, loser)
  {
  }

  // Destroying a room makes its last change irrelevant.
  lemma ChangedThenDestroyed(t: Table, id: RoomId, m: Room)
    requires id in t.rooms
    ensures Destroy(Update(t, id, m), id) == Destroy(t, id)
  {
    assert t.rooms[id := m] - {id} == t.rooms - {id};
  }
}
