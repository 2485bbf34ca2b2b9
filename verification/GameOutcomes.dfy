// Who wins, what is announced, what is scored, and why every game ends.
module GameOutcomes {
  import opened Basics
  import opened Board
  import opened Rooms
  import opened RoomIndex
  import opened ScoreTable
  import opened Game
  import opened GameProofs
  import opened GameTheorems

  // ----- winner agreement -----

  function WinText(m: Room, winner: UserId): string {
    if winner == m.black then "black_win" else "white_win"
  }

  // The result stored with a winner is consistent with the winner and with the
  // way the game ended.
  predicate FitsWinner(m: Room, res: GameResult, how: string, winner: UserId) {
    match res
    case BlackWin => how == "five_in_row" && winner == m.black
    case WhiteWin => how == "five_in_row" && winner == m.white
    case Timeout => how == "timeout"
    case GaveUp => how == "giveup"
    case _ => false
  }

  // The two players of the room, one as winner and the other as loser.
  predicate SplitPlayers(m: Room, winner: UserId, loser: UserId) {
    m.black != m.white && m.black > 0 && m.white > 0 && m.HasPlayer(loser) && winner == m.Opponent(loser)
  }

  // What a decided game tells its players: the winner's colour, by name, how the
  // game ended, +25 to the winner and -15 to the loser.
  function Announcement(m: Room, how: string, winner: UserId, loser: UserId): seq<Sent> {
    [Sent(winner, GameOver(WinText(m, winner), how, winner, 25)),
     Sent(loser, GameOver(WinText(m, winner), how, winner, -15))]
  }

  // What a draw tells them.
  function DrawAnnouncement(m: Room): seq<Sent> {
    [Sent(m.black, GameOver("draw", "board_full", 0, 0)), Sent(m.white, GameOver("draw", "board_full", 0, 0))]
  }

  // The fallback texts "timeout", "giveup" and "unknown" are never used.
  lemma FarewellNamesTheWinner(m: Room, res: GameResult, how: string, winner: UserId, loser: UserId)
    requires SplitPlayers(m, winner, loser) && FitsWinner(m, res, how, winner)
    ensures Farewell(m, res, winner, loser) == Announcement(m, how, winner, loser)
    ensures winner != loser && winner != 0 && loser != 0 && {winner, loser} == {m.black, m.white}
  {
  }

  predicate EndsWith(s: seq<Sent>, tail: seq<Sent>) {
    |s| >= |tail| && s[|s| - |tail|..] == tail
  }

  // g' comes from g by deciding the game in room id against `loser`, for the reason
  // that is announced.
  predicate DecidedAgainst(g: Game, g': Game, id: RoomId, how: string, loser: UserId, fails: set<DbStep>) {
    && id in g.table.rooms
    && |g'.ended| == |g.ended| + 1
    && var m := g.table.rooms[id];
    && var x := g'.ended[|g.ended|];
    && x.room == id && x.birth == m.birth
    && x.loser == loser && SplitPlayers(m, x.winner, loser) && FitsWinner(m, x.result, how, x.winner)
    && EndsWith(g'.outbox, Announcement(m, how, x.winner, loser))
    && |g'.outbox| == |g.outbox| + (if how == "five_in_row" then 4 else 2)
    && Booked(g.rows, g'.rows, x.winner, loser, fails)
    && g'.calls == g.calls + 1
  }

  lemma EndDecides(g: Game, g1: Game, id: RoomId, m: Room, res: GameResult, how: string, loser: UserId, fails: set<DbStep>)
    requires id in g.table.rooms && SameSeats(g.table.rooms[id], m) && g1.table == Update(g.table, id, m)
    requires g1.ended == g.ended && g1.rows == g.rows && g1.calls == g.calls
    requires |g1.outbox| == |g.outbox| + (if how == "five_in_row" then 2 else 0)
    requires SplitPlayers(m, m.Opponent(loser), loser) && FitsWinner(m, res, how, m.Opponent(loser))
    ensures DecidedAgainst(g, EndGame(g1, id, res, m.Opponent(loser), loser, fails), id, how, loser, fails)
  {
    FarewellNamesTheWinner(m, res, how, m.Opponent(loser), loser);
    BothOrNeither(g.rows, m.Opponent(loser), loser, fails);
    var g' := EndGame(g1, id, res, m.Opponent(loser), loser, fails);
    assert g'.outbox[|g'.outbox| - 2..] == Announcement(m, how, m.Opponent(loser), loser);
  }

  // Five in a row: the mover wins, the opponent loses; the board shows the five.
  lemma FiveInRowDecides(g: Game, u: UserId, row: int, col: int, fails: set<DbStep>)
    requires GameInv(g) && RoomOf(g.table, u).Some?
    ensures BoardsOk(g)
    ensures
      var id := RoomOf(g.table, u).value;
      var m := g.table.rooms[id];
      var (m', res) := PlacePiece(m, u, row, col);
      var g' := Move(g, u, row, col, fails);
      && (res == BlackWin || res == WhiteWin ==>
        && DecidedAgainst(g, g', id, "five_in_row", m.Opponent(u), fails)
        && m.ColorOf(u).Some? && HasFive(m'.board, StoneOf(m.ColorOf(u).value))
        && g'.ended[|g.ended|].winner == u)
      && (res == Draw ==>
        && g'.ended == g.ended + [Ended(m.birth, id, Draw, 0, 0)]
        && g'.rows == g.rows && g'.calls == g.calls && g'.outbox == g.outbox + DrawAnnouncement(m)
        && (forall i, j :: OnBoard(i, j) ==> m'.board[i][j] != 0)
        && !HasFive(m'.board, 1) && !HasFive(m'.board, 2))
      && (res == NoResult || res == MoveSuccess ==> g'.ended == g.ended)
      && res in {NoResult, MoveSuccess, BlackWin, WhiteWin, Draw}
  {
    var id := RoomOf(g.table, u).value;
    At(g, id);
    var m := g.table.rooms[id];
    BoardDecides(m, u, row, col);
    var (m', res) := PlacePiece(m, u, row, col);
    AfterMoveDecides(g, id, u, row, col, m', res, fails);
  }

  lemma BoardDecides(m: Room, u: UserId, row: int, col: int)
    requires LiveRoom(m)
    ensures
      var (m', res) := PlacePiece(m, u, row, col);
      && SameSeats(m, m')
      && res in {NoResult, MoveSuccess, BlackWin, WhiteWin, Draw}
      && (res == BlackWin || res == WhiteWin ==>
        && m.ColorOf(u).Some? && HasFive(m'.board, StoneOf(m.ColorOf(u).value))
        && (res == BlackWin <==> u == m.black) && SplitPlayers(m', u, m.Opponent(u)) && u == m'.Opponent(m.Opponent(u)))
      && (res == Draw ==>
        && (forall i, j :: OnBoard(i, j) ==> m'.board[i][j] != 0)
        && !HasFive(m'.board, 1) && !HasFive(m'.board, 2))
  {
    if Accepts(m, u, row, col) {
      WinIsExact(m, u, row, col);
      DrawMeansFullBoardWithoutFive(m, u, row, col);
    }
  }

  lemma AfterMoveDecides(g: Game, id: RoomId, u: UserId, row: int, col: int, m: Room, res: GameResult, fails: set<DbStep>)
    requires id in g.table.rooms && SameSeats(g.table.rooms[id], m)
    requires res in {NoResult, MoveSuccess, BlackWin, WhiteWin, Draw}
    requires res == BlackWin || res == WhiteWin ==>
      (res == BlackWin <==> u == m.black) && SplitPlayers(m, u, m.Opponent(u)) && u == m.Opponent(m.Opponent(u))
    ensures
      var g' := AfterMove(g, id, u, row, col, m, res, fails);
      && (res == BlackWin || res == WhiteWin ==>
        DecidedAgainst(g, g', id, "five_in_row", m.Opponent(u), fails) && g'.ended[|g.ended|].winner == u)
      && (res == Draw ==>
        && g'.ended == g.ended + [Ended(m.birth, id, Draw, 0, 0)]
        && g'.rows == g.rows && g'.calls == g.calls && g'.outbox == g.outbox + DrawAnnouncement(m))
      && (res == NoResult || res == MoveSuccess ==> g'.ended == g.ended)
  {
    var g1 := Change(g, id, m);
    if res == BlackWin || res == WhiteWin {
      var g2 := Broadcast(g1, id, GameMove(row, col, ShownColor(m, u), None));
      EndDecides(g, g2, id, m, res, "five_in_row", m.Opponent(u), fails);
    }
  }

  // Giving up and turning down a reconnection: the one who says so loses.
  lemma SurrenderDecides(g: Game, u: UserId, fails: set<DbStep>)
    requires GameInv(g) && RoomOf(g.table, u).Some?
    ensures DecidedAgainst(g, Surrender(g, u, fails), RoomOf(g.table, u).value, "giveup", u, fails)
    ensures DecidedAgainst(g, Reject(g, u, fails), RoomOf(g.table, u).value, "giveup", u, fails)
  {
    var id := RoomOf(g.table, u).value;
    At(g, id);
    BijectionMeans(g.table, u, id);
    var m := g.table.rooms[id];
    var (m1, res) := Resign(m, u);
    EndDecides(g, Change(g, id, m1), id, m1, GaveUp, "giveup", u, fails);
    var m2 := m.(lost := None);
    EndDecides(g, Change(g, id, m2).(lostTimers := g.lostTimers - {id}), id, m2, GaveUp, "giveup", u, fails);
  }

  // A turn timer: the player to move loses, unless somebody is flagged, in
  // which case nothing happens.
  lemma TurnTimeoutDecides(g: Game, id: RoomId, fails: set<DbStep>)
    requires GameInv(g) && id in g.table.rooms
    ensures
      var m := g.table.rooms[id];
      if m.lost.None? then DecidedAgainst(g, TurnFires(g, id, fails), id, "timeout", m.CurrentTurn(), fails)
      else TurnFires(g, id, fails) == g.(turnTimers := g.turnTimers - {id})
  {
    At(g, id);
    var m := g.table.rooms[id];
    assert Update(g.table, id, m) == g.table;
    if m.lost.None? {
      EndDecides(g, g.(turnTimers := g.turnTimers - {id}), id, m, Timeout, "timeout", m.CurrentTurn(), fails);
    }
  }

  // A disconnect timer: the flagged player loses; without a flag nothing happens.
  lemma LostTimeoutDecides(g: Game, id: RoomId, fails: set<DbStep>)
    requires GameInv(g) && id in g.table.rooms
    ensures
      var m := g.table.rooms[id];
      if m.lost.Some? then DecidedAgainst(g, LostFires(g, id, fails), id, "timeout", m.lost.value, fails)
      else LostFires(g, id, fails) == g
  {
    At(g, id);
    var m := g.table.rooms[id];
    if m.lost.Some? {
      var m1 := m.(lost := None);
      EndDecides(g, Change(g.(lostTimers := g.lostTimers - {id}), id, m1), id, m1, Timeout, "timeout", m.lost.value, fails);
    }
  }

  // Who loses when event e ends room m with a decision.
  function LoserOf(m: Room, e: GameEvent): UserId {
    match e
    case EMove(u, _, _, _) => m.Opponent(u)
    case ESurrender(u, _) => u
    case EReject(u, _) => u
    case ETurnFires(_, _) => m.CurrentTurn()
    case ELostFires(_, _) => if m.lost.Some? then m.lost.value else 0
    case _ => 0
  }

  function HowOf(e: GameEvent): string {
    match e
    case EMove(_, _, _, _) => "five_in_row"
    case ESurrender(_, _) => "giveup"
    case EReject(_, _) => "giveup"
    case _ => "timeout"
  }

  function FailsOf(e: GameEvent): set<DbStep> {
    match e
    case EMove(_, _, _, fails) => fails
    case ESurrender(_, fails) => fails
    case EReject(_, fails) => fails
    case ETurnFires(_, fails) => fails
    case ELostFires(_, fails) => fails
    case _ => {}
  }

  // Whenever an operation ends a room, the game is either decided against the
  // right player, or it is the draw of a full board without five.
  lemma WinnerAgreement(g: Game, e: GameEvent)
    requires GameInv(g) && Allowed(g, e)
    ensures BoardsOk(g)
    ensures
      var g' := GameStep(g, e);
      |g'.ended| > |g.ended| ==>
        var id := TargetId(g, e);
        && id in g.table.rooms
        && var m := g.table.rooms[id];
        || DecidedAgainst(g, g', id, HowOf(e), LoserOf(m, e), FailsOf(e))
        || (e.EMove?
          && g'.ended[|g.ended|] == Ended(m.birth, id, Draw, 0, 0)
          && g'.outbox == g.outbox + DrawAnnouncement(m) && g'.rows == g.rows && g'.calls == g.calls
          && var b := PlacePiece(m, e.user, e.row, e.col).0.board;
          && (forall i, j :: OnBoard(i, j) ==> b[i][j] != 0)
          && !HasFive(b, 1) && !HasFive(b, 2))
  {
    InvGivesBoards(g);
    match e {
      case EMove(u, row, col, fails) =>
        if RoomOf(g.table, u).Some? {
          FiveInRowDecides(g, u, row, col, fails);
        }
      case ESurrender(u, fails) =>
        if RoomOf(g.table, u).Some? {
          SurrenderDecides(g, u, fails);
        }
      case EReject(u, fails) =>
        if RoomOf(g.table, u).Some? {
          SurrenderDecides(g, u, fails);
        }
      case ETurnFires(id, fails) =>
        if id in g.table.rooms {
          TurnTimeoutDecides(g, id, fails);
        }
      case ELostFires(id, fails) =>
        if id in g.table.rooms {
          LostTimeoutDecides(g, id, fails);
        }
      case EStart(p1, p2, id) =>
      case ELose(u) =>
      case EReconnect(u) =>
      case EAccept(u) =>
      case ECleanup(u) =>
      case EOnline(users) =>
    }
  }

  // ----- the ledger -----

  lemma EndKeepsImbalance(g: Game, id: RoomId, res: GameResult, w: UserId, l: UserId, fails: set<DbStep>)
    ensures Imbalance(EndGame(g, id, res, w, l, fails).rows) == Imbalance(g.rows)
    ensures EndGame(g, id, res, w, l, fails).rows.Keys == g.rows.Keys
  {
    UpdateKeepsImbalance(g.rows, w, l, 25, 15, fails);
  }

  lemma StepKeepsImbalance(g: Game, e: GameEvent)
    requires BoardsOk(g)
    ensures Imbalance(GameStep(g, e).rows) == Imbalance(g.rows)
  {
    match e {
      case EMove(u, row, col, fails) =>
        if RoomOf(g.table, u).Some? {
          var id := RoomOf(g.table, u).value;
          var (m, res) := PlacePiece(g.table.rooms[id], u, row, col);
          AfterMoveKeepsImbalance(g, id, u, row, col, m, res, fails);
        }
      case ESurrender(u, fails) =>
        if RoomOf(g.table, u).Some? {
          var id := RoomOf(g.table, u).value;
          var m := Resign(g.table.rooms[id], u).0;
          EndKeepsImbalance(Change(g, id, m), id, GaveUp, m.Opponent(u), u, fails);
        }
      case EReject(u, fails) =>
        if RoomOf(g.table, u).Some? {
          var id := RoomOf(g.table, u).value;
          var m := g.table.rooms[id];
          var g1 := Change(g, id, m.(lost := None)).(lostTimers := g.lostTimers - {id});
          EndKeepsImbalance(g1, id, GaveUp, m.Opponent(u), u, fails);
        }
      case ETurnFires(id, fails) => FiringKeepsImbalance(g, id, fails);
      case ELostFires(id, fails) => FiringKeepsImbalance(g, id, fails);
      case EStart(p1, p2, id) =>
      case ELose(u) =>
      case EReconnect(u) =>
      case EAccept(u) =>
      case ECleanup(u) =>
      case EOnline(users) =>
    }
  }

  lemma AfterMoveKeepsImbalance(g: Game, id: RoomId, u: UserId, row: int, col: int, m: Room, res: GameResult, fails: set<DbStep>)
    ensures Imbalance(AfterMove(g, id, u, row, col, m, res, fails).rows) == Imbalance(g.rows)
  {
    var g1 := Change(g, id, m);
    var g2 := Broadcast(g1, id, GameMove(row, col, ShownColor(m, u), None));
    EndKeepsImbalance(g2, id, res, m.black, m.white, fails);
    EndKeepsImbalance(g2, id, res, m.white, m.black, fails);
    EndKeepsImbalance(g1, id, res, 0, 0, fails);
  }

  lemma FiringKeepsImbalance(g: Game, id: RoomId, fails: set<DbStep>)
    ensures Imbalance(TurnFires(g, id, fails).rows) == Imbalance(g.rows)
    ensures Imbalance(LostFires(g, id, fails).rows) == Imbalance(g.rows)
  {
    if id in g.table.rooms {
      var m := g.table.rooms[id];
      EndKeepsImbalance(g.(turnTimers := g.turnTimers - {id}), id, Timeout, m.Opponent(m.CurrentTurn()), m.CurrentTurn(), fails);
      if m.lost.Some? {
        var g1 := Change(g.(lostTimers := g.lostTimers - {id}), id, m.(lost := None));
        EndKeepsImbalance(g1, id, Timeout, m.Opponent(m.lost.value), m.lost.value, fails);
      }
    }
  }

  // Over every run of the controller, whichever database steps fail: the number
  // of games played minus twice the number of wins stays the same in the whole
  // table, nobody has more wins than games, and there was one score update for
  // each room that ended with a winner.
  lemma {:induction false} LedgerOverRuns(g: Game, es: seq<GameEvent>)
    requires GameInv(g) && RunOk(g, es)
    ensures Imbalance(GameRun(g, es).rows) == Imbalance(g.rows)
    ensures WinsWithinTotals(GameRun(g, es).rows)
    ensures GameRun(g, es).calls == DecidedGames(GameRun(g, es).ended)
    decreases |es|
  {
    if es != [] {
      GameStepKeepsInv(g, es[0]);
      StepKeepsImbalance(g, es[0]);
      LedgerOverRuns(GameStep(g, es[0]), es[1..]);
    }
  }

  // ----- timers: coverage and progress -----

  // Every live room has an armed timer.
  lemma SomeTimerIsArmed(g: Game, r: RoomId)
    requires GameInv(g) && r in g.table.rooms
    ensures r in g.turnTimers || r in g.lostTimers
    ensures g.table.rooms[r].lost.Some? <==> r in g.lostTimers
  {
    At(g, r);
  }

  // The number of timer expiries a live room can still survive, plus one.
  function Patience(g: Game, r: RoomId): nat {
    if r !in g.table.rooms then 0
    else if g.table.rooms[r].lost.Some? && r in g.turnTimers then 2
    else 1
  }

  // The expiry of an armed timer of room r.
  predicate Expiry(g: Game, e: GameEvent, r: RoomId) {
    (e.ETurnFires? && e.id == r && r in g.turnTimers) || (e.ELostFires? && e.id == r && r in g.lostTimers)
  }

  lemma ExpiryCosts(g: Game, e: GameEvent, r: RoomId)
    requires GameInv(g) && Expiry(g, e, r)
    ensures BoardsOk(g) && Patience(GameStep(g, e), r) + 1 <= Patience(g, r)
  {
    InvGivesBoards(g);
    Loosen(g, r);
    At(g, r);
    if e.ETurnFires? {
      TurnTimeoutDecides(g, r, e.fails);
    } else {
      LostTimeoutDecides(g, r, e.fails);
    }
    StepShape(g, e);
  }

  // With silent clients only timers make steps.
  ghost predicate SilentRun(g: Game, es: seq<GameEvent>)
    requires GameInv(g)
    decreases |es|
  {
    es == [] ||
    ((exists r :: Expiry(g, es[0], r)) && Allowed(g, es[0]) &&
      (GameStepKeepsInv(g, es[0]); SilentRun(GameStep(g, es[0]), es[1..])))
  }

  function ExpiriesOf(es: seq<GameEvent>, r: RoomId): nat {
    if es == [] then 0 else
    (if (es[0].ETurnFires? || es[0].ELostFires?) && es[0].id == r then 1 else 0) + ExpiriesOf(es[1..], r)
  }

  ghost function SilentEnd(g: Game, es: seq<GameEvent>): (g': Game)
    requires GameInv(g) && SilentRun(g, es)
    ensures GameInv(g')
    decreases |es|
  {
    if es == [] then g else
    GameStepKeepsInv(g, es[0]);
    SilentEnd(GameStep(g, es[0]), es[1..])
  }

  // At most two expiries destroy any room; each of them brings it closer.
  lemma {:induction false} TwoExpiriesAtMost(g: Game, es: seq<GameEvent>, r: RoomId)
    requires GameInv(g) && SilentRun(g, es)
    ensures Patience(SilentEnd(g, es), r) + ExpiriesOf(es, r) <= Patience(g, r) <= 2
    ensures ExpiriesOf(es, r) == 2 ==> r !in SilentEnd(g, es).table.rooms
    decreases |es|
  {
    if es != [] {
      var e := es[0];
      var q :| Expiry(g, e, q);
      GameStepKeepsInv(g, e);
      if q == r {
        ExpiryCosts(g, e, r);
      } else {
        OtherRoomsUntouched(g, e, r);
      }
      TwoExpiriesAtMost(GameStep(g, e), es[1..], r);
    }
  }

  // Once no timer is armed any more, no room is left.
  lemma NoTimerNoRoom(g: Game)
    requires GameInv(g) && g.turnTimers == {} && g.lostTimers == {}
    ensures g.table.rooms == map[] && g.table.users == map[]
  {
    forall r
      ensures r !in g.table.rooms
    {
      if r in g.table.rooms {
        SomeTimerIsArmed(g, r);
      }
    }
    assert g.table.rooms.Keys == {};
    assert forall u :: u in g.table.users ==> IsPlaced(g.table, u);
    assert g.table.users.Keys == {};
  }

  // ----- the opponent named at the start -----

  // The two game.start messages name, as the opponent, the receiver himself;
  // the snapshot sent on a reconnection names the real opponent.
  lemma StartNamesTheReceiver(g: Game, p1: UserId, p2: UserId, id: RoomId)
    requires GameInv(g) && Allowed(g, EStart(p1, p2, id)) && p1 !in g.table.users && p2 !in g.table.users
    ensures
      var g' := Start(g, p1, p2, id).0;
      && id in g'.table.rooms
      && |g'.outbox| == |g.outbox| + 2
      && (forall k :: |g.outbox| <= k < |g'.outbox| ==>
        && g'.outbox[k].msg.GameStart?
        && g'.outbox[k].msg.opponent == g'.outbox[k].to
        && g'.outbox[k].msg.opponent != g'.table.rooms[id].Opponent(g'.outbox[k].to)
        && Snapshot(g'.table.rooms[id], id, g'.outbox[k].to).opponent == g'.table.rooms[id].Opponent(g'.outbox[k].to))
  {
  }

  // Over every run it is never otherwise.
  predicate StartsNameReceivers(log: seq<Sent>) {
    forall k :: 0 <= k < |log| && log[k].msg.GameStart? ==> log[k].msg.opponent == log[k].to
  }

  lemma EndNamesReceivers(g: Game, id: RoomId, res: GameResult, w: UserId, l: UserId, fails: set<DbStep>)
    requires StartsNameReceivers(g.outbox)
    ensures StartsNameReceivers(EndGame(g, id, res, w, l, fails).outbox)
  {
  }

  lemma AfterMoveNamesReceivers(g: Game, id: RoomId, u: UserId, row: int, col: int, m: Room, res: GameResult, fails: set<DbStep>)
    requires StartsNameReceivers(g.outbox)
    ensures StartsNameReceivers(AfterMove(g, id, u, row, col, m, res, fails).outbox)
  {
    var g1 := Change(g, id, m);
    var g2 := Broadcast(g1, id, GameMove(row, col, ShownColor(m, u), None));
    EndNamesReceivers(g2, id, res, m.black, m.white, fails);
    EndNamesReceivers(g2, id, res, m.white, m.black, fails);
    EndNamesReceivers(g1, id, res, 0, 0, fails);
  }

  lemma QuitNamesReceivers(g: Game, u: UserId, fails: set<DbStep>)
    requires StartsNameReceivers(g.outbox)
    ensures StartsNameReceivers(Surrender(g, u, fails).outbox) && StartsNameReceivers(Reject(g, u, fails).outbox)
  {
    if RoomOf(g.table, u).Some? {
      var id := RoomOf(g.table, u).value;
      var m := g.table.rooms[id];
      EndNamesReceivers(Change(g, id, Resign(m, u).0), id, GaveUp, Resign(m, u).0.Opponent(u), u, fails);
      EndNamesReceivers(Change(g, id, m.(lost := None)).(lostTimers := g.lostTimers - {id}), id, GaveUp, m.Opponent(u), u, fails);
    }
  }

  lemma FiringNamesReceivers(g: Game, id: RoomId, fails: set<DbStep>)
    requires StartsNameReceivers(g.outbox)
    ensures StartsNameReceivers(TurnFires(g, id, fails).outbox) && StartsNameReceivers(LostFires(g, id, fails).outbox)
  {
    if id in g.table.rooms {
      var m := g.table.rooms[id];
      EndNamesReceivers(g.(turnTimers := g.turnTimers - {id}), id, Timeout, m.Opponent(m.CurrentTurn()), m.CurrentTurn(), fails);
      if m.lost.Some? {
        var g1 := Change(g.(lostTimers := g.lostTimers - {id}), id, m.(lost := None));
        EndNamesReceivers(g1, id, Timeout, m.Opponent(m.lost.value), m.lost.value, fails);
      }
    }
  }

  lemma StepNamesReceivers(g: Game, e: GameEvent)
    requires BoardsOk(g) && StartsNameReceivers(g.outbox)
    ensures StartsNameReceivers(GameStep(g, e).outbox)
  {
    match e {
      case EMove(u, row, col, fails) =>
        if RoomOf(g.table, u).Some? {
          var id := RoomOf(g.table, u).value;
          var (m, res) := PlacePiece(g.table.rooms[id], u, row, col);
          AfterMoveNamesReceivers(g, id, u, row, col, m, res, fails);
        }
      case ESurrender(u, fails) => QuitNamesReceivers(g, u, fails);
      case EReject(u, fails) => QuitNamesReceivers(g, u, fails);
      case ETurnFires(id, fails) => FiringNamesReceivers(g, id, fails);
      case ELostFires(id, fails) => FiringNamesReceivers(g, id, fails);
      case _ =>
    }
  }

  lemma {:induction false} EveryStartNamesTheReceiver(g: Game, es: seq<GameEvent>)
    requires GameInv(g) && RunOk(g, es) && StartsNameReceivers(g.outbox)
    ensures StartsNameReceivers(GameRun(g, es).outbox)
    decreases |es|
  {
    if es != [] {
      GameStepKeepsInv(g, es[0]);
      StepNamesReceivers(g, es[0]);
      EveryStartNamesTheReceiver(GameStep(g, es[0]), es[1..]);
    }
  }
}
