// What holds of the game controller in every reachable state, under arbitrary
// firings of its timers.
module GameProofs {
  import opened Basics
  import opened Board
  import opened Rooms
  import opened RoomIndex
  import opened ScoreTable
  import opened Game

  // ----- the invariant -----

  // Every stored room is being played and has no result; whoever is flagged
  // plays in it.
  ghost predicate LiveRoom(m: Room) {
    && RoomInv(m)
    && m.status == Playing
    && m.black > 0 && m.white > 0
    && (m.lost.Some? ==> m.HasPlayer(m.lost.value))
  }

  ghost predicate RoomsLive(rooms: map<RoomId, Room>, x: set<RoomId>) {
    forall r {:trigger LiveRoom(rooms[r])} :: r in rooms && r !in x ==> LiveRoom(rooms[r])
  }

  // The timers of room r fit its state: timers only for stored rooms, the
  // disconnect timer armed exactly when somebody is flagged, and the turn timer
  // armed when nobody is.
  predicate TimersFit(rooms: map<RoomId, Room>, turn: set<RoomId>, lost: set<RoomId>, r: RoomId) {
    && (r in turn ==> r in rooms)
    && (r in lost <==> r in rooms && rooms[r].lost.Some?)
    && (r in rooms && rooms[r].lost.None? ==> r in turn)
  }

  ghost predicate TimersOk(rooms: map<RoomId, Room>, turn: set<RoomId>, lost: set<RoomId>, x: set<RoomId>) {
    forall r {:trigger TimersFit(rooms, turn, lost, r)} :: r !in x && (r in rooms || r in turn || r in lost) ==> TimersFit(rooms, turn, lost, r)
  }

  // Created rooms are numbered; each number belongs to one stored room or to
  // one ended room.
  predicate Accounted(rooms: map<RoomId, Room>, nextSeq: nat, ended: seq<Ended>) {
    && (forall i, j :: 0 <= i < j < |ended| ==> ended[i].birth != ended[j].birth)
    && (forall i :: 0 <= i < |ended| ==> ended[i].birth < nextSeq)
    && (forall i, r :: 0 <= i < |ended| && r in rooms ==> rooms[r].birth != ended[i].birth)
    && |rooms| + |ended| == nextSeq
  }

  predicate Decided(e: Ended) {
    e.winner != 0 && e.loser != 0
  }

  function DecidedGames(es: seq<Ended>): nat {
    if es == [] then 0 else DecidedGames(es[..|es| - 1]) + (if Decided(es[|es| - 1]) then 1 else 0)
  }

  // One score update per game that ended with a winner.
  predicate Books(rows: map<UserId, Row>, calls: nat, ended: seq<Ended>) {
    WinsWithinTotals(rows) && calls == DecidedGames(ended)
  }

  // All of the invariant, except that the rooms in x may be in the middle of
  // an operation.
  ghost predicate InvExcept(g: Game, x: set<RoomId>) {
    && TableInv(g.table)
    && RoomsLive(g.table.rooms, x)
    && TimersOk(g.table.rooms, g.turnTimers, g.lostTimers, x)
    && Accounted(g.table.rooms, g.table.nextSeq, g.ended)
    && Books(g.rows, g.calls, g.ended)
  }

  ghost predicate GameInv(g: Game) {
    InvExcept(g, {})
  }

  lemma InvGivesBoards(g: Game)
    requires GameInv(g)
    ensures BoardsOk(g)
  {
    forall r | r in g.table.rooms
      ensures IsBoard(g.table.rooms[r].board)
    {
      assert LiveRoom(g.table.rooms[r]);
    }
  }

  lemma EmptyGameInv(rows: map<UserId, Row>)
    requires WinsWithinTotals(rows)
    ensures GameInv(EmptyGame(rows))
  {
  }

  // ----- changing one room -----

  lemma AccountedAfterChange(rooms: map<RoomId, Room>, nextSeq: nat, ended: seq<Ended>, id: RoomId, m: Room)
    requires Accounted(rooms, nextSeq, ended) && id in rooms && m.birth == rooms[id].birth
    ensures Accounted(rooms[id := m], nextSeq, ended)
  {
    assert rooms[id := m].Keys == rooms.Keys;
    assert |rooms[id := m]| == |rooms|;
  }

  ghost predicate SameBut(s: set<RoomId>, s': set<RoomId>, id: RoomId) {
    forall r :: r != id ==> (r in s <==> r in s')
  }

  // The timer sets may change for the room that changes.
  lemma TimersAfterChange(rooms: map<RoomId, Room>, turn: set<RoomId>, lost: set<RoomId>, id: RoomId, m: Room,
      turn': set<RoomId>, lost': set<RoomId>)
    requires TimersOk(rooms, turn, lost, {id}) && id in rooms
    requires SameBut(turn, turn', id) && SameBut(lost, lost', id)
    ensures TimersOk(rooms[id := m], turn', lost', {id})
  {
    var rooms' := rooms[id := m];
    forall r | r != id && (r in rooms' || r in turn' || r in lost')
      ensures TimersFit(rooms', turn', lost', r)
    {
      assert TimersFit(rooms, turn, lost, r);
    }
  }

  // A room changed in place, its timers reset, messages sent.
  lemma ChangeKeepsInv(g: Game, g': Game, id: RoomId, m: Room)
    requires InvExcept(g, {id}) && id in g.table.rooms && SameSeats(g.table.rooms[id], m)
    requires g'.table == Update(g.table, id, m)
    requires SameBut(g.turnTimers, g'.turnTimers, id) && SameBut(g.lostTimers, g'.lostTimers, id)
    requires g'.rows == g.rows && g'.calls == g.calls && g'.ended == g.ended
    ensures InvExcept(g', {id})
  {
    UpdateKeepsTableInv(g.table, id, m);
    AccountedAfterChange(g.table.rooms, g.table.nextSeq, g.ended, id, m);
    TimersAfterChange(g.table.rooms, g.turnTimers, g.lostTimers, id, m, g'.turnTimers, g'.lostTimers);
    assert RoomsLive(g'.table.rooms, {id});
  }

  // The room under operation is in order again.
  lemma BackInOrder(g: Game, id: RoomId)
    requires InvExcept(g, {id}) && id in g.table.rooms && LiveRoom(g.table.rooms[id])
    requires TimersFit(g.table.rooms, g.turnTimers, g.lostTimers, id)
    ensures GameInv(g)
  {
    assert RoomsLive(g.table.rooms, {});
    assert TimersOk(g.table.rooms, g.turnTimers, g.lostTimers, {});
  }

  lemma Loosen(g: Game, id: RoomId)
    requires GameInv(g)
    ensures InvExcept(g, {id})
    ensures id in g.table.rooms ==> LiveRoom(g.table.rooms[id])
    ensures TimersFit(g.table.rooms, g.turnTimers, g.lostTimers, id)
  {
    assert RoomsLive(g.table.rooms, {id});
    assert TimersOk(g.table.rooms, g.turnTimers, g.lostTimers, {id});
    if id in g.table.rooms || id in g.turnTimers || id in g.lostTimers {
      assert TimersFit(g.table.rooms, g.turnTimers, g.lostTimers, id);
    }
  }

  // An operation that leaves the room being played.
  lemma ChangedInPlace(g: Game, g': Game, id: RoomId, m: Room)
    requires GameInv(g) && id in g.table.rooms && SameSeats(g.table.rooms[id], m)
    requires g'.table == Update(g.table, id, m)
    requires SameBut(g.turnTimers, g'.turnTimers, id) && SameBut(g.lostTimers, g'.lostTimers, id)
    requires g'.rows == g.rows && g'.calls == g.calls && g'.ended == g.ended
    requires LiveRoom(m) && TimersFit(g'.table.rooms, g'.turnTimers, g'.lostTimers, id)
    ensures GameInv(g')
  {
    Loosen(g, id);
    ChangeKeepsInv(g, g', id, m);
    BackInOrder(g', id);
  }

  // The state of a stored room and of its timers.
  lemma At(g: Game, id: RoomId)
    requires GameInv(g) && id in g.table.rooms
    ensures LiveRoom(g.table.rooms[id])
    ensures TimersFit(g.table.rooms, g.turnTimers, g.lostTimers, id)
    ensures g.table.rooms[id].id == id
    ensures BoardsOk(g)
  {
    Loosen(g, id);
    InvGivesBoards(g);
  }

  // ----- ending a room -----

  lemma DecidedAppend(es: seq<Ended>, e: Ended)
    ensures DecidedGames(es + [e]) == DecidedGames(es) + (if Decided(e) then 1 else 0)
  {
    assert (es + [e])[..|es + [e]| - 1] == es;
  }

  lemma AccountedAfterEnd(rooms: map<RoomId, Room>, nextSeq: nat, ended: seq<Ended>, id: RoomId, e: Ended)
    requires Accounted(rooms, nextSeq, ended) && id in rooms && e.birth == rooms[id].birth
    requires forall r :: r in rooms ==> rooms[r].birth < nextSeq
    requires forall r :: r in rooms && r != id ==> rooms[r].birth != rooms[id].birth
    ensures Accounted(rooms - {id}, nextSeq, ended + [e])
  {
    assert (rooms - {id}).Keys == rooms.Keys - {id};
    assert |(rooms - {id}).Keys| == |rooms.Keys| - 1;
  }

  lemma TimersAfterEnd(rooms: map<RoomId, Room>, turn: set<RoomId>, lost: set<RoomId>, id: RoomId)
    requires TimersOk(rooms, turn, lost, {id})
    ensures TimersOk(rooms - {id}, turn - {id}, lost - {id}, {})
  {
    forall r | r in rooms - {id} || r in turn - {id} || r in lost - {id}
      ensures TimersFit(rooms - {id}, turn - {id}, lost - {id}, r)
    {
      assert TimersFit(rooms, turn, lost, r);
    }
  }

  // Ending a room, in whatever state its last operation left it, restores the
  // whole invariant: room, index entries and timers are gone, one entry is
  // added to the history.
  lemma EndGameKeepsInv(g: Game, id: RoomId, res: GameResult, w: UserId, l: UserId, fails: set<DbStep>)
    requires InvExcept(g, {id}) && id in g.table.rooms
    ensures GameInv(EndGame(g, id, res, w, l, fails))
  {
    var e := Ended(g.table.rooms[id].birth, id, res, w, l);
    DestroyKeepsTableInv(g.table, id);
    assert RoomsLive(g.table.rooms - {id}, {});
    TimersAfterEnd(g.table.rooms, g.turnTimers, g.lostTimers, id);
    AccountedAfterEnd(g.table.rooms, g.table.nextSeq, g.ended, id, e);
    UpdateKeepsImbalance(g.rows, w, l, 25, 15, fails);
    DecidedAppend(g.ended, e);
  }

  // An operation that changes the room and then ends it.
  lemma ChangedThenEnded(g: Game, g1: Game, id: RoomId, m: Room, res: GameResult, w: UserId, l: UserId, fails: set<DbStep>)
    requires GameInv(g) && id in g.table.rooms && SameSeats(g.table.rooms[id], m)
    requires g1.table == Update(g.table, id, m)
    requires SameBut(g.turnTimers, g1.turnTimers, id) && SameBut(g.lostTimers, g1.lostTimers, id)
    requires g1.rows == g.rows && g1.calls == g.calls && g1.ended == g.ended
    ensures GameInv(EndGame(g1, id, res, w, l, fails))
  {
    Loosen(g, id);
    ChangeKeepsInv(g, g1, id, m);
    EndGameKeepsInv(g1, id, res, w, l, fails);
  }

  // ----- starting a room -----

  lemma AccountedAfterStart(rooms: map<RoomId, Room>, nextSeq: nat, ended: seq<Ended>, id: RoomId, m: Room)
    requires Accounted(rooms, nextSeq, ended) && id !in rooms && m.birth == nextSeq
    ensures Accounted(rooms[id := m], nextSeq + 1, ended)
  {
    assert rooms[id := m].Keys == rooms.Keys + {id};
    assert |rooms[id := m].Keys| == |rooms.Keys| + 1;
  }

  lemma TimersAfterStart(rooms: map<RoomId, Room>, turn: set<RoomId>, lost: set<RoomId>, id: RoomId, m: Room)
    requires TimersOk(rooms, turn, lost, {}) && id !in rooms && m.lost.None?
    ensures TimersOk(rooms[id := m], turn + {id}, lost, {})
  {
    assert id in lost ==> TimersFit(rooms, turn, lost, id);
    forall r | r in rooms[id := m] || r in turn + {id} || r in lost
      ensures TimersFit(rooms[id := m], turn + {id}, lost, r)
    {
      if r != id {
        assert TimersFit(rooms, turn, lost, r);
      }
    }
  }

  lemma StartKeepsInv(g: Game, p1: UserId, p2: UserId, id: RoomId)
    requires GameInv(g) && p1 != p2 && p1 > 0 && p2 > 0 && id !in g.table.rooms && id != ""
    ensures GameInv(Start(g, p1, p2, id).0)
  {
    CreateKeepsTableInv(g.table, p1, p2, id);
    if p1 !in g.table.users && p2 !in g.table.users {
      var m := NewRoom(id, g.table.nextSeq, p1, p2);
      NewRoomInv(id, g.table.nextSeq, p1, p2);
      assert RoomsLive(g.table.rooms[id := m], {});
      AccountedAfterStart(g.table.rooms, g.table.nextSeq, g.ended, id, m);
      TimersAfterStart(g.table.rooms, g.turnTimers, g.lostTimers, id, m);
    }
  }

  // ----- one lemma per handler -----

  lemma MoveKeepsLive(m: Room, u: UserId, row: int, col: int)
    requires LiveRoom(m)
    ensures
      var (m', res) := PlacePiece(m, u, row, col);
      && SameSeats(m, m')
      && (res == NoResult || res == MoveSuccess ==> LiveRoom(m'))
      && m'.lost == m.lost
      && res in {NoResult, MoveSuccess, BlackWin, WhiteWin, Draw}
  {
    PlacePieceKeepsInv(m, u, row, col);
  }

  lemma FlagKeepsLive(m: Room, lost: Option<UserId>)
    requires LiveRoom(m) && (lost.Some? ==> m.HasPlayer(lost.value))
    ensures LiveRoom(m.(lost := lost))
  {
  }

  lemma AfterMoveKeepsInv(g: Game, id: RoomId, u: UserId, row: int, col: int, m: Room, res: GameResult, fails: set<DbStep>)
    requires GameInv(g) && id in g.table.rooms && SameSeats(g.table.rooms[id], m) && m.lost == g.table.rooms[id].lost
    requires res == NoResult || res == MoveSuccess ==> LiveRoom(m)
    requires res in {NoResult, MoveSuccess, BlackWin, WhiteWin, Draw}
    ensures GameInv(AfterMove(g, id, u, row, col, m, res, fails))
  {
    Loosen(g, id);
    var g1 := Change(g, id, m);
    if res == BlackWin || res == WhiteWin {
      var g2 := Broadcast(g1, id, GameMove(row, col, ShownColor(m, u), None));
      var (w, l) := if res == BlackWin then (m.black, m.white) else (m.white, m.black);
      ChangedThenEnded(g, g2, id, m, res, w, l, fails);
    } else if res == Draw {
      ChangedThenEnded(g, g1, id, m, res, 0, 0, fails);
    } else {
      ChangedInPlace(g, AfterMove(g, id, u, row, col, m, res, fails), id, m);
    }
  }

  lemma MoveKeepsInv(g: Game, u: UserId, row: int, col: int, fails: set<DbStep>)
    requires GameInv(g)
    ensures BoardsOk(g) && GameInv(Move(g, u, row, col, fails))
  {
    InvGivesBoards(g);
    var at := RoomOf(g.table, u);
    if at.Some? {
      var id := at.value;
      At(g, id);
      MoveKeepsLive(g.table.rooms[id], u, row, col);
      var (m, res) := PlacePiece(g.table.rooms[id], u, row, col);
      AfterMoveKeepsInv(g, id, u, row, col, m, res, fails);
    }
  }

  lemma SurrenderKeepsInv(g: Game, u: UserId, fails: set<DbStep>)
    requires GameInv(g)
    ensures GameInv(Surrender(g, u, fails))
  {
    var at := RoomOf(g.table, u);
    if at.Some? {
      var id := at.value;
      At(g, id);
      BijectionMeans(g.table, u, id);
      var (m, res) := Resign(g.table.rooms[id], u);
      ChangedThenEnded(g, Change(g, id, m), id, m, GaveUp, m.Opponent(u), u, fails);
    }
  }

  lemma LoseKeepsInv(g: Game, u: UserId)
    requires GameInv(g)
    ensures GameInv(Lose(g, u))
  {
    var at := RoomOf(g.table, u);
    if at.Some? && g.table.rooms[at.value].lost.None? {
      var id := at.value;
      At(g, id);
      BijectionMeans(g.table, u, id);
      FlagKeepsLive(g.table.rooms[id], Some(u));
      ChangedInPlace(g, Lose(g, u), id, g.table.rooms[id].(lost := Some(u)));
    }
  }

  lemma WelcomeKeepsInv(g: Game, id: RoomId, u: UserId)
    requires GameInv(g) && id in g.table.rooms
    ensures GameInv(Welcome(g, id, u)) && id in Welcome(g, id, u).table.rooms
    ensures IsBoard(Welcome(g, id, u).table.rooms[id].board)
  {
    At(g, id);
    if g.table.rooms[id].lost == Some(u) {
      FlagKeepsLive(g.table.rooms[id], None);
      ChangedInPlace(g, Welcome(g, id, u), id, g.table.rooms[id].(lost := None));
    }
  }

  lemma ReconnectKeepsInv(g: Game, u: UserId)
    requires GameInv(g)
    ensures BoardsOk(g) && GameInv(Reconnect(g, u))
  {
    InvGivesBoards(g);
    if RoomOf(g.table, u).Some? {
      WelcomeKeepsInv(g, RoomOf(g.table, u).value, u);
    }
  }

  lemma AcceptKeepsInv(g: Game, u: UserId)
    requires GameInv(g)
    ensures GameInv(Accept(g, u))
  {
    if RoomOf(g.table, u).Some? {
      WelcomeKeepsInv(g, RoomOf(g.table, u).value, u);
    }
  }

  lemma RejectKeepsInv(g: Game, u: UserId, fails: set<DbStep>)
    requires GameInv(g)
    ensures GameInv(Reject(g, u, fails))
  {
    var at := RoomOf(g.table, u);
    if at.Some? {
      var id := at.value;
      var m := g.table.rooms[id];
      var g1 := Change(g, id, m.(lost := None)).(lostTimers := g.lostTimers - {id});
      ChangedThenEnded(g, g1, id, m.(lost := None), GaveUp, m.Opponent(u), u, fails);
    }
  }

  // Firing a turn timer for a room that is gone, or in which somebody is
  // flagged, changes nothing but the timer map.
  lemma TurnFiresKeepsInv(g: Game, id: RoomId, fails: set<DbStep>)
    requires GameInv(g)
    ensures GameInv(TurnFires(g, id, fails))
  {
    Loosen(g, id);
    var g1 := g.(turnTimers := g.turnTimers - {id});
    if id in g.table.rooms {
      var m := g.table.rooms[id];
      assert Update(g.table, id, m) == g.table;
      if m.lost.None? {
        ChangedThenEnded(g, g1, id, m, Timeout, m.Opponent(m.CurrentTurn()), m.CurrentTurn(), fails);
      } else {
        ChangedInPlace(g, g1, id, m);
      }
    } else {
      assert g1 == g;
    }
  }

  lemma LostFiresKeepsInv(g: Game, id: RoomId, fails: set<DbStep>)
    requires GameInv(g)
    ensures GameInv(LostFires(g, id, fails))
  {
    Loosen(g, id);
    var g1 := g.(lostTimers := g.lostTimers - {id});
    if id in g.table.rooms && g.table.rooms[id].lost.Some? {
      var m := g.table.rooms[id];
      var g2 := Change(g1, id, m.(lost := None));
      ChangedThenEnded(g, g2, id, m.(lost := None), Timeout, m.Opponent(m.lost.value), m.lost.value, fails);
    } else {
      assert g1 == g;
    }
  }

  // Since a finished room never survives the operation that finished it, the
  // clean-up after a disconnect never destroys anything.
  lemma CleanupDoesNothing(g: Game, u: UserId)
    requires GameInv(g)
    ensures Cleanup(g, u) == g
  {
    if RoomOf(g.table, u).Some? {
      Loosen(g, RoomOf(g.table, u).value);
    }
  }

  lemma GameStepKeepsInv(g: Game, e: GameEvent)
    requires GameInv(g) && Allowed(g, e)
    ensures BoardsOk(g) && GameInv(GameStep(g, e))
  {
    InvGivesBoards(g);
    match e {
      case EStart(p1, p2, id) => StartKeepsInv(g, p1, p2, id);
      case EMove(u, row, col, fails) => MoveKeepsInv(g, u, row, col, fails);
      case ESurrender(u, fails) => SurrenderKeepsInv(g, u, fails);
      case ELose(u) => LoseKeepsInv(g, u);
      case EReconnect(u) => ReconnectKeepsInv(g, u);
      case EAccept(u) => AcceptKeepsInv(g, u);
      case EReject(u, fails) => RejectKeepsInv(g, u, fails);
      case ETurnFires(id, fails) => TurnFiresKeepsInv(g, id, fails);
      case ELostFires(id, fails) => LostFiresKeepsInv(g, id, fails);
      case ECleanup(u) => CleanupDoesNothing(g, u);
      case EOnline(users) =>
    }
  }
}
