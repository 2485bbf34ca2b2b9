// The main results about the game controller.
module GameTheorems {
  import opened Basics
  import opened Rooms
  import opened RoomIndex
  import opened RoomIds
  import opened ScoreTable
  import opened Online
  import opened Game
  import opened GameProofs

  // ----- runs -----

  ghost predicate RunOk(g: Game, es: seq<GameEvent>)
    requires GameInv(g)
    decreases |es|
  {
    es == [] || (Allowed(g, es[0]) && (GameStepKeepsInv(g, es[0]); RunOk(GameStep(g, es[0]), es[1..])))
  }

  ghost function GameRun(g: Game, es: seq<GameEvent>): (g': Game)
    requires GameInv(g) && RunOk(g, es)
    ensures GameInv(g')
    decreases |es|
  {
    if es == [] then g else
    GameStepKeepsInv(g, es[0]);
    GameRun(GameStep(g, es[0]), es[1..])
  }

  // ----- how a step can change the rooms -----

  // The room an event is about.
  function Target(g: Game, e: GameEvent): Option<RoomId> {
    match e
    case EStart(_, _, id) => Some(id)
    case EMove(u, _, _, _) => RoomOf(g.table, u)
    case ESurrender(u, _) => RoomOf(g.table, u)
    case ELose(u) => RoomOf(g.table, u)
    case EReconnect(u) => RoomOf(g.table, u)
    case EAccept(u) => RoomOf(g.table, u)
    case EReject(u, _) => RoomOf(g.table, u)
    case ETurnFires(id, _) => Some(id)
    case ELostFires(id, _) => Some(id)
    case ECleanup(u) => RoomOf(g.table, u)
    case EOnline(_) => None
  }

  // The four shapes a step can have, seen from the tables: nothing but stale
  // timers and messages; a change inside room id; the end of room id; its start.
  ghost predicate OnlyTimersOf(g: Game, g': Game, id: RoomId) {
    SameBut(g.turnTimers, g'.turnTimers, id) && SameBut(g.lostTimers, g'.lostTimers, id)
  }

  ghost predicate Nothing(g: Game, g': Game, id: RoomId) {
    OnlyTimersOf(g, g', id) && g'.table == g.table && g'.ended == g.ended
  }

  ghost predicate InPlace(g: Game, g': Game, id: RoomId) {
    && OnlyTimersOf(g, g', id)
    && id in g.table.rooms && id in g'.table.rooms
    && SameSeats(g.table.rooms[id], g'.table.rooms[id])
    && g'.table == Update(g.table, id, g'.table.rooms[id])
    && g'.ended == g.ended
  }

  ghost predicate TheEnd(g: Game, g': Game, id: RoomId) {
    && OnlyTimersOf(g, g', id) && id !in g'.turnTimers && id !in g'.lostTimers
    && id in g.table.rooms
    && g'.table == Destroy(g.table, id)
    && |g'.ended| == |g.ended| + 1 && g'.ended[..|g.ended|] == g.ended
    && g'.ended[|g.ended|].birth == g.table.rooms[id].birth
    && g'.ended[|g.ended|].room == id
    && StatusOf(g'.online, g.table.rooms[id].black) in {HallIdle, Offline}
    && StatusOf(g'.online, g.table.rooms[id].white) in {HallIdle, Offline}
  }

  ghost predicate TheStart(g: Game, g': Game, id: RoomId) {
    && OnlyTimersOf(g, g', id)
    && id in g'.table.rooms && g'.table.rooms[id].birth == g.table.nextSeq
    && g'.table.rooms == g.table.rooms[id := g'.table.rooms[id]]
    && g'.table.nextSeq == g.table.nextSeq + 1
    && g'.ended == g.ended
  }

  ghost predicate Shaped(g: Game, g': Game, id: RoomId) {
    Nothing(g, g', id) || InPlace(g, g', id) || TheEnd(g, g', id)
  }

  lemma EndIsTheEnd(g: Game, g1: Game, id: RoomId, m: Room, res: GameResult, w: UserId, l: UserId, fails: set<DbStep>)
    requires id in g.table.rooms && SameSeats(g.table.rooms[id], m) && g1.table == Update(g.table, id, m)
    requires OnlyTimersOf(g, g1, id) && g1.ended == g.ended
    ensures TheEnd(g, EndGame(g1, id, res, w, l, fails), id)
  {
    assert g.table.rooms[id := m] - {id} == g.table.rooms - {id};
  }

  lemma MoveShape(g: Game, u: UserId, row: int, col: int, fails: set<DbStep>)
    requires BoardsOk(g) && RoomOf(g.table, u).Some?
    ensures Shaped(g, Move(g, u, row, col, fails), RoomOf(g.table, u).value)
  {
    var id := RoomOf(g.table, u).value;
    var (m, res) := PlacePiece(g.table.rooms[id], u, row, col);
    AfterMoveShape(g, id, u, row, col, m, res, fails);
  }

  lemma AfterMoveShape(g: Game, id: RoomId, u: UserId, row: int, col: int, m: Room, res: GameResult, fails: set<DbStep>)
    requires id in g.table.rooms && SameSeats(g.table.rooms[id], m)
    ensures Shaped(g, AfterMove(g, id, u, row, col, m, res, fails), id)
  {
    var g1 := Change(g, id, m);
    if res == BlackWin || res == WhiteWin {
      var g2 := Broadcast(g1, id, GameMove(row, col, ShownColor(m, u), None));
      var (w, l) := if res == BlackWin then (m.black, m.white) else (m.white, m.black);
      EndIsTheEnd(g, g2, id, m, res, w, l, fails);
    } else if res == Draw {
      EndIsTheEnd(g, g1, id, m, res, 0, 0, fails);
    }
  }

  lemma SurrenderShape(g: Game, u: UserId, fails: set<DbStep>)
    requires RoomOf(g.table, u).Some?
    ensures Shaped(g, Surrender(g, u, fails), RoomOf(g.table, u).value)
  {
    var id := RoomOf(g.table, u).value;
    var (m, res) := Resign(g.table.rooms[id], u);
    EndIsTheEnd(g, Change(g, id, m), id, m, GaveUp, m.Opponent(u), u, fails);
  }

  lemma RejectShape(g: Game, u: UserId, fails: set<DbStep>)
    requires RoomOf(g.table, u).Some?
    ensures Shaped(g, Reject(g, u, fails), RoomOf(g.table, u).value)
  {
    var id := RoomOf(g.table, u).value;
    var m := g.table.rooms[id];
    var g1 := Change(g, id, m.(lost := None)).(lostTimers := g.lostTimers - {id});
    EndIsTheEnd(g, g1, id, m.(lost := None), GaveUp, m.Opponent(u), u, fails);
  }

  lemma FiringShape(g: Game, id: RoomId, fails: set<DbStep>)
    ensures Shaped(g, TurnFires(g, id, fails), id)
    ensures Shaped(g, LostFires(g, id, fails), id)
  {
    if id in g.table.rooms {
      var m := g.table.rooms[id];
      assert Update(g.table, id, m) == g.table;
      EndIsTheEnd(g, g.(turnTimers := g.turnTimers - {id}), id, m, Timeout, m.Opponent(m.CurrentTurn()), m.CurrentTurn(), fails);
      if m.lost.Some? {
        var g1 := Change(g.(lostTimers := g.lostTimers - {id}), id, m.(lost := None));
        EndIsTheEnd(g, g1, id, m.(lost := None), Timeout, m.Opponent(m.lost.value), m.lost.value, fails);
      }
    }
  }

  lemma FlagShape(g: Game, u: UserId)
    requires BoardsOk(g) && RoomOf(g.table, u).Some?
    ensures Shaped(g, Lose(g, u), RoomOf(g.table, u).value)
    ensures Shaped(g, Reconnect(g, u), RoomOf(g.table, u).value)
    ensures Shaped(g, Accept(g, u), RoomOf(g.table, u).value)
  {
  }

  // Every step has one of the shapes, for the room it is about.
  lemma StepShape(g: Game, e: GameEvent)
    requires BoardsOk(g) && !e.EStart? && !e.ECleanup?
    ensures
      var at := Target(g, e);
      if at.Some? then Shaped(g, GameStep(g, e), at.value)
      else Nothing(g, GameStep(g, e), "")
  {
    if Target(g, e).Some? {
      match e {
        case EMove(u, row, col, fails) => MoveShape(g, u, row, col, fails);
        case ESurrender(u, fails) => SurrenderShape(g, u, fails);
        case ELose(u) => FlagShape(g, u);
        case EReconnect(u) => FlagShape(g, u);
        case EAccept(u) => FlagShape(g, u);
        case EReject(u, fails) => RejectShape(g, u, fails);
        case ETurnFires(id, fails) => FiringShape(g, id, fails);
        case ELostFires(id, fails) => FiringShape(g, id, fails);
      }
    }
  }

  lemma StartShape(g: Game, p1: UserId, p2: UserId, id: RoomId)
    requires id !in g.table.rooms && id != ""
    ensures
      var g' := Start(g, p1, p2, id).0;
      (g' == g || TheStart(g, g', id))
  {
  }

  // The shape of any step in an invariant state.
  ghost predicate AnyShape(g: Game, g': Game, id: RoomId) {
    Shaped(g, g', id) || (TheStart(g, g', id) && id !in g.table.rooms)
  }

  function TargetId(g: Game, e: GameEvent): RoomId {
    if Target(g, e).Some? then Target(g, e).value else ""
  }

  lemma EveryStepHasAShape(g: Game, e: GameEvent)
    requires GameInv(g) && Allowed(g, e)
    ensures BoardsOk(g) && AnyShape(g, GameStep(g, e), TargetId(g, e))
  {
    InvGivesBoards(g);
    if e.EStart? {
      StartShape(g, e.p1, e.p2, e.newId);
    } else if e.ECleanup? {
      CleanupDoesNothing(g, e.user);
    } else {
      StepShape(g, e);
    }
  }

  // Room r and its timers are the same in g and g'.
  ghost predicate Untouched(g: Game, g': Game, r: RoomId) {
    && (r in g'.table.rooms <==> r in g.table.rooms)
    && (r in g.table.rooms ==> r in g'.table.rooms && g'.table.rooms[r] == g.table.rooms[r])
    && (r in g'.turnTimers <==> r in g.turnTimers)
    && (r in g'.lostTimers <==> r in g.lostTimers)
  }

  lemma ShapeSparesOthers(g: Game, g': Game, id: RoomId, r: RoomId)
    requires AnyShape(g, g', id) && r != id
    ensures Untouched(g, g', r)
  {
  }

  lemma ShapeKeepsSeats(g: Game, g': Game, id: RoomId, r: RoomId)
    requires AnyShape(g, g', id) && r in g.table.rooms && r in g'.table.rooms
    ensures SameSeats(g.table.rooms[r], g'.table.rooms[r])
  {
  }

  // An operation on one room leaves every other room, and its timers, alone.
  lemma OtherRoomsUntouched(g: Game, e: GameEvent, r: RoomId)
    requires GameInv(g) && Allowed(g, e) && TargetId(g, e) != r
    ensures BoardsOk(g) && Untouched(g, GameStep(g, e), r)
  {
    EveryStepHasAShape(g, e);
    ShapeSparesOthers(g, GameStep(g, e), TargetId(g, e), r);
  }

  // ----- generated identifiers are never in use -----

  // As long as no live room is 10000 creations old, the identifier that
  // generate_room_id produces meets what a start needs, whatever the clock is.
  lemma GeneratedIdIsFresh(g: Game, p1: UserId, p2: UserId, clock: nat)
    requires Tagged(g.table) && Young(g.table) && p1 != p2 && p1 > 0 && p2 > 0
    ensures Allowed(g, EStart(p1, p2, MakeId(clock, g.table.nextSeq)))
  {
    NextIdIsFresh(g.table, clock);
  }

  lemma StepKeepsTags(g: Game, e: GameEvent)
    requires GameInv(g) && Allowed(g, e) && Tagged(g.table)
    requires e.EStart? ==> exists clock: nat :: e.newId == MakeId(clock, g.table.nextSeq)
    ensures BoardsOk(g) && Tagged(GameStep(g, e).table)
  {
    InvGivesBoards(g);
    if e.EStart? {
      var clock: nat :| e.newId == MakeId(clock, g.table.nextSeq);
      CreateKeepsTags(g.table, e.p1, e.p2, clock);
    } else if e.ECleanup? {
      CleanupDoesNothing(g, e.user);
    } else {
      StepShape(g, e);
      ShapeKeepsTags(g, GameStep(g, e), TargetId(g, e));
    }
  }

  lemma ShapeKeepsTags(g: Game, g': Game, id: RoomId)
    requires Shaped(g, g', id) && Tagged(g.table)
    ensures Tagged(g'.table)
  {
  }

  // ----- each created room is live or ended, and ended only once -----

  function BirthsOf(rooms: map<RoomId, Room>): (births: set<nat>)
    ensures forall b: nat :: b in births <==> exists r :: r in rooms && rooms[r].birth == b
  {
    set r | r in rooms :: rooms[r].birth
  }

  predicate DistinctBirths(rooms: map<RoomId, Room>) {
    forall r, q :: r in rooms && q in rooms && r != q ==> rooms[r].birth != rooms[q].birth
  }

  lemma BirthsOfRooms(rooms: map<RoomId, Room>)
    requires DistinctBirths(rooms)
    ensures |BirthsOf(rooms)| == |rooms|
    decreases |rooms|
  {
    if rooms.Keys == {} {
      assert BirthsOf(rooms) == {};
    } else {
      var id :| id in rooms;
      var rest := rooms - {id};
      assert rest.Keys == rooms.Keys - {id};
      forall b: nat
        ensures b in BirthsOf(rooms) <==> b in BirthsOf(rest) || b == rooms[id].birth
      {
        if b in BirthsOf(rooms) {
          var r :| r in rooms && rooms[r].birth == b;
          assert r != id ==> r in rest && rest[r].birth == b;
        }
        if b in BirthsOf(rest) {
          var r :| r in rest && rest[r].birth == b;
          assert r in rooms && rooms[r].birth == b;
        }
      }
      assert BirthsOf(rooms) == BirthsOf(rest) + {rooms[id].birth};
      assert rooms[id].birth !in BirthsOf(rest);
      BirthsOfRooms(rest);
    }
  }

  function BirthsIn(es: seq<Ended>): (births: set<nat>)
    ensures forall b :: b in births <==> exists i :: 0 <= i < |es| && es[i].birth == b
  {
    set i | 0 <= i < |es| :: es[i].birth
  }

  lemma BirthsOfEnded(es: seq<Ended>)
    requires forall i, j :: 0 <= i < j < |es| ==> es[i].birth != es[j].birth
    ensures |BirthsIn(es)| == |es|
  {
    if es == [] {
      assert BirthsIn(es) == {};
    } else {
      var n := |es| - 1;
      var rest := es[..n];
      forall b
        ensures b in BirthsIn(es) <==> b in BirthsIn(rest) || b == es[n].birth
      {
        if b in BirthsIn(es) {
          var i :| 0 <= i < |es| && es[i].birth == b;
          assert i < n ==> rest[i].birth == b;
        }
        if b in BirthsIn(rest) {
          var i :| 0 <= i < |rest| && rest[i].birth == b;
          assert es[i].birth == b;
        }
      }
      assert BirthsIn(es) == BirthsIn(rest) + {es[n].birth};
      assert es[n].birth !in BirthsIn(rest);
      BirthsOfEnded(rest);
    }
  }

  function Below(n: nat): (s: set<nat>)
    ensures |s| == n && forall b: nat :: b in s <==> b < n
  {
    if n == 0 then {} else Below(n - 1) + {n - 1}
  }

  lemma FullSubset(a: set<nat>, b: set<nat>)
    requires a <= b && |a| == |b|
    ensures a == b
  {
    assert b == a + (b - a);
    assert |b| == |a| + |b - a|;
  }

  lemma BirthsFillTheSequence(rooms: map<RoomId, Room>, nextSeq: nat, ended: seq<Ended>, b: nat)
    requires Accounted(rooms, nextSeq, ended) && b < nextSeq && DistinctBirths(rooms)
    requires forall r :: r in rooms ==> rooms[r].birth < nextSeq
    ensures b in BirthsOf(rooms) <==> b !in BirthsIn(ended)
  {
    BirthsOfRooms(rooms);
    BirthsOfEnded(ended);
    Filled(BirthsOf(rooms), BirthsIn(ended), nextSeq);
    assert b in BirthsOf(rooms) + BirthsIn(ended);
  }

  lemma Filled(live: set<nat>, over: set<nat>, n: nat)
    requires live !! over && |live| + |over| == n
    requires forall b :: b in live || b in over ==> b < n
    ensures live + over == Below(n)
  {
    assert |live + over| == |live| + |over|;
    FullSubset(live + over, Below(n));
  }

  // The b-th room that was ever created is either stored or ended; never both,
  // and never ended twice.
  lemma LiveOrEndedOnce(g: Game, b: nat)
    requires GameInv(g) && b < g.table.nextSeq
    ensures (exists r :: r in g.table.rooms && g.table.rooms[r].birth == b)
      <==> !(exists i :: 0 <= i < |g.ended| && g.ended[i].birth == b)
    ensures forall i, j :: 0 <= i < j < |g.ended| ==> g.ended[i].birth != g.ended[j].birth
  {
    BirthsFillTheSequence(g.table.rooms, g.table.nextSeq, g.ended, b);
  }

  // A room leaves the table exactly by being entered once into the history; its
  // index entries and both its timers go with it, and its players are idle.
  ghost predicate LeavesOnlyByEnding(g: Game, g': Game, r: RoomId)
    requires r in g.table.rooms
  {
    var m := g.table.rooms[r];
    && g.ended <= g'.ended && |g'.ended| <= |g.ended| + 1
    && (r in g'.table.rooms <==> !(exists i :: |g.ended| <= i < |g'.ended| && g'.ended[i].birth == m.birth))
    && (r !in g'.table.rooms ==>
      && m.black !in g'.table.users && m.white !in g'.table.users
      && r !in g'.turnTimers && r !in g'.lostTimers
      && StatusOf(g'.online, m.black) in {HallIdle, Offline} && StatusOf(g'.online, m.white) in {HallIdle, Offline})
  }

  lemma ShapeOfLeaving(g: Game, g': Game, id: RoomId, r: RoomId)
    requires AnyShape(g, g', id) && TableInv(g.table) && r in g.table.rooms
    ensures LeavesOnlyByEnding(g, g', r)
  {
    if TheEnd(g, g', id) {
      assert g'.ended[|g.ended|].birth == g.table.rooms[id].birth;
      DestroyRemovesItsPlayers(g.table, id);
    }
  }

  lemma EndingCleansUp(g: Game, e: GameEvent, r: RoomId)
    requires GameInv(g) && Allowed(g, e) && r in g.table.rooms
    ensures BoardsOk(g) && LeavesOnlyByEnding(g, GameStep(g, e), r)
  {
    EveryStepHasAShape(g, e);
    ShapeOfLeaving(g, GameStep(g, e), TargetId(g, e), r);
  }
}
