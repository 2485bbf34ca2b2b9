// The table of rooms and the index from users to rooms.
module RoomIndex {
  import opened Basics
  import opened Board
  import opened Rooms
  import opened RoomIds

  datatype Table = Table(rooms: map<RoomId, Room>, users: map<UserId, RoomId>, nextSeq: nat)

  // ----- the operations as functions -----

  // `id` is the identifier generated for the new room.  The empty string stands
  // for a refused creation.
  function Create(x: Table, p1: UserId, p2: UserId, id: RoomId): (Table, RoomId) {
    if p1 in x.users || p2 in x.users then (x, "") else
    (Table(x.rooms[id := NewRoom(id, x.nextSeq, p1, p2)], x.users[p1 := id][p2 := id], x.nextSeq + 1), id)
  }

  function Destroy(x: Table, id: RoomId): Table {
    if id !in x.rooms then x else
    Table(x.rooms - {id}, map u | u in x.users && x.users[u] != id :: x.users[u], x.nextSeq)
  }

  function RoomOf(x: Table, u: UserId): Option<RoomId> {
    if u in x.users && x.users[u] in x.rooms then Some(x.users[u]) else None
  }

  // The index after one room was changed in place.
  function Update(x: Table, id: RoomId, m: Room): Table {
    x.(rooms := x.rooms[id := m])
  }

  // ----- the two maps are inverse to each other -----

  // A user maps to room r exactly when r exists and the user plays in it.
  predicate Bijection(x: Table) {
    && (forall u {:trigger IsPlaced(x, u)} :: u in x.users ==> IsPlaced(x, u))
    && (forall r {:trigger IsIndexed(x, r)} :: r in x.rooms ==> IsIndexed(x, r))
  }

  predicate IsPlaced(x: Table, u: UserId)
    requires u in x.users
  {
    x.users[u] in x.rooms && x.rooms[x.users[u]].HasPlayer(u)
  }

  predicate IsIndexed(x: Table, r: RoomId)
    requires r in x.rooms
  {
    && x.rooms[r].black != x.rooms[r].white
    && x.rooms[r].black in x.users && x.users[x.rooms[r].black] == r
    && x.rooms[r].white in x.users && x.users[x.rooms[r].white] == r
  }

  lemma BijectionMeans(x: Table, u: UserId, r: RoomId)
    requires Bijection(x)
    ensures (u in x.users && x.users[u] == r) <==> (r in x.rooms && x.rooms[r].HasPlayer(u))
    ensures RoomOf(x, u) == Some(r) <==> (r in x.rooms && x.rooms[r].HasPlayer(u))
  {
    assert u in x.users ==> IsPlaced(x, u);
    assert r in x.rooms ==> IsIndexed(x, r);
  }

  // Nobody plays in two rooms.
  lemma OneRoomPerUser(x: Table, u: UserId, r1: RoomId, r2: RoomId)
    requires Bijection(x) && r1 in x.rooms && r2 in x.rooms
    requires x.rooms[r1].HasPlayer(u) && x.rooms[r2].HasPlayer(u)
    ensures r1 == r2
  {
    BijectionMeans(x, u, r1);
    BijectionMeans(x, u, r2);
  }

  // Creating a room keeps the bijection exactly when the new identifier is not
  // in use: otherwise the old room's players would be sent to the new room.
  lemma CreateKeepsBijectionIff(x: Table, p1: UserId, p2: UserId, id: RoomId)
    requires Bijection(x) && p1 != p2 && p1 !in x.users && p2 !in x.users
    ensures Bijection(Create(x, p1, p2, id).0) <==> id !in x.rooms
  {
    var y := Create(x, p1, p2, id).0;
    if id in x.rooms {
      assert IsIndexed(x, id);
      assert !IsPlaced(y, x.rooms[id].black);
    } else {
      forall u | u in y.users
        ensures IsPlaced(y, u)
      {
        assert u in x.users ==> IsPlaced(x, u);
      }
      forall r | r in y.rooms
        ensures IsIndexed(y, r)
      {
        assert r in x.rooms ==> IsIndexed(x, r);
      }
    }
  }

  // Destroying a room removes exactly its two players from the index.
  lemma DestroyRemovesItsPlayers(x: Table, id: RoomId)
    requires Bijection(x) && id in x.rooms
    ensures x.rooms[id].black in x.users && x.rooms[id].white in x.users && x.rooms[id].black != x.rooms[id].white
    ensures Destroy(x, id).users == x.users - {x.rooms[id].black, x.rooms[id].white}
    ensures Bijection(Destroy(x, id))
  {
    var m := x.rooms[id];
    assert IsIndexed(x, id);
    forall u | u in x.users
      ensures x.users[u] == id <==> u == m.black || u == m.white
    {
      BijectionMeans(x, u, id);
    }
    var y := Destroy(x, id);
    forall u | u in y.users
      ensures IsPlaced(y, u)
    {
      assert IsPlaced(x, u);
    }
    forall r | r in y.rooms
      ensures IsIndexed(y, r)
    {
      assert IsIndexed(x, r);
    }
  }

  lemma DestroySizes(x: Table, id: RoomId, p1: UserId, p2: UserId)
    requires id in x.rooms && p1 in x.users && p2 in x.users && p1 != p2
    requires Destroy(x, id).users == x.users - {p1, p2}
    ensures |Destroy(x, id).rooms| == |x.rooms| - 1
    ensures |Destroy(x, id).users| == |x.users| - 2
  {
    RemovedFrom(x.rooms, {id});
    RemovedFrom(x.users, {p1, p2});
  }

  // In every state with the bijection there are two index entries per room.
  lemma {:induction false} TwoUsersPerRoom(x: Table)
    requires Bijection(x)
    ensures |x.users| == 2 * |x.rooms|
    decreases |x.rooms|
  {
    if x.rooms.Keys == {} {
      assert forall u :: u in x.users ==> IsPlaced(x, u);
      assert x.users.Keys == {};
    } else {
      var id :| id in x.rooms;
      DestroyRemovesItsPlayers(x, id);
      DestroySizes(x, id, x.rooms[id].black, x.rooms[id].white);
      TwoUsersPerRoom(Destroy(x, id));
    }
  }

  // ----- identifiers -----

  // Every stored room carries its own identifier; birth numbers are different.
  predicate Stamped(x: Table) {
    && "" !in x.rooms
    && (forall r :: r in x.rooms ==> x.rooms[r].id == r && x.rooms[r].birth < x.nextSeq)
    && (forall r, q :: r in x.rooms && q in x.rooms && r != q ==> x.rooms[r].birth != x.rooms[q].birth)
  }

  // The tag of an identifier is the birth number modulo 10000.
  predicate Tagged(x: Table) {
    forall r :: r in x.rooms ==> x.rooms[r].birth < x.nextSeq && Tag(r) == x.rooms[r].birth % 10000
  }

  // No stored room has seen 10000 later creations.
  predicate Young(x: Table) {
    forall r :: r in x.rooms ==> x.nextSeq < x.rooms[r].birth + 10000
  }

  // Then the next identifier is fresh, whatever the clock says.
  lemma NextIdIsFresh(x: Table, clock: nat)
    requires Tagged(x) && Young(x)
    ensures MakeId(clock, x.nextSeq) !in x.rooms
    ensures MakeId(clock, x.nextSeq) != ""
  {
    IdTellsNumber(clock, x.nextSeq);
    forall r | r in x.rooms
      ensures Tag(r) != x.nextSeq % 10000
    {
      RemaindersDiffer(x.rooms[r].birth, x.nextSeq);
    }
  }

  lemma CreateKeepsTags(x: Table, p1: UserId, p2: UserId, clock: nat)
    requires Tagged(x)
    ensures Tagged(Create(x, p1, p2, MakeId(clock, x.nextSeq)).0)
  {
    IdTellsNumber(clock, x.nextSeq);
  }

  predicate TableInv(x: Table) {
    Bijection(x) && Stamped(x)
  }

  lemma CreateKeepsTableInv(x: Table, p1: UserId, p2: UserId, id: RoomId)
    requires TableInv(x) && p1 != p2 && id !in x.rooms && id != ""
    ensures TableInv(Create(x, p1, p2, id).0)
  {
    if p1 !in x.users && p2 !in x.users {
      CreateKeepsBijectionIff(x, p1, p2, id);
    }
  }

  lemma DestroyKeepsTableInv(x: Table, id: RoomId)
    requires TableInv(x)
    ensures TableInv(Destroy(x, id))
  {
    if id in x.rooms {
      DestroyRemovesItsPlayers(x, id);
    }
  }

  lemma UpdateKeepsBijection(x: Table, id: RoomId, m: Room)
    requires Bijection(x) && id in x.rooms && SameSeats(x.rooms[id], m)
    ensures Bijection(Update(x, id, m))
  {
    var y := Update(x, id, m);
    forall u | u in y.users
      ensures IsPlaced(y, u)
    {
      assert IsPlaced(x, u);
    }
    forall r | r in y.rooms
      ensures IsIndexed(y, r)
    {
      assert IsIndexed(x, r);
    }
  }

  // Changing a room in place, keeping its identity and its players, keeps the
  // table in order.
  lemma UpdateKeepsTableInv(x: Table, id: RoomId, m: Room)
    requires TableInv(x) && id in x.rooms && SameSeats(x.rooms[id], m)
    ensures TableInv(Update(x, id, m))
  {
    UpdateKeepsBijection(x, id, m);
  }

  predicate SameSeats(m: Room, m': Room) {
    m'.id == m.id && m'.birth == m.birth && m'.black == m.black && m'.white == m.white
  }

  // ----- runs -----

  datatype TableEvent = Make(p1: UserId, p2: UserId, clock: nat) | Drop(id: RoomId)

  function TableStep(x: Table, e: TableEvent): Table {
    match e
    case Make(p1, p2, clock) => Create(x, p1, p2, MakeId(clock, x.nextSeq)).0
    case Drop(id) => Destroy(x, id)
  }

  // A creation is asked for two different users, and no live room is 10000
  // creations old.
  predicate MayHappen(x: Table, e: TableEvent) {
    e.Make? ==> e.p1 != e.p2 && Young(x)
  }

  predicate MayRun(x: Table, es: seq<TableEvent>)
    decreases |es|
  {
    es == [] || (MayHappen(x, es[0]) && MayRun(TableStep(x, es[0]), es[1..]))
  }

  function TableRun(x: Table, es: seq<TableEvent>): Table
    decreases |es|
  {
    if es == [] then x else TableRun(TableStep(x, es[0]), es[1..])
  }

  // In every state reached from the empty manager the two maps are inverse and
  // the index has twice as many entries as there are rooms.
  lemma {:induction false} RunKeepsTableInv(x: Table, es: seq<TableEvent>)
    requires TableInv(x) && Tagged(x) && MayRun(x, es)
    ensures TableInv(TableRun(x, es)) && Tagged(TableRun(x, es))
    ensures |TableRun(x, es).users| == 2 * |TableRun(x, es).rooms|
    decreases |es|
  {
    if es == [] {
      TwoUsersPerRoom(x);
    } else {
      match es[0] {
        case Make(p1, p2, clock) =>
          NextIdIsFresh(x, clock);
          CreateKeepsTags(x, p1, p2, clock);
          CreateKeepsTableInv(x, p1, p2, MakeId(clock, x.nextSeq));
        case Drop(id) => DestroyKeepsTableInv(x, id);
      }
      RunKeepsTableInv(TableStep(x, es[0]), es[1..]);
    }
  }

  // ----- the manager object -----

  class RoomManager {
    var rooms: map<RoomId, GameRoom>
    var userRoom: map<UserId, RoomId>
    var nextSeq: nat

    // The room objects and their boards, and the rooms as values.
    ghost var Repr: set<object>
    ghost var view: map<RoomId, Room>

    ghost predicate Shows(r: RoomId)
      requires r in rooms && r in view
      reads this`rooms, this`view, rooms[r], rooms[r].board
    {
      rooms[r].Valid() && rooms[r].id == r && rooms[r].State() == view[r]
    }

    ghost predicate Separate()
      reads this`rooms, this`view, this`Repr
    {
      && view.Keys == rooms.Keys
      && (forall r :: r in view ==> IsBoard(view[r].board))
      && (forall r :: r in rooms ==> rooms[r] in Repr && rooms[r].board in Repr)
      && (forall r, q :: r in rooms && q in rooms && r != q ==>
        rooms[r] != rooms[q] && rooms[r].board != rooms[q].board)
    }

    ghost predicate Valid()
      reads this`rooms, this`view, this`Repr, Repr
    {
      && Separate()
      && (forall r {:trigger Shows(r)} :: r in rooms ==> Shows(r))
    }

    ghost function State(): Table
      reads this
    {
      Table(view, userRoom, nextSeq)
    }

    constructor ()
      ensures Valid() && Repr == {} && State() == Table(map[], map[], 0)
    {
      rooms := map[];
      userRoom := map[];
      nextSeq := 0;
      Repr := {};
      view := map[];
    }

    // After one room object was changed, its value changes with it.
    ghost method Refresh(id: RoomId)
      requires Separate() && id in rooms && rooms[id].Valid() && rooms[id].id == id
      requires forall r :: r in rooms && r != id ==> Shows(r)
      modifies this`view
      ensures Valid() && view == old(view)[id := rooms[id].State()]
    {
      view := view[id := rooms[id].State()];
      forall r | r in rooms
        ensures Shows(r)
      {
        assert r != id ==> old(Shows(r));
      }
    }

    method GenerateRoomId(clock: nat) returns (id: RoomId)
      modifies this`nextSeq
      ensures id == MakeId(clock, old(nextSeq)) && nextSeq == old(nextSeq) + 1
    {
      id := MakeId(clock, nextSeq);
      nextSeq := nextSeq + 1;
    }

    method AddRoom(id: RoomId, p1: UserId, p2: UserId, ghost birth: nat)
      requires Valid()
      modifies this`rooms, this`Repr, this`view, this`userRoom
      ensures Valid() && fresh(Repr - old(Repr))
      ensures view == old(view)[id := NewRoom(id, birth, p1, p2)]
      ensures userRoom == old(userRoom)[p1 := id][p2 := id]
    {
      var room := new GameRoom(id, p1, p2, birth);
      userRoom := userRoom[p1 := id];
      userRoom := userRoom[p2 := id];
      Insert(id, room);
    }

    method CreateRoom(p1: UserId, p2: UserId, clock: nat) returns (id: RoomId)
      requires Valid()
      modifies this
      ensures Valid() && fresh(Repr - old(Repr))
      ensures (State(), id) == Create(old(State()), p1, p2, MakeId(clock, old(nextSeq)))
    {
      if p1 in userRoom || p2 in userRoom {
        return "";
      }
      ghost var birth := nextSeq;
      id := GenerateRoomId(clock);
      AddRoom(id, p1, p2, birth);
    }

    method Insert(id: RoomId, room: GameRoom)
      requires Valid() && room.Valid() && room.id == id && room !in Repr && room.board !in Repr
      modifies this`rooms, this`Repr, this`view
      ensures Valid() && Repr == old(Repr) + {room, room.board} && view == old(view)[id := room.State()]
    {
      rooms := rooms[id := room];
      Repr := Repr + {room, room.board};
      view := view[id := room.State()];
      forall r | r in rooms
        ensures Shows(r)
      {
        assert r != id ==> old(Shows(r));
      }
    }

    method GetRoom(id: RoomId) returns (room: GameRoom?)
      requires Valid()
      ensures id in rooms ==> room == rooms[id]
      ensures id !in rooms ==> room == null
    {
      if id in rooms {
        return rooms[id];
      }
      return null;
    }

    method GetRoomByUser(u: UserId) returns (room: GameRoom?)
      requires Valid()
      ensures RoomOf(State(), u).None? ==> room == null
      ensures RoomOf(State(), u).Some? ==> RoomOf(State(), u).value in rooms && room == rooms[RoomOf(State(), u).value]
    {
      if u !in userRoom {
        return null;
      }
      if userRoom[u] !in rooms {
        return null;
      }
      return rooms[userRoom[u]];
    }

    // Walks over the index in an arbitrary order and erases the entries of the
    // room while walking.
    method EraseEntries(id: RoomId)
      modifies this`userRoom
      ensures userRoom == map u | u in old(userRoom) && old(userRoom)[u] != id :: old(userRoom)[u]
    {
      var todo := userRoom.Keys;
      while todo != {}
        invariant todo <= userRoom.Keys <= old(userRoom).Keys
        invariant forall u :: u in userRoom ==> u in old(userRoom) && userRoom[u] == old(userRoom)[u]
        invariant forall u :: u in old(userRoom) && u !in todo ==> (u in userRoom <==> old(userRoom)[u] != id)
        decreases todo
      {
        var u :| u in todo;
        todo := todo - {u};
        if userRoom[u] == id {
          userRoom := userRoom - {u};
        }
      }
    }

    method DestroyRoom(id: RoomId)
      requires Valid()
      modifies this
      ensures Valid() && Repr == old(Repr)
      ensures State() == Destroy(old(State()), id)
    {
      if id !in rooms {
        return;
      }
      EraseEntries(id);
      rooms := rooms - {id};
      view := view - {id};
      forall r | r in rooms
        ensures Shows(r)
      {
        assert old(Shows(r));
      }
    }
  }
}
