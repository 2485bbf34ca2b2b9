// The room manager does come to an identifier that is in use: one long game, and
// 9999 short ones at the same clock reading.
module RoomCollision {
  import opened Rooms
  import opened RoomIds
  import opened RoomIndex

  const EMPTY := Table(map[], map[], 0)

  function LongGame(clock: nat): RoomId {
    MakeId(clock, 0)
  }

  // Only the first game is on, after k creations.
  function Alone(clock: nat, k: nat): Table {
    Table(map[LongGame(clock) := NewRoom(LongGame(clock), 0, 1, 2)], map[1 := LongGame(clock), 2 := LongGame(clock)], k)
  }

  // A short game of two others, created and destroyed.
  lemma ShortGame(clock: nat, k: nat)
    requires 0 < k < 10000
    ensures
      var made := TableStep(Alone(clock, k), Make(3, 4, clock));
      MayHappen(Alone(clock, k), Make(3, 4, clock)) && TableStep(made, Drop(MakeId(clock, k))) == Alone(clock, k + 1)
  {
    IdsDiffer(clock, 0, clock, k);
    var id, x := MakeId(clock, k), Alone(clock, k);
    var made := TableStep(x, Make(3, 4, clock));
    var gone := TableStep(made, Drop(id));
    assert made.rooms == x.rooms[id := NewRoom(id, k, 3, 4)];
    assert gone.rooms == x.rooms;
    assert gone.users == x.users;
  }

  lemma {:induction false} ShortGames(clock: nat, k: nat) returns (es: seq<TableEvent>)
    requires 0 < k <= 10000
    ensures MayRun(Alone(clock, k), es) && TableRun(Alone(clock, k), es) == Alone(clock, 10000)
    decreases 10000 - k
  {
    es := [];
    if k < 10000 {
      ShortGame(clock, k);
      var rest := ShortGames(clock, k + 1);
      es := Twice(Alone(clock, k), Make(3, 4, clock), Drop(MakeId(clock, k)), rest);
    }
  }

  lemma Twice(x: Table, e: TableEvent, f: TableEvent, rest: seq<TableEvent>) returns (es: seq<TableEvent>)
    requires MayHappen(x, e) && MayHappen(TableStep(x, e), f)
    requires MayRun(TableStep(TableStep(x, e), f), rest)
    ensures MayRun(x, es) && TableRun(x, es) == TableRun(TableStep(TableStep(x, e), f), rest)
  {
    var tail := [f] + rest;
    assert tail[1..] == rest;
    es := [e] + tail;
    assert es[1..] == tail;
  }

  lemma FirstGame(clock: nat)
    ensures MayHappen(EMPTY, Make(1, 2, clock)) && TableStep(EMPTY, Make(1, 2, clock)) == Alone(clock, 1)
  {
    IdTellsNumber(clock, 0);
  }

  lemma FullCycle(clock: nat) returns (es: seq<TableEvent>)
    ensures MayRun(EMPTY, es) && TableRun(EMPTY, es) == Alone(clock, 10000)
  {
    FirstGame(clock);
    var rest := ShortGames(clock, 1);
    es := [Make(1, 2, clock)] + rest;
    assert es[1..] == rest;
  }

  lemma NextCreationCollides(clock: nat)
    requires TableInv(Alone(clock, 10000))
    ensures
      var x := Alone(clock, 10000);
      MakeId(clock, x.nextSeq) in x.rooms && !Bijection(TableStep(x, Make(3, 4, clock)))
  {
    IdsRepeat(clock, 0);
    CreateKeepsBijectionIff(Alone(clock, 10000), 3, 4, MakeId(clock, 10000));
  }

  // From the empty manager, creating rooms for different users only and with no
  // live room 10000 creations old at any of these creations, one gets to a state
  // in which the next creation, for two users without a room, breaks the index.
  lemma IdentifiersDoCollide(clock: nat) returns (es: seq<TableEvent>)
    ensures MayRun(EMPTY, es)
    ensures
      var x := TableRun(EMPTY, es);
      && TableInv(x) && 3 !in x.users && 4 !in x.users
      && MakeId(clock, x.nextSeq) in x.rooms
      && !Bijection(TableStep(x, Make(3, 4, clock)))
  {
    es := FullCycle(clock);
    assert TableInv(EMPTY) && Tagged(EMPTY);
    RunKeepsTableInv(EMPTY, es);
    NextCreationCollides(clock);
  }
}
