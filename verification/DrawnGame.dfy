// A draw does happen: a way to fill the board without five in line, and a run of
// the server that plays it.
module DrawnGame {
  import opened Basics
  import opened Board
  import opened Rooms
  import opened RoomIndex
  import opened Game
  import opened GameProofs
  import opened GameTheorems
  import opened Client
  import opened Replica

  // ----- the pattern -----

  // Two black cells, two white cells, and so on; every other row is shifted by two.
  function Shade(x: int): (v: int)
    ensures 1 <= v <= 2
  {
    if x % 4 < 2 then 1 else 2
  }

  function ShadeAt(r: int, c: int): int {
    Shade(2 * (r % 2) + c)
  }

  function ShadedRow(x: int, n: nat): (row: seq<int>)
    ensures |row| == n && forall i :: 0 <= i < n ==> row[i] == Shade(x + i)
  {
    seq(n, i => Shade(x + i))
  }

  function ShadedRows(k: nat, n: nat): (b: Cells)
    ensures |b| == n && forall i :: 0 <= i < n ==> b[i] == ShadedRow(2 * ((k + i) % 2), SIZE)
  {
    seq(n, i => ShadedRow(2 * ((k + i) % 2), SIZE))
  }

  // Every stone lies on a cell of its shade.
  ghost predicate Follows(b: Cells)
    requires IsBoard(b)
  {
    forall r, c {:trigger b[r][c]} :: OnBoard(r, c) ==> b[r][c] == 0 || b[r][c] == ShadeAt(r, c)
  }

  // Two cells of any five in line have different shades.
  lemma NoFiveInPattern(b: Cells, v: int)
    requires IsBoard(b) && Follows(b) && v != 0
    ensures !HasFive(b, v)
  {
    forall r, c
      ensures !FiveAt(b, v, r, c)
    {
      ShadesDiffer(r, c);
    }
  }

  lemma ShadesDiffer(r: int, c: int)
    ensures ShadeAt(r, c) != ShadeAt(r, c + 2) && ShadeAt(r, c) != ShadeAt(r + 1, c)
    ensures ShadeAt(r, c) != ShadeAt(r + 2, c + 2) && ShadeAt(r, c) != ShadeAt(r + 2, c - 2)
  {
  }

  // ----- how many cells have each shade -----

  function Blacks(x: int, n: nat): nat
    decreases n
  {
    if n == 0 then 0 else (if x % 4 < 2 then 1 else 0) + Blacks(x + 1, n - 1)
  }

  lemma {:induction false} RowBlacks(x: int, n: nat)
    ensures CountRow(ShadedRow(x, n), 1) == Blacks(x, n) && CountRow(ShadedRow(x, n), 2) == n - Blacks(x, n)
    decreases n
  {
    if n == 0 {
      assert ShadedRow(x, n) == [];
    } else {
      assert ShadedRow(x, n)[0] == Shade(x) && ShadedRow(x, n)[1..] == ShadedRow(x + 1, n - 1);
      RowBlacks(x + 1, n - 1);
    }
  }

  lemma FourMore(x: int, n: nat)
    ensures Blacks(x, n + 4) == 2 + Blacks(x + 4, n)
  {
    assert Blacks(x, n + 4) == (if x % 4 < 2 then 1 else 0) + Blacks(x + 1, n + 3);
    assert Blacks(x + 1, n + 3) == (if (x + 1) % 4 < 2 then 1 else 0) + Blacks(x + 2, n + 2);
    assert Blacks(x + 2, n + 2) == (if (x + 2) % 4 < 2 then 1 else 0) + Blacks(x + 3, n + 1);
    assert Blacks(x + 3, n + 1) == (if (x + 3) % 4 < 2 then 1 else 0) + Blacks(x + 4, n);
  }

  // Eight and seven black cells in the two kinds of rows.
  lemma TwoKindsOfRows(x: int, n: nat)
    requires (x == 0 || x == 2) && n == SIZE
    ensures CountRow(ShadedRow(x, n), 1) == (if x == 0 then 8 else 7)
    ensures CountRow(ShadedRow(x, n), 2) == (if x == 0 then 7 else 8)
  {
    RowBlacks(x, n);
    TwelveMore(x, n - 12);
    LastThree(x + 12, n - 12);
  }

  lemma TwelveMore(x: int, n: nat)
    ensures Blacks(x, n + 12) == 6 + Blacks(x + 12, n)
  {
    FourMore(x, n + 8);
    FourMore(x + 4, n + 4);
    FourMore(x + 8, n);
  }

  lemma LastThree(x: int, n: nat)
    requires n == 3 && (x == 12 || x == 14)
    ensures Blacks(x, n) == if x == 12 then 2 else 1
  {
    assert Blacks(x, n) == (if x % 4 < 2 then 1 else 0) + Blacks(x + 1, n - 1);
    assert Blacks(x + 1, n - 1) == (if (x + 1) % 4 < 2 then 1 else 0) + Blacks(x + 2, n - 2);
    assert Blacks(x + 2, n - 2) == if (x + 2) % 4 < 2 then 1 else 0;
  }

  lemma {:induction false} PairsOfRows(k: nat, n: nat)
    requires k % 2 == 0
    ensures Count(ShadedRows(k, 2 * n + 1), 1) == 15 * n + 8 && Count(ShadedRows(k, 2 * n + 1), 2) == 15 * n + 7
    decreases n
  {
    var b := ShadedRows(k, 2 * n + 1);
    var x := 2 * (k % 2);
    TwoKindsOfRows(x, SIZE);
    assert b[0] == ShadedRow(x, SIZE);
    if n == 0 {
      assert b[1..] == [];
    } else {
      TwoKindsOfRows(x + 2, SIZE);
      assert b[1] == ShadedRow(x + 2, SIZE);
      assert b[1..][0] == b[1] && b[1..][1..] == ShadedRows(k + 2, 2 * (n - 1) + 1);
      PairsOfRows(k + 2, n - 1);
    }
  }

  lemma {:induction false} SameRowCount(a: seq<int>, b: seq<int>, v: int)
    requires |a| == |b| && forall c :: 0 <= c < |a| ==> (a[c] == v <==> b[c] == v)
    ensures CountRow(a, v) == CountRow(b, v)
  {
    if a != [] {
      SameRowCount(a[1..], b[1..], v);
    }
  }

  lemma {:induction false} SameCount(a: Cells, b: Cells, v: int)
    requires |a| == |b| && forall r :: 0 <= r < |a| ==> |a[r]| == |b[r]|
    requires forall r, c :: 0 <= r < |a| && 0 <= c < |a[r]| ==> (a[r][c] == v <==> b[r][c] == v)
    ensures Count(a, v) == Count(b, v)
  {
    if a != [] {
      SameRowCount(a[0], b[0], v);
      SameCount(a[1..], b[1..], v);
    }
  }

  predicate FreeFor(b: Cells, v: int, r: int, c: int)
    requires IsBoard(b)
  {
    OnBoard(r, c) && b[r][c] == 0 && ShadeAt(r, c) == v
  }

  // As long as not all stones of a colour are out, a cell of its shade is free.
  lemma SomeCellIsFree(b: Cells, v: int)
    requires IsBoard(b) && Follows(b) && 1 <= v <= 2 && Count(b, v) < (if v == 1 then 113 else 112)
    ensures exists r, c :: FreeFor(b, v, r, c)
  {
    if forall r, c :: OnBoard(r, c) ==> !FreeFor(b, v, r, c) {
      NoneFree(b, v, 0, 7);
    }
  }

  lemma NoneFree(b: Cells, v: int, k: nat, n: nat)
    requires IsBoard(b) && Follows(b) && k == 0 && n == 7 && v != 0
    requires forall r, c :: OnBoard(r, c) ==> !FreeFor(b, v, r, c)
    ensures v == 1 ==> Count(b, v) == 113
    ensures v == 2 ==> Count(b, v) == 112
  {
    var p := ShadedRows(k, 2 * n + 1);
    assert forall r :: 0 <= r < SIZE ==> |p[r]| == SIZE;
    forall r, c | 0 <= r < |b| && 0 <= c < |b[r]|
      ensures b[r][c] == v <==> p[r][c] == v
    {
      assert OnBoard(r, c) && !FreeFor(b, v, r, c);
      assert p[r][c] == ShadeAt(r, c);
    }
    SameCount(b, p, v);
    PairsOfRows(k, n);
  }

  // ----- one move along the pattern -----

  lemma NextMove(m: Room) returns (r: int, c: int)
    requires LiveRoom(m) && Follows(m.board)
    ensures
      var u := m.CurrentTurn();
      && Accepts(m, u, r, c) && !MakesFive(m, u, r, c) && Follows(Dropped(m, u, r, c).board)
      && u > 0
  {
    var v := StoneOf(m.ColorAt(m.turn));
    SomeCellIsFree(m.board, v);
    r, c :| FreeFor(m.board, v, r, c);
    var u := m.CurrentTurn();
    var b := Dropped(m, u, r, c).board;
    assert Follows(b);
    NoFiveInPattern(b, v);
    NewFiveGoesThroughNewStone(m.board, r, c, v);
  }

  // ----- the run -----

  // What is left to be done for a draw is the last stone.
  ghost predicate OneStoneLeft(g: Game, r: RoomId) {
    && GameInv(g) && r in g.table.rooms
    && IsBoard(g.table.rooms[r].board) && Follows(g.table.rooms[r].board)
    && g.table.rooms[r].moves == FULL - 1
  }

  lemma MoveGoesOn(g: Game, r: RoomId, row: int, col: int)
    requires GameInv(g) && r in g.table.rooms && IsBoard(g.table.rooms[r].board)
    requires
      var m := g.table.rooms[r];
      var u := m.CurrentTurn();
      Accepts(m, u, row, col) && !MakesFive(m, u, row, col) && m.moves < FULL - 1
    ensures BoardsOk(g)
    ensures
      var m := g.table.rooms[r];
      var u := m.CurrentTurn();
      var g' := Move(g, u, row, col, {});
      && GameInv(g') && r in g'.table.rooms && SameSeats(m, g'.table.rooms[r])
      && g'.table.rooms[r].board == Dropped(m, u, row, col).board && g'.table.rooms[r].moves == m.moves + 1
  {
    At(g, r);
    InvGivesBoards(g);
    var m := g.table.rooms[r];
    BijectionMeans(g.table, m.CurrentTurn(), r);
    AnswerForetold(m, m.CurrentTurn(), row, col);
    MoveKeepsInv(g, m.CurrentTurn(), row, col, {});
  }

  lemma {:induction false} PlayOn(g: Game, r: RoomId) returns (es: seq<GameEvent>)
    requires GameInv(g) && r in g.table.rooms && IsBoard(g.table.rooms[r].board) && Follows(g.table.rooms[r].board)
    ensures RunOk(g, es) && OneStoneLeft(GameRun(g, es), r)
    ensures SameSeats(g.table.rooms[r], GameRun(g, es).table.rooms[r])
    decreases FULL - g.table.rooms[r].moves
  {
    At(g, r);
    var m := g.table.rooms[r];
    es := [];
    if m.moves < FULL - 1 {
      var row, col := NextMove(m);
      MoveGoesOn(g, r, row, col);
      var e := EMove(m.CurrentTurn(), row, col, {});
      var rest := PlayOn(GameStep(g, e), r);
      es := [e] + rest;
      assert es[1..] == rest;
    }
  }

  lemma StartsBlank(g: Game, p1: UserId, p2: UserId, id: RoomId)
    requires GameInv(g) && Allowed(g, EStart(p1, p2, id)) && p1 !in g.table.users && p2 !in g.table.users
    ensures
      var g' := Start(g, p1, p2, id).0;
      && GameInv(g') && id in g'.table.rooms && g'.table.rooms[id].board == Blank()
      && g'.table.rooms[id].black == p1 && g'.table.rooms[id].white == p2
  {
    StartKeepsInv(g, p1, p2, id);
  }

  // Whoever is matched can play 224 moves after which a legal move ends the game
  // in a draw; and no page that agreed with the room before it shows that stone.
  lemma DrawsHappen(g: Game, p1: UserId, p2: UserId, id: RoomId)
    returns (es: seq<GameEvent>, v: UserId, row: int, col: int)
    requires GameInv(g) && Allowed(g, EStart(p1, p2, id)) && p1 !in g.table.users && p2 !in g.table.users
    ensures es != [] && es[0] == EStart(p1, p2, id) && RunOk(g, es) && BoardsOk(GameRun(g, es))
    ensures
      var g1 := GameRun(g, es);
      && id in g1.table.rooms && IsBoard(g1.table.rooms[id].board)
      && PlacePiece(g1.table.rooms[id], v, row, col).1 == Draw
      && id !in Move(g1, v, row, col, {}).table.rooms
      && g1.outbox <= Move(g1, v, row, col, {}).outbox
      && forall p: Page {:trigger Agrees(p, g1.table.rooms[id], p1)} :: IsBoard(p.board) && Agrees(p, g1.table.rooms[id], p1) ==>
        HandleAll(p, For(News(g1, Move(g1, v, row, col, {})), p1)).board != PlacePiece(g1.table.rooms[id], v, row, col).0.board
  {
    var e := EStart(p1, p2, id);
    StartsBlank(g, p1, p2, id);
    GameStepKeepsInv(g, e);
    var rest := PlayOn(GameStep(g, e), id);
    es := [e] + rest;
    assert es[1..] == rest;
    v, row, col := DrawingMove(GameRun(g, es), id, p1);
  }

  lemma DrawingMove(g: Game, r: RoomId, u: UserId) returns (v: UserId, row: int, col: int)
    requires OneStoneLeft(g, r) && g.table.rooms[r].black == u
    ensures BoardsOk(g)
    ensures
      && PlacePiece(g.table.rooms[r], v, row, col).1 == Draw
      && r !in Move(g, v, row, col, {}).table.rooms
      && g.outbox <= Move(g, v, row, col, {}).outbox
      && forall p: Page {:trigger Agrees(p, g.table.rooms[r], u)} :: IsBoard(p.board) && Agrees(p, g.table.rooms[r], u) ==>
        HandleAll(p, For(News(g, Move(g, v, row, col, {})), u)).board != PlacePiece(g.table.rooms[r], v, row, col).0.board
  {
    At(g, r);
    InvGivesBoards(g);
    var m := g.table.rooms[r];
    v := m.CurrentTurn();
    row, col := NextMove(m);
    AnswerForetold(m, v, row, col);
    BijectionMeans(g.table, v, r);
    PageOf(g, r, u, v, row, col);
    forall p: Page | IsBoard(p.board) && Agrees(p, m, u)
      ensures HandleAll(p, For(News(g, Move(g, v, row, col, {})), u)).board != PlacePiece(m, v, row, col).0.board
    {
      LastStone(g, r, u, p, v, row, col, {});
    }
  }

  // A page that agrees with the room exists, and so the log only grows.
  lemma PageOf(g: Game, r: RoomId, u: UserId, v: UserId, row: int, col: int)
    requires GameInv(g) && r in g.table.rooms && g.table.rooms[r].HasPlayer(u) && RoomOf(g.table, v) == Some(r)
    requires IsBoard(g.table.rooms[r].board) && Accepts(g.table.rooms[r], v, row, col) && g.table.rooms[r].moves == FULL - 1
    ensures BoardsOk(g) && g.outbox <= Move(g, v, row, col, {}).outbox && r !in Move(g, v, row, col, {}).table.rooms
  {
    At(g, r);
    var m := g.table.rooms[r];
    LastStone(g, r, u, Page(m.board, m.ColorOf(u), m.CurrentTurn() == u, true), v, row, col, {});
  }
}
