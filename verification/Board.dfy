// The 15x15 board of an online five-in-a-row game: lines, five-in-a-row as a
// global property of the board, and stone counting.
module Board {

  const SIZE := 15
  const FULL := 225

  // 0 is an empty cell, 1 a black stone, 2 a white stone.
  type Cells = seq<seq<int>>

  predicate IsBoard(b: Cells) {
    && |b| == SIZE
    && (forall r :: 0 <= r < SIZE ==> |b[r]| == SIZE)
    && (forall r, c :: 0 <= r < SIZE && 0 <= c < SIZE ==> 0 <= b[r][c] <= 2)
  }

  function Blank(): (b: Cells)
    ensures IsBoard(b) && forall r, c :: 0 <= r < SIZE && 0 <= c < SIZE ==> b[r][c] == 0
  {
    seq(SIZE, r => seq(SIZE, c => 0))
  }

  predicate OnBoard(r: int, c: int) {
    0 <= r < SIZE && 0 <= c < SIZE
  }

  // The board after a stone of value v is put on (r, c).
  function Put(b: Cells, r: int, c: int, v: int): (b': Cells)
    requires IsBoard(b) && OnBoard(r, c) && 0 <= v <= 2
    ensures IsBoard(b') && b'[r][c] == v
    ensures forall i, j :: OnBoard(i, j) && !(i == r && j == c) ==> b'[i][j] == b[i][j]
  {
    b[r := b[r][c := v]]
  }

  lemma SameCells(a: Cells, b: Cells)
    requires IsBoard(a) && IsBoard(b)
    requires forall r, c :: OnBoard(r, c) ==> a[r][c] == b[r][c]
    ensures a == b
  {
    forall r | 0 <= r < SIZE
      ensures a[r] == b[r]
    {
      assert forall c :: 0 <= c < SIZE ==> OnBoard(r, c);
    }
  }

  // ----- boards in arrays -----

  ghost predicate IsGrid(a: array2<int>)
    reads a
  {
    && a.Length0 == SIZE && a.Length1 == SIZE
    && (forall r, c :: 0 <= r < SIZE && 0 <= c < SIZE ==> 0 <= a[r, c] <= 2)
  }

  ghost function CellsOf(a: array2<int>): (b: Cells)
    requires IsGrid(a)
    reads a
    ensures IsBoard(b)
    ensures forall r, c :: OnBoard(r, c) ==> b[r][c] == a[r, c]
  {
    seq(SIZE, r requires 0 <= r < SIZE && IsGrid(a) reads a =>
      seq(SIZE, c requires 0 <= c < SIZE && IsGrid(a) reads a => a[r, c]))
  }

  method SetCell(a: array2<int>, row: int, col: int, v: int)
    requires IsGrid(a) && OnBoard(row, col) && 0 <= v <= 2
    modifies a
    ensures IsGrid(a) && CellsOf(a) == Put(old(CellsOf(a)), row, col, v)
  {
    a[row, col] := v;
    SameCells(CellsOf(a), Put(old(CellsOf(a)), row, col, v));
  }

  // ----- lines -----

  // Five cells in a row, in a column, and along the two diagonals.
  predicate Across(b: Cells, v: int, r: int, c: int)
    requires IsBoard(b)
  {
    Stone(b, v, r, c) && Stone(b, v, r, c + 1) && Stone(b, v, r, c + 2) && Stone(b, v, r, c + 3) && Stone(b, v, r, c + 4)
  }

  predicate Down(b: Cells, v: int, r: int, c: int)
    requires IsBoard(b)
  {
    Stone(b, v, r, c) && Stone(b, v, r + 1, c) && Stone(b, v, r + 2, c) && Stone(b, v, r + 3, c) && Stone(b, v, r + 4, c)
  }

  predicate Falling(b: Cells, v: int, r: int, c: int)
    requires IsBoard(b)
  {
    && Stone(b, v, r, c) && Stone(b, v, r + 1, c + 1) && Stone(b, v, r + 2, c + 2)
    && Stone(b, v, r + 3, c + 3) && Stone(b, v, r + 4, c + 4)
  }

  predicate Rising(b: Cells, v: int, r: int, c: int)
    requires IsBoard(b)
  {
    && Stone(b, v, r, c) && Stone(b, v, r + 1, c - 1) && Stone(b, v, r + 2, c - 2)
    && Stone(b, v, r + 3, c - 3) && Stone(b, v, r + 4, c - 4)
  }

  predicate FiveAt(b: Cells, v: int, r: int, c: int)
    requires IsBoard(b)
  {
    Across(b, v, r, c) || Down(b, v, r, c) || Falling(b, v, r, c) || Rising(b, v, r, c)
  }

  // Somewhere on the board there is a line of five or more stones of value v.
  ghost predicate HasFive(b: Cells, v: int)
    requires IsBoard(b)
  {
    exists r, c :: FiveAt(b, v, r, c)
  }

  // A five of which (r, c) is the cell number j, counted from 0.
  predicate FiveAround(b: Cells, v: int, r: int, c: int, j: int)
    requires IsBoard(b)
  {
    Across(b, v, r, c - j) || Down(b, v, r - j, c) || Falling(b, v, r - j, c - j) || Rising(b, v, r - j, c + j)
  }

  // Some line of five goes through (r, c).
  ghost predicate FiveThrough(b: Cells, v: int, r: int, c: int)
    requires IsBoard(b)
  {
    exists j :: 0 <= j <= 4 && FiveAround(b, v, r, c, j)
  }

  // ----- lines by direction, as the scan counts them -----

  // The four directions: right, down, down-right, down-left.  (RowAt, ColAt)
  // is the cell k steps away from (r, c); k may be negative.
  function RowAt(r: int, d: int, k: int): int {
    if d == 0 then r else r + k
  }

  function ColAt(c: int, d: int, k: int): int {
    if d == 1 then c else if d == 3 then c - k else c + k
  }

  predicate Stone(b: Cells, v: int, r: int, c: int)
    requires IsBoard(b)
  {
    OnBoard(r, c) && b[r][c] == v
  }

  predicate StoneAt(b: Cells, v: int, r: int, c: int, d: int, k: int)
    requires IsBoard(b)
  {
    Stone(b, v, RowAt(r, d, k), ColAt(c, d, k))
  }

  // Five consecutive stones of value v from (r, c) on in direction d.
  predicate FiveFrom(b: Cells, v: int, r: int, c: int, d: int)
    requires IsBoard(b)
  {
    forall k :: 0 <= k < 5 ==> StoneAt(b, v, r, c, d, k)
  }

  lemma FiveStones(b: Cells, v: int, r: int, c: int, d: int)
    requires IsBoard(b)
    ensures FiveFrom(b, v, r, c, d) <==>
      && StoneAt(b, v, r, c, d, 0) && StoneAt(b, v, r, c, d, 1) && StoneAt(b, v, r, c, d, 2)
      && StoneAt(b, v, r, c, d, 3) && StoneAt(b, v, r, c, d, 4)
  {
  }

  // The four directions are the four kinds of lines.
  lemma Directions(b: Cells, v: int, r: int, c: int)
    requires IsBoard(b)
    ensures FiveFrom(b, v, r, c, 0) <==> Across(b, v, r, c)
    ensures FiveFrom(b, v, r, c, 1) <==> Down(b, v, r, c)
    ensures FiveFrom(b, v, r, c, 2) <==> Falling(b, v, r, c)
    ensures FiveFrom(b, v, r, c, 3) <==> Rising(b, v, r, c)
  {
    FiveStones(b, v, r, c, 0);
    FiveStones(b, v, r, c, 1);
    FiveStones(b, v, r, c, 2);
    FiveStones(b, v, r, c, 3);
  }

  lemma FiveHasDirection(b: Cells, v: int, r: int, c: int)
    requires IsBoard(b)
    ensures FiveAt(b, v, r, c) <==> exists d :: 0 <= d < 4 && FiveFrom(b, v, r, c, d)
  {
    Directions(b, v, r, c);
    if exists d :: 0 <= d < 4 && FiveFrom(b, v, r, c, d) {
      var d :| 0 <= d < 4 && FiveFrom(b, v, r, c, d);
      assert d == 0 || d == 1 || d == 2 || d == 3;
    }
  }

  ghost predicate FiveThroughAlong(b: Cells, v: int, r: int, c: int, d: int)
    requires IsBoard(b)
  {
    exists j :: 0 <= j <= 4 && FiveStartingBack(b, v, r, c, d, j)
  }

  // A five that starts j steps before (r, c).
  predicate FiveStartingBack(b: Cells, v: int, r: int, c: int, d: int, j: int)
    requires IsBoard(b)
  {
    FiveFrom(b, v, RowAt(r, d, -j), ColAt(c, d, -j), d)
  }

  // A five through a cell lies along one of the four directions.
  lemma ThroughHasDirection(b: Cells, v: int, r: int, c: int)
    requires IsBoard(b)
    ensures FiveThrough(b, v, r, c) <==> exists d :: 0 <= d < 4 && FiveThroughAlong(b, v, r, c, d)
  {
    if FiveThrough(b, v, r, c) {
      var j :| 0 <= j <= 4 && FiveAround(b, v, r, c, j);
      AroundHasDirection(b, v, r, c, j);
      var d :| 0 <= d < 4 && FiveStartingBack(b, v, r, c, d, j);
      assert FiveThroughAlong(b, v, r, c, d);
    }
    if exists d :: 0 <= d < 4 && FiveThroughAlong(b, v, r, c, d) {
      var d :| 0 <= d < 4 && FiveThroughAlong(b, v, r, c, d);
      var j :| 0 <= j <= 4 && FiveStartingBack(b, v, r, c, d, j);
      AroundHasDirection(b, v, r, c, j);
    }
  }

  lemma AroundHasDirection(b: Cells, v: int, r: int, c: int, j: int)
    requires IsBoard(b)
    ensures FiveAround(b, v, r, c, j) <==> exists d :: 0 <= d < 4 && FiveStartingBack(b, v, r, c, d, j)
  {
    Directions(b, v, r, c - j);
    Directions(b, v, r - j, c);
    Directions(b, v, r - j, c - j);
    Directions(b, v, r - j, c + j);
    assert FiveStartingBack(b, v, r, c, 0, j) <==> Across(b, v, r, c - j);
    assert FiveStartingBack(b, v, r, c, 1, j) <==> Down(b, v, r - j, c);
    assert FiveStartingBack(b, v, r, c, 2, j) <==> Falling(b, v, r - j, c - j);
    assert FiveStartingBack(b, v, r, c, 3, j) <==> Rising(b, v, r - j, c + j);
    if exists d :: 0 <= d < 4 && FiveStartingBack(b, v, r, c, d, j) {
      var d :| 0 <= d < 4 && FiveStartingBack(b, v, r, c, d, j);
      assert d == 0 || d == 1 || d == 2 || d == 3;
    }
  }

  function Signed(back: bool, k: int): int {
    if back then -k else k
  }

  // n is the number of stones met when walking at most four steps away from
  // (r, c), in direction d or against it.
  ghost predicate Reach(b: Cells, v: int, r: int, c: int, d: int, back: bool, n: int)
    requires IsBoard(b)
  {
    && 0 <= n <= 4
    && (forall k :: 1 <= k <= n ==> StoneAt(b, v, r, c, d, Signed(back, k)))
    && (n < 4 ==> !StoneAt(b, v, r, c, d, Signed(back, n + 1)))
  }

  lemma ReachIsMaximal(b: Cells, v: int, r: int, c: int, d: int, back: bool, n: int, m: int)
    requires IsBoard(b) && Reach(b, v, r, c, d, back, n) && m <= 4
    requires forall k :: 1 <= k <= m ==> StoneAt(b, v, r, c, d, Signed(back, k))
    ensures m <= n
  {
  }

  lemma ScanFinds(b: Cells, v: int, r: int, c: int, d: int, fwd: int, bwd: int)
    requires IsBoard(b) && Stone(b, v, r, c) && 0 <= d < 4
    requires Reach(b, v, r, c, d, false, fwd) && Reach(b, v, r, c, d, true, bwd)
    requires 1 + fwd + bwd >= 5
    ensures FiveThroughAlong(b, v, r, c, d)
  {
    var j := 4 - fwd;
    var r0, c0 := RowAt(r, d, -j), ColAt(c, d, -j);
    forall k | 0 <= k < 5
      ensures StoneAt(b, v, r0, c0, d, k)
    {
      if k < j {
        assert StoneAt(b, v, r, c, d, Signed(true, j - k));
      } else if k > j {
        assert StoneAt(b, v, r, c, d, Signed(false, k - j));
      }
    }
    assert FiveStartingBack(b, v, r, c, d, j);
  }

  // The counting scan of four steps each way decides whether a five goes
  // through the cell.
  lemma ScanIsExact(b: Cells, v: int, r: int, c: int, d: int, fwd: int, bwd: int)
    requires IsBoard(b) && Stone(b, v, r, c) && 0 <= d < 4
    requires Reach(b, v, r, c, d, false, fwd) && Reach(b, v, r, c, d, true, bwd)
    ensures 1 + fwd + bwd >= 5 <==> FiveThroughAlong(b, v, r, c, d)
  {
    if 1 + fwd + bwd >= 5 {
      ScanFinds(b, v, r, c, d, fwd, bwd);
    }
    if FiveThroughAlong(b, v, r, c, d) {
      var j :| 0 <= j <= 4 && FiveStartingBack(b, v, r, c, d, j);
      var r0, c0 := RowAt(r, d, -j), ColAt(c, d, -j);
      forall k | 1 <= k <= j
        ensures StoneAt(b, v, r, c, d, Signed(true, k))
      {
        assert StoneAt(b, v, r0, c0, d, j - k);
      }
      ReachIsMaximal(b, v, r, c, d, true, bwd, j);
      forall k | 1 <= k <= 4 - j
        ensures StoneAt(b, v, r, c, d, Signed(false, k))
      {
        assert StoneAt(b, v, r0, c0, d, j + k);
      }
      ReachIsMaximal(b, v, r, c, d, false, fwd, 4 - j);
    }
  }

  // On a board without a five of colour v, a new stone makes a five exactly
  // when the five goes through that stone.
  lemma NewFiveGoesThroughNewStone(b: Cells, r: int, c: int, v: int)
    requires IsBoard(b) && OnBoard(r, c) && 1 <= v <= 2 && b[r][c] == 0 && !HasFive(b, v)
    ensures HasFive(Put(b, r, c, v), v) <==> FiveThrough(Put(b, r, c, v), v, r, c)
  {
    var b' := Put(b, r, c, v);
    ThroughHasDirection(b', v, r, c);
    if HasFive(b', v) {
      var r0, c0 :| FiveAt(b', v, r0, c0);
      FiveHasDirection(b', v, r0, c0);
      FiveHasDirection(b, v, r0, c0);
      var d :| 0 <= d < 4 && FiveFrom(b', v, r0, c0, d);
      assert !FiveFrom(b, v, r0, c0, d);
      var k :| 0 <= k < 5 && !StoneAt(b, v, r0, c0, d, k);
      assert StoneAt(b', v, r0, c0, d, k);
      assert RowAt(r0, d, k) == r && ColAt(c0, d, k) == c;
      assert RowAt(r, d, -k) == r0 && ColAt(c, d, -k) == c0;
      assert FiveStartingBack(b', v, r, c, d, k);
      assert FiveThroughAlong(b', v, r, c, d);
    }
    if FiveThrough(b', v, r, c) {
      var d :| 0 <= d < 4 && FiveThroughAlong(b', v, r, c, d);
      var j :| 0 <= j <= 4 && FiveStartingBack(b', v, r, c, d, j);
      FiveHasDirection(b', v, RowAt(r, d, -j), ColAt(c, d, -j));
    }
  }

  // A stone of one colour never makes a five of the other.
  lemma NoFiveForTheOther(b: Cells, r: int, c: int, v: int, w: int)
    requires IsBoard(b) && OnBoard(r, c) && 1 <= v <= 2 && 1 <= w <= 2 && v != w
    requires !HasFive(b, w)
    ensures !HasFive(Put(b, r, c, v), w)
  {
    var b' := Put(b, r, c, v);
    if HasFive(b', w) {
      var r0, c0 :| FiveAt(b', w, r0, c0);
      assert FiveAt(b, w, r0, c0);
    }
  }

  // ----- counting -----

  function CountRow(row: seq<int>, v: int): nat {
    if row == [] then 0 else (if row[0] == v then 1 else 0) + CountRow(row[1..], v)
  }

  function Count(b: Cells, v: int): nat {
    if b == [] then 0 else CountRow(b[0], v) + Count(b[1..], v)
  }

  function Is(x: int, v: int): int {
    if x == v then 1 else 0
  }

  lemma {:induction false} CountRowUpdate(row: seq<int>, c: int, x: int, v: int)
    requires 0 <= c < |row|
    ensures CountRow(row[c := x], v) == CountRow(row, v) - Is(row[c], v) + Is(x, v)
  {
    if c > 0 {
      assert row[c := x][1..] == row[1..][c - 1 := x];
      CountRowUpdate(row[1..], c - 1, x, v);
    }
  }

  lemma {:induction false} CountUpdate(b: Cells, r: int, c: int, x: int, v: int)
    requires 0 <= r < |b| && 0 <= c < |b[r]|
    ensures Count(b[r := b[r][c := x]], v) == Count(b, v) - Is(b[r][c], v) + Is(x, v)
  {
    CountRowUpdate(b[r], c, x, v);
    if r > 0 {
      assert b[r := b[r][c := x]][1..] == b[1..][r - 1 := b[r][c := x]];
      CountUpdate(b[1..], r - 1, c, x, v);
    } else {
      assert b[r := b[r][c := x]][1..] == b[1..];
    }
  }

  lemma {:induction false} CountRowTotal(row: seq<int>)
    requires forall c :: 0 <= c < |row| ==> 0 <= row[c] <= 2
    ensures CountRow(row, 0) + CountRow(row, 1) + CountRow(row, 2) == |row|
  {
    if row != [] {
      CountRowTotal(row[1..]);
    }
  }

  lemma {:induction false} CountTotal(b: Cells)
    requires forall r :: 0 <= r < |b| ==> |b[r]| == SIZE
    requires forall r, c :: 0 <= r < |b| && 0 <= c < SIZE ==> 0 <= b[r][c] <= 2
    ensures Count(b, 0) + Count(b, 1) + Count(b, 2) == |b| * SIZE
  {
    if b != [] {
      CountRowTotal(b[0]);
      CountTotal(b[1..]);
    }
  }

  lemma {:induction false} CountRowFinds(row: seq<int>, v: int)
    ensures CountRow(row, v) > 0 <==> v in row
  {
    if row != [] {
      CountRowFinds(row[1..], v);
    }
  }

  // A count is positive exactly when some cell holds the value.
  lemma {:induction false} CountFinds(b: Cells, v: int)
    ensures Count(b, v) > 0 <==> exists r :: 0 <= r < |b| && v in b[r]
  {
    if b != [] {
      CountRowFinds(b[0], v);
      CountFinds(b[1..], v);
      if exists r :: 0 <= r < |b| && v in b[r] {
        var r :| 0 <= r < |b| && v in b[r];
        if r > 0 {
          assert v in b[1..][r - 1];
        }
      }
      if exists r :: 0 <= r < |b[1..]| && v in b[1..][r] {
        var r :| 0 <= r < |b[1..]| && v in b[1..][r];
        assert v in b[r + 1];
      }
    }
  }

  lemma {:induction false} BlankCount(n: nat, m: nat, v: int)
    requires v != 0
    ensures Count(seq(n, r => seq(m, c => 0)), v) == 0
    decreases n
  {
    if n > 0 {
      BlankRow(m, v);
      assert seq(n, r => seq(m, c => 0))[1..] == seq(n - 1, r => seq(m, c => 0));
      BlankCount(n - 1, m, v);
    }
  }

  lemma {:induction false} BlankRow(m: nat, v: int)
    requires v != 0
    ensures CountRow(seq(m, c => 0), v) == 0
  {
    if m > 0 {
      assert seq(m, c => 0)[1..] == seq(m - 1, c => 0);
      BlankRow(m - 1, v);
    }
  }

  lemma BlankBoard()
    ensures Count(Blank(), 1) == 0 && Count(Blank(), 2) == 0
    ensures !HasFive(Blank(), 1) && !HasFive(Blank(), 2)
  {
    BlankCount(SIZE, SIZE, 1);
    BlankCount(SIZE, SIZE, 2);
    assert forall v, r, c :: 1 <= v <= 2 ==> !FiveAt(Blank(), v, r, c);
  }
}
