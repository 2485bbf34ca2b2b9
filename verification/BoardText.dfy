// The board as a string of 225 digits, row by row, as it travels inside the
// messages "game.reconnect" and "reconnect.available".
module BoardText {
  import opened Board

  function Digit(v: int): char
    requires 0 <= v <= 2
  {
    (v as char + '0')
  }

  // A digit string of the right length.
  predicate IsText(s: string) {
    |s| == FULL && forall i :: 0 <= i < FULL ==> '0' <= s[i] <= '2'
  }

  function Encode(b: Cells): (s: string)
    requires IsBoard(b)
    ensures IsText(s)
  {
    seq(FULL, i requires 0 <= i < FULL => Digit(b[i / SIZE][i % SIZE]))
  }

  function CharValue(ch: char): int {
    ch as int - '0' as int
  }

  function Decode(s: string): (b: Cells)
    requires |s| >= FULL
    ensures |b| == SIZE && forall r :: 0 <= r < SIZE ==> |b[r]| == SIZE
  {
    seq(SIZE, r requires 0 <= r < SIZE =>
      seq(SIZE, c requires 0 <= c < SIZE => CharValue(s[r * SIZE + c])))
  }

  // How the browser reads a board string: '1' and '2' are stones, everything
  // else is empty, and a string of the wrong length leaves the board alone.
  function BrowserValue(ch: char): int {
    if ch == '1' then 1 else if ch == '2' then 2 else 0
  }

  function Restore(was: Cells, s: string): (b: Cells)
    requires IsBoard(was)
    ensures IsBoard(b)
  {
    if |s| != FULL then was else
    var b := seq(SIZE, r requires 0 <= r < SIZE =>
      seq(SIZE, c requires 0 <= c < SIZE => BrowserValue(s[r * SIZE + c])));
    assert forall r, c :: OnBoard(r, c) ==> b[r][c] == BrowserValue(s[r * SIZE + c]);
    b
  }

  lemma Cell(i: int)
    requires 0 <= i < FULL
    ensures OnBoard(i / SIZE, i % SIZE) && i / SIZE * SIZE + i % SIZE == i
  {
  }

  lemma Index(r: int, c: int)
    requires OnBoard(r, c)
    ensures 0 <= r * SIZE + c < FULL && (r * SIZE + c) / SIZE == r && (r * SIZE + c) % SIZE == c
  {
  }

  // The text shows the board row by row: 0 for an empty cell, 1 for black, 2 for
  // white.
  lemma TextShowsCells(b: Cells, r: int, c: int)
    requires IsBoard(b) && OnBoard(r, c)
    ensures |Encode(b)| == 225
    ensures Encode(b)[15 * r + c] == (if b[r][c] == 0 then '0' else if b[r][c] == 1 then '1' else '2')
  {
    Index(r, c);
    assert 15 * r + c == r * SIZE + c;
  }

  // Decoding undoes encoding, on the server and in the browser alike.
  lemma DecodeEncode(b: Cells, was: Cells)
    requires IsBoard(b) && IsBoard(was)
    ensures Decode(Encode(b)) == b
    ensures Restore(was, Encode(b)) == b
  {
    forall r, c | OnBoard(r, c)
      ensures Decode(Encode(b))[r][c] == b[r][c] && Restore(was, Encode(b))[r][c] == b[r][c]
    {
      Index(r, c);
    }
    SameCells(Decode(Encode(b)), b);
    SameCells(Restore(was, Encode(b)), b);
  }

  // Encoding undoes decoding on every board string.
  lemma EncodeDecode(s: string)
    requires IsText(s)
    ensures IsBoard(Decode(s)) && Encode(Decode(s)) == s
  {
    forall r, c | OnBoard(r, c)
      ensures 0 <= Decode(s)[r][c] <= 2
    {
      Index(r, c);
      var ch := s[r * SIZE + c];
      assert '0' <= ch <= '2';
      assert Decode(s)[r][c] == CharValue(ch);
    }
    forall i | 0 <= i < FULL
      ensures Encode(Decode(s))[i] == s[i]
    {
      Cell(i);
      assert Decode(s)[i / SIZE][i % SIZE] == CharValue(s[i / SIZE * SIZE + i % SIZE]);
    }
  }

  // Two boards with the same text are the same board.
  lemma EncodeIsInjective(a: Cells, b: Cells)
    requires IsBoard(a) && IsBoard(b) && Encode(a) == Encode(b)
    ensures a == b
  {
    DecodeEncode(a, a);
    DecodeEncode(b, b);
  }

  method StrToBoard(s: string, board: array2<int>)
    requires |s| >= FULL && board.Length0 == SIZE && board.Length1 == SIZE
    modifies board
    ensures forall r, c :: OnBoard(r, c) ==> board[r, c] == Decode(s)[r][c]
  {
    var r := 0;
    while r < 15
      invariant 0 <= r <= 15
      invariant forall i, c :: 0 <= i < r && 0 <= c < SIZE ==> board[i, c] == Decode(s)[i][c]
    {
      var c := 0;
      while c < 15
        invariant 0 <= c <= 15
        invariant forall i, k :: 0 <= i < r && 0 <= k < SIZE ==> board[i, k] == Decode(s)[i][k]
        invariant forall k :: 0 <= k < c ==> board[r, k] == Decode(s)[r][k]
      {
        board[r, c] := CharValue(s[r * 15 + c]);
        c := c + 1;
      }
      r := r + 1;
    }
  }
}
