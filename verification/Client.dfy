// The browser's copy of a game: the board, the player's colour, whose turn it
// is and whether the game is on, as the room page keeps them.
module Client {
  import opened Basics
  import opened Board
  import opened BoardText
  import opened Rooms
  import opened Game

  datatype Page = Page(board: Cells, color: Option<Color>, myTurn: bool, active: bool)

  // What each message does to the page.
  function Handle(p: Page, msg: Message): (p': Page)
    requires IsBoard(p.board)
    ensures IsBoard(p'.board)
  {
    match msg
    case GameStart(_, _, color, yourTurn) => p.(color := Some(color), myTurn := yourTurn, active := true)
    case GameMove(row, col, color, next) =>
      if !OnBoard(row, col) then p else
      p.(board := Put(p.board, row, col, StoneOf(color)), myTurn := next.Some? && next == p.color)
    case GameReconnect(_, text, current, _) =>
      p.(board := Restore(p.board, text), myTurn := Some(current) == p.color, active := true)
    case GameOver(_, _, _, _) => p.(active := false)
    case Error(code) => if code == 4004 then p.(active := false) else p
    case _ => p
  }

  function HandleAll(p: Page, msgs: seq<Message>): (p': Page)
    requires IsBoard(p.board)
    ensures IsBoard(p'.board)
    decreases |msgs|
  {
    if msgs == [] then p else HandleAll(Handle(p, msgs[0]), msgs[1..])
  }

  // The messages of a log that are addressed to u, in order.
  function For(log: seq<Sent>, u: UserId): seq<Message>
    decreases |log|
  {
    if log == [] then []
    else (if log[0].to == u then [log[0].msg] else []) + For(log[1..], u)
  }

  lemma {:induction false} HandleInParts(p: Page, a: seq<Message>, b: seq<Message>)
    requires IsBoard(p.board)
    ensures HandleAll(p, a + b) == HandleAll(HandleAll(p, a), b)
    decreases |a|
  {
    if a == [] {
      assert a + b == b;
    } else {
      assert (a + b)[1..] == a[1..] + b;
      HandleInParts(Handle(p, a[0]), a[1..], b);
    }
  }

  lemma {:induction false} ForInParts(a: seq<Sent>, b: seq<Sent>, u: UserId)
    ensures For(a + b, u) == For(a, u) + For(b, u)
    decreases |a|
  {
    if a == [] {
      assert a + b == b;
    } else {
      var first := if a[0].to == u then [a[0].msg] else [];
      assert (a + b)[0] == a[0] && (a + b)[1..] == a[1..] + b;
      ForInParts(a[1..], b, u);
      assert first + (For(a[1..], u) + For(b, u)) == (first + For(a[1..], u)) + For(b, u);
    }
  }

  // ----- the page object -----

  class GamePage {
    const board: array2<int>
    var color: Option<Color>
    var myTurn: bool
    var active: bool

    ghost function State(): Page
      requires IsGrid(board)
      reads this, board
    {
      Page(CellsOf(board), color, myTurn, active)
    }

    constructor (urlColor: Option<Color>)
      ensures IsGrid(board) && fresh(board)
      ensures State() == Page(Blank(), urlColor, false, false)
    {
      board := new int[SIZE, SIZE]((r, c) => 0);
      color := urlColor;
      myTurn := false;
      active := false;
      new;
      SameCells(CellsOf(board), Blank());
    }

    method RestoreBoard(text: string)
      requires IsGrid(board)
      modifies board
      ensures IsGrid(board) && CellsOf(board) == Restore(old(CellsOf(board)), text)
    {
      if |text| != 225 {
        return;
      }
      ghost var before := CellsOf(board);
      ghost var goal := Restore(before, text);
      var r := 0;
      while r < 15
        invariant 0 <= r <= 15 && IsGrid(board)
        invariant forall i, j :: 0 <= i < r && 0 <= j < SIZE ==> board[i, j] == goal[i][j]
      {
        var c := 0;
        while c < 15
          invariant 0 <= c <= 15 && IsGrid(board)
          invariant forall i, j :: 0 <= i < r && 0 <= j < SIZE ==> board[i, j] == goal[i][j]
          invariant forall j :: 0 <= j < c ==> board[r, j] == goal[r][j]
        {
          var ch := text[r * 15 + c];
          board[r, c] := if ch == '1' then 1 else if ch == '2' then 2 else 0;
          c := c + 1;
        }
        r := r + 1;
      }
      SameCells(CellsOf(board), goal);
    }

    method Receive(msg: Message)
      requires IsGrid(board)
      modifies this, board
      ensures IsGrid(board) && State() == Handle(old(State()), msg)
    {
      match msg {
        case GameStart(_, _, c, yourTurn) =>
          color := Some(c);
          myTurn := yourTurn;
          active := true;
        case GameMove(row, col, c, next) =>
          if 0 <= row < 15 && 0 <= col < 15 {
            SetCell(board, row, col, if c == Black then 1 else 2);
            myTurn := next.Some? && next == color;
          }
        case GameReconnect(_, text, current, _) =>
          RestoreBoard(text);
          myTurn := Some(current) == color;
          active := true;
        case GameOver(_, _, _, _) =>
          active := false;
        case Error(code) =>
          if code == 4004 {
            active := false;
          }
        case ReconnectAccepted(_, _) =>
        case OpponentDisconnected =>
        case OpponentReconnected =>
      }
    }
  }
}
