/**
 * Whole games played from `Start()` through `Run`, the loop over attempted
 * moves: a win on the top row, a win on the main diagonal, a drawn game with
 * nine marks and no line, and a game whose ninth mark completes a line and
 * fills the board, which ends as a win rather than a draw. Each game is
 * built from one lemma per move. Last, a single attempt with an
 * out-of-range coordinate, in any state.
 */
module Scenarios {
  import opened Board
  import opened Rules
  import opened TurnLoop

  /** `p` has a line exactly when one of the eight lines of the table is filled, spelled out line by line. */
  lemma LineCases(b: Grid, p: Cell)
    ensures HasLine(b, p) <==>
      || LineFilled(b, WinLines[0], p) || LineFilled(b, WinLines[1], p)
      || LineFilled(b, WinLines[2], p) || LineFilled(b, WinLines[3], p)
      || LineFilled(b, WinLines[4], p) || LineFilled(b, WinLines[5], p)
      || LineFilled(b, WinLines[6], p) || LineFilled(b, WinLines[7], p)
  {
    if HasLine(b, p) {
      var k :| 0 <= k < |WinLines| && LineFilled(b, WinLines[k], p);
      assert k == 0 || k == 1 || k == 2 || k == 3 || k == 4 || k == 5 || k == 6 || k == 7;
    }
  }

  /** An accepted move that completes no line on a board that still has a blank cell passes the turn. */
  lemma Continues(st: GameState, row: Coord, col: Coord, b: Grid)
    requires st.board[row][col] == Blank && b == Mark(st.board, row, col, st.player)
    requires !HasLine(b, st.player) && !IsFull(b)
    ensures Step(st, row, col) == GameState(b, Other(st.player), InProgress)
  {
  }

  /** An accepted move that completes a line wins for the mover, whether or not the board is now full. */
  lemma Wins(st: GameState, row: Coord, col: Coord, b: Grid)
    requires st.board[row][col] == Blank && b == Mark(st.board, row, col, st.player)
    requires HasLine(b, st.player)
    ensures Step(st, row, col) == GameState(b, st.player, Won(st.player))
  {
  }

  /** An accepted move that fills the board without completing a line draws the game. */
  lemma Draws(st: GameState, row: Coord, col: Coord, b: Grid)
    requires st.board[row][col] == Blank && b == Mark(st.board, row, col, st.player)
    requires !HasLine(b, st.player) && IsFull(b)
    ensures Step(st, row, col) == GameState(b, st.player, Draw)
  {
  }

  /** While the game goes on, a run plays its first attempt and continues from the state after it. */
  lemma RunThrough(st: GameState, row: int, col: int, next: GameState, rest: seq<(int, int)>)
    requires st.status == InProgress && Step(st, row, col) == next
    ensures Run(st, [(row, col)] + rest) == Run(next, rest)
  {
    assert ([(row, col)] + rest)[1..] == rest;
  }

  const B := Blank

  /** Two grids with the same cells are equal. */
  lemma SameCells(a: Grid, b: Grid)
    requires forall i, j | 0 <= i < 3 && 0 <= j < 3 :: a[i][j] == b[i][j]
    ensures a == b
  {
    assert forall i | 0 <= i < 3 :: a[i] == b[i];
  }

  /** The state after X's first mark in the corner. */
  const Opened := GameState([[X, B, B], [B, B, B], [B, B, B]], O, InProgress)
  /** The top-row game: X plays (0,0), (0,1), (0,2); O plays (1,0), (1,1). */
  const Row2 := GameState([[X, B, B], [O, B, B], [B, B, B]], X, InProgress)
  const Row3 := GameState([[X, X, B], [O, B, B], [B, B, B]], O, InProgress)
  const Row4 := GameState([[X, X, B], [O, O, B], [B, B, B]], X, InProgress)
  const Row5 := GameState([[X, X, X], [O, O, B], [B, B, B]], X, Won(X))

  /** Move 1 of the top-row game. */
  lemma RowMove1(rest: seq<(int, int)>)
    ensures Run(Start(), [(0, 0)] + rest) == Run(Opened, rest)
  {
    SameCells(Mark(Initial(), 0, 0, X), Opened.board);
    LineCases(Opened.board, X);
    assert Opened.board[2][2] == B;
    Continues(Start(), 0, 0, Opened.board);
    RunThrough(Start(), 0, 0, Opened, rest);
  }

  /** Move 2 of the top-row game. */
  lemma RowMove2(rest: seq<(int, int)>)
    ensures Run(Opened, [(1, 0)] + rest) == Run(Row2, rest)
  {
    SameCells(Mark(Opened.board, 1, 0, O), Row2.board);
    LineCases(Row2.board, O);
    assert Row2.board[2][2] == B;
    Continues(Opened, 1, 0, Row2.board);
    RunThrough(Opened, 1, 0, Row2, rest);
  }

  /** Move 3 of the top-row game. */
  lemma RowMove3(rest: seq<(int, int)>)
    ensures Run(Row2, [(0, 1)] + rest) == Run(Row3, rest)
  {
    SameCells(Mark(Row2.board, 0, 1, X), Row3.board);
    LineCases(Row3.board, X);
    assert Row3.board[2][2] == B;
    Continues(Row2, 0, 1, Row3.board);
    RunThrough(Row2, 0, 1, Row3, rest);
  }

  /** Move 4 of the top-row game. */
  lemma RowMove4(rest: seq<(int, int)>)
    ensures Run(Row3, [(1, 1)] + rest) == Run(Row4, rest)
  {
    SameCells(Mark(Row3.board, 1, 1, O), Row4.board);
    LineCases(Row4.board, O);
    assert Row4.board[2][2] == B;
    Continues(Row3, 1, 1, Row4.board);
    RunThrough(Row3, 1, 1, Row4, rest);
  }

  /** Move 5 of the top-row game. */
  lemma RowMove5(rest: seq<(int, int)>)
    ensures Run(Row4, [(0, 2)] + rest) == Run(Row5, rest)
  {
    SameCells(Mark(Row4.board, 0, 2, X), Row5.board);
    assert LineFilled(Row5.board, WinLines[0], X);
    Wins(Row4, 0, 2, Row5.board);
    RunThrough(Row4, 0, 2, Row5, rest);
  }

  /**
   * X plays (0,0), (0,1), (0,2) and O plays (1,0), (1,1): the fifth move
   * completes the top row and X wins, with four cells still blank; whatever
   * attempts follow are never played.
   */
  lemma RowWin(rest: seq<(int, int)>)
    ensures Run(Start(), [(0, 0), (1, 0), (0, 1), (1, 1), (0, 2)] + rest) == Row5
  {
    var r4 := [(0, 2)] + rest;
    var r3 := [(1, 1)] + r4;
    var r2 := [(0, 1)] + r3;
    var r1 := [(1, 0)] + r2;
    assert [(0, 0), (1, 0), (0, 1), (1, 1), (0, 2)] + rest == [(0, 0)] + r1;
    RowMove1(r1);
    RowMove2(r2);
    RowMove3(r3);
    RowMove4(r4);
    RowMove5(rest);
  }

  /** The diagonal game: X plays (0,0), (1,1), (2,2); O plays (0,1), (0,2). */
  const Diag2 := GameState([[X, O, B], [B, B, B], [B, B, B]], X, InProgress)
  const Diag3 := GameState([[X, O, B], [B, X, B], [B, B, B]], O, InProgress)
  const Diag4 := GameState([[X, O, O], [B, X, B], [B, B, B]], X, InProgress)
  const Diag5 := GameState([[X, O, O], [B, X, B], [B, B, X]], X, Won(X))

  /** Move 2 of the diagonal game. */
  lemma DiagMove2(rest: seq<(int, int)>)
    ensures Run(Opened, [(0, 1)] + rest) == Run(Diag2, rest)
  {
    SameCells(Mark(Opened.board, 0, 1, O), Diag2.board);
    LineCases(Diag2.board, O);
    assert Diag2.board[2][2] == B;
    Continues(Opened, 0, 1, Diag2.board);
    RunThrough(Opened, 0, 1, Diag2, rest);
  }

  /** Move 3 of the diagonal game. */
  lemma DiagMove3(rest: seq<(int, int)>)
    ensures Run(Diag2, [(1, 1)] + rest) == Run(Diag3, rest)
  {
    SameCells(Mark(Diag2.board, 1, 1, X), Diag3.board);
    LineCases(Diag3.board, X);
    assert Diag3.board[2][2] == B;
    Continues(Diag2, 1, 1, Diag3.board);
    RunThrough(Diag2, 1, 1, Diag3, rest);
  }

  /** Move 4 of the diagonal game. */
  lemma DiagMove4(rest: seq<(int, int)>)
    ensures Run(Diag3, [(0, 2)] + rest) == Run(Diag4, rest)
  {
    SameCells(Mark(Diag3.board, 0, 2, O), Diag4.board);
    LineCases(Diag4.board, O);
    assert Diag4.board[2][2] == B;
    Continues(Diag3, 0, 2, Diag4.board);
    RunThrough(Diag3, 0, 2, Diag4, rest);
  }

  /** Move 5 of the diagonal game. */
  lemma DiagMove5(rest: seq<(int, int)>)
    ensures Run(Diag4, [(2, 2)] + rest) == Run(Diag5, rest)
  {
    SameCells(Mark(Diag4.board, 2, 2, X), Diag5.board);
    assert LineFilled(Diag5.board, WinLines[6], X);
    Wins(Diag4, 2, 2, Diag5.board);
    RunThrough(Diag4, 2, 2, Diag5, rest);
  }

  /** X plays (0,0), (1,1), (2,2) and O plays (0,1), (0,2): X wins on the main diagonal and later attempts are never played. */
  lemma DiagonalWin(rest: seq<(int, int)>)
    ensures Run(Start(), [(0, 0), (0, 1), (1, 1), (0, 2), (2, 2)] + rest) == Diag5
  {
    var r4 := [(2, 2)] + rest;
    var r3 := [(0, 2)] + r4;
    var r2 := [(1, 1)] + r3;
    var r1 := [(0, 1)] + r2;
    assert [(0, 0), (0, 1), (1, 1), (0, 2), (2, 2)] + rest == [(0, 0)] + r1;
    RowMove1(r1);
    DiagMove2(r2);
    DiagMove3(r3);
    DiagMove4(r4);
    DiagMove5(rest);
  }

  /**
   * The drawn game: X plays (0,0), (0,2), (1,0), (2,1), (2,2) and O plays
   * (0,1), (1,1), (1,2), (2,0). It opens like the diagonal game.
   */
  const Draw3 := GameState([[X, O, X], [B, B, B], [B, B, B]], O, InProgress)
  const Draw4 := GameState([[X, O, X], [B, O, B], [B, B, B]], X, InProgress)
  const Draw5 := GameState([[X, O, X], [X, O, B], [B, B, B]], O, InProgress)
  const Draw6 := GameState([[X, O, X], [X, O, O], [B, B, B]], X, InProgress)
  const Draw7 := GameState([[X, O, X], [X, O, O], [B, X, B]], O, InProgress)
  const Draw8 := GameState([[X, O, X], [X, O, O], [O, X, B]], X, InProgress)

  /** Move 3 of the drawn game. */
  lemma DrawMove3(rest: seq<(int, int)>)
    ensures Run(Diag2, [(0, 2)] + rest) == Run(Draw3, rest)
  {
    SameCells(Mark(Diag2.board, 0, 2, X), Draw3.board);
    LineCases(Draw3.board, X);
    assert Draw3.board[2][2] == B;
    Continues(Diag2, 0, 2, Draw3.board);
    RunThrough(Diag2, 0, 2, Draw3, rest);
  }

  /** Move 4 of the drawn game. */
  lemma DrawMove4(rest: seq<(int, int)>)
    ensures Run(Draw3, [(1, 1)] + rest) == Run(Draw4, rest)
  {
    SameCells(Mark(Draw3.board, 1, 1, O), Draw4.board);
    LineCases(Draw4.board, O);
    assert Draw4.board[2][2] == B;
    Continues(Draw3, 1, 1, Draw4.board);
    RunThrough(Draw3, 1, 1, Draw4, rest);
  }

  /** Move 5 of the drawn game. */
  lemma DrawMove5(rest: seq<(int, int)>)
    ensures Run(Draw4, [(1, 0)] + rest) == Run(Draw5, rest)
  {
    SameCells(Mark(Draw4.board, 1, 0, X), Draw5.board);
    LineCases(Draw5.board, X);
    assert Draw5.board[2][2] == B;
    Continues(Draw4, 1, 0, Draw5.board);
    RunThrough(Draw4, 1, 0, Draw5, rest);
  }

  /** Move 6 of the drawn game. */
  lemma DrawMove6(rest: seq<(int, int)>)
    ensures Run(Draw5, [(1, 2)] + rest) == Run(Draw6, rest)
  {
    SameCells(Mark(Draw5.board, 1, 2, O), Draw6.board);
    LineCases(Draw6.board, O);
    assert Draw6.board[2][2] == B;
    Continues(Draw5, 1, 2, Draw6.board);
    RunThrough(Draw5, 1, 2, Draw6, rest);
  }

  /** Move 7 of the drawn game. */
  lemma DrawMove7(rest: seq<(int, int)>)
    ensures Run(Draw6, [(2, 1)] + rest) == Run(Draw7, rest)
  {
    SameCells(Mark(Draw6.board, 2, 1, X), Draw7.board);
    LineCases(Draw7.board, X);
    assert Draw7.board[2][2] == B;
    Continues(Draw6, 2, 1, Draw7.board);
    RunThrough(Draw6, 2, 1, Draw7, rest);
  }

  /** Move 8 of the drawn game. */
  lemma DrawMove8(rest: seq<(int, int)>)
    ensures Run(Draw7, [(2, 0)] + rest) == Run(Draw8, rest)
  {
    SameCells(Mark(Draw7.board, 2, 0, O), Draw8.board);
    LineCases(Draw8.board, O);
    assert Draw8.board[2][2] == B;
    Continues(Draw7, 2, 0, Draw8.board);
    RunThrough(Draw7, 2, 0, Draw8, rest);
  }

  /** The board of the ninth move into `Draw8`. */
  const DrawnBoard: Grid := [[X, O, X], [X, O, O], [O, X, X]]

  /** The drawn board is full and neither player has a line on it. */
  lemma DrawnBoardHasNoLine()
    ensures IsFull(DrawnBoard) && !HasLine(DrawnBoard, X) && !HasLine(DrawnBoard, O)
  {
    LineCases(DrawnBoard, X);
    LineCases(DrawnBoard, O);
  }

  /**
   * X's ninth mark fills the board without completing a line for either
   * player: the game is drawn and stops.
   */
  lemma NinthMoveDraws(rest: seq<(int, int)>)
    ensures Run(Draw8, [(2, 2)] + rest) == GameState(DrawnBoard, X, Draw)
  {
    SameCells(Mark(Draw8.board, 2, 2, X), DrawnBoard);
    DrawnBoardHasNoLine();
    Draws(Draw8, 2, 2, DrawnBoard);
    RunThrough(Draw8, 2, 2, GameState(DrawnBoard, X, Draw), rest);
  }

  /**
   * Nine accepted moves, no line completed: the board is full and the game
   * ends drawn; whatever attempts follow are never played.
   */
  lemma DrawnGame(rest: seq<(int, int)>)
    ensures Run(Start(), [(0, 0), (0, 1), (0, 2), (1, 1), (1, 0), (1, 2), (2, 1), (2, 0), (2, 2)] + rest)
      == GameState(DrawnBoard, X, Draw)
  {
    var r8 := [(2, 2)] + rest;
    var r7 := [(2, 0)] + r8;
    var r6 := [(2, 1)] + r7;
    var r5 := [(1, 2)] + r6;
    var r4 := [(1, 0)] + r5;
    var r3 := [(1, 1)] + r4;
    var r2 := [(0, 2)] + r3;
    var r1 := [(0, 1)] + r2;
    assert [(0, 0), (0, 1), (0, 2), (1, 1), (1, 0), (1, 2), (2, 1), (2, 0), (2, 2)] + rest == [(0, 0)] + r1;
    RowMove1(r1);
    DiagMove2(r2);
    DrawMove3(r3);
    DrawMove4(r4);
    DrawMove5(r5);
    DrawMove6(r6);
    DrawMove7(r7);
    DrawMove8(r8);
    NinthMoveDraws(rest);
  }

  /**
   * The full-board win: X plays (0,0), (0,2), (1,1), (2,1), (2,2) and O plays
   * (0,1), (1,0), (1,2), (2,0). It opens like the drawn game; after eight
   * marks nobody has a line and only (2,2) is blank.
   */
  const Win4 := GameState([[X, O, X], [O, B, B], [B, B, B]], X, InProgress)
  const Win5 := GameState([[X, O, X], [O, X, B], [B, B, B]], O, InProgress)
  const Win6 := GameState([[X, O, X], [O, X, O], [B, B, B]], X, InProgress)
  const Win7 := GameState([[X, O, X], [O, X, O], [B, X, B]], O, InProgress)
  const Win8 := GameState([[X, O, X], [O, X, O], [O, X, B]], X, InProgress)

  /** Move 4 of the full-board win. */
  lemma WinMove4(rest: seq<(int, int)>)
    ensures Run(Draw3, [(1, 0)] + rest) == Run(Win4, rest)
  {
    SameCells(Mark(Draw3.board, 1, 0, O), Win4.board);
    LineCases(Win4.board, O);
    assert Win4.board[2][2] == B;
    Continues(Draw3, 1, 0, Win4.board);
    RunThrough(Draw3, 1, 0, Win4, rest);
  }

  /** Move 5 of the full-board win. */
  lemma WinMove5(rest: seq<(int, int)>)
    ensures Run(Win4, [(1, 1)] + rest) == Run(Win5, rest)
  {
    SameCells(Mark(Win4.board, 1, 1, X), Win5.board);
    LineCases(Win5.board, X);
    assert Win5.board[2][2] == B;
    Continues(Win4, 1, 1, Win5.board);
    RunThrough(Win4, 1, 1, Win5, rest);
  }

  /** Move 6 of the full-board win. */
  lemma WinMove6(rest: seq<(int, int)>)
    ensures Run(Win5, [(1, 2)] + rest) == Run(Win6, rest)
  {
    SameCells(Mark(Win5.board, 1, 2, O), Win6.board);
    LineCases(Win6.board, O);
    assert Win6.board[2][2] == B;
    Continues(Win5, 1, 2, Win6.board);
    RunThrough(Win5, 1, 2, Win6, rest);
  }

  /** Move 7 of the full-board win. */
  lemma WinMove7(rest: seq<(int, int)>)
    ensures Run(Win6, [(2, 1)] + rest) == Run(Win7, rest)
  {
    SameCells(Mark(Win6.board, 2, 1, X), Win7.board);
    LineCases(Win7.board, X);
    assert Win7.board[2][2] == B;
    Continues(Win6, 2, 1, Win7.board);
    RunThrough(Win6, 2, 1, Win7, rest);
  }

  /** Move 8 of the full-board win. */
  lemma WinMove8(rest: seq<(int, int)>)
    ensures Run(Win7, [(2, 0)] + rest) == Run(Win8, rest)
  {
    SameCells(Mark(Win7.board, 2, 0, O), Win8.board);
    LineCases(Win8.board, O);
    assert Win8.board[2][2] == B;
    Continues(Win7, 2, 0, Win8.board);
    RunThrough(Win7, 2, 0, Win8, rest);
  }

  /** The board of the ninth move into `Win8`: full, with X on the main diagonal. */
  const WonBoard: Grid := [[X, O, X], [O, X, O], [O, X, X]]

  /**
   * X's ninth mark both completes a line and fills the board: the win is
   * tested first, so the game is won by X, not drawn, and it stops.
   */
  lemma NinthMoveWinsOnFullBoard(rest: seq<(int, int)>)
    ensures IsFull(WonBoard)
    ensures Run(Win8, [(2, 2)] + rest) == GameState(WonBoard, X, Won(X))
  {
    SameCells(Mark(Win8.board, 2, 2, X), WonBoard);
    assert LineFilled(WonBoard, WinLines[6], X);
    Wins(Win8, 2, 2, WonBoard);
    RunThrough(Win8, 2, 2, GameState(WonBoard, X, Won(X)), rest);
  }

  /**
   * Nine accepted moves, the last of which completes the main diagonal and
   * fills the board: X wins; whatever attempts follow are never played.
   */
  lemma FullBoardWin(rest: seq<(int, int)>)
    ensures Run(Start(), [(0, 0), (0, 1), (0, 2), (1, 0), (1, 1), (1, 2), (2, 1), (2, 0), (2, 2)] + rest)
      == GameState(WonBoard, X, Won(X))
  {
    var r8 := [(2, 2)] + rest;
    var r7 := [(2, 0)] + r8;
    var r6 := [(2, 1)] + r7;
    var r5 := [(1, 2)] + r6;
    var r4 := [(1, 1)] + r5;
    var r3 := [(1, 0)] + r4;
    var r2 := [(0, 2)] + r3;
    var r1 := [(0, 1)] + r2;
    assert [(0, 0), (0, 1), (0, 2), (1, 0), (1, 1), (1, 2), (2, 1), (2, 0), (2, 2)] + rest == [(0, 0)] + r1;
    RowMove1(r1);
    DiagMove2(r2);
    DrawMove3(r3);
    WinMove4(r4);
    WinMove5(r5);
    WinMove6(r6);
    WinMove7(r7);
    WinMove8(r8);
    NinthMoveWinsOnFullBoard(rest);
  }

  /** A single attempt with a coordinate out of range, such as 5, changes nothing, in any state. */
  lemma OutOfRangeIgnored(st: GameState, col: int)
    ensures Step(st, 5, col) == st && Step(st, col, 5) == st
  {
  }
}
