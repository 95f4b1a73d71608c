# Tic-tac-toe rules engine, modelled in Dafny

This project models the rules engine of a two-player console tic-tac-toe game
(`index.py`) and proves its properties. It covers:

- the 3x3 board;
- the win test `check_winner`, the full-board test `is_full` and the board
  picture `print_board`;
- the range check of `get_valid_input`;
- the placement step of `handle_turn`;
- the turn loop of `main`.

Files and modules:

- `board.dfy` (module `Board`): cells, the 3x3 grid, the row-major cell list
  and its counts, `is_full`, and the placement of one mark.
- `rules.dfy` (module `Rules`): a table of the eight lines, the reference
  predicate `HasLine`, and `CheckWinner`. `CheckWinner` is the loop of
  `check_winner`, proved against `HasLine`.
- `display.dfy` (module `Display`): `RenderBoard`, the loop of `print_board`
  with the text it builds returned instead of printed. It is proved equal to
  the closed-form picture `Layout`. Lemmas give where each cell and each
  newline lies, and show that the picture determines the board.
- `game.dfy` (module `TurnLoop`):
  - the state of the main loop, as a value `GameState` with its transition
    function `Step`, and as the class `Game`, whose methods update the board,
    the player to move and the status in place;
  - `Run`, the reference definition of the whole loop over a list of
    attempted moves;
  - a game invariant that a new game meets and every accepted move keeps:
    - blank cells plus accepted moves make nine;
    - the movers alternate X, O, X, …;
    - no mark is ever overwritten;
    - the status agrees with the board.
- `scenarios.dfy` (module `Scenarios`): whole games played from the start
  state with `Run`:
  - a win on the top row;
  - a win on the main diagonal;
  - a nine-move draw;
  - a nine-move game whose last move both completes a line and fills the
    board, which is a win.

  It also holds one single-step fact: an attempt with a coordinate of 5 is
  rejected in any state.

Interfaces replaced by parameters:

- Console input becomes integer parameters: each attempted move is the row
  and column a player entered.
- The printed board becomes a returned string.
- The log messages are not modelled.

## Model

| member | source | states |
|---|---|---|
| Board.Initial | index.py:77 | the board a game starts with has all nine cells blank |
| Board.Cells | index.py:38 | the cells in the order `is_full` visits them: nine of them, cell (i, j) at position 3i + j |
| Board.IsFull | index.py:35-38 | the board is full iff no cell is blank, iff the blank count is 0 |
| Board.Mark | index.py:68 | writing a mark changes the named cell to it and leaves every other cell as it was |
| Board.MarkCells | index.py:68 | in the row-major cell list, marking cell (row, col) updates exactly position 3·row + col |
| Board.MarkCounts | index.py:67-68 | marking a blank cell with p: one blank fewer, one more p, every other symbol's count unchanged |
| Board.BlankInCells | index.py:38 | a blank occurs in the row-major list iff some grid cell is blank |
| Rules.RowFilled | index.py:25 | definition: all three cells of row i hold p (the first `all(...)` of the row/column test) |
| Rules.ColFilled | index.py:25 | definition: all three cells of column i hold p (the second `all(...)`) |
| Rules.MainDiagFilled | index.py:29 | definition: cells (0,0), (1,1), (2,2) all hold p |
| Rules.AntiDiagFilled | index.py:29 | definition: cells (0,2), (1,1), (2,0), that is `board[i][2 - i]`, all hold p |
| Rules.HasLineIffRowColDiag | index.py:24-30 | p fills a line of the eight-line table iff p fills some row, some column, the main diagonal or the anti-diagonal |
| Rules.RowColAreLines | index.py:24-25 | row i and column i are lines i and 3 + i of the table |
| Rules.DiagsAreLines | index.py:29 | the two diagonals are lines 6 and 7 of the table |
| Rules.CheckWinner | index.py:21-32 | the row/column loop with early return, then the diagonals: true iff the symbol fills one of the eight lines |
| Rules.MarkKeepsOtherLines | index.py:67-68 | placing p never gives another symbol a line it did not already have |
| Display.Join | index.py:16-18 | definition: Python's `sep.join(parts)`, the parts with `sep` between each two neighbours |
| Display.DisplayLines | index.py:14-17 | the six lines the loop appends: row 0, dashes, row 1, dashes, row 2, dashes; each nine characters long |
| Display.Layout | index.py:18 | definition: the six lines joined by newlines, the text `print_board` prints |
| Display.JoinedLines | index.py:18 | nine-character lines joined by newlines: length 10n − 1, line m at offset 10m, a newline at every offset ≡ 9 (mod 10) |
| Display.JoinRow | index.py:16 | joining a row's three cell texts with a space, a vertical bar and a space gives the row layout |
| Display.LayoutShape | index.py:14-18 | the picture has 59 characters: six lines of nine, newlines between them, cell (i, j) shown at offset 20i + 4j |
| Display.LayoutDeterminesBoard | index.py:14-18 | two boards with the same picture are equal |
| Display.RenderBoard | index.py:11-18 | the loop over the rows builds exactly `Layout(b)`: each row's cells joined by a bar between spaces, a line of nine dashes after each row, lines joined by newlines |
| TurnLoop.ReadCoordinate | index.py:51-55 | a coordinate is accepted iff 0 ≤ v < 3, and then it is used unchanged |
| TurnLoop.Other | index.py:97 | the turn passes to the other player |
| TurnLoop.Outcome | index.py:87-95 | definition: the status after the mover's mark, won if the mover has a line, else drawn if the board is full, else in progress (its properties are `WinBeforeDraw`) |
| TurnLoop.NextPlayer | index.py:90-97 | definition: the player toggles only while the game goes on; a finished game keeps the mover, as the loop breaks before line 97 |
| TurnLoop.Start | index.py:77-78 | definition: the empty board, X to move, game in progress |
| TurnLoop.Step | index.py:85-97 | definition: one pass of the loop as a value; an attempt in range on a blank cell places the mover's mark and sets status and player from `Outcome` and `NextPlayer`, any other attempt leaves the state as it was (its properties are `StepChangesOneCell`, `StepUsesOneBlank`, `StepPreservesInvariant`) |
| TurnLoop.Run | index.py:80-97 | definition: the loop fed a list of attempts, one `Step` per attempt while the game is in progress, stopping at a win or a draw or when the attempts run out (`Game.Play` is proved to end in this state) |
| TurnLoop.WinBeforeDraw | index.py:87-95 | a line for the mover wins even on a full board; only a full board with no line is a draw; the game goes on iff neither holds |
| TurnLoop.StepChangesOneCell | index.py:67-71 | an attempt changes at most the cell it names; no mark is overwritten; an out-of-range or occupied attempt changes nothing |
| TurnLoop.StepUsesOneBlank | index.py:67-68 | an accepted attempt uses exactly one blank cell; a rejected one uses none |
| TurnLoop.TurnIsStep | index.py:85-97 | the state change `Game.Turn` promises is the value `Step` computes |
| TurnLoop.TraceExtends | index.py:80-97 | one more turn while the game goes on extends the trace of loop states |
| TurnLoop.RunFollowsTrace | index.py:80-97 | a loop trace ending when attempts run out or the game is over ends in the state `Run` gives |
| TurnLoop.MovesBounded | index.py:85-95 | under the invariant there are at most 9 accepted moves; while the game is in progress, fewer than 9 |
| TurnLoop.InitialCounts | index.py:77 | the empty board has nine blanks, no X and no O |
| TurnLoop.InitialNoLine | index.py:77 | nobody has a line on the empty board |
| TurnLoop.InitialInvariant | index.py:77-78 | the start state, an empty board with X to move, satisfies the game invariant |
| TurnLoop.StepKeepsCounts | index.py:67-68 | move n puts MoverAt(n) on a blank: blanks + moves stays 9; X has ⌈n/2⌉ marks, O ⌊n/2⌋ |
| TurnLoop.StepKeepsMarks | index.py:67-69 | an accepted move leaves every earlier mark in its cell, and the movers keep alternating |
| TurnLoop.StepKeepsRecord | index.py:67-69 | an accepted move keeps the record of moves in agreement with the board |
| TurnLoop.OutcomeAgrees | index.py:87-97 | after the mover's mark, the status from the tests agrees with the board and the next player is the one the alternation names |
| TurnLoop.StepKeepsStatus | index.py:87-97 | after an accepted move in a game in progress, the new status and player agree with the board |
| TurnLoop.StepPreservesInvariant | index.py:85-97 | every accepted move keeps the game invariant |
| TurnLoop.Game.constructor | index.py:77-78 | a new game: empty board, X to move, in progress, invariant holds |
| TurnLoop.Game.HandleTurn | index.py:60-71 | out-of-range coordinates are rejected; else the move is accepted iff the cell is blank, and then exactly that cell gets the mover's mark; a rejection leaves the board unchanged |
| TurnLoop.Game.Conclude | index.py:87-97 | the mover's win test comes first, then the full-board test, then the player toggle: the status is `Outcome`, the player `NextPlayer` |
| TurnLoop.Game.Turn | index.py:80-97 | one loop pass: a rejected attempt changes nothing; an accepted one places the mark, uses one blank, records the move and sets status and player from the tests; the invariant is kept |
| TurnLoop.Game.Play | index.py:80-97 | the loop over the attempts ends in the state `Run` gives; it stops only when the game is over or the attempts run out; at most 9 moves are accepted; the invariant is kept |
| Scenarios.LineCases | index.py:24-30 | p has a line iff one of the eight table lines is filled, written out case by case |
| Scenarios.Continues | index.py:92-97 | an accepted move with no line on a non-full board passes the turn |
| Scenarios.Wins | index.py:87-90 | an accepted move that completes a line wins for the mover |
| Scenarios.Draws | index.py:92-95 | an accepted move that fills the board without a line draws |
| Scenarios.RunThrough | index.py:80-85 | while the game goes on, the loop plays the first attempt and continues from the state after it |
| Scenarios.RowMove1 | index.py:85 | X's opening mark in the corner keeps the game going with O to move |
| Scenarios.RowMove2 | index.py:85 | second move of the top-row game |
| Scenarios.RowMove3 | index.py:85 | third move of the top-row game |
| Scenarios.RowMove4 | index.py:85 | fourth move of the top-row game |
| Scenarios.RowMove5 | index.py:87-90 | X completes the top row and wins |
| Scenarios.RowWin | index.py:80-90 | X (0,0) (0,1) (0,2) and O (1,0) (1,1): X wins on row 0 with four blanks left; later attempts are never played |
| Scenarios.DiagMove2 | index.py:85 | second move of the diagonal game |
| Scenarios.DiagMove3 | index.py:85 | third move of the diagonal game |
| Scenarios.DiagMove4 | index.py:85 | fourth move of the diagonal game |
| Scenarios.DiagMove5 | index.py:87-90 | X completes the main diagonal and wins |
| Scenarios.DiagonalWin | index.py:80-90 | X (0,0) (1,1) (2,2) and O (0,1) (0,2): X wins on the main diagonal; later attempts are never played |
| Scenarios.DrawMove3 | index.py:85 | third move of the drawn game |
| Scenarios.DrawMove4 | index.py:85 | fourth move of the drawn game |
| Scenarios.DrawMove5 | index.py:85 | fifth move of the drawn game |
| Scenarios.DrawMove6 | index.py:85 | sixth move of the drawn game |
| Scenarios.DrawMove7 | index.py:85 | seventh move of the drawn game |
| Scenarios.DrawMove8 | index.py:85 | eighth move of the drawn game |
| Scenarios.DrawnBoardHasNoLine | index.py:87-95 | the final drawn board is full and neither X nor O has a line |
| Scenarios.NinthMoveDraws | index.py:92-95 | the ninth mark fills the board without a line: the game is drawn and stops |
| Scenarios.DrawnGame | index.py:80-95 | nine accepted moves with no line end in a draw on a full board; later attempts are never played |
| Scenarios.WinMove4 | index.py:85 | fourth move of the full-board win |
| Scenarios.WinMove5 | index.py:85 | fifth move of the full-board win |
| Scenarios.WinMove6 | index.py:85 | sixth move of the full-board win |
| Scenarios.WinMove7 | index.py:85 | seventh move of the full-board win |
| Scenarios.WinMove8 | index.py:85 | eighth move of the full-board win: no line yet, only (2,2) blank, X to move |
| Scenarios.NinthMoveWinsOnFullBoard | index.py:87-92 | a ninth mark that completes a line and fills the board is a win for X, not a draw, and the game stops |
| Scenarios.FullBoardWin | index.py:80-92 | X (0,0) (0,2) (1,1) (2,1) (2,2) and O (0,1) (1,0) (1,2) (2,0): the ninth move fills the board and completes the main diagonal, and X wins; later attempts are never played |
| Scenarios.OutOfRangeIgnored | index.py:52-55 | a single attempt with a coordinate of 5 leaves any game state unchanged |

## Left out

- Console input and the `int(...)` parse, with its "Please enter an integer"
  warning, are not modelled. Coordinates arrive as integers, so a
  non-numeric entry such as "a" has no counterpart.
- The source's unbounded re-prompt loops are modelled as one attempt at a
  time:
  - `get_valid_input` re-asks for one coordinate until it is in range;
  - `handle_turn` re-asks for both coordinates when the cell is taken.

  In the model, an out-of-range or occupied attempt is rejected and changes
  nothing, and the next attempt comes from the list fed to `Play`. Because
  of this, a rejection of either coordinate rejects the whole attempt.
- TurnLoop.Game.Play: it consumes a finite list of attempts. The source
  waits for input forever, so a game the list does not finish is left in
  progress.
- Display.RenderBoard: it returns the text instead of printing it. The three
  board prints in `main` (before each turn and at the end) are not modelled
  as separate calls.
- Logging, that is the turn announcement, the win and draw messages, and the
  warnings, is not modelled.
- Rules.CheckWinner: like `check_winner`, it accepts any cell value as the
  symbol, blank included. `main` only ever passes X or O.
