/**
 * The turn loop: the game state the main loop keeps (the shared board and
 * the player to move), one turn of that loop, and the loop itself. The
 * console is replaced by parameters: each turn receives the row and column
 * the player entered, as integers.
 */
module TurnLoop {
  import opened Board
  import opened Rules

  datatype Option<T> = None | Some(value: T)

  /**
   * The range check applied to every coordinate entered: a value is accepted
   * exactly when it is 0, 1 or 2, and then it is used unchanged.
   */
  function ReadCoordinate(value: int): (r: Option<Coord>)
    ensures r.Some? <==> 0 <= value < 3
    ensures r.Some? ==> r.value == value
  {
    if 0 <= value < 3 then Some(value) else None
  }

  /** The player who moves after `p`. */
  function Other(p: Player): (q: Player)
    ensures q != p
  {
    if p == X then O else X
  }

  /** The player who makes accepted move number k (counting from 0): X, O, X, ... */
  function MoverAt(k: nat): Player
  {
    if k % 2 == 0 then X else O
  }

  /** The three states of the turn loop; `Won` and `Draw` end the game. */
  datatype Status = InProgress | Won(winner: Player) | Draw

  /** An accepted move: the cell it filled and who filled it. */
  datatype Move = Move(row: Coord, col: Coord, mover: Player)

  /** Why an attempted move was turned down. */
  datatype Rejection = OutOfRange | Occupied

  /** What one attempt at a move came to. */
  datatype TurnResult = Accepted | Rejected(reason: Rejection)

  /** How a game stands once `mover` has placed a mark: a line wins, even on a full board. */
  function Outcome(b: Grid, mover: Player): Status
  {
    if HasLine(b, mover) then Won(mover)
    else if IsFull(b) then Draw
    else InProgress
  }

  /**
   * The win test comes first: a line for the mover wins even when the board
   * is full; only a full board without one is a draw, and the game goes on
   * exactly when there is neither.
   */
  lemma WinBeforeDraw(b: Grid, mover: Player)
    ensures HasLine(b, mover) ==> Outcome(b, mover) == Won(mover)
    ensures Outcome(b, mover) == Draw <==> IsFull(b) && !HasLine(b, mover)
    ensures Outcome(b, mover) == InProgress <==> !IsFull(b) && !HasLine(b, mover)
  {
  }

  /** Whose mark comes next: the turn passes only while the game goes on. */
  function NextPlayer(s: Status, mover: Player): Player
  {
    if s == InProgress then Other(mover) else mover
  }

  /** What the main loop of `index.py` keeps between turns: the board, the player to move and the status. */
  datatype GameState = GameState(board: Grid, player: Player, status: Status)

  /** The state a game starts in: nine blank cells, X to move. */
  function Start(): GameState
  {
    GameState(Initial(), X, InProgress)
  }

  /**
   * One attempted move by the player to move, as a function of the state:
   * accepted when both coordinates are in range and the cell is blank, and
   * then followed by the win test and the full-board test; a rejected
   * attempt leaves the state as it was.
   */
  function Step(st: GameState, row: int, col: int): GameState
  {
    if 0 <= row < 3 && 0 <= col < 3 && st.board[row][col] == Blank then
      var b := Mark(st.board, row, col, st.player);
      var s := Outcome(b, st.player);
      GameState(b, NextPlayer(s, st.player), s)
    else st
  }

  /**
   * An attempt changes at most the one cell it names, and only when that
   * cell was blank and both coordinates are in range: a mark is never
   * overwritten, and an attempt that is turned down changes nothing.
   */
  lemma StepChangesOneCell(st: GameState, row: int, col: int)
    ensures forall i, j | 0 <= i < 3 && 0 <= j < 3 && !(i == row && j == col) ::
      Step(st, row, col).board[i][j] == st.board[i][j]
    ensures forall i, j | 0 <= i < 3 && 0 <= j < 3 && st.board[i][j] != Blank ::
      Step(st, row, col).board[i][j] == st.board[i][j]
    ensures !(0 <= row < 3 && 0 <= col < 3 && st.board[row][col] == Blank) ==> Step(st, row, col) == st
  {
  }

  /** An accepted attempt uses up exactly one blank cell; a rejected one none. */
  lemma StepUsesOneBlank(st: GameState, row: int, col: int)
    ensures 0 <= row < 3 && 0 <= col < 3 && st.board[row][col] == Blank ==>
      BlankCount(Step(st, row, col).board) == BlankCount(st.board) - 1
    ensures !(0 <= row < 3 && 0 <= col < 3 && st.board[row][col] == Blank) ==>
      BlankCount(Step(st, row, col).board) == BlankCount(st.board)
  {
    if 0 <= row < 3 && 0 <= col < 3 && st.board[row][col] == Blank {
      MarkCounts(st.board, row, col, st.player, Other(st.player));
    }
  }

  /** The outcome of one turn, as `Turn` states it, is the state `Step` computes. */
  lemma TurnIsStep(before: GameState, after: GameState, row: int, col: int, accepted: bool)
    requires !(0 <= row < 3 && 0 <= col < 3) ==> !accepted
    requires 0 <= row < 3 && 0 <= col < 3 ==> (accepted <==> before.board[row][col] == Blank)
    requires !accepted ==> after == before
    requires accepted ==>
      && 0 <= row < 3 && 0 <= col < 3
      && after.board == Mark(before.board, row, col, before.player)
      && after.status == Outcome(after.board, before.player)
      && after.player == NextPlayer(after.status, before.player)
    ensures after == Step(before, row, col)
  {
  }

  /** The state after the loop has been fed `attempts`, one attempt per turn, stopping once the game is over. */
  function Run(st: GameState, attempts: seq<(int, int)>): GameState
    decreases |attempts|
  {
    if |attempts| == 0 || st.status != InProgress then st
    else Run(Step(st, attempts[0].0, attempts[0].1), attempts[1..])
  }

  /**
   * `states` traces the loop over the first `used` attempts: it starts in
   * `states[0]`, every attempt was played while the game was going on, and
   * `states[k + 1]` is the state after attempt k.
   */
  ghost predicate Traces(states: seq<GameState>, attempts: seq<(int, int)>, used: nat)
  {
    && used <= |attempts| && |states| == used + 1
    && (forall k | 0 <= k < used :: states[k].status == InProgress)
    && (forall k | 0 <= k < used :: states[k + 1] == Step(states[k], attempts[k].0, attempts[k].1))
  }

  /** Playing one more attempt while the game goes on extends the trace. */
  lemma TraceExtends(states: seq<GameState>, attempts: seq<(int, int)>, used: nat)
    requires Traces(states, attempts, used) && used < |attempts| && states[used].status == InProgress
    ensures Traces(states + [Step(states[used], attempts[used].0, attempts[used].1)], attempts, used + 1)
  {
    var next := states + [Step(states[used], attempts[used].0, attempts[used].1)];
    assert forall k | 0 <= k <= used :: next[k] == states[k];
  }

  /** A trace that ends when the attempts are used up or the game is over ends in the state `Run` computes. */
  lemma {:induction false} RunFollowsTrace(states: seq<GameState>, attempts: seq<(int, int)>, used: nat)
    requires Traces(states, attempts, used)
    requires used == |attempts| || states[used].status != InProgress
    ensures Run(states[0], attempts) == states[used]
    decreases used
  {
    if used > 0 {
      assert states[0].status == InProgress && states[1] == Step(states[0], attempts[0].0, attempts[0].1);
      assert Traces(states[1..], attempts[1..], used - 1) by {
        forall k | 0 <= k < used - 1
          ensures states[1..][k + 1] == Step(states[1..][k], attempts[1..][k].0, attempts[1..][k].1)
        {
          assert states[k + 2] == Step(states[k + 1], attempts[k + 1].0, attempts[k + 1].1);
        }
      }
      RunFollowsTrace(states[1..], attempts[1..], used - 1);
    }
  }

  /**
   * The board agrees with the record of accepted moves: every accepted move
   * used up one blank cell, the moves alternate X, O, X, ..., the mark of
   * every accepted move is still in its cell (no mark is ever overwritten),
   * X has made half the moves rounded up and O half rounded down.
   */
  ghost predicate Recorded(b: Grid, moves: seq<Move>)
  {
    && |moves| + BlankCount(b) == 9
    && (forall k | 0 <= k < |moves| :: moves[k].mover == MoverAt(k))
    && (forall k | 0 <= k < |moves| :: b[moves[k].row][moves[k].col] == moves[k].mover)
    && CountOf(b, X) == (|moves| + 1) / 2
    && CountOf(b, O) == |moves| / 2
  }

  /**
   * The status agrees with the board. While the game is in progress it is
   * the turn of the player the alternation says, a blank cell remains and
   * nobody has a line; a won game has a line for the last mover only; a
   * drawn game has a full board and no line.
   */
  ghost predicate StatusAgrees(b: Grid, player: Player, status: Status, moveCount: nat)
  {
    match status
    case InProgress =>
      player == MoverAt(moveCount) && !IsFull(b) && !HasLine(b, X) && !HasLine(b, O)
    case Won(w) =>
      moveCount > 0 && w == player == MoverAt(moveCount - 1) && HasLine(b, w) && !HasLine(b, Other(w))
    case Draw =>
      IsFull(b) && !HasLine(b, X) && !HasLine(b, O)
  }

  /** The invariant of the game state. */
  ghost predicate Invariant(b: Grid, player: Player, status: Status, moves: seq<Move>)
  {
    Recorded(b, moves) && StatusAgrees(b, player, status, |moves|)
  }

  /**
   * A game that satisfies the invariant has had at most nine accepted
   * moves, and one still in progress fewer than nine: the blank cells run
   * out, so the loop ends after at most nine accepted moves.
   */
  lemma MovesBounded(b: Grid, player: Player, status: Status, moves: seq<Move>)
    requires Invariant(b, player, status, moves)
    ensures |moves| <= 9
    ensures status == InProgress ==> |moves| < 9
  {
  }

  /** The empty board holds nine blanks and no mark. */
  lemma InitialCounts()
    ensures BlankCount(Initial()) == 9 && CountOf(Initial(), X) == 0 && CountOf(Initial(), O) == 0
  {
    var row: seq<Cell> := [Blank, Blank, Blank];
    forall i | 0 <= i < 3
      ensures Initial()[i] == row
    {
      assert forall j | 0 <= j < 3 :: Initial()[i][j] == row[j];
    }
    assert Initial() == [row, row, row];
    assert row == [Blank] + [Blank] + [Blank];
    assert multiset(row)[Blank] == 3 && multiset(row)[X] == 0 && multiset(row)[O] == 0;
    assert multiset(Cells(Initial())) == multiset(row) + multiset(row) + multiset(row);
  }

  /** Nobody has a line on the empty board. */
  lemma InitialNoLine(p: Player)
    ensures !HasLine(Initial(), p)
  {
    var b := Initial();
    forall k | 0 <= k < |WinLines|
      ensures !LineFilled(b, WinLines[k], p)
    {
      var line := WinLines[k];
      assert b[line.0.0][line.0.1] == Blank;
    }
  }

  /** The game starts in a state that satisfies the invariant. */
  lemma InitialInvariant()
    ensures Invariant(Initial(), X, InProgress, [])
  {
    InitialCounts();
    InitialNoLine(X);
    InitialNoLine(O);
    assert Initial()[0][0] == Blank;
  }

  /** An accepted move uses up one blank cell and adds one mark of the mover's, who alternates with parity. */
  lemma StepKeepsCounts(b: Grid, n: nat, row: Coord, col: Coord)
    requires n + BlankCount(b) == 9 && CountOf(b, X) == (n + 1) / 2 && CountOf(b, O) == n / 2
    requires b[row][col] == Blank
    ensures var b' := Mark(b, row, col, MoverAt(n));
      n + 1 + BlankCount(b') == 9 && CountOf(b', X) == (n + 2) / 2 && CountOf(b', O) == (n + 1) / 2
  {
    var p := MoverAt(n);
    var b' := Mark(b, row, col, p);
    MarkCounts(b, row, col, p, Other(p));
    if n % 2 == 0 {
      assert p == X && CountOf(b', X) == CountOf(b, X) + 1 && CountOf(b', O) == CountOf(b, O);
    } else {
      assert p == O && CountOf(b', O) == CountOf(b, O) + 1 && CountOf(b', X) == CountOf(b, X);
    }
  }

  /** An accepted move leaves every earlier mark in its cell and records the mover in turn. */
  lemma StepKeepsMarks(b: Grid, moves: seq<Move>, row: Coord, col: Coord)
    requires forall k | 0 <= k < |moves| :: moves[k].mover == MoverAt(k)
    requires forall k | 0 <= k < |moves| :: b[moves[k].row][moves[k].col] == moves[k].mover
    requires b[row][col] == Blank
    ensures var p := MoverAt(|moves|);
      var b', moves' := Mark(b, row, col, p), moves + [Move(row, col, p)];
      && (forall k | 0 <= k < |moves'| :: moves'[k].mover == MoverAt(k))
      && (forall k | 0 <= k < |moves'| :: b'[moves'[k].row][moves'[k].col] == moves'[k].mover)
  {
    var n, p := |moves|, MoverAt(|moves|);
    var b' := Mark(b, row, col, p);
    var moves' := moves + [Move(row, col, p)];
    forall k | 0 <= k < n + 1
      ensures moves'[k].mover == MoverAt(k)
      ensures b'[moves'[k].row][moves'[k].col] == moves'[k].mover
    {
      if k < n {
        var m := moves[k];
        assert moves'[k] == m;
        assert b[m.row][m.col] == m.mover != Blank;
        assert b'[m.row][m.col] == b[m.row][m.col];
      }
    }
  }

  /** An accepted move keeps the record: one blank fewer, one more mark of the mover's in place. */
  lemma StepKeepsRecord(b: Grid, moves: seq<Move>, row: Coord, col: Coord)
    requires Recorded(b, moves)
    requires b[row][col] == Blank
    ensures Recorded(Mark(b, row, col, MoverAt(|moves|)), moves + [Move(row, col, MoverAt(|moves|))])
  {
    StepKeepsCounts(b, |moves|, row, col);
    StepKeepsMarks(b, moves, row, col);
  }

  /**
   * Once the mover `p` of move number n has placed a mark on a board where
   * the other player has no line, the status `Outcome` gives agrees with the
   * board: the mover wins on a line, the game is drawn on a full board
   * without one, and otherwise it goes on with the other player to move.
   */
  lemma OutcomeAgrees(b: Grid, p: Player, n: nat)
    requires p == MoverAt(n) && !HasLine(b, Other(p))
    ensures StatusAgrees(b, NextPlayer(Outcome(b, p), p), Outcome(b, p), n + 1)
  {
    assert MoverAt(n + 1) == Other(p);
    assert p == X || p == O;
  }

  /** After an accepted move the status follows `Outcome`. */
  lemma StepKeepsStatus(b: Grid, p: Player, moveCount: nat, row: Coord, col: Coord)
    requires StatusAgrees(b, p, InProgress, moveCount)
    ensures var b' := Mark(b, row, col, p);
            StatusAgrees(b', NextPlayer(Outcome(b', p), p), Outcome(b', p), moveCount + 1)
  {
    var q := Other(p);
    assert !HasLine(b, q) by {
      assert q == X || q == O;
    }
    MarkKeepsOtherLines(b, row, col, p, q);
    OutcomeAgrees(Mark(b, row, col, p), p, moveCount);
  }

  /** Every accepted move keeps the invariant. */
  lemma StepPreservesInvariant(b: Grid, p: Player, moves: seq<Move>, row: Coord, col: Coord,
                                b': Grid, s: Status, next: Player)
    requires Invariant(b, p, InProgress, moves)
    requires b[row][col] == Blank
    requires b' == Mark(b, row, col, p) && s == Outcome(b', p) && next == NextPlayer(s, p)
    ensures Invariant(b', next, s, moves + [Move(row, col, p)])
  {
    StepKeepsRecord(b, moves, row, col);
    StepKeepsStatus(b, p, |moves|, row, col);
  }

  class Game {
    /** The board, shared between the loop and the placement step. */
    var board: Grid
    /** The player to move, or the winner once the game is won. */
    var player: Player
    var status: Status
    /** The accepted moves so far, oldest first. */
    ghost var moves: seq<Move>

    /** The game's invariant, over the fields. */
    ghost predicate Valid()
      reads this
    {
      Invariant(board, player, status, moves)
    }

    /** The board, the player to move and the status, as a value. */
    function Snapshot(): GameState
      reads this
    {
      GameState(board, player, status)
    }

    /** A new game: nine blank cells and X to move. */
    constructor ()
      ensures Valid()
      ensures board == Initial() && player == X && status == InProgress && moves == []
    {
      InitialInvariant();
      board := Initial();
      player := X;
      status := InProgress;
      moves := [];
    }

    /**
     * One attempt of `handle_turn`: the entered row and column must each pass
     * the range check, and the target cell must be blank; then the current
     * player's mark is written into it. A rejected attempt leaves the board
     * as it was, so a mark is never overwritten. This is a step of `Turn`:
     * it neither needs nor keeps `Valid()`, since the move record is brought
     * back in line with the board by `Turn` afterwards.
     */
    method HandleTurn(rowInput: int, colInput: int) returns (result: TurnResult)
      modifies this`board
      ensures !(0 <= rowInput < 3 && 0 <= colInput < 3) ==> result == Rejected(OutOfRange)
      ensures 0 <= rowInput < 3 && 0 <= colInput < 3 ==>
        (result == Accepted <==> old(board)[rowInput][colInput] == Blank) &&
        (result.Rejected? ==> result == Rejected(Occupied))
      ensures result.Rejected? ==> board == old(board)
      ensures result == Accepted ==>
        0 <= rowInput < 3 && 0 <= colInput < 3 && board == Mark(old(board), rowInput, colInput, player)
    {
      var row, col := ReadCoordinate(rowInput), ReadCoordinate(colInput);
      if row.None? || col.None? {
        return Rejected(OutOfRange);
      }
      if board[row.value][col.value] == Blank {
        board := Mark(board, row.value, col.value, player);
        result := Accepted;
      } else {
        result := Rejected(Occupied);
      }
    }

    /**
     * One pass of the main loop with one attempted move. A rejected attempt
     * changes nothing. Otherwise the mark is placed, and then a line for the
     * mover wins the game (even when the board is now full), a full board
     * without it is a draw, and in any other case the turn passes to the
     * other player.
     */
    method Turn(rowInput: int, colInput: int) returns (result: TurnResult)
      requires Valid() && status == InProgress
      modifies this
      ensures Valid()
      ensures !(0 <= rowInput < 3 && 0 <= colInput < 3) ==> result == Rejected(OutOfRange)
      ensures 0 <= rowInput < 3 && 0 <= colInput < 3 ==>
        (result == Accepted <==> old(board)[rowInput][colInput] == Blank) &&
        (result.Rejected? ==> result == Rejected(Occupied))
      ensures old(moves) <= moves && |moves| == |old(moves)| + (if result == Accepted then 1 else 0)
      ensures result.Rejected? ==>
        board == old(board) && player == old(player) && status == old(status) && moves == old(moves)
      ensures result == Accepted ==>
        && 0 <= rowInput < 3 && 0 <= colInput < 3
        && board == Mark(old(board), rowInput, colInput, old(player))
        && BlankCount(board) == BlankCount(old(board)) - 1
        && moves == old(moves) + [Move(rowInput, colInput, old(player))]
        && status == Outcome(board, old(player))
        && player == NextPlayer(status, old(player))
    {
      result := HandleTurn(rowInput, colInput);
      if result.Rejected? {
        return;
      }
      var mover := player;
      ghost var before := moves;
      moves := moves + [Move(rowInput, colInput, mover)];
      Conclude(mover);
      StepPreservesInvariant(old(board), mover, before, rowInput, colInput, board, status, player);
    }

    /**
     * The tests after a placement: a line for the mover wins, checked before
     * the full-board test, then a full board is a draw, and otherwise the
     * turn passes to the other player. This is a step of `Turn`, called
     * after the placement; `Valid()` holds again only once `Turn` has
     * finished.
     */
    method Conclude(mover: Player)
      modifies this`status, this`player
      ensures status == Outcome(board, mover)
      ensures player == NextPlayer(status, mover)
    {
      var won := CheckWinner(board, mover);
      if won {
        status := Won(mover);
        player := mover;
      } else if IsFull(board) {
        status := Draw;
        player := mover;
      } else {
        status := InProgress;
        player := Other(mover);
      }
    }

    /**
     * The main loop, fed a finite list of attempted moves: turns are played
     * until the game is won or drawn or the attempts run out. It returns how
     * many attempts were accepted and how many were used.
     */
    method Play(attempts: seq<(int, int)>) returns (accepted: nat, used: nat)
      requires Valid()
      modifies this
      ensures Valid()
      ensures Snapshot() == Run(old(Snapshot()), attempts)
      ensures used <= |attempts|
      ensures used < |attempts| ==> status != InProgress
      ensures old(status).Won? || old(status).Draw? ==> used == 0
      ensures |moves| == |old(moves)| + accepted && old(moves) <= moves
      ensures accepted <= used && |moves| <= 9
    {
      accepted, used := 0, 0;
      ghost var over := status != InProgress;
      ghost var states := [Snapshot()];
      while used < |attempts| && status == InProgress
        invariant Valid()
        invariant used <= |attempts|
        invariant Traces(states, attempts, used) && states[0] == old(Snapshot()) && states[used] == Snapshot()
        invariant over ==> used == 0 && status != InProgress
        invariant accepted <= used
        invariant |moves| == |old(moves)| + accepted && old(moves) <= moves
        decreases |attempts| - used
      {
        ghost var before := Snapshot();
        var result := Turn(attempts[used].0, attempts[used].1);
        TurnIsStep(before, Snapshot(), attempts[used].0, attempts[used].1, result == Accepted);
        TraceExtends(states, attempts, used);
        states := states + [Snapshot()];
        if result == Accepted {
          accepted := accepted + 1;
        }
        used := used + 1;
      }
      RunFollowsTrace(states, attempts, used);
    }
  }
}
