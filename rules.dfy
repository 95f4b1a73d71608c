/**
 * Win detection. A symbol has won when it fills one of the eight lines of the
 * board: a row, a column, the main diagonal or the anti-diagonal.
 * `CheckWinner` follows `check_winner` (a loop over the rows and columns that
 * returns as soon as one is filled, then the two diagonals); `HasLine` is the
 * reference definition it is proved against: an explicit table of the eight
 * lines as coordinate triples.
 */
module Rules {
  import opened Board

  /** All three cells of row `i` hold `p`. */
  predicate RowFilled(b: Grid, i: Coord, p: Cell)
  {
    forall j | 0 <= j < 3 :: b[i][j] == p
  }

  /** All three cells of column `i` hold `p`. */
  predicate ColFilled(b: Grid, i: Coord, p: Cell)
  {
    forall j | 0 <= j < 3 :: b[j][i] == p
  }

  /** All three cells of the main diagonal, (0,0) (1,1) (2,2), hold `p`. */
  predicate MainDiagFilled(b: Grid, p: Cell)
  {
    forall i | 0 <= i < 3 :: b[i][i] == p
  }

  /** All three cells of the anti-diagonal, (0,2) (1,1) (2,0), hold `p`. */
  predicate AntiDiagFilled(b: Grid, p: Cell)
  {
    forall i | 0 <= i < 3 :: b[i][2 - i] == p
  }

  /** A line of the board: three cells given by their (row, column) coordinates. */
  type Line = ((Coord, Coord), (Coord, Coord), (Coord, Coord))

  /** The eight lines of the board: three rows, three columns, two diagonals. */
  const WinLines: seq<Line> := [
    ((0, 0), (0, 1), (0, 2)),
    ((1, 0), (1, 1), (1, 2)),
    ((2, 0), (2, 1), (2, 2)),
    ((0, 0), (1, 0), (2, 0)),
    ((0, 1), (1, 1), (2, 1)),
    ((0, 2), (1, 2), (2, 2)),
    ((0, 0), (1, 1), (2, 2)),
    ((0, 2), (1, 1), (2, 0))
  ]

  /** Every cell of `line` holds `p`. */
  predicate LineFilled(b: Grid, line: Line, p: Cell)
  {
    b[line.0.0][line.0.1] == p && b[line.1.0][line.1.1] == p && b[line.2.0][line.2.1] == p
  }

  /** `p` fills some line of the board. */
  predicate HasLine(b: Grid, p: Cell)
  {
    exists k {:trigger LineFilled(b, WinLines[k], p)} | 0 <= k < |WinLines| :: LineFilled(b, WinLines[k], p)
  }

  /** Row i and column i are lines i and 3 + i of the table. */
  lemma RowColAreLines(b: Grid, i: Coord, p: Cell)
    ensures RowFilled(b, i, p) <==> LineFilled(b, WinLines[i], p)
    ensures ColFilled(b, i, p) <==> LineFilled(b, WinLines[3 + i], p)
  {
    assert WinLines[i] == ((i, 0), (i, 1), (i, 2));
    assert WinLines[3 + i] == ((0, i), (1, i), (2, i));
    assert RowFilled(b, i, p) <==> b[i][0] == p && b[i][1] == p && b[i][2] == p;
    assert ColFilled(b, i, p) <==> b[0][i] == p && b[1][i] == p && b[2][i] == p;
  }

  /** The two diagonals are lines 6 and 7 of the table. */
  lemma DiagsAreLines(b: Grid, p: Cell)
    ensures MainDiagFilled(b, p) <==> LineFilled(b, WinLines[6], p)
    ensures AntiDiagFilled(b, p) <==> LineFilled(b, WinLines[7], p)
  {
    assert MainDiagFilled(b, p) <==> b[0][0] == p && b[1][1] == p && b[2][2] == p;
    assert AntiDiagFilled(b, p) <==> b[0][2 - 0] == p && b[1][2 - 1] == p && b[2][2 - 2] == p;
  }

  /**
   * The line table describes exactly the rows, the columns and the two
   * diagonals: `p` fills a line iff it fills some row i, some column i, the
   * main diagonal or the anti-diagonal.
   */
  lemma HasLineIffRowColDiag(b: Grid, p: Cell)
    ensures HasLine(b, p) <==>
      (exists i: Coord :: RowFilled(b, i, p) || ColFilled(b, i, p))
      || MainDiagFilled(b, p) || AntiDiagFilled(b, p)
  {
    DiagsAreLines(b, p);
    if HasLine(b, p) {
      var k :| 0 <= k < 8 && LineFilled(b, WinLines[k], p);
      if k < 3 {
        RowColAreLines(b, k, p);
      } else if k < 6 {
        RowColAreLines(b, k - 3, p);
      }
    }
    forall i: Coord | RowFilled(b, i, p) || ColFilled(b, i, p)
      ensures HasLine(b, p)
    {
      RowColAreLines(b, i, p);
    }
  }

  /**
   * Reports whether `p` fills a row, a column or a diagonal, checking row i
   * and column i together for i = 0, 1, 2 and the diagonals last.
   */
  method CheckWinner(b: Grid, p: Cell) returns (won: bool)
    ensures won <==> HasLine(b, p)
  {
    HasLineIffRowColDiag(b, p);
    for i := 0 to 3
      invariant forall k: Coord | k < i :: !RowFilled(b, k, p) && !ColFilled(b, k, p)
    {
      if RowFilled(b, i, p) || ColFilled(b, i, p) {
        return true;
      }
    }
    won := MainDiagFilled(b, p) || AntiDiagFilled(b, p);
  }

  /**
   * Writing `p` into a cell never gives another symbol `q` a line it did not
   * already have: the only changed cell holds `p`, not `q`.
   */
  lemma MarkKeepsOtherLines(b: Grid, row: Coord, col: Coord, p: Cell, q: Cell)
    requires q != p
    ensures HasLine(Mark(b, row, col, p), q) ==> HasLine(b, q)
  {
    var b' := Mark(b, row, col, p);
    if HasLine(b', q) {
      var k :| 0 <= k < 8 && LineFilled(b', WinLines[k], q);
      assert LineFilled(b, WinLines[k], q);
    }
  }
}
