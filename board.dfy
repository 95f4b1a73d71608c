/**
 * The 3x3 board of the game: its cells, the grid (a list of three rows of
 * three cells, mutated in place by the turn loop), the blank-cell count that
 * measures the game's progress, full-board detection and the placement of a
 * single mark.
 */
module Board {

  /** A cell is blank (the one-space string of `index.py`) or holds a mark. */
  datatype Cell = Blank | X | O

  /** The two players are the two marks; play starts with X. */
  type Player = c: Cell | c != Blank witness X

  /** A board coordinate: a row or column index in 0..2. */
  type Coord = n: int | 0 <= n < 3

  /** Three rows of three cells each. */
  type Grid = b: seq<seq<Cell>> | |b| == 3 && forall i | 0 <= i < 3 :: |b[i]| == 3
    witness [[Blank, Blank, Blank], [Blank, Blank, Blank], [Blank, Blank, Blank]]

  /** The board the game starts with: nine blank cells. */
  function Initial(): (b: Grid)
    ensures forall i, j | 0 <= i < 3 && 0 <= j < 3 :: b[i][j] == Blank
  {
    seq(3, _ => seq(3, _ => Blank))
  }

  /** The cells in row-major order, the order in which `is_full` visits them. */
  function Cells(b: Grid): (cells: seq<Cell>)
    ensures |cells| == 9
    ensures forall i, j | 0 <= i < 3 && 0 <= j < 3 :: cells[3 * i + j] == b[i][j]
  {
    b[0] + b[1] + b[2]
  }

  /** How many cells of `b` hold `c`. */
  function CountOf(b: Grid, c: Cell): nat
  {
    multiset(Cells(b))[c]
  }

  /** The number of blank cells: the game's progress measure. */
  function BlankCount(b: Grid): nat
  {
    CountOf(b, Blank)
  }

  /** The board is full when no cell is blank. */
  function IsFull(b: Grid): (full: bool)
    ensures full <==> forall i, j | 0 <= i < 3 && 0 <= j < 3 :: b[i][j] != Blank
    ensures full <==> BlankCount(b) == 0
  {
    BlankInCells(b);
    forall c | c in Cells(b) :: c != Blank
  }

  /** A blank occurs among the row-major cells exactly when some cell of the grid is blank. */
  lemma BlankInCells(b: Grid)
    ensures Blank in Cells(b) <==> exists i, j | 0 <= i < 3 && 0 <= j < 3 :: b[i][j] == Blank
  {
    var cells := Cells(b);
    if Blank in cells {
      var k :| 0 <= k < 9 && cells[k] == Blank;
      var i := k / 3;
      assert cells[3 * i + k % 3] == b[i][k % 3];
    }
  }

  /** The board after `c` is written into row `row`, column `col`. */
  function Mark(b: Grid, row: Coord, col: Coord, c: Cell): (r: Grid)
    ensures forall i, j | 0 <= i < 3 && 0 <= j < 3 ::
      r[i][j] == if i == row && j == col then c else b[i][j]
  {
    b[row := b[row][col := c]]
  }

  /** Marking cell (row, col) updates exactly position 3 * row + col of the row-major cells. */
  lemma MarkCells(b: Grid, row: Coord, col: Coord, c: Cell)
    ensures Cells(Mark(b, row, col, c)) == Cells(b)[3 * row + col := c]
  {
    var before, after := Cells(b), Cells(Mark(b, row, col, c));
    forall k | 0 <= k < 9
      ensures after[k] == before[3 * row + col := c][k]
    {
      assert after[k] == Mark(b, row, col, c)[k / 3][k % 3];
      assert before[k] == b[k / 3][k % 3];
    }
  }

  /**
   * Placing a mark into a blank cell uses up exactly one blank cell, adds one
   * mark of the placed kind and leaves the count of every other kind alone.
   */
  lemma MarkCounts(b: Grid, row: Coord, col: Coord, p: Player, q: Cell)
    requires b[row][col] == Blank
    requires q != Blank && q != p
    ensures BlankCount(Mark(b, row, col, p)) == BlankCount(b) - 1
    ensures CountOf(Mark(b, row, col, p), p) == CountOf(b, p) + 1
    ensures CountOf(Mark(b, row, col, p), q) == CountOf(b, q)
  {
    MarkCells(b, row, col, p);
    var cells := Cells(b);
    assert cells[3 * row + col] == Blank;
    assert multiset(cells[3 * row + col := p]) == multiset(cells) - multiset{Blank} + multiset{p};
  }
}
