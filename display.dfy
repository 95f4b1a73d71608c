/**
 * The text rendition of the board shown after every move: each row as its
 * three cells joined by " | ", each row followed by a divider of nine dashes,
 * and the six lines joined by newlines. `RenderBoard` builds the lines one
 * row at a time, as `print_board` does; `Layout` is the same picture written
 * out in full, and the lemmas below say where every cell, separator and
 * newline of it lies and that the picture determines the board.
 */
module Display {
  import opened Board

  /** The character a cell is shown as; a blank cell shows as a space. */
  function Glyph(c: Cell): char
  {
    match c
    case Blank => ' '
    case X => 'X'
    case O => 'O'
  }

  /** The one-character string a cell holds on the board of `index.py`. */
  function CellText(c: Cell): string
  {
    [Glyph(c)]
  }

  /** The parts with `sep` between each two neighbours (Python's `sep.join(parts)`). */
  function Join(parts: seq<string>, sep: string): string
  {
    if |parts| == 0 then ""
    else if |parts| == 1 then parts[0]
    else parts[0] + sep + Join(parts[1..], sep)
  }

  /** The line drawn under every row: nine dashes. */
  const Divider: string := "---------"

  /** A row shown as `a | b | c`. */
  function RowLayout(row: seq<Cell>): string
    requires |row| == 3
  {
    [Glyph(row[0]), ' ', '|', ' ', Glyph(row[1]), ' ', '|', ' ', Glyph(row[2])]
  }

  /** The six lines of the picture, top to bottom: each row followed by a divider. */
  function DisplayLines(b: Grid): (lines: seq<string>)
    ensures |lines| == 6
    ensures forall m | 0 <= m < 6 :: |lines[m]| == 9
  {
    [RowLayout(b[0]), Divider, RowLayout(b[1]), Divider, RowLayout(b[2]), Divider]
  }

  /** The whole board as it is shown: the six lines with a newline between each two. */
  function Layout(b: Grid): string
  {
    Join(DisplayLines(b), "\n")
  }

  /**
   * Lines of nine characters joined by newlines: line m occupies offsets
   * 10 * m to 10 * m + 8 and a newline follows every line but the last.
   */
  lemma {:induction false} JoinedLines(parts: seq<string>)
    requires |parts| > 0
    requires forall m | 0 <= m < |parts| :: |parts[m]| == 9
    ensures |Join(parts, "\n")| == 10 * |parts| - 1
    ensures forall m, k | 0 <= m < |parts| && 0 <= k < 9 :: Join(parts, "\n")[10 * m + k] == parts[m][k]
    ensures forall n | 0 <= n < |Join(parts, "\n")| && n % 10 == 9 :: Join(parts, "\n")[n] == '\n'
  {
    if |parts| > 1 {
      var rest := parts[1..];
      JoinedLines(rest);
      var t, u := Join(parts, "\n"), Join(rest, "\n");
      assert t == parts[0] + "\n" + u;
      forall m, k | 0 <= m < |parts| && 0 <= k < 9
        ensures t[10 * m + k] == parts[m][k]
      {
        if m > 0 {
          assert t[10 * m + k] == u[10 * (m - 1) + k];
          assert rest[m - 1] == parts[m];
        }
      }
      forall n | 0 <= n < |t| && n % 10 == 9
        ensures t[n] == '\n'
      {
        if n > 9 {
          assert t[n] == u[n - 10];
        }
      }
    }
  }

  /**
   * The picture is 59 characters: six lines of nine characters, line m at
   * offset 10 * m and a newline after each but the last. So cell (i, j) is
   * at offset 20 * i + 4 * j.
   */
  lemma LayoutShape(b: Grid)
    ensures |Layout(b)| == 59
    ensures forall m, k | 0 <= m < 6 && 0 <= k < 9 :: Layout(b)[10 * m + k] == DisplayLines(b)[m][k]
    ensures forall n | 0 <= n < 59 && n % 10 == 9 :: Layout(b)[n] == '\n'
    ensures forall i, j | 0 <= i < 3 && 0 <= j < 3 :: Layout(b)[20 * i + 4 * j] == Glyph(b[i][j])
  {
    var lines := DisplayLines(b);
    JoinedLines(lines);
    forall i, j | 0 <= i < 3 && 0 <= j < 3
      ensures Layout(b)[20 * i + 4 * j] == Glyph(b[i][j])
    {
      var m := 2 * i;
      assert lines[m] == RowLayout(b[i]) by {
        if i == 0 {} else if i == 1 {} else {}
      }
      assert Layout(b)[10 * m + 4 * j] == lines[m][4 * j];
    }
  }

  /** Two boards with the same picture are the same board: nothing is lost in rendering. */
  lemma LayoutDeterminesBoard(b1: Grid, b2: Grid)
    requires Layout(b1) == Layout(b2)
    ensures b1 == b2
  {
    LayoutShape(b1);
    LayoutShape(b2);
    forall i | 0 <= i < 3
      ensures b1[i] == b2[i]
    {
      forall j | 0 <= j < 3
        ensures b1[i][j] == b2[i][j]
      {
        assert Glyph(b1[i][j]) == Layout(b1)[20 * i + 4 * j] == Glyph(b2[i][j]);
      }
    }
  }

  /** Joining a row's three cell texts with " | " gives its layout. */
  lemma JoinRow(row: seq<Cell>)
    requires |row| == 3
    ensures Join(seq(3, j requires 0 <= j < 3 => CellText(row[j])), " | ") == RowLayout(row)
  {
    var parts := seq(3, j requires 0 <= j < 3 => CellText(row[j]));
    assert parts == [CellText(row[0]), CellText(row[1]), CellText(row[2])];
    assert parts[1..] == [CellText(row[1]), CellText(row[2])];
    assert parts[1..][1..] == [CellText(row[2])];
    assert Join(parts[1..][1..], " | ") == CellText(row[2]);
    assert Join(parts[1..], " | ") == CellText(row[1]) + " | " + CellText(row[2]);
  }

  /**
   * Renders the board as `print_board` does: for each row, its cells joined
   * by " | " and then a divider, the lines joined by newlines.
   */
  method RenderBoard(b: Grid) returns (text: string)
    ensures text == Layout(b)
  {
    var display: seq<string> := [];
    for i := 0 to 3
      invariant display == DisplayLines(b)[..2 * i]
    {
      JoinRow(b[i]);
      display := display + [Join(seq(3, j requires 0 <= j < 3 => CellText(b[i][j])), " | ")];
      display := display + [Divider];
    }
    assert display == DisplayLines(b);
    text := Join(display, "\n");
  }
}
