/**
 * Concrete outputs of the model on the inputs the crate's own unit and integration tests use.
 */
module Examples {
  import opened Wrappers
  import opened Text
  import opened Cells
  import opened Layout
  import Rows
  import Grids

  /** `byte_index` on ASCII and on two- and three-byte chars ('µ' is U+00B5, '∆' is U+2206). */
  lemma ByteIndexExamples()
    ensures Rows.ByteIndex("abc", 2) == 2
    ensures Rows.ByteIndex("aµc", 2) == 3
    ensures Rows.ByteIndex("µ∆c", 2) == 5
  {
    assert "abc"[..2] == "ab" && "aµc"[..2] == "aµ" && "µ∆c"[..2] == "µ∆";
    Utf8Pair('a', 'b');
    Utf8Pair('a', 'µ');
    Utf8Pair('µ', '∆');
  }

  lemma Utf8Pair(a: char, b: char)
    ensures Utf8Length([a, b]) == Utf8Len(a) + Utf8Len(b)
  {
    assert [a, b][1..] == [b];
    assert Utf8Length([b]) == Utf8Len(b) by {
      assert [b][1..] == [];
    }
  }

  /** `pad` to three chars with '.' as the blank char. */
  lemma PadExamples()
    ensures Rows.Padded(Right, "", 3, '.') == "..."
    ensures Rows.Padded(Left, "", 3, '.') == "..."
    ensures Rows.Padded(Right, "a", 3, '.') == "..a"
    ensures Rows.Padded(Left, "a", 3, '.') == "a.."
    ensures Rows.Padded(Center, "a", 3, '.') == ".a."
    ensures Rows.Padded(Fill, "a", 3, '.') == "aaa"
    ensures Rows.Padded(Fill, "ab", 3, '.') == "aba"
    ensures Rows.Padded(Right, "∆", 3, '.') == "..∆"
    ensures Rows.Padded(Left, "∆", 3, '.') == "∆.."
    ensures Rows.Padded(Center, "∆", 3, '.') == ".∆."
    ensures Rows.Padded(Fill, "∆", 3, '.') == "∆∆∆"
  {
    assert Replicate('.', 3) == "...";
    assert Replicate('.', 2) == "..";
    assert Replicate('.', 1) == ".";
    assert Replicate('.', 0) == "";
  }

  /** `col_line` for the column `["a"]` three lines tall and three chars wide. */
  lemma ColLineOneOfThree()
    ensures Rows.CellText(Rows.Column(["a"], 3, Left, Top, '.'), 3, 0) == "a.."
    ensures Rows.CellText(Rows.Column(["a"], 3, Left, Top, '.'), 3, 1) == "..."
    ensures Rows.CellText(Rows.Column(["a"], 3, Left, Top, '.'), 3, 2) == "..."
    ensures Rows.CellText(Rows.Column(["a"], 3, Left, Middle, '.'), 3, 0) == "..."
    ensures Rows.CellText(Rows.Column(["a"], 3, Left, Middle, '.'), 3, 1) == "a.."
    ensures Rows.CellText(Rows.Column(["a"], 3, Left, Middle, '.'), 3, 2) == "..."
    ensures Rows.CellText(Rows.Column(["a"], 3, Left, Bottom, '.'), 3, 0) == "..."
    ensures Rows.CellText(Rows.Column(["a"], 3, Left, Bottom, '.'), 3, 1) == "..."
    ensures Rows.CellText(Rows.Column(["a"], 3, Left, Bottom, '.'), 3, 2) == "a.."
  {
    assert Replicate('.', 3) == "...";
    assert Replicate('.', 2) == "..";
  }

  /** `col_line` for the column `["a", "b"]` four lines tall and three chars wide. */
  lemma ColLineTwoOfFour()
    ensures Rows.CellText(Rows.Column(["a", "b"], 3, Left, Top, '.'), 4, 0) == "a.."
    ensures Rows.CellText(Rows.Column(["a", "b"], 3, Left, Top, '.'), 4, 1) == "b.."
    ensures Rows.CellText(Rows.Column(["a", "b"], 3, Left, Top, '.'), 4, 2) == "..."
    ensures Rows.CellText(Rows.Column(["a", "b"], 3, Left, Top, '.'), 4, 3) == "..."
    ensures Rows.CellText(Rows.Column(["a", "b"], 3, Left, Middle, '.'), 4, 0) == "..."
    ensures Rows.CellText(Rows.Column(["a", "b"], 3, Left, Middle, '.'), 4, 1) == "a.."
    ensures Rows.CellText(Rows.Column(["a", "b"], 3, Left, Middle, '.'), 4, 2) == "b.."
    ensures Rows.CellText(Rows.Column(["a", "b"], 3, Left, Middle, '.'), 4, 3) == "..."
    ensures Rows.CellText(Rows.Column(["a", "b"], 3, Left, Bottom, '.'), 4, 0) == "..."
    ensures Rows.CellText(Rows.Column(["a", "b"], 3, Left, Bottom, '.'), 4, 1) == "..."
    ensures Rows.CellText(Rows.Column(["a", "b"], 3, Left, Bottom, '.'), 4, 2) == "a.."
    ensures Rows.CellText(Rows.Column(["a", "b"], 3, Left, Bottom, '.'), 4, 3) == "b.."
  {
    assert Replicate('.', 3) == "...";
    assert Replicate('.', 2) == "..";
  }

  /**
   * The unit tests call `col_line` line after line on the same mutable column; Left alignment
   * extends each stored line in place when it is shown, and the later calls are unaffected.
   */
  method ColLineInPlace() returns (texts: seq<string>, lines: seq<string>)
    ensures texts == ["...", "a..", "b..", "..."]
    ensures lines == ["a..", "b.."]
  {
    lines := ["a", "b"];
    texts := [];
    ColLineTwoOfFour();
    for lineIndex := 0 to 4
      invariant lines == (if lineIndex <= 1 then ["a", "b"] else if lineIndex == 2 then ["a..", "b"] else ["a..", "b.."])
      invariant texts == ["...", "a..", "b..", "..."][..lineIndex]
    {
      var text;
      text, lines := Rows.ColLine(Left, Middle, 3, lines, 4, lineIndex, '.');
      texts := texts + [text];
    }
  }

  /** The cell `Cell::new("1", 1)` the grid tests are built from. */
  const One: Cell := Cell("1", Some(1), None, None, None)

  /** The settings the grid tests hand down: Left, Top and '.' as the blank char. */
  const TestOptions: Options := Options(None, Some(Left), Some(Top), Some('.'))

  lemma OneLine()
    ensures Rows.CellLines("1") == ["1"]
  {
    assert NewlineIndex("1") == 1 by {
      assert "1"[1..] == [];
    }
  }

  /** A row of two `One` cells, three chars per column, shows as one line. */
  lemma TwoOnes(paddingSize: Option<nat>)
    ensures Rows.Renderable(Rows.New([One, One]), TestOptions, Some(3), paddingSize)
    ensures Rows.Rendered(Rows.New([One, One]), TestOptions, Some(3), paddingSize)
         == ("1.." + Replicate(' ', paddingSize.UnwrapOr(1)) + "1..") + "\n"
  {
    var row := Rows.New([One, One]);
    var padding := paddingSize.UnwrapOr(1);
    var cols := TwoOnesColumns(paddingSize);
    Rows.RenderableWithoutFill(row, TestOptions, Some(3), paddingSize);
    var line := "1.." + Replicate(' ', padding) + "1..";
    TwoOnesLine(padding, cols);
    Rows.RenderStart(row, TestOptions, Some(3), paddingSize);
    assert Rows.RowLines(row, TestOptions, Some(3), paddingSize) == [line];
    JoinOne(line);
  }

  lemma TwoOnesColumns(paddingSize: Option<nat>) returns (cols: seq<Rows.Column>)
    ensures Rows.SpansPositive(Rows.New([One, One]), TestOptions)
    ensures cols == Rows.Columns(Rows.New([One, One]), TestOptions, Some(3), paddingSize)
    ensures Rows.PaddingOf(Rows.New([One, One]), paddingSize) == paddingSize.UnwrapOr(1)
    ensures |cols| == 2 && cols[0] == cols[1] == Rows.Column(["1"], 3, Left, Top, '.')
    ensures Rows.MaxLines(Rows.ColsLines([One, One])) == 1
  {
    var row := Rows.New([One, One]);
    cols := Rows.Columns(row, TestOptions, Some(3), paddingSize);
    OneColumn(paddingSize, 0);
    OneColumn(paddingSize, 1);
    TwoOnesHeight();
  }

  lemma TwoOnesHeight()
    ensures Rows.MaxLines(Rows.ColsLines([One, One])) == 1
  {
    OneLine();
    assert Rows.ColsLines([One, One]) == [["1"], ["1"]];
    assert Rows.MaxLines([["1"], ["1"]]) == 1;
  }

  lemma OneColumn(paddingSize: Option<nat>, j: nat)
    requires j < 2
    ensures Rows.SpansPositive(Rows.New([One, One]), TestOptions)
    ensures Rows.Columns(Rows.New([One, One]), TestOptions, Some(3), paddingSize)[j]
         == Rows.Column(["1"], 3, Left, Top, '.')
  {
    var row := Rows.New([One, One]);
    assert Rows.SpansPositive(row, TestOptions);
    Rows.ColumnAt(row, TestOptions, Some(3), paddingSize, j);
    OneLine();
    assert Rows.CellWidth(1, 3, Rows.PaddingOf(row, paddingSize)) == 3;
  }

  lemma TwoOnesLine(padding: nat, cols: seq<Rows.Column>)
    requires |cols| == 2 && cols[0] == cols[1] == Rows.Column(["1"], 3, Left, Top, '.')
    ensures Rows.Fits(cols, 1)
    ensures Rows.RenderedLines(cols, padding, 1) == ["1.." + Replicate(' ', padding) + "1.."]
  {
    var col := cols[0];
    assert Rows.CellText(col, 1, 0) == "1.." by {
      assert Replicate('.', 2) == "..";
    }
    assert Rows.LinePrefix(cols, padding, 1, 0, 1) == "1..";
  }

  /** The two-by-two grids of `Cell::new("1", 1)` with the test settings. */
  function TestGrid(paddingZero: bool): Grids.Grid {
    var b := Grids.Builder([Rows.New([One, One]), Rows.New([One, One])])
      .WithDefaultHAlign(Left).WithDefaultVAlign(Top).WithDefaultBlankChar('.').WithColumnWidth(3);
    if paddingZero then b.WithPaddingSize(0).Build() else b.Build()
  }

  /** Two rows of two cells with padding 0: the cells touch. */
  lemma GridPaddingZero()
    ensures Cells.New("1", 1) == Success(One)
    ensures Grids.Renderable(TestGrid(true)) && Grids.Rendered(TestGrid(true)) == "1..1..\n1..1..\n"
  {
    var text := "1.." + Replicate(' ', 0) + "1..";
    GridCase(true, Some(0), text);
    GridLiteral(text, 0, "1..1..\n1..1..\n");
  }

  /** Two rows of two cells with the default padding: one space between the cells. */
  lemma GridDefaultPadding()
    ensures Grids.Renderable(TestGrid(false)) && Grids.Rendered(TestGrid(false)) == "1.. 1..\n1.. 1..\n"
  {
    var text := "1.." + Replicate(' ', 1) + "1..";
    GridCase(false, None, text);
    GridLiteral(text, 1, "1.. 1..\n1.. 1..\n");
  }

  lemma GridLiteral(text: string, padding: nat, expected: string)
    requires padding <= 1 && text == "1.." + Replicate(' ', padding) + "1.."
    requires expected == if padding == 0 then "1..1..\n1..1..\n" else "1.. 1..\n1.. 1..\n"
    ensures (text + "\n") + (text + "\n") == expected
  {
    assert Replicate(' ', 0) == "" && Replicate(' ', 1) == " ";
  }

  lemma GridCase(paddingZero: bool, paddingSize: Option<nat>, text: string)
    requires paddingSize == if paddingZero then Some(0) else None
    requires text == "1.." + Replicate(' ', paddingSize.UnwrapOr(1)) + "1.."
    ensures Grids.Renderable(TestGrid(paddingZero))
    ensures Grids.Rendered(TestGrid(paddingZero)) == (text + "\n") + (text + "\n")
  {
    var row := Rows.New([One, One]);
    assert TestGrid(paddingZero) == Grids.Grid(TestOptions, Some(3), paddingSize, [row, row]);
    TwoOnes(paddingSize);
    GridOfTwoRows(TestGrid(paddingZero), row, text + "\n");
  }

  /** A grid of two rows that render alike shows that output twice. */
  lemma GridOfTwoRows(g: Grids.Grid, row: Rows.Row, line: string)
    requires g.rows == [row, row]
    requires Rows.Renderable(row, g.defaultOptions, g.columnWidth, g.paddingSize)
    requires line == Rows.Rendered(row, g.defaultOptions, g.columnWidth, g.paddingSize)
    ensures Grids.Renderable(g) && Grids.Rendered(g) == line + line
  {
    var outs := Grids.RowOutputs(g);
    assert outs[0] == line && outs[1] == line;
    ConcatTwo(outs);
  }

  lemma ConcatTwo(parts: seq<string>)
    requires |parts| == 2
    ensures Concat(parts) == parts[0] + parts[1]
  {
    var first := parts[..1];
    assert Concat(first) == parts[0] by {
      assert first[..0] == [];
    }
  }

  /** The first row of the spans test: spans 1, 6 and 1, centred, three chars per column. */
  const SpanRow: Rows.Row := Rows.New([
    Cell("1", Some(1), None, None, None),
    Cell("6", Some(6), None, None, None),
    Cell("1", Some(1), None, None, None)])

  const CenterOptions: Options := Options(None, Some(Center), Some(Top), Some('.'))

  /** A six-column cell takes six widths and the five paddings inside it. */
  lemma SpansOneSixOne()
    ensures Rows.Renderable(SpanRow, CenterOptions, Some(3), None)
    ensures Rows.Rendered(SpanRow, CenterOptions, Some(3), None) == ".1. ...........6........... .1.\n"
  {
    var cols := SpanColumns();
    SpanRenderable();
    var line := ".1. ...........6........... .1.";
    SpanLine(cols, line);
    Rows.RenderStart(SpanRow, CenterOptions, Some(3), None);
    assert Rows.RowLines(SpanRow, CenterOptions, Some(3), None) == [line];
    JoinOne(line);
    SpanLineFeed(line);
  }

  lemma SpanLineFeed(line: string)
    requires line == ".1. ...........6........... .1."
    ensures line + "\n" == ".1. ...........6........... .1.\n"
  {
  }

  lemma JoinOne(line: string)
    ensures Join([line]) == line + "\n"
  {
    assert [line][..0] == [];
  }

  lemma SpanRenderable()
    ensures Rows.Renderable(SpanRow, CenterOptions, Some(3), None)
  {
    assert Rows.SpansPositive(SpanRow, CenterOptions);
    Rows.RenderableWithoutFill(SpanRow, CenterOptions, Some(3), None);
  }

  lemma SpanColumns() returns (cols: seq<Rows.Column>)
    ensures Rows.SpansPositive(SpanRow, CenterOptions)
    ensures cols == Rows.Columns(SpanRow, CenterOptions, Some(3), None)
    ensures Rows.PaddingOf(SpanRow, None) == 1
    ensures |cols| == 3
    ensures cols[0] == cols[2] == Rows.Column(["1"], 3, Center, Top, '.')
    ensures cols[1] == Rows.Column(["6"], 23, Center, Top, '.')
    ensures Rows.MaxLines(Rows.ColsLines(SpanRow.cells)) == 1
  {
    cols := Rows.Columns(SpanRow, CenterOptions, Some(3), None);
    SpanColumn(0, "1", 1);
    SpanColumn(1, "6", 6);
    SpanColumn(2, "1", 1);
    assert Rows.CellWidth(1, 3, 1) == 3 && Rows.CellWidth(6, 3, 1) == 23;
    SpanHeight();
  }

  lemma SpanColumn(j: nat, content: string, span: nat)
    requires j < 3 && SpanRow.cells[j].content == content && SpanRow.cells[j].colSpan == Some(span)
    ensures Rows.SpansPositive(SpanRow, CenterOptions)
    ensures span >= 1
    ensures Rows.Columns(SpanRow, CenterOptions, Some(3), None)[j]
         == Rows.Column(Rows.CellLines(content), Rows.CellWidth(span, 3, 1), Center, Top, '.')
  {
    assert Rows.SpansPositive(SpanRow, CenterOptions);
    Rows.ColumnAt(SpanRow, CenterOptions, Some(3), None, j);
  }

  lemma SpanHeight()
    ensures Rows.CellLines("1") == ["1"] && Rows.CellLines("6") == ["6"]
    ensures Rows.MaxLines(Rows.ColsLines(SpanRow.cells)) == 1
  {
    OneLine();
    assert NewlineIndex("6") == 1 by {
      assert "6"[1..] == [];
    }
    assert Rows.ColsLines(SpanRow.cells) == [["1"], ["6"], ["1"]];
    assert Rows.MaxLines([["1"], ["6"], ["1"]]) == 1 by {
      assert [["1"], ["6"], ["1"]][1..] == [["6"], ["1"]];
      assert [["6"], ["1"]][1..] == [["1"]];
    }
  }

  lemma SpanLine(cols: seq<Rows.Column>, line: string)
    requires |cols| == 3
    requires cols[0] == cols[2] == Rows.Column(["1"], 3, Center, Top, '.')
    requires cols[1] == Rows.Column(["6"], 23, Center, Top, '.')
    requires line == ".1. ...........6........... .1."
    ensures Rows.Fits(cols, 1)
    ensures Rows.RenderedLines(cols, 1, 1) == [line]
  {
    var one := CenterText("1", 3);
    var six := CenterText("6", 23);
    var gap := Replicate(' ', 1);
    assert Rows.LinePrefix(cols, 1, 1, 0, 1) == one;
    assert Rows.LinePrefix(cols, 1, 1, 0, 2) == one + gap + six;
    assert Rows.LinePrefix(cols, 1, 1, 0, 3) == one + gap + six + gap + one;
    SpanLiteral(one, gap, six);
  }

  lemma SpanLiteral(one: string, gap: string, six: string)
    requires one == Replicate('.', 1) + "1" + Replicate('.', 1)
    requires six == Replicate('.', 11) + "6" + Replicate('.', 11)
    requires gap == Replicate(' ', 1)
    ensures one + gap + six + gap + one == ".1. ...........6........... .1."
  {
    assert Replicate('.', 1) == "." && Replicate('.', 11) == "..........." && gap == " ";
  }

  /** A one-char line centred in an odd width, on a row one line tall. */
  lemma CenterText(s: string, width: nat) returns (r: string)
    requires |s| == 1 && width % 2 == 1
    ensures r == Rows.CellText(Rows.Column([s], width, Center, Top, '.'), 1, 0)
    ensures r == Replicate('.', width / 2) + s + Replicate('.', width / 2)
  {
    r := Rows.CellText(Rows.Column([s], width, Center, Top, '.'), 1, 0);
  }
}
