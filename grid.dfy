/**
 * Grids: a sequence of rows rendered one after another, each row inheriting the grid's
 * default options, column width and padding.
 */
module Grids {
  import opened Wrappers
  import opened Text
  import opened Cells
  import opened Layout
  import Rows

  /** A grid: its rows and the settings it hands down to them. */
  datatype Grid = Grid(
    defaultOptions: Options,
    columnWidth: Option<nat>,
    paddingSize: Option<nat>,
    rows: seq<Rows.Row>)

  /** The message `default_colspan(0)` fails with. */
  const ZeroDefaultSpanMessage: string := "Column span cannot be 0!"

  /** `Grid::new`: the given rows with nothing else set. */
  function New(rows: seq<Rows.Row>): (g: Grid)
    ensures g.rows == rows
    ensures g.defaultOptions == Unset && g.columnWidth.None? && g.paddingSize.None?
  {
    Grid(Options(None, None, None, None), None, None, rows)
  }

  /** `Grid::builder`: a builder around `Grid::new`. */
  function Builder(rows: seq<Rows.Row>): (b: GridBuilder)
    ensures b.Build() == New(rows)
  {
    GridBuilder(New(rows))
  }

  /**
   * `GridBuilder`: each setter takes the builder by value and returns it with exactly one
   * field of the inner grid replaced; only the default span is checked.
   */
  datatype GridBuilder = GridBuilder(inner: Grid) {

    /** `build`: the grid assembled so far. */
    function Build(): Grid {
      inner
    }

    /** `default_colspan`: fails on 0, otherwise sets the default span and nothing else. */
    function WithDefaultColSpan(colSpan: nat): (r: Result<GridBuilder>)
      ensures r.Failure? <==> colSpan == 0
      ensures r.Failure? ==> r.message == ZeroDefaultSpanMessage
      ensures r.Success? ==>
        && r.value.inner.defaultOptions.colSpan == Some(colSpan)
        && r.value.inner.defaultOptions.(colSpan := inner.defaultOptions.colSpan) == inner.defaultOptions
        && r.value.inner.(defaultOptions := inner.defaultOptions) == inner
    {
      if colSpan == 0 then Failure(ZeroDefaultSpanMessage)
      else Success(GridBuilder(inner.(defaultOptions := inner.defaultOptions.(colSpan := Some(colSpan)))))
    }

    function WithDefaultHAlign(hAlign: HAlign): (b: GridBuilder)
      ensures b.inner.defaultOptions.hAlign == Some(hAlign)
      ensures b.inner.defaultOptions.(hAlign := inner.defaultOptions.hAlign) == inner.defaultOptions
      ensures b.inner.(defaultOptions := inner.defaultOptions) == inner
    {
      GridBuilder(inner.(defaultOptions := inner.defaultOptions.(hAlign := Some(hAlign))))
    }

    function WithDefaultVAlign(vAlign: VAlign): (b: GridBuilder)
      ensures b.inner.defaultOptions.vAlign == Some(vAlign)
      ensures b.inner.defaultOptions.(vAlign := inner.defaultOptions.vAlign) == inner.defaultOptions
      ensures b.inner.(defaultOptions := inner.defaultOptions) == inner
    {
      GridBuilder(inner.(defaultOptions := inner.defaultOptions.(vAlign := Some(vAlign))))
    }

    function WithDefaultBlankChar(blankChar: char): (b: GridBuilder)
      ensures b.inner.defaultOptions.blankChar == Some(blankChar)
      ensures b.inner.defaultOptions.(blankChar := inner.defaultOptions.blankChar) == inner.defaultOptions
      ensures b.inner.(defaultOptions := inner.defaultOptions) == inner
    {
      GridBuilder(inner.(defaultOptions := inner.defaultOptions.(blankChar := Some(blankChar))))
    }

    function WithColumnWidth(columnWidth: nat): (b: GridBuilder)
      ensures b.inner.columnWidth == Some(columnWidth)
      ensures b.inner.(columnWidth := inner.columnWidth) == inner
    {
      GridBuilder(inner.(columnWidth := Some(columnWidth)))
    }

    function WithPaddingSize(paddingSize: nat): (b: GridBuilder)
      ensures b.inner.paddingSize == Some(paddingSize)
      ensures b.inner.(paddingSize := inner.paddingSize) == inner
    {
      GridBuilder(inner.(paddingSize := Some(paddingSize)))
    }
  }

  // ---------------------------------------------------------------------------------------
  // Rendering

  /** Every row renders without panicking under the grid's settings. */
  predicate Renderable(g: Grid) {
    forall i :: 0 <= i < |g.rows| ==> Rows.Renderable(g.rows[i], g.defaultOptions, g.columnWidth, g.paddingSize)
  }

  /** What row `i` writes when the grid renders it. */
  function RowOutput(g: Grid, i: nat): string
    requires Renderable(g) && i < |g.rows|
  {
    Rows.Rendered(g.rows[i], g.defaultOptions, g.columnWidth, g.paddingSize)
  }

  /** What each row writes, in order. */
  function RowOutputs(g: Grid): (outs: seq<string>)
    requires Renderable(g)
    ensures |outs| == |g.rows|
  {
    seq(|g.rows|, i requires 0 <= i < |g.rows| => RowOutput(g, i))
  }

  /** The text `Grid::render` (and so `Display for Grid`) writes: the rows' output in order. */
  function Rendered(g: Grid): string
    requires Renderable(g)
  {
    Concat(RowOutputs(g))
  }

  /** `Grid::render`: renders every row in order into the same output. */
  method Render(g: Grid) returns (out: string)
    requires Renderable(g)
    ensures out == Rendered(g)
  {
    out := [];
    ghost var outs := RowOutputs(g);
    for i := 0 to |g.rows|
      invariant out == Concat(outs[..i])
    {
      var rowOut := Rows.Render(g.rows[i], g.defaultOptions, g.columnWidth, g.paddingSize);
      assert rowOut == outs[i];
      ConcatPrefix(outs, i);
      out := out + rowOut;
    }
    assert outs[..|g.rows|] == outs;
  }

  // ---------------------------------------------------------------------------------------
  // Lines of a rendered grid

  /** Each row's output lines, without terminators. */
  function RowLinesOf(g: Grid): (groups: seq<seq<string>>)
    requires Renderable(g)
    ensures |groups| == |g.rows|
  {
    seq(|g.rows|, i requires 0 <= i < |g.rows| =>
      Rows.RowLines(g.rows[i], g.defaultOptions, g.columnWidth, g.paddingSize))
  }

  /** All the output lines of the grid. */
  function GridLines(g: Grid): seq<string>
    requires Renderable(g)
  {
    Flatten(RowLinesOf(g))
  }

  /** How many lines each row of `g` renders to. */
  function LineCounts(g: Grid): (counts: seq<nat>)
    ensures |counts| == |g.rows|
  {
    seq(|g.rows|, i requires 0 <= i < |g.rows| => Rows.MaxLines(Rows.ColsLines(g.rows[i].cells)))
  }

  /**
   * The grid's output is its rows' lines in order, each ended by a line feed and with no
   * separator between rows; there are as many lines as the rows' line counts added up, and a
   * grid without rows renders nothing.
   */
  lemma TotalLines(g: Grid)
    requires Renderable(g)
    ensures Rendered(g) == Join(GridLines(g))
    ensures |GridLines(g)| == Sum(LineCounts(g))
    ensures g.rows == [] ==> Rendered(g) == []
  {
    var outs, groups, counts := RowOutputs(g), RowLinesOf(g), LineCounts(g);
    forall i | 0 <= i < |g.rows|
      ensures outs[i] == Join(groups[i]) && |groups[i]| == counts[i]
    {
      Rows.RowShape(g.rows[i], g.defaultOptions, g.columnWidth, g.paddingSize);
    }
    ConcatOfJoins(outs, groups);
    FlattenLength(groups, counts);
  }

  /**
   * When no output line contains a line feed or ends in a carriage return, splitting the
   * grid's output into lines gives back exactly its lines: the rendered grid can be the
   * content of a cell of another grid without its lines being merged or split.
   */
  lemma Nesting(g: Grid)
    requires Renderable(g)
    requires forall i :: 0 <= i < |GridLines(g)| ==> Clean(GridLines(g)[i])
    ensures Lines(Rendered(g)) == GridLines(g)
    ensures |Lines(Rendered(g))| == Sum(LineCounts(g))
  {
    TotalLines(g);
    LinesOfJoin(GridLines(g));
  }

  // ---------------------------------------------------------------------------------------
  // What the grid's settings decide

  /** A width or padding the grid sets wins over the row's own; otherwise the row's applies. */
  lemma GridSizesWin(g: Grid, row: Rows.Row)
    ensures g.columnWidth.Some? ==> Rows.ColumnWidthOf(row, g.columnWidth) == g.columnWidth.value
    ensures g.columnWidth.None? ==> Rows.ColumnWidthOf(row, g.columnWidth) == row.columnWidth.UnwrapOr(1)
    ensures g.paddingSize.Some? ==> Rows.PaddingOf(row, g.paddingSize) == g.paddingSize.value
    ensures g.paddingSize.None? ==> Rows.PaddingOf(row, g.paddingSize) == row.paddingSize.UnwrapOr(1)
  {
    Rows.EffectiveSizes(row, g.columnWidth, g.paddingSize);
    if g.columnWidth.Some? {
      Rows.FirstPresentAt([g.columnWidth, row.columnWidth], 1, 0);
    }
    if g.paddingSize.Some? {
      Rows.FirstPresentAt([g.paddingSize, row.paddingSize], 1, 0);
    }
  }

  /**
   * The grid's default alignment only fills a gap: it applies exactly when neither the cell
   * nor its row sets one, and a cell's or row's own setting is never overridden.
   */
  lemma GridOptionsFillGaps(g: Grid, row: Rows.Row, cell: Cell)
    ensures cell.hAlign.Some? ==> Rows.HAlignOf(cell, row.defaultOptions, g.defaultOptions) == cell.hAlign.value
    ensures cell.hAlign.None? && row.defaultOptions.hAlign.Some? ==>
      Rows.HAlignOf(cell, row.defaultOptions, g.defaultOptions) == row.defaultOptions.hAlign.value
    ensures cell.hAlign.None? && row.defaultOptions.hAlign.None? ==>
      Rows.HAlignOf(cell, row.defaultOptions, g.defaultOptions) == g.defaultOptions.hAlign.UnwrapOr(DefaultHAlign)
    ensures cell.vAlign.Some? ==> Rows.VAlignOf(cell, row.defaultOptions, g.defaultOptions) == cell.vAlign.value
    ensures cell.vAlign.None? && row.defaultOptions.vAlign.Some? ==>
      Rows.VAlignOf(cell, row.defaultOptions, g.defaultOptions) == row.defaultOptions.vAlign.value
    ensures cell.vAlign.None? && row.defaultOptions.vAlign.None? ==>
      Rows.VAlignOf(cell, row.defaultOptions, g.defaultOptions) == g.defaultOptions.vAlign.UnwrapOr(DefaultVAlign)
    ensures cell.blankChar.Some? ==> Rows.BlankCharOf(cell, row.defaultOptions, g.defaultOptions) == cell.blankChar.value
    ensures cell.blankChar.None? && row.defaultOptions.blankChar.Some? ==>
      Rows.BlankCharOf(cell, row.defaultOptions, g.defaultOptions) == row.defaultOptions.blankChar.value
    ensures cell.blankChar.None? && row.defaultOptions.blankChar.None? ==>
      Rows.BlankCharOf(cell, row.defaultOptions, g.defaultOptions) == g.defaultOptions.blankChar.UnwrapOr(DefaultBlankChar)
    ensures cell.colSpan.Some? ==> Rows.ColSpanOf(cell, row.defaultOptions, g.defaultOptions) == cell.colSpan.value
    ensures cell.colSpan.None? && row.defaultOptions.colSpan.Some? ==>
      Rows.ColSpanOf(cell, row.defaultOptions, g.defaultOptions) == row.defaultOptions.colSpan.value
    ensures cell.colSpan.None? && row.defaultOptions.colSpan.None? ==>
      Rows.ColSpanOf(cell, row.defaultOptions, g.defaultOptions) == g.defaultOptions.colSpan.UnwrapOr(DefaultColSpan)
  {
  }
}
