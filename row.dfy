/**
 * Rows and the row renderer: how the cells of one row become full-width text lines.
 *
 * The specification of a render is `Rendered`, built from `Columns` (each cell's effective
 * layout), `Slot` (which stored line, if any, an output line shows) and `Padded` (how one
 * line is cut or padded to the cell's width). `Render` is the renderer as the Rust code runs it,
 * with its mutable per-cell line lists, and is proved to produce `Rendered`.
 */
module Rows {
  import opened Wrappers
  import opened Text
  import opened Cells
  import opened Layout

  /** A row: its cells, the fallbacks it hands them, and its own column width and padding. */
  datatype Row = Row(
    defaultOptions: Options,
    columnWidth: Option<nat>,
    paddingSize: Option<nat>,
    cells: seq<Cell>)

  /** `Row::new`: the given cells with nothing else set. */
  function New(cells: seq<Cell>): (r: Row)
    ensures r.cells == cells
    ensures r.defaultOptions == Unset && r.columnWidth.None? && r.paddingSize.None?
  {
    Row(Options(None, None, None, None), None, None, cells)
  }

  /** `Row::new_empty`: a row of one empty cell; fails on a zero span. */
  function NewEmpty(colSpan: nat): (r: Result<Row>)
    ensures r.Failure? <==> colSpan == 0
    ensures r.Success? ==> r.value == New([Cell([], Some(colSpan), None, None, None)])
  {
    match Cells.NewEmpty(colSpan)
    case Success(cell) => Success(New([cell]))
    case Failure(message) => Failure(message)
  }

  /** `Row::new_fill`: a row of one cell that repeats its content; fails on a zero span. */
  function NewFill(content: string, colSpan: nat): (r: Result<Row>)
    ensures r.Failure? <==> colSpan == 0
    ensures r.Success? ==> r.value == New([Cell(content, Some(colSpan), Some(Fill), None, None)])
  {
    match Cells.NewFill(content, colSpan)
    case Success(cell) => Success(New([cell]))
    case Failure(message) => Failure(message)
  }

  /** `Row::builder`: a builder around `Row::new`. */
  function Builder(cells: seq<Cell>): (b: RowBuilder)
    ensures b.Build() == New(cells)
  {
    RowBuilder(New(cells))
  }

  /**
   * `RowBuilder`: each setter takes the builder by value and returns it with exactly one
   * field of the inner row replaced. None of them checks its argument, so a zero default
   * span can be stored here (the renderer's precondition then excludes it).
   */
  datatype RowBuilder = RowBuilder(inner: Row) {

    /** `build`: the row assembled so far. */
    function Build(): Row {
      inner
    }

    function WithDefaultColSpan(colSpan: nat): (b: RowBuilder)
      ensures b.inner.defaultOptions.colSpan == Some(colSpan)
      ensures b.inner.defaultOptions.(colSpan := inner.defaultOptions.colSpan) == inner.defaultOptions
      ensures b.inner.(defaultOptions := inner.defaultOptions) == inner
    {
      RowBuilder(inner.(defaultOptions := inner.defaultOptions.(colSpan := Some(colSpan))))
    }

    function WithDefaultHAlign(hAlign: HAlign): (b: RowBuilder)
      ensures b.inner.defaultOptions.hAlign == Some(hAlign)
      ensures b.inner.defaultOptions.(hAlign := inner.defaultOptions.hAlign) == inner.defaultOptions
      ensures b.inner.(defaultOptions := inner.defaultOptions) == inner
    {
      RowBuilder(inner.(defaultOptions := inner.defaultOptions.(hAlign := Some(hAlign))))
    }

    function WithDefaultVAlign(vAlign: VAlign): (b: RowBuilder)
      ensures b.inner.defaultOptions.vAlign == Some(vAlign)
      ensures b.inner.defaultOptions.(vAlign := inner.defaultOptions.vAlign) == inner.defaultOptions
      ensures b.inner.(defaultOptions := inner.defaultOptions) == inner
    {
      RowBuilder(inner.(defaultOptions := inner.defaultOptions.(vAlign := Some(vAlign))))
    }

    function WithDefaultBlankChar(blankChar: char): (b: RowBuilder)
      ensures b.inner.defaultOptions.blankChar == Some(blankChar)
      ensures b.inner.defaultOptions.(blankChar := inner.defaultOptions.blankChar) == inner.defaultOptions
      ensures b.inner.(defaultOptions := inner.defaultOptions) == inner
    {
      RowBuilder(inner.(defaultOptions := inner.defaultOptions.(blankChar := Some(blankChar))))
    }

    function WithColumnWidth(columnWidth: nat): (b: RowBuilder)
      ensures b.inner.columnWidth == Some(columnWidth)
      ensures b.inner.(columnWidth := inner.columnWidth) == inner
    {
      RowBuilder(inner.(columnWidth := Some(columnWidth)))
    }

    function WithPaddingSize(paddingSize: nat): (b: RowBuilder)
      ensures b.inner.paddingSize == Some(paddingSize)
      ensures b.inner.(paddingSize := inner.paddingSize) == inner
    {
      RowBuilder(inner.(paddingSize := Some(paddingSize)))
    }

    function WithCells(cells: seq<Cell>): (b: RowBuilder)
      ensures b.inner.cells == cells
      ensures b.inner.(cells := inner.cells) == inner
    {
      RowBuilder(inner.(cells := cells))
    }
  }

  // ---------------------------------------------------------------------------------------
  // Effective settings

  /** The first value present along an ordered chain of optional settings, else `fallback`. */
  function FirstPresent<T>(chain: seq<Option<T>>, fallback: T): T {
    if chain == [] then fallback
    else if chain[0].Some? then chain[0].value
    else FirstPresent(chain[1..], fallback)
  }

  /** The chain yields the value of its first present link, whatever follows it. */
  lemma {:induction false} FirstPresentAt<T>(chain: seq<Option<T>>, fallback: T, k: nat)
    requires k < |chain| && chain[k].Some?
    requires forall i :: 0 <= i < k ==> chain[i].None?
    ensures FirstPresent(chain, fallback) == chain[k].value
  {
    if k > 0 {
      FirstPresentAt(chain[1..], fallback, k - 1);
    }
  }

  /** A chain with no present link yields the fallback. */
  lemma {:induction false} FirstPresentAbsent<T>(chain: seq<Option<T>>, fallback: T)
    requires forall i :: 0 <= i < |chain| ==> chain[i].None?
    ensures FirstPresent(chain, fallback) == fallback
  {
    if chain != [] {
      FirstPresentAbsent(chain[1..], fallback);
    }
  }

  lemma FirstPresentOfTwo<T>(a: Option<T>, b: Option<T>, fallback: T)
    ensures FirstPresent([a, b], fallback) == a.Or(b).UnwrapOr(fallback)
  {
    assert [a, b][1..] == [b];
    assert FirstPresent([b], fallback) == b.UnwrapOr(fallback) by {
      assert [b][1..] == [];
    }
  }

  lemma FirstPresentOfThree<T>(a: Option<T>, b: Option<T>, c: Option<T>, fallback: T)
    ensures FirstPresent([a, b, c], fallback) == a.Or(b).Or(c).UnwrapOr(fallback)
  {
    assert [a, b, c][1..] == [b, c];
    FirstPresentOfTwo(b, c, fallback);
  }

  /** Column width: the value passed down wins over the row's own, then 1. */
  function ColumnWidthOf(row: Row, columnWidth: Option<nat>): (w: nat)
    ensures columnWidth.Some? ==> w == columnWidth.value
    ensures columnWidth.None? ==> w == row.columnWidth.UnwrapOr(1)
  {
    columnWidth.Or(row.columnWidth).UnwrapOr(1)
  }

  /** Padding size: the value passed down wins over the row's own, then 1. */
  function PaddingOf(row: Row, paddingSize: Option<nat>): (p: nat)
    ensures paddingSize.Some? ==> p == paddingSize.value
    ensures paddingSize.None? ==> p == row.paddingSize.UnwrapOr(1)
  {
    paddingSize.Or(row.paddingSize).UnwrapOr(1)
  }

  /** Column span: the cell's, then the row's default, then the inherited default, then 1. */
  function ColSpanOf(cell: Cell, rowOptions: Options, options: Options): (r: nat)
    ensures cell.colSpan.Some? ==> r == cell.colSpan.value
    ensures cell.colSpan.None? && rowOptions.colSpan.Some? ==> r == rowOptions.colSpan.value
    ensures cell.colSpan.None? && rowOptions.colSpan.None? ==> r == options.colSpan.UnwrapOr(1)
  {
    cell.colSpan.Or(rowOptions.colSpan).Or(options.colSpan).UnwrapOr(1)
  }

  function HAlignOf(cell: Cell, rowOptions: Options, options: Options): (r: HAlign)
    ensures cell.hAlign.Some? ==> r == cell.hAlign.value
    ensures cell.hAlign.None? && rowOptions.hAlign.Some? ==> r == rowOptions.hAlign.value
    ensures cell.hAlign.None? && rowOptions.hAlign.None? ==> r == options.hAlign.UnwrapOr(DefaultHAlign)
  {
    cell.hAlign.Or(rowOptions.hAlign).Or(options.hAlign).UnwrapOr(DefaultHAlign)
  }

  function VAlignOf(cell: Cell, rowOptions: Options, options: Options): (r: VAlign)
    ensures cell.vAlign.Some? ==> r == cell.vAlign.value
    ensures cell.vAlign.None? && rowOptions.vAlign.Some? ==> r == rowOptions.vAlign.value
    ensures cell.vAlign.None? && rowOptions.vAlign.None? ==> r == options.vAlign.UnwrapOr(DefaultVAlign)
  {
    cell.vAlign.Or(rowOptions.vAlign).Or(options.vAlign).UnwrapOr(DefaultVAlign)
  }

  function BlankCharOf(cell: Cell, rowOptions: Options, options: Options): (r: char)
    ensures cell.blankChar.Some? ==> r == cell.blankChar.value
    ensures cell.blankChar.None? && rowOptions.blankChar.Some? ==> r == rowOptions.blankChar.value
    ensures cell.blankChar.None? && rowOptions.blankChar.None? ==> r == options.blankChar.UnwrapOr(DefaultBlankChar)
  {
    cell.blankChar.Or(rowOptions.blankChar).Or(options.blankChar).UnwrapOr(DefaultBlankChar)
  }

  /** Width and padding are the first present of the value passed down, the row's own, and 1. */
  lemma EffectiveSizes(row: Row, columnWidth: Option<nat>, paddingSize: Option<nat>)
    ensures ColumnWidthOf(row, columnWidth) == FirstPresent([columnWidth, row.columnWidth], 1)
    ensures PaddingOf(row, paddingSize) == FirstPresent([paddingSize, row.paddingSize], 1)
  {
    FirstPresentOfTwo(columnWidth, row.columnWidth, 1);
    FirstPresentOfTwo(paddingSize, row.paddingSize, 1);
  }

  /**
   * Each per-cell setting is the first present of the cell's own, the row's default, the
   * inherited default, and the hard default.
   */
  lemma EffectiveOptions(cell: Cell, rowOptions: Options, options: Options)
    ensures ColSpanOf(cell, rowOptions, options)
         == FirstPresent([cell.colSpan, rowOptions.colSpan, options.colSpan], DefaultColSpan)
    ensures HAlignOf(cell, rowOptions, options)
         == FirstPresent([cell.hAlign, rowOptions.hAlign, options.hAlign], DefaultHAlign)
    ensures VAlignOf(cell, rowOptions, options)
         == FirstPresent([cell.vAlign, rowOptions.vAlign, options.vAlign], DefaultVAlign)
    ensures BlankCharOf(cell, rowOptions, options)
         == FirstPresent([cell.blankChar, rowOptions.blankChar, options.blankChar], DefaultBlankChar)
  {
    FirstPresentOfThree(cell.colSpan, rowOptions.colSpan, options.colSpan, DefaultColSpan);
    FirstPresentOfThree(cell.hAlign, rowOptions.hAlign, options.hAlign, DefaultHAlign);
    FirstPresentOfThree(cell.vAlign, rowOptions.vAlign, options.vAlign, DefaultVAlign);
    FirstPresentOfThree(cell.blankChar, rowOptions.blankChar, options.blankChar, DefaultBlankChar);
  }

  /** Width of a cell spanning `span` columns: the columns plus the paddings between them. */
  function CellWidth(span: nat, columnWidth: nat, padding: nat): (w: nat)
    requires span >= 1
    ensures w >= span * columnWidth
    ensures w + padding == span * (columnWidth + padding)
  {
    assert padding * (span - 1) + padding == padding * span;
    span * columnWidth + padding * (span - 1)
  }

  /** Spans add up with one padding between them, so spanned cells line up with unspanned ones. */
  lemma SpanAbsorbsPadding(a: nat, b: nat, columnWidth: nat, padding: nat)
    requires a >= 1 && b >= 1
    ensures CellWidth(a + b, columnWidth, padding)
         == CellWidth(a, columnWidth, padding) + padding + CellWidth(b, columnWidth, padding)
  {
    assert (a + b) * columnWidth == a * columnWidth + b * columnWidth;
    assert padding * (a + b - 1) == padding * (a - 1) + padding + padding * (b - 1);
  }

  // ---------------------------------------------------------------------------------------
  // Lines of a cell

  /** A cell's stored lines: `str::lines` of its content, or one empty line for no content. */
  function CellLines(content: string): (lines: seq<string>)
    ensures |lines| >= 1
    ensures content == [] ==> lines == [[]]
    ensures content != [] ==> lines == Lines(content)
  {
    var lines := Lines(content);
    if lines == [] then [[]] else lines
  }

  function ColsLines(cells: seq<Cell>): seq<seq<string>> {
    seq(|cells|, j requires 0 <= j < |cells| => CellLines(cells[j].content))
  }

  /** The largest line count, or 0 when there are no cells. */
  function MaxLines(colsLines: seq<seq<string>>): (m: nat)
    ensures forall c :: 0 <= c < |colsLines| ==> |colsLines[c]| <= m
    ensures colsLines == [] ==> m == 0
    ensures colsLines != [] ==> exists c :: 0 <= c < |colsLines| && |colsLines[c]| == m
  {
    if colsLines == [] then 0
    else
      var rest := MaxLines(colsLines[1..]);
      assert forall c :: 1 <= c < |colsLines| ==> colsLines[c] == colsLines[1..][c - 1];
      if |colsLines[0]| >= rest then |colsLines[0]| else rest
  }

  // ---------------------------------------------------------------------------------------
  // Cutting and padding one line

  function Min(a: nat, b: nat): nat {
    if a <= b then a else b
  }

  /**
   * `byte_index`: the byte offset just past the first `charIndex` chars of `s`, that is the
   * UTF-8 length of those chars (of all of `s` if it is shorter); 0 for no chars.
   */
  function ByteIndex(s: string, charIndex: nat): (b: nat)
    ensures b == Utf8Length(s[..Min(charIndex, |s|)])
    ensures charIndex == 0 ==> b == 0
  {
    var taken := CharIndices(s)[..Min(charIndex, |s|)];
    if taken == [] then 0
    else
      Utf8LengthSnoc(s, |taken|);
      taken[|taken| - 1].0 + Utf8Len(taken[|taken| - 1].1)
  }

  /** Fill divides by the line's length whenever the line is shorter than the width. */
  predicate FillSafeLine(hAlign: HAlign, s: string, width: nat) {
    hAlign == Fill && |s| < width ==> |s| > 0
  }

  /**
   * What one stored line shows as in a cell `width` chars wide: its first `width` chars when
   * it is at least that long; otherwise `width - |s|` blanks after it (Left), before it
   * (Right), split around it with any odd blank on the right (Center), or the line repeated
   * so that char `i` is char `i mod |s|` of the line (Fill).
   */
  function Padded(hAlign: HAlign, s: string, width: nat, blank: char): (r: string)
    requires FillSafeLine(hAlign, s, width)
    ensures |r| == width
  {
    if |s| >= width then s[..width]
    else
      var blanks := width - |s|;
      match hAlign
      case Left => s + Replicate(blank, blanks)
      case Right => Replicate(blank, blanks) + s
      case Center => Replicate(blank, blanks / 2) + s + Replicate(blank, blanks - blanks / 2)
      case Fill => seq(width, i requires 0 <= i < width => s[i % |s|])
  }

  /** `width / len + 1` copies of a `len`-char line are more than `width` chars. */
  lemma RepeatCoversWidth(width: nat, len: nat)
    requires len > 0
    ensures len * (width / len + 1) > width
  {
    assert width == len * (width / len) + width % len;
    assert len * (width / len + 1) == len * (width / len) + len;
  }

  /**
   * `pad`: returns the shown text and the new value of the stored line, which Left alignment
   * extends in place by the blanks it appends.
   */
  method Pad(hAlign: HAlign, s: string, width: nat, blank: char) returns (text: string, stored: string)
    requires FillSafeLine(hAlign, s, width)
    ensures text == Padded(hAlign, s, width, blank)
    ensures stored == if hAlign == Left && |s| < width then text else s
  {
    stored := s;
    var charsLen := |s|;
    if charsLen >= width {
      var bytesIndex := ByteIndex(s, width);
      text := ByteSlice(s, bytesIndex);
      TruncatedIsPadded(hAlign, s, width, blank);
      return;
    }
    var blanks := width - charsLen;
    match hAlign {
      case Left =>
        stored := stored + Replicate(blank, blanks);
        text := stored;
      case Right =>
        var newStr := Replicate(blank, blanks);
        newStr := newStr + s;
        text := newStr;
      case Center =>
        var leftBlanks := blanks / 2;
        var rightBlanks := blanks - leftBlanks;
        var newStr := Replicate(blank, leftBlanks);
        newStr := newStr + s;
        newStr := newStr + Replicate(blank, rightBlanks);
        text := newStr;
      case Fill =>
        var repeats := width / charsLen + 1;
        var repeated := Repeat(s, repeats);
        var bytesIndex := ByteIndex(repeated, width);
        text := ByteSlice(repeated, bytesIndex);
        FilledIsPadded(s, width, blank);
    }
  }

  /** A line at least as wide as the cell shows as its slice at `byte_index(s, width)`. */
  lemma TruncatedIsPadded(hAlign: HAlign, s: string, width: nat, blank: char)
    requires |s| >= width
    ensures ByteSlice(s, ByteIndex(s, width)) == Padded(hAlign, s, width, blank)
  {
    SliceAtCharIndex(s, width);
  }

  /** Fill shows the slice of the repeated line at `byte_index(repeated, width)`. */
  lemma FilledIsPadded(s: string, width: nat, blank: char)
    requires 0 < |s| < width
    ensures
      var repeated := Repeat(s, width / |s| + 1);
      ByteSlice(repeated, ByteIndex(repeated, width)) == Padded(Fill, s, width, blank)
  {
    FillSlice(s, width);
  }

  /** Slicing at `byte_index(s, k)` keeps exactly the first `k` chars of a long enough line. */
  lemma SliceAtCharIndex(s: string, k: nat)
    requires k <= |s|
    ensures ByteSlice(s, ByteIndex(s, k)) == s[..k]
  {
    ByteSliceAtBoundary(s, k);
  }

  /** The first `width` chars of `width / |s| + 1` copies of `s` cycle through `s`. */
  lemma FillSlice(s: string, width: nat)
    requires 0 < |s| < width
    ensures
      var repeated := Repeat(s, width / |s| + 1);
      ByteSlice(repeated, ByteIndex(repeated, width)) == seq(width, i requires 0 <= i < width => s[i % |s|])
  {
    var repeats := width / |s| + 1;
    var repeated := Repeat(s, repeats);
    RepeatCoversWidth(width, |s|);
    SliceAtCharIndex(repeated, width);
    forall i | 0 <= i < width
      ensures repeated[i] == s[i % |s|]
    {
      RepeatAt(s, repeats, i);
    }
  }

  // ---------------------------------------------------------------------------------------
  // Placing a cell's lines within the row

  /** The first output line a cell's `count` lines occupy among `maxLines`. */
  function FirstLine(vAlign: VAlign, count: nat, maxLines: nat): (start: nat)
    requires count <= maxLines
    ensures start + count <= maxLines
  {
    match vAlign
    case Top => 0
    case Bottom => maxLines - count
    case Middle => (maxLines - count) / 2
  }

  /**
   * The selection in `col_line`: which of a cell's `count` stored lines output line
   * `lineIndex` shows, or `None` when it shows a blank line.
   */
  function Slot(vAlign: VAlign, count: nat, maxLines: nat, lineIndex: nat): (r: Option<nat>)
    requires 1 <= count <= maxLines
    ensures r.Some? <==> FirstLine(vAlign, count, maxLines) <= lineIndex < FirstLine(vAlign, count, maxLines) + count
    ensures r.Some? ==> r.value < count && FirstLine(vAlign, count, maxLines) + r.value == lineIndex
  {
    match vAlign
    case Top =>
      var start, end := 0, count - 1;
      if start <= lineIndex <= end then Some(lineIndex) else None
    case Bottom =>
      var start, end := maxLines - count, maxLines - 1;
      if start <= lineIndex <= end then Some(lineIndex - start) else None
    case Middle =>
      var start := (maxLines - count) / 2;
      var end := start + count - 1;
      if start <= lineIndex <= end then Some(lineIndex - start) else None
  }

  /** Top, Bottom and Middle placement written out. */
  lemma SlotPlacement(count: nat, maxLines: nat, lineIndex: nat)
    requires 1 <= count <= maxLines
    ensures Slot(Top, count, maxLines, lineIndex)
         == if lineIndex < count then Some(lineIndex) else None
    ensures Slot(Bottom, count, maxLines, lineIndex)
         == if maxLines - count <= lineIndex < maxLines then Some(lineIndex - (maxLines - count)) else None
    ensures Slot(Middle, count, maxLines, lineIndex)
         == var start := (maxLines - count) / 2;
            if start <= lineIndex < start + count then Some(lineIndex - start) else None
  {
  }

  /** Middle leaves as many blank lines below as above, or one more. */
  lemma MiddleBalanced(count: nat, maxLines: nat)
    requires count <= maxLines
    ensures var above := FirstLine(Middle, count, maxLines);
            var below := maxLines - count - above;
            above <= below <= above + 1
  {
  }

  /**
   * Every stored line is shown on exactly one output line. This is why extending a stored
   * line in place during the render never changes what is shown later.
   */
  lemma EveryLineShownOnce(vAlign: VAlign, count: nat, maxLines: nat, i: nat)
    requires 1 <= count <= maxLines && i < count
    ensures FirstLine(vAlign, count, maxLines) + i < maxLines
    ensures Slot(vAlign, count, maxLines, FirstLine(vAlign, count, maxLines) + i) == Some(i)
    ensures forall lineIndex :: (Slot(vAlign, count, maxLines, lineIndex) == Some(i)
      ==> lineIndex == FirstLine(vAlign, count, maxLines) + i)
  {
  }

  // ---------------------------------------------------------------------------------------
  // The rendered row, as a specification

  /** The effective layout of one cell: its stored lines, width, alignments and blank char. */
  datatype Column = Column(lines: seq<string>, width: nat, hAlign: HAlign, vAlign: VAlign, blank: char)

  predicate FillSafe(col: Column) {
    forall i :: 0 <= i < |col.lines| ==> FillSafeLine(col.hAlign, col.lines[i], col.width)
  }

  function ColumnStart(col: Column, maxLines: nat): nat
    requires |col.lines| <= maxLines
  {
    FirstLine(col.vAlign, |col.lines|, maxLines)
  }

  /** The line a column shows at `lineIndex` can be padded without dividing by zero. */
  predicate SlotSafe(col: Column, maxLines: nat, lineIndex: nat) {
    && 1 <= |col.lines| <= maxLines
    && var k := Slot(col.vAlign, |col.lines|, maxLines, lineIndex);
       k.Some? ==> FillSafeLine(col.hAlign, col.lines[k.value], col.width)
  }

  /** What a column shows at `lineIndex`: its selected line padded, or a blank line. */
  function CellText(col: Column, maxLines: nat, lineIndex: nat): (r: string)
    requires SlotSafe(col, maxLines, lineIndex)
    ensures |r| == col.width
  {
    match Slot(col.vAlign, |col.lines|, maxLines, lineIndex)
    case Some(i) => Padded(col.hAlign, col.lines[i], col.width, col.blank)
    case None => Replicate(col.blank, col.width)
  }

  predicate Fits(cols: seq<Column>, maxLines: nat) {
    forall j :: 0 <= j < |cols| ==> 1 <= |cols[j].lines| <= maxLines && FillSafe(cols[j])
  }

  /** The first `k` cells of output line `lineIndex`, each after `padding` spaces but the first. */
  function LinePrefix(cols: seq<Column>, padding: nat, maxLines: nat, lineIndex: nat, k: nat): string
    requires k <= |cols| && Fits(cols, maxLines)
  {
    if k == 0 then []
    else
      assert SlotSafe(cols[k - 1], maxLines, lineIndex);
      LinePrefix(cols, padding, maxLines, lineIndex, k - 1)
      + (if k - 1 != 0 then Replicate(' ', padding) else [])
      + CellText(cols[k - 1], maxLines, lineIndex)
  }

  function RenderedLines(cols: seq<Column>, padding: nat, maxLines: nat): (lines: seq<string>)
    requires Fits(cols, maxLines)
    ensures |lines| == maxLines
  {
    seq(maxLines, lineIndex requires 0 <= lineIndex < maxLines =>
      LinePrefix(cols, padding, maxLines, lineIndex, |cols|))
  }

  predicate SpansPositive(row: Row, options: Options) {
    forall j :: 0 <= j < |row.cells| ==> ColSpanOf(row.cells[j], row.defaultOptions, options) >= 1
  }

  function ColumnOf(cell: Cell, rowOptions: Options, options: Options, columnWidth: nat, padding: nat): Column
    requires ColSpanOf(cell, rowOptions, options) >= 1
  {
    Column(
      CellLines(cell.content),
      CellWidth(ColSpanOf(cell, rowOptions, options), columnWidth, padding),
      HAlignOf(cell, rowOptions, options),
      VAlignOf(cell, rowOptions, options),
      BlankCharOf(cell, rowOptions, options))
  }

  /** The effective layout of every cell of `row` rendered with the inherited settings. */
  function Columns(row: Row, options: Options, columnWidth: Option<nat>, paddingSize: Option<nat>): (cols: seq<Column>)
    requires SpansPositive(row, options)
    ensures |cols| == |row.cells|
    ensures forall j :: 0 <= j < |cols| ==> cols[j].lines == ColsLines(row.cells)[j]
  {
    var width, padding := ColumnWidthOf(row, columnWidth), PaddingOf(row, paddingSize);
    seq(|row.cells|, j requires 0 <= j < |row.cells| =>
      ColumnOf(row.cells[j], row.defaultOptions, options, width, padding))
  }

  /**
   * The render does not panic: every span is at least 1 (`col_span - 1` would underflow) and
   * no line Fill has to stretch is empty (the repeat count divides by its length).
   */
  predicate Renderable(row: Row, options: Options, columnWidth: Option<nat>, paddingSize: Option<nat>) {
    && SpansPositive(row, options)
    && var cols := Columns(row, options, columnWidth, paddingSize);
       forall j :: 0 <= j < |cols| ==> FillSafe(cols[j])
  }

  /** Without Fill, positive spans are all a render needs. */
  lemma RenderableWithoutFill(row: Row, options: Options, columnWidth: Option<nat>, paddingSize: Option<nat>)
    requires SpansPositive(row, options)
    requires forall j :: 0 <= j < |row.cells| ==> HAlignOf(row.cells[j], row.defaultOptions, options) != Fill
    ensures Renderable(row, options, columnWidth, paddingSize)
  {
    var cols := Columns(row, options, columnWidth, paddingSize);
    forall j | 0 <= j < |cols|
      ensures FillSafe(cols[j])
    {
      ColumnAt(row, options, columnWidth, paddingSize, j);
    }
  }

  lemma RenderableFits(row: Row, options: Options, columnWidth: Option<nat>, paddingSize: Option<nat>)
    requires Renderable(row, options, columnWidth, paddingSize)
    ensures Fits(Columns(row, options, columnWidth, paddingSize), MaxLines(ColsLines(row.cells)))
  {
  }

  /** The output lines of `row` rendered with the inherited settings, without terminators. */
  function RowLines(row: Row, options: Options, columnWidth: Option<nat>, paddingSize: Option<nat>): seq<string>
    requires Renderable(row, options, columnWidth, paddingSize)
  {
    RenderableFits(row, options, columnWidth, paddingSize);
    RenderedLines(
      Columns(row, options, columnWidth, paddingSize),
      PaddingOf(row, paddingSize),
      MaxLines(ColsLines(row.cells)))
  }

  /** The text `Row::render` writes: every output line followed by a line feed. */
  function Rendered(row: Row, options: Options, columnWidth: Option<nat>, paddingSize: Option<nat>): string
    requires Renderable(row, options, columnWidth, paddingSize)
  {
    Join(RowLines(row, options, columnWidth, paddingSize))
  }

  // ---------------------------------------------------------------------------------------
  // The renderer

  /**
   * `col_line`: the text of one cell on output line `lineIndex` and the cell's stored lines
   * afterwards (the selected line may have been extended in place by `Pad`).
   */
  method ColLine(
    hAlign: HAlign, vAlign: VAlign, colWidth: nat, colLines: seq<string>,
    maxLines: nat, lineIndex: nat, blank: char)
    returns (text: string, lines: seq<string>)
    requires SlotSafe(Column(colLines, colWidth, hAlign, vAlign, blank), maxLines, lineIndex)
    ensures text == CellText(Column(colLines, colWidth, hAlign, vAlign, blank), maxLines, lineIndex)
    ensures |lines| == |colLines|
    ensures forall i :: (0 <= i < |colLines| && Slot(vAlign, |colLines|, maxLines, lineIndex) != Some(i)
      ==> lines[i] == colLines[i])
    ensures lines == match Slot(vAlign, |colLines|, maxLines, lineIndex)
      case Some(i) => colLines[i := if hAlign == Left && |colLines[i]| < colWidth then text else colLines[i]]
      case None => colLines
  {
    lines := colLines;
    var index := Slot(vAlign, |colLines|, maxLines, lineIndex);
    if index.Some? {
      var i := index.value;
      var stored;
      text, stored := Pad(hAlign, lines[i], colWidth, blank);
      lines := lines[i := stored];
      return;
    }
    text := Repeat([blank], colWidth);
    RepeatSingleton(blank, colWidth);
  }

  /** The stored lines that are still to be shown are as they were split from the content. */
  ghost predicate UnreadIntact(colsLines: seq<seq<string>>, cols: seq<Column>, maxLines: nat, lineIndex: nat, col: nat)
    requires Fits(cols, maxLines)
  {
    && |colsLines| == |cols|
    && (forall c :: 0 <= c < |cols| ==> |colsLines[c]| == |cols[c].lines|)
    && forall c, i :: 0 <= c < |cols| && 0 <= i < |cols[c].lines| &&
         (if c < col then lineIndex < ColumnStart(cols[c], maxLines) + i
          else lineIndex <= ColumnStart(cols[c], maxLines) + i)
         ==> colsLines[c][i] == cols[c].lines[i]
  }

  /**
   * `Row::render`: for each output line and each cell, resolve the cell's settings, write the
   * padding gap and the cell's text, then end the line.
   */
  method Render(row: Row, options: Options, columnWidth: Option<nat>, paddingSize: Option<nat>)
    returns (out: string)
    requires Renderable(row, options, columnWidth, paddingSize)
    ensures out == Rendered(row, options, columnWidth, paddingSize)
  {
    var width := ColumnWidthOf(row, columnWidth);
    var padding := PaddingOf(row, paddingSize);
    var colsLines := ColsLines(row.cells);
    var maxLines := MaxLines(colsLines);
    ghost var cols := Columns(row, options, columnWidth, paddingSize);
    ghost var lines := RowLines(row, options, columnWidth, paddingSize);
    RenderStart(row, options, columnWidth, paddingSize);
    out := [];
    for lineIndex := 0 to maxLines
      invariant UnreadIntact(colsLines, cols, maxLines, lineIndex, 0)
      invariant out == Join(lines[..lineIndex])
    {
      out, colsLines := RenderLine(row, options, columnWidth, paddingSize, width, padding,
        colsLines, cols, maxLines, lineIndex, out);
      out := out + "\n";
      JoinPrefix(lines, lineIndex);
    }
    assert lines[..maxLines] == lines;
  }

  /**
   * The inner loop of `Row::render` for output line `lineIndex`: every cell in turn writes its
   * padding gap (all but the first) and its text after what `out` already holds.
   */
  method RenderLine(
    row: Row, options: Options, columnWidth: Option<nat>, paddingSize: Option<nat>,
    width: nat, padding: nat, colsLines: seq<seq<string>>, ghost cols: seq<Column>,
    maxLines: nat, lineIndex: nat, head: string)
    returns (out: string, after: seq<seq<string>>)
    requires SpansPositive(row, options)
    requires width == ColumnWidthOf(row, columnWidth) && padding == PaddingOf(row, paddingSize)
    requires cols == Columns(row, options, columnWidth, paddingSize) && Fits(cols, maxLines)
    requires UnreadIntact(colsLines, cols, maxLines, lineIndex, 0)
    ensures out == head + LinePrefix(cols, padding, maxLines, lineIndex, |cols|)
    ensures UnreadIntact(after, cols, maxLines, lineIndex + 1, 0)
  {
    out := head;
    after := colsLines;
    for col := 0 to |row.cells|
      invariant UnreadIntact(after, cols, maxLines, lineIndex, col)
      invariant out == head + LinePrefix(cols, padding, maxLines, lineIndex, col)
    {
      ghost var before := out;
      if col != 0 {
        out := out + Replicate(' ', padding);
      }
      var text, updated := ShowCell(row, options, columnWidth, paddingSize, width, padding,
        after, cols, maxLines, lineIndex, col);
      after := after[col := updated];
      out := out + text;
      LinePrefixStep(head, cols, padding, maxLines, lineIndex, col, before, text, out);
    }
    NextLineIntact(after, cols, maxLines, lineIndex);
  }

  /** Before the first line is written, every stored line is as split from its cell's content. */
  lemma RenderStart(row: Row, options: Options, columnWidth: Option<nat>, paddingSize: Option<nat>)
    requires Renderable(row, options, columnWidth, paddingSize)
    ensures Fits(Columns(row, options, columnWidth, paddingSize), MaxLines(ColsLines(row.cells)))
    ensures UnreadIntact(ColsLines(row.cells), Columns(row, options, columnWidth, paddingSize), MaxLines(ColsLines(row.cells)), 0, 0)
    ensures RowLines(row, options, columnWidth, paddingSize)
         == RenderedLines(Columns(row, options, columnWidth, paddingSize), PaddingOf(row, paddingSize), MaxLines(ColsLines(row.cells)))
  {
    RenderableFits(row, options, columnWidth, paddingSize);
  }

  /**
   * The body of the inner loop of `Row::render` for cell `col`: resolve the cell's span, width,
   * alignments and blank char through the option chain, then show its line `lineIndex` from
   * the mutable copy of the stored lines.
   */
  method ShowCell(
    row: Row, options: Options, columnWidth: Option<nat>, paddingSize: Option<nat>,
    width: nat, padding: nat, colsLines: seq<seq<string>>, ghost cols: seq<Column>,
    maxLines: nat, lineIndex: nat, col: nat)
    returns (text: string, updated: seq<string>)
    requires SpansPositive(row, options) && col < |row.cells|
    requires width == ColumnWidthOf(row, columnWidth) && padding == PaddingOf(row, paddingSize)
    requires cols == Columns(row, options, columnWidth, paddingSize) && Fits(cols, maxLines)
    requires UnreadIntact(colsLines, cols, maxLines, lineIndex, col)
    ensures SlotSafe(cols[col], maxLines, lineIndex)
    ensures text == CellText(cols[col], maxLines, lineIndex)
    ensures UnreadIntact(colsLines[col := updated], cols, maxLines, lineIndex, col + 1)
  {
    var cell := row.cells[col];
    ColumnAt(row, options, columnWidth, paddingSize, col);
    var colSpan := ColSpanOf(cell, row.defaultOptions, options);
    var colWidth := colSpan * width + padding * (colSpan - 1);
    var hAlign := HAlignOf(cell, row.defaultOptions, options);
    var vAlign := VAlignOf(cell, row.defaultOptions, options);
    var blank := BlankCharOf(cell, row.defaultOptions, options);
    ShownLineIntact(colsLines, cols, maxLines, lineIndex, col);
    text, updated := ColLine(hAlign, vAlign, colWidth, colsLines[col], maxLines, lineIndex, blank);
    ShownLineDone(colsLines, cols, maxLines, lineIndex, col, updated);
  }

  /** Once every cell has shown line `lineIndex`, the lines still to be shown are those after it. */
  lemma NextLineIntact(colsLines: seq<seq<string>>, cols: seq<Column>, maxLines: nat, lineIndex: nat)
    requires Fits(cols, maxLines)
    requires UnreadIntact(colsLines, cols, maxLines, lineIndex, |cols|)
    ensures UnreadIntact(colsLines, cols, maxLines, lineIndex + 1, 0)
  {
  }

  /** The line a cell shows next is still intact, so showing it from the mutable copy is exact. */
  lemma ShownLineIntact(colsLines: seq<seq<string>>, cols: seq<Column>, maxLines: nat, lineIndex: nat, col: nat)
    requires Fits(cols, maxLines) && col < |cols|
    requires UnreadIntact(colsLines, cols, maxLines, lineIndex, col)
    ensures SlotSafe(Column(colsLines[col], cols[col].width, cols[col].hAlign, cols[col].vAlign, cols[col].blank), maxLines, lineIndex)
    ensures CellText(Column(colsLines[col], cols[col].width, cols[col].hAlign, cols[col].vAlign, cols[col].blank), maxLines, lineIndex)
         == CellText(cols[col], maxLines, lineIndex)
  {
  }

  /** Only the line just shown may change, and it is never shown again. */
  lemma ShownLineDone(
    colsLines: seq<seq<string>>, cols: seq<Column>, maxLines: nat, lineIndex: nat, col: nat,
    updated: seq<string>)
    requires Fits(cols, maxLines) && col < |cols|
    requires UnreadIntact(colsLines, cols, maxLines, lineIndex, col)
    requires |updated| == |colsLines[col]|
    requires forall i :: (0 <= i < |updated| && Slot(cols[col].vAlign, |cols[col].lines|, maxLines, lineIndex) != Some(i)
      ==> updated[i] == colsLines[col][i])
    ensures UnreadIntact(colsLines[col := updated], cols, maxLines, lineIndex, col + 1)
  {
  }

  /** The layout the renderer resolves for cell `col` is the one `Columns` specifies. */
  lemma ColumnAt(row: Row, options: Options, columnWidth: Option<nat>, paddingSize: Option<nat>, col: nat)
    requires SpansPositive(row, options) && col < |row.cells|
    ensures
      var cell := row.cells[col];
      var span := ColSpanOf(cell, row.defaultOptions, options);
      && span >= 1
      && Columns(row, options, columnWidth, paddingSize)[col] == Column(
        CellLines(cell.content),
        CellWidth(span, ColumnWidthOf(row, columnWidth), PaddingOf(row, paddingSize)),
        HAlignOf(cell, row.defaultOptions, options),
        VAlignOf(cell, row.defaultOptions, options),
        BlankCharOf(cell, row.defaultOptions, options))
  {
  }

  /** Writing the gap and the text of cell `col` extends the line written so far by one cell. */
  lemma LinePrefixStep(
    head: string, cols: seq<Column>, padding: nat, maxLines: nat, lineIndex: nat, col: nat,
    before: string, text: string, after: string)
    requires col < |cols| && Fits(cols, maxLines)
    requires before == head + LinePrefix(cols, padding, maxLines, lineIndex, col)
    requires SlotSafe(cols[col], maxLines, lineIndex) && text == CellText(cols[col], maxLines, lineIndex)
    requires after == (if col != 0 then before + Replicate(' ', padding) else before) + text
    ensures after == head + LinePrefix(cols, padding, maxLines, lineIndex, col + 1)
  {
    var p := LinePrefix(cols, padding, maxLines, lineIndex, col);
    if col == 0 {
      assert LinePrefix(cols, padding, maxLines, lineIndex, col + 1) == p + [] + text;
      assert p + [] == p;
    } else {
      var gap := Replicate(' ', padding);
      assert LinePrefix(cols, padding, maxLines, lineIndex, col + 1) == p + gap + text;
      SeqAssoc(head, p, gap);
      SeqAssoc(head, p + gap, text);
    }
  }

  lemma SeqAssoc<T>(a: seq<T>, b: seq<T>, c: seq<T>)
    ensures a + b + c == a + (b + c)
  {
  }

  // ---------------------------------------------------------------------------------------
  // Display for Row

  /** The span, width and alignments a cell resolves to do not depend on a repeated level. */
  lemma OwnDefaultsRepeated(cell: Cell, rowOptions: Options)
    ensures ColSpanOf(cell, rowOptions, rowOptions) == ColSpanOf(cell, rowOptions, Unset)
    ensures HAlignOf(cell, rowOptions, rowOptions) == HAlignOf(cell, rowOptions, Unset)
    ensures VAlignOf(cell, rowOptions, rowOptions) == VAlignOf(cell, rowOptions, Unset)
    ensures BlankCharOf(cell, rowOptions, rowOptions) == BlankCharOf(cell, rowOptions, Unset)
  {
  }

  /**
   * `Display for Row` passes the row's own options, width and padding down as the inherited
   * ones; the output is the same as rendering the row with nothing inherited.
   */
  lemma {:induction false} DisplayInheritsNothing(row: Row)
    ensures Renderable(row, row.defaultOptions, row.columnWidth, row.paddingSize)
        <==> Renderable(row, Unset, None, None)
    ensures Renderable(row, Unset, None, None) ==>
      Rendered(row, row.defaultOptions, row.columnWidth, row.paddingSize) == Rendered(row, Unset, None, None)
  {
    forall j | 0 <= j < |row.cells|
      ensures ColSpanOf(row.cells[j], row.defaultOptions, row.defaultOptions) == ColSpanOf(row.cells[j], row.defaultOptions, Unset)
    {
      OwnDefaultsRepeated(row.cells[j], row.defaultOptions);
    }
    assert ColumnWidthOf(row, row.columnWidth) == ColumnWidthOf(row, None);
    assert PaddingOf(row, row.paddingSize) == PaddingOf(row, None);
    if SpansPositive(row, Unset) {
      var a := Columns(row, row.defaultOptions, row.columnWidth, row.paddingSize);
      var b := Columns(row, Unset, None, None);
      forall j | 0 <= j < |row.cells|
        ensures a[j] == b[j]
      {
        OwnDefaultsRepeated(row.cells[j], row.defaultOptions);
      }
      assert a == b;
    }
  }

  /** `Display for Row`: the row rendered with its own settings as the inherited ones. */
  method Display(row: Row) returns (out: string)
    requires Renderable(row, Unset, None, None)
    ensures out == Rendered(row, Unset, None, None)
  {
    DisplayInheritsNothing(row);
    out := Render(row, row.defaultOptions, row.columnWidth, row.paddingSize);
  }

  // ---------------------------------------------------------------------------------------
  // The shape of a rendered row

  /** Total width of a sequence of columns. */
  function SumWidths(cols: seq<Column>): nat {
    if cols == [] then 0 else SumWidths(cols[..|cols| - 1]) + cols[|cols| - 1].width
  }

  /** Where cell `j` starts on an output line: after the cells before it and `j` gaps. */
  function Offset(cols: seq<Column>, padding: nat, j: nat): nat
    requires j <= |cols|
  {
    SumWidths(cols[..j]) + padding * j
  }

  lemma SumWidthsSnoc(cols: seq<Column>, k: nat)
    requires k < |cols|
    ensures SumWidths(cols[..k + 1]) == SumWidths(cols[..k]) + cols[k].width
  {
    assert cols[..k + 1][..k] == cols[..k];
  }

  /** The first `k` cells of a line take their widths plus `k - 1` gaps. */
  lemma {:induction false} LinePrefixLength(cols: seq<Column>, padding: nat, maxLines: nat, lineIndex: nat, k: nat)
    requires k <= |cols| && Fits(cols, maxLines)
    ensures k == 0 ==> |LinePrefix(cols, padding, maxLines, lineIndex, k)| == 0
    ensures k > 0 ==> |LinePrefix(cols, padding, maxLines, lineIndex, k)| == Offset(cols, padding, k - 1) + cols[k - 1].width
  {
    if k > 0 {
      assert SlotSafe(cols[k - 1], maxLines, lineIndex);
      SumWidthsSnoc(cols, k - 1);
      if k > 1 {
        LinePrefixLength(cols, padding, maxLines, lineIndex, k - 1);
        SumWidthsSnoc(cols, k - 2);
        assert padding * (k - 1) == padding * (k - 2) + padding;
      }
    }
  }

  /**
   * On every output line, cell `j`'s text sits at `Offset(j)`, and for `j > 0` the `padding`
   * chars before it are plain spaces, whatever the blank chars of the cells are.
   */
  lemma {:induction false} CellPosition(cols: seq<Column>, padding: nat, maxLines: nat, lineIndex: nat, k: nat, j: nat)
    requires j < k <= |cols| && Fits(cols, maxLines)
    ensures SlotSafe(cols[j], maxLines, lineIndex)
    ensures Offset(cols, padding, j) + cols[j].width <= |LinePrefix(cols, padding, maxLines, lineIndex, k)|
    ensures LinePrefix(cols, padding, maxLines, lineIndex, k)[Offset(cols, padding, j)..Offset(cols, padding, j) + cols[j].width]
         == CellText(cols[j], maxLines, lineIndex)
    ensures j > 0 ==> padding <= Offset(cols, padding, j)
    ensures j > 0 ==>
      LinePrefix(cols, padding, maxLines, lineIndex, k)[Offset(cols, padding, j) - padding..Offset(cols, padding, j)]
      == Replicate(' ', padding)
  {
    if j == k - 1 {
      CellPositionLast(cols, padding, maxLines, lineIndex, j);
    } else {
      CellPosition(cols, padding, maxLines, lineIndex, k - 1, j);
      var before := LinePrefix(cols, padding, maxLines, lineIndex, k - 1);
      var gap: string := if k - 1 != 0 then Replicate(' ', padding) else [];
      assert SlotSafe(cols[k - 1], maxLines, lineIndex);
      var text := CellText(cols[k - 1], maxLines, lineIndex);
      assert LinePrefix(cols, padding, maxLines, lineIndex, k) == before + gap + text;
      var o := Offset(cols, padding, j);
      PlaceEarlier(before, gap, text, o, o + cols[j].width);
      if j > 0 {
        PlaceEarlier(before, gap, text, o - padding, o);
      }
    }
  }

  lemma CellPositionLast(cols: seq<Column>, padding: nat, maxLines: nat, lineIndex: nat, j: nat)
    requires j < |cols| && Fits(cols, maxLines)
    ensures SlotSafe(cols[j], maxLines, lineIndex)
    ensures Offset(cols, padding, j) + cols[j].width == |LinePrefix(cols, padding, maxLines, lineIndex, j + 1)|
    ensures LinePrefix(cols, padding, maxLines, lineIndex, j + 1)[Offset(cols, padding, j)..Offset(cols, padding, j) + cols[j].width]
         == CellText(cols[j], maxLines, lineIndex)
    ensures j > 0 ==> padding <= Offset(cols, padding, j)
    ensures j > 0 ==>
      LinePrefix(cols, padding, maxLines, lineIndex, j + 1)[Offset(cols, padding, j) - padding..Offset(cols, padding, j)]
      == Replicate(' ', padding)
  {
    var before := LinePrefix(cols, padding, maxLines, lineIndex, j);
    var gap: string := if j != 0 then Replicate(' ', padding) else [];
    assert SlotSafe(cols[j], maxLines, lineIndex);
    var text := CellText(cols[j], maxLines, lineIndex);
    assert LinePrefix(cols, padding, maxLines, lineIndex, j + 1) == before + gap + text;
    var o := Offset(cols, padding, j);
    LinePrefixLength(cols, padding, maxLines, lineIndex, j);
    if j > 0 {
      assert o == Offset(cols, padding, j - 1) + cols[j - 1].width + padding by {
        SumWidthsSnoc(cols, j - 1);
        assert padding * j == padding * (j - 1) + padding;
      }
    } else {
      assert cols[..0] == [];
    }
    PlaceLast(before, gap, text, o, cols[j].width);
  }

  /** The last of three concatenated pieces sits right after the first two. */
  lemma PlaceLast(before: string, gap: string, text: string, o: nat, w: nat)
    requires |before| + |gap| == o && |text| == w
    ensures (before + gap + text)[o..o + w] == text
    ensures (before + gap + text)[o - |gap|..o] == gap
  {
    assert (before + gap + text)[o..o + w] == text;
    assert (before + gap + text)[o - |gap|..o] == (before + gap)[|before|..|before| + |gap|];
  }

  /** A slice inside the first piece is unaffected by what follows it. */
  lemma PlaceEarlier(before: string, gap: string, text: string, i: nat, j: nat)
    requires i <= j <= |before|
    ensures (before + gap + text)[i..j] == before[i..j]
  {
    assert (before + gap + text)[i..j] == (before + gap)[i..j];
  }

  /**
   * A rendered row has `max_lines` lines; with at least one cell every line is as wide as
   * all the cells plus one gap between each pair, and a row without cells renders nothing.
   */
  lemma RowShape(row: Row, options: Options, columnWidth: Option<nat>, paddingSize: Option<nat>)
    requires Renderable(row, options, columnWidth, paddingSize)
    ensures |RowLines(row, options, columnWidth, paddingSize)| == MaxLines(ColsLines(row.cells))
    ensures row.cells == [] ==> Rendered(row, options, columnWidth, paddingSize) == []
    ensures row.cells != [] ==>
      forall lineIndex :: 0 <= lineIndex < |RowLines(row, options, columnWidth, paddingSize)| ==>
        |RowLines(row, options, columnWidth, paddingSize)[lineIndex]|
        == SumWidths(Columns(row, options, columnWidth, paddingSize))
         + PaddingOf(row, paddingSize) * (|row.cells| - 1)
  {
    RenderableFits(row, options, columnWidth, paddingSize);
    var cols := Columns(row, options, columnWidth, paddingSize);
    var padding := PaddingOf(row, paddingSize);
    var maxLines := MaxLines(ColsLines(row.cells));
    var lines := RowLines(row, options, columnWidth, paddingSize);
    if row.cells != [] {
      forall lineIndex | 0 <= lineIndex < |lines|
        ensures |lines[lineIndex]| == SumWidths(cols) + padding * (|cols| - 1)
      {
        RowLineAt(row, options, columnWidth, paddingSize, lineIndex);
        FullLineLength(cols, padding, maxLines, lineIndex);
      }
    }
  }

  /** A whole output line takes all the columns' widths plus one gap between each pair. */
  lemma FullLineLength(cols: seq<Column>, padding: nat, maxLines: nat, lineIndex: nat)
    requires |cols| > 0 && Fits(cols, maxLines)
    ensures |LinePrefix(cols, padding, maxLines, lineIndex, |cols|)| == SumWidths(cols) + padding * (|cols| - 1)
  {
    var n := |cols|;
    SumWidthsSnoc(cols, n - 1);
    assert cols[..n] == cols;
    LinePrefixLength(cols, padding, maxLines, lineIndex, n);
  }

  /** Output line `lineIndex` of a row is the prefix of all its cells on that line. */
  lemma RowLineAt(row: Row, options: Options, columnWidth: Option<nat>, paddingSize: Option<nat>, lineIndex: nat)
    requires Renderable(row, options, columnWidth, paddingSize)
    requires lineIndex < MaxLines(ColsLines(row.cells))
    ensures Fits(Columns(row, options, columnWidth, paddingSize), MaxLines(ColsLines(row.cells)))
    ensures RowLines(row, options, columnWidth, paddingSize)[lineIndex]
         == LinePrefix(Columns(row, options, columnWidth, paddingSize), PaddingOf(row, paddingSize),
              MaxLines(ColsLines(row.cells)), lineIndex, |row.cells|)
  {
    RenderableFits(row, options, columnWidth, paddingSize);
  }

  /** Cell `j` of a rendered row is `span * column_width + padding * (span - 1)` chars wide. */
  lemma ColumnWidthAt(row: Row, options: Options, columnWidth: Option<nat>, paddingSize: Option<nat>, j: nat)
    requires SpansPositive(row, options) && j < |row.cells|
    ensures ColSpanOf(row.cells[j], row.defaultOptions, options) >= 1
    ensures Columns(row, options, columnWidth, paddingSize)[j].width
         == CellWidth(ColSpanOf(row.cells[j], row.defaultOptions, options), ColumnWidthOf(row, columnWidth), PaddingOf(row, paddingSize))
  {
    ColumnAt(row, options, columnWidth, paddingSize, j);
  }

  /**
   * On every output line of a rendered row, cell `j`'s text sits at `Offset(j)`. The row's
   * columns, padding, line count and the line itself are named by the caller.
   */
  lemma RowCellText(row: Row, options: Options, columnWidth: Option<nat>, paddingSize: Option<nat>, lineIndex: nat, j: nat,
                    cols: seq<Column>, padding: nat, maxLines: nat, line: string)
    requires Renderable(row, options, columnWidth, paddingSize)
    requires cols == Columns(row, options, columnWidth, paddingSize)
    requires padding == PaddingOf(row, paddingSize) && maxLines == MaxLines(ColsLines(row.cells))
    requires lineIndex < maxLines && j < |row.cells|
    requires line == RowLines(row, options, columnWidth, paddingSize)[lineIndex]
    ensures SlotSafe(cols[j], maxLines, lineIndex)
    ensures Offset(cols, padding, j) + cols[j].width <= |line|
    ensures line[Offset(cols, padding, j)..Offset(cols, padding, j) + cols[j].width] == CellText(cols[j], maxLines, lineIndex)
  {
    RowLineAt(row, options, columnWidth, paddingSize, lineIndex);
    CellInLine(cols, padding, maxLines, lineIndex, |row.cells|, line, j);
  }

  /**
   * On every output line of a rendered row, the `padding` chars before cell `j > 0` are plain
   * spaces, whatever the cells' blank chars are.
   */
  lemma RowCellGap(row: Row, options: Options, columnWidth: Option<nat>, paddingSize: Option<nat>, lineIndex: nat, j: nat,
                   cols: seq<Column>, padding: nat, maxLines: nat, line: string)
    requires Renderable(row, options, columnWidth, paddingSize)
    requires cols == Columns(row, options, columnWidth, paddingSize)
    requires padding == PaddingOf(row, paddingSize) && maxLines == MaxLines(ColsLines(row.cells))
    requires lineIndex < maxLines && 0 < j < |row.cells|
    requires line == RowLines(row, options, columnWidth, paddingSize)[lineIndex]
    ensures padding <= Offset(cols, padding, j) <= |line|
    ensures line[Offset(cols, padding, j) - padding..Offset(cols, padding, j)] == Replicate(' ', padding)
  {
    RowLineAt(row, options, columnWidth, paddingSize, lineIndex);
    CellInLine(cols, padding, maxLines, lineIndex, |row.cells|, line, j);
  }

  /** CellPosition for a whole output line. */
  lemma CellInLine(cols: seq<Column>, padding: nat, maxLines: nat, lineIndex: nat, k: nat, line: string, j: nat)
    requires j < k == |cols| && Fits(cols, maxLines)
    requires line == LinePrefix(cols, padding, maxLines, lineIndex, k)
    ensures SlotSafe(cols[j], maxLines, lineIndex)
    ensures Offset(cols, padding, j) + cols[j].width <= |line|
    ensures line[Offset(cols, padding, j)..Offset(cols, padding, j) + cols[j].width] == CellText(cols[j], maxLines, lineIndex)
    ensures j > 0 ==> padding <= Offset(cols, padding, j)
    ensures j > 0 ==> line[Offset(cols, padding, j) - padding..Offset(cols, padding, j)] == Replicate(' ', padding)
  {
    CellPosition(cols, padding, maxLines, lineIndex, k, j);
  }

  /** An empty cell shows as a run of its blank char on every line, whatever its alignment. */
  lemma EmptyContentIsBlank(width: nat, hAlign: HAlign, vAlign: VAlign, blank: char, maxLines: nat, lineIndex: nat)
    requires SlotSafe(Column(CellLines([]), width, hAlign, vAlign, blank), maxLines, lineIndex)
    ensures CellText(Column(CellLines([]), width, hAlign, vAlign, blank), maxLines, lineIndex) == Replicate(blank, width)
  {
    var col := Column(CellLines([]), width, hAlign, vAlign, blank);
    var k := Slot(vAlign, 1, maxLines, lineIndex);
    if k.Some? && 0 < width {
      assert col.lines[k.value] == [];
      var r := Padded(hAlign, [], width, blank);
      assert hAlign != Fill;
      assert r == Replicate(blank, width) by {
        forall i | 0 <= i < width
          ensures r[i] == blank
        {
        }
      }
    }
  }

  /** Blanks before the line under each alignment, when the line is shorter than the width. */
  function LeadingBlanks(hAlign: HAlign, blanks: nat): nat {
    match hAlign
    case Right => blanks
    case Center => blanks / 2
    case _ => 0
  }

  /**
   * Char by char: Left, Right and Center keep the line intact at `LeadingBlanks` and fill the
   * rest with the blank char, so an odd blank of Center goes to the right; Fill cycles
   * through the line; a line at least as wide as the cell is cut to its first `width` chars.
   */
  lemma PaddedLayout(hAlign: HAlign, s: string, width: nat, blank: char)
    requires FillSafeLine(hAlign, s, width)
    ensures |s| >= width ==> Padded(hAlign, s, width, blank) == s[..width]
    ensures |s| < width && hAlign != Fill ==>
      var lead := LeadingBlanks(hAlign, width - |s|);
      && lead + |s| <= width
      && (hAlign == Center ==> lead <= width - |s| - lead <= lead + 1)
      && forall i :: 0 <= i < width ==>
           Padded(hAlign, s, width, blank)[i] == if lead <= i < lead + |s| then s[i - lead] else blank
    ensures |s| < width && hAlign == Fill ==>
      forall i :: 0 <= i < width ==> Padded(hAlign, s, width, blank)[i] == s[i % |s|]
  {
  }
}
