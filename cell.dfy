/** Cells: the atomic content units of a grid, their alignments and their constructors. */
module Cells {
  import opened Wrappers

  /** Horizontal alignment of a cell's content within its width. */
  datatype HAlign =
    | Left    // content first, blanks after (the default)
    | Right   // blanks first, content after
    | Center  // blanks split around the content, any odd blank on the right
    | Fill    // the content repeated until it covers the width

  /** Vertical alignment of a cell's lines within its row. */
  datatype VAlign = Top | Bottom | Middle

  /** Fallbacks used when no level of the chain sets a value. */
  const DefaultColSpan: nat := 1
  const DefaultHAlign: HAlign := Left
  const DefaultVAlign: VAlign := Top
  const DefaultBlankChar: char := ' '  // U+0020

  /** The message a zero column span fails with. */
  const ZeroSpanMessage: string := "Column span cannot be 0"

  /**
   * A cell: its text (possibly several lines, possibly a rendered grid) and the settings
   * it overrides; `None` defers to the row, then to the grid, then to the defaults above.
   */
  datatype Cell = Cell(
    content: string,
    colSpan: Option<nat>,
    hAlign: Option<HAlign>,
    vAlign: Option<VAlign>,
    blankChar: Option<char>)

  /** `Cell::new`: fails on a zero span and otherwise sets the span and nothing else. */
  function New(content: string, colSpan: nat): (r: Result<Cell>)
    ensures r.Failure? <==> colSpan == 0
    ensures r.Failure? ==> r.message == ZeroSpanMessage
    ensures r.Success? ==>
      && r.value.content == content
      && r.value.colSpan == Some(colSpan)
      && r.value.hAlign.None? && r.value.vAlign.None? && r.value.blankChar.None?
  {
    if colSpan == 0 then Failure(ZeroSpanMessage)
    else Success(Cell(content, Some(colSpan), None, None, None))
  }

  /** `Cell::builder`: a builder around `Cell::new`, failing the same way. */
  function Builder(content: string, colSpan: nat): (r: Result<CellBuilder>)
    ensures r.Failure? <==> colSpan == 0
    ensures r.Success? ==> New(content, colSpan) == Success(r.value.Build())
  {
    match New(content, colSpan)
    case Success(cell) => Success(CellBuilder(cell))
    case Failure(message) => Failure(message)
  }

  /** `Cell::new_fill`: `Cell::new` with the content repeated across the width. */
  function NewFill(content: string, colSpan: nat): (r: Result<Cell>)
    ensures r.Failure? <==> colSpan == 0
    ensures r.Success? ==> r.value == New(content, colSpan).value.(hAlign := Some(Fill))
  {
    match Builder(content, colSpan)
    case Success(builder) => Success(builder.WithHAlign(Fill).Build())
    case Failure(message) => Failure(message)
  }

  /** `Cell::new_empty`: a cell with no content. */
  function NewEmpty(colSpan: nat): (r: Result<Cell>)
    ensures r.Failure? <==> colSpan == 0
    ensures r.Success? ==> r.value == Cell([], Some(colSpan), None, None, None)
  {
    New("", colSpan)
  }

  /**
   * `CellBuilder`: each setter takes the builder by value and returns it with exactly one
   * field of the inner cell replaced.
   */
  datatype CellBuilder = CellBuilder(inner: Cell) {

    /** `build`: the cell assembled so far. */
    function Build(): Cell {
      inner
    }

    function WithContent(content: string): (b: CellBuilder)
      ensures b.inner.content == content
      ensures b.inner.(content := inner.content) == inner
    {
      CellBuilder(inner.(content := content))
    }

    /** Unlike `New`, this setter does not reject a zero span. */
    function WithColSpan(colSpan: nat): (b: CellBuilder)
      ensures b.inner.colSpan == Some(colSpan)
      ensures b.inner.(colSpan := inner.colSpan) == inner
    {
      CellBuilder(inner.(colSpan := Some(colSpan)))
    }

    function WithHAlign(hAlign: HAlign): (b: CellBuilder)
      ensures b.inner.hAlign == Some(hAlign)
      ensures b.inner.(hAlign := inner.hAlign) == inner
    {
      CellBuilder(inner.(hAlign := Some(hAlign)))
    }

    function WithVAlign(vAlign: VAlign): (b: CellBuilder)
      ensures b.inner.vAlign == Some(vAlign)
      ensures b.inner.(vAlign := inner.vAlign) == inner
    {
      CellBuilder(inner.(vAlign := Some(vAlign)))
    }

    function WithBlankChar(blankChar: char): (b: CellBuilder)
      ensures b.inner.blankChar == Some(blankChar)
      ensures b.inner.(blankChar := inner.blankChar) == inner
    {
      CellBuilder(inner.(blankChar := Some(blankChar)))
    }
  }

  /** Building straight after `Builder` gives `New`; a chain of setters sets exactly its fields. */
  lemma BuilderSetters(content: string, colSpan: nat, h: HAlign, v: VAlign, c: char)
    requires colSpan > 0
    ensures Builder(content, colSpan).value.Build() == New(content, colSpan).value
    ensures Builder(content, colSpan).value.WithHAlign(h).WithVAlign(v).WithBlankChar(c).Build()
         == Cell(content, Some(colSpan), Some(h), Some(v), Some(c))
  {
  }

  /** Setters on different fields commute: the order of a builder chain does not matter. */
  lemma SettersCommute(content: string, colSpan: nat, h: HAlign, v: VAlign, c: char)
    ensures forall b: CellBuilder :: b.WithContent(content).WithColSpan(colSpan) == b.WithColSpan(colSpan).WithContent(content)
    ensures forall b: CellBuilder :: b.WithContent(content).WithHAlign(h) == b.WithHAlign(h).WithContent(content)
    ensures forall b: CellBuilder :: b.WithContent(content).WithVAlign(v) == b.WithVAlign(v).WithContent(content)
    ensures forall b: CellBuilder :: b.WithContent(content).WithBlankChar(c) == b.WithBlankChar(c).WithContent(content)
    ensures forall b: CellBuilder :: b.WithColSpan(colSpan).WithHAlign(h) == b.WithHAlign(h).WithColSpan(colSpan)
    ensures forall b: CellBuilder :: b.WithColSpan(colSpan).WithVAlign(v) == b.WithVAlign(v).WithColSpan(colSpan)
    ensures forall b: CellBuilder :: b.WithColSpan(colSpan).WithBlankChar(c) == b.WithBlankChar(c).WithColSpan(colSpan)
    ensures forall b: CellBuilder :: b.WithHAlign(h).WithVAlign(v) == b.WithVAlign(v).WithHAlign(h)
    ensures forall b: CellBuilder :: b.WithHAlign(h).WithBlankChar(c) == b.WithBlankChar(c).WithHAlign(h)
    ensures forall b: CellBuilder :: b.WithVAlign(v).WithBlankChar(c) == b.WithBlankChar(c).WithVAlign(v)
  {
  }
}
