# cli-grid in Dafny

A model of the rendering engine of `cli-grid`, a Rust crate that lays text out in a grid of
cells. A grid is a sequence of rows, and a row is a sequence of cells. Each cell has
content, which may span several lines and may itself be a rendered grid. A cell spans a
number of columns and has a horizontal alignment (Left, Right, Center, Fill), a vertical
alignment (Top, Bottom, Middle) and a blank char. Each of those four settings is taken from
the first level that sets it: the cell, then the row's defaults, then the grid's defaults,
then the hard defaults (1, Left, Top, space). Column width and padding size work the other
way round: the value handed down by the grid wins over the row's own value, and the
fallback is 1.

Modules, one per source file, plus two shared ones and the examples:

- `Wrappers`: `Option` (with Rust's `or` / `unwrap_or`) and `Result`. A constructor that
  panics in Rust returns `Failure` with the panic message.
- `Text`: the standard string behaviour the renderer needs. It covers UTF-8 lengths,
  `char_indices`, byte-offset slicing, `str::repeat`, `str::lines` (split on line feeds,
  drop one carriage return before a line feed, no empty final piece) and the text that
  successive `writeln!` calls write. Strings are sequences of Unicode scalar values.
- `Layout` (`src/options.rs`): the four-field `Options` record.
- `Cells` (`src/cell.rs`): the alignments, the defaults, `Cell`, its constructors and
  `CellBuilder`.
- `Rows` (`src/row.rs`): the core.
  - Option resolution: `*Of` and `EffectiveOptions`.
  - Line splitting: `CellLines`.
  - Vertical placement: `Slot`.
  - Padding and truncation: `Padded`, `Pad` and `ByteIndex`.
  - The specification of a rendered row: `Columns`, `CellText`, `LinePrefix`, `RowLines`
    and `Rendered`.
  - `Row::render` as the Rust code runs it: the methods `Render`, `RenderLine`, `ShowCell`, `ColLine` and
    `Pad`. They update a mutable copy of every cell's lines, and each is proved to produce
    the specification.
- `Grids` (`src/grid.rs`): `Grid`, `GridBuilder`, `Grid::render` as a loop over the rows,
  and what the grid's settings decide.
- `Examples`: the concrete outputs expected by the crate's unit tests and by three of its
  integration tests.

`pad` with Left alignment extends the stored line in place, so the next call sees the
longer line. The model keeps this. `Pad` returns both the shown text and the new stored
line, and `ColLine` returns the cell's updated lines. The loop invariant of `Render`
(`UnreadIntact`) shows that a stored line changes only after it has been shown, and
`EveryLineShownOnce` shows that it is never shown again.

Two details of the code are easy to miss:

- The doc comment on `Cell::col_span` (src/cell.rs:51-53) says a span of 0 panics. That holds
  for `Cell::new` and the other constructors, but `CellBuilder::col_span` and
  `RowBuilder::default_colspan` store 0 without a check (`Cells.CellBuilder.WithColSpan`,
  `Rows.RowBuilder.WithDefaultColSpan`). Rendering then underflows, which the renderer's
  precondition excludes.
- `str::lines` splits only on line feeds and drops a carriage return just before one.

## Model

| member | source | states |
|---|---|---|
| Cells.New | src/cell.rs:87-98 | fails with "Column span cannot be 0" exactly when the span is 0; otherwise the cell keeps the content and `Some(span)`, with both alignments and the blank char unset |
| Cells.Builder | src/cell.rs:125-129 | fails exactly when the span is 0; otherwise building straight away gives `Cell::new`'s cell |
| Cells.NewFill | src/cell.rs:105-107 | fails exactly when the span is 0; otherwise it is `Cell::new`'s cell with Fill alignment and nothing else changed |
| Cells.NewEmpty | src/cell.rs:115-117 | fails exactly when the span is 0; otherwise it is a cell with empty content and only the span set |
| Cells.CellBuilder.WithContent | src/cell.rs:154-157 | sets the content and leaves every other field as it was |
| Cells.CellBuilder.WithColSpan | src/cell.rs:164-167 | sets the span, including 0, and leaves every other field as it was |
| Cells.CellBuilder.WithHAlign | src/cell.rs:174-177 | sets the horizontal alignment and leaves every other field as it was |
| Cells.CellBuilder.WithVAlign | src/cell.rs:184-187 | sets the vertical alignment and leaves every other field as it was |
| Cells.CellBuilder.WithBlankChar | src/cell.rs:194-197 | sets the blank char and leaves every other field as it was |
| Cells.BuilderSetters | src/cell.rs:125-197 | building straight after `builder` gives `Cell::new`'s cell; chained setters produce exactly the fields they set |
| Cells.SettersCommute | src/cell.rs:154-197 | any two setters on different fields (content, span, horizontal and vertical alignment, blank char) give the same builder in either order |
| Rows.New | src/row.rs:36-48 | keeps the cells; the row's default options, width and padding are all unset |
| Rows.NewEmpty | src/row.rs:51-53 | fails exactly when the span is 0; otherwise it is a row of one empty cell with that span |
| Rows.NewFill | src/row.rs:56-58 | fails exactly when the span is 0; otherwise it is a row of one Fill cell with that content and span |
| Rows.Builder | src/row.rs:65-69 | building straight away gives `Row::new(cells)` |
| Rows.RowBuilder.WithDefaultColSpan | src/row.rs:258-261 | sets the row's default span, including 0, and changes nothing else |
| Rows.RowBuilder.WithDefaultHAlign | src/row.rs:265-268 | sets the row's default horizontal alignment and changes nothing else |
| Rows.RowBuilder.WithDefaultVAlign | src/row.rs:272-275 | sets the row's default vertical alignment and changes nothing else |
| Rows.RowBuilder.WithDefaultBlankChar | src/row.rs:279-282 | sets the row's default blank char and changes nothing else |
| Rows.RowBuilder.WithColumnWidth | src/row.rs:287-290 | sets the row's column width and changes nothing else |
| Rows.RowBuilder.WithPaddingSize | src/row.rs:295-298 | sets the row's padding size and changes nothing else |
| Rows.RowBuilder.WithCells | src/row.rs:303-306 | replaces the cells and changes nothing else |
| Wrappers.Option.Or | src/row.rs:81 | `or` is present exactly when either side is, and is the left side when that is present, the right side otherwise |
| Wrappers.Option.UnwrapOr | src/row.rs:81 | `unwrap_or` gives the value when present and the fallback otherwise |
| Rows.ColumnWidthOf | src/row.rs:81 | the width handed down wins; otherwise the row's own width, else 1 |
| Rows.PaddingOf | src/row.rs:82 | the padding handed down wins; otherwise the row's own padding, else 1 |
| Rows.ColSpanOf | src/row.rs:102-106 | the cell's span when set, else the row's default, else the handed-down default, else 1 |
| Rows.HAlignOf | src/row.rs:108-112 | the cell's horizontal alignment when set, else the row's default, else the handed-down default, else Left |
| Rows.VAlignOf | src/row.rs:113-117 | the cell's vertical alignment when set, else the row's default, else the handed-down default, else Top |
| Rows.BlankCharOf | src/row.rs:118-122 | the cell's blank char when set, else the row's default, else the handed-down default, else space |
| Rows.CellWidth | src/row.rs:107 | a cell of span `s >= 1` is at least `s` column widths wide, and with one padding added it is `s` times a column plus a padding |
| Rows.FirstPresentAt | src/row.rs:102-122 | an `or` chain yields the value of its first present link, whatever follows it |
| Rows.FirstPresentAbsent | src/row.rs:102-122 | a chain with no present link yields the fallback |
| Rows.EffectiveSizes | src/row.rs:81-82 | column width and padding are the first present of the value handed down, the row's own, and 1 |
| Rows.EffectiveOptions | src/row.rs:102-122 | span, horizontal and vertical alignment and blank char are each the first present of the cell's, the row's default, the handed-down default, and 1 / Left / Top / space |
| Rows.ColumnAt | src/row.rs:102-122 | (helper lemma) the layout resolved for a cell has its split lines, the width `span * column_width + padding * (span - 1)` and the resolved alignments and blank char |
| Rows.ColumnWidthAt | src/row.rs:102-107 | a cell is `span * column_width + padding * (span - 1)` chars wide |
| Rows.SpanAbsorbsPadding | src/row.rs:107 | a cell spanning `a + b` columns is as wide as a cell of span `a`, one padding and a cell of span `b` side by side |
| Rows.CellLines | src/row.rs:87-92 | a cell has at least one line; empty content gives one empty line; otherwise its lines are `str::lines` of its content |
| Rows.MaxLines | src/row.rs:94-98 | the row's height is at least every cell's line count and equal to one of them; a row without cells has height 0 |
| Rows.ByteIndex | src/row.rs:233-238 | `byte_index(s, k)` is the UTF-8 length of the first `k` chars (all of `s` when it is shorter) and 0 for `k = 0` |
| Rows.SliceAtCharIndex | src/row.rs:197-199 | slicing at `byte_index(s, k)` keeps exactly the first `k` chars, so the cut falls on a char boundary |
| Rows.Padded | src/row.rs:195-231 | a padded line is always exactly `width` chars long |
| Rows.PaddedLayout | src/row.rs:195-231 | a line at least `width` long is cut to its first `width` chars; otherwise Left, Right and Center keep the line at offset 0, `blanks` or `blanks / 2` with blank chars around it, so an odd blank of Center goes to the right; Fill makes char `i` the line's char `i mod len` |
| Rows.RepeatCoversWidth | src/row.rs:225-226 | `width / len + 1` copies of a `len`-char line are more than `width` chars, so the Fill slice is defined |
| Rows.FillSlice | src/row.rs:224-229 | cutting the repeated line at `byte_index(repeated, width)` gives `width` chars that cycle through the line |
| Rows.TruncatedIsPadded | src/row.rs:196-200 | (helper lemma) a line at least `width` long shows as its slice at `byte_index(s, width)` |
| Rows.FilledIsPadded | src/row.rs:224-229 | (helper lemma) Fill shows the repeated line sliced at `byte_index(repeated, width)` |
| Rows.Pad | src/row.rs:195-231 | the text `pad` returns is `Padded`; the stored line is extended in place to that text for Left alignment when it is shorter than the width, and is unchanged otherwise |
| Rows.FirstLine | src/row.rs:160-188 | the first output line a cell's lines occupy leaves room for all of them below it |
| Rows.Slot | src/row.rs:160-188 | an output line shows a stored line exactly when it lies in the cell's block of lines; the stored line shown is the offset into that block and always a valid index |
| Rows.SlotPlacement | src/row.rs:160-188 | Top shows line `i` at index `i`; Bottom shows it from `max_lines - n` on; Middle from `(max_lines - n) / 2` on; every other index shows a blank line |
| Rows.MiddleBalanced | src/row.rs:179-181 | Middle leaves as many blank lines below the content as above it, or one more |
| Rows.EveryLineShownOnce | src/row.rs:160-190 | each stored line is shown on exactly one output line |
| Rows.CellText | src/row.rs:189-192 | what a cell shows on any output line is exactly as wide as the cell |
| Rows.ColLine | src/row.rs:151-193 | the text is the selected line padded, or the blank char repeated across the width when no line is selected; only the selected stored line may change, and only as `pad` changes it |
| Rows.EmptyContentIsBlank | src/row.rs:88-90 | a cell with empty content shows as its blank char repeated across its width on every line, whatever its alignments |
| Rows.RenderableWithoutFill | src/row.rs:224-225 | when no cell resolves to Fill, positive spans are all a render needs |
| Rows.RenderStart | src/row.rs:83-98 | (helper lemma) before the first line is written, every stored line is as split from its cell's content |
| Rows.ShowCell | src/row.rs:100-132 | resolving one cell's settings and showing its line from the mutable stored lines gives the cell's specified text, and the stored lines still to be shown stay intact |
| Rows.ShownLineIntact | src/row.rs:129-131 | the stored line a cell shows next has not been changed yet, so showing it from the mutable copy is exact |
| Rows.ShownLineDone | src/row.rs:204 | extending the line just shown keeps intact every stored line still to be shown |
| Rows.NextLineIntact | src/row.rs:99-135 | (helper lemma) once every cell has shown line `i`, the lines still to be shown are all after `i` |
| Rows.Render | src/row.rs:74-137 | the renderer's loop over the output lines, with the stored lines changed in place, writes exactly `Rendered`: every specified line followed by a line feed |
| Rows.RenderLine | src/row.rs:100-133 | the loop over the cells appends exactly the specified output line, and afterwards the stored lines still to be shown are intact |
| Rows.LinePrefixStep | src/row.rs:123-132 | (helper lemma) writing the gap and the text of one more cell extends the line written so far by that cell |
| Rows.LinePrefixLength | src/row.rs:123-132 | the first `k` cells of a line take their widths plus `k - 1` paddings |
| Rows.RowShape | src/row.rs:94-134 | a rendered row has `max_lines` lines; with at least one cell every line is as wide as all the cells plus one padding between each pair; a row without cells renders nothing |
| Rows.FullLineLength | src/row.rs:123-132 | a whole output line is the cells' widths plus `padding * (cells - 1)` chars long |
| Rows.RowLineAt | src/row.rs:99-134 | (helper lemma) output line `i` of a row is all its cells' texts on line `i`, with a gap between each pair |
| Rows.CellPosition | src/row.rs:123-132 | on every output line, cell `j`'s text sits at the cells' widths before it plus `j` paddings, and for `j > 0` the padding chars before it are spaces |
| Rows.CellInLine | src/row.rs:123-132 | (helper lemma) the same facts for a whole output line |
| Rows.RowCellText | src/row.rs:126-132 | on every line of a rendered row, cell `j`'s text sits at its offset and is that cell's text for the line |
| Rows.RowCellGap | src/row.rs:123-125 | on every line of a rendered row, the `padding` chars before cell `j > 0` are spaces, never the blank char |
| Rows.DisplayInheritsNothing | src/row.rs:140-148 | rendering a row with its own settings handed down gives the same output as handing nothing down, and fails under exactly the same conditions |
| Rows.Display | src/row.rs:140-148 | `Display for Row` writes the row rendered with nothing handed down |
| Text.Utf8Len | src/row.rs:237 | a char's UTF-8 encoding takes 1 to 4 bytes |
| Text.CharIndices | src/row.rs:234 | `char_indices` pairs every char with its byte offset: the first at 0, each next one after the previous char's encoding |
| Text.Utf8LengthSnoc | src/row.rs:237 | one more char adds its encoding's length to a prefix's UTF-8 length |
| Text.StripCr | src/row.rs:87 | drops the last char of a line exactly when it is a carriage return, and otherwise keeps the line |
| Text.Join | src/row.rs:134 | writing no lines writes nothing; otherwise the output ends with a line feed |
| Text.Utf8LengthAppend | src/row.rs:233-238 | UTF-8 lengths add up over concatenation |
| Text.ByteSlice | src/row.rs:199 | a byte slice is a prefix of the string whose encoding fits in the byte count |
| Text.ByteSliceAtBoundary | src/row.rs:197-199 | slicing at the byte length of the first `k` chars gives exactly those chars |
| Text.Replicate | src/row.rs:204 | `n` copies of the blank char: `n` chars, each of them the blank char |
| Text.Repeat | src/row.rs:226 | `str::repeat` gives `n` times as many chars |
| Text.RepeatAt | src/row.rs:225-228 | char `i` of a repetition is char `i mod len` of the repeated string |
| Text.RepeatSingleton | src/row.rs:192 | repeating the one-char string of the blank char is the blank char replicated |
| Text.NewlineIndex | src/row.rs:87 | finds the first line feed, and there is none before it |
| Text.Lines | src/row.rs:87 | `str::lines` gives no lines only for empty text |
| Text.JoinLength | src/row.rs:134 | the joined lines have one line feed per line |
| Text.JoinAppend | src/row.rs:134 | writing two runs of lines one after another writes all of them |
| Text.LinesOfJoin | src/row.rs:87 | splitting joined clean lines gives back exactly those lines |
| Text.LinesCons | src/row.rs:87 | a clean line followed by a line feed is split off as one line |
| Text.ConcatOfJoins | src/grid.rs:67-74 | writing each row's joined lines in turn writes all the rows' lines joined |
| Text.FlattenLength | src/grid.rs:67-74 | the rows' lines together number the rows' line counts added up |
| Grids.New | src/grid.rs:40-54 | keeps the rows; the grid's default options, column width and padding are all unset |
| Grids.Builder | src/grid.rs:59-63 | building straight away gives `Grid::new(rows)` |
| Grids.GridBuilder.WithDefaultColSpan | src/grid.rs:96-102 | fails with "Column span cannot be 0!" exactly when the span is 0; otherwise sets the grid's default span and changes nothing else |
| Grids.GridBuilder.WithDefaultHAlign | src/grid.rs:106-109 | sets the grid's default horizontal alignment and changes nothing else |
| Grids.GridBuilder.WithDefaultVAlign | src/grid.rs:113-116 | sets the grid's default vertical alignment and changes nothing else |
| Grids.GridBuilder.WithDefaultBlankChar | src/grid.rs:120-123 | sets the grid's default blank char and changes nothing else |
| Grids.GridBuilder.WithColumnWidth | src/grid.rs:126-129 | sets the grid's column width and changes nothing else |
| Grids.GridBuilder.WithPaddingSize | src/grid.rs:132-135 | sets the grid's padding size and changes nothing else |
| Grids.Render | src/grid.rs:66-76 | the loop writes each row's render, with the grid's default options, width and padding handed down, in order and without separators |
| Grids.TotalLines | src/grid.rs:66-76 | the grid's output is all its rows' lines, each ended by a line feed; the line count is the sum of the rows' heights; a grid without rows renders nothing |
| Grids.Nesting | src/grid.rs:66-76 | when no output line holds a line feed or ends in a carriage return, splitting the rendered grid into lines gives back exactly its lines, so it can be the content of another grid's cell |
| Grids.GridSizesWin | src/grid.rs:68-73 | a width or padding the grid sets overrides the row's own; otherwise the row's applies |
| Grids.GridOptionsFillGaps | src/grid.rs:68-73 | the grid's default span, alignments and blank char apply only when neither the cell nor the row sets one |
| Examples.ByteIndexExamples | src/row.rs:313-335 | `byte_index` of "abc", "aµc" and "µ∆c" at 2 is 2, 3 and 5 |
| Examples.PadExamples | src/row.rs:337-423 | padding "", "a", "ab" and "∆" to three chars with '.' gives the strings the unit tests expect |
| Examples.ColLineOneOfThree | src/row.rs:425-517 | a one-line column three lines tall shows "a.." at the line Top, Middle or Bottom selects and "..." elsewhere |
| Examples.ColLineTwoOfFour | src/row.rs:518-630 | a two-line column four lines tall shows "a.." and "b.." at the lines each alignment selects and "..." elsewhere |
| Examples.ColLineInPlace | src/row.rs:556-593 | calling `col_line` line after line on the same mutable column gives the expected texts, even though Left extends the stored lines in place |
| Examples.TwoOnes | tests/grid.rs:23-70 | a row of two one-char cells three chars wide renders as one line, "1.." and "1.." separated by the padding |
| Examples.GridPaddingZero | tests/grid.rs:23-46 | the two-by-two grid with padding 0 renders "1..1..\n1..1..\n" |
| Examples.GridDefaultPadding | tests/grid.rs:48-70 | the two-by-two grid with the default padding renders "1.. 1..\n1.. 1..\n" |
| Examples.GridOfTwoRows | src/grid.rs:66-76 | a grid of two rows that render alike writes that output twice |
| Examples.SpansOneSixOne | tests/grid.rs:272-308 | the row of spans 1, 6 and 1, centred, three chars per column, renders ".1. ...........6........... .1." |

## Left out

- The `std::fmt::Formatter` plumbing and the propagation of `fmt::Result`. Output is a
  returned string, and writes never fail.
- The `Cow` borrowed/owned distinction returned by `col_line` and `pad`. It has no effect on
  the text.
- `Display for Grid` only calls `Grid::render`, so `Grids.Rendered` is its output.
- `src/lib.rs` (re-exports and documentation) is not part of this model.
- Display width: the crate counts chars, not terminal columns, and so does the model.
- Rows.Render: does not model the panics. It requires every resolved span to be at least 1,
  because `col_span - 1` underflows otherwise. It also requires that no line Fill has to
  stretch is empty, because the repeat count divides by the line's length. `Renderable`
  states both.
- Grids.Render: requires every row to be renderable (the same preconditions).
- Rows.Pad: requires, for Fill, a non-empty line when it is shorter than the width (the
  division by zero).
- Rows.ColLine: requires the column to have 1 to `max_lines` lines. The renderer always
  satisfies this; for some inputs outside it the Rust code underflows (`len() - 1` at
  src/row.rs:163 for no lines, `max_lines - len()` at src/row.rs:171 and 180 for more lines
  than `max_lines`).
- Rows.ColumnWidthAt: spans and widths are unbounded naturals; the `usize` overflow of
  `col_span * column_width` is not modelled.
- Text.ByteSlice: a Rust slice off a char boundary panics. The model takes the longest
  prefix that fits instead, and `SliceAtCharIndex` shows the renderer only cuts at
  boundaries.
- Grids.Nesting: requires clean lines. A blank char that is a line feed or carriage return,
  or content whose last line ends in a carriage return, would change the lines of the nested
  output.
- The other concrete outputs of `tests/grid.rs` (taller rows, other span mixes, nested grids)
  are not stated as examples; the general lemmas cover what they check.
- Specification functions such as `Rendered`, `Columns` and `LinePrefix` have no
  `ensures` of their own. What they promise is stated by the lemmas and methods above.
