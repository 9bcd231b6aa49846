/** The fallback settings a row or a grid hands down to its cells. */
module Layout {
  import opened Wrappers
  import opened Cells

  /** `Options`: the four per-cell settings, each possibly unset. */
  datatype Options = Options(
    colSpan: Option<nat>,
    hAlign: Option<HAlign>,
    vAlign: Option<VAlign>,
    blankChar: Option<char>)

  /** Options with nothing set, as `Row::new` and `Grid::new` create them. */
  const Unset: Options := Options(None, None, None, None)
}
