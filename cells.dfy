/** The values a table is made of: alignments, cells and columns. */
module Cells {
  import opened Wrappers
  import TypeHelper

  /** CellAlignmentEnum. */
  datatype CellAlignment = NotSpecified | Left | Right | Center

  /** A cell value: null (or DBNull), or a value given by its ToString() text and its
      runtime type. */
  datatype Cell = Null | Val(text: string, runtimeType: TypeHelper.RuntimeType)

  /** AsciiDataColumn: the alignment of its data cells, the alignment of its caption
      and its caption (None while no caption was set). */
  datatype Column = Column(cellAlignment: CellAlignment, captionAlignment: CellAlignment, caption: Option<string>)

  /** A column as `new AsciiDataColumn()` makes it. */
  const DefaultColumn: Column := Column(NotSpecified, NotSpecified, None)
}
