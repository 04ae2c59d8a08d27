/** RenderInfo: the measured extents of a table, with the widest column. The
    column-length dictionary is keyed by column index 0..n-1 and is modelled as a
    sequence. */
module RenderInfo {
  import opened Wrappers
  import Cells

  /** `columnLengths.Any() ? columnLengths.Values.Max() : 0`. */
  function MaxColumnLength(columnLengths: seq<int>): (m: int)
    ensures |columnLengths| == 0 ==> m == 0
    ensures forall i :: 0 <= i < |columnLengths| ==> columnLengths[i] <= m
    ensures |columnLengths| > 0 ==> m in columnLengths
  {
    if |columnLengths| == 0 then 0
    else if |columnLengths| == 1 then columnLengths[0]
    else
      var m := MaxColumnLength(columnLengths[..|columnLengths| - 1]);
      var last := columnLengths[|columnLengths| - 1];
      if m < last then last else m
  }

  /** CellLines: the lines of one cell and the value they came from. */
  datatype CellLines = CellLines(lines: seq<string>, cellValue: Cells.Cell)

  /** RenderInfo: everything but `values` is fixed by the constructor. */
  datatype RenderInfo = RenderInfo(
    maxColumnLength: int,
    columnLengths: seq<int>,
    columnCount: int,
    tabReplacementCharacters: map<int, string>,
    horizontalEdge: char,
    verticalEdge: char,
    values: Option<seq<seq<CellLines>>>)

  /** The RenderInfo constructor: stores its arguments and the widest length. */
  function NewRenderInfo(columnLengths: seq<int>, columnCount: int,
                         tabReplacementCharacters: map<int, string>,
                         horizontalEdge: char, verticalEdge: char): (r: RenderInfo)
    ensures r.columnLengths == columnLengths && r.columnCount == columnCount
    ensures r.tabReplacementCharacters == tabReplacementCharacters
    ensures r.horizontalEdge == horizontalEdge && r.verticalEdge == verticalEdge
    ensures r.values.None?
    ensures |columnLengths| == 0 ==> r.maxColumnLength == 0
    ensures forall i :: 0 <= i < |columnLengths| ==> columnLengths[i] <= r.maxColumnLength
    ensures |columnLengths| > 0 ==> r.maxColumnLength in columnLengths
  {
    RenderInfo(MaxColumnLength(columnLengths), columnLengths, columnCount,
               tabReplacementCharacters, horizontalEdge, verticalEdge, None)
  }

  /** The `Values` setter, the one property writable after construction: it changes
      `values` and leaves every other property as it was. */
  function SetValues(info: RenderInfo, values: seq<seq<CellLines>>): (r: RenderInfo)
    ensures r.values == Some(values)
    ensures r.maxColumnLength == info.maxColumnLength && r.columnLengths == info.columnLengths
    ensures r.columnCount == info.columnCount
    ensures r.tabReplacementCharacters == info.tabReplacementCharacters
    ensures r.horizontalEdge == info.horizontalEdge && r.verticalEdge == info.verticalEdge
  {
    info.(values := Some(values))
  }
}
