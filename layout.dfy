/** The rendering of AsciiTableGenerator as functions of the table's state: column
    widths (GetExtents), alignment of each cell, rows (RenderRow), separators
    (GetRowSeparator, GetSeparator), the title bar (RenderTitle) and the whole text
    (ToString). The generator's methods are proved to compute exactly these. */
module Layout {
  import opened Wrappers
  import opened Strings
  import opened Cells
  import TypeHelper
  import AlignmentHelper
  import RI = RenderInfo
  import Options

  /** Environment.NewLine, fixed. */
  const NewLine: string := "\n"

  /** The whole state of a generator: its column and row lists, its border glyphs
      and flags, and the values of its Options. */
  datatype TableState = TableState(
    columns: seq<Column>,
    rows: seq<seq<Cell>>,
    border: bool,
    edge: char,
    top: char,
    bottom: char,
    fill: char,
    equalColumnSize: bool,
    hasCaptions: bool,
    spacing: int,
    options: Options.OptionsState)

  /** What every reachable state satisfies: no row is longer than the column list,
      and the spacing is the 1 that Clear sets. */
  ghost predicate WellFormed(t: TableState) {
    && (forall k :: 0 <= k < |t.rows| ==> |t.rows[k]| <= |t.columns|)
    && t.spacing == 1
  }

  /** The generator's private RenderInfo (AsciiTableGenerator.cs:497-510). */
  datatype RenderInfo = RenderInfo(maxColumnLength: nat, columnLengths: seq<nat>, cellCount: nat)

  /** Its constructor: stores the lengths and the cell count, and the widest length
      (0 when there are no columns). */
  function NewRenderInfo(columnLengths: seq<nat>, cellCount: nat): (r: RenderInfo)
    ensures r.columnLengths == columnLengths && r.cellCount == cellCount
    ensures forall i :: 0 <= i < |columnLengths| ==> columnLengths[i] <= r.maxColumnLength
    ensures |columnLengths| == 0 ==> r.maxColumnLength == 0
    ensures |columnLengths| > 0 ==> r.maxColumnLength in columnLengths
  {
    var m := RI.MaxColumnLength(columnLengths);
    assert |columnLengths| > 0 ==> exists i :: 0 <= i < |columnLengths| && m == columnLengths[i];
    RenderInfo(m, columnLengths, cellCount)
  }

  // ---------------------------------------------------------------------------
  // Cells

  /** The text of a cell as ToString() gives it, None for null and DBNull. */
  function CellText(c: Cell): Option<string> {
    match c
    case Null => None
    case Val(text, _) => Some(text)
  }

  /** The length GetExtents measures: 0 for null and DBNull, else the text's length. */
  function CellLength(c: Cell): nat {
    |AlignmentHelper.Coalesce(CellText(c))|
  }

  /** Cell i of a stored row; a row shorter than the column list reads DBNull there. */
  function CellAt(row: seq<Cell>, i: nat): Cell {
    if i < |row| then row[i] else Null
  }

  /** A caption as the object GetCaptions returns: a string, or null. */
  function CaptionCell(caption: Option<string>): Cell {
    match caption
    case None => Null
    case Some(s) => Val(s, TypeHelper.BuiltIn(TypeHelper.String))
  }

  /** The generator's AlignAuto test: `cellValue.HasNumericType()`, after a null
      value was replaced by the empty string. */
  predicate IsNumericCell(c: Cell) {
    match c
    case Null => TypeHelper.HasNumericType(Some(TypeHelper.BuiltIn(TypeHelper.String)))
    case Val(_, t) => TypeHelper.HasNumericType(Some(t))
  }

  /** GetCaptions (lines 256-259): the caption of every column. */
  function Captions(columns: seq<Column>): (r: seq<Cell>)
    ensures |r| == |columns|
    ensures forall i :: 0 <= i < |columns| ==> r[i] == CaptionCell(columns[i].caption)
  {
    seq(|columns|, i requires 0 <= i < |columns| => CaptionCell(columns[i].caption))
  }

  /** GetRows (lines 40-43): every row read through the column list, so that each has
      exactly one cell per column. */
  function Rows(rows: seq<seq<Cell>>, n: nat): (r: seq<seq<Cell>>)
    ensures |r| == |rows|
    ensures forall k :: 0 <= k < |rows| ==> |r[k]| == n
    ensures forall k, i :: 0 <= k < |rows| && 0 <= i < n ==> r[k][i] == CellAt(rows[k], i)
  {
    seq(|rows|, k requires 0 <= k < |rows| => seq(n, i requires 0 <= i < n => CellAt(rows[k], i)))
  }

  // ---------------------------------------------------------------------------
  // Widths (GetExtents, lines 433-453)

  /** The value column i starts from: the caption's length when captions are
      displayed and set, else 0. */
  function Seed(headings: seq<Cell>, showCaptions: bool, i: nat): nat {
    if showCaptions && i < |headings| then CellLength(headings[i]) else 0
  }

  /** Width of column i over the given rows, starting from `seed`: the largest of the
      seed and the lengths of the column's cells. */
  function ColumnWidth(seed: nat, rows: seq<seq<Cell>>, i: nat): (w: nat)
    ensures seed <= w
    ensures forall k :: 0 <= k < |rows| ==> CellLength(CellAt(rows[k], i)) <= w
    ensures w == seed || exists k :: 0 <= k < |rows| && w == CellLength(CellAt(rows[k], i))
  {
    if |rows| == 0 then seed
    else
      var w0 := ColumnWidth(seed, rows[..|rows| - 1], i);
      var last := CellLength(CellAt(rows[|rows| - 1], i));
      if w0 < last then last else w0
  }

  /** The extents GetExtents returns for these captions and rows. */
  function ExtentsOf(headings: seq<Cell>, rows: seq<seq<Cell>>, n: nat, showCaptions: bool): (r: RenderInfo)
    ensures r.cellCount == n && |r.columnLengths| == n
  {
    NewRenderInfo(seq(n, i requires 0 <= i < n => ColumnWidth(Seed(headings, showCaptions, i), rows, i)), n)
  }

  /** The extents of a table, as ToString computes them. */
  function Extents(t: TableState): (r: RenderInfo)
    ensures r.cellCount == |t.columns| && |r.columnLengths| == |t.columns|
  {
    ExtentsOf(Captions(t.columns), Rows(t.rows, |t.columns|), |t.columns|,
              t.options.displayCaptions && t.hasCaptions)
  }

  /** The width RenderRow gives column i: the widest column's when columns are of
      equal size, else the column's own. */
  function CellWidth(info: RenderInfo, equalColumnSize: bool, i: nat): nat
    requires i < |info.columnLengths|
  {
    if equalColumnSize then info.maxColumnLength else info.columnLengths[i]
  }

  // ---------------------------------------------------------------------------
  // Alignment

  /** The alignment RenderRow uses for a cell (lines 330-349): for a caption the
      column's caption alignment, else the Options fallback, else Center; for a data
      cell the column's cell alignment. A caption is never aligned automatically. */
  function ResolveAlignment(isHeader: bool, column: Column, captionFallback: CellAlignment): (a: CellAlignment)
    ensures isHeader ==> a != NotSpecified
  {
    if isHeader then
      if column.captionAlignment == NotSpecified then
        if captionFallback == NotSpecified then Center else captionFallback
      else column.captionAlignment
    else column.cellAlignment
  }

  /** How many pad characters come before a value of length `len` in a cell of width
      `length`, for each alignment; NotSpecified is automatic alignment. */
  function LeadingPad(use: CellAlignment, numeric: bool, len: nat, length: nat): nat {
    match use
    case Left => 0
    case Right => if len < length then length - len else 0
    case Center => AlignmentHelper.CenterLead(length - len)
    case NotSpecified => if numeric && len < length then length - len else 0
  }

  /** The AlignDelegate RenderRow's switch selects (lines 351-367), applied to one
      cell: the cell's text, never cut, with pad characters around it as `use` says. */
  function AlignCell(use: CellAlignment, cell: Cell, length: nat, padChar: char): (r: string)
    ensures |r| == Max(length, CellLength(cell))
    ensures AlignmentHelper.PaddedAround(r, AlignmentHelper.Coalesce(CellText(cell)),
                                         LeadingPad(use, IsNumericCell(cell), CellLength(cell), length), padChar)
  {
    var value := CellText(cell);
    var lead := LeadingPad(use, IsNumericCell(cell), CellLength(cell), length);
    assert AlignmentHelper.PadCharOf(Some(padChar)) == padChar;
    assert |AlignmentHelper.Coalesce(value)| == CellLength(cell);
    match use
    case Center =>
      assert AlignmentHelper.CenterLead(length - |AlignmentHelper.Coalesce(value)|) == lead;
      AlignmentHelper.AlignCenter(value, length, Some(padChar))
    case Right =>
      var r := AlignmentHelper.AlignRight(value, length, Some(padChar));
      assert |r.value| - |AlignmentHelper.Coalesce(value)| == lead;
      r.value
    case Left =>
      assert lead == 0;
      AlignmentHelper.AlignLeft(value, length, Some(padChar)).value
    case NotSpecified =>
      var r := AlignmentHelper.AlignAuto(IsNumericCell(cell), value, length, Some(padChar));
      assert IsNumericCell(cell) ==> |r| - |AlignmentHelper.Coalesce(value)| == lead;
      assert !IsNumericCell(cell) ==> lead == 0;
      r
  }

  /** The private Align (lines 66-80), used for the title only: NotSpecified aligns
      left. (Its final AlignAuto is unreachable with four alignments.) */
  function Align(alignment: CellAlignment, value: string, length: int, padChar: char): (r: Result<string>)
    ensures r.Ok? <==> (length >= 0 || alignment == Center)
    ensures r.Ok? ==> |r.value| == Max(length, |value|)
    ensures r.Ok? ==> AlignmentHelper.PaddedAround(r.value, value,
                        match alignment
                        case Center => AlignmentHelper.CenterLead(length - |value|)
                        case Right => |r.value| - |value|
                        case _ => 0, padChar)
  {
    match alignment
    case NotSpecified => AlignmentHelper.AlignLeft(Some(value), length, Some(padChar))
    case Left => AlignmentHelper.AlignLeft(Some(value), length, Some(padChar))
    case Right => AlignmentHelper.AlignRight(Some(value), length, Some(padChar))
    case Center => Ok(AlignmentHelper.AlignCenter(Some(value), length, Some(padChar)))
  }

  // ---------------------------------------------------------------------------
  // Rows

  /** The aligned cells of one row, in column order. */
  function RowCells(info: RenderInfo, row: seq<Cell>, padChar: char, isHeader: bool,
                    columns: seq<Column>, equalColumnSize: bool, captionFallback: CellAlignment): (r: seq<string>)
    requires info.cellCount <= |row| && info.cellCount <= |columns| && info.cellCount <= |info.columnLengths|
    ensures |r| == info.cellCount
  {
    seq(info.cellCount, i requires 0 <= i < info.cellCount =>
      AlignCell(ResolveAlignment(isHeader, columns[i], captionFallback), row[i],
                CellWidth(info, equalColumnSize, i), padChar))
  }

  /** The end of RenderRow (lines 372-374): "" and the cells joined by pad, edge, pad,
      the first character dropped (Substring(1) throws on an empty string), then pad
      and edge appended. */
  function JoinRow(cells: seq<string>, padChar: char, edge: char): Result<string> {
    var front := Join([padChar, edge, padChar], [""] + cells);
    if |front| < 1 then Err(ArgumentOutOfRange) else Ok(front[1..] + [padChar, edge])
  }

  /** RenderRow (lines 319-375). */
  function RenderRow(info: RenderInfo, row: seq<Cell>, padChar: char, isHeader: bool, columns: seq<Column>,
                     edge: char, equalColumnSize: bool, captionFallback: CellAlignment): Result<string>
    requires info.cellCount <= |row| && info.cellCount <= |columns| && info.cellCount <= |info.columnLengths|
  {
    JoinRow(RowCells(info, row, padChar, isHeader, columns, equalColumnSize, captionFallback), padChar, edge)
  }

  /** `ListFill<object>(n, _fill)`: n boxed fill characters. */
  function FillCells(n: nat, fill: char): (r: seq<Cell>)
    ensures |r| == n
  {
    seq(n, _ => Val([fill], TypeHelper.BuiltIn(TypeHelper.Char)))
  }

  /** GetRowSeparator (lines 377-381): a data row of fill characters, padded with the
      fill character. */
  function RowSeparator(info: RenderInfo, columns: seq<Column>, edge: char, fill: char,
                        equalColumnSize: bool, captionFallback: CellAlignment): Result<string>
    requires info.cellCount <= |columns| && info.cellCount <= |info.columnLengths|
  {
    RenderRow(info, FillCells(info.cellCount, fill), fill, false, columns, edge, equalColumnSize, captionFallback)
  }

  /** GetSeparator (lines 455-458): the glyph, then the glyph right-aligned in `length`
      fill characters. It is as wide as one more than the larger of length and 1, and
      holds the glyph at both ends and fill characters in between. */
  function GetSeparator(length: int, sep: Option<char>, edge: char, fill: char): (r: Result<string>)
    ensures r.Ok? <==> length >= 0
    ensures r.Ok? ==> |r.value| == 1 + Max(length, 1)
    ensures r.Ok? ==> var c := if sep.Some? then sep.value else edge;
                      && r.value[0] == c && r.value[|r.value| - 1] == c
                      && forall i :: 0 < i < |r.value| - 1 ==> r.value[i] == fill
  {
    var c := if sep.Some? then sep.value else edge;
    var right :- AlignmentHelper.AlignRight(Some([c]), length, Some(fill));
    Ok([c] + right)
  }

  /** RenderTitle (lines 261-266): " title " aligned with spaces in length - 1
      characters, between two edges. */
  function RenderTitle(length: int, title: Option<string>, alignment: CellAlignment, edge: char): (r: Result<string>)
    ensures r.Ok? <==> (length >= 1 || alignment == Center)
    ensures r.Ok? ==> var name := " " + AlignmentHelper.Coalesce(title) + " ";
                      && |r.value| == 2 + Max(length - 1, |name|)
                      && r.value[0] == edge && r.value[|r.value| - 1] == edge
  {
    var name := " " + AlignmentHelper.Coalesce(title) + " ";
    var str :- Align(alignment, name, length - 1, ' ');
    Ok([edge] + str + [edge])
  }

  /** Inside its edges the title bar holds " title " whole, with spaces around it:
      none in front for Left and NotSpecified, all the free space in front for
      Right, and the rounded half of it in front for Center. */
  lemma TitlePlacement(length: int, title: Option<string>, alignment: CellAlignment, edge: char)
    requires RenderTitle(length, title, alignment, edge).Ok?
    ensures var r := RenderTitle(length, title, alignment, edge).value;
            var name := " " + AlignmentHelper.Coalesce(title) + " ";
            AlignmentHelper.PaddedAround(r[1..|r| - 1], name,
              match alignment
              case Center => AlignmentHelper.CenterLead(length - 1 - |name|)
              case Right => |r| - 2 - |name|
              case _ => 0, ' ')
  {
    var name := " " + AlignmentHelper.Coalesce(title) + " ";
    var str := Align(alignment, name, length - 1, ' ').value;
    assert RenderTitle(length, title, alignment, edge).value[1..|str| + 1] == str;
  }

  // ---------------------------------------------------------------------------
  // The whole table (ToString, lines 383-431)

  /** char.IsWhiteSpace. */
  predicate IsWhiteSpace(c: char) {
    || c == ' ' || ('\t' <= c <= '\r') || c == '\U{0085}' || c == '\U{00A0}' || c == '\U{1680}'
    || ('\U{2000}' <= c <= '\U{200A}') || c == '\U{2028}' || c == '\U{2029}' || c == '\U{202F}'
    || c == '\U{205F}' || c == '\U{3000}'
  }

  /** `!string.IsNullOrWhiteSpace(title)`: a title bar is drawn. */
  predicate HasTitle(title: Option<string>) {
    title.Some? && exists i :: 0 <= i < |title.value| && !IsWhiteSpace(title.value[i])
  }

  /** The foreach of lines 396-397 over the given widths. */
  function WidthSum(columnLengths: seq<nat>, justify: int, spacing: int): int {
    if |columnLengths| == 0 then 0
    else WidthSum(columnLengths[..|columnLengths| - 1], justify, spacing)
         + (if justify > 0 then justify else columnLengths[|columnLengths| - 1] + spacing)
  }

  /** totalWidth as lines 390-401 compute it, before the title may widen it. */
  function NaiveTotalWidth(info: RenderInfo, equalColumnSize: bool, spacing: int): int {
    var justify := if equalColumnSize then info.maxColumnLength else 0;
    info.cellCount * 3 + WidthSum(info.columnLengths, justify, spacing)
      + (if justify > 0 then |info.columnLengths| else 0) - spacing
  }

  /** totalWidth after lines 403-404: raised to the title's length plus 2. */
  function TotalWidth(info: RenderInfo, equalColumnSize: bool, spacing: int, title: Option<string>): int {
    var w := NaiveTotalWidth(info, equalColumnSize, spacing);
    if HasTitle(title) && w < |title.value| + 2 then |title.value| + 2 else w
  }

  /** The top border (line 407). */
  function TopLines(t: TableState, length: int): Result<seq<string>> {
    if t.border then
      var s :- GetSeparator(length, Some(t.top), t.edge, t.fill);
      Ok([s])
    else Ok([])
  }

  /** The title bar and, with a border, the line under it (lines 409-414). */
  function TitleLines(t: TableState, length: int): Result<seq<string>> {
    if HasTitle(t.options.title) then
      var title :- RenderTitle(length, t.options.title, t.options.titleCellAlignment, t.edge);
      if t.border then
        var s :- GetSeparator(length, None, t.edge, t.fill);
        Ok([title, s])
      else Ok([title])
    else Ok([])
  }

  /** The caption row and its separator, whenever captions were set (lines 416-420). */
  function CaptionLines(t: TableState, info: RenderInfo): Result<seq<string>>
    requires info.cellCount == |t.columns| == |info.columnLengths|
  {
    if t.hasCaptions then
      var captionRow :- RenderRow(info, Captions(t.columns), ' ', true, t.columns, t.edge,
                                  t.equalColumnSize, t.options.captionCellAlignment);
      var separator :- RowSeparator(info, t.columns, t.edge, t.fill, t.equalColumnSize,
                                    t.options.captionCellAlignment);
      Ok([captionRow, separator])
    else Ok([])
  }

  /** The lines of several rows rendered in turn: the first failure stops the
      rendering, as the first exception does. */
  function Collect(results: seq<Result<string>>): (r: Result<seq<string>>)
    ensures r.Ok? ==> |r.value| == |results|
  {
    if |results| == 0 then Ok([])
    else
      var init :- Collect(results[..|results| - 1]);
      var line :- results[|results| - 1];
      Ok(init + [line])
  }

  /** Each data row rendered on its own. */
  function RowResults(info: RenderInfo, rows: seq<seq<Cell>>, columns: seq<Column>, edge: char,
                      equalColumnSize: bool, captionFallback: CellAlignment): (r: seq<Result<string>>)
    requires info.cellCount <= |columns| && info.cellCount <= |info.columnLengths|
    requires forall k :: 0 <= k < |rows| ==> info.cellCount <= |rows[k]|
    ensures |r| == |rows|
  {
    seq(|rows|, k requires 0 <= k < |rows| =>
      RenderRow(info, rows[k], ' ', false, columns, edge, equalColumnSize, captionFallback))
  }

  /** The data rows, in order (lines 422-425). */
  function DataLines(info: RenderInfo, rows: seq<seq<Cell>>, columns: seq<Column>, edge: char,
                     equalColumnSize: bool, captionFallback: CellAlignment): (r: Result<seq<string>>)
    requires info.cellCount <= |columns| && info.cellCount <= |info.columnLengths|
    requires forall k :: 0 <= k < |rows| ==> info.cellCount <= |rows[k]|
    ensures r.Ok? ==> |r.value| == |rows|
  {
    Collect(RowResults(info, rows, columns, edge, equalColumnSize, captionFallback))
  }

  /** The bottom border (line 427). */
  function BottomLines(t: TableState, length: int): Result<seq<string>> {
    if t.border then
      var s :- GetSeparator(length, Some(t.bottom), t.edge, t.fill);
      Ok([s])
    else Ok([])
  }

  /** The lines ToString collects, in order, for the given extents and width
      argument: top border, title bar and its separator, caption row and its
      separator, data rows, bottom border. */
  function LinesWith(t: TableState, info: RenderInfo, length: int): Result<seq<string>>
    requires info.cellCount == |t.columns| == |info.columnLengths|
  {
    var top :- TopLines(t, length);
    var title :- TitleLines(t, length);
    var captions :- CaptionLines(t, info);
    var data :- DataLines(info, Rows(t.rows, |t.columns|), t.columns, t.edge, t.equalColumnSize,
                          t.options.captionCellAlignment);
    var bottom :- BottomLines(t, length);
    Ok(top + title + captions + data + bottom)
  }

  /** The width argument ToString passes to GetSeparator and RenderTitle: one more
      than the total width, less one per column. */
  function LineLength(t: TableState): int {
    TotalWidth(Extents(t), t.equalColumnSize, t.spacing, t.options.title) - |t.columns| + 1
  }

  /** The lines of ToString: the table is measured and the sections are drawn. */
  function RenderLines(t: TableState): Result<seq<string>> {
    LinesWith(t, Extents(t), LineLength(t))
  }

  /** ToString: the lines joined by the line separator, each after the prefix (a null
      prefix is ""). */
  function Render(t: TableState): Result<string> {
    var lines :- RenderLines(t);
    var prefix := AlignmentHelper.Coalesce(t.options.prefix);
    Ok(prefix + Join(NewLine + prefix, lines))
  }

  // ---------------------------------------------------------------------------
  // The mutators' effect on the state

  /** The state the constructor leaves (Clear on fresh fields): a bordered table with
      the default glyphs, no columns, no rows, no captions and spacing 1. */
  function Initial(options: Options.OptionsState): (t: TableState)
    ensures WellFormed(t)
  {
    TableState([], [], true, '|', '.', '\'', '-', false, false, 1, options)
  }

  /** The state after Add(row): enough columns for the row, and the row appended. */
  function AddRow(t: TableState, row: seq<Cell>): (r: TableState)
    ensures |r.columns| == Max(|t.columns|, |row|) && r.rows == t.rows + [row]
    ensures r.columns == EnsureColumns(t.columns, |row|)
    ensures r.(columns := t.columns, rows := t.rows) == t
    ensures WellFormed(t) ==> WellFormed(r)
  {
    t.(columns := EnsureColumns(t.columns, |row|), rows := t.rows + [row])
  }

  /** EnsureColumnsExist: default columns appended until there are at least n. */
  function EnsureColumns(columns: seq<Column>, n: int): (r: seq<Column>)
    ensures |r| == Max(|columns|, n)
    ensures r[..|columns|] == columns
    ensures forall i :: |columns| <= i < |r| ==> r[i] == DefaultColumn
  {
    if |columns| >= n then columns else columns + seq(n - |columns|, _ => DefaultColumn)
  }

  /** The columns after SetCaptions: enough columns for the captions, caption i on
      column i, the other columns as they were. */
  function SetCaptionsOn(columns: seq<Column>, captions: seq<string>): (r: seq<Column>)
    ensures |r| == Max(|columns|, |captions|)
    ensures forall i :: 0 <= i < |captions| ==> r[i].caption == Some(captions[i])
    ensures forall i :: 0 <= i < |captions| ==> r[i].cellAlignment == EnsureColumns(columns, |captions|)[i].cellAlignment
    ensures forall i :: 0 <= i < |captions| ==> r[i].captionAlignment == EnsureColumns(columns, |captions|)[i].captionAlignment
    ensures forall i :: |captions| <= i < |r| ==> r[i] == columns[i]
  {
    var grown := EnsureColumns(columns, |captions|);
    seq(|grown|, i requires 0 <= i < |grown| =>
      if i < |captions| then grown[i].(caption := Some(captions[i])) else grown[i])
  }

  /** The state after AddRange(rows): the rows added one by one. The existing
      columns are kept, every added column is a default one, there are enough
      columns for every added row, and nothing else changes. */
  function AddRows(t: TableState, rows: seq<seq<Cell>>): (r: TableState)
    ensures r.rows == t.rows + rows
    ensures |t.columns| <= |r.columns| && r.columns[..|t.columns|] == t.columns
    ensures forall i :: |t.columns| <= i < |r.columns| ==> r.columns[i] == DefaultColumn
    ensures forall k :: 0 <= k < |rows| ==> |rows[k]| <= |r.columns|
    ensures r.(columns := t.columns, rows := t.rows) == t
    ensures WellFormed(t) ==> WellFormed(r)
  {
    if |rows| == 0 then t
    else
      var previous := AddRows(t, rows[..|rows| - 1]);
      var r := AddRow(previous, rows[|rows| - 1]);
      assert r.columns[..|previous.columns|] == previous.columns;
      assert r.columns[..|t.columns|] == previous.columns[..|t.columns|];
      assert forall k :: 0 <= k < |rows| - 1 ==> rows[k] == rows[..|rows| - 1][k];
      r
  }

  /** int.MinValue and int.MaxValue. */
  const IntMinValue: int := -0x8000_0000
  const IntMaxValue: int := 0x7fff_ffff

  /** `index + 1` in C#'s unchecked 32-bit arithmetic: int.MaxValue + 1 wraps to
      int.MinValue. */
  function Increment32(index: int): (r: int)
    requires IntMinValue <= index <= IntMaxValue
    ensures IntMinValue <= r <= IntMaxValue
    ensures r == index + 1 || (index == IntMaxValue && r == IntMinValue)
  {
    if index == IntMaxValue then IntMinValue else index + 1
  }

  /** The columns after SetAlign(index, alignment): GetColumn first ensures index + 1
      columns (a count that wraps to int.MinValue for int.MaxValue, when nothing is
      added), then takes the column at index (Skip of a negative count skips
      nothing, and First on no column throws). */
  function SetAlignment(columns: seq<Column>, index: int, alignment: CellAlignment): (r: Result<seq<Column>>)
    requires IntMinValue <= index <= IntMaxValue
    ensures r.Ok? <==> if index == IntMaxValue then |columns| > IntMaxValue else (index >= 0 || |columns| > 0)
    ensures r.Err? ==> r.error == InvalidOperation
    ensures r.Ok? ==> var grown := EnsureColumns(columns, Increment32(index));
                      var at := Max(index, 0);
                      && |r.value| == Max(|columns|, Increment32(index))
                      && r.value[at].cellAlignment == alignment
                      && r.value[at].captionAlignment == grown[at].captionAlignment
                      && r.value[at].caption == grown[at].caption
                      && forall i :: 0 <= i < |r.value| && i != at ==> r.value[i] == grown[i]
  {
    var grown := EnsureColumns(columns, Increment32(index));
    var at := Max(index, 0);
    if at < |grown| then Ok(grown[at := grown[at].(cellAlignment := alignment)]) else Err(InvalidOperation)
  }

  /** SetAlign(int.MaxValue) throws on any table that fits in memory: the column
      count wraps, no column is added, and Skip(int.MaxValue) leaves nothing. */
  lemma SetAlignMaxIndex(columns: seq<Column>, alignment: CellAlignment)
    requires |columns| <= IntMaxValue
    ensures SetAlignment(columns, IntMaxValue, alignment) == Err(InvalidOperation)
  {
  }

  /** The state after SetBorder(edge, fill, top, bottom): a border is drawn; when
      only the edge is given it is used for all four glyphs, and every glyph not
      given takes its default. */
  function WithBorder(t: TableState, edge: Option<char>, fill: Option<char>, top: Option<char>, bottom: Option<char>): (r: TableState)
    ensures r.border
    ensures r.edge == (if edge.Some? then edge.value else '|')
    ensures fill.None? && top.None? && bottom.None? && edge.Some? ==> r.fill == r.top == r.bottom == edge.value
    ensures fill.Some? ==> r.fill == fill.value
    ensures top.Some? ==> r.top == top.value
    ensures bottom.Some? ==> r.bottom == bottom.value
    ensures !(fill.None? && top.None? && bottom.None? && edge.Some?) ==>
              && r.fill == (if fill.Some? then fill.value else '-')
              && r.top == (if top.Some? then top.value else '.')
              && r.bottom == (if bottom.Some? then bottom.value else '\'')
    ensures r.(border := t.border, edge := t.edge, fill := t.fill, top := t.top, bottom := t.bottom) == t
  {
    var onlyEdge := fill.None? && top.None? && bottom.None?;
    var fill' := if onlyEdge then edge else fill;
    var top' := if onlyEdge then edge else top;
    var bottom' := if onlyEdge then edge else bottom;
    t.(border := true,
       edge := if edge.Some? then edge.value else '|',
       fill := if fill'.Some? then fill'.value else '-',
       top := if top'.Some? then top'.value else '.',
       bottom := if bottom'.Some? then bottom'.value else '\'')
  }
}
