/** AsciiTableGenerator: the table under construction as an object whose methods
    change it in place, and the rendering loops of ToString. Every mutator states
    its new state as a function of the old one (the functions of module Layout),
    and every rendering method is proved to compute what Layout.Render says. */
module Generator {
  import opened Wrappers
  import opened Strings
  import opened Cells
  import opened Layout
  import TypeHelper
  import AlignmentHelper
  import Options
  import TableProperties

  class AsciiTableGenerator {
    const options: Options.Options
    /** The DataTable's columns, in order. */
    var columns: seq<Column>
    /** The DataTable's rows, as they were added. */
    var rows: seq<seq<Cell>>
    var border: bool
    var edge: char
    var top: char
    var bottom: char
    var fill: char
    var equalColumnSize: bool
    var hasCaptions: bool
    var spacing: int

    /** The whole state, options included, as a value. */
    function State(): TableState
      reads this, options
    {
      TableState(columns, rows, border, edge, top, bottom, fill, equalColumnSize, hasCaptions, spacing,
                 options.Snapshot())
    }

    /** What every public method keeps: no row is longer than the column list, and
        the spacing is 1. */
    ghost predicate Valid()
      reads this, options
    {
      WellFormed(State())
    }

    /** `new AsciiTableGenerator(options)`: a new Options when none is given, then
        Clear. */
    constructor (opts: Options.Options?)
      ensures opts != null ==> options == opts && State() == Initial(opts.Snapshot())
      ensures opts == null ==> fresh(options) && State() == Initial(Options.Defaults)
      ensures Valid()
    {
      if opts == null {
        options := new Options.Options();
      } else {
        options := opts;
      }
      columns, rows := [], [];
      border, edge, top, bottom, fill := false, '\0', '\0', '\0', '\0';
      equalColumnSize, hasCaptions, spacing := false, false, 0;
      new;
      Clear();
    }

    /** `new AsciiTableGenerator(title)`: new Options with that title. */
    constructor WithTitle(title: Option<string>)
      ensures fresh(options) && State() == Initial(Options.Defaults.(title := title))
      ensures Valid()
    {
      var opts := new Options.Options();
      opts.SetTitle(title);
      options := opts;
      columns, rows := [], [];
      border, edge, top, bottom, fill := false, '\0', '\0', '\0', '\0';
      equalColumnSize, hasCaptions, spacing := false, false, 0;
      new;
      Clear();
    }

    /** Clear: back to the state of a new generator over the same options, except
        that the equal-column-size setting is kept. */
    method Clear()
      modifies this
      ensures State() == Initial(options.Snapshot()).(equalColumnSize := old(equalColumnSize))
    {
      hasCaptions := false;
      spacing := 1;
      SetBorder(None, None, None, None);
      ClearRows();
    }

    /** ClearRows: the data table loses its rows and its columns. */
    method ClearRows()
      modifies this
      ensures State() == old(State()).(columns := [], rows := [])
    {
      rows := [];
      columns := [];
    }

    /** AddRange: each row added in turn. */
    method AddRange(newRows: seq<seq<Cell>>)
      modifies this
      ensures State() == AddRows(old(State()), newRows)
    {
      for i := 0 to |newRows|
        invariant State() == AddRows(old(State()), newRows[..i])
      {
        assert newRows[..i + 1][..i] == newRows[..i];
        Add(newRows[i]);
      }
      assert newRows[..|newRows|] == newRows;
    }

    /** Add: enough columns for the row, then the row appended. */
    method Add(row: seq<Cell>)
      modifies this
      ensures State() == AddRow(old(State()), row)
    {
      EnsureColumnsExist(|row|);
      rows := rows + [row];
    }

    /** EnsureColumnsExist: default columns appended until there are rowLength. */
    method EnsureColumnsExist(rowLength: int)
      modifies this
      ensures State() == old(State()).(columns := EnsureColumns(old(columns), rowLength))
    {
      if |columns| >= rowLength {
        return;
      }
      var toAdd := rowLength - |columns|;
      ghost var before := columns;
      for i := 0 to toAdd
        invariant columns == before + seq(i, _ => DefaultColumn)
        invariant State() == old(State()).(columns := columns)
      {
        assert seq(i + 1, _ => DefaultColumn) == seq(i, _ => DefaultColumn) + [DefaultColumn];
        columns := columns + [DefaultColumn];
      }
    }

    method SetEqualColumnSize(value: bool)
      modifies this
      ensures State() == old(State()).(equalColumnSize := value)
    {
      equalColumnSize := value;
    }

    /** SetCaptions: captions are on from now on, there are enough columns, and
        caption i goes to column i. */
    method SetCaptions(captions: seq<string>)
      modifies this
      ensures State() == old(State()).(hasCaptions := true, columns := SetCaptionsOn(old(columns), captions))
    {
      hasCaptions := true;
      EnsureColumnsExist(|captions|);
      ghost var grown := columns;
      for index := 0 to |captions|
        invariant |columns| == |grown|
        invariant forall i :: 0 <= i < |grown| ==>
                    columns[i] == if i < index then grown[i].(caption := Some(captions[i])) else grown[i]
        invariant State() == old(State()).(hasCaptions := true, columns := columns)
      {
        columns := columns[index := columns[index].(caption := Some(captions[index]))];
      }
    }

    /** GetColumn: the position of the column at index, after making sure that
        index + 1 columns exist (in 32-bit arithmetic, so int.MaxValue adds none).
        A negative index skips nothing, so it names the first column; the call
        fails (First on nothing) when no column is left after skipping. */
    method GetColumn(index: int) returns (r: Result<nat>)
      requires IntMinValue <= index <= IntMaxValue
      modifies this
      ensures State() == old(State()).(columns := EnsureColumns(old(columns), Increment32(index)))
      ensures r.Ok? <==> if index == IntMaxValue then |old(columns)| > IntMaxValue else (index >= 0 || |old(columns)| > 0)
      ensures r.Ok? ==> r.value == Max(index, 0) && r.value < |columns|
      ensures r.Err? ==> r.error == InvalidOperation
    {
      EnsureColumnsExist(Increment32(index));
      var skip := if index < 0 then 0 else index;
      if skip < |columns| {
        r := Ok(skip);
      } else {
        r := Err(InvalidOperation);
      }
    }

    /** SetAlign: the data alignment of the column GetColumn finds; when it finds
        none, the exception leaves the columns GetColumn added and nothing else
        changed. */
    method SetAlign(index: int, cellAlignment: CellAlignment) returns (r: Result<()>)
      requires IntMinValue <= index <= IntMaxValue
      modifies this
      ensures var expected := SetAlignment(old(columns), index, cellAlignment);
              && (r.Ok? <==> expected.Ok?)
              && (expected.Ok? ==> State() == old(State()).(columns := expected.value))
              && (expected.Err? ==> r == Err(InvalidOperation)
                                    && State() == old(State()).(columns := EnsureColumns(old(columns), Increment32(index))))
    {
      var column := GetColumn(index);
      if column.Err? {
        r := Err(column.error);
        return;
      }
      columns := columns[column.value := columns[column.value].(cellAlignment := cellAlignment)];
      r := Ok(());
    }

    /** SetBorder: draws a border; an edge given alone is used for every glyph, and
        each glyph not given takes its default. */
    method SetBorder(edge: Option<char>, fill: Option<char>, top: Option<char>, bottom: Option<char>)
      modifies this
      ensures State() == WithBorder(old(State()), edge, fill, top, bottom)
    {
      border := true;
      var fill', top', bottom' := fill, top, bottom;
      if fill.None? && top.None? && bottom.None? {
        fill', top', bottom' := edge, edge, edge;
      }
      this.edge := if edge.Some? then edge.value else '|';
      this.fill := if fill'.Some? then fill'.value else '-';
      this.top := if top'.Some? then top'.value else '.';
      this.bottom := if bottom'.Some? then bottom'.value else '\'';
    }

    /** RemoveBorder: no border lines, and blank edges and fill. */
    method RemoveBorder()
      modifies this
      ensures State() == old(State()).(border := false, edge := ' ', fill := ' ')
    {
      border := false;
      edge := ' ';
      fill := ' ';
    }

    function GetTitle(): Option<string>
      reads options
    {
      options.title
    }

    /** SetTitle writes the title into the options; GetTitle reads it back. */
    method SetTitle(name: Option<string>)
      modifies options
      ensures GetTitle() == name
      ensures State() == old(State()).(options := old(options.Snapshot()).(title := name))
    {
      options.SetTitle(name);
    }

    method SetTitleAlign(cellAlignment: CellAlignment)
      modifies options
      ensures State() == old(State()).(options := old(options.Snapshot()).(titleCellAlignment := cellAlignment))
    {
      options.SetTitleCellAlignment(cellAlignment);
    }

    method SetHeadingAlign(cellAlignment: CellAlignment)
      modifies options
      ensures State() == old(State()).(options := old(options.Snapshot()).(captionCellAlignment := cellAlignment))
    {
      options.SetCaptionCellAlignment(cellAlignment);
    }

    method SetDisplayHeader(value: bool)
      modifies options
      ensures State() == old(State()).(options := old(options.Snapshot()).(displayCaptions := value))
    {
      options.SetDisplayCaptions(value);
    }

    /** ListFill: a list of length copies of fill (none for a negative length). */
    static method ListFill<T>(length: int, fill: T) returns (result: seq<T>)
      ensures |result| == Max(length, 0)
      ensures forall i :: 0 <= i < |result| ==> result[i] == fill
    {
      result := [];
      var i := 0;
      while i < length
        invariant |result| == Max(i, 0)
        invariant i <= Max(length, 0)
        invariant forall j :: 0 <= j < |result| ==> result[j] == fill
      {
        result := result + [fill];
        i := i + 1;
      }
    }

    /** The inner loop of GetExtents (lines 444-450): each column's length grows to
        the length of the row's cell in that column when the cell is longer. */
    static method WidenColumns(columnLengths: seq<nat>, row: seq<Cell>) returns (widened: seq<nat>)
      requires |columnLengths| <= |row|
      ensures |widened| == |columnLengths|
      ensures forall j :: 0 <= j < |widened| ==> widened[j] == Max(columnLengths[j], CellLength(row[j]))
    {
      widened := columnLengths;
      for index := 0 to |columnLengths|
        invariant |widened| == |columnLengths|
        invariant forall j :: 0 <= j < index ==> widened[j] == Max(columnLengths[j], CellLength(row[j]))
        invariant forall j :: index <= j < |widened| ==> widened[j] == columnLengths[j]
      {
        var cell := row[index];
        var length := CellLength(cell);
        widened := widened[index := Max(widened[index], length)];
      }
    }

    /** GetExtents: each column's width is the widest of its caption (when captions
        are displayed) and its cells. */
    method GetExtents(headings: seq<Cell>, rows: seq<seq<Cell>>, columns: seq<Column>) returns (info: RenderInfo)
      requires |headings| <= |columns|
      requires forall k :: 0 <= k < |rows| ==> |columns| <= |rows[k]|
      ensures info == ExtentsOf(headings, rows, |columns|, options.displayCaptions && hasCaptions)
    {
      var n := |columns|;
      var show := options.displayCaptions && hasCaptions;
      var columnLengths: seq<nat> := seq(n, _ => 0);
      if show {
        for index := 0 to |headings|
          invariant |columnLengths| == n
          invariant forall j :: 0 <= j < n ==> columnLengths[j] == (if j < index then CellLength(headings[j]) else 0)
        {
          columnLengths := columnLengths[index := CellLength(headings[index])];
        }
      }
      assert forall j :: 0 <= j < n ==> columnLengths[j] == Seed(headings, show, j);
      assert rows[..0] == [];
      for k := 0 to |rows|
        invariant |columnLengths| == n
        invariant forall j :: 0 <= j < n ==> columnLengths[j] == ColumnWidth(Seed(headings, show, j), rows[..k], j)
      {
        columnLengths := WidenColumns(columnLengths, rows[k]);
        forall j | 0 <= j < n
          ensures columnLengths[j] == ColumnWidth(Seed(headings, show, j), rows[..k + 1], j)
        {
          WidthStep(Seed(headings, show, j), rows, k, j);
        }
      }
      assert rows[..|rows|] == rows;
      info := NewRenderInfo(columnLengths, n);
      ExtentsFromWidths(headings, rows, show, columnLengths);
    }

    /** RenderRow: each cell aligned as its column (or, for the caption row, its
        caption) says, in the column's width, then joined between edges. */
    method RenderRow(info: RenderInfo, row: seq<Cell>, padChar: char, isHeader: bool, columns: seq<Column>)
      returns (r: Result<string>)
      requires info.cellCount <= |row| && info.cellCount <= |columns| && info.cellCount <= |info.columnLengths|
      ensures r == Layout.RenderRow(info, row, padChar, isHeader, columns, edge, equalColumnSize,
                                    options.captionCellAlignment)
    {
      var captionFallback := options.captionCellAlignment;
      var equal := equalColumnSize;
      ghost var cells := RowCells(info, row, padChar, isHeader, columns, equal, captionFallback);
      var tmp: seq<string> := [""];
      for index := 0 to info.cellCount
        invariant tmp == [""] + cells[..index]
      {
        var length := if equal then info.maxColumnLength else info.columnLengths[index];
        var use := ResolveAlignment(isHeader, columns[index], captionFallback);
        var cell := AlignCell(use, row[index], length, padChar);
        assert cell == cells[index];
        PrefixGrows(cells, index);
        tmp := tmp + [cell];
      }
      assert cells[..info.cellCount] == cells;
      var front := Join([padChar, edge, padChar], tmp);
      if |front| < 1 {
        r := Err(ArgumentOutOfRange);
        return;
      }
      front := front[1..];
      r := Ok(front + [padChar, edge]);
    }

    /** GetRowSeparator: a row of fill characters drawn with the fill character as
        padding. */
    method GetRowSeparator(info: RenderInfo, columns: seq<Column>) returns (r: Result<string>)
      requires info.cellCount <= |columns| && info.cellCount <= |info.columnLengths|
      ensures r == RowSeparator(info, columns, edge, fill, equalColumnSize, options.captionCellAlignment)
    {
      var blanks := ListFill(info.cellCount, Val([fill], TypeHelper.BuiltIn(TypeHelper.Char)));
      assert blanks == FillCells(info.cellCount, fill);
      r := RenderRow(info, blanks, fill, false, columns);
    }

    /** The width computation of ToString (lines 390-404): three characters per
        column, then each column's width plus the spacing (or the widest width and
        one more when columns are of equal size), less one spacing, and at least
        the title's length plus 2. */
    method MeasureTotalWidth(info: RenderInfo) returns (totalWidth: int)
      ensures totalWidth == TotalWidth(info, equalColumnSize, spacing, options.title)
    {
      totalWidth := info.cellCount * 3;
      var justify := if equalColumnSize then info.maxColumnLength else 0;
      for i := 0 to |info.columnLengths|
        invariant totalWidth == info.cellCount * 3 + WidthSum(info.columnLengths[..i], justify, spacing)
      {
        assert info.columnLengths[..i + 1][..i] == info.columnLengths[..i];
        totalWidth := totalWidth + (if justify > 0 then justify else info.columnLengths[i] + spacing);
      }
      assert info.columnLengths[..|info.columnLengths|] == info.columnLengths;
      if justify > 0 {
        totalWidth := totalWidth + |info.columnLengths|;
      }
      totalWidth := totalWidth - spacing;
      if HasTitle(options.title) && totalWidth < |options.title.value| + 2 {
        totalWidth := |options.title.value| + 2;
      }
    }

    /** The caption section of ToString (lines 416-420): when captions were set,
        the caption row and a row separator. */
    method DrawCaptions(info: RenderInfo) returns (r: Result<seq<string>>)
      requires info.cellCount == |columns| == |info.columnLengths|
      ensures r == CaptionLines(State(), info)
    {
      if !hasCaptions {
        return Ok([]);
      }
      var captions := Captions(columns);
      var captionRow := RenderRow(info, captions, ' ', true, columns);
      if captionRow.Err? {
        return Err(captionRow.error);
      }
      TableProperties.RenderRowOk(info, captions, ' ', true, columns, edge, equalColumnSize,
                                  options.captionCellAlignment);
      TableProperties.RenderRowOk(info, FillCells(info.cellCount, fill), fill, false, columns, edge, equalColumnSize,
                                  options.captionCellAlignment);
      var separator := GetRowSeparator(info, columns);
      r := Ok([captionRow.value, separator.value]);
    }

    /** The data section of ToString (lines 422-425): each row in turn, stopping at
        the first that cannot be drawn. */
    method DrawRows(info: RenderInfo, rows: seq<seq<Cell>>) returns (r: Result<seq<string>>)
      requires info.cellCount <= |columns| && info.cellCount <= |info.columnLengths|
      requires forall k :: 0 <= k < |rows| ==> info.cellCount <= |rows[k]|
      ensures r == DataLines(info, rows, columns, edge, equalColumnSize, options.captionCellAlignment)
    {
      ghost var results := RowResults(info, rows, columns, edge, equalColumnSize, options.captionCellAlignment);
      var lines: seq<string> := [];
      for k := 0 to |rows|
        invariant Collect(results[..k]) == Ok(lines)
      {
        var line := RenderRow(info, rows[k], ' ', false, columns);
        if line.Err? {
          TableProperties.CollectStops(results, k);
          return Err(line.error);
        }
        TableProperties.CollectSnoc(results, k);
        lines := lines + [line.value];
      }
      assert results[..|rows|] == results;
      r := Ok(lines);
    }

    /** The title section of ToString (lines 409-414): the title bar and, with a
        border, the line under it. The width is handed back, since line 411 may
        widen it to the title's length; it never does, as the width already leaves
        the title two more characters. */
    method DrawTitle(cellCount: nat, totalWidth: int) returns (titleLines: seq<string>, width: int)
      requires totalWidth - cellCount + 1 >= 0
      requires HasTitle(options.title) ==> totalWidth >= |options.title.value| + 2 && totalWidth - cellCount + 1 >= 1
      ensures width == totalWidth
      ensures TitleLines(State(), totalWidth - cellCount + 1) == Ok(titleLines)
    {
      ghost var t := State();
      TableProperties.TitleSection(t, totalWidth - cellCount + 1);
      width := totalWidth;
      titleLines := [];
      if HasTitle(options.title) {
        var titleLength := |options.title.value|;
        if width < titleLength {
          width := titleLength;
        }
        assert width == totalWidth;
        var length := width - cellCount + 1;
        var title := RenderTitle(length, options.title, options.titleCellAlignment, edge).value;
        titleLines := [title];
        if border {
          var separator := GetSeparator(length, None, edge, fill).value;
          titleLines := [title, separator];
        }
      }
    }

    /** ToString: the table drawn line by line, or the exception of the first row
        that cannot be drawn; the lines are joined after the prefix (lines
        429-430). */
    method ToString() returns (r: Result<string>)
      requires Valid()
      ensures r == Render(State())
    {
      var lines := DrawLines();
      if lines.Err? {
        return Err(lines.error);
      }
      var prefix := AlignmentHelper.Coalesce(options.prefix);
      r := Ok(prefix + Join(NewLine + prefix, lines.value));
    }

    /** The lines ToString collects (lines 385-427): the extents and the width,
        then the head and the body. */
    method DrawLines() returns (r: Result<seq<string>>)
      requires Valid()
      ensures r == RenderLines(State())
    {
      var info, totalWidth := Measure();
      var t := State();
      var length := totalWidth - info.cellCount + 1;
      TableProperties.TopSection(t, length);
      var topLines := TopLines(t, length).value;
      var titleLines, width := DrawTitle(info.cellCount, totalWidth);
      var body := DrawBody(info, width - info.cellCount + 1);
      TableProperties.RenderLinesAt(t, info, length);
      TableProperties.LinesByHeadAndBody(t, info, length, topLines, titleLines);
      if body.Err? {
        return Err(body.error);
      }
      r := Ok(topLines + titleLines + body.value);
    }

    /** The measuring part of ToString (lines 385-404): the extents of the
        captions and rows, and the total width, which leaves every line room for
        its edges and the title two more characters. */
    method Measure() returns (info: RenderInfo, totalWidth: int)
      requires Valid()
      ensures info == Extents(State())
      ensures info.cellCount == |columns| == |info.columnLengths|
      ensures totalWidth - info.cellCount + 1 == LineLength(State())
      ensures totalWidth - info.cellCount + 1 >= 0
      ensures HasTitle(options.title) ==> totalWidth >= |options.title.value| + 2
      ensures HasTitle(options.title) ==> totalWidth - info.cellCount + 1 >= 1
    {
      ghost var t := State();
      var cellCount := |columns|;
      info := GetExtents(Captions(columns), Rows(rows, cellCount), columns);
      assert info == Extents(t);
      totalWidth := MeasureTotalWidth(info);
      assert totalWidth - cellCount + 1 == LineLength(t);
      TableProperties.LineLengthBounds(t);
    }

    /** The body of ToString (lines 416-427): the caption section, the data rows
        and the bottom border. */
    method DrawBody(info: RenderInfo, length: int) returns (r: Result<seq<string>>)
      requires info.cellCount == |columns| == |info.columnLengths|
      ensures r == TableProperties.BodyLines(State(), info, length)
    {
      var captionLines := DrawCaptions(info);
      if captionLines.Err? {
        return Err(captionLines.error);
      }
      var dataLines := DrawRows(info, Rows(rows, |columns|));
      if dataLines.Err? {
        return Err(dataLines.error);
      }
      var bottomLines := BottomLines(State(), length);
      if bottomLines.Err? {
        return Err(bottomLines.error);
      }
      r := Ok(captionLines.value + dataLines.value + bottomLines.value);
    }
  }

  /** One more row widens a column to that row's cell when it is wider. */
  lemma WidthStep(seed: nat, rows: seq<seq<Cell>>, k: nat, i: nat)
    requires k < |rows| && i < |rows[k]|
    ensures ColumnWidth(seed, rows[..k + 1], i) == Max(ColumnWidth(seed, rows[..k], i), CellLength(rows[k][i]))
  {
    assert rows[..k + 1] == rows[..k] + [rows[k]];
    TableProperties.ColumnWidthSnoc(seed, rows[..k], rows[k], i);
  }

  lemma PrefixGrows(s: seq<string>, i: nat)
    requires i < |s|
    ensures s[..i + 1] == s[..i] + [s[i]]
  {
  }

  /** Widths that agree column by column with the measured widths make the same
      extents. */
  lemma ExtentsFromWidths(headings: seq<Cell>, rows: seq<seq<Cell>>, show: bool, lengths: seq<nat>)
    requires forall j :: 0 <= j < |lengths| ==> lengths[j] == ColumnWidth(Seed(headings, show, j), rows, j)
    ensures NewRenderInfo(lengths, |lengths|) == ExtentsOf(headings, rows, |lengths|, show)
  {
    var n := |lengths|;
    assert lengths == seq(n, i requires 0 <= i < n => ColumnWidth(Seed(headings, show, i), rows, i));
  }
}
