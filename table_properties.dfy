/** What the rendering of a table promises: the shape of every row and separator,
    the width arithmetic of ToString, when rendering succeeds, the order and number
    of lines, the line prefix, and how widths react to an added row. */
module TableProperties {
  import opened Wrappers
  import opened Strings
  import opened Cells
  import TypeHelper
  import AlignmentHelper
  import opened Layout
  import Options

  // ---------------------------------------------------------------------------
  // Reference definitions

  /** A row drawn the obvious way: the edge, then for every cell the pad character,
      the cell, the pad character and the edge. */
  function Framed(cells: seq<string>, pad: char, edge: char): (r: string)
    ensures |r| == SumLengths(cells) + 3 * |cells| + 1
    ensures r[0] == edge && r[|r| - 1] == edge
  {
    if |cells| == 0 then [edge]
    else Framed(cells[..|cells| - 1], pad, edge) + [pad] + cells[|cells| - 1] + [pad, edge]
  }

  function Sum(xs: seq<nat>): nat {
    if |xs| == 0 then 0 else Sum(xs[..|xs| - 1]) + xs[|xs| - 1]
  }

  /** The width every column is drawn with. */
  function EffectiveWidths(info: RenderInfo, equalColumnSize: bool): (r: seq<nat>)
    ensures |r| == |info.columnLengths|
  {
    seq(|info.columnLengths|, i requires 0 <= i < |info.columnLengths| => CellWidth(info, equalColumnSize, i))
  }

  /** An extents record as GetExtents builds it. */
  ghost predicate Consistent(info: RenderInfo) {
    && info.cellCount == |info.columnLengths|
    && forall i :: 0 <= i < |info.columnLengths| ==> info.columnLengths[i] <= info.maxColumnLength
  }

  // ---------------------------------------------------------------------------
  // Rows

  /** The joined front plus the closing pad and edge is the framed row behind one
      extra pad character. */
  lemma {:induction false} JoinedFront(cells: seq<string>, pad: char, edge: char)
    ensures Join([pad, edge, pad], [""] + cells) + [pad, edge] == [pad] + Framed(cells, pad, edge)
  {
    if |cells| > 0 {
      var init := cells[..|cells| - 1];
      var last := cells[|cells| - 1];
      JoinedFront(init, pad, edge);
      assert [""] + cells == ([""] + init) + [last];
      JoinSnoc([pad, edge, pad], [""] + init, last);
      var front := Join([pad, edge, pad], [""] + init);
      calc {
        Join([pad, edge, pad], [""] + cells) + [pad, edge];
        front + [pad, edge, pad] + last + [pad, edge];
        (front + [pad, edge]) + [pad] + last + [pad, edge];
        [pad] + Framed(init, pad, edge) + [pad] + last + [pad, edge];
        [pad] + Framed(cells, pad, edge);
      }
    }
  }

  /** RenderRow's join-then-Substring(1) construction draws exactly the framed row,
      and throws when there is no cell at all. */
  lemma JoinRowFramed(cells: seq<string>, pad: char, edge: char)
    ensures |cells| == 0 ==> JoinRow(cells, pad, edge) == Err(ArgumentOutOfRange)
    ensures |cells| > 0 ==> JoinRow(cells, pad, edge) == Ok(Framed(cells, pad, edge))
  {
    JoinedFront(cells, pad, edge);
    var front := Join([pad, edge, pad], [""] + cells);
    if |cells| > 0 {
      assert front[1..] + [pad, edge] == ([pad] + Framed(cells, pad, edge))[1..];
    }
  }

  /** A rendered row succeeds exactly when the table has a column. */
  lemma RenderRowOk(info: RenderInfo, row: seq<Cell>, padChar: char, isHeader: bool, columns: seq<Column>,
                    edge: char, equalColumnSize: bool, captionFallback: CellAlignment)
    requires info.cellCount <= |row| && info.cellCount <= |columns| && info.cellCount <= |info.columnLengths|
    ensures RenderRow(info, row, padChar, isHeader, columns, edge, equalColumnSize, captionFallback).Ok?
            <==> info.cellCount > 0
    ensures info.cellCount > 0 ==>
              RenderRow(info, row, padChar, isHeader, columns, edge, equalColumnSize, captionFallback)
              == Ok(Framed(RowCells(info, row, padChar, isHeader, columns, equalColumnSize, captionFallback), padChar, edge))
  {
    JoinRowFramed(RowCells(info, row, padChar, isHeader, columns, equalColumnSize, captionFallback), padChar, edge);
  }

  lemma {:induction false} SumLengthsOf(parts: seq<string>, widths: seq<nat>)
    requires |parts| == |widths|
    requires forall i :: 0 <= i < |parts| ==> |parts[i]| == widths[i]
    ensures SumLengths(parts) == Sum(widths)
  {
    if |parts| > 0 {
      SumLengthsOf(parts[..|parts| - 1], widths[..|widths| - 1]);
    }
  }

  /** When every cell fits its column, each aligned cell is exactly as wide as its
      column, still holds the whole cell text, and the row is the framed row of
      length Σw + 3n + 1. */
  lemma FittingRow(info: RenderInfo, row: seq<Cell>, padChar: char, isHeader: bool, columns: seq<Column>,
                   edge: char, equalColumnSize: bool, captionFallback: CellAlignment)
    requires Consistent(info) && info.cellCount > 0
    requires info.cellCount <= |row| && info.cellCount <= |columns|
    requires forall i :: 0 <= i < info.cellCount ==> CellLength(row[i]) <= CellWidth(info, equalColumnSize, i)
    ensures var cells := RowCells(info, row, padChar, isHeader, columns, equalColumnSize, captionFallback);
            && (forall i :: 0 <= i < info.cellCount ==> |cells[i]| == CellWidth(info, equalColumnSize, i))
            && RenderRow(info, row, padChar, isHeader, columns, edge, equalColumnSize, captionFallback)
               == Ok(Framed(cells, padChar, edge))
            && |Framed(cells, padChar, edge)| == Sum(EffectiveWidths(info, equalColumnSize)) + 3 * info.cellCount + 1
  {
    var cells := RowCells(info, row, padChar, isHeader, columns, equalColumnSize, captionFallback);
    RenderRowOk(info, row, padChar, isHeader, columns, edge, equalColumnSize, captionFallback);
    SumLengthsOf(cells, EffectiveWidths(info, equalColumnSize));
  }

  // ---------------------------------------------------------------------------
  // Separators

  /** Every separator cell is the fill character repeated to the column's width, or
      once for a width-0 column, whatever the column's alignment. */
  lemma SeparatorCell(use: CellAlignment, fill: char, width: nat)
    ensures AlignCell(use, Val([fill], TypeHelper.BuiltIn(TypeHelper.Char)), width, fill) == Repeat(fill, Max(width, 1))
  {
    var cell := Val([fill], TypeHelper.BuiltIn(TypeHelper.Char));
    var r := AlignCell(use, cell, width, fill);
    var before := LeadingPad(use, IsNumericCell(cell), CellLength(cell), width);
    assert r[before..before + 1] == [fill];
    assert forall i :: 0 <= i < |r| ==> r[i] == fill by {
      forall i | 0 <= i < |r| ensures r[i] == fill {
        if i == before {
          assert r[i] == r[before..before + 1][0];
        }
      }
    }
  }

  lemma {:induction false} FramedOver(cells: seq<string>, pad: char, edge: char)
    requires forall i, j :: 0 <= i < |cells| && 0 <= j < |cells[i]| ==> cells[i][j] == pad
    ensures forall j :: 0 <= j < |Framed(cells, pad, edge)| ==>
              Framed(cells, pad, edge)[j] == pad || Framed(cells, pad, edge)[j] == edge
  {
    if |cells| > 0 {
      var init := cells[..|cells| - 1];
      FramedOver(init, pad, edge);
      var last := cells[|cells| - 1];
      assert Framed(cells, pad, edge) == Framed(init, pad, edge) + ([pad] + last + [pad, edge]);
      forall j | 0 <= j < |[pad] + last + [pad, edge]|
        ensures ([pad] + last + [pad, edge])[j] == pad || ([pad] + last + [pad, edge])[j] == edge
      {
        if 1 <= j <= |last| {
          assert ([pad] + last + [pad, edge])[j] == last[j - 1];
        }
      }
    }
  }

  /** The width each column takes in the row separator. */
  function SeparatorWidths(info: RenderInfo, equalColumnSize: bool): (r: seq<nat>)
    ensures |r| == |info.columnLengths|
  {
    seq(|info.columnLengths|, i requires 0 <= i < |info.columnLengths| => Max(CellWidth(info, equalColumnSize, i), 1))
  }

  lemma SeparatorCells(info: RenderInfo, columns: seq<Column>, fill: char, equalColumnSize: bool,
                       captionFallback: CellAlignment)
    requires Consistent(info) && info.cellCount <= |columns|
    ensures var cells := RowCells(info, FillCells(info.cellCount, fill), fill, false, columns, equalColumnSize, captionFallback);
            forall i :: 0 <= i < info.cellCount ==> cells[i] == Repeat(fill, SeparatorWidths(info, equalColumnSize)[i])
  {
    var cells := RowCells(info, FillCells(info.cellCount, fill), fill, false, columns, equalColumnSize, captionFallback);
    forall i | 0 <= i < info.cellCount
      ensures cells[i] == Repeat(fill, SeparatorWidths(info, equalColumnSize)[i])
    {
      SeparatorCell(ResolveAlignment(false, columns[i], captionFallback), fill, CellWidth(info, equalColumnSize, i));
    }
  }

  /** The row separator (GetRowSeparator) is drawn from the edge and fill characters
      only; each column contributes max(w, 1) fill characters, so its length is
      Σmax(w, 1) + 3n + 1, and for columns at least 1 wide it is exactly as long as
      a fitting data row. */
  lemma RowSeparatorShape(info: RenderInfo, columns: seq<Column>, edge: char, fill: char,
                          equalColumnSize: bool, captionFallback: CellAlignment)
    requires Consistent(info) && info.cellCount > 0 && info.cellCount <= |columns|
    ensures var r := RowSeparator(info, columns, edge, fill, equalColumnSize, captionFallback);
            && r.Ok?
            && |r.value| == Sum(SeparatorWidths(info, equalColumnSize)) + 3 * info.cellCount + 1
            && (forall j :: 0 <= j < |r.value| ==> r.value[j] == fill || r.value[j] == edge)
            && ((forall i :: 0 <= i < info.cellCount ==> 1 <= CellWidth(info, equalColumnSize, i)) ==>
                  |r.value| == Sum(EffectiveWidths(info, equalColumnSize)) + 3 * info.cellCount + 1)
  {
    var n := info.cellCount;
    var cells := RowCells(info, FillCells(n, fill), fill, false, columns, equalColumnSize, captionFallback);
    SeparatorCells(info, columns, fill, equalColumnSize, captionFallback);
    RenderRowOk(info, FillCells(n, fill), fill, false, columns, edge, equalColumnSize, captionFallback);
    SumLengthsOf(cells, SeparatorWidths(info, equalColumnSize));
    FramedOver(cells, fill, edge);
    if forall i :: 0 <= i < n ==> 1 <= CellWidth(info, equalColumnSize, i) {
      assert SeparatorWidths(info, equalColumnSize) == EffectiveWidths(info, equalColumnSize);
    }
  }

  /** GetSeparator draws the glyph, length - 1 fill characters (none when length is
      0 or 1) and the glyph again. */
  lemma SeparatorLine(length: nat, sep: Option<char>, edge: char, fill: char)
    ensures var c := if sep.Some? then sep.value else edge;
            GetSeparator(length, sep, edge, fill) == Ok([c] + Repeat(fill, Max(length, 1) - 1) + [c])
  {
    var c := if sep.Some? then sep.value else edge;
    var r := GetSeparator(length, sep, edge, fill).value;
    assert r == [c] + Repeat(fill, Max(length, 1) - 1) + [c];
  }

  // ---------------------------------------------------------------------------
  // Widths

  lemma {:induction false} WidthSumFormula(lengths: seq<nat>, equalColumnSize: bool, m: nat)
    requires forall i :: 0 <= i < |lengths| ==> lengths[i] <= m
    ensures WidthSum(lengths, if equalColumnSize then m else 0, 1) + (if equalColumnSize && m > 0 then |lengths| else 0)
            == Sum(seq(|lengths|, i requires 0 <= i < |lengths| => if equalColumnSize then m else lengths[i])) + |lengths|
  {
    if |lengths| > 0 {
      var init := lengths[..|lengths| - 1];
      WidthSumFormula(init, equalColumnSize, m);
      var ws := seq(|lengths|, i requires 0 <= i < |lengths| => if equalColumnSize then m else lengths[i]);
      assert ws[..|ws| - 1] == seq(|init|, i requires 0 <= i < |init| => if equalColumnSize then m else init[i]);
    }
  }

  /** ToString's totalWidth before the title is considered: Σw + 4n - 1 with the
      drawn widths w, both for own and for equal column widths. */
  lemma TotalWidthFormula(info: RenderInfo, equalColumnSize: bool)
    requires Consistent(info)
    ensures NaiveTotalWidth(info, equalColumnSize, 1) == Sum(EffectiveWidths(info, equalColumnSize)) + 4 * info.cellCount - 1
  {
    var lengths, m := info.columnLengths, info.maxColumnLength;
    WidthSumFormula(lengths, equalColumnSize, m);
    var ws := seq(|lengths|, i requires 0 <= i < |lengths| => if equalColumnSize then m else lengths[i]);
    assert EffectiveWidths(info, equalColumnSize) == ws;
    var justify := if equalColumnSize then m else 0;
    assert NaiveTotalWidth(info, equalColumnSize, 1)
        == info.cellCount * 3 + WidthSum(lengths, justify, 1) + (if justify > 0 then |lengths| else 0) - 1;
  }

  lemma ExtentsOfFit(headings: seq<Cell>, rows: seq<seq<Cell>>, n: nat, showCaptions: bool)
    ensures Consistent(ExtentsOf(headings, rows, n, showCaptions))
    ensures forall k, i :: 0 <= k < |rows| && 0 <= i < n ==>
              CellLength(CellAt(rows[k], i)) <= ExtentsOf(headings, rows, n, showCaptions).columnLengths[i]
    ensures showCaptions ==> forall i :: 0 <= i < n && i < |headings| ==>
              CellLength(headings[i]) <= ExtentsOf(headings, rows, n, showCaptions).columnLengths[i]
  {
    var info := ExtentsOf(headings, rows, n, showCaptions);
    assert forall i :: 0 <= i < n ==> info.columnLengths[i] == ColumnWidth(Seed(headings, showCaptions, i), rows, i);
  }

  /** The extents of a table are consistent, and every cell of a stored row (and
      every caption, when captions are displayed) fits its column. */
  lemma ExtentsFit(t: TableState)
    ensures Consistent(Extents(t))
    ensures forall k, i :: 0 <= k < |t.rows| && 0 <= i < |t.columns| ==>
              CellLength(CellAt(t.rows[k], i)) <= CellWidth(Extents(t), t.equalColumnSize, i)
    ensures t.options.displayCaptions && t.hasCaptions ==>
              forall i :: 0 <= i < |t.columns| ==>
                CellLength(CaptionCell(t.columns[i].caption)) <= CellWidth(Extents(t), t.equalColumnSize, i)
  {
    var n := |t.columns|;
    var rows := Rows(t.rows, n);
    var headings := Captions(t.columns);
    var show := t.options.displayCaptions && t.hasCaptions;
    var info := Extents(t);
    assert info == ExtentsOf(headings, rows, n, show);
    ExtentsOfFit(headings, rows, n, show);
    forall k, i | 0 <= k < |t.rows| && 0 <= i < n
      ensures CellLength(CellAt(t.rows[k], i)) <= CellWidth(info, t.equalColumnSize, i)
    {
      assert CellAt(rows[k], i) == CellAt(t.rows[k], i);
      assert CellLength(CellAt(rows[k], i)) <= info.columnLengths[i];
    }
    if show {
      forall i | 0 <= i < n
        ensures CellLength(CaptionCell(t.columns[i].caption)) <= CellWidth(info, t.equalColumnSize, i)
      {
        assert headings[i] == CaptionCell(t.columns[i].caption);
      }
    }
  }

  /** With equal column sizes every column is drawn as wide as the widest one. */
  lemma EqualColumns(t: TableState)
    requires t.equalColumnSize
    ensures forall i :: 0 <= i < |t.columns| ==>
              Extents(t).columnLengths[i] <= CellWidth(Extents(t), true, i) == Extents(t).maxColumnLength
  {
  }

  // ---------------------------------------------------------------------------
  // The whole table

  /** Number of lines before the caption row: the top border and the title bar with
      its separator. */
  function HeadCount(t: TableState): nat {
    (if t.border then 1 else 0) + (if HasTitle(t.options.title) then (if t.border then 2 else 1) else 0)
  }

  /** Rendering rows in turn succeeds exactly when every row does, and then gives
      each row's line at the row's position. */
  lemma {:induction false} CollectOk(results: seq<Result<string>>)
    ensures Collect(results).Ok? <==> forall k :: 0 <= k < |results| ==> results[k].Ok?
    ensures Collect(results).Ok? ==> forall k :: 0 <= k < |results| ==> Collect(results).value[k] == results[k].value
  {
    if |results| > 0 {
      var init := results[..|results| - 1];
      CollectOk(init);
      assert forall k :: 0 <= k < |init| ==> init[k] == results[k];
    }
  }

  lemma DataLinesAre(info: RenderInfo, rows: seq<seq<Cell>>, columns: seq<Column>, edge: char,
                     equalColumnSize: bool, captionFallback: CellAlignment)
    requires info.cellCount <= |columns| && info.cellCount <= |info.columnLengths|
    requires forall k :: 0 <= k < |rows| ==> info.cellCount <= |rows[k]|
    ensures DataLines(info, rows, columns, edge, equalColumnSize, captionFallback).Ok?
            <==> forall k :: 0 <= k < |rows| ==> RenderRow(info, rows[k], ' ', false, columns, edge, equalColumnSize, captionFallback).Ok?
    ensures DataLines(info, rows, columns, edge, equalColumnSize, captionFallback).Ok? ==>
              forall k :: 0 <= k < |rows| ==>
                DataLines(info, rows, columns, edge, equalColumnSize, captionFallback).value[k]
                == RenderRow(info, rows[k], ' ', false, columns, edge, equalColumnSize, captionFallback).value
  {
    var results := RowResults(info, rows, columns, edge, equalColumnSize, captionFallback);
    CollectOk(results);
    assert forall k :: 0 <= k < |rows| ==>
      results[k] == RenderRow(info, rows[k], ' ', false, columns, edge, equalColumnSize, captionFallback);
  }


  /** Rendering one more row that succeeds appends its line. */
  lemma CollectSnoc(results: seq<Result<string>>, k: nat)
    requires k < |results| && Collect(results[..k]).Ok? && results[k].Ok?
    ensures Collect(results[..k + 1]) == Ok(Collect(results[..k]).value + [results[k].value])
  {
    assert results[..k + 1][..k] == results[..k];
  }

  /** The first row that fails decides the outcome: its error is the error of the
      whole rendering, whatever the rows after it. */
  lemma {:induction false} CollectStops(results: seq<Result<string>>, k: nat)
    requires k < |results| && Collect(results[..k]).Ok? && results[k].Err?
    ensures Collect(results) == Err(results[k].error)
    decreases |results|
  {
    var last := |results| - 1;
    if last == k {
      assert results[..last] == results[..k];
    } else {
      assert results[..last][..k] == results[..k];
      CollectStops(results[..last], k);
    }
  }

  /** The top border, drawn at a width that is not negative. */
  lemma TopSection(t: TableState, length: int)
    requires length >= 0
    ensures TopLines(t, length) == Ok(if t.border then [GetSeparator(length, Some(t.top), t.edge, t.fill).value] else [])
  {
  }

  /** The title bar and its separator, drawn at a width that leaves the title room. */
  lemma TitleSection(t: TableState, length: int)
    requires length >= 0 && (HasTitle(t.options.title) ==> length >= 1)
    ensures TitleLines(t, length)
            == Ok(if !HasTitle(t.options.title) then []
                  else if t.border
                  then [RenderTitle(length, t.options.title, t.options.titleCellAlignment, t.edge).value,
                        GetSeparator(length, None, t.edge, t.fill).value]
                  else [RenderTitle(length, t.options.title, t.options.titleCellAlignment, t.edge).value])
  {
  }


  /** The caption row and its separator, when both can be drawn. */
  lemma CaptionSectionOf(t: TableState, info: RenderInfo)
    requires info.cellCount == |t.columns| == |info.columnLengths|
    requires t.hasCaptions ==>
               && RenderRow(info, Captions(t.columns), ' ', true, t.columns, t.edge, t.equalColumnSize,
                            t.options.captionCellAlignment).Ok?
               && RowSeparator(info, t.columns, t.edge, t.fill, t.equalColumnSize, t.options.captionCellAlignment).Ok?
    ensures CaptionLines(t, info)
            == Ok(if t.hasCaptions
                  then [RenderRow(info, Captions(t.columns), ' ', true, t.columns, t.edge, t.equalColumnSize,
                                  t.options.captionCellAlignment).value,
                        RowSeparator(info, t.columns, t.edge, t.fill, t.equalColumnSize, t.options.captionCellAlignment).value]
                  else [])
  {
  }

  /** The lines of ToString, drawn at its measured extents and width argument. */
  lemma RenderLinesAt(t: TableState, info: RenderInfo, length: int)
    requires info == Extents(t) && length == LineLength(t)
    ensures RenderLines(t) == LinesWith(t, info, length)
  {
  }

  /** The lines under the title: the caption section, the data rows and the bottom
      border, or the error of the first of them that cannot be drawn. */
  function BodyLines(t: TableState, info: RenderInfo, length: int): Result<seq<string>>
    requires info.cellCount == |t.columns| == |info.columnLengths|
  {
    var captions :- CaptionLines(t, info);
    var data :- DataLines(info, Rows(t.rows, |t.columns|), t.columns, t.edge, t.equalColumnSize,
                          t.options.captionCellAlignment);
    var bottom :- BottomLines(t, length);
    Ok(captions + data + bottom)
  }

  /** Once the head is drawn, the table's lines are the head followed by the body,
      and a body that fails fails the whole table with its error. */
  lemma LinesByHeadAndBody(t: TableState, info: RenderInfo, length: int, top: seq<string>, title: seq<string>)
    requires info.cellCount == |t.columns| == |info.columnLengths|
    requires TopLines(t, length) == Ok(top) && TitleLines(t, length) == Ok(title)
    ensures BodyLines(t, info, length).Err? ==> LinesWith(t, info, length) == Err(BodyLines(t, info, length).error)
    ensures BodyLines(t, info, length).Ok? ==> LinesWith(t, info, length) == Ok(top + title + BodyLines(t, info, length).value)
  {
    var captions := CaptionLines(t, info);
    var data := DataLines(info, Rows(t.rows, |t.columns|), t.columns, t.edge, t.equalColumnSize,
                          t.options.captionCellAlignment);
    var bottom := BottomLines(t, length);
    if captions.Err? {
      assert LinesWith(t, info, length) == Err(captions.error);
    } else if data.Err? {
      assert LinesWith(t, info, length) == Err(data.error);
    } else if bottom.Ok? {
      assert LinesWith(t, info, length) == Ok(top + title + captions.value + data.value + bottom.value);
      AppendRegroups(top, title, captions.value, data.value, bottom.value);
    }
  }

  lemma AppendRegroups(a: seq<string>, b: seq<string>, c: seq<string>, d: seq<string>, e: seq<string>)
    ensures a + b + c + d + e == a + b + (c + d + e)
  {
  }

  /** The bottom border, drawn at a width that is not negative. */
  lemma BottomSection(t: TableState, length: int)
    requires length >= 0
    ensures BottomLines(t, length) == Ok(if t.border then [GetSeparator(length, Some(t.bottom), t.edge, t.fill).value] else [])
  {
  }

  /** The width argument is never negative, leaves room for the title, and with
      columns is at least 3 per column. */
  lemma LineLengthBounds(t: TableState)
    requires WellFormed(t)
    ensures LineLength(t) >= 0
    ensures HasTitle(t.options.title) ==> LineLength(t) >= |t.options.title.value| + 3 - |t.columns|
    ensures HasTitle(t.options.title) ==> LineLength(t) >= 1
    ensures LineLength(t) >= 3 * |t.columns|
  {
    ExtentsFit(t);
    TotalWidthFormula(Extents(t), t.equalColumnSize);
  }

  lemma CaptionLinesOk(t: TableState)
    requires WellFormed(t)
    ensures CaptionLines(t, Extents(t)).Ok? <==> (!t.hasCaptions || |t.columns| > 0)
  {
    var info := Extents(t);
    ExtentsFit(t);
    RenderRowOk(info, Captions(t.columns), ' ', true, t.columns, t.edge, t.equalColumnSize, t.options.captionCellAlignment);
    if |t.columns| > 0 {
      RowSeparatorShape(info, t.columns, t.edge, t.fill, t.equalColumnSize, t.options.captionCellAlignment);
    }
  }

  lemma TableDataLinesOk(t: TableState)
    requires WellFormed(t)
    ensures var info := Extents(t);
            DataLines(info, Rows(t.rows, |t.columns|), t.columns, t.edge, t.equalColumnSize, t.options.captionCellAlignment).Ok?
            <==> (|t.rows| == 0 || |t.columns| > 0)
  {
    var info := Extents(t);
    var rows := Rows(t.rows, |t.columns|);
    DataLinesAre(info, rows, t.columns, t.edge, t.equalColumnSize, t.options.captionCellAlignment);
    if |t.rows| > 0 {
      RenderRowOk(info, rows[0], ' ', false, t.columns, t.edge, t.equalColumnSize, t.options.captionCellAlignment);
    }
    if |t.columns| > 0 {
      forall k | 0 <= k < |rows|
        ensures RenderRow(info, rows[k], ' ', false, t.columns, t.edge, t.equalColumnSize, t.options.captionCellAlignment).Ok?
      {
        RenderRowOk(info, rows[k], ' ', false, t.columns, t.edge, t.equalColumnSize, t.options.captionCellAlignment);
      }
    }
  }

  /** ToString succeeds exactly when the table has a column, or has neither a
      caption row nor a data row to draw (a row over no columns makes
      "".Substring(1) throw). */
  lemma RenderOkIff(t: TableState)
    requires WellFormed(t)
    ensures Render(t).Ok? <==> (|t.columns| > 0 || (!t.hasCaptions && |t.rows| == 0))
  {
    var length := LineLength(t);
    LineLengthBounds(t);
    CaptionLinesOk(t);
    TableDataLinesOk(t);
    assert TopLines(t, length).Ok? && TitleLines(t, length).Ok? && BottomLines(t, length).Ok?;
  }

  /** The sections of ToString's output, each drawn by its own function. */
  lemma Sections(t: TableState)
    requires RenderLines(t).Ok?
    ensures var info := Extents(t);
            var length := LineLength(t);
            var rows := Rows(t.rows, |t.columns|);
            var data := DataLines(info, rows, t.columns, t.edge, t.equalColumnSize, t.options.captionCellAlignment);
            && TopLines(t, length).Ok? && TitleLines(t, length).Ok? && CaptionLines(t, info).Ok?
            && data.Ok? && BottomLines(t, length).Ok?
            && RenderLines(t).value
               == TopLines(t, length).value + TitleLines(t, length).value + CaptionLines(t, info).value
                  + data.value + BottomLines(t, length).value
  {
  }

  /** The number of lines: the borders, the title bar with its separator, the caption
      row with the row separator (drawn whenever captions were set, displayed or
      not) and one line per data row. */
  lemma LineCount(t: TableState)
    requires RenderLines(t).Ok?
    ensures |RenderLines(t).value| == HeadCount(t) + (if t.hasCaptions then 2 else 0) + |t.rows| + (if t.border then 1 else 0)
  {
    Sections(t);
  }

  /** The first line is the top border and the last the bottom border. */
  lemma BorderLines(t: TableState)
    requires RenderLines(t).Ok? && t.border
    ensures var ls := RenderLines(t).value;
            && |ls| >= 2
            && ls[0] == GetSeparator(LineLength(t), Some(t.top), t.edge, t.fill).value
            && ls[|ls| - 1] == GetSeparator(LineLength(t), Some(t.bottom), t.edge, t.fill).value
  {
    Sections(t);
  }

  lemma SectionIndex(top: seq<string>, title: seq<string>, captions: seq<string>, data: seq<string>, bottom: seq<string>)
    ensures var ls := top + title + captions + data + bottom;
            && (forall j :: 0 <= j < |title| ==> ls[|top| + j] == title[j])
            && (forall j :: 0 <= j < |captions| ==> ls[|top| + |title| + j] == captions[j])
            && (forall j :: 0 <= j < |data| ==> ls[|top| + |title| + |captions| + j] == data[j])
  {
  }

  /** The title bar comes right after the top border, followed by a separator when
      there is a border. */
  lemma TitleLine(t: TableState)
    requires RenderLines(t).Ok? && HasTitle(t.options.title)
    ensures |RenderLines(t).value| >= (if t.border then 3 else 1)
    ensures var ls := RenderLines(t).value;
            && ls[if t.border then 1 else 0]
               == RenderTitle(LineLength(t), t.options.title, t.options.titleCellAlignment, t.edge).value
            && (t.border ==> ls[2] == GetSeparator(LineLength(t), None, t.edge, t.fill).value)
  {
    Sections(t);
    var length := LineLength(t);
    var info := Extents(t);
    var top, title, captions, bottom := TopLines(t, length).value, TitleLines(t, length).value,
                                        CaptionLines(t, info).value, BottomLines(t, length).value;
    var data := DataLines(info, Rows(t.rows, |t.columns|), t.columns, t.edge, t.equalColumnSize,
                          t.options.captionCellAlignment).value;
    SectionIndex(top, title, captions, data, bottom);
    assert RenderLines(t).value == top + title + captions + data + bottom;
    assert |top| == if t.border then 1 else 0;
    assert title[0] == RenderTitle(length, t.options.title, t.options.titleCellAlignment, t.edge).value;
    assert t.border ==> title[1] == GetSeparator(length, None, t.edge, t.fill).value;
  }

  /** The caption row and the row separator follow the title. */
  lemma CaptionLine(t: TableState)
    requires RenderLines(t).Ok? && t.hasCaptions
    ensures |RenderLines(t).value| >= HeadCount(t) + 2
    ensures var ls := RenderLines(t).value;
            var info := Extents(t);
            && ls[HeadCount(t)] == RenderRow(info, Captions(t.columns), ' ', true, t.columns, t.edge,
                                             t.equalColumnSize, t.options.captionCellAlignment).value
            && ls[HeadCount(t) + 1] == RowSeparator(info, t.columns, t.edge, t.fill, t.equalColumnSize,
                                                    t.options.captionCellAlignment).value
  {
    Sections(t);
    var length := LineLength(t);
    var info := Extents(t);
    var head := TopLines(t, length).value + TitleLines(t, length).value;
    var captions := CaptionLines(t, info).value;
    var data := DataLines(info, Rows(t.rows, |t.columns|), t.columns, t.edge, t.equalColumnSize,
                          t.options.captionCellAlignment).value;
    HeadSize(t, length);
    CaptionSection(t, info);
    SecondSectionAt(RenderLines(t).value, head, captions, data, BottomLines(t, length).value, 0);
    SecondSectionAt(RenderLines(t).value, head, captions, data, BottomLines(t, length).value, 1);
  }

  /** Line k of the second of four sections sits k lines after the first. */
  lemma SecondSectionAt(ls: seq<string>, first: seq<string>, second: seq<string>, third: seq<string>,
                        fourth: seq<string>, k: nat)
    requires ls == first + second + third + fourth && k < |second|
    ensures |ls| > |first| + k && ls[|first| + k] == second[k]
  {
  }


  lemma CaptionCount(t: TableState, info: RenderInfo)
    requires info.cellCount == |t.columns| == |info.columnLengths|
    ensures CaptionLines(t, info).Ok? ==> |CaptionLines(t, info).value| == if t.hasCaptions then 2 else 0
  {
  }

  lemma CaptionSection(t: TableState, info: RenderInfo)
    requires info.cellCount == |t.columns| == |info.columnLengths|
    requires t.hasCaptions && CaptionLines(t, info).Ok?
    ensures |CaptionLines(t, info).value| == 2
    ensures CaptionLines(t, info).value[0] == RenderRow(info, Captions(t.columns), ' ', true, t.columns, t.edge,
                                                        t.equalColumnSize, t.options.captionCellAlignment).value
    ensures CaptionLines(t, info).value[1] == RowSeparator(info, t.columns, t.edge, t.fill, t.equalColumnSize,
                                                           t.options.captionCellAlignment).value
  {
  }

  /** Data row k is drawn after the head and caption lines, in the order of the rows. */
  lemma DataLine(t: TableState, k: nat)
    requires RenderLines(t).Ok? && k < |t.rows|
    ensures && |RenderLines(t).value| > HeadCount(t) + (if t.hasCaptions then 2 else 0) + k
            && Ok(RenderLines(t).value[HeadCount(t) + (if t.hasCaptions then 2 else 0) + k])
               == RenderRow(Extents(t), Rows(t.rows, |t.columns|)[k], ' ', false, t.columns, t.edge,
                            t.equalColumnSize, t.options.captionCellAlignment)
  {
    Sections(t);
    var info := Extents(t);
    var length := LineLength(t);
    var rows := Rows(t.rows, |t.columns|);
    HeadSize(t, length);
    CaptionCount(t, info);
    DataLineAt(info, rows, t.columns, t.edge, t.equalColumnSize, t.options.captionCellAlignment, k);
    LineAt(RenderLines(t).value,
           TopLines(t, length).value + TitleLines(t, length).value + CaptionLines(t, info).value,
           DataLines(info, rows, t.columns, t.edge, t.equalColumnSize, t.options.captionCellAlignment).value,
           BottomLines(t, length).value, k);
  }

  /** The head of a table has HeadCount lines. */
  lemma HeadSize(t: TableState, length: int)
    requires TopLines(t, length).Ok? && TitleLines(t, length).Ok?
    ensures |TopLines(t, length).value| + |TitleLines(t, length).value| == HeadCount(t)
  {
  }

  /** Line k of a middle section sits k lines after everything before it. */
  lemma LineAt(ls: seq<string>, before: seq<string>, middle: seq<string>, after: seq<string>, k: nat)
    requires ls == before + middle + after && k < |middle|
    ensures |ls| > |before| + k && ls[|before| + k] == middle[k]
  {
  }



  lemma DataLineAt(info: RenderInfo, rows: seq<seq<Cell>>, columns: seq<Column>, edge: char,
                   equalColumnSize: bool, captionFallback: CellAlignment, k: nat)
    requires info.cellCount <= |columns| && info.cellCount <= |info.columnLengths|
    requires forall k :: 0 <= k < |rows| ==> info.cellCount <= |rows[k]|
    requires DataLines(info, rows, columns, edge, equalColumnSize, captionFallback).Ok? && k < |rows|
    ensures Ok(DataLines(info, rows, columns, edge, equalColumnSize, captionFallback).value[k])
            == RenderRow(info, rows[k], ' ', false, columns, edge, equalColumnSize, captionFallback)
  {
    DataLinesAre(info, rows, columns, edge, equalColumnSize, captionFallback);
  }

  /** Every line of ls is w characters wide. */
  ghost predicate AllWidth(ls: seq<string>, w: int) {
    forall j :: 0 <= j < |ls| ==> |ls[j]| == w
  }

  /** The conditions under which the lines of a table line up: columns exist, the
      title (if any) fits, and the caption row (if any) is measured and every column
      is at least 1 wide. */
  ghost predicate LinesUp(t: TableState) {
    && WellFormed(t) && |t.columns| > 0
    && (t.hasCaptions ==> t.options.displayCaptions)
    && (t.hasCaptions ==> forall i :: 0 <= i < |t.columns| ==> 1 <= CellWidth(Extents(t), t.equalColumnSize, i))
    && (HasTitle(t.options.title) ==>
          |t.options.title.value| + 2 <= NaiveTotalWidth(Extents(t), t.equalColumnSize, 1) - |t.columns|)
  }

  /** The width all lines share: Σw + 3n + 1. */
  function TableWidth(t: TableState): int {
    Sum(EffectiveWidths(Extents(t), t.equalColumnSize)) + 3 * |t.columns| + 1
  }

  lemma LinesUpLength(t: TableState)
    requires LinesUp(t)
    ensures LineLength(t) == TableWidth(t) - 1
    ensures HasTitle(t.options.title) ==> |t.options.title.value| + 2 <= LineLength(t) - 1
  {
    ExtentsFit(t);
    TotalWidthFormula(Extents(t), t.equalColumnSize);
  }

  lemma HeadLinesWidth(t: TableState)
    requires LinesUp(t)
    ensures TopLines(t, LineLength(t)).Ok? ==> AllWidth(TopLines(t, LineLength(t)).value, TableWidth(t))
    ensures BottomLines(t, LineLength(t)).Ok? ==> AllWidth(BottomLines(t, LineLength(t)).value, TableWidth(t))
    ensures TitleLines(t, LineLength(t)).Ok? ==> AllWidth(TitleLines(t, LineLength(t)).value, TableWidth(t))
  {
    LinesUpLength(t);
    HeadWidthAt(t, LineLength(t), TableWidth(t));
  }

  /** The border and title lines drawn at a given width argument are one
      character wider than it. */
  lemma HeadWidthAt(t: TableState, length: int, w: int)
    requires length >= 1 && w == length + 1
    requires HasTitle(t.options.title) ==> |t.options.title.value| + 2 <= length - 1
    ensures TopLines(t, length).Ok? ==> AllWidth(TopLines(t, length).value, w)
    ensures BottomLines(t, length).Ok? ==> AllWidth(BottomLines(t, length).value, w)
    ensures TitleLines(t, length).Ok? ==> AllWidth(TitleLines(t, length).value, w)
  {
    TopSection(t, length);
    BottomSection(t, length);
    if t.border {
      assert |GetSeparator(length, Some(t.top), t.edge, t.fill).value| == w;
      assert |GetSeparator(length, Some(t.bottom), t.edge, t.fill).value| == w;
    }
    TitleSection(t, length);
    if HasTitle(t.options.title) {
      assert |RenderTitle(length, t.options.title, t.options.titleCellAlignment, t.edge).value| == w;
      if t.border {
        assert |GetSeparator(length, None, t.edge, t.fill).value| == w;
      }
    }
  }

  lemma CaptionSectionWidth(t: TableState, info: RenderInfo)
    requires Consistent(info) && info.cellCount == |t.columns| > 0 && t.hasCaptions
    requires forall i :: 0 <= i < info.cellCount ==> CellLength(Captions(t.columns)[i]) <= CellWidth(info, t.equalColumnSize, i)
    requires forall i :: 0 <= i < info.cellCount ==> 1 <= CellWidth(info, t.equalColumnSize, i)
    ensures CaptionLines(t, info).Ok?
    ensures AllWidth(CaptionLines(t, info).value, Sum(EffectiveWidths(info, t.equalColumnSize)) + 3 * info.cellCount + 1)
  {
    FittingRow(info, Captions(t.columns), ' ', true, t.columns, t.edge, t.equalColumnSize, t.options.captionCellAlignment);
    RowSeparatorShape(info, t.columns, t.edge, t.fill, t.equalColumnSize, t.options.captionCellAlignment);
  }

  lemma CaptionLinesWidth(t: TableState)
    requires LinesUp(t)
    ensures CaptionLines(t, Extents(t)).Ok? ==> AllWidth(CaptionLines(t, Extents(t)).value, TableWidth(t))
  {
    ExtentsFit(t);
    if t.hasCaptions {
      CaptionSectionWidth(t, Extents(t));
    }
  }

  lemma DataSectionWidth(info: RenderInfo, rows: seq<seq<Cell>>, columns: seq<Column>, edge: char,
                         equalColumnSize: bool, captionFallback: CellAlignment)
    requires Consistent(info) && info.cellCount > 0 && info.cellCount <= |columns|
    requires forall k :: 0 <= k < |rows| ==> info.cellCount <= |rows[k]|
    requires forall k, i :: 0 <= k < |rows| && 0 <= i < info.cellCount ==> CellLength(rows[k][i]) <= CellWidth(info, equalColumnSize, i)
    ensures var data := DataLines(info, rows, columns, edge, equalColumnSize, captionFallback);
            data.Ok? && AllWidth(data.value, Sum(EffectiveWidths(info, equalColumnSize)) + 3 * info.cellCount + 1)
  {
    DataLinesAre(info, rows, columns, edge, equalColumnSize, captionFallback);
    forall k | 0 <= k < |rows|
      ensures var r := RenderRow(info, rows[k], ' ', false, columns, edge, equalColumnSize, captionFallback);
              r.Ok? && |r.value| == Sum(EffectiveWidths(info, equalColumnSize)) + 3 * info.cellCount + 1
    {
      FittingRow(info, rows[k], ' ', false, columns, edge, equalColumnSize, captionFallback);
    }
  }

  lemma DataLinesWidth(t: TableState)
    requires LinesUp(t)
    ensures var data := DataLines(Extents(t), Rows(t.rows, |t.columns|), t.columns, t.edge, t.equalColumnSize,
                                  t.options.captionCellAlignment);
            data.Ok? ==> AllWidth(data.value, TableWidth(t))
  {
    var n := |t.columns|;
    var rows := Rows(t.rows, n);
    ExtentsFit(t);
    assert forall k, i :: 0 <= k < |rows| && 0 <= i < n ==> rows[k][i] == CellAt(t.rows[k], i);
    DataSectionWidth(Extents(t), rows, t.columns, t.edge, t.equalColumnSize, t.options.captionCellAlignment);
  }

  /** With no title wider than the table, and captions (if any) displayed and every
      column at least 1 wide, every line ToString draws is Σw + 3n + 1 characters
      wide: borders, title bar, caption row, separators and data rows line up. */
  lemma AllLinesSameWidth(t: TableState)
    requires LinesUp(t)
    ensures RenderLines(t).Ok?
    ensures AllWidth(RenderLines(t).value, TableWidth(t))
  {
    RenderOkIff(t);
    Sections(t);
    HeadLinesWidth(t);
    CaptionLinesWidth(t);
    DataLinesWidth(t);
    var length := LineLength(t);
    var data := DataLines(Extents(t), Rows(t.rows, |t.columns|), t.columns, t.edge, t.equalColumnSize,
                          t.options.captionCellAlignment);
    ConcatWidth(TopLines(t, length).value, TitleLines(t, length).value, CaptionLines(t, Extents(t)).value,
                data.value, BottomLines(t, length).value, TableWidth(t));
  }

  lemma ConcatWidth(a: seq<string>, b: seq<string>, c: seq<string>, d: seq<string>, e: seq<string>, w: int)
    requires AllWidth(a, w) && AllWidth(b, w) && AllWidth(c, w) && AllWidth(d, w) && AllWidth(e, w)
    ensures AllWidth(a + b + c + d + e, w)
  {
  }

  lemma RaisedTitle(info: RenderInfo, equalColumnSize: bool, title: Option<string>, alignment: CellAlignment,
                    edge: char, fill: char)
    requires Consistent(info) && HasTitle(title)
    requires NaiveTotalWidth(info, equalColumnSize, 1) < |title.value| + 2
    ensures var length := TotalWidth(info, equalColumnSize, 1, title) - info.cellCount + 1;
            && length == |title.value| + 3 - info.cellCount >= 1
            && (forall glyph: Option<char> ::
                  |GetSeparator(length, glyph, edge, fill).value| == |title.value| + 4 - info.cellCount)
            && |RenderTitle(length, title, alignment, edge).value| == |title.value| + 4
  {
    TotalWidthFormula(info, equalColumnSize);
    var length := TotalWidth(info, equalColumnSize, 1, title) - info.cellCount + 1;
    assert length == |title.value| + 3 - info.cellCount >= 1;
  }

  /** A title longer than the columns raises totalWidth to |title| + 2 without the
      column count: the title bar is then |title| + 4 wide while the borders drawn
      from the same width are only |title| + 4 - n wide. */
  lemma TitleOverhang(t: TableState)
    requires WellFormed(t) && HasTitle(t.options.title)
    requires NaiveTotalWidth(Extents(t), t.equalColumnSize, 1) < |t.options.title.value| + 2
    ensures LineLength(t) == |t.options.title.value| + 3 - |t.columns| >= 1
    ensures forall glyph: Option<char> ::
              |GetSeparator(LineLength(t), glyph, t.edge, t.fill).value| == |t.options.title.value| + 4 - |t.columns|
    ensures |RenderTitle(LineLength(t), t.options.title, t.options.titleCellAlignment, t.edge).value|
            == |t.options.title.value| + 4
  {
    ExtentsFit(t);
    RaisedTitle(Extents(t), t.equalColumnSize, t.options.title, t.options.titleCellAlignment, t.edge, t.fill);
  }

  // ---------------------------------------------------------------------------
  // The prefix

  lemma {:induction false} PrefixedJoin(prefix: string, lines: seq<string>)
    ensures prefix + Join(NewLine + prefix, lines)
            == if |lines| == 0 then prefix
               else Join(NewLine, seq(|lines|, i requires 0 <= i < |lines| => prefix + lines[i]))
  {
    if |lines| == 0 {
      assert prefix + "" == prefix;
    } else if |lines| > 1 {
      var init := lines[..|lines| - 1];
      var last := lines[|lines| - 1];
      PrefixedJoin(prefix, init);
      var prefixed := seq(|lines|, i requires 0 <= i < |lines| => prefix + lines[i]);
      var prefixedInit := seq(|init|, i requires 0 <= i < |init| => prefix + init[i]);
      assert prefixed[..|lines| - 1] == prefixedInit;
      assert Join(NewLine, prefixed) == Join(NewLine, prefixedInit) + NewLine + (prefix + last);
      assert Join(NewLine + prefix, lines) == Join(NewLine + prefix, init) + (NewLine + prefix) + last;
      assert prefix + Join(NewLine + prefix, lines)
             == (prefix + Join(NewLine + prefix, init)) + NewLine + (prefix + last);
    }
  }

  lemma RenderPrefixed(t: TableState)
    requires RenderLines(t).Ok?
    ensures var ls := RenderLines(t).value;
            var prefix := AlignmentHelper.Coalesce(t.options.prefix);
            Render(t) == Ok(if |ls| == 0 then prefix
                            else Join(NewLine, seq(|ls|, i requires 0 <= i < |ls| => prefix + ls[i])))
  {
    PrefixedJoin(AlignmentHelper.Coalesce(t.options.prefix), RenderLines(t).value);
  }


  // ---------------------------------------------------------------------------
  // Fixed outputs

  /** A new generator with default options draws the two border lines only. */
  lemma EmptyTable()
    ensures Render(Initial(Options.Defaults)) == Ok("..\n''")
  {
    var t := Initial(Options.Defaults);
    var info := Extents(t);
    assert info.columnLengths == [] && info.cellCount == 0;
    assert !HasTitle(t.options.title);
    assert LineLength(t) == 0;
    SeparatorLine(0, Some('.'), '|', '-');
    SeparatorLine(0, Some('\''), '|', '-');
    assert Repeat('-', Max(0, 1) - 1) == [];
    assert ['.'] + [] + ['.'] == "..";
    assert ['\''] + [] + ['\''] == "''";
    assert TopLines(t, 0) == Ok([".."]);
    assert BottomLines(t, 0) == Ok(["''"]);
    assert DataLines(info, Rows(t.rows, 0), t.columns, t.edge, t.equalColumnSize, t.options.captionCellAlignment) == Ok([]);
    assert TitleLines(t, 0) == Ok([]) && CaptionLines(t, info) == Ok([]);
    assert [".."] + [] + [] + [] + ["''"] == ["..", "''"];
    assert RenderLines(t) == Ok(["..", "''"]);
    assert AlignmentHelper.Coalesce(t.options.prefix) == "";
    assert ["..", "''"][..1] == [".."];
    assert Join("\n", ["..", "''"]) == ".." + "\n" + "''";
    assert NewLine + "" == "\n";
    assert "" + (".." + "\n" + "''") == "..\n''";
  }

  /** A title bar exactly as wide as " title " draws the title with one space on
      each side, whatever its alignment. */
  lemma TitleBarFits(title: string, alignment: CellAlignment, edge: char)
    ensures RenderTitle(|title| + 3, Some(title), alignment, edge) == Ok([edge] + " " + title + " " + [edge])
  {
    var name := " " + title + " ";
    assert |name| == |title| + 2;
    AlignedExactly(alignment, name);
    assert AlignmentHelper.Coalesce(Some(title)) == title;
    assert Align(alignment, name, |title| + 3 - 1, ' ') == Ok(name);
    assert RenderTitle(|title| + 3, Some(title), alignment, edge) == Ok([edge] + name + [edge]);
    assert [edge] + name + [edge] == [edge] + " " + title + " " + [edge];
  }

  /** A value aligned in exactly its own length is left as it is. */
  lemma AlignedExactly(alignment: CellAlignment, value: string)
    ensures Align(alignment, value, |value|, ' ') == Ok(value)
  {
    var aligned := Align(alignment, value, |value|, ' ');
    AlignmentHelper.PaddedForm(aligned.value, value, 0, ' ');
    assert Repeat(' ', 0) == "";
  }



  lemma TitleOnlyLength(options: Options.OptionsState)
    requires HasTitle(options.title)
    ensures LineLength(Initial(options)) == |options.title.value| + 3
  {
    var t := Initial(options);
    assert Extents(t).columnLengths == [] && Extents(t).cellCount == 0;
    assert NaiveTotalWidth(Extents(t), false, 1) == -1;
  }

  /** A table with only a title draws four lines, each |title| + 4 wide: the top
      border, "| title |" whatever the title alignment, the separator and the bottom
      border. */
  lemma TitleOnly(options: Options.OptionsState)
    requires HasTitle(options.title)
    ensures var dashes := Repeat('-', |options.title.value| + 2);
            RenderLines(Initial(options))
            == Ok([['.'] + dashes + ['.'], "| " + options.title.value + " |", ['|'] + dashes + ['|'], ['\''] + dashes + ['\'']])
  {
    var t := Initial(options);
    var title := options.title.value;
    var length := |title| + 3;
    var dashes := Repeat('-', |title| + 2);
    TitleOnlyLength(options);
    SeparatorLine(length, Some('.'), '|', '-');
    SeparatorLine(length, None, '|', '-');
    SeparatorLine(length, Some('\''), '|', '-');
    TitleBarFits(title, options.titleCellAlignment, '|');
    assert ['|'] + " " + title + " " + ['|'] == "| " + title + " |";
    var info := Extents(t);
    assert info.cellCount == 0;
    assert TopLines(t, length) == Ok([['.'] + dashes + ['.']]);
    assert TitleLines(t, length) == Ok(["| " + title + " |", ['|'] + dashes + ['|']]);
    assert CaptionLines(t, info) == Ok([]);
    assert DataLines(info, Rows(t.rows, 0), t.columns, t.edge, t.equalColumnSize, t.options.captionCellAlignment) == Ok([]);
    assert BottomLines(t, length) == Ok([['\''] + dashes + ['\'']]);
    assert LineLength(t) == length;
    var top, bar, separator, bottom := ['.'] + dashes + ['.'], "| " + title + " |", ['|'] + dashes + ['|'], ['\''] + dashes + ['\''];
    assert RenderLines(t) == Ok([top] + [bar, separator] + [] + [] + [bottom]);
    assert [top] + [bar, separator] + [] + [] + [bottom] == [top, bar, separator, bottom];
  }

  // ---------------------------------------------------------------------------
  // Alignment of data cells

  /** Automatic alignment puts a shorter value of a numeric type on the right and
      any other value on the left; a value at least as long as the column is drawn
      as it is. */
  lemma AutoAlignment(text: string, runtimeType: TypeHelper.RuntimeType, length: nat, pad: char)
    ensures var r := AlignCell(NotSpecified, Val(text, runtimeType), length, pad);
            && (|text| >= length ==> r == text)
            && (|text| < length && TypeHelper.HasNumericType(Some(runtimeType)) ==> r == Repeat(pad, length - |text|) + text)
            && (|text| < length && !TypeHelper.HasNumericType(Some(runtimeType)) ==> r == text + Repeat(pad, length - |text|))
  {
    var cell := Val(text, runtimeType);
    var r := AlignCell(NotSpecified, cell, length, pad);
    AlignmentHelper.PaddedForm(r, text, LeadingPad(NotSpecified, IsNumericCell(cell), |text|, length), pad);
  }

  /** The double 1e6, drawn "1000000", is right-aligned in an 18-wide column. */
  lemma NumberIsRightAligned()
    ensures AlignCell(NotSpecified, Val("1000000", TypeHelper.BuiltIn(TypeHelper.Double)), 18, ' ')
            == "           1000000"
  {
    AutoAlignment("1000000", TypeHelper.BuiltIn(TypeHelper.Double), 18, ' ');
    TypeHelper.DoubleIsNumeric();
    ElevenBlanks();
  }

  lemma ElevenBlanks()
    ensures Repeat(' ', 11) == "           "
  {
    var blanks := Repeat(' ', 11);
    assert forall i :: 0 <= i < 11 ==> blanks[i] == "           "[i];
  }

  /** The string "Leroy" is left-aligned in a 10-wide column. */
  lemma StringIsLeftAligned()
    ensures AlignCell(NotSpecified, Val("Leroy", TypeHelper.BuiltIn(TypeHelper.String)), 10, ' ') == "Leroy     "
  {
    AutoAlignment("Leroy", TypeHelper.BuiltIn(TypeHelper.String), 10, ' ');
  }

  /** A null cell is drawn blank. */
  lemma NullIsBlank()
    ensures AlignCell(NotSpecified, Null, 3, ' ') == "   "
  {
    var r := AlignCell(NotSpecified, Null, 3, ' ');
    AlignmentHelper.PaddedForm(r, "", 0, ' ');
  }

  /** The title's NotSpecified alignment is left alignment. */
  lemma TitleNotSpecifiedIsLeft(value: string, length: int, pad: char)
    ensures Align(NotSpecified, value, length, pad) == Align(Left, value, length, pad)
  {
  }

  // ---------------------------------------------------------------------------
  // Adding a row

  lemma {:induction false} ColumnWidthSnoc(seed: nat, rows: seq<seq<Cell>>, row: seq<Cell>, i: nat)
    ensures ColumnWidth(seed, rows + [row], i) == Max(ColumnWidth(seed, rows, i), CellLength(CellAt(row, i)))
  {
    assert (rows + [row])[..|rows|] == rows;
  }

  lemma {:induction false} ColumnWidthSameCells(seed: nat, a: seq<seq<Cell>>, b: seq<seq<Cell>>, i: nat)
    requires |a| == |b|
    requires forall k :: 0 <= k < |a| ==> CellAt(a[k], i) == CellAt(b[k], i)
    ensures ColumnWidth(seed, a, i) == ColumnWidth(seed, b, i)
  {
    if |a| > 0 {
      ColumnWidthSameCells(seed, a[..|a| - 1], b[..|b| - 1], i);
    }
  }

  /** Column i of the stored rows with one row appended, read through n' >= n
      columns, against the same column read through the old n columns. */
  lemma GrownColumn(seed: nat, rows: seq<seq<Cell>>, row: seq<Cell>, n: nat, n': nat, i: nat)
    requires n <= n' && i < n'
    requires forall k :: 0 <= k < |rows| ==> |rows[k]| <= n
    ensures ColumnWidth(seed, Rows(rows + [row], n'), i)
            == Max(ColumnWidth(seed, Rows(rows, n), i), CellLength(CellAt(row, i)))
  {
    var grown := Rows(rows + [row], n');
    var previous := Rows(rows, n);
    assert grown == grown[..|rows|] + [grown[|rows|]];
    ColumnWidthSnoc(seed, grown[..|rows|], grown[|rows|], i);
    assert CellAt(grown[|rows|], i) == CellAt(row, i);
    forall k | 0 <= k < |rows| ensures CellAt(grown[..|rows|][k], i) == CellAt(previous[k], i) {
      assert grown[k][i] == CellAt(rows[k], i);
    }
    ColumnWidthSameCells(seed, grown[..|rows|], previous, i);
  }

  /** A column no stored cell reaches is as wide as its seed. */
  lemma EmptyColumn(seed: nat, rows: seq<seq<Cell>>, n: nat, i: nat)
    requires n <= i
    ensures ColumnWidth(seed, Rows(rows, n), i) == seed
  {
    assert forall k :: 0 <= k < |rows| ==> CellAt(Rows(rows, n)[k], i) == Null;
  }

  /** Width i of a table's extents: column i measured over the stored rows. */
  lemma ExtentsAt(t: TableState, i: nat)
    requires i < |t.columns|
    ensures Extents(t).columnLengths[i]
            == ColumnWidth(Seed(Captions(t.columns), t.options.displayCaptions && t.hasCaptions, i), Rows(t.rows, |t.columns|), i)
  {
  }

  lemma AddedRowWidth(t: TableState, row: seq<Cell>, i: nat)
    requires WellFormed(t) && i < |AddRow(t, row).columns|
    ensures Extents(AddRow(t, row)).columnLengths[i]
            == Max(if i < |t.columns| then Extents(t).columnLengths[i] else 0, CellLength(CellAt(row, i)))
  {
    var t' := AddRow(t, row);
    var n, n' := |t.columns|, |t'.columns|;
    var show := t.options.displayCaptions && t.hasCaptions;
    var seed := Seed(Captions(t'.columns), show, i);
    ExtentsAt(t', i);
    GrownColumn(seed, t.rows, row, n, n', i);
    if i < n {
      assert seed == Seed(Captions(t.columns), show, i);
      ExtentsAt(t, i);
    } else {
      assert t'.columns[i] == DefaultColumn;
      EmptyColumn(seed, t.rows, n, i);
    }
  }

  /** After Add(row) each existing column is as wide as the wider of its old width
      and the new cell, and each column the row adds is as wide as its cell: no
      width ever shrinks. */
  lemma AddRowWidths(t: TableState, row: seq<Cell>)
    requires WellFormed(t)
    ensures var before := Extents(t).columnLengths;
            var after := Extents(AddRow(t, row)).columnLengths;
            && (forall i :: 0 <= i < |t.columns| ==> after[i] == Max(before[i], CellLength(CellAt(row, i))) >= before[i])
            && (forall i :: |t.columns| <= i < |after| ==> after[i] == CellLength(CellAt(row, i)))
  {
    var before := Extents(t).columnLengths;
    var after := Extents(AddRow(t, row)).columnLengths;
    forall i | 0 <= i < |t.columns|
      ensures after[i] == Max(before[i], CellLength(CellAt(row, i)))
    {
      AddedRowWidth(t, row, i);
    }
    forall i | |t.columns| <= i < |after|
      ensures after[i] == CellLength(CellAt(row, i))
    {
      AddedRowWidth(t, row, i);
    }
  }
}
