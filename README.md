# Snork.AsciiTable layout engine in Dafny

Snork.AsciiTable draws a table of values as ASCII text. An `AsciiTableGenerator` holds:

- a list of columns, each with a data alignment, a caption alignment and an optional caption;
- a list of rows of boxed values;
- the border glyphs (edge, fill, top corner, bottom corner) and the border, caption and equal-width flags;
- an `Options` object with the title, its alignment, the caption alignment fallback, the line prefix and the display-captions flag.

`ToString` draws the table in four steps:

1. It measures every column as the widest of its cells, and of its caption when captions are displayed.
2. It computes the total width.
3. It draws these lines, in order:
   - the top border;
   - the title bar and its separator;
   - the caption row and the row separator;
   - one line per data row;
   - the bottom border.
4. It joins the lines with the line separator, each after the prefix.

Each cell is padded to its column's width:

- left, right or centred, with the centre rounded half to even;
- or automatically: right for values of a numeric runtime type, left for anything else.

The project has three layers:

- **Pure helpers.** `AlignmentHelper`, `TypeHelper`, `RenderInfo` (the public RenderInfo class) and `Strings`, which models the .NET string operations used.
- **A specification of the generator as functions of its state** (`Layout`). The table is a `TableState` value, and `Layout.Render` is what `ToString` returns.
- **The generator as a class** (`Generator.AsciiTableGenerator`), together with the `Options` class.
  - Each mutator updates fields in place and states its new state as a `Layout` function of the old one.
  - The rendering loops of `ToString`, `GetExtents` and `RenderRow` are methods with loop invariants, proved to compute the `Layout` functions.

`TableProperties` proves what those functions promise:

- **Rows.** The shape of every row and separator, with nothing cut off.
- **Total width.** The total-width formula Σw + 4n − 1.
- **Success.** Exactly when rendering succeeds.
- **Order and count.** The order and number of lines.
- **Alignment.** Every line has the same width when the table has a column, the title fits, and any caption row is displayed over columns at least 1 wide.
- **Prefix.** The prefix goes before each line.
- **Widths.** Adding a row never narrows a column.
- **Fixed outputs.** Several exact outputs.

Exceptions the code can raise are values of `Wrappers.Result`:

- **`ArgumentOutOfRange`.** `PadLeft`/`PadRight` with a negative width; `"".Substring(1)` when a row has no cell.
- **`InvalidOperation`.** `First()` on no column.

## Model

| member | source | states |
|---|---|---|
| AlignmentHelper.AlignLeft | src/Snork.AsciiTable/AlignmentHelper.cs:7-10 | fails exactly for a negative length (PadRight throws); otherwise the result is max(length, \|value\|) long, starts with the value (null read as "") and every later character is the pad character (null read as a space) |
| AlignmentHelper.AlignRight | src/Snork.AsciiTable/AlignmentHelper.cs:39-42 | fails exactly for a negative length; otherwise max(length, \|value\|) long, the value at the end and pad characters before it |
| AlignmentHelper.AlignCenter | src/Snork.AsciiTable/AlignmentHelper.cs:12-25 | never fails; max(length, \|value\|) long, the value preceded by half the free space rounded half to even and followed by the rest; with no free space the value unchanged |
| AlignmentHelper.AlignAuto | src/Snork.AsciiTable/AlignmentHelper.cs:27-37 | max(length, \|value\|) long; a value at least length long is returned as it is; a numeric value is right-aligned and any other value left-aligned |
| AlignmentHelper.RoundedHalf | src/Snork.AsciiTable/AlignmentHelper.cs:18 | Convert.ToInt32(n / 2.0) is within one half of n/2, and when n is odd (a tie) it is the even neighbour |
| AlignmentHelper.PaddedForm | src/Snork.AsciiTable/AlignmentHelper.cs:7-42 | a padded result is exactly some pad characters, the whole value, and pad characters: nothing of the value is cut or altered |
| AlignmentHelper.CenterSplit | src/Snork.AsciiTable/AlignmentHelper.cs:18-19 | the two sides of a centred value differ by at most one character: equal for even free space, one more in front when it is 3 mod 4, one more behind when it is 1 mod 4 |
| AlignmentHelper.CenterSkillet | src/Snork.AsciiTable.Tests/AsciiGeneratorTests.cs:89 | "Skillet" centred 14 wide has 4 blanks in front and 3 behind (free space 7 rounds up to the even 4), as in the expected table |
| AlignmentHelper.CenterGhost12 | src/Snork.AsciiTable.Tests/AsciiGeneratorTests.cs:143 | the centred title " Ghost12 " in a 44-wide bar has 18 blanks in front and 17 behind (free space 35) |
| AlignmentHelper.CenterField2 | src/Snork.AsciiTable.Tests/AsciiGeneratorTests.cs:242 | the centred caption "Field2" 21 wide has 8 blanks in front and 7 behind (free space 15) |
| AlignmentHelper.NegativeLength | src/Snork.AsciiTable/AlignmentHelper.cs:7-42 | a negative length makes AlignLeft and AlignRight throw, and leaves AlignCenter and AlignAuto returning the value unchanged |
| TypeHelper.HasNumericType | src/Snork.AsciiTable/TypeHelper.cs:9 | null is never numeric |
| TypeHelper.HasNumericTypeIsTypeCodeTest | src/Snork.AsciiTable/TypeHelper.cs:10-28 | for every non-null value the result is "its type code is one of the eleven numeric codes"; the `is` chain never says yes where the switch would say no |
| TypeHelper.DoubleIsNumeric | src/Snork.AsciiTable/TypeHelper.cs:10-11 | a double is numeric |
| TypeHelper.NonNumericCodes | src/Snork.AsciiTable/TypeHelper.cs:26-27 | values whose type code is Char, Boolean, String, DateTime, DBNull or Object are not numeric |
| TypeHelper.EnumOverIntIsNumeric | src/Snork.AsciiTable/TypeHelper.cs:12-25 | an enum over int is missed by the `is` chain and caught by the type-code switch |
| RenderInfo.MaxColumnLength | src/Snork.AsciiTable/RenderInfo.cs:17 | 0 for no lengths; otherwise at least every length and equal to one of them |
| RenderInfo.NewRenderInfo | src/Snork.AsciiTable/RenderInfo.cs:14-23 | the constructor stores the lengths, column count, tab replacements and both edges unchanged, leaves Values unset, and sets the maximum length as above |
| RenderInfo.SetValues | src/Snork.AsciiTable/RenderInfo.cs:10 | setting Values changes Values and no other property |
| Options.Options.constructor | src/Snork.AsciiTable/Options.cs:13-17 | a new Options has Center caption and title alignment, no title, no prefix and captions displayed |
| Options.Options.SetHeaderCellAlignment | src/Snork.AsciiTable/Options.cs:8-12 | the obsolete alias writes CaptionCellAlignment, reads back what was written, and changes nothing else |
| Options.Options.SetDisplayHeader | src/Snork.AsciiTable/Options.cs:20-24 | the obsolete alias writes DisplayCaptions, reads back what was written, and changes nothing else |
| Options.Options.SetCaptionCellAlignment | src/Snork.AsciiTable/Options.cs:13 | changes the caption alignment and no other option |
| Options.Options.SetTitleCellAlignment | src/Snork.AsciiTable/Options.cs:14 | changes the title alignment and no other option |
| Options.Options.SetTitle | src/Snork.AsciiTable/Options.cs:15 | changes the title and no other option |
| Options.Options.SetPrefix | src/Snork.AsciiTable/Options.cs:16 | changes the prefix and no other option |
| Options.Options.SetDisplayCaptions | src/Snork.AsciiTable/Options.cs:17 | changes the display-captions flag and no other option |
| Layout.NewRenderInfo | src/Snork.AsciiTable/AsciiTableGenerator.cs:499-504 | the generator's RenderInfo keeps the lengths and the cell count, and its maximum is 0 for no columns, else the widest length |
| Layout.Captions | src/Snork.AsciiTable/AsciiTableGenerator.cs:256-259 | GetCaptions has one entry per column, the column's caption (null when unset) |
| Layout.Rows | src/Snork.AsciiTable/AsciiTableGenerator.cs:40-43 | GetRows returns every stored row in order with one cell per column; a cell the row did not supply reads as null |
| Layout.ColumnWidth | src/Snork.AsciiTable/AsciiTableGenerator.cs:443-450 | a column's width is at least its seed and at least the length of each of its cells, and equals the seed or one of those lengths: it is their maximum |
| Layout.ResolveAlignment | src/Snork.AsciiTable/AsciiTableGenerator.cs:330-349 | a caption is never aligned automatically: the column's caption alignment, else the options' fallback, else Center |
| Layout.AlignCell | src/Snork.AsciiTable/AsciiTableGenerator.cs:351-369 | the selected delegate gives a cell max(width, \|text\|) long that holds the whole text, with pad characters before it as the alignment says (none for Left, all the free space for Right and for numeric auto, the rounded half for Center) and after it |
| Layout.Align | src/Snork.AsciiTable/AsciiTableGenerator.cs:66-80 | the title alignment fails exactly for a negative length with a non-Center alignment; otherwise max(length, \|value\|) long with the value placed left (Left and NotSpecified), right or centred |
| Layout.GetSeparator | src/Snork.AsciiTable/AsciiTableGenerator.cs:455-458 | fails exactly for a negative length; otherwise 1 + max(length, 1) long, the glyph (or the edge when none) at both ends and fill characters between |
| Layout.RenderTitle | src/Snork.AsciiTable/AsciiTableGenerator.cs:261-266 | the title bar is drawn exactly when the length is at least 1 or the title is centred; it is 2 + max(length − 1, \|title\| + 2) long and starts and ends with the edge |
| Layout.TitlePlacement | src/Snork.AsciiTable/AsciiTableGenerator.cs:261-266 | between the edges the bar holds " title " (null read as "") with blanks everywhere else; " title " starts the bar for Left and NotSpecified, follows the rounded half of the free space for Center, and ends the bar for Right |
| Layout.AddRow | src/Snork.AsciiTable/AsciiTableGenerator.cs:179-184 | Add appends exactly the row, grows the columns as EnsureColumns(columns, \|row\|) does (max(old count, \|row\|) columns, the old ones untouched), changes nothing else, and keeps rows no longer than the column list |
| Layout.EnsureColumns | src/Snork.AsciiTable/AsciiTableGenerator.cs:186-192 | the column list grows to at least n by appending default columns, and the existing columns are untouched |
| Layout.SetCaptionsOn | src/Snork.AsciiTable/AsciiTableGenerator.cs:136-148 | SetCaptions leaves max(columns, captions) columns, gives caption i to column i without touching its alignments, and leaves the other columns as they were |
| Layout.AddRows | src/Snork.AsciiTable/AsciiTableGenerator.cs:52-57 | AddRange appends exactly the given rows, in order; the old columns are kept as a prefix, every added column is a default column, every given row fits the columns, nothing else changes, and the state stays well formed |
| Layout.SetAlignment | src/Snork.AsciiTable/AsciiTableGenerator.cs:473-484 | SetAlign fails (First on no column) exactly for a negative index on an empty column list, or for int.MaxValue (index + 1 wraps) unless more than int.MaxValue columns exist; otherwise there are max(columns, index + 1) columns and only column max(index, 0) gets the new data alignment |
| Layout.Increment32 | src/Snork.AsciiTable/AsciiTableGenerator.cs:475 | index + 1 in unchecked 32-bit arithmetic: the successor, except that int.MaxValue wraps to int.MinValue |
| Layout.SetAlignMaxIndex | src/Snork.AsciiTable/AsciiTableGenerator.cs:473-484 | SetAlign(int.MaxValue) throws InvalidOperation on any table of at most int.MaxValue columns |
| Layout.WithBorder | src/Snork.AsciiTable/AsciiTableGenerator.cs:88-99 | SetBorder turns the border on; an edge given alone becomes all four glyphs; otherwise each glyph is the one given, or `\|`, `-`, `.` or `'` when not given; nothing else changes |
| Generator.AsciiTableGenerator.constructor | src/Snork.AsciiTable/AsciiTableGenerator.cs:22-26 | a new generator uses the given options (a new Options when none) and is in the cleared state: bordered with the default glyphs, no columns, rows or captions |
| Generator.AsciiTableGenerator.WithTitle | src/Snork.AsciiTable/AsciiTableGenerator.cs:18-20 | the title constructor makes new default options carrying that title, then clears |
| Generator.AsciiTableGenerator.Clear | src/Snork.AsciiTable/AsciiTableGenerator.cs:31-38 | back to the cleared state over the same options; only the equal-column-size flag survives |
| Generator.AsciiTableGenerator.ClearRows | src/Snork.AsciiTable/AsciiTableGenerator.cs:45-50 | removes every row and every column and changes nothing else |
| Generator.AsciiTableGenerator.AddRange | src/Snork.AsciiTable/AsciiTableGenerator.cs:52-57 | the loop leaves the state AddRows describes |
| Generator.AsciiTableGenerator.Add | src/Snork.AsciiTable/AsciiTableGenerator.cs:179-184 | leaves the state AddRow describes |
| Generator.AsciiTableGenerator.EnsureColumnsExist | src/Snork.AsciiTable/AsciiTableGenerator.cs:186-192 | the loop appends exactly the default columns EnsureColumns describes and changes nothing else |
| Generator.AsciiTableGenerator.SetEqualColumnSize | src/Snork.AsciiTable/AsciiTableGenerator.cs:194-198 | changes the equal-column-size flag only |
| Generator.AsciiTableGenerator.SetCaptions | src/Snork.AsciiTable/AsciiTableGenerator.cs:136-148 | turns captions on and leaves the columns SetCaptionsOn describes |
| Generator.AsciiTableGenerator.GetColumn | src/Snork.AsciiTable/AsciiTableGenerator.cs:473-477 | grows the column list to the 32-bit index + 1; finds column max(index, 0), and fails with InvalidOperation exactly when the index is negative and there was no column, or is int.MaxValue and there were at most int.MaxValue columns |
| Generator.AsciiTableGenerator.SetAlign | src/Snork.AsciiTable/AsciiTableGenerator.cs:479-484 | succeeds exactly when SetAlignment does and then leaves its columns; on failure only the columns GetColumn added remain |
| Generator.AsciiTableGenerator.SetBorder | src/Snork.AsciiTable/AsciiTableGenerator.cs:88-99 | leaves the state WithBorder describes |
| Generator.AsciiTableGenerator.RemoveBorder | src/Snork.AsciiTable/AsciiTableGenerator.cs:465-471 | border off, edge and fill blank, nothing else changed |
| Generator.AsciiTableGenerator.SetTitle | src/Snork.AsciiTable/AsciiTableGenerator.cs:486-495 | writes the title into the options, where GetTitle reads it back, and changes nothing else |
| Generator.AsciiTableGenerator.SetTitleAlign | src/Snork.AsciiTable/AsciiTableGenerator.cs:82-86 | changes the options' title alignment only |
| Generator.AsciiTableGenerator.SetHeadingAlign | src/Snork.AsciiTable/AsciiTableGenerator.cs:168-172 | changes the options' caption alignment only |
| Generator.AsciiTableGenerator.SetDisplayHeader | src/Snork.AsciiTable/AsciiTableGenerator.cs:278-282 | changes the options' display-captions flag only |
| Generator.AsciiTableGenerator.ListFill | src/Snork.AsciiTable/AsciiTableGenerator.cs:249-254 | a list of max(length, 0) copies of the fill value |
| Generator.AsciiTableGenerator.WidenColumns | src/Snork.AsciiTable/AsciiTableGenerator.cs:444-450 | after one row, each column length is the larger of its old value and the length of the row's cell in that column |
| Generator.AsciiTableGenerator.GetExtents | src/Snork.AsciiTable/AsciiTableGenerator.cs:433-453 | the nested loops compute ExtentsOf: per column, the caption length (only when captions are displayed and set) widened to each row's cell |
| Generator.AsciiTableGenerator.RenderRow | src/Snork.AsciiTable/AsciiTableGenerator.cs:319-375 | the loop over the cells and the join compute Layout.RenderRow, including the exception for a row of no cells |
| Generator.AsciiTableGenerator.GetRowSeparator | src/Snork.AsciiTable/AsciiTableGenerator.cs:377-381 | a data row of fill characters padded with the fill character |
| Generator.AsciiTableGenerator.MeasureTotalWidth | src/Snork.AsciiTable/AsciiTableGenerator.cs:390-404 | the accumulation loop and the title raise compute TotalWidth |
| Generator.AsciiTableGenerator.Measure | src/Snork.AsciiTable/AsciiTableGenerator.cs:385-404 | the extents of the table; the width argument is LineLength, never negative, and leaves a title bar at least two more characters than the title |
| Generator.AsciiTableGenerator.DrawTitle | src/Snork.AsciiTable/AsciiTableGenerator.cs:409-414 | the title section as TitleLines draws it; the width is never changed by line 411 |
| Generator.AsciiTableGenerator.DrawCaptions | src/Snork.AsciiTable/AsciiTableGenerator.cs:416-420 | the caption row and its separator as CaptionLines draws them, whenever captions were set |
| Generator.AsciiTableGenerator.DrawRows | src/Snork.AsciiTable/AsciiTableGenerator.cs:422-425 | the data rows in order, or the error of the first row that cannot be drawn, as DataLines says |
| Generator.AsciiTableGenerator.DrawBody | src/Snork.AsciiTable/AsciiTableGenerator.cs:416-427 | captions, data rows and bottom border, stopping at the first error |
| Generator.AsciiTableGenerator.DrawLines | src/Snork.AsciiTable/AsciiTableGenerator.cs:385-427 | the collected lines are RenderLines of the current state |
| Generator.AsciiTableGenerator.ToString | src/Snork.AsciiTable/AsciiTableGenerator.cs:383-431 | returns Render of the current state and, having no modifies clause, writes no state, so repeated calls give the same text |
| Generator.WidthStep | src/Snork.AsciiTable/AsciiTableGenerator.cs:443-450 | one more row widens each column to that row's cell when the cell is wider |
| Generator.ExtentsFromWidths | src/Snork.AsciiTable/AsciiTableGenerator.cs:452 | lengths that agree column by column with the measured widths make the RenderInfo of ExtentsOf |
| TableProperties.JoinRowFramed | src/Snork.AsciiTable/AsciiTableGenerator.cs:372-374 | the join-then-Substring(1) construction throws for no cells and otherwise is exactly the framed row: edge, then pad, cell, pad, edge for every cell |
| TableProperties.RenderRowOk | src/Snork.AsciiTable/AsciiTableGenerator.cs:319-375 | a row is drawn exactly when the table has a column, and it is then the framed row of its aligned cells |
| TableProperties.FittingRow | src/Snork.AsciiTable/AsciiTableGenerator.cs:319-375 | when every cell fits its width, each aligned cell is exactly its column's width and holds the whole text, and the row is edge + Σ(pad + cell + pad + edge), of length Σw + 3n + 1 |
| TableProperties.SeparatorCell | src/Snork.AsciiTable/AsciiTableGenerator.cs:377-381 | whatever the column's alignment, a separator cell is the fill character repeated max(w, 1) times |
| TableProperties.RowSeparatorShape | src/Snork.AsciiTable/AsciiTableGenerator.cs:377-381 | the row separator is made of edge and fill characters only, Σmax(w, 1) + 3n + 1 long, and exactly as long as a fitting data row when every column is at least 1 wide |
| TableProperties.SeparatorLine | src/Snork.AsciiTable/AsciiTableGenerator.cs:455-458 | GetSeparator(len, c) is c, max(len, 1) − 1 fill characters, c |
| TableProperties.TotalWidthFormula | src/Snork.AsciiTable/AsciiTableGenerator.cs:390-401 | before the title raise, totalWidth is Σw + 4n − 1 over the drawn widths, for own widths and for equal widths |
| TableProperties.ExtentsOfFit | src/Snork.AsciiTable/AsciiTableGenerator.cs:433-453 | the measured extents are consistent, every cell fits its column, and when captions are displayed every caption does too |
| TableProperties.ExtentsFit | src/Snork.AsciiTable/AsciiTableGenerator.cs:385-389 | the same for the extents ToString measures, at the width each column is drawn with |
| TableProperties.EqualColumns | src/Snork.AsciiTable/AsciiTableGenerator.cs:328 | with equal column sizes every column is drawn as wide as the widest, which is at least its own width |
| TableProperties.CollectOk | src/Snork.AsciiTable/AsciiTableGenerator.cs:422-425 | drawing rows in turn succeeds exactly when each row does, and then line k is row k's line |
| TableProperties.DataLinesAre | src/Snork.AsciiTable/AsciiTableGenerator.cs:422-425 | the data section succeeds exactly when every row can be drawn, and then holds each row's line in the rows' order |
| TableProperties.CollectStops | src/Snork.AsciiTable/AsciiTableGenerator.cs:422-425 | the first row that fails decides the error of the whole section |
| TableProperties.LineLengthBounds | src/Snork.AsciiTable/AsciiTableGenerator.cs:390-404 | in every reachable state the width argument is at least 3 per column, never negative, and leaves the title room |
| TableProperties.CaptionLinesOk | src/Snork.AsciiTable/AsciiTableGenerator.cs:416-420 | the caption section can be drawn exactly when captions are off or a column exists |
| TableProperties.TableDataLinesOk | src/Snork.AsciiTable/AsciiTableGenerator.cs:422-425 | the data rows can be drawn exactly when there is no row or a column exists |
| TableProperties.RenderOkIff | src/Snork.AsciiTable/AsciiTableGenerator.cs:383-431 | ToString succeeds exactly when the table has a column, or has neither caption row nor data row to draw |
| TableProperties.Sections | src/Snork.AsciiTable/AsciiTableGenerator.cs:406-427 | the output is top border, title section, caption section, data rows and bottom border, in that order |
| TableProperties.LineCount | src/Snork.AsciiTable/AsciiTableGenerator.cs:406-427 | the number of lines is the borders, the title bar and its separator, two caption lines whenever captions were set (displayed or not), and one per row |
| TableProperties.BorderLines | src/Snork.AsciiTable/AsciiTableGenerator.cs:406-427 | with a border, the first line is the top-corner separator and the last the bottom-corner separator |
| TableProperties.TitleLine | src/Snork.AsciiTable/AsciiTableGenerator.cs:409-414 | a title bar comes right after the top border, followed by an edge separator when there is a border |
| TableProperties.CaptionLine | src/Snork.AsciiTable/AsciiTableGenerator.cs:416-420 | the caption row and the row separator follow the title section |
| TableProperties.DataLine | src/Snork.AsciiTable/AsciiTableGenerator.cs:422-425 | stored row k is drawn at line head + captions + k |
| TableProperties.AllLinesSameWidth | src/Snork.AsciiTable/AsciiTableGenerator.cs:383-431 | when there are columns, the title fits, and captions (if set) are displayed over columns at least 1 wide, ToString succeeds and every line is Σw + 3n + 1 wide |
| TableProperties.TitleOverhang | src/Snork.AsciiTable/AsciiTableGenerator.cs:403-413 | a title wider than the columns raises totalWidth to \|title\| + 2 without the column count: the title bar is \|title\| + 4 wide but the borders only \|title\| + 4 − n |
| TableProperties.RenderPrefixed | src/Snork.AsciiTable/AsciiTableGenerator.cs:429-430 | every line of the output starts with the prefix (null read as ""), and the lines are separated by the line separator |
| TableProperties.EmptyTable | src/Snork.AsciiTable.Tests/AsciiGeneratorTests.cs:45-53 | a new generator with default options draws `..` and `''` |
| TableProperties.TitleOnly | src/Snork.AsciiTable.Tests/AsciiGeneratorTests.cs:33-43 | a table with only a title draws four lines, each \|title\| + 4 wide: top border, `\| title \|`, separator, bottom border |
| TableProperties.TitleBarFits | src/Snork.AsciiTable/AsciiTableGenerator.cs:261-266 | a title bar exactly as wide as " title " shows the title with one space each side, whatever its alignment |
| TableProperties.AutoAlignment | src/Snork.AsciiTable/AsciiTableGenerator.cs:121-129 | automatic alignment puts a shorter numeric value after the padding and any other shorter value before it, and leaves a value at least as wide as the column as it is |
| TableProperties.NumberIsRightAligned | src/Snork.AsciiTable.Tests/AsciiGeneratorTests.cs:106 | the double drawn "1000000" is right-aligned in an 18-wide column |
| TableProperties.StringIsLeftAligned | src/Snork.AsciiTable.Tests/AsciiGeneratorTests.cs:89 | the string "Leroy" is left-aligned in a 10-wide column |
| TableProperties.NullIsBlank | src/Snork.AsciiTable/AsciiTableGenerator.cs:123-126 | a null cell is drawn as blanks |
| TableProperties.TitleNotSpecifiedIsLeft | src/Snork.AsciiTable/AsciiTableGenerator.cs:70-72 | the title's NotSpecified alignment is Left alignment |
| TableProperties.AddRowWidths | src/Snork.AsciiTable/AsciiTableGenerator.cs:443-450 | after Add(row) each existing column is as wide as the wider of its old width and the new cell, so no width shrinks, and each added column is as wide as its cell |

## Left out

- FromEnumerable and FromDataTable (AsciiTableGenerator.cs:200-246) read rows through reflection and System.Data. The model takes rows and columns directly.
- System.Data is not modelled:
  - Rows are stored as given, none longer than the column list. A cell a row did not supply reads as null, where the DataTable would hold DBNull; the code treats the two alike.
  - An unset caption is null, where a DataColumn would carry its automatic name.
- A cell is its `ToString()` text plus its runtime type. Culture-dependent number formatting is outside the model.
- `Type.IsNumericType()` is not part of this model. AlignmentHelper.AlignAuto takes the numeric test as a boolean.
- `Environment.NewLine` is fixed to "\n".
- Wrapping, fixed-width columns, tab replacement, CellLines and row separators between data rows are not modelled. No code shown implements them; RenderInfo.RenderInfo keeps their fields as stored values.
- The obsolete `SetHeading` aliases and the `SetAlignLeft`/`Right`/`Center`, `SetTitleAlign*` and `SetHeadingAlign*` shortcuts are left out. Each only calls a modelled method with a fixed argument.
- The unused `alignment` parameter of RenderRow is left out.
- `Add(data, rowCallback)` is left out. It is AddRange over the callback's results, and a callback is foreign code.
- GetRows and GetCaptions are modelled as the functions Layout.Rows and Layout.Captions.
- The generator's private Align, AlignLeft, AlignRight, AlignCenter and AlignAuto are the AlignmentHelper functions. They differ only in how the numeric test is supplied.
- Generator.AsciiTableGenerator.GetColumn: returns the column's position rather than a reference to it. SetAlign updates the column at that position, so aliasing of column objects is not modelled.
- GetExtents keeps its lengths in a dictionary keyed 0..n−1; the model uses a sequence.
- ToString's sections are private methods of the model (Measure, DrawTitle, DrawCaptions, DrawRows, DrawBody), each proved against its part of Layout. The top and bottom borders are the functions Layout.TopLines and Layout.BottomLines.
- The test files are not modelled. They call methods the generator does not have (SetCaptionAlignment, DisplayBorder, LinePrefix). Their expected strings are used only where they agree with the code.
- TypeHelper.HasNumericType: its own contract states only that null is never numeric. The full characterisation is TypeHelper.HasNumericTypeIsTypeCodeTest.
- Lengths are counted in Dafny characters, where .NET counts UTF-16 code units. A character outside the Basic Multilingual Plane is one character here and two code units there. This affects AlignmentHelper's functions, Layout's width functions and the measured column widths.
- Layout.TotalWidth: the sum of the column widths is an unbounded integer. In the code it is a 32-bit int that would wrap only for widths summing past int.MaxValue, which no string in memory reaches.
- Layout.ResolveAlignment: its contract states only that a caption is never aligned automatically. Its definition is the switch at AsciiTableGenerator.cs:330-349, and Generator.AsciiTableGenerator.RenderRow calls it directly for each cell.

## Notes on the code

- **Centring.** AlignCenter takes `Convert.ToInt32(free / 2.0)`, which rounds half to even:
  - free space 7 puts 4 characters in front;
  - free space 5 puts 2.
- **Caption row.** It is drawn whenever captions were set. DisplayCaptions only decides whether captions count towards the column widths.
- **Long title.** A title longer than the columns raises the total width to |title| + 2 without counting the columns. The title bar is then n characters wider than the borders (TableProperties.TitleOverhang). The model keeps this as written. The tables in the tests have no columns in that case, and then all lines agree.
- **Zero-width column.** A column of width 0 still gets one fill character in the row separator, so the separator is longer than the data rows.
- **Dead check.** The check at line 411 never changes the width: line 404 has already made it at least |title| + 2.
- **Rendering with no columns.** A caption row or a data row over no columns makes `"".Substring(1)` throw. So ToString fails, for example, after SetCaptions of an empty list.
- **Negative index.** `SetAlign` with a negative index skips nothing and so aligns column 0. With no column at all, First() throws.
