/**
 * The row extractor: reads the first worksheet of a workbook and flattens
 * each row among its first `Rows` rows that holds text in its first
 * `Columns` columns into one string, the row's non-blank cell texts there
 * joined by single spaces in column order (`ReadExcelFileUsedRange` reads
 * the used range's own rows and columns instead); and the file-name check
 * that admits only the two spreadsheet extensions.
 *
 * The spreadsheet library itself is not modelled. A worksheet is its used
 * range (`Dimension`, absent for an empty sheet) and a sparse map from
 * 1-based (row, column) to the cell value as `ToString()` renders it; a cell
 * missing from the map is `null`.
 */
module ExcelProcessor {
  import opened Wrappers
  import opened Text

  /** A cell address: (row, column), both numbered from 1. */
  type Coord = (int, int)

  /** A rectangular range from (fromRow, fromCol) to (toRow, toCol), both corners included. */
  datatype Address = Address(fromRow: int, fromCol: int, toRow: int, toCol: int) {
    /** The number of rows the range spans (the library's `Rows`). */
    function Rows(): int { toRow - fromRow + 1 }
    /** The number of columns the range spans (the library's `Columns`). */
    function Columns(): int { toCol - fromCol + 1 }
    predicate Contains(c: Coord) { fromRow <= c.0 <= toRow && fromCol <= c.1 <= toCol }
  }

  datatype Worksheet = Worksheet(dimension: Option<Address>, cells: map<Coord, string>)

  datatype Workbook = Workbook(worksheets: seq<Worksheet>)

  const ReadErrorPrefix := "Error reading Excel file: "
  const NoWorksheetMessage := "No worksheet found in the Excel file."

  /** `Cells[row, col].Value?.ToString()`. */
  function CellText(ws: Worksheet, row: int, col: int): Option<string> {
    if (row, col) in ws.cells then Some(ws.cells[(row, col)]) else None
  }

  predicate HasText(ws: Worksheet, row: int, col: int) {
    !IsNullOrWhiteSpace(CellText(ws, row, col))
  }

  /** The texts of the non-blank cells of `row` in columns firstCol..lastCol, in column order. */
  function RowCells(ws: Worksheet, row: int, firstCol: int, lastCol: int): seq<string>
    decreases lastCol - firstCol
  {
    if lastCol < firstCol then []
    else RowCells(ws, row, firstCol, lastCol - 1)
         + (if HasText(ws, row, lastCol) then [CellText(ws, row, lastCol).value] else [])
  }

  /** The parts separated by single spaces, with no separator before the first or after the last. */
  function Join(parts: seq<string>): string
    decreases |parts|
  {
    if |parts| == 0 then ""
    else if |parts| == 1 then parts[0]
    else Join(parts[..|parts| - 1]) + " " + parts[|parts| - 1]
  }

  /** The flattened text of every row in firstRow..lastRow that has a non-blank cell in firstCol..lastCol, in row order. */
  function Flatten(ws: Worksheet, firstRow: int, lastRow: int, firstCol: int, lastCol: int): seq<string>
    decreases lastRow - firstRow
  {
    if lastRow < firstRow then []
    else
      var cells := RowCells(ws, lastRow, firstCol, lastCol);
      Flatten(ws, firstRow, lastRow - 1, firstCol, lastCol) + (if cells == [] then [] else [Join(cells)])
  }

  /** The rows in firstRow..lastRow that Flatten keeps, in the order it keeps them. */
  function DataRows(ws: Worksheet, firstRow: int, lastRow: int, firstCol: int, lastCol: int): seq<int>
    decreases lastRow - firstRow
  {
    if lastRow < firstRow then []
    else
      DataRows(ws, firstRow, lastRow - 1, firstCol, lastCol)
      + (if RowCells(ws, lastRow, firstCol, lastCol) == [] then [] else [lastRow])
  }

  function RowCount(ws: Worksheet): int {
    if ws.dimension.Some? then ws.dimension.value.Rows() else 0
  }

  function ColumnCount(ws: Worksheet): int {
    if ws.dimension.Some? then ws.dimension.value.Columns() else 0
  }

  /** The rows the extractor returns for a worksheet as written: rows 1..Rows, columns 1..Columns. */
  function SheetRows(ws: Worksheet): seq<string> {
    Flatten(ws, 1, RowCount(ws), 1, ColumnCount(ws))
  }

  /** The rows of the worksheet's used range, wherever it starts. */
  function UsedRangeRows(ws: Worksheet): seq<string> {
    if ws.dimension.Some? then
      var d := ws.dimension.value;
      Flatten(ws, d.fromRow, d.toRow, d.fromCol, d.toCol)
    else []
  }

  /** The library keeps every stored cell inside the used range, and has no used range when no cell is stored. */
  predicate DimensionCovers(ws: Worksheet) {
    forall c :: c in ws.cells ==> ws.dimension.Some? && ws.dimension.value.Contains(c)
  }

  /** The nested row/column loop, building each row's text in place and adding the rows that have data. */
  method FlattenRange(ws: Worksheet, firstRow: int, lastRow: int, firstCol: int, lastCol: int)
    returns (textData: seq<string>)
    ensures textData == Flatten(ws, firstRow, lastRow, firstCol, lastCol)
  {
    textData := [];
    var row := firstRow;
    while row <= lastRow
      invariant firstRow <= row <= if lastRow < firstRow then firstRow else lastRow + 1
      invariant textData == Flatten(ws, firstRow, row - 1, firstCol, lastCol)
    {
      var rowText := "";
      var hasData := false;
      var col := firstCol;
      while col <= lastCol
        invariant firstCol <= col <= if lastCol < firstCol then firstCol else lastCol + 1
        invariant hasData == (RowCells(ws, row, firstCol, col - 1) != [])
        invariant rowText == Join(RowCells(ws, row, firstCol, col - 1))
      {
        ghost var before := RowCells(ws, row, firstCol, col - 1);
        var cellValue := CellText(ws, row, col);
        if !IsNullOrWhiteSpace(cellValue) {
          if hasData {
            rowText := rowText + " ";
          }
          rowText := rowText + cellValue.value;
          hasData := true;
          assert RowCells(ws, row, firstCol, col) == before + [cellValue.value];
          assert (before + [cellValue.value])[..|before|] == before;
        } else {
          assert RowCells(ws, row, firstCol, col) == before;
        }
        col := col + 1;
      }
      if hasData {
        textData := textData + [rowText];
      }
      row := row + 1;
    }
  }

  /**
   * `ReadExcelFileAsync`: `workbook` is the outcome of opening the file, or
   * the message of the exception that opening or reading it threw. Every
   * failure is reported with one message and no rows.
   */
  method ReadExcelFile(workbook: Result<Workbook, string>) returns (r: Result<seq<string>, string>)
    ensures workbook.Failure? ==> r == Failure(ReadErrorPrefix + workbook.error)
    ensures workbook.Success? && workbook.value.worksheets == [] ==>
              r == Failure(ReadErrorPrefix + NoWorksheetMessage)
    ensures workbook.Success? && workbook.value.worksheets != [] ==>
              r == Success(SheetRows(workbook.value.worksheets[0]))
  {
    match workbook
    case Failure(cause) =>
      r := Failure(ReadErrorPrefix + cause);
    case Success(book) =>
      if book.worksheets == [] {
        r := Failure(ReadErrorPrefix + NoWorksheetMessage);
      } else {
        var worksheet := book.worksheets[0];
        var rowCount := RowCount(worksheet);
        var colCount := ColumnCount(worksheet);
        var textData := FlattenRange(worksheet, 1, rowCount, 1, colCount);
        r := Success(textData);
      }
  }

  /** The extractor with its loops over the used range instead of 1..Rows and 1..Columns. */
  method ReadExcelFileUsedRange(workbook: Result<Workbook, string>) returns (r: Result<seq<string>, string>)
    ensures workbook.Failure? ==> r == Failure(ReadErrorPrefix + workbook.error)
    ensures workbook.Success? && workbook.value.worksheets == [] ==>
              r == Failure(ReadErrorPrefix + NoWorksheetMessage)
    ensures workbook.Success? && workbook.value.worksheets != [] ==>
              r == Success(UsedRangeRows(workbook.value.worksheets[0]))
  {
    match workbook
    case Failure(cause) =>
      r := Failure(ReadErrorPrefix + cause);
    case Success(book) =>
      if book.worksheets == [] {
        r := Failure(ReadErrorPrefix + NoWorksheetMessage);
      } else {
        var worksheet := book.worksheets[0];
        var textData := [];
        if worksheet.dimension.Some? {
          var d := worksheet.dimension.value;
          textData := FlattenRange(worksheet, d.fromRow, d.toRow, d.fromCol, d.toCol);
        }
        r := Success(textData);
      }
  }

  /** `IsValidExcelFile`: a non-blank name whose extension, lower-cased, is ".xlsx" or ".xls". */
  function IsValidExcelFile(fileName: string): (valid: bool)
    ensures IsBlank(fileName) ==> !valid
  {
    if IsBlank(fileName) then false
    else
      var extension := ToLowerInvariant(GetExtension(fileName));
      extension == ".xlsx" || extension == ".xls"
  }

  // ---------------------------------------------------------------------------
  // Properties of the flattening

  /** Joining puts the first part first, then one space, then the rest joined. */
  lemma {:induction false} JoinCons(first: string, rest: seq<string>)
    requires rest != []
    ensures Join([first] + rest) == first + " " + Join(rest)
    decreases |rest|
  {
    var parts := [first] + rest;
    if |rest| == 1 {
      assert parts[..1] == [first];
    } else {
      var init := rest[..|rest| - 1];
      assert parts[..|parts| - 1] == [first] + init;
      JoinCons(first, init);
    }
  }

  /** A joined row ends with its last part, so it is not blank when that part is not. */
  lemma JoinNonBlank(parts: seq<string>)
    requires parts != [] && !IsBlank(parts[|parts| - 1])
    ensures !IsBlank(Join(parts))
  {
    var last := parts[|parts| - 1];
    var s := Join(parts);
    var j :| 0 <= j < |last| && !IsWhiteSpace(last[j]);
    assert s[|s| - |last| + j] == last[j];
  }

  lemma {:induction false} RowCellsProperties(ws: Worksheet, row: int, firstCol: int, lastCol: int)
    ensures |RowCells(ws, row, firstCol, lastCol)| <= if lastCol < firstCol then 0 else lastCol - firstCol + 1
    ensures forall k :: 0 <= k < |RowCells(ws, row, firstCol, lastCol)| ==> !IsBlank(RowCells(ws, row, firstCol, lastCol)[k])
    ensures RowCells(ws, row, firstCol, lastCol) != [] <==> exists col :: firstCol <= col <= lastCol && HasText(ws, row, col)
    decreases lastCol - firstCol
  {
    if firstCol <= lastCol {
      RowCellsProperties(ws, row, firstCol, lastCol - 1);
    }
  }

  /** No row yields more than one string, so there are at most as many strings as rows. */
  lemma {:induction false} FlattenBound(ws: Worksheet, firstRow: int, lastRow: int, firstCol: int, lastCol: int)
    ensures |Flatten(ws, firstRow, lastRow, firstCol, lastCol)| <= if lastRow < firstRow then 0 else lastRow - firstRow + 1
    decreases lastRow - firstRow
  {
    if firstRow <= lastRow {
      FlattenBound(ws, firstRow, lastRow - 1, firstCol, lastCol);
    }
  }

  /** No extracted string is empty or white space only. */
  lemma {:induction false} FlattenNonBlank(ws: Worksheet, firstRow: int, lastRow: int, firstCol: int, lastCol: int)
    ensures forall k :: 0 <= k < |Flatten(ws, firstRow, lastRow, firstCol, lastCol)| ==>
              !IsBlank(Flatten(ws, firstRow, lastRow, firstCol, lastCol)[k])
    decreases lastRow - firstRow
  {
    if firstRow <= lastRow {
      FlattenNonBlank(ws, firstRow, lastRow - 1, firstCol, lastCol);
      var cells := RowCells(ws, lastRow, firstCol, lastCol);
      if cells != [] {
        RowCellsProperties(ws, lastRow, firstCol, lastCol);
        JoinNonBlank(cells);
      }
    }
  }

  /** The k-th extracted string is the joined non-blank cells of the k-th row that has data. */
  lemma {:induction false} FlattenFollowsDataRows(ws: Worksheet, firstRow: int, lastRow: int, firstCol: int, lastCol: int)
    ensures |Flatten(ws, firstRow, lastRow, firstCol, lastCol)| == |DataRows(ws, firstRow, lastRow, firstCol, lastCol)|
    ensures forall k :: 0 <= k < |Flatten(ws, firstRow, lastRow, firstCol, lastCol)| ==>
              Flatten(ws, firstRow, lastRow, firstCol, lastCol)[k]
              == Join(RowCells(ws, DataRows(ws, firstRow, lastRow, firstCol, lastCol)[k], firstCol, lastCol))
    decreases lastRow - firstRow
  {
    if firstRow <= lastRow {
      FlattenFollowsDataRows(ws, firstRow, lastRow - 1, firstCol, lastCol);
    }
  }

  /** The rows kept are strictly ascending, and they are exactly the rows in range with a non-blank cell. */
  lemma {:induction false} DataRowsAscending(ws: Worksheet, firstRow: int, lastRow: int, firstCol: int, lastCol: int)
    ensures forall j, k :: 0 <= j < k < |DataRows(ws, firstRow, lastRow, firstCol, lastCol)| ==>
              DataRows(ws, firstRow, lastRow, firstCol, lastCol)[j] < DataRows(ws, firstRow, lastRow, firstCol, lastCol)[k]
    ensures forall r :: r in DataRows(ws, firstRow, lastRow, firstCol, lastCol) <==>
              firstRow <= r <= lastRow && RowCells(ws, r, firstCol, lastCol) != []
    decreases lastRow - firstRow
  {
    if firstRow <= lastRow {
      var prefix := DataRows(ws, firstRow, lastRow - 1, firstCol, lastCol);
      DataRowsAscending(ws, firstRow, lastRow - 1, firstCol, lastCol);
      forall j | 0 <= j < |prefix|
        ensures prefix[j] < lastRow
      {
        assert prefix[j] in prefix;
      }
    }
  }

  /** A worksheet without a used range yields no rows. */
  lemma NoDimensionNoRows(ws: Worksheet)
    requires ws.dimension.None?
    ensures SheetRows(ws) == [] && UsedRangeRows(ws) == []
  {
  }

  /** Over the used range, a row is extracted exactly when it holds a non-blank cell. */
  lemma UsedRangeReadsEveryDataRow(ws: Worksheet, row: int)
    requires DimensionCovers(ws)
    ensures (exists col :: HasText(ws, row, col)) <==>
              ws.dimension.Some?
              && row in DataRows(ws, ws.dimension.value.fromRow, ws.dimension.value.toRow,
                                 ws.dimension.value.fromCol, ws.dimension.value.toCol)
  {
    if ws.dimension.Some? {
      var d := ws.dimension.value;
      DataRowsAscending(ws, d.fromRow, d.toRow, d.fromCol, d.toCol);
      RowCellsProperties(ws, row, d.fromCol, d.toCol);
      if col :| HasText(ws, row, col) {
        assert d.Contains((row, col));
      }
    }
  }

  /** A sheet whose only value sits in A2: the loops over 1..Rows read row 1 alone and lose it. */
  lemma AsWrittenSkipsOffsetRows()
    ensures var ws := Worksheet(Some(Address(2, 1, 2, 1)), map[(2, 1) := "x"]);
            DimensionCovers(ws) && HasText(ws, 2, 1) && SheetRows(ws) == [] && UsedRangeRows(ws) == ["x"]
  {
    var ws := Worksheet(Some(Address(2, 1, 2, 1)), map[(2, 1) := "x"]);
    assert "x"[0] == 'x';
    assert HasText(ws, 2, 1) && !HasText(ws, 1, 1);
    assert RowCells(ws, 2, 1, 1) == ["x"];
    assert RowCells(ws, 1, 1, 1) == [];
  }

  /** A sheet whose values sit in B1 and C1: the loops over 1..Columns read columns A and B and lose "b". */
  lemma AsWrittenSkipsOffsetColumns()
    ensures var ws := Worksheet(Some(Address(1, 2, 1, 3)), map[(1, 2) := "a", (1, 3) := "b"]);
            DimensionCovers(ws) && HasText(ws, 1, 3) && SheetRows(ws) == ["a"] && UsedRangeRows(ws) == ["a b"]
  {
    var ws := Worksheet(Some(Address(1, 2, 1, 3)), map[(1, 2) := "a", (1, 3) := "b"]);
    assert "a"[0] == 'a' && "b"[0] == 'b';
    assert !HasText(ws, 1, 1) && HasText(ws, 1, 2) && HasText(ws, 1, 3);
    assert RowCells(ws, 1, 1, 0) == [] && RowCells(ws, 1, 2, 1) == [];
    assert RowCells(ws, 1, 1, 2) == ["a"];
    assert RowCells(ws, 1, 2, 3) == ["a", "b"];
    assert Join(["a", "b"]) == "a b";
  }

  /** The cells of a row in firstCol..lastCol are those in firstCol..mid followed by those in mid+1..lastCol. */
  lemma {:induction false} RowCellsSplit(ws: Worksheet, row: int, firstCol: int, mid: int, lastCol: int)
    requires firstCol - 1 <= mid <= lastCol
    ensures RowCells(ws, row, firstCol, lastCol) == RowCells(ws, row, firstCol, mid) + RowCells(ws, row, mid + 1, lastCol)
    decreases lastCol - mid
  {
    if mid < lastCol {
      RowCellsSplit(ws, row, firstCol, mid, lastCol - 1);
    }
  }

  /** Columns without text contribute nothing. */
  lemma {:induction false} RowCellsBlank(ws: Worksheet, row: int, firstCol: int, lastCol: int)
    requires forall col :: firstCol <= col <= lastCol ==> !HasText(ws, row, col)
    ensures RowCells(ws, row, firstCol, lastCol) == []
    decreases lastCol - firstCol
  {
    if firstCol <= lastCol {
      RowCellsBlank(ws, row, firstCol, lastCol - 1);
    }
  }

  /**
   * Over the used range's columns, a row keeps every non-blank cell it has:
   * scanning any wider column range gives the same cells in the same order.
   */
  lemma UsedRangeKeepsEveryCell(ws: Worksheet, row: int, firstCol: int, lastCol: int)
    requires DimensionCovers(ws) && ws.dimension.Some?
    requires firstCol <= ws.dimension.value.fromCol && ws.dimension.value.toCol <= lastCol
    ensures RowCells(ws, row, ws.dimension.value.fromCol, ws.dimension.value.toCol)
            == RowCells(ws, row, firstCol, lastCol)
  {
    var d := ws.dimension.value;
    forall col | firstCol <= col <= d.fromCol - 1 || d.toCol + 1 <= col <= lastCol
      ensures !HasText(ws, row, col)
    {
      assert (row, col) !in ws.cells;
    }
    RowCellsBlank(ws, row, firstCol, d.fromCol - 1);
    if d.fromCol <= d.toCol {
      RowCellsBlank(ws, row, d.toCol + 1, lastCol);
      RowCellsSplit(ws, row, firstCol, d.fromCol - 1, lastCol);
      RowCellsSplit(ws, row, d.fromCol, d.toCol, lastCol);
    } else {
      RowCellsBlank(ws, row, firstCol, lastCol);
    }
  }

  // ---------------------------------------------------------------------------
  // Properties of the file-name check

  lemma ToLowerSuffix(s: string, a: nat)
    requires a <= |s|
    ensures ToLowerInvariant(s[a..]) == ToLowerInvariant(s)[a..]
  {
  }

  /** A name ending in ".xlsx" or ".xls", ignoring case, has that extension. */
  lemma SuffixIsExtension(fileName: string, suffix: string)
    requires suffix == ".xlsx" || suffix == ".xls"
    requires EndsWith(ToLowerInvariant(fileName), suffix)
    ensures ToLowerInvariant(GetExtension(fileName)) == suffix
  {
    var lower := ToLowerInvariant(fileName);
    var p := |fileName| - |suffix|;
    assert lower[p] == suffix[0];
    forall k | p < k < |fileName|
      ensures fileName[k] != '.' && !IsDirectorySeparator(fileName[k])
    {
      assert lower[k] == suffix[k - p];
    }
    ExtensionFromDot(fileName, |fileName|, p);
    ToLowerSuffix(fileName, p);
  }

  /** The check accepts exactly the names that end in ".xlsx" or ".xls", ignoring case. */
  lemma IsValidExcelFileIffSuffix(fileName: string)
    ensures IsValidExcelFile(fileName) <==>
              EndsWith(ToLowerInvariant(fileName), ".xlsx") || EndsWith(ToLowerInvariant(fileName), ".xls")
  {
    var lower := ToLowerInvariant(fileName);
    if EndsWith(lower, ".xlsx") || EndsWith(lower, ".xls") {
      var suffix := if EndsWith(lower, ".xlsx") then ".xlsx" else ".xls";
      SuffixIsExtension(fileName, suffix);
      assert !IsWhiteSpace(fileName[|fileName| - |suffix|]);
    }
    if IsValidExcelFile(fileName) {
      var ext := GetExtension(fileName);
      ToLowerSuffix(fileName, |fileName| - |ext|);
    }
  }

  /** Upper or lower case in the name makes no difference to the check. */
  lemma IsValidExcelFileIgnoresCase(fileName: string)
    ensures IsValidExcelFile(ToLowerInvariant(fileName)) == IsValidExcelFile(fileName)
  {
    IsValidExcelFileIffSuffix(fileName);
    IsValidExcelFileIffSuffix(ToLowerInvariant(fileName));
    assert ToLowerInvariant(ToLowerInvariant(fileName)) == ToLowerInvariant(fileName);
  }

  lemma DataXlsxIsAccepted()
    ensures IsValidExcelFile("Data.XLSX")
  {
    var name := "Data.XLSX";
    ExtensionFromDot(name, |name|, 4);
    assert GetExtension(name) == ".XLSX";
    assert ToLowerInvariant(".XLSX") == ".xlsx";
    assert name[0] == 'D';
  }

  lemma DataCsvIsRejected()
    ensures !IsValidExcelFile("data.csv")
  {
    var name := "data.csv";
    ExtensionFromDot(name, |name|, 4);
    assert GetExtension(name) == ".csv";
    assert ToLowerInvariant(".csv")[1] == 'c';
  }
}
