/**
 The cell positions of `extract_spreadsheetml`, and the records `sheet_records` reads from the
 cells. `Index` and `MergeAcross` are the attributes as numbers; the column name function is a
 parameter, as it comes from a library.
 */
module SpreadsheetCells {
  import opened Wrappers
  import opened Numerals

  datatype XmlCell = XmlCell(index: Option<int>, mergeAcross: nat, value: string, formula: Option<string>)
  datatype XmlRow = XmlRow(index: Option<int>, cells: seq<XmlCell>)
  datatype Cell = Cell(row: int, column: int, value: string, formula: Option<string>)

  // ---------------------------------------------------------------------------------------
  // Positions
  // ---------------------------------------------------------------------------------------

  /** `row_number` once `k` rows were read. */
  function RowNumber(rows: seq<XmlRow>, k: nat): int
    requires k <= |rows|
  {
    if k == 0 then 0 else rows[k - 1].index.GetOr(RowNumber(rows, k - 1) + 1)
  }

  /** `column_number` once `k` cells of a row were read, the cells each one is merged across included. */
  function ColumnEnd(cells: seq<XmlCell>, k: nat): int
    requires k <= |cells|
    decreases k, 0
  {
    if k == 0 then 0 else ColumnOf(cells, k - 1) + cells[k - 1].mergeAcross
  }

  function ColumnOf(cells: seq<XmlCell>, k: nat): int
    requires k < |cells|
    decreases k, 1
  {
    cells[k].index.GetOr(ColumnEnd(cells, k) + 1)
  }

  predicate Emitted(c: XmlCell) {
    c.formula.Some? || c.value != ""
  }

  function RowCells(cells: seq<XmlCell>, row: int, k: nat): seq<Cell>
    requires k <= |cells|
  {
    if k == 0 then []
    else
      var c := cells[k - 1];
      RowCells(cells, row, k - 1) + if Emitted(c) then [Cell(row, ColumnOf(cells, k - 1), c.value, c.formula)] else []
  }

  function MaxColumn(cells: seq<XmlCell>, k: nat, start: int): int
    requires k <= |cells|
  {
    if k == 0 then start else Larger(MaxColumn(cells, k - 1, start), ColumnOf(cells, k - 1))
  }

  function Larger(a: int, b: int): int {
    if a < b then b else a
  }

  function SheetCells(rows: seq<XmlRow>, k: nat): seq<Cell>
    requires k <= |rows|
  {
    if k == 0 then []
    else SheetCells(rows, k - 1) + RowCells(rows[k - 1].cells, RowNumber(rows, k), |rows[k - 1].cells|)
  }

  function ColumnCount(rows: seq<XmlRow>, k: nat): int
    requires k <= |rows|
  {
    if k == 0 then 0 else MaxColumn(rows[k - 1].cells, |rows[k - 1].cells|, ColumnCount(rows, k - 1))
  }

  method ExtractRow(xml: seq<XmlCell>, rowNumber: int, before: seq<Cell>, maxBefore: int)
          returns (cells: seq<Cell>, maxColumn: int)
    ensures cells == before + RowCells(xml, rowNumber, |xml|) && maxColumn == MaxColumn(xml, |xml|, maxBefore)
  {
    cells, maxColumn := before, maxBefore;
    var columnNumber := 0;
    for k := 0 to |xml|
      invariant cells == before + RowCells(xml, rowNumber, k)
      invariant maxColumn == MaxColumn(xml, k, maxBefore) && columnNumber == ColumnEnd(xml, k)
    {
      var cell := xml[k];
      columnNumber := cell.index.GetOr(columnNumber + 1);
      if cell.formula.Some? || cell.value != "" {
        cells := cells + [Cell(rowNumber, columnNumber, cell.value, cell.formula)];
      }
      maxColumn := if maxColumn < columnNumber then columnNumber else maxColumn;
      columnNumber := columnNumber + cell.mergeAcross;
    }
  }

  method ExtractSheet(rows: seq<XmlRow>) returns (cells: seq<Cell>, rowCount: int, columnCount: int)
    ensures cells == SheetCells(rows, |rows|)
    ensures rowCount == RowNumber(rows, |rows|) && columnCount == ColumnCount(rows, |rows|)
  {
    cells, rowCount, columnCount := [], 0, 0;
    for k := 0 to |rows|
      invariant cells == SheetCells(rows, k) && rowCount == RowNumber(rows, k) && columnCount == ColumnCount(rows, k)
    {
      rowCount := rows[k].index.GetOr(rowCount + 1);
      cells, columnCount := ExtractRow(rows[k].cells, rowCount, cells, columnCount);
    }
  }

  // ---------------------------------------------------------------------------------------
  // Order
  // ---------------------------------------------------------------------------------------

  /** Every explicit index lies beyond what was read before it. */
  predicate ColumnsAscend(cells: seq<XmlCell>) {
    forall k | 0 <= k < |cells| && cells[k].index.Some? :: cells[k].index.value > ColumnEnd(cells, k)
  }

  predicate RowsAscend(rows: seq<XmlRow>) {
    && (forall k | 0 <= k < |rows| && rows[k].index.Some? :: rows[k].index.value > RowNumber(rows, k))
    && (forall k | 0 <= k < |rows| :: ColumnsAscend(rows[k].cells))
  }

  predicate Before(a: Cell, b: Cell) {
    a.row < b.row || (a.row == b.row && a.column < b.column)
  }

  ghost predicate Ascending(cells: seq<Cell>) {
    forall i, j | 0 <= i < j < |cells| :: Before(cells[i], cells[j])
  }

  lemma {:induction false} RowCellsAscend(cells: seq<XmlCell>, row: int, k: nat)
    requires k <= |cells| && ColumnsAscend(cells)
    ensures Ascending(RowCells(cells, row, k)) && ColumnEnd(cells, k) >= 0
    ensures forall i | 0 <= i < |RowCells(cells, row, k)| ::
      var c := RowCells(cells, row, k)[i]; c.row == row && 1 <= c.column <= ColumnEnd(cells, k)
  {
    if k > 0 {
      RowCellsAscend(cells, row, k - 1);
    }
  }

  lemma AscendingJoined(a: seq<Cell>, b: seq<Cell>, row: int)
    requires Ascending(a) && Ascending(b)
    requires (forall i | 0 <= i < |a| :: a[i].row < row) && (forall i | 0 <= i < |b| :: b[i].row == row)
    ensures Ascending(a + b)
  {
  }

  lemma {:induction false} SheetCellsAscend(rows: seq<XmlRow>, k: nat)
    requires k <= |rows| && RowsAscend(rows)
    ensures Ascending(SheetCells(rows, k)) && RowNumber(rows, k) >= 0
    ensures forall i | 0 <= i < |SheetCells(rows, k)| ::
        1 <= SheetCells(rows, k)[i].row <= RowNumber(rows, k) && SheetCells(rows, k)[i].column >= 1
  {
    if k > 0 {
      SheetCellsAscend(rows, k - 1);
      var xml := rows[k - 1].cells;
      RowCellsAscend(xml, RowNumber(rows, k), |xml|);
      assert RowNumber(rows, k) > RowNumber(rows, k - 1);
      AscendingJoined(SheetCells(rows, k - 1), RowCells(xml, RowNumber(rows, k), |xml|), RowNumber(rows, k));
    }
  }

  lemma {:induction false} RowWithinCount(cells: seq<XmlCell>, row: int, k: nat, start: int)
    requires k <= |cells|
    ensures MaxColumn(cells, k, start) >= start
    ensures forall i | 0 <= i < |RowCells(cells, row, k)| ::
        RowCells(cells, row, k)[i].column <= MaxColumn(cells, k, start)
  {
    if k > 0 {
      RowWithinCount(cells, row, k - 1, start);
    }
  }

  lemma {:induction false} CellsWithinCount(rows: seq<XmlRow>, k: nat)
    requires k <= |rows|
    ensures forall i | 0 <= i < |SheetCells(rows, k)| :: SheetCells(rows, k)[i].column <= ColumnCount(rows, k)
  {
    if k > 0 {
      CellsWithinCount(rows, k - 1);
      RowWithinCount(rows[k - 1].cells, RowNumber(rows, k), |rows[k - 1].cells|, ColumnCount(rows, k - 1));
    }
  }

  /**
   If every explicit index lies ahead, the cells come in strictly ascending order of row and
   column, within the reported counts, however many cells are merged.
   */
  lemma ExtractedInOrder(rows: seq<XmlRow>)
    requires RowsAscend(rows)
    ensures Ascending(SheetCells(rows, |rows|))
    ensures forall c | c in SheetCells(rows, |rows|) ::
        1 <= c.row <= RowNumber(rows, |rows|) && 1 <= c.column <= ColumnCount(rows, |rows|)
  {
    SheetCellsAscend(rows, |rows|);
    CellsWithinCount(rows, |rows|);
  }

  /** The address of a cell, in a column name function of letters. */
  function Address(columnName: nat -> string, c: Cell): string
    requires c.row >= 0 && c.column >= 1
  {
    columnName(c.column - 1) + Decimal(c.row)
  }

  ghost predicate NamesColumns(columnName: nat -> string) {
    && (forall a, b :: columnName(a) == columnName(b) ==> a == b)
    && (forall a, i | 0 <= i < |columnName(a)| :: 'A' <= columnName(a)[i] <= 'Z')
  }

  lemma LettersThenDigits(a: string, x: string, b: string, y: string)
    requires a + x == b + y && Digits(x) && Digits(y)
    requires (forall i | 0 <= i < |a| :: 'A' <= a[i] <= 'Z') && (forall i | 0 <= i < |b| :: 'A' <= b[i] <= 'Z')
    requires x != "" && y != ""
    ensures a == b && x == y
  {
    var s, t := a + x, b + y;
    assert s[|a|] == x[0] && t[|b|] == y[0];
    assert forall i | 0 <= i < |a| :: s[i] == a[i];
    assert forall i | 0 <= i < |b| :: t[i] == b[i];
    assert a == s[..|a|] && b == s[..|b|];
    assert x == s[|a|..] && y == s[|b|..];
  }

  lemma AddressDecides(columnName: nat -> string, c: Cell, d: Cell)
    requires NamesColumns(columnName) && c.row >= 0 && c.column >= 1 && d.row >= 0 && d.column >= 1
    ensures Address(columnName, c) == Address(columnName, d) <==> c.row == d.row && c.column == d.column
  {
    if Address(columnName, c) == Address(columnName, d) {
      LettersThenDigits(columnName(c.column - 1), Decimal(c.row), columnName(d.column - 1), Decimal(d.row));
    }
  }

  /** No two of them share an address. */
  lemma AddressesAreUnique(rows: seq<XmlRow>, columnName: nat -> string, i: nat, j: nat)
    requires RowsAscend(rows) && NamesColumns(columnName) && i < j < |SheetCells(rows, |rows|)|
    ensures forall c | c in SheetCells(rows, |rows|) :: c.row >= 1 && c.column >= 1
    ensures Address(columnName, SheetCells(rows, |rows|)[i]) != Address(columnName, SheetCells(rows, |rows|)[j])
  {
    ExtractedInOrder(rows);
    var c, d := SheetCells(rows, |rows|)[i], SheetCells(rows, |rows|)[j];
    assert Before(c, d);
    AddressDecides(columnName, c, d);
  }

  // ---------------------------------------------------------------------------------------
  // sheet_records
  // ---------------------------------------------------------------------------------------

  type Record = map<string, string>

  /** `headers`: of several cells in one column of row 1 the last counts. */
  function Headers(cells: seq<Cell>): map<int, string> {
    if cells == [] then map[]
    else
      var last, before := cells[|cells| - 1], Headers(cells[..|cells| - 1]);
      if last.row == 1 then before[last.column := last.value] else before
  }

  /** A cell below the header row, in a column that has a header. */
  predicate Headered(headers: map<int, string>, c: Cell) {
    c.row > 1 && c.column in headers
  }

  function RecordOf(headers: map<int, string>, cells: seq<Cell>, row: int): Record {
    if cells == [] then map[]
    else
      var last, before := cells[|cells| - 1], RecordOf(headers, cells[..|cells| - 1], row);
      if Headered(headers, last) && last.row == row then before[headers[last.column] := last.value] else before
  }

  predicate HasRecord(headers: map<int, string>, cells: seq<Cell>, row: int) {
    exists k | 0 <= k < |cells| :: Headered(headers, cells[k]) && cells[k].row == row
  }

  ghost predicate StrictlyAscending(keys: seq<int>) {
    forall i, j | 0 <= i < j < |keys| :: keys[i] < keys[j]
  }

  lemma {:induction false} LeastOf(keys: set<int>) returns (least: int)
    requires |keys| > 0
    ensures least in keys && forall k | k in keys :: least <= k
  {
    assert (forall k: int :: k !in keys) ==> keys == {};
    var k :| k in keys;
    if keys == {k} {
      least := k;
    } else {
      var others := keys - {k};
      assert keys == others + {k} && others != {};
      var other := LeastOf(others);
      least := if k < other then k else other;
    }
  }

  /** `sorted(rows)` */
  method SortedKeys(keys: set<int>) returns (sorted: seq<int>)
    ensures StrictlyAscending(sorted) && forall k :: k in sorted <==> k in keys
  {
    sorted := [];
    var rest := keys;
    while |rest| > 0
      invariant StrictlyAscending(sorted) && rest <= keys
      invariant forall k :: k in sorted <==> k in keys && k !in rest
      invariant forall i, k | 0 <= i < |sorted| && k in rest :: sorted[i] < k
      decreases rest
    {
      ghost var _ := LeastOf(rest);
      var least :| least in rest && forall k | k in rest :: least <= k;
      sorted := sorted + [least];
      rest := rest - {least};
    }
  }

  lemma RecordGrows(headers: map<int, string>, cells: seq<Cell>, k: nat, row: int)
    requires k < |cells|
    ensures HasRecord(headers, cells[..k + 1], row) <==>
      HasRecord(headers, cells[..k], row) || (Headered(headers, cells[k]) && cells[k].row == row)
    ensures RecordOf(headers, cells[..k + 1], row) ==
      if Headered(headers, cells[k]) && cells[k].row == row
      then RecordOf(headers, cells[..k], row)[headers[cells[k].column] := cells[k].value]
      else RecordOf(headers, cells[..k], row)
  {
    assert cells[..k + 1][..k] == cells[..k];
    if HasRecord(headers, cells[..k], row) {
      var i :| 0 <= i < k && Headered(headers, cells[..k][i]) && cells[..k][i].row == row;
      assert cells[..k + 1][i] == cells[i];
    }
    assert cells[..k + 1][k] == cells[k];
  }

  lemma {:induction false} NoRecordYet(headers: map<int, string>, cells: seq<Cell>, row: int)
    requires !HasRecord(headers, cells, row)
    ensures RecordOf(headers, cells, row) == map[]
  {
    if cells != [] {
      var last := |cells| - 1;
      RecordGrows(headers, cells, last, row);
      assert cells[..last + 1] == cells;
      NoRecordYet(headers, cells[..last], row);
    }
  }

  /** What the dictionary of rows holds once some cells were read. */
  ghost predicate Gathered(headers: map<int, string>, cells: seq<Cell>, rows: map<int, Record>) {
    && (forall row :: row in rows <==> HasRecord(headers, cells, row))
    && (forall row | row in rows :: rows[row] == RecordOf(headers, cells, row))
  }

  lemma GatheredNext(headers: map<int, string>, cells: seq<Cell>, k: nat, rows: map<int, Record>)
    requires k < |cells| && Gathered(headers, cells[..k], rows)
    ensures !Headered(headers, cells[k]) ==> Gathered(headers, cells[..k + 1], rows)
    ensures Headered(headers, cells[k]) ==>
      var row := cells[k].row;
      var record := if row in rows then rows[row] else map[];
      Gathered(headers, cells[..k + 1], rows[row := record[headers[cells[k].column] := cells[k].value]])
  {
    forall row
      ensures HasRecord(headers, cells[..k + 1], row) <==>
        HasRecord(headers, cells[..k], row) || (Headered(headers, cells[k]) && cells[k].row == row)
      ensures RecordOf(headers, cells[..k + 1], row) ==
        if Headered(headers, cells[k]) && cells[k].row == row
        then RecordOf(headers, cells[..k], row)[headers[cells[k].column] := cells[k].value]
        else RecordOf(headers, cells[..k], row)
    {
      RecordGrows(headers, cells, k, row);
    }
    if !HasRecord(headers, cells[..k], cells[k].row) {
      NoRecordYet(headers, cells[..k], cells[k].row);
    }
  }

  /** One record for each row below the header that has a headered cell, in the order of the rows. */
  method SheetRecords(cells: seq<Cell>) returns (records: seq<Record>, rowsOf: seq<int>)
    ensures StrictlyAscending(rowsOf) && forall row :: row in rowsOf <==> HasRecord(Headers(cells), cells, row)
    ensures |records| == |rowsOf| && forall i | 0 <= i < |records| ::
        records[i] == RecordOf(Headers(cells), cells, rowsOf[i])
  {
    var headers := Headers(cells);
    var rows: map<int, Record> := map[];
    for k := 0 to |cells|
      invariant Gathered(headers, cells[..k], rows)
    {
      GatheredNext(headers, cells, k, rows);
      var cell := cells[k];
      if cell.row <= 1 || cell.column !in headers { continue; }
      var record := if cell.row in rows then rows[cell.row] else map[];
      rows := rows[cell.row := record[headers[cell.column] := cell.value]];
    }
    assert cells[..|cells|] == cells;
    rowsOf := SortedKeys(rows.Keys);
    records := seq(|rowsOf|, i requires 0 <= i < |rowsOf| => assert rowsOf[i] in rowsOf; rows[rowsOf[i]]);
  }

  /** The k-th cell names `name` in the row. */
  predicate Names(headers: map<int, string>, cells: seq<Cell>, row: int, name: string, k: nat)
    requires k < |cells|
  {
    Headered(headers, cells[k]) && cells[k].row == row && headers[cells[k].column] == name
  }

  /** In a record, a header name has the value of the last cell that names it. */
  lemma {:induction false} LastCellWins(headers: map<int, string>, cells: seq<Cell>, row: int, name: string, k: nat)
    requires k < |cells| && Names(headers, cells, row, name, k)
    requires forall i | k < i < |cells| :: !Names(headers, cells, row, name, i)
    ensures name in RecordOf(headers, cells, row) && RecordOf(headers, cells, row)[name] == cells[k].value
  {
    var last := |cells| - 1;
    if k < last {
      assert !Names(headers, cells, row, name, last);
      forall i | k < i < last ensures !Names(headers, cells[..last], row, name, i) {
        assert !Names(headers, cells, row, name, i);
      }
      LastCellWins(headers, cells[..last], row, name, k);
    }
  }
}
