/** Which cells a sheet gives, where they stand, and what its records say, for every sheet. */
module SpreadsheetContents {
  import opened Wrappers
  import opened SpreadsheetCells

  // ---------------------------------------------------------------------------------------
  // Positions
  // ---------------------------------------------------------------------------------------

  /** The columns that the cells from `i` up to `j` take, the ones they are merged across included. */
  function Width(cells: seq<XmlCell>, i: nat, j: nat): nat
    requires i <= j <= |cells|
    decreases j - i
  {
    if i == j then 0 else 1 + cells[i].mergeAcross + Width(cells, i + 1, j)
  }

  lemma {:induction false} WidthGrows(cells: seq<XmlCell>, i: nat, j: nat)
    requires i <= j < |cells|
    ensures Width(cells, i, j + 1) == Width(cells, i, j) + 1 + cells[j].mergeAcross
    decreases j - i
  {
    if i < j {
      WidthGrows(cells, i + 1, j);
    }
  }

  /** No cell behind `i` has an index, up to `j`. */
  predicate NoIndexBetween(cells: seq<XmlCell>, i: nat, j: nat) {
    forall k | i < k <= j < |cells| :: cells[k].index.None?
  }

  /**
   A cell with an index stands in that column. One without stands behind the last one that has an
   index, or at the start, as many columns further as the cells between take.
   */
  lemma {:induction false} ColumnsAddUp(cells: seq<XmlCell>, i: nat, j: nat)
    requires i <= j < |cells| && NoIndexBetween(cells, i, j)
    ensures cells[i].index.Some? ==> ColumnOf(cells, j) == cells[i].index.value + Width(cells, i, j)
    ensures i == 0 && cells[0].index.None? ==> ColumnOf(cells, j) == 1 + Width(cells, 0, j)
    decreases j
  {
    if i < j {
      ColumnsAddUp(cells, i, j - 1);
      WidthGrows(cells, i, j - 1);
    }
  }

  /** A row with an index has that number; the others count on from the last one that has, or from the start. */
  lemma {:induction false} RowsCountOn(rows: seq<XmlRow>, i: nat, j: nat)
    requires i <= j < |rows| && forall k | i < k <= j :: rows[k].index.None?
    ensures rows[i].index.Some? ==> RowNumber(rows, j + 1) == rows[i].index.value + (j - i)
    ensures i == 0 && rows[0].index.None? ==> RowNumber(rows, j + 1) == j + 1
    decreases j
  {
    if i < j {
      RowsCountOn(rows, i, j - 1);
    }
  }

  // ---------------------------------------------------------------------------------------
  // The cells
  // ---------------------------------------------------------------------------------------

  /** The cell that the k-th of the r-th row gives: there is none for one without a value and a formula. */
  predicate Gives(rows: seq<XmlRow>, r: nat, k: nat, c: Cell) {
    && r < |rows| && k < |rows[r].cells|
    && var x := rows[r].cells[k];
      && (x.formula.Some? || x.value != "")
      && c.value == x.value && c.formula == x.formula
      && c.row == RowNumber(rows, r + 1) && c.column == ColumnOf(rows[r].cells, k)
  }

  predicate GivesInRow(cells: seq<XmlCell>, row: int, i: nat, c: Cell) {
    && i < |cells| && (cells[i].formula.Some? || cells[i].value != "")
    && c.value == cells[i].value && c.formula == cells[i].formula && c.row == row && c.column == ColumnOf(cells, i)
  }

  lemma {:induction false} RowCellsAre(cells: seq<XmlCell>, row: int, k: nat, c: Cell)
    requires k <= |cells|
    ensures c in RowCells(cells, row, k) <==> exists i: nat :: i < k && GivesInRow(cells, row, i, c)
  {
    if k > 0 {
      RowCellsAre(cells, row, k - 1, c);
      if GivesInRow(cells, row, k - 1, c) {
        assert c == Cell(row, ColumnOf(cells, k - 1), cells[k - 1].value, cells[k - 1].formula);
      }
    }
  }

  lemma {:induction false} SheetCellsAre(rows: seq<XmlRow>, n: nat, c: Cell)
    requires n <= |rows|
    ensures c in SheetCells(rows, n) <==> exists r: nat, k: nat :: r < n && Gives(rows, r, k, c)
  {
    if n > 0 {
      var xml, row := rows[n - 1].cells, RowNumber(rows, n);
      SheetCellsAre(rows, n - 1, c);
      RowCellsAre(xml, row, |xml|, c);
      if c in RowCells(xml, row, |xml|) {
        var k: nat :| k < |xml| && GivesInRow(xml, row, k, c);
        assert Gives(rows, n - 1, k, c);
      }
      if r: nat, k: nat :| r < n && Gives(rows, r, k, c) && r >= n - 1 {
        assert k < |xml| && GivesInRow(xml, row, k, c);
      }
    }
  }

  /** The sheet gives a cell for each one that has a value or a formula, at its position, and no other. */
  lemma SheetGivesExactly(rows: seq<XmlRow>, c: Cell)
    ensures c in SheetCells(rows, |rows|) <==> exists r: nat, k: nat :: Gives(rows, r, k, c)
  {
    SheetCellsAre(rows, |rows|, c);
    if r: nat, k: nat :| Gives(rows, r, k, c) {
      assert r < |rows| && Gives(rows, r, k, c);
    }
  }

  predicate StandsIn(cells: seq<XmlCell>, i: nat, column: int) {
    i < |cells| && ColumnOf(cells, i) == column
  }

  lemma {:induction false} RowReaches(cells: seq<XmlCell>, k: nat, start: int)
    requires k <= |cells|
    ensures MaxColumn(cells, k, start) >= start
    ensures forall i: nat, column | StandsIn(cells, i, column) && i < k :: column <= MaxColumn(cells, k, start)
    ensures MaxColumn(cells, k, start) == start || exists i: nat :: StandsIn(cells, i, MaxColumn(cells, k, start))
  {
    if k > 0 {
      RowReaches(cells, k - 1, start);
      assert StandsIn(cells, k - 1, ColumnOf(cells, k - 1));
      forall i: nat, column | StandsIn(cells, i, column) && i < k ensures column <= MaxColumn(cells, k, start) {
        assert i == k - 1 || column <= MaxColumn(cells, k - 1, start);
      }
    }
  }

  /** No cell stands beyond the column count, empty ones included, and one stands there if it is not 0. */
  lemma {:induction false} CountIsTheLastColumn(rows: seq<XmlRow>, n: nat)
    requires n <= |rows|
    ensures ColumnCount(rows, n) >= 0
    ensures forall r, i: nat, column | 0 <= r < n && StandsIn(rows[r].cells, i, column) ::
        column <= ColumnCount(rows, n)
    ensures ColumnCount(rows, n) == 0 || exists r, i: nat ::
        0 <= r < n && StandsIn(rows[r].cells, i, ColumnCount(rows, n))
  {
    if n > 0 {
      var xml := rows[n - 1].cells;
      CountIsTheLastColumn(rows, n - 1);
      RowReaches(xml, |xml|, ColumnCount(rows, n - 1));
    }
  }

  // ---------------------------------------------------------------------------------------
  // The records
  // ---------------------------------------------------------------------------------------

  /** The i-th cell heads the column: it is the last one of row 1 there. */
  predicate Heads(cells: seq<Cell>, i: nat, column: int) {
    && i < |cells| && cells[i].row == 1 && cells[i].column == column
    && forall j | i < j < |cells| :: !(cells[j].row == 1 && cells[j].column == column)
  }

  lemma {:induction false} HeadersAre(cells: seq<Cell>, column: int) returns (i: nat)
    ensures column in Headers(cells) ==> Heads(cells, i, column) && Headers(cells)[column] == cells[i].value
    ensures column !in Headers(cells) ==> forall j | 0 <= j < |cells| ::
      !(cells[j].row == 1 && cells[j].column == column)
  {
    i := 0;
    if cells != [] {
      var last := |cells| - 1;
      i := HeadersAre(cells[..last], column);
      if cells[last].row == 1 && cells[last].column == column {
        i := last;
      } else {
        assert forall j | 0 <= j < last :: cells[..last][j] == cells[j];
      }
    }
  }

  /** There is one header at most in a column. */
  lemma OneHeader(cells: seq<Cell>, i: nat, column: int)
    requires Heads(cells, i, column)
    ensures column in Headers(cells) && Headers(cells)[column] == cells[i].value
  {
    var j := HeadersAre(cells, column);
    assert i == j;
  }

  /** The k-th cell stands below the header row, in a column headed by `name`. */
  ghost predicate StandsUnder(cells: seq<Cell>, k: nat, name: string) {
    && k < |cells| && cells[k].row > 1
    && exists i: nat :: Heads(cells, i, cells[k].column) && cells[i].value == name
  }

  lemma StandsUnderHeader(cells: seq<Cell>, k: nat, row: int, name: string)
    requires k < |cells|
    ensures Names(Headers(cells), cells, row, name, k) <==> cells[k].row == row && StandsUnder(cells, k, name)
  {
    var i := HeadersAre(cells, cells[k].column);
    if StandsUnder(cells, k, name) {
      var j: nat :| Heads(cells, j, cells[k].column) && cells[j].value == name;
      OneHeader(cells, j, cells[k].column);
    }
  }

  lemma {:induction false} UnnamedIsMissing(headers: map<int, string>, cells: seq<Cell>, row: int, name: string)
    requires forall i | 0 <= i < |cells| :: !Names(headers, cells, row, name, i)
    ensures name !in RecordOf(headers, cells, row)
  {
    if cells != [] {
      var last := |cells| - 1;
      assert !Names(headers, cells, row, name, last);
      forall i | 0 <= i < last ensures !Names(headers, cells[..last], row, name, i) {
        assert !Names(headers, cells, row, name, i);
      }
      UnnamedIsMissing(headers, cells[..last], row, name);
    }
  }

  /** The k-th cell is the last of its row under `name`. */
  ghost predicate LastUnder(cells: seq<Cell>, row: int, name: string, k: nat) {
    && StandsUnder(cells, k, name) && cells[k].row == row
    && forall j | k < j < |cells| :: !(StandsUnder(cells, j, name) && cells[j].row == row)
  }

  lemma {:induction false} LastUnderExists(cells: seq<Cell>, row: int, name: string, n: nat) returns (k: nat)
    requires n <= |cells|
    requires forall j | n <= j < |cells| :: !(StandsUnder(cells, j, name) && cells[j].row == row)
    ensures LastUnder(cells, row, name, k) || forall j | 0 <= j < |cells| ::
      !(StandsUnder(cells, j, name) && cells[j].row == row)
  {
    k := 0;
    if n > 0 {
      if StandsUnder(cells, n - 1, name) && cells[n - 1].row == row {
        k := n - 1;
      } else {
        k := LastUnderExists(cells, row, name, n - 1);
      }
    }
  }

  /**
   The record of a row has a name exactly if one of its cells stands in a column headed by that name,
   and then the value of the last such cell.
   */
  lemma RecordSays(cells: seq<Cell>, row: int, name: string)
    ensures var record := RecordOf(Headers(cells), cells, row);
      && (name in record <==> exists k: nat :: LastUnder(cells, row, name, k))
      && (forall k: nat | LastUnder(cells, row, name, k) :: name in record && record[name] == cells[k].value)
  {
    forall k: nat | k < |cells|
      ensures Names(Headers(cells), cells, row, name, k) <==> cells[k].row == row && StandsUnder(cells, k, name)
    {
      StandsUnderHeader(cells, k, row, name);
    }
    forall k: nat | LastUnder(cells, row, name, k)
      ensures name in RecordOf(Headers(cells), cells, row)
        && RecordOf(Headers(cells), cells, row)[name] == cells[k].value
    {
      LastCellWins(Headers(cells), cells, row, name, k);
    }
    var k := LastUnderExists(cells, row, name, |cells|);
    if !LastUnder(cells, row, name, k) {
      UnnamedIsMissing(Headers(cells), cells, row, name);
    }
  }

  /** A row has a record exactly if one of its cells stands below a header. */
  lemma RecordedExactly(cells: seq<Cell>, row: int)
    ensures HasRecord(Headers(cells), cells, row) <==>
      exists k: nat, name :: k < |cells| && cells[k].row == row && StandsUnder(cells, k, name)
  {
    if HasRecord(Headers(cells), cells, row) {
      var k :| 0 <= k < |cells| && Headered(Headers(cells), cells[k]) && cells[k].row == row;
      StandsUnderHeader(cells, k, row, Headers(cells)[cells[k].column]);
    }
    if k: nat, name :| k < |cells| && cells[k].row == row && StandsUnder(cells, k, name) {
      StandsUnderHeader(cells, k, row, name);
    }
  }
}
