/**
 * An abstract spreadsheet workbook: named sheets of text/number cells plus merged header regions,
 * standing in for the Apache POI workbook the report engine fills.
 */
module Sheets {
  import opened Wrappers

  /** A cell value. `Decimal(x)` stands for the text `String.valueOf` gives for the double `x`;
      `NoData` is the marker written where an average has no grade to average. */
  datatype Cell = Text(text: string) | Decimal(value: real) | NoData

  /** One `createRowCell(row, col, value)` call. */
  datatype Write = Write(row: int, col: int, value: Cell)

  /** `CellRangeAddress(firstRow, lastRow, firstCol, lastCol)`, bounds inclusive. */
  datatype Region = Region(firstRow: int, lastRow: int, firstCol: int, lastCol: int)

  /** The value left at (row, col) by the last write to it in `ws`, if there is one. */
  function Lookup(ws: seq<Write>, row: int, col: int): Option<Cell> {
    if ws == [] then None
    else if ws[|ws| - 1].row == row && ws[|ws| - 1].col == col then Some(ws[|ws| - 1].value)
    else Lookup(ws[..|ws| - 1], row, col)
  }

  /** The cells after performing `ws`, in order, on `cells`; a later write replaces an earlier one. */
  function Apply(cells: map<(int, int), Cell>, ws: seq<Write>): map<(int, int), Cell> {
    if ws == [] then cells
    else Apply(cells, ws[..|ws| - 1])[(ws[|ws| - 1].row, ws[|ws| - 1].col) := ws[|ws| - 1].value]
  }

  /** The cells of a fresh sheet after the writes `ws`. */
  function Cells(ws: seq<Write>): map<(int, int), Cell> {
    Apply(map[], ws)
  }

  function CellAt(cells: map<(int, int), Cell>, row: int, col: int): Option<Cell> {
    if (row, col) in cells then Some(cells[(row, col)]) else None
  }

  /** A sheet holds at each position exactly what the last write there put. */
  lemma {:induction false} CellsLookup(ws: seq<Write>, row: int, col: int)
    ensures CellAt(Cells(ws), row, col) == Lookup(ws, row, col)
  {
    if ws != [] {
      CellsLookup(ws[..|ws| - 1], row, col);
    }
  }

  lemma CellsSnoc(ws: seq<Write>, w: Write)
    ensures Cells(ws + [w]) == Cells(ws)[(w.row, w.col) := w.value]
  {
    assert (ws + [w])[..|ws|] == ws;
  }

  /** Looking up in a concatenation: the second part wins where it writes. */
  lemma {:induction false} LookupAppend(a: seq<Write>, b: seq<Write>, row: int, col: int)
    ensures Lookup(a + b, row, col)
         == if Lookup(b, row, col).Some? then Lookup(b, row, col) else Lookup(a, row, col)
    decreases |b|
  {
    if b == [] {
      assert a + b == a;
    } else {
      assert (a + b)[..|a + b| - 1] == a + b[..|b| - 1];
      LookupAppend(a, b[..|b| - 1], row, col);
    }
  }

  predicate Avoids(ws: seq<Write>, row: int, col: int) {
    forall w <- ws :: w.row != row || w.col != col
  }

  lemma {:induction false} LookupAvoided(ws: seq<Write>, row: int, col: int)
    requires Avoids(ws, row, col)
    ensures Lookup(ws, row, col) == None
  {
    if ws != [] {
      assert ws[|ws| - 1] in ws;
      assert forall w <- ws[..|ws| - 1] :: w in ws;
      LookupAvoided(ws[..|ws| - 1], row, col);
    }
  }

  /** Writes `vals` left to right in `row`, from column `start` on. */
  function RowRun(row: int, start: int, vals: seq<Cell>): (ws: seq<Write>)
    ensures |ws| == |vals|
    ensures forall w <- ws :: w.row == row && start <= w.col < start + |vals|
  {
    if vals == [] then []
    else RowRun(row, start, vals[..|vals| - 1]) + [Write(row, start + |vals| - 1, vals[|vals| - 1])]
  }

  /** A run leaves `vals[k]` at column `start + k` of its row, and nothing elsewhere. */
  lemma {:induction false} RowRunLookup(row: int, start: int, vals: seq<Cell>, r: int, col: int)
    ensures Lookup(RowRun(row, start, vals), r, col)
         == if r == row && start <= col < start + |vals| then Some(vals[col - start]) else None
  {
    if vals != [] {
      RowRunLookup(row, start, vals[..|vals| - 1], r, col);
    }
  }

  lemma RowRunSnoc(row: int, start: int, vals: seq<Cell>, v: Cell)
    ensures RowRun(row, start, vals + [v]) == RowRun(row, start, vals) + [Write(row, start + |vals|, v)]
  {
    assert (vals + [v])[..|vals|] == vals;
  }

  /** Regrouping a write log that is built in parts. */
  lemma ConcatAssoc(a: seq<Write>, b: seq<Write>, c: seq<Write>)
    ensures a + (b + c) == a + b + c
  {
  }

  /** Extending a run by one value writes that value right after the run. */
  lemma RowRunCellsStep(before: seq<Write>, row: int, start: int, vals: seq<Cell>, v: Cell)
    ensures Cells(before + RowRun(row, start, vals + [v]))
         == Cells(before + RowRun(row, start, vals))[(row, start + |vals|) := v]
  {
    var w := Write(row, start + |vals|, v);
    assert (vals + [v])[..|vals|] == vals;
    CellsSnoc(before + RowRun(row, start, vals), w);
    assert before + RowRun(row, start, vals + [v]) == before + RowRun(row, start, vals) + [w];
  }

  class Sheet {
    const name: string
    var cells: map<(int, int), Cell>
    var merges: seq<Region>
    /** Rows given the bold, centred header style, in the order they were styled. */
    var headerRows: seq<int>
    /** First row of the centred body style, once applied. */
    var centeredFrom: Option<int>

    constructor (name: string)
      ensures this.name == name && cells == map[]
      ensures merges == [] && headerRows == [] && centeredFrom == None
    {
      this.name := name;
      cells := map[];
      merges := [];
      headerRows := [];
      centeredFrom := None;
    }

    /** `ExcelUtils.createRowCell(row, col, value)`: creates the cell, replacing any cell already there. */
    method CreateCell(row: int, col: int, value: Cell)
      modifies this
      ensures cells == old(cells)[(row, col) := value]
      ensures merges == old(merges) && headerRows == old(headerRows) && centeredFrom == old(centeredFrom)
    {
      cells := cells[(row, col) := value];
    }

    /** `addMergedRegion(region)`. */
    method AddMergedRegion(region: Region)
      modifies this
      ensures merges == old(merges) + [region]
      ensures cells == old(cells)
      ensures headerRows == old(headerRows) && centeredFrom == old(centeredFrom)
    {
      merges := merges + [region];
    }

    /** `ExcelUtils.setSheetHeaderRowStyles(workbook, row)`. */
    method SetHeaderRowStyle(row: int)
      modifies this
      ensures headerRows == old(headerRows) + [row]
      ensures cells == old(cells)
      ensures merges == old(merges) && centeredFrom == old(centeredFrom)
    {
      headerRows := headerRows + [row];
    }

    /** `ExcelUtils.setGlobalCellCentralizedStyle(workbook, sheet, row)`. */
    method SetCentralizedStyleFrom(row: int)
      modifies this
      ensures centeredFrom == Some(row)
      ensures cells == old(cells)
      ensures merges == old(merges) && headerRows == old(headerRows)
    {
      centeredFrom := Some(row);
    }
  }

  class Workbook {
    var sheets: seq<Sheet>

    constructor ()
      ensures sheets == []
    {
      sheets := [];
    }

    /** `workbook.createSheet(name)`: appends a new, empty sheet. */
    method CreateSheet(name: string) returns (s: Sheet)
      modifies this
      ensures fresh(s)
      ensures s.name == name && s.cells == map[]
      ensures s.merges == [] && s.headerRows == [] && s.centeredFrom == None
      ensures sheets == old(sheets) + [s]
    {
      s := new Sheet(name);
      sheets := sheets + [s];
    }
  }
}
