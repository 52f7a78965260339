/**
 * What the averages sheet shows, cell by cell: the header labels, and for each student of the
 * sorted roster a row with position, name, one average per configured type and the final
 * average under "MÉDIA".
 */
module MediasContent {
  import opened Wrappers
  import opened Digits
  import opened Sheets
  import opened Entities
  import opened Layout
  import opened Medias

  // ---------------------------------------------------------------- lookups in the write log

  lemma HeaderLookup(weights: seq<WeightEntry>, col: int)
    ensures var n := |Configured(weights)|;
      Lookup(HeaderWrites(weights), 0, col)
      == if col == 0 then Some(Text(NumberHeader))
         else if col == 1 then Some(Text(StudentHeader))
         else if 2 <= col < 2 + n then Some(TypeLabels(Configured(weights))[col - 2])
         else if col == 2 + n then Some(Text(AverageHeader))
         else None
  {
    var labels := TypeLabels(Configured(weights));
    var last := Write(0, 2 + |labels|, Text(AverageHeader));
    assert HeaderWrites(weights) == (FixedHeader() + RowRun(0, 2, labels)) + [last];
    LookupAppend(FixedHeader() + RowRun(0, 2, labels), [last], 0, col);
    assert [last][..0] == [];
    LookupAppend(FixedHeader(), RowRun(0, 2, labels), 0, col);
    RowRunLookup(0, 2, labels, 0, col);
    assert [Write(0, 0, Text(NumberHeader)), Write(0, 1, Text(StudentHeader))][..1] == [Write(0, 0, Text(NumberHeader))];
  }

  lemma RowLookup(row: nat, s: Student, works: seq<Work>, weights: seq<WeightEntry>, col: int)
    ensures var n := |Configured(weights)|;
      Lookup(RowWrites(row, s, works, weights), row, col)
      == if col == 0 then Some(Text(NatToString(row)))
         else if col == 1 then Some(Text(s.name))
         else if 2 <= col < 2 + n then Some(AverageCells(works, Configured(weights), s.id)[col - 2])
         else if col == 2 + n then Some(FinalAverage(works, weights, s.id))
         else None
  {
    var averages := AverageCells(works, Configured(weights), s.id);
    var last := Write(row, 2 + |averages|, FinalAverage(works, weights, s.id));
    assert RowWrites(row, s, works, weights) == (StudentCells(row, row, s) + RowRun(row, 2, averages)) + [last];
    LookupAppend(StudentCells(row, row, s) + RowRun(row, 2, averages), [last], row, col);
    assert [last][..0] == [];
    LookupAppend(StudentCells(row, row, s), RowRun(row, 2, averages), row, col);
    RowRunLookup(row, 2, averages, row, col);
    StudentCellsLookup(row, row, s);
    if col < 0 || col > 1 {
      LookupAvoided(StudentCells(row, row, s), row, col);
    }
  }

  /** Row `i + 1` holds exactly what student `i`'s own writes put there. */
  lemma {:induction false} BodyLookup(students: seq<Student>, works: seq<Work>, weights: seq<WeightEntry>, i: nat, col: int)
    requires i < |students|
    ensures Lookup(BodyWrites(students, works, weights), i + 1, col)
         == Lookup(RowWrites(i + 1, students[i], works, weights), i + 1, col)
    decreases |students|
  {
    var n := |students|;
    var init := students[..n - 1];
    var block := RowWrites(n, students[n - 1], works, weights);
    assert BodyWrites(students, works, weights) == BodyWrites(init, works, weights) + block;
    LookupAppend(BodyWrites(init, works, weights), block, i + 1, col);
    if i + 1 < n {
      assert forall w <- block :: w.row == n by {
        assert forall w <- StudentCells(n, n, students[n - 1]) :: w.row == n;
      }
      LookupAvoided(block, i + 1, col);
      BodyLookup(init, works, weights, i, col);
      assert init[i] == students[i];
    } else {
      LookupAvoided(BodyWrites(init, works, weights), n, col);
    }
  }

  lemma SheetHeaderLookup(students: seq<Student>, works: seq<Work>, weights: seq<WeightEntry>, col: int)
    ensures CellAt(MediasCells(students, works, weights), 0, col) == Lookup(HeaderWrites(weights), 0, col)
  {
    var body := BodyWrites(students, works, weights);
    CellsLookup(HeaderWrites(weights) + body, 0, col);
    LookupAppend(HeaderWrites(weights), body, 0, col);
    LookupAvoided(body, 0, col);
  }

  lemma SheetBodyLookup(students: seq<Student>, works: seq<Work>, weights: seq<WeightEntry>, i: nat, col: int)
    requires i < |students|
    ensures CellAt(MediasCells(students, works, weights), i + 1, col)
         == Lookup(RowWrites(i + 1, students[i], works, weights), i + 1, col)
  {
    var header := HeaderWrites(weights);
    var body := BodyWrites(students, works, weights);
    CellsLookup(header + body, i + 1, col);
    LookupAppend(header, body, i + 1, col);
    HeaderLookupRow(weights, i + 1, col);
    BodyLookup(students, works, weights, i, col);
  }

  lemma HeaderLookupRow(weights: seq<WeightEntry>, row: int, col: int)
    requires row != 0
    ensures Lookup(HeaderWrites(weights), row, col) == None
  {
    var labels := TypeLabels(Configured(weights));
    assert forall w <- HeaderWrites(weights) :: w.row == 0 by {
      assert forall w <- RowRun(0, 2, labels) :: w.row == 0;
    }
    LookupAvoided(HeaderWrites(weights), row, col);
  }

  // ---------------------------------------------------------------- the sheet

  /** The header: "Número", "Aluno", the label of every type of positive weight from column 2 in
      weight-map order, "MÉDIA" right after them, and nothing further right. */
  lemma HeaderCells(students: seq<Student>, works: seq<Work>, weights: seq<WeightEntry>, col: int)
    ensures var cfg := Configured(weights);
      var c := CellAt(MediasCells(students, works, weights), 0, col);
      && (col == 0 ==> c == Some(Text(NumberHeader)))
      && (col == 1 ==> c == Some(Text(StudentHeader)))
      && (2 <= col < 2 + |cfg| ==> c == Some(Text(cfg[col - 2].workType)))
      && (col == 2 + |cfg| ==> c == Some(Text(AverageHeader)))
      && (col < 0 || col > 2 + |cfg| ==> c == None)
  {
    SheetHeaderLookup(students, works, weights, col);
    HeaderLookup(weights, col);
  }

  /** The `k`-th average of a row is that of the `k`-th type of positive weight. */
  lemma AverageCellAt(works: seq<Work>, cfg: seq<WeightEntry>, sid: StudentId, k: nat)
    requires k < |cfg|
    ensures AverageCells(works, cfg, sid)[k] == TypeAverage(TypeTotals(works, cfg[k].workType, sid))
  {
  }

  /** Row `i + 1`: the student's position and name, under each type label the half-rounded
      average of the student's grades of that type (no data without one), and under "MÉDIA" the
      final average. */
  lemma RowCells(students: seq<Student>, works: seq<Work>, weights: seq<WeightEntry>, i: nat, col: int)
    requires i < |students|
    ensures var cfg := Configured(weights);
      var s := students[i];
      var c := CellAt(MediasCells(students, works, weights), i + 1, col);
      && (col == 0 ==> c == Some(Text(NatToString(i + 1))))
      && (col == 1 ==> c == Some(Text(s.name)))
      && (2 <= col < 2 + |cfg| ==> c == Some(TypeAverage(TypeTotals(works, cfg[col - 2].workType, s.id))))
      && (col == 2 + |cfg| ==> c == Some(FinalAverage(works, weights, s.id)))
      && (col < 0 || col > 2 + |cfg| ==> c == None)
  {
    var cfg := Configured(weights);
    var s := students[i];
    SheetBodyLookup(students, works, weights, i, col);
    RowLookup(i + 1, s, works, weights, col);
    if 2 <= col < 2 + |cfg| {
      AverageCellAt(works, cfg, s.id, col - 2);
    }
  }

  /** Nothing is written below the last student. */
  lemma BelowRoster(students: seq<Student>, works: seq<Work>, weights: seq<WeightEntry>, row: int, col: int)
    requires row > |students| || row < 0
    ensures CellAt(MediasCells(students, works, weights), row, col) == None
  {
    var header := HeaderWrites(weights);
    var body := BodyWrites(students, works, weights);
    CellsLookup(header + body, row, col);
    LookupAppend(header, body, row, col);
    HeaderLookupRow(weights, row, col);
    LookupAvoided(body, row, col);
  }
}
