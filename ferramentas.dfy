/**
 * `createFerramentasDeAvaliacaoSheet`: the assessment matrix. Row 1 holds "Número", "Aluno" and
 * the title of every work, type by type in weight-map order; row 0 holds each type's label over
 * the first column of its works, merged across them when there are two or more; from row 2 on,
 * one row per student with the student's grade under each work.
 */
module Ferramentas {
  import opened Wrappers
  import opened Digits
  import opened Sheets
  import opened Entities
  import opened Layout

  const SheetName := "Ferramentas De Avaliação"

  // ---------------------------------------------------------------- columns

  /** The works that get a column, type by type in the order of `cfg`. */
  function ColumnWorks(works: seq<Work>, cfg: seq<WeightEntry>): seq<Work> {
    if cfg == [] then []
    else ColumnWorks(works, cfg[..|cfg| - 1]) + TypeWorks(works, cfg[|cfg| - 1].workType)
  }

  function TitleCells(ws: seq<Work>): (cs: seq<Cell>)
    ensures |cs| == |ws|
  {
    seq(|ws|, k requires 0 <= k < |ws| => Text(ws[k].title))
  }

  // ---------------------------------------------------------------- header

  /** Row 1 starts with the column labels of the roster. */
  function FixedHeader(): seq<Write> {
    [Write(1, 0, Text(NumberHeader)), Write(1, 1, Text(StudentHeader))]
  }

  /** Per configured type: the titles of its works in row 1 from the shared column cursor, then
      the type's label in row 0 at the cursor's value before them. */
  function TypeHeader(works: seq<Work>, cfg: seq<WeightEntry>): seq<Write> {
    if cfg == [] then []
    else
      var init, e := cfg[..|cfg| - 1], cfg[|cfg| - 1];
      var col := 2 + |ColumnWorks(works, init)|;
      TypeHeader(works, init) + RowRun(1, col, TitleCells(TypeWorks(works, e.workType)))
        + [Write(0, col, Text(e.workType))]
  }

  /** The merge of a type label starting at `col` over `n` works: only when there are two or more. */
  function LabelMerge(col: int, n: nat): seq<Region> {
    if n > 1 then [Region(0, 0, col, col + n - 1)] else []
  }

  /** The merges of the labels of the types in `cfg`, in order. */
  function TypeMerges(works: seq<Work>, cfg: seq<WeightEntry>): seq<Region> {
    if cfg == [] then []
    else
      TypeMerges(works, cfg[..|cfg| - 1])
        + LabelMerge(2 + |ColumnWorks(works, cfg[..|cfg| - 1])|, |TypeWorks(works, cfg[|cfg| - 1].workType)|)
  }

  function HeaderWrites(works: seq<Work>, weights: seq<WeightEntry>): seq<Write> {
    FixedHeader() + TypeHeader(works, Configured(weights))
  }

  // ---------------------------------------------------------------- body

  /** The cell for a student's grade in a work: the first grade of that student, if any. */
  function GradeCell(w: Work, sid: StudentId): Option<Cell> {
    var g := FirstGrade(w.grades, sid);
    if g.None? then None else Some(Decimal(g.value))
  }

  /** The grades of `sid` in the works `ws`, each in the work's own column from `start`; a work
      without a grade of the student leaves its cell empty. */
  function GradeRun(row: int, start: int, ws: seq<Work>, sid: StudentId): seq<Write> {
    if ws == [] then []
    else GradeRun(row, start, ws[..|ws| - 1], sid) + GradeWrite(row, start + |ws| - 1, ws[|ws| - 1], sid)
  }

  /** The write of one grade cell, when the student has a grade in the work. */
  function GradeWrite(row: int, col: int, w: Work, sid: StudentId): seq<Write> {
    if GradeCell(w, sid).Some? then [Write(row, col, GradeCell(w, sid).value)] else []
  }

  /** Student `i` of the sorted roster: row `i + 2`, position `i + 1`, then the grades. */
  function RowWrites(i: nat, s: Student, works: seq<Work>, weights: seq<WeightEntry>): seq<Write> {
    StudentCells(i + 2, i + 1, s) + GradeRun(i + 2, 2, ColumnWorks(works, Configured(weights)), s.id)
  }

  function BodyWrites(students: seq<Student>, works: seq<Work>, weights: seq<WeightEntry>): seq<Write> {
    if students == [] then []
    else
      var n := |students|;
      BodyWrites(students[..n - 1], works, weights) + RowWrites(n - 1, students[n - 1], works, weights)
  }

  function FerramentasCells(students: seq<Student>, works: seq<Work>, weights: seq<WeightEntry>): map<(int, int), Cell> {
    Cells(HeaderWrites(works, weights) + BodyWrites(students, works, weights))
  }

  function FerramentasMerges(works: seq<Work>, weights: seq<WeightEntry>): seq<Region> {
    TypeMerges(works, Configured(weights))
  }

  // ---------------------------------------------------------------- the grade row as written

  /** The grades the source writes for a student: only the ones found, packed from column 2 on. */
  function FoundGrades(ws: seq<Work>, sid: StudentId): seq<Cell> {
    if ws == [] then []
    else
      var n := |ws|;
      FoundGrades(ws[..n - 1], sid) + (if GradeCell(ws[n - 1], sid).Some? then [GradeCell(ws[n - 1], sid).value] else [])
  }

  /** Student `i`'s row as written: position and name, then the found grades packed from column 2. */
  function PackedRowWrites(i: nat, s: Student, works: seq<Work>, weights: seq<WeightEntry>): seq<Write> {
    StudentCells(i + 2, i + 1, s) + RowRun(i + 2, 2, FoundGrades(ColumnWorks(works, Configured(weights)), s.id))
  }

  predicate AllGraded(ws: seq<Work>, sid: StudentId) {
    forall i :: 0 <= i < |ws| ==> GradeCell(ws[i], sid).Some?
  }

  /** One cell per found grade: as many cells as works exactly when every work has a grade. */
  lemma {:induction false} FoundGradesLength(ws: seq<Work>, sid: StudentId)
    ensures |FoundGrades(ws, sid)| <= |ws|
    ensures |FoundGrades(ws, sid)| == |ws| <==> AllGraded(ws, sid)
  {
    if ws != [] {
      var init := ws[..|ws| - 1];
      FoundGradesLength(init, sid);
      assert forall i :: 0 <= i < |init| ==> init[i] == ws[i];
    }
  }

  lemma FoundGradesSnoc(ws: seq<Work>, w: Work, sid: StudentId)
    ensures FoundGrades(ws + [w], sid)
         == FoundGrades(ws, sid) + (if GradeCell(w, sid).Some? then [GradeCell(w, sid).value] else [])
  {
    var x := ws + [w];
    assert x[..|x| - 1] == ws && x[|x| - 1] == w;
  }

  /** Where the student has a grade in every work, the packed row is the aligned one. */
  lemma {:induction false} PackedAgrees(row: int, start: int, ws: seq<Work>, sid: StudentId)
    requires AllGraded(ws, sid)
    ensures RowRun(row, start, FoundGrades(ws, sid)) == GradeRun(row, start, ws, sid)
  {
    if ws != [] {
      var init, w := ws[..|ws| - 1], ws[|ws| - 1];
      assert ws == init + [w];
      assert AllGraded(init, sid) by {
        assert forall i :: 0 <= i < |init| ==> init[i] == ws[i];
      }
      assert GradeCell(w, sid).Some?;
      var c := GradeCell(w, sid).value;
      var found := FoundGrades(init, sid);
      FoundGradesLength(init, sid);
      calc {
        RowRun(row, start, FoundGrades(ws, sid));
        { FoundGradesSnoc(init, w, sid); }
        RowRun(row, start, found + [c]);
        { RowRunSnoc(row, start, found, c); }
        RowRun(row, start, found) + [Write(row, start + |init|, c)];
        { PackedAgrees(row, start, init, sid); }
        GradeRun(row, start, init, sid) + [Write(row, start + |init|, c)];
        GradeRun(row, start, init, sid) + GradeWrite(row, start + |init|, w, sid);
        { GradeRunSnoc(row, start, init, w, sid); }
        GradeRun(row, start, ws, sid);
      }
    }
  }

  /** Two works of one type, the student graded only in the second: the source writes that grade
      in column 2, under the first work's title; the aligned row puts it in column 3, under the
      second's, and leaves column 2 empty. */
  lemma ShiftedGradeExample()
    ensures var a := Work(1, "Prova 1", "PROVA", Dates.Date(2023, 3, 10), []);
      var b := Work(2, "Prova 2", "PROVA", Dates.Date(2023, 4, 10), [Grade(8.0, 7, 2)]);
      && ColumnWorks([a, b], Configured([WeightEntry("PROVA", 100)])) == [a, b]
      && RowRun(2, 2, FoundGrades([a, b], 7)) == [Write(2, 2, Decimal(8.0))]
      && GradeRun(2, 2, [a, b], 7) == [Write(2, 3, Decimal(8.0))]
  {
    var a := Work(1, "Prova 1", "PROVA", Dates.Date(2023, 3, 10), []);
    var b := Work(2, "Prova 2", "PROVA", Dates.Date(2023, 4, 10), [Grade(8.0, 7, 2)]);
    var e := WeightEntry("PROVA", 100);
    var d := Decimal(8.0);
    assert [e][..0] == [];
    assert Configured([e]) == [e];
    assert [a, b][..1] == [a] && [a][..0] == [];
    assert TypeWorks([a], "PROVA") == [a];
    assert TypeWorks([a, b], "PROVA") == [a, b];
    assert ColumnWorks([a, b], [e]) == [a, b];
    assert GradeCell(a, 7) == None;
    assert FirstGrade(b.grades, 7) == Some(8.0);
    assert FoundGrades([a], 7) == [];
    assert FoundGrades([a, b], 7) == [d];
    RowRunSnoc(2, 2, [], d);
    assert GradeRun(2, 2, [a], 7) == [];
    GradeRunSnoc(2, 2, [a], b, 7);
  }

  // ---------------------------------------------------------------- write-log steps

  /** The row as written: position, name, then the `k`-th found grade in column `2 + k`, and
      nothing from the column after the last found grade on. */
  lemma PackedRowCells(i: nat, s: Student, works: seq<Work>, weights: seq<WeightEntry>, col: int)
    ensures var found := FoundGrades(ColumnWorks(works, Configured(weights)), s.id);
      Lookup(PackedRowWrites(i, s, works, weights), i + 2, col)
      == if col == 0 then Some(Text(NatToString(i + 1)))
         else if col == 1 then Some(Text(s.name))
         else if 2 <= col < 2 + |found| then Some(found[col - 2])
         else None
  {
    var found := FoundGrades(ColumnWorks(works, Configured(weights)), s.id);
    var lead := StudentCells(i + 2, i + 1, s);
    LookupAppend(lead, RowRun(i + 2, 2, found), i + 2, col);
    RowRunLookup(i + 2, 2, found, i + 2, col);
    StudentCellsLookup(i + 2, i + 1, s);
    if col < 0 || col > 1 {
      LookupAvoided(lead, i + 2, col);
    }
  }

  lemma TitleSnoc(before: seq<Write>, col: int, tw: seq<Work>, w: Work)
    ensures Cells(before + RowRun(1, col, TitleCells(tw + [w])))
         == Cells(before + RowRun(1, col, TitleCells(tw)))[(1, col + |tw|) := Text(w.title)]
  {
    assert TitleCells(tw + [w]) == TitleCells(tw) + [Text(w.title)];
    RowRunCellsStep(before, 1, col, TitleCells(tw), Text(w.title));
  }

  lemma GradeRunSnoc(row: int, start: int, ws: seq<Work>, w: Work, sid: StudentId)
    ensures GradeRun(row, start, ws + [w], sid) == GradeRun(row, start, ws, sid) + GradeWrite(row, start + |ws|, w, sid)
  {
    var x := ws + [w];
    assert x[..|x| - 1] == ws && x[|x| - 1] == w;
  }

  lemma GradeSnoc(before: seq<Write>, row: int, col: int, tw: seq<Work>, w: Work, sid: StudentId)
    ensures var cur := Cells(before + GradeRun(row, col, tw, sid));
      var c := GradeCell(w, sid);
      Cells(before + GradeRun(row, col, tw + [w], sid))
      == if c.Some? then cur[(row, col + |tw|) := c.value] else cur
  {
    GradeRunSnoc(row, col, tw, w, sid);
    var c := GradeCell(w, sid);
    if c.Some? {
      var x := Write(row, col + |tw|, c.value);
      assert GradeWrite(row, col + |tw|, w, sid) == [x];
      ConcatAssoc(before, GradeRun(row, col, tw, sid), [x]);
      CellsSnoc(before + GradeRun(row, col, tw, sid), x);
    } else {
      assert GradeRun(row, col, tw, sid) + [] == GradeRun(row, col, tw, sid);
    }
  }

  /** Grades of consecutive work lists land in consecutive columns. */
  lemma {:induction false} GradeRunAppend(row: int, start: int, a: seq<Work>, b: seq<Work>, sid: StudentId)
    ensures GradeRun(row, start, a + b, sid) == GradeRun(row, start, a, sid) + GradeRun(row, start + |a|, b, sid)
    decreases |b|
  {
    if b == [] {
      assert a + b == a;
      assert GradeRun(row, start, a, sid) + [] == GradeRun(row, start, a, sid);
    } else {
      var init, w := b[..|b| - 1], b[|b| - 1];
      assert a + b == (a + init) + [w];
      assert b == init + [w];
      GradeRunSnoc(row, start, a + init, w, sid);
      GradeRunSnoc(row, start + |a|, init, w, sid);
      GradeRunAppend(row, start, a, init, sid);
      ConcatAssoc(GradeRun(row, start, a, sid), GradeRun(row, start + |a|, init, sid),
                  GradeWrite(row, start + |a| + |init|, w, sid));
    }
  }



  lemma ColumnWorksSnoc(works: seq<Work>, cfg: seq<WeightEntry>, e: WeightEntry)
    ensures ColumnWorks(works, cfg + [e]) == ColumnWorks(works, cfg) + TypeWorks(works, e.workType)
  {
    var x := cfg + [e];
    assert x[..|x| - 1] == cfg;
  }

  lemma TypeHeaderSnoc(works: seq<Work>, cfg: seq<WeightEntry>, e: WeightEntry)
    ensures var col := 2 + |ColumnWorks(works, cfg)|;
      TypeHeader(works, cfg + [e])
      == TypeHeader(works, cfg) + RowRun(1, col, TitleCells(TypeWorks(works, e.workType))) + [Write(0, col, Text(e.workType))]
  {
    var x := cfg + [e];
    assert x[..|x| - 1] == cfg;
  }

  lemma TypeMergesSnoc(works: seq<Work>, cfg: seq<WeightEntry>, e: WeightEntry)
    ensures TypeMerges(works, cfg + [e])
         == TypeMerges(works, cfg) + LabelMerge(2 + |ColumnWorks(works, cfg)|, |TypeWorks(works, e.workType)|)
  {
    var x := cfg + [e];
    assert x[..|x| - 1] == cfg;
  }

  /** One more configured type in the header: its titles, then its label. */
  lemma HeaderTypeStep(works: seq<Work>, cfg: seq<WeightEntry>, e: WeightEntry)
    ensures var col := 2 + |ColumnWorks(works, cfg)|;
      var titled := FixedHeader() + TypeHeader(works, cfg) + RowRun(1, col, TitleCells(TypeWorks(works, e.workType)));
      Cells(FixedHeader() + TypeHeader(works, cfg + [e])) == Cells(titled)[(0, col) := Text(e.workType)]
  {
    TypeHeaderSnoc(works, cfg, e);
    var col := 2 + |ColumnWorks(works, cfg)|;
    var titles := RowRun(1, col, TitleCells(TypeWorks(works, e.workType)));
    var tag := Write(0, col, Text(e.workType));
    ConcatAssoc(FixedHeader(), TypeHeader(works, cfg) + titles, [tag]);
    ConcatAssoc(FixedHeader(), TypeHeader(works, cfg), titles);
    CellsSnoc(FixedHeader() + TypeHeader(works, cfg) + titles, tag);
  }

  /** One more configured type in a student row: the grades of its works follow. */
  lemma RowGradesStep(rowStart: seq<Write>, row: int, works: seq<Work>, cfg: seq<WeightEntry>, e: WeightEntry, sid: StudentId)
    ensures var prev := ColumnWorks(works, cfg);
      rowStart + GradeRun(row, 2, ColumnWorks(works, cfg + [e]), sid)
      == (rowStart + GradeRun(row, 2, prev, sid)) + GradeRun(row, 2 + |prev|, TypeWorks(works, e.workType), sid)
  {
    ColumnWorksSnoc(works, cfg, e);
    var prev := ColumnWorks(works, cfg);
    var tw := TypeWorks(works, e.workType);
    GradeRunAppend(row, 2, prev, tw, sid);
    ConcatAssoc(rowStart, GradeRun(row, 2, prev, sid), GradeRun(row, 2 + |prev|, tw, sid));
  }

  lemma BodyWritesStep(students: seq<Student>, i: nat, works: seq<Work>, weights: seq<WeightEntry>)
    requires i < |students|
    ensures FerramentasCells(students[..i + 1], works, weights)
         == Cells(HeaderWrites(works, weights) + BodyWrites(students[..i], works, weights) + RowWrites(i, students[i], works, weights))
  {
    assert students[..i + 1][..i] == students[..i];
    assert HeaderWrites(works, weights) + BodyWrites(students[..i + 1], works, weights)
        == HeaderWrites(works, weights) + BodyWrites(students[..i], works, weights) + RowWrites(i, students[i], works, weights);
  }

  // ---------------------------------------------------------------- the builder

  /** `createFerramentasDeAvaliacaoSheet`: appends the assessment matrix to `wb`. */
  method CreateFerramentasSheet(wb: Workbook, students: seq<Student>, works: seq<Work>, weights: seq<WeightEntry>)
    modifies wb
    ensures |wb.sheets| == |old(wb.sheets)| + 1 && wb.sheets[..|old(wb.sheets)|] == old(wb.sheets)
    ensures fresh(wb.sheets[|wb.sheets| - 1])
    ensures var sheet := wb.sheets[|wb.sheets| - 1];
      && sheet.name == SheetName
      && sheet.cells == FerramentasCells(students, works, weights)
      && sheet.merges == FerramentasMerges(works, weights)
      && sheet.headerRows == [0, 1] && sheet.centeredFrom == Some(2)
  {
    var sheet := wb.CreateSheet(SheetName);
    WriteFerramentasHeader(sheet, works, weights);
    WriteGradesRows(sheet, students, works, weights);
    sheet.SetHeaderRowStyle(0);
    sheet.SetHeaderRowStyle(1);
    sheet.SetCentralizedStyleFrom(2);
  }
  /** The student loop of `createFerramentasDeAvaliacaoSheet`: one row of grades per student, from
      row 2, under the two header rows. */
  method WriteGradesRows(sheet: Sheet, students: seq<Student>, works: seq<Work>, weights: seq<WeightEntry>)
    requires sheet.cells == Cells(HeaderWrites(works, weights))
    modifies sheet
    ensures sheet.cells == FerramentasCells(students, works, weights)
    ensures sheet.merges == old(sheet.merges)
    ensures sheet.headerRows == old(sheet.headerRows) && sheet.centeredFrom == old(sheet.centeredFrom)
  {
    assert HeaderWrites(works, weights) + BodyWrites(students[..0], works, weights) == HeaderWrites(works, weights);
    for i := 0 to |students|
      invariant sheet.merges == old(sheet.merges)
      invariant sheet.headerRows == old(sheet.headerRows) && sheet.centeredFrom == old(sheet.centeredFrom)
      invariant sheet.cells == FerramentasCells(students[..i], works, weights)
    {
      ghost var before := HeaderWrites(works, weights) + BodyWrites(students[..i], works, weights);
      WriteGradesRow(sheet, i, students[i], works, weights, before);
      BodyWritesStep(students, i, works, weights);
    }
    assert students[..|students|] == students;
  }


  /** The two header rows. The source keeps one column cursor per header row; both advance by
      the number of works of each configured type, so they stay equal. */
  method WriteFerramentasHeader(sheet: Sheet, works: seq<Work>, weights: seq<WeightEntry>)
    requires sheet.cells == map[] && sheet.merges == []
    modifies sheet
    ensures sheet.cells == Cells(HeaderWrites(works, weights))
    ensures sheet.merges == FerramentasMerges(works, weights)
    ensures sheet.headerRows == old(sheet.headerRows) && sheet.centeredFrom == old(sheet.centeredFrom)
  {
    var w0, w1 := Write(1, 0, Text(NumberHeader)), Write(1, 1, Text(StudentHeader));
    CellsSnoc([], w0);
    sheet.CreateCell(1, 0, Text(NumberHeader));
    CellsSnoc([w0], w1);
    sheet.CreateCell(1, 1, Text(StudentHeader));
    assert [] + [w0] == [w0] && [w0] + [w1] == FixedHeader();
    assert weights[..0] == [] && FixedHeader() + [] == FixedHeader();

    var firstRowCol, secondRowCol := 2, 2;
    for k := 0 to |weights|
      invariant sheet.headerRows == old(sheet.headerRows) && sheet.centeredFrom == old(sheet.centeredFrom)
      invariant firstRowCol == secondRowCol == 2 + |ColumnWorks(works, Configured(weights[..k]))|
      invariant sheet.cells == Cells(FixedHeader() + TypeHeader(works, Configured(weights[..k])))
      invariant sheet.merges == TypeMerges(works, Configured(weights[..k]))
    {
      ConfiguredStep(weights, k);
      if weights[k].weight <= 0 {
        continue;
      }
      firstRowCol, secondRowCol := WriteTypeHeader(sheet, works, Configured(weights[..k]), weights[k],
                                                   firstRowCol, secondRowCol);
    }
    assert weights[..|weights|] == weights;
  }

  /** One configured type's part of the header: the titles of its works in row 1 from the
      second-row cursor, its label in row 0 at the first-row cursor, merged over its works. */
  method WriteTypeHeader(sheet: Sheet, works: seq<Work>, ghost cfg: seq<WeightEntry>, entry: WeightEntry,
                         firstRowCol: int, secondRowCol: int) returns (nextFirst: int, nextSecond: int)
    requires firstRowCol == secondRowCol == 2 + |ColumnWorks(works, cfg)|
    requires sheet.cells == Cells(FixedHeader() + TypeHeader(works, cfg))
    requires sheet.merges == TypeMerges(works, cfg)
    modifies sheet
    ensures nextFirst == nextSecond == 2 + |ColumnWorks(works, cfg + [entry])|
    ensures sheet.cells == Cells(FixedHeader() + TypeHeader(works, cfg + [entry]))
    ensures sheet.merges == TypeMerges(works, cfg + [entry])
    ensures sheet.headerRows == old(sheet.headerRows) && sheet.centeredFrom == old(sheet.centeredFrom)
  {
    HeaderTypeStep(works, cfg, entry);
    TypeMergesSnoc(works, cfg, entry);
    ColumnWorksSnoc(works, cfg, entry);
    var worksCount;
    worksCount, nextSecond := WriteTypeTitles(sheet, works, entry.workType, secondRowCol,
                                              FixedHeader() + TypeHeader(works, cfg));
    sheet.CreateCell(0, firstRowCol, Text(entry.workType));
    AddLabelMerge(sheet, firstRowCol, worksCount);
    nextFirst := firstRowCol + worksCount + 1;
  }

  /** Merges the label cell at `col` over the type's works when there is more than one. */
  method AddLabelMerge(sheet: Sheet, col: int, worksCount: int)
    requires worksCount >= -1
    modifies sheet
    ensures sheet.merges == old(sheet.merges) + LabelMerge(col, worksCount + 1)
    ensures sheet.cells == old(sheet.cells)
    ensures sheet.headerRows == old(sheet.headerRows) && sheet.centeredFrom == old(sheet.centeredFrom)
  {
    if worksCount > 0 {
      sheet.AddMergedRegion(Region(0, 0, col, worksCount + col));
    } else {
      assert old(sheet.merges) + [] == old(sheet.merges);
    }
  }

  /** The titles of the works of one type in row 1 from `col`. `worksCount` is one less than the
      number of such works, as the source counts it. */
  method WriteTypeTitles(sheet: Sheet, works: seq<Work>, workType: string, col: int, ghost before: seq<Write>)
    returns (worksCount: int, nextCol: int)
    requires sheet.cells == Cells(before)
    modifies sheet
    ensures worksCount == |TypeWorks(works, workType)| - 1
    ensures nextCol == col + |TypeWorks(works, workType)|
    ensures sheet.cells == Cells(before + RowRun(1, col, TitleCells(TypeWorks(works, workType))))
    ensures sheet.merges == old(sheet.merges)
    ensures sheet.headerRows == old(sheet.headerRows) && sheet.centeredFrom == old(sheet.centeredFrom)
  {
    worksCount, nextCol := -1, col;
    assert works[..0] == [] && before + [] == before;
    for j := 0 to |works|
      invariant worksCount == |TypeWorks(works[..j], workType)| - 1
      invariant nextCol == col + |TypeWorks(works[..j], workType)|
      invariant sheet.cells == Cells(before + RowRun(1, col, TitleCells(TypeWorks(works[..j], workType))))
      invariant sheet.merges == old(sheet.merges)
      invariant sheet.headerRows == old(sheet.headerRows) && sheet.centeredFrom == old(sheet.centeredFrom)
    {
      TypeWorksStep(works, workType, j);
      if works[j].workType == workType {
        TitleSnoc(before, col, TypeWorks(works[..j], workType), works[j]);
        sheet.CreateCell(1, nextCol, Text(works[j].title));
        nextCol := nextCol + 1;
        worksCount := worksCount + 1;
      }
    }
    assert works[..|works|] == works;
  }

  /** Student `i`'s row: position and name, then each configured type's grades. */
  method WriteGradesRow(sheet: Sheet, i: nat, student: Student, works: seq<Work>, weights: seq<WeightEntry>,
                        ghost before: seq<Write>)
    requires sheet.cells == Cells(before)
    modifies sheet
    ensures sheet.cells == Cells(before + RowWrites(i, student, works, weights))
    ensures sheet.merges == old(sheet.merges)
    ensures sheet.headerRows == old(sheet.headerRows) && sheet.centeredFrom == old(sheet.centeredFrom)
  {
    var row := i + 2;
    StudentCellsStep(before, row, i + 1, student);
    sheet.CreateCell(row, 0, Text(NatToString(i + 1)));
    sheet.CreateCell(row, 1, Text(student.name));
    WriteRowGrades(sheet, row, works, weights, student.id, before + StudentCells(row, i + 1, student));
    ConcatAssoc(before, StudentCells(row, i + 1, student), GradeRun(row, 2, ColumnWorks(works, Configured(weights)), student.id));
  }

  /** The grade cells of a student row, type by type from column 2. */
  method WriteRowGrades(sheet: Sheet, row: int, works: seq<Work>, weights: seq<WeightEntry>, sid: StudentId,
                        ghost rowStart: seq<Write>)
    requires sheet.cells == Cells(rowStart)
    modifies sheet
    ensures sheet.cells == Cells(rowStart + GradeRun(row, 2, ColumnWorks(works, Configured(weights)), sid))
    ensures sheet.merges == old(sheet.merges)
    ensures sheet.headerRows == old(sheet.headerRows) && sheet.centeredFrom == old(sheet.centeredFrom)
  {
    assert weights[..0] == [] && rowStart + [] == rowStart;
    var studentCellCount := 2;
    for k := 0 to |weights|
      invariant studentCellCount == 2 + |ColumnWorks(works, Configured(weights[..k]))|
      invariant sheet.cells == Cells(rowStart + GradeRun(row, 2, ColumnWorks(works, Configured(weights[..k])), sid))
      invariant sheet.merges == old(sheet.merges)
      invariant sheet.headerRows == old(sheet.headerRows) && sheet.centeredFrom == old(sheet.centeredFrom)
    {
      ConfiguredStep(weights, k);
      if weights[k].weight <= 0 {
        continue;
      }
      ColumnWorksSnoc(works, Configured(weights[..k]), weights[k]);
      RowGradesStep(rowStart, row, works, Configured(weights[..k]), weights[k], sid);
      studentCellCount := WriteTypeGrades(sheet, row, works, weights[k].workType, sid, studentCellCount,
                                          rowStart + GradeRun(row, 2, ColumnWorks(works, Configured(weights[..k])), sid));
    }
    assert weights[..|weights|] == weights;
  }

  /** The grades of one type's works: each found grade in its work's column from `col`. */
  method WriteTypeGrades(sheet: Sheet, row: int, works: seq<Work>, workType: string, sid: StudentId, col: int,
                         ghost before: seq<Write>) returns (nextCol: int)
    requires sheet.cells == Cells(before)
    modifies sheet
    ensures nextCol == col + |TypeWorks(works, workType)|
    ensures sheet.cells == Cells(before + GradeRun(row, col, TypeWorks(works, workType), sid))
    ensures sheet.merges == old(sheet.merges)
    ensures sheet.headerRows == old(sheet.headerRows) && sheet.centeredFrom == old(sheet.centeredFrom)
  {
    nextCol := col;
    assert works[..0] == [] && before + [] == before;
    for j := 0 to |works|
      invariant nextCol == col + |TypeWorks(works[..j], workType)|
      invariant sheet.cells == Cells(before + GradeRun(row, col, TypeWorks(works[..j], workType), sid))
      invariant sheet.merges == old(sheet.merges)
      invariant sheet.headerRows == old(sheet.headerRows) && sheet.centeredFrom == old(sheet.centeredFrom)
    {
      TypeWorksStep(works, workType, j);
      if works[j].workType == workType {
        GradeSnoc(before, row, col, TypeWorks(works[..j], workType), works[j], sid);
        var found, value := FindFirstGrade(works[j].grades, sid);
        if found {
          sheet.CreateCell(row, nextCol, Decimal(value));
        }
        nextCol := nextCol + 1;
      }
    }
    assert works[..|works|] == works;
  }
}
