/**
 * The attendance sheet ("Frequências"): one row per student, one column per lesson period.
 * A lesson of more than one period takes two header columns whose header cells are merged.
 */
module Frequencias {
  import opened Wrappers
  import opened Digits
  import opened Dates
  import opened Entities
  import opened Sheets
  import opened Layout

  const SheetName := "Frequências"

  /** Header columns a lesson takes: two when it has more than one period, one otherwise. */
  function HeaderSpan(l: Lesson): nat {
    if l.quantity > 1 then 2 else 1
  }

  /** Columns a student row moves over for a lesson: with no attendance recorded, two for a
      double lesson, one for a single one and none otherwise; with attendance, one per period. */
  function BodySpan(l: Lesson): nat {
    if |l.attendances| == 0 then
      (if l.quantity == 2 then 2 else if l.quantity == 1 then 1 else 0)
    else if l.quantity > 0 then l.quantity else 0
  }

  /** The header column cursor after the lessons `ls`. */
  function HeaderCursor(ls: seq<Lesson>): (c: int)
    ensures c >= 2 + |ls|
  {
    if ls == [] then 2 else HeaderCursor(ls[..|ls| - 1]) + HeaderSpan(ls[|ls| - 1])
  }

  /** The body column cursor of any student row after the lessons `ls`. */
  function BodyCursor(ls: seq<Lesson>): (c: int)
    ensures c >= 2
  {
    if ls == [] then 2 else BodyCursor(ls[..|ls| - 1]) + BodySpan(ls[|ls| - 1])
  }

  /** Every period read has a recorded attendance entry: `attendances.get(x)` does not throw. */
  predicate Recorded(l: Lesson) {
    |l.attendances| == 0 || l.quantity <= |l.attendances|
  }

  predicate AllRecorded(ls: seq<Lesson>) {
    forall l <- ls :: Recorded(l)
  }

  /** The sheet is built without an `IndexOutOfBoundsException`: the first student row reads
      every period of every lesson that has attendance. */
  predicate Completes(students: seq<Student>, lessons: seq<Lesson>) {
    |students| == 0 || AllRecorded(lessons)
  }

  /** Header row: "Número", "Aluno", then each lesson's date at the cursor. */
  function HeaderWrites(ls: seq<Lesson>): (ws: seq<Write>)
    ensures forall w <- ws :: w.row == 0 && 0 <= w.col < HeaderCursor(ls)
  {
    if ls == [] then [Write(0, 0, Text(NumberHeader)), Write(0, 1, Text(StudentHeader))]
    else
      var init := ls[..|ls| - 1];
      HeaderWrites(init) + [Write(0, HeaderCursor(init), Text(FormatDate(ls[|ls| - 1].date)))]
  }

  /** One merged region over the two header columns of every lesson of more than one period. */
  function HeaderMerges(ls: seq<Lesson>): (rs: seq<Region>)
    ensures forall r <- rs :: r.firstRow == 0 && r.lastRow == 0 && r.lastCol == r.firstCol + 1
    ensures |rs| <= |ls|
  {
    if ls == [] then []
    else
      var init := ls[..|ls| - 1];
      HeaderMerges(init) + (if ls[|ls| - 1].quantity > 1 then [Region(0, 0, HeaderCursor(init), HeaderCursor(init) + 1)] else [])
  }

  function Mark(present: bool): Cell {
    if present then Text("C") else Text("F")
  }

  /** The marks of one student for the given period slots: "C" when present, "F" otherwise. */
  function Marks(sid: StudentId, slots: seq<set<StudentId>>): (ms: seq<Cell>)
    ensures |ms| == |slots|
  {
    seq(|slots|, x requires 0 <= x < |slots| => Mark(sid in slots[x]))
  }

  /** The periods read for a lesson with attendance. */
  function Periods(l: Lesson): nat {
    if l.quantity > 0 then l.quantity else 0
  }

  /** The cells a student row gets for one lesson starting at column `start`. */
  function LessonWrites(row: int, sid: StudentId, l: Lesson, start: int): (ws: seq<Write>)
    requires Recorded(l)
    ensures forall w <- ws :: w.row == row && start <= w.col < start + BodySpan(l)
  {
    if |l.attendances| == 0 then [] else RowRun(row, start, Marks(sid, l.attendances[..Periods(l)]))
  }

  function LessonsWrites(row: int, sid: StudentId, ls: seq<Lesson>): (ws: seq<Write>)
    requires AllRecorded(ls)
    ensures forall w <- ws :: w.row == row && 2 <= w.col < BodyCursor(ls)
  {
    if ls == [] then []
    else
      var init := ls[..|ls| - 1];
      LessonsWrites(row, sid, init) + LessonWrites(row, sid, ls[|ls| - 1], BodyCursor(init))
  }

  /** Rows 1.. in roster order. */
  function BodyWrites(students: seq<Student>, lessons: seq<Lesson>): (ws: seq<Write>)
    requires Completes(students, lessons)
    ensures forall w <- ws :: 1 <= w.row <= |students|
  {
    if students == [] then []
    else
      var n := |students|;
      BodyWrites(students[..n - 1], lessons)
        + StudentCells(n, n, students[n - 1]) + LessonsWrites(n, students[n - 1].id, lessons)
  }

  function FrequenciasWrites(students: seq<Student>, lessons: seq<Lesson>): seq<Write>
    requires Completes(students, lessons)
  {
    HeaderWrites(lessons) + BodyWrites(students, lessons)
  }

  function FrequenciasCells(students: seq<Student>, lessons: seq<Lesson>): map<(int, int), Cell>
    requires Completes(students, lessons)
  {
    Cells(FrequenciasWrites(students, lessons))
  }

  lemma HeaderStep(lessons: seq<Lesson>, j: nat)
    requires j < |lessons|
    ensures HeaderCursor(lessons[..j + 1]) == HeaderCursor(lessons[..j]) + HeaderSpan(lessons[j])
    ensures HeaderMerges(lessons[..j + 1]) == HeaderMerges(lessons[..j])
         + if lessons[j].quantity > 1 then [Region(0, 0, HeaderCursor(lessons[..j]), HeaderCursor(lessons[..j]) + 1)] else []
  {
    assert lessons[..j + 1][..j] == lessons[..j];
  }

  lemma HeaderCellsStep(lessons: seq<Lesson>, j: nat)
    requires j < |lessons|
    ensures Cells(HeaderWrites(lessons[..j + 1]))
         == Cells(HeaderWrites(lessons[..j]))[(0, HeaderCursor(lessons[..j])) := Text(FormatDate(lessons[j].date))]
  {
    assert lessons[..j + 1][..j] == lessons[..j];
    CellsSnoc(HeaderWrites(lessons[..j]), Write(0, HeaderCursor(lessons[..j]), Text(FormatDate(lessons[j].date))));
  }

  lemma MarkStep(before: seq<Write>, row: int, start: int, sid: StudentId, slots: seq<set<StudentId>>, x: nat)
    requires x < |slots|
    ensures Cells(before + RowRun(row, start, Marks(sid, slots[..x + 1])))
         == Cells(before + RowRun(row, start, Marks(sid, slots[..x])))[(row, start + x) := Mark(sid in slots[x])]
  {
    var w := Write(row, start + x, Mark(sid in slots[x]));
    assert Marks(sid, slots[..x + 1])[..x] == Marks(sid, slots[..x]);
    CellsSnoc(before + RowRun(row, start, Marks(sid, slots[..x])), w);
    assert before + RowRun(row, start, Marks(sid, slots[..x + 1]))
        == before + RowRun(row, start, Marks(sid, slots[..x])) + [w];
  }

  lemma BodyWritesSnoc(students: seq<Student>, i: nat, lessons: seq<Lesson>)
    requires i < |students| && AllRecorded(lessons)
    ensures HeaderWrites(lessons) + BodyWrites(students[..i + 1], lessons)
         == HeaderWrites(lessons) + BodyWrites(students[..i], lessons)
            + StudentCells(i + 1, i + 1, students[i]) + LessonsWrites(i + 1, students[i].id, lessons)
  {
    assert students[..i + 1][..i] == students[..i];
  }

  /** `createFrequenciasSheet`: appends the attendance sheet to `wb`. `ok` is false when reading a
      period's attendance throws, in which case the sheet is left partly filled. */
  method CreateFrequenciasSheet(wb: Workbook, students: seq<Student>, lessons: seq<Lesson>) returns (ok: bool)
    modifies wb
    ensures |wb.sheets| == |old(wb.sheets)| + 1 && wb.sheets[..|old(wb.sheets)|] == old(wb.sheets)
    ensures fresh(wb.sheets[|wb.sheets| - 1]) && wb.sheets[|wb.sheets| - 1].name == SheetName
    ensures ok <==> Completes(students, lessons)
    ensures ok ==> var sheet := wb.sheets[|wb.sheets| - 1];
      && sheet.cells == FrequenciasCells(students, lessons)
      && sheet.merges == HeaderMerges(lessons)
      && sheet.headerRows == [0] && sheet.centeredFrom == Some(1)
  {
    var sheet := wb.CreateSheet(SheetName);
    WriteHeader(sheet, lessons);
    ok := WriteStudentRows(sheet, students, lessons);
    if !ok {
      return;
    }
    sheet.SetHeaderRowStyle(0);
    sheet.SetCentralizedStyleFrom(1);
  }

  /** The student loop of `createFrequenciasSheet`: one row per student, from row 1, after the
      header; `ok` is false when some row stops at a missing attendance entry. */
  method WriteStudentRows(sheet: Sheet, students: seq<Student>, lessons: seq<Lesson>) returns (ok: bool)
    requires sheet.cells == Cells(HeaderWrites(lessons))
    modifies sheet
    ensures sheet.merges == old(sheet.merges)
    ensures sheet.headerRows == old(sheet.headerRows) && sheet.centeredFrom == old(sheet.centeredFrom)
    ensures ok <==> Completes(students, lessons)
    ensures ok ==> sheet.cells == FrequenciasCells(students, lessons)
  {
    assert HeaderWrites(lessons) + BodyWrites(students[..0], lessons) == HeaderWrites(lessons);
    for i := 0 to |students|
      invariant sheet.merges == old(sheet.merges)
      invariant sheet.headerRows == old(sheet.headerRows) && sheet.centeredFrom == old(sheet.centeredFrom)
      invariant i > 0 ==> AllRecorded(lessons)
      invariant sheet.cells == Cells(HeaderWrites(lessons) + BodyWrites(students[..i], lessons))
    {
      ghost var before := HeaderWrites(lessons) + BodyWrites(students[..i], lessons);
      var rowOk := WriteStudentRow(sheet, i + 1, students[i], lessons, before);
      if !rowOk {
        return false;
      }
      BodyWritesSnoc(students, i, lessons);
    }
    assert students[..|students|] == students;
    return true;
  }

  /** The header loop of `createFrequenciasSheet`: one date per lesson, merged over two columns
      for a lesson of more than one period. */
  method WriteHeader(sheet: Sheet, lessons: seq<Lesson>)
    requires sheet.cells == map[] && sheet.merges == []
    modifies sheet
    ensures sheet.cells == Cells(HeaderWrites(lessons)) && sheet.merges == HeaderMerges(lessons)
    ensures sheet.headerRows == old(sheet.headerRows) && sheet.centeredFrom == old(sheet.centeredFrom)
  {
    CellsSnoc([], Write(0, 0, Text(NumberHeader)));
    sheet.CreateCell(0, 0, Text(NumberHeader));
    CellsSnoc([Write(0, 0, Text(NumberHeader))], Write(0, 1, Text(StudentHeader)));
    sheet.CreateCell(0, 1, Text(StudentHeader));
    assert [] + [Write(0, 0, Text(NumberHeader))] == [Write(0, 0, Text(NumberHeader))];
    assert [Write(0, 0, Text(NumberHeader))] + [Write(0, 1, Text(StudentHeader))] == HeaderWrites(lessons[..0]);
    var cellCount := 2;
    for j := 0 to |lessons|
      invariant sheet.headerRows == old(sheet.headerRows) && sheet.centeredFrom == old(sheet.centeredFrom)
      invariant cellCount == HeaderCursor(lessons[..j])
      invariant sheet.cells == Cells(HeaderWrites(lessons[..j]))
      invariant sheet.merges == HeaderMerges(lessons[..j])
    {
      var lesson := lessons[j];
      HeaderStep(lessons, j);
      HeaderCellsStep(lessons, j);
      if lesson.quantity > 1 {
        sheet.CreateCell(0, cellCount, Text(FormatDate(lesson.date)));
        sheet.AddMergedRegion(Region(0, 0, cellCount, cellCount + 1));
        cellCount := cellCount + 2;
      } else {
        sheet.CreateCell(0, cellCount, Text(FormatDate(lesson.date)));
        cellCount := cellCount + 1;
      }
    }
    assert lessons[..|lessons|] == lessons;
  }

  /** One student row of `createFrequenciasSheet`, on a sheet holding the writes `before`;
      `ok` is false when a lesson's attendance list is shorter than its period count. */
  method WriteStudentRow(sheet: Sheet, row: nat, student: Student, lessons: seq<Lesson>, ghost before: seq<Write>)
    returns (ok: bool)
    requires sheet.cells == Cells(before)
    modifies sheet
    ensures sheet.merges == old(sheet.merges)
    ensures sheet.headerRows == old(sheet.headerRows) && sheet.centeredFrom == old(sheet.centeredFrom)
    ensures ok <==> AllRecorded(lessons)
    ensures ok ==> sheet.cells == Cells(before + StudentCells(row, row, student) + LessonsWrites(row, student.id, lessons))
  {
    ghost var rowStart := before + StudentCells(row, row, student);
    StudentCellsStep(before, row, row, student);
    sheet.CreateCell(row, 0, Text(NatToString(row)));
    sheet.CreateCell(row, 1, Text(student.name));

    var studentCellCount := 2;
    assert lessons[..0] == [] && rowStart + [] == rowStart;
    for j := 0 to |lessons|
      invariant sheet.merges == old(sheet.merges)
      invariant sheet.headerRows == old(sheet.headerRows) && sheet.centeredFrom == old(sheet.centeredFrom)
      invariant AllRecorded(lessons[..j])
      invariant studentCellCount == BodyCursor(lessons[..j])
      invariant sheet.cells == Cells(rowStart + LessonsWrites(row, student.id, lessons[..j]))
    {
      var lesson := lessons[j];
      ghost var done := rowStart + LessonsWrites(row, student.id, lessons[..j]);
      var lessonOk;
      lessonOk, studentCellCount := WriteLessonCells(sheet, row, student.id, lesson, studentCellCount, done);
      if !lessonOk {
        assert lessons[j] in lessons;
        return false;
      }
      AllRecordedStep(lessons, j);
      LessonsStep(rowStart, row, student.id, lessons, j);
    }
    assert lessons[..|lessons|] == lessons;
    return true;
  }

  /** One lesson of a student row, from column `start`: nothing but the cursor moving over one or
      two columns when no attendance was taken, the period marks otherwise. */
  method WriteLessonCells(sheet: Sheet, row: int, sid: StudentId, lesson: Lesson, start: int, ghost before: seq<Write>)
    returns (ok: bool, next: int)
    requires sheet.cells == Cells(before)
    modifies sheet
    ensures sheet.merges == old(sheet.merges)
    ensures sheet.headerRows == old(sheet.headerRows) && sheet.centeredFrom == old(sheet.centeredFrom)
    ensures ok <==> Recorded(lesson)
    ensures ok ==> next == start + BodySpan(lesson) && sheet.cells == Cells(before + LessonWrites(row, sid, lesson, start))
  {
    next := start;
    if |lesson.attendances| == 0 {
      if lesson.quantity == 2 { next := next + 2; }
      if lesson.quantity == 1 { next := next + 1; }
      assert before + [] == before;
      ok := true;
    } else {
      ok := WriteLessonMarks(sheet, row, sid, lesson, start, before);
      next := start + Periods(lesson);
    }
  }

  lemma AllRecordedStep(lessons: seq<Lesson>, j: nat)
    requires j < |lessons| && AllRecorded(lessons[..j]) && Recorded(lessons[j])
    ensures AllRecorded(lessons[..j + 1])
  {
    assert lessons[..j + 1] == lessons[..j] + [lessons[j]];
  }

  /** One lesson more: the row's writes grow by that lesson's cells, the cursor by its body span. */
  lemma LessonsStep(rowStart: seq<Write>, row: int, sid: StudentId, lessons: seq<Lesson>, j: nat)
    requires j < |lessons| && AllRecorded(lessons[..j + 1])
    ensures Recorded(lessons[j]) && AllRecorded(lessons[..j])
    ensures BodyCursor(lessons[..j + 1]) == BodyCursor(lessons[..j]) + BodySpan(lessons[j])
    ensures rowStart + LessonsWrites(row, sid, lessons[..j + 1])
         == rowStart + LessonsWrites(row, sid, lessons[..j]) + LessonWrites(row, sid, lessons[j], BodyCursor(lessons[..j]))
    ensures |lessons[j].attendances| == 0
        ==> rowStart + LessonsWrites(row, sid, lessons[..j + 1]) == rowStart + LessonsWrites(row, sid, lessons[..j])
  {
    var init := lessons[..j + 1][..j];
    assert init == lessons[..j];
    assert lessons[..j + 1][j] == lessons[j];
    assert LessonsWrites(row, sid, lessons[..j + 1])
        == LessonsWrites(row, sid, init) + LessonWrites(row, sid, lessons[j], BodyCursor(init));
  }

  /** The period loop `for (x = 0; x < quantity; x++)` of a lesson with attendance, on a sheet
      holding the writes `before`: "C" or "F" per period. */
  method WriteLessonMarks(sheet: Sheet, row: int, sid: StudentId, lesson: Lesson, start: int, ghost before: seq<Write>)
    returns (ok: bool)
    requires sheet.cells == Cells(before) && |lesson.attendances| > 0
    modifies sheet
    ensures sheet.merges == old(sheet.merges)
    ensures sheet.headerRows == old(sheet.headerRows) && sheet.centeredFrom == old(sheet.centeredFrom)
    ensures ok <==> Recorded(lesson)
    ensures ok ==> sheet.cells == Cells(before + LessonWrites(row, sid, lesson, start))
  {
    var x := 0;
    assert lesson.attendances[..0] == [] && before + [] == before;
    while x < lesson.quantity
      invariant sheet.merges == old(sheet.merges)
      invariant sheet.headerRows == old(sheet.headerRows) && sheet.centeredFrom == old(sheet.centeredFrom)
      invariant 0 <= x <= Periods(lesson) && x <= |lesson.attendances|
      invariant sheet.cells == Cells(before + RowRun(row, start, Marks(sid, lesson.attendances[..x])))
    {
      if x >= |lesson.attendances| {
        // attendances.get(x) throws IndexOutOfBoundsException
        return false;
      }
      MarkStep(before, row, start, sid, lesson.attendances, x);
      sheet.CreateCell(row, start + x, Mark(sid in lesson.attendances[x]));
      x := x + 1;
    }
    assert x == Periods(lesson);
    assert LessonWrites(row, sid, lesson, start) == RowRun(row, start, Marks(sid, lesson.attendances[..x]));
    return true;
  }
}
