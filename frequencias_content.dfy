/**
 * What the attendance sheet holds: the header dates and merges, the marks of every student
 * row, and when the body columns line up with the header columns.
 */
module FrequenciasContent {
  import opened Wrappers
  import opened Digits
  import opened Dates
  import opened Entities
  import opened Sheets
  import opened Layout
  import opened Frequencias

  // ---------------------------------------------------------------- cursors

  /** A later lesson's header columns start right of an earlier lesson's. */
  lemma {:induction false} HeaderCursorBefore(ls: seq<Lesson>, j: nat)
    requires j < |ls|
    ensures HeaderCursor(ls[..j]) + HeaderSpan(ls[j]) <= HeaderCursor(ls)
    decreases |ls|
  {
    var init := ls[..|ls| - 1];
    if j < |init| {
      assert init[..j] == ls[..j] && init[j] == ls[j];
      HeaderCursorBefore(init, j);
    } else {
      assert init == ls[..j];
    }
  }

  /** A later lesson's body columns start right of an earlier lesson's. */
  lemma {:induction false} BodyCursorBefore(ls: seq<Lesson>, j: nat)
    requires j < |ls|
    ensures BodyCursor(ls[..j]) + BodySpan(ls[j]) <= BodyCursor(ls)
    decreases |ls|
  {
    var init := ls[..|ls| - 1];
    if j < |init| {
      assert init[..j] == ls[..j] && init[j] == ls[j];
      BodyCursorBefore(init, j);
    } else {
      assert init == ls[..j];
    }
  }

  /** Distinct lessons start at distinct header columns. */
  lemma HeaderCursorInjective(ls: seq<Lesson>, j: nat, k: nat)
    requires j < k < |ls|
    ensures HeaderCursor(ls[..j]) < HeaderCursor(ls[..k])
  {
    HeaderCursorBefore(ls[..k], j);
    assert ls[..k][..j] == ls[..j] && ls[..k][j] == ls[j];
  }

  // ---------------------------------------------------------------- header row

  lemma HeaderLookupOther(ls: seq<Lesson>, col: int)
    requires ls != [] && col != HeaderCursor(ls[..|ls| - 1])
    ensures Lookup(HeaderWrites(ls), 0, col) == Lookup(HeaderWrites(ls[..|ls| - 1]), 0, col)
  {
    var init := ls[..|ls| - 1];
    var w := Write(0, HeaderCursor(init), Text(FormatDate(ls[|ls| - 1].date)));
    assert HeaderWrites(ls) == HeaderWrites(init) + [w];
    assert (HeaderWrites(init) + [w])[..|HeaderWrites(init)|] == HeaderWrites(init);
  }

  lemma HeaderLookupLast(ls: seq<Lesson>, col: int)
    requires ls != [] && col == HeaderCursor(ls[..|ls| - 1])
    ensures Lookup(HeaderWrites(ls), 0, col) == Some(Text(FormatDate(ls[|ls| - 1].date)))
  {
    var init := ls[..|ls| - 1];
    var w := Write(0, HeaderCursor(init), Text(FormatDate(ls[|ls| - 1].date)));
    assert HeaderWrites(ls) == HeaderWrites(init) + [w];
  }

  /** The header row names "Número" and "Aluno" in its first two columns. */
  lemma {:induction false} HeaderFixedLookup(ls: seq<Lesson>)
    ensures Lookup(HeaderWrites(ls), 0, 0) == Some(Text(NumberHeader))
    ensures Lookup(HeaderWrites(ls), 0, 1) == Some(Text(StudentHeader))
    decreases |ls|
  {
    if ls == [] {
      var ws := HeaderWrites(ls);
      assert ws[..1] == [ws[0]] && ws[..1][..0] == [];
    } else {
      HeaderLookupOther(ls, 0);
      HeaderLookupOther(ls, 1);
      HeaderFixedLookup(ls[..|ls| - 1]);
    }
  }

  /** Each lesson's date sits at the header column the cursor had reached before it. */
  lemma {:induction false} HeaderDateLookup(ls: seq<Lesson>, j: nat, col: int)
    requires j < |ls| && col == HeaderCursor(ls[..j])
    ensures Lookup(HeaderWrites(ls), 0, col) == Some(Text(FormatDate(ls[j].date)))
    decreases |ls|
  {
    var init := ls[..|ls| - 1];
    if j == |ls| - 1 {
      assert init == ls[..j];
      HeaderLookupLast(ls, col);
    } else {
      assert init[..j] == ls[..j] && init[j] == ls[j];
      HeaderCursorBefore(init, j);
      HeaderLookupOther(ls, col);
      HeaderDateLookup(init, j, col);
    }
  }

  /** The second column of a double lesson is left empty in the header row (the merge covers it). */
  lemma {:induction false} HeaderGapLookup(ls: seq<Lesson>, j: nat, col: int)
    requires j < |ls| && ls[j].quantity > 1 && col == HeaderCursor(ls[..j]) + 1
    ensures Lookup(HeaderWrites(ls), 0, col) == None
    decreases |ls|
  {
    var init := ls[..|ls| - 1];
    if j == |ls| - 1 {
      assert init == ls[..j];
      HeaderLookupOther(ls, col);
      LookupAvoided(HeaderWrites(init), 0, col);
    } else {
      assert init[..j] == ls[..j] && init[j] == ls[j];
      HeaderCursorBefore(init, j);
      HeaderLookupOther(ls, col);
      HeaderGapLookup(init, j, col);
    }
  }

  // ---------------------------------------------------------------- merges

  /** A lesson of more than one period has its two header columns merged. */
  lemma {:induction false} MergeOfDoubleLesson(ls: seq<Lesson>, j: nat, col: int)
    requires j < |ls| && ls[j].quantity > 1 && col == HeaderCursor(ls[..j])
    ensures Region(0, 0, col, col + 1) in HeaderMerges(ls)
    decreases |ls|
  {
    var init := ls[..|ls| - 1];
    if j == |ls| - 1 {
      assert init == ls[..j];
    } else {
      assert init[..j] == ls[..j] && init[j] == ls[j];
      MergeOfDoubleLesson(init, j, col);
    }
  }

  /** Every merged region is the two header columns of some lesson of more than one period. */
  lemma {:induction false} MergeHasLesson(ls: seq<Lesson>, r: Region)
    requires r in HeaderMerges(ls)
    ensures exists j :: (0 <= j < |ls| && ls[j].quantity > 1
      && r == Region(0, 0, HeaderCursor(ls[..j]), HeaderCursor(ls[..j]) + 1))
    decreases |ls|
  {
    var init := ls[..|ls| - 1];
    var j := |ls| - 1;
    if r in HeaderMerges(init) {
      MergeHasLesson(init, r);
      var k :| 0 <= k < |init| && init[k].quantity > 1
        && r == Region(0, 0, HeaderCursor(init[..k]), HeaderCursor(init[..k]) + 1);
      assert init[..k] == ls[..k] && init[k] == ls[k];
    } else {
      assert init == ls[..j];
    }
  }

  /** A lesson's header columns are merged if and only if it has more than one period. */
  lemma MergeIffDouble(ls: seq<Lesson>, j: nat, col: int)
    requires j < |ls| && col == HeaderCursor(ls[..j])
    ensures Region(0, 0, col, col + 1) in HeaderMerges(ls) <==> ls[j].quantity > 1
  {
    if ls[j].quantity > 1 {
      MergeOfDoubleLesson(ls, j, col);
    } else if Region(0, 0, col, col + 1) in HeaderMerges(ls) {
      MergeHasLesson(ls, Region(0, 0, col, col + 1));
      var k :| 0 <= k < |ls| && ls[k].quantity > 1
        && Region(0, 0, col, col + 1) == Region(0, 0, HeaderCursor(ls[..k]), HeaderCursor(ls[..k]) + 1);
      if k < j {
        HeaderCursorInjective(ls, k, j);
      } else if j < k {
        HeaderCursorInjective(ls, j, k);
      }
      assert false;
    }
  }

  // ---------------------------------------------------------------- body rows

  lemma LessonsWritesSnoc(row: int, sid: StudentId, ls: seq<Lesson>)
    requires ls != [] && AllRecorded(ls)
    ensures AllRecorded(ls[..|ls| - 1])
    ensures LessonsWrites(row, sid, ls)
         == LessonsWrites(row, sid, ls[..|ls| - 1]) + LessonWrites(row, sid, ls[|ls| - 1], BodyCursor(ls[..|ls| - 1]))
  {
    assert forall l <- ls[..|ls| - 1] :: l in ls;
  }

  lemma LessonsLookupOther(row: int, sid: StudentId, ls: seq<Lesson>, col: int)
    requires ls != [] && AllRecorded(ls) && col < BodyCursor(ls[..|ls| - 1])
    ensures AllRecorded(ls[..|ls| - 1])
    ensures Lookup(LessonsWrites(row, sid, ls), row, col) == Lookup(LessonsWrites(row, sid, ls[..|ls| - 1]), row, col)
  {
    var init := ls[..|ls| - 1];
    LessonsWritesSnoc(row, sid, ls);
    var tail := LessonWrites(row, sid, ls[|ls| - 1], BodyCursor(init));
    LookupAppend(LessonsWrites(row, sid, init), tail, row, col);
    LookupAvoided(tail, row, col);
  }

  lemma LessonsLookupLast(row: int, sid: StudentId, ls: seq<Lesson>, x: nat, col: int)
    requires ls != [] && AllRecorded(ls) && x < BodySpan(ls[|ls| - 1]) && col == BodyCursor(ls[..|ls| - 1]) + x
    ensures |ls[|ls| - 1].attendances| == 0 ==> Lookup(LessonsWrites(row, sid, ls), row, col) == None
    ensures |ls[|ls| - 1].attendances| > 0 ==>
      (x < |ls[|ls| - 1].attendances|
       && Lookup(LessonsWrites(row, sid, ls), row, col) == Some(Mark(sid in ls[|ls| - 1].attendances[x])))
  {
    var init := ls[..|ls| - 1];
    var last := ls[|ls| - 1];
    assert last in ls;
    LessonsWritesSnoc(row, sid, ls);
    var start := BodyCursor(init);
    var tail := LessonWrites(row, sid, last, start);
    LookupAppend(LessonsWrites(row, sid, init), tail, row, col);
    LookupAvoided(LessonsWrites(row, sid, init), row, col);
    assert Lookup(LessonsWrites(row, sid, ls), row, col) == Lookup(tail, row, col);
    if |last.attendances| != 0 {
      var marks := Marks(sid, last.attendances[..Periods(last)]);
      assert tail == RowRun(row, start, marks);
      RowRunLookup(row, start, marks, row, col);
      assert marks[x] == Mark(sid in last.attendances[x]);
    } else {
      assert tail == [];
    }
  }

  /** Period `x` of lesson `j` sits at the body column the cursor had reached before the lesson,
      plus `x`: "C" or "F" when attendance was taken, nothing when it was not. */
  lemma {:induction false} LessonsLookup(row: int, sid: StudentId, ls: seq<Lesson>, j: nat, x: nat, col: int)
    requires AllRecorded(ls) && j < |ls| && x < BodySpan(ls[j]) && col == BodyCursor(ls[..j]) + x
    ensures |ls[j].attendances| == 0 ==> Lookup(LessonsWrites(row, sid, ls), row, col) == None
    ensures |ls[j].attendances| > 0 ==>
      (x < |ls[j].attendances| && Lookup(LessonsWrites(row, sid, ls), row, col) == Some(Mark(sid in ls[j].attendances[x])))
    decreases |ls|
  {
    var init := ls[..|ls| - 1];
    if j == |ls| - 1 {
      assert init == ls[..j];
      LessonsLookupLast(row, sid, ls, x, col);
    } else {
      assert init[..j] == ls[..j] && init[j] == ls[j];
      BodyCursorBefore(init, j);
      LessonsLookupOther(row, sid, ls, col);
      LessonsLookup(row, sid, init, j, x, col);
    }
  }

  /** Within a student row: the position, the name, then the lesson marks from column 2. */
  lemma RowLookup(row: nat, s: Student, lessons: seq<Lesson>, col: int)
    requires AllRecorded(lessons)
    ensures var ws := StudentCells(row, row, s) + LessonsWrites(row, s.id, lessons);
      && (col == 0 ==> Lookup(ws, row, col) == Some(Text(NatToString(row))))
      && (col == 1 ==> Lookup(ws, row, col) == Some(Text(s.name)))
      && (col >= 2 ==> Lookup(ws, row, col) == Lookup(LessonsWrites(row, s.id, lessons), row, col))
  {
    var lw := LessonsWrites(row, s.id, lessons);
    LookupAppend(StudentCells(row, row, s), lw, row, col);
    StudentCellsLookup(row, row, s);
    if col < 2 {
      LookupAvoided(lw, row, col);
    } else {
      LookupAvoided(StudentCells(row, row, s), row, col);
    }
  }

  lemma BodyLookupStep(students: seq<Student>, lessons: seq<Lesson>, row: int, col: int)
    requires Completes(students, lessons) && students != []
    ensures AllRecorded(lessons)
    ensures var n := |students|;
      Lookup(BodyWrites(students, lessons), row, col)
      == if row == n then
           (var own := Lookup(StudentCells(n, n, students[n - 1]) + LessonsWrites(n, students[n - 1].id, lessons), row, col);
            if own.Some? then own else Lookup(BodyWrites(students[..n - 1], lessons), row, col))
         else Lookup(BodyWrites(students[..n - 1], lessons), row, col)
  {
    var n := |students|;
    var init := students[..n - 1];
    var block := StudentCells(n, n, students[n - 1]) + LessonsWrites(n, students[n - 1].id, lessons);
    assert BodyWrites(students, lessons) == BodyWrites(init, lessons) + block;
    LookupAppend(BodyWrites(init, lessons), block, row, col);
    if row != n {
      LookupAvoided(block, row, col);
    }
  }

  /** Row `i + 1` holds exactly what student `i`'s own writes put there. */
  lemma {:induction false} BodyLookup(students: seq<Student>, lessons: seq<Lesson>, i: nat, col: int)
    requires Completes(students, lessons) && i < |students|
    ensures AllRecorded(lessons)
    ensures Lookup(BodyWrites(students, lessons), i + 1, col)
         == Lookup(StudentCells(i + 1, i + 1, students[i]) + LessonsWrites(i + 1, students[i].id, lessons), i + 1, col)
    decreases |students|
  {
    var n := |students|;
    var init := students[..n - 1];
    BodyLookupStep(students, lessons, i + 1, col);
    if i == n - 1 {
      LookupAvoided(BodyWrites(init, lessons), i + 1, col);
    } else {
      assert init[i] == students[i] && Completes(init, lessons);
      BodyLookup(init, lessons, i, col);
    }
  }

  lemma FrequenciasHeaderLookup(students: seq<Student>, lessons: seq<Lesson>, col: int)
    requires Completes(students, lessons)
    ensures CellAt(FrequenciasCells(students, lessons), 0, col) == Lookup(HeaderWrites(lessons), 0, col)
  {
    CellsLookup(FrequenciasWrites(students, lessons), 0, col);
    LookupAppend(HeaderWrites(lessons), BodyWrites(students, lessons), 0, col);
    LookupAvoided(BodyWrites(students, lessons), 0, col);
  }

  lemma FrequenciasBodyLookup(students: seq<Student>, lessons: seq<Lesson>, row: int, col: int)
    requires Completes(students, lessons) && row >= 1
    ensures CellAt(FrequenciasCells(students, lessons), row, col) == Lookup(BodyWrites(students, lessons), row, col)
  {
    CellsLookup(FrequenciasWrites(students, lessons), row, col);
    LookupAppend(HeaderWrites(lessons), BodyWrites(students, lessons), row, col);
    LookupAvoided(HeaderWrites(lessons), row, col);
  }

  // ---------------------------------------------------------------- the sheet

  /** Header row of the attendance sheet: "Número" and "Aluno" in its first two columns. */
  lemma HeaderLabelCells(students: seq<Student>, lessons: seq<Lesson>)
    requires Completes(students, lessons)
    ensures CellAt(FrequenciasCells(students, lessons), 0, 0) == Some(Text(NumberHeader))
    ensures CellAt(FrequenciasCells(students, lessons), 0, 1) == Some(Text(StudentHeader))
  {
    FrequenciasHeaderLookup(students, lessons, 0);
    FrequenciasHeaderLookup(students, lessons, 1);
    HeaderFixedLookup(lessons);
  }

  /** Header row of the attendance sheet: each lesson's date at its header column. */
  lemma HeaderCells(students: seq<Student>, lessons: seq<Lesson>, j: nat, col: int)
    requires Completes(students, lessons) && j < |lessons| && col == HeaderCursor(lessons[..j])
    ensures CellAt(FrequenciasCells(students, lessons), 0, col) == Some(Text(FormatDate(lessons[j].date)))
  {
    FrequenciasHeaderLookup(students, lessons, col);
    HeaderDateLookup(lessons, j, col);
  }

  /** Header row of the attendance sheet: a lesson of more than one period leaves the column after
      its date empty (the two are merged). */
  lemma HeaderGapCell(students: seq<Student>, lessons: seq<Lesson>, j: nat, col: int)
    requires Completes(students, lessons) && j < |lessons| && col == HeaderCursor(lessons[..j])
    requires lessons[j].quantity > 1
    ensures CellAt(FrequenciasCells(students, lessons), 0, col + 1) == None
  {
    FrequenciasHeaderLookup(students, lessons, col + 1);
    HeaderGapLookup(lessons, j, col + 1);
  }

  /** Row `i + 1` starts with the student's 1-based position in the sorted roster, then the name. */
  lemma PositionCells(students: seq<Student>, lessons: seq<Lesson>, i: nat)
    requires Completes(students, lessons) && i < |students|
    ensures CellAt(FrequenciasCells(students, lessons), i + 1, 0) == Some(Text(NatToString(i + 1)))
    ensures CellAt(FrequenciasCells(students, lessons), i + 1, 1) == Some(Text(students[i].name))
  {
    FrequenciasBodyLookup(students, lessons, i + 1, 0);
    FrequenciasBodyLookup(students, lessons, i + 1, 1);
    BodyLookup(students, lessons, i, 0);
    BodyLookup(students, lessons, i, 1);
    RowLookup(i + 1, students[i], lessons, 0);
    RowLookup(i + 1, students[i], lessons, 1);
  }

  /** The attendance mark of student `i` for period `x` of lesson `j`: "C" when the student is
      among that period's present students, "F" otherwise; no cell when no attendance was taken. */
  lemma AttendanceCell(students: seq<Student>, lessons: seq<Lesson>, i: nat, j: nat, x: nat, col: int)
    requires Completes(students, lessons) && i < |students| && j < |lessons|
    requires x < BodySpan(lessons[j]) && col == BodyCursor(lessons[..j]) + x
    ensures |lessons[j].attendances| == 0 ==> CellAt(FrequenciasCells(students, lessons), i + 1, col) == None
    ensures |lessons[j].attendances| > 0 ==>
      (x < |lessons[j].attendances|
       && CellAt(FrequenciasCells(students, lessons), i + 1, col) == Some(Mark(students[i].id in lessons[j].attendances[x])))
  {
    var s := students[i];
    FrequenciasBodyLookup(students, lessons, i + 1, col);
    BodyLookup(students, lessons, i, col);
    assert col >= 2;
    RowLookup(i + 1, s, lessons, col);
    assert CellAt(FrequenciasCells(students, lessons), i + 1, col) == Lookup(LessonsWrites(i + 1, s.id, lessons), i + 1, col);
    LessonsLookup(i + 1, s.id, lessons, j, x, col);
  }

  // ---------------------------------------------------------------- alignment

  /** The two cursors agree after every lesson. */
  predicate Aligned(ls: seq<Lesson>) {
    forall j | 0 <= j <= |ls| :: BodyCursor(ls[..j]) == HeaderCursor(ls[..j])
  }

  /** The body cursor equals the header cursor after every lesson exactly when every lesson has
      one or two periods: a single lesson takes one column in both rows, a double one two. */
  lemma {:induction false} AlignedIff(ls: seq<Lesson>)
    ensures Aligned(ls) <==> forall l <- ls :: 1 <= l.quantity <= 2
    decreases |ls|
  {
    if ls != [] {
      var init := ls[..|ls| - 1];
      var last := ls[|ls| - 1];
      AlignedIff(init);
      assert ls[..|ls|] == ls;
      assert BodyCursor(ls) == BodyCursor(init) + BodySpan(last);
      assert HeaderCursor(ls) == HeaderCursor(init) + HeaderSpan(last);
      assert forall j | 0 <= j <= |init| :: init[..j] == ls[..j];
      assert forall l <- ls :: l in init || l == last;
      if Aligned(ls) {
        assert Aligned(init) by {
          forall j | 0 <= j <= |init| ensures BodyCursor(init[..j]) == HeaderCursor(init[..j]) {
            assert BodyCursor(ls[..j]) == HeaderCursor(ls[..j]);
          }
        }
        assert BodyCursor(ls[..|ls|]) == HeaderCursor(ls[..|ls|]);
        assert BodyCursor(init[..|init|]) == HeaderCursor(init[..|init|]);
        assert init[..|init|] == init;
      }
      if forall l <- ls :: 1 <= l.quantity <= 2 {
        assert Aligned(init);
        assert init[..|init|] == init;
        assert BodyCursor(init[..|init|]) == HeaderCursor(init[..|init|]);
        assert last in ls;
        forall j | 0 <= j <= |ls| ensures BodyCursor(ls[..j]) == HeaderCursor(ls[..j]) {
          if j <= |init| {
            assert BodyCursor(init[..j]) == HeaderCursor(init[..j]);
          }
        }
      }
    }
  }

  /** With every lesson of one or two periods, the body cursor has reached the header cursor
      before each lesson. */
  lemma AlignedAt(ls: seq<Lesson>, j: nat)
    requires j <= |ls| && forall l <- ls :: 1 <= l.quantity <= 2
    ensures BodyCursor(ls[..j]) == HeaderCursor(ls[..j])
  {
    AlignedIff(ls);
  }

  /** The second period of a double lesson is marked in the column after the first. */
  lemma SecondMark(students: seq<Student>, lessons: seq<Lesson>, i: nat, j: nat, col: int)
    requires Completes(students, lessons) && i < |students| && j < |lessons|
    requires lessons[j].quantity == 2 && col == BodyCursor(lessons[..j]) + 1
    ensures |lessons[j].attendances| > 0 ==> 1 < |lessons[j].attendances|
    ensures |lessons[j].attendances| > 0 ==>
      CellAt(FrequenciasCells(students, lessons), i + 1, col) == Some(Mark(students[i].id in lessons[j].attendances[1]))
  {
    AttendanceCell(students, lessons, i, j, 1, col);
  }

  /** With every lesson of one or two periods, each student's mark for a lesson's first period
      stands in the column of the lesson's date; no mark when no attendance was taken. */
  lemma MarkUnderDate(students: seq<Student>, lessons: seq<Lesson>, i: nat, j: nat, col: int)
    requires Completes(students, lessons) && i < |students| && j < |lessons|
    requires forall l <- lessons :: 1 <= l.quantity <= 2
    requires col == HeaderCursor(lessons[..j])
    ensures CellAt(FrequenciasCells(students, lessons), 0, col) == Some(Text(FormatDate(lessons[j].date)))
    ensures |lessons[j].attendances| == 0 ==> CellAt(FrequenciasCells(students, lessons), i + 1, col) == None
    ensures |lessons[j].attendances| > 0 ==>
      CellAt(FrequenciasCells(students, lessons), i + 1, col) == Some(Mark(students[i].id in lessons[j].attendances[0]))
  {
    assert lessons[j] in lessons;
    AlignedAt(lessons, j);
    HeaderCells(students, lessons, j, col);
    AttendanceCell(students, lessons, i, j, 0, col);
  }

  /** With every lesson of one or two periods, the second period of a double lesson is marked in
      the column after the lesson's date, which the header merges with it. */
  lemma SecondMarkUnderDate(students: seq<Student>, lessons: seq<Lesson>, i: nat, j: nat, col: int)
    requires Completes(students, lessons) && i < |students| && j < |lessons|
    requires forall l <- lessons :: 1 <= l.quantity <= 2
    requires col == HeaderCursor(lessons[..j]) + 1
    ensures lessons[j].quantity == 2 && |lessons[j].attendances| > 0 ==> 1 < |lessons[j].attendances|
    ensures lessons[j].quantity == 2 && |lessons[j].attendances| > 0 ==>
      CellAt(FrequenciasCells(students, lessons), i + 1, col) == Some(Mark(students[i].id in lessons[j].attendances[1]))
  {
    if lessons[j].quantity == 2 {
      AlignedAt(lessons, j);
      SecondMark(students, lessons, i, j, col);
    }
  }
}
