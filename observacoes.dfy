/**
 * `createObservacoesSheet`: one row per lesson that has observations, in lesson order, with the
 * lesson's date as "dd/MM/yyyy" and its observations, under the header "Data", "Observação".
 */
module Observacoes {
  import opened Wrappers
  import opened Sheets
  import opened Entities
  import opened Dates
  import opened Sorting

  const SheetName := "Observações"
  const DateHeader := "Data"
  const ObservationHeader := "Observação"

  // ---------------------------------------------------------------- which lessons are listed

  /** `Character.isWhitespace` on the characters below U+0080. */
  predicate IsWhitespace(c: char) {
    c == ' ' || '\t' <= c <= '\r' || '\U{1C}' <= c <= '\U{1F}'
  }

  predicate IsBlank(s: string) {
    forall i :: 0 <= i < |s| ==> IsWhitespace(s[i])
  }

  /** The skip test of the source: the observations are empty and blank. */
  predicate Skipped(l: Lesson) {
    |l.observations| == 0 && IsBlank(l.observations)
  }

  /** Only a lesson with no observations at all is skipped; one whose observations are only
      spaces gets a row. */
  lemma SkippedIffEmpty(l: Lesson)
    ensures Skipped(l) <==> l.observations == ""
  {
  }

  /** The lessons that get a row, in their order. */
  function Kept(ls: seq<Lesson>): seq<Lesson> {
    if ls == [] then []
    else Kept(ls[..|ls| - 1]) + (if Skipped(ls[|ls| - 1]) then [] else [ls[|ls| - 1]])
  }

  lemma KeptStep(ls: seq<Lesson>, j: nat)
    requires j < |ls|
    ensures Kept(ls[..j + 1]) == Kept(ls[..j]) + (if Skipped(ls[j]) then [] else [ls[j]])
  {
    assert ls[..j + 1][..j] == ls[..j];
  }

  /** Exactly the lessons with observations are listed, and no more rows than lessons. */
  lemma {:induction false} KeptMembers(ls: seq<Lesson>)
    ensures |Kept(ls)| <= |ls|
    ensures forall l <- Kept(ls) :: l in ls && !Skipped(l)
    ensures forall l <- ls :: !Skipped(l) ==> l in Kept(ls)
  {
    if ls != [] {
      var init, last := ls[..|ls| - 1], ls[|ls| - 1];
      KeptMembers(init);
      assert ls == init + [last];
    }
  }

  /** Lessons sorted by date give observation rows sorted by date. */
  lemma {:induction false} KeptSorted(ls: seq<Lesson>)
    requires SortedBy(ls, LessonDate)
    ensures SortedBy(Kept(ls), LessonDate)
  {
    if ls != [] {
      var init, last := ls[..|ls| - 1], ls[|ls| - 1];
      assert SortedBy(init, LessonDate);
      KeptSorted(init);
      KeptMembers(init);
      var kept := Kept(init);
      if !Skipped(last) {
        forall i | 0 <= i < |kept|
          ensures LessonDate(kept[i]) <= LessonDate(last)
        {
          assert kept[i] in init;
          var p :| 0 <= p < |init| && init[p] == kept[i];
          assert ls[p] == init[p];
        }
        var r := kept + [last];
        forall i, j | 0 <= i < j < |r|
          ensures LessonDate(r[i]) <= LessonDate(r[j])
        {
          if j < |kept| {
            assert r[i] == kept[i] && r[j] == kept[j];
          } else {
            assert r[i] == kept[i] && r[j] == last;
          }
        }
      } else {
        assert Kept(ls) == kept + [];
      }
    }
  }

  // ---------------------------------------------------------------- the write log

  function HeaderWrites(): seq<Write> {
    [Write(0, 0, Text(DateHeader)), Write(0, 1, Text(ObservationHeader))]
  }

  /** The row of one listed lesson. */
  function LessonRow(row: int, l: Lesson): seq<Write> {
    [Write(row, 0, Text(FormatDate(l.date))), Write(row, 1, Text(l.observations))]
  }

  /** The rows of the listed lessons among `ls`, from row 1 with no gaps. */
  function BodyWrites(ls: seq<Lesson>): seq<Write> {
    if ls == [] then []
    else
      var init := ls[..|ls| - 1];
      BodyWrites(init) + (if Skipped(ls[|ls| - 1]) then [] else LessonRow(1 + |Kept(init)|, ls[|ls| - 1]))
  }

  function ObservacoesCells(lessons: seq<Lesson>): map<(int, int), Cell> {
    Cells(HeaderWrites() + BodyWrites(lessons))
  }

  lemma TwoCellsLookup(a: Write, b: Write, r: int, col: int)
    ensures Lookup([a, b], r, col)
         == if b.row == r && b.col == col then Some(b.value)
            else if a.row == r && a.col == col then Some(a.value)
            else None
  {
    assert [a, b][..1] == [a] && [a][..0] == [];
    assert Lookup([a], r, col) == if a.row == r && a.col == col then Some(a.value) else None;
  }

  /** The rows of the first `|Kept(ls)|` listed lessons: row `m + 1` holds the `m`-th. */
  lemma {:induction false} BodyLookup(ls: seq<Lesson>, r: int, col: int)
    ensures var kept := Kept(ls);
      Lookup(BodyWrites(ls), r, col)
      == if 1 <= r <= |kept| && col == 0 then Some(Text(FormatDate(kept[r - 1].date)))
         else if 1 <= r <= |kept| && col == 1 then Some(Text(kept[r - 1].observations))
         else None
  {
    if ls != [] {
      var init, last := ls[..|ls| - 1], ls[|ls| - 1];
      var n := |Kept(init)|;
      var block := if Skipped(last) then [] else LessonRow(1 + n, last);
      LookupAppend(BodyWrites(init), block, r, col);
      BodyLookup(init, r, col);
      if !Skipped(last) {
        TwoCellsLookup(Write(1 + n, 0, Text(FormatDate(last.date))), Write(1 + n, 1, Text(last.observations)), r, col);
      }
      if 1 <= r <= n {
        assert Kept(ls)[r - 1] == Kept(init)[r - 1];
      }
    }
  }

  // ---------------------------------------------------------------- the sheet

  /** Row 0 holds "Data" and "Observação" and nothing else. */
  lemma HeaderCells(lessons: seq<Lesson>, col: int)
    ensures CellAt(ObservacoesCells(lessons), 0, col)
         == if col == 0 then Some(Text(DateHeader)) else if col == 1 then Some(Text(ObservationHeader)) else None
  {
    CellsLookup(HeaderWrites() + BodyWrites(lessons), 0, col);
    LookupAppend(HeaderWrites(), BodyWrites(lessons), 0, col);
    BodyLookup(lessons, 0, col);
    TwoCellsLookup(HeaderWrites()[0], HeaderWrites()[1], 0, col);
  }

  /** Row `m + 1` shows the date and the observations of the `m`-th lesson with observations;
      rows after the last of them are empty. */
  lemma RowCells(lessons: seq<Lesson>, r: int, col: int)
    requires r >= 1
    ensures var kept := Kept(lessons);
      CellAt(ObservacoesCells(lessons), r, col)
      == if r <= |kept| && col == 0 then Some(Text(FormatDate(kept[r - 1].date)))
         else if r <= |kept| && col == 1 then Some(Text(kept[r - 1].observations))
         else None
  {
    CellsLookup(HeaderWrites() + BodyWrites(lessons), r, col);
    LookupAppend(HeaderWrites(), BodyWrites(lessons), r, col);
    BodyLookup(lessons, r, col);
    TwoCellsLookup(HeaderWrites()[0], HeaderWrites()[1], r, col);
  }

  /** The date column reads back as the lesson's date for dates of the years 1 to 9999. */
  lemma DateCellReadsBack(lessons: seq<Lesson>, m: nat)
    requires m < |Kept(lessons)| && 1 <= Kept(lessons)[m].date.year <= 9999
    ensures var c := CellAt(ObservacoesCells(lessons), m + 1, 0);
      c.Some? && c.value.Text? && ParseDate(c.value.text) == Some(Kept(lessons)[m].date)
  {
    RowCells(lessons, m + 1, 0);
    FormatDateRoundTrip(Kept(lessons)[m].date);
  }

  // ---------------------------------------------------------------- the builder

  lemma BodyStep(ls: seq<Lesson>, j: nat)
    requires j < |ls|
    ensures BodyWrites(ls[..j + 1])
         == BodyWrites(ls[..j]) + (if Skipped(ls[j]) then [] else LessonRow(1 + |Kept(ls[..j])|, ls[j]))
  {
    assert ls[..j + 1][..j] == ls[..j];
  }

  /** `createObservacoesSheet`: appends the observations sheet to `wb`. */
  method CreateObservacoesSheet(wb: Workbook, lessons: seq<Lesson>)
    modifies wb
    ensures |wb.sheets| == |old(wb.sheets)| + 1 && wb.sheets[..|old(wb.sheets)|] == old(wb.sheets)
    ensures fresh(wb.sheets[|wb.sheets| - 1])
    ensures var sheet := wb.sheets[|wb.sheets| - 1];
      && sheet.name == SheetName
      && sheet.cells == ObservacoesCells(lessons)
      && sheet.merges == [] && sheet.headerRows == [0] && sheet.centeredFrom == Some(1)
  {
    var sheet := wb.CreateSheet(SheetName);
    WriteObservacoesHeader(sheet);
    WriteLessonRows(sheet, lessons);

    sheet.SetHeaderRowStyle(0);
    sheet.SetCentralizedStyleFrom(1);
  }
  /** The header row of `createObservacoesSheet`: "Data" and "Observação". */
  method WriteObservacoesHeader(sheet: Sheet)
    requires sheet.cells == map[]
    modifies sheet
    ensures sheet.cells == Cells(HeaderWrites())
    ensures sheet.merges == old(sheet.merges)
    ensures sheet.headerRows == old(sheet.headerRows) && sheet.centeredFrom == old(sheet.centeredFrom)
  {
    var h0, h1 := Write(0, 0, Text(DateHeader)), Write(0, 1, Text(ObservationHeader));
    CellsSnoc([], h0);
    sheet.CreateCell(0, 0, Text(DateHeader));
    CellsSnoc([h0], h1);
    sheet.CreateCell(0, 1, Text(ObservationHeader));
    assert [] + [h0] == [h0] && [h0] + [h1] == HeaderWrites();
  }

  /** The lesson loop of `createObservacoesSheet`: a row, from row 1, for each lesson with
      observations. */
  method WriteLessonRows(sheet: Sheet, lessons: seq<Lesson>)
    requires sheet.cells == Cells(HeaderWrites())
    modifies sheet
    ensures sheet.cells == ObservacoesCells(lessons)
    ensures sheet.merges == old(sheet.merges)
    ensures sheet.headerRows == old(sheet.headerRows) && sheet.centeredFrom == old(sheet.centeredFrom)
  {
    assert lessons[..0] == [] && HeaderWrites() + [] == HeaderWrites();

    var lessonRowCount := 1;
    for j := 0 to |lessons|
      invariant lessonRowCount == 1 + |Kept(lessons[..j])|
      invariant sheet.cells == Cells(HeaderWrites() + BodyWrites(lessons[..j]))
      invariant sheet.merges == old(sheet.merges)
      invariant sheet.headerRows == old(sheet.headerRows) && sheet.centeredFrom == old(sheet.centeredFrom)
    {
      var lesson := lessons[j];
      KeptStep(lessons, j);
      BodyStep(lessons, j);
      if Skipped(lesson) {
        assert BodyWrites(lessons[..j]) + [] == BodyWrites(lessons[..j]);
        continue;
      }
      WriteLessonRow(sheet, lessonRowCount, lesson, HeaderWrites() + BodyWrites(lessons[..j]));
      ConcatAssoc(HeaderWrites(), BodyWrites(lessons[..j]), LessonRow(lessonRowCount, lesson));
      lessonRowCount := lessonRowCount + 1;
    }
    assert lessons[..|lessons|] == lessons;
  }


  /** One lesson's row: its date, then its observations. */
  method WriteLessonRow(sheet: Sheet, row: int, lesson: Lesson, ghost before: seq<Write>)
    requires sheet.cells == Cells(before)
    modifies sheet
    ensures sheet.cells == Cells(before + LessonRow(row, lesson))
    ensures sheet.merges == old(sheet.merges)
    ensures sheet.headerRows == old(sheet.headerRows) && sheet.centeredFrom == old(sheet.centeredFrom)
  {
    var d, o := Write(row, 0, Text(FormatDate(lesson.date))), Write(row, 1, Text(lesson.observations));
    CellsSnoc(before, d);
    sheet.CreateCell(row, 0, Text(FormatDate(lesson.date)));
    CellsSnoc(before + [d], o);
    sheet.CreateCell(row, 1, Text(lesson.observations));
    assert before + [d] + [o] == before + LessonRow(row, lesson);
  }
}
