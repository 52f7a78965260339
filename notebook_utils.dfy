/**
 * `NotebookUtils.finalizeNotebook`: sorts the notebook's students by roll number, its lessons by
 * date and its works by delivery date, in place, and builds the four sheets of the report in
 * order: attendance, averages, observations and the assessment matrix.
 */
module NotebookUtils {
  import opened Wrappers
  import opened Sheets
  import opened Entities
  import opened Sorting
  import Frequencias
  import Medias
  import Observacoes
  import Ferramentas

  /** The notebook's three lists, which `finalizeNotebook` sorts in place. */
  class Notebook {
    var students: seq<Student>
    var lessons: seq<Lesson>
    var works: seq<Work>

    constructor (students: seq<Student>, lessons: seq<Lesson>, works: seq<Work>)
      ensures this.students == students && this.lessons == lessons && this.works == works
    {
      this.students := students;
      this.lessons := lessons;
      this.works := works;
    }
  }

  /** The error that escapes when an attendance period is read past the recorded ones. */
  const AttendanceOutOfBounds := "IndexOutOfBoundsException"

  /** The three sorts of `finalizeNotebook`: each list ordered by its key, holding the same
      elements, with elements of equal key in their former order. */
  lemma SortsSpec(students: seq<Student>, lessons: seq<Lesson>, works: seq<Work>)
    ensures SortedBy(SortBy(students, StudentNumber), StudentNumber)
         && multiset(SortBy(students, StudentNumber)) == multiset(students)
    ensures SortedBy(SortBy(lessons, LessonDate), LessonDate)
         && multiset(SortBy(lessons, LessonDate)) == multiset(lessons)
    ensures SortedBy(SortBy(works, WorkDeliveryDate), WorkDeliveryDate)
         && multiset(SortBy(works, WorkDeliveryDate)) == multiset(works)
    ensures forall k :: WithKey(SortBy(students, StudentNumber), StudentNumber, k) == WithKey(students, StudentNumber, k)
  {
    SortBySorted(students, StudentNumber);
    SortByPermutes(students, StudentNumber);
    SortBySorted(lessons, LessonDate);
    SortByPermutes(lessons, LessonDate);
    SortBySorted(works, WorkDeliveryDate);
    SortByPermutes(works, WorkDeliveryDate);
    forall k {
      SortByStable(students, StudentNumber, k);
    }
  }

  predicate AttendanceSheet(sheet: Sheet, students: seq<Student>, lessons: seq<Lesson>)
    reads sheet
  {
    && Frequencias.Completes(students, lessons)
    && sheet.name == Frequencias.SheetName
    && sheet.cells == Frequencias.FrequenciasCells(students, lessons)
    && sheet.merges == Frequencias.HeaderMerges(lessons)
    && sheet.headerRows == [0] && sheet.centeredFrom == Some(1)
  }

  predicate AveragesSheet(sheet: Sheet, students: seq<Student>, works: seq<Work>, weights: seq<WeightEntry>)
    reads sheet
  {
    && sheet.name == Medias.SheetName
    && sheet.cells == Medias.MediasCells(students, works, weights)
    && sheet.merges == [] && sheet.headerRows == [0] && sheet.centeredFrom == Some(1)
  }

  predicate ObservationsSheet(sheet: Sheet, lessons: seq<Lesson>)
    reads sheet
  {
    && sheet.name == Observacoes.SheetName
    && sheet.cells == Observacoes.ObservacoesCells(lessons)
    && sheet.merges == [] && sheet.headerRows == [0] && sheet.centeredFrom == Some(1)
  }

  predicate MatrixSheet(sheet: Sheet, students: seq<Student>, works: seq<Work>, weights: seq<WeightEntry>)
    reads sheet
  {
    && sheet.name == Ferramentas.SheetName
    && sheet.cells == Ferramentas.FerramentasCells(students, works, weights)
    && sheet.merges == Ferramentas.FerramentasMerges(works, weights)
    && sheet.headerRows == [0, 1] && sheet.centeredFrom == Some(2)
  }

  /** The workbook holds the four sheets, in order, each with the cells, the merged regions and
      the header and centring styles its builder produces from the given lists (only the
      attendance and matrix sheets merge anything). */
  predicate Report(wb: Workbook, students: seq<Student>, lessons: seq<Lesson>, works: seq<Work>, weights: seq<WeightEntry>)
    reads wb, wb.sheets
  {
    && |wb.sheets| == 4
    && AttendanceSheet(wb.sheets[0], students, lessons)
    && AveragesSheet(wb.sheets[1], students, works, weights)
    && ObservationsSheet(wb.sheets[2], lessons)
    && MatrixSheet(wb.sheets[3], students, works, weights)
  }

  /** The four sheets, each as its builder leaves it, at their places make the report. */
  lemma ReportOf(wb: Workbook, attendance: Sheet, averages: Sheet, observations: Sheet, matrix: Sheet,
                 students: seq<Student>, lessons: seq<Lesson>, works: seq<Work>, weights: seq<WeightEntry>)
    requires |wb.sheets| == 4 && wb.sheets[0] == attendance && wb.sheets[1] == averages
    requires wb.sheets[2] == observations && wb.sheets[3] == matrix
    requires AttendanceSheet(attendance, students, lessons)
    requires AveragesSheet(averages, students, works, weights)
    requires ObservationsSheet(observations, lessons)
    requires MatrixSheet(matrix, students, works, weights)
    ensures Report(wb, students, lessons, works, weights)
  {
  }

  /** `finalizeNotebook`: sorts the lists of `notebook` and returns the workbook of the four
      sheets, built from the sorted lists. It fails, with the lists already sorted, exactly when
      the attendance sheet reads a period with no recorded attendance. */
  method FinalizeNotebook(notebook: Notebook, weights: seq<WeightEntry>) returns (result: Result<Workbook, string>)
    modifies notebook
    ensures notebook.students == SortBy(old(notebook.students), StudentNumber)
    ensures notebook.lessons == SortBy(old(notebook.lessons), LessonDate)
    ensures notebook.works == SortBy(old(notebook.works), WorkDeliveryDate)
    ensures SortedBy(notebook.students, StudentNumber) && multiset(notebook.students) == multiset(old(notebook.students))
    ensures SortedBy(notebook.lessons, LessonDate) && multiset(notebook.lessons) == multiset(old(notebook.lessons))
    ensures SortedBy(notebook.works, WorkDeliveryDate) && multiset(notebook.works) == multiset(old(notebook.works))
    ensures result.Success? <==> Frequencias.Completes(notebook.students, notebook.lessons)
    ensures result.Failure? ==> result.error == AttendanceOutOfBounds
    ensures result.Success? ==>
      fresh(result.value) && Report(result.value, notebook.students, notebook.lessons, notebook.works, weights)
  {
    SortsSpec(notebook.students, notebook.lessons, notebook.works);
    notebook.students := SortBy(notebook.students, StudentNumber);
    notebook.lessons := SortBy(notebook.lessons, LessonDate);
    notebook.works := SortBy(notebook.works, WorkDeliveryDate);

    result := BuildReport(notebook.students, notebook.lessons, notebook.works, weights);
  }

  /** The sheet-building half of `finalizeNotebook`, on the sorted lists. */
  method BuildReport(students: seq<Student>, lessons: seq<Lesson>, works: seq<Work>, weights: seq<WeightEntry>)
    returns (result: Result<Workbook, string>)
    ensures result.Success? <==> Frequencias.Completes(students, lessons)
    ensures result.Failure? ==> result.error == AttendanceOutOfBounds
    ensures result.Success? ==> fresh(result.value) && Report(result.value, students, lessons, works, weights)
  {
    var wb := new Workbook();
    var ok, attendance := AddAttendance(wb, students, lessons);
    if !ok {
      return Failure(AttendanceOutOfBounds);
    }
    var averages := AddAverages(wb, students, works, weights);
    var observations := AddObservations(wb, lessons);
    var matrix := AddMatrix(wb, students, works, weights);
    ReportOf(wb, attendance, averages, observations, matrix, students, lessons, works, weights);
    result := Success(wb);
  }

  /** `createFrequenciasSheet` on a new workbook: the attendance sheet becomes its first. */
  method AddAttendance(wb: Workbook, students: seq<Student>, lessons: seq<Lesson>) returns (ok: bool, sheet: Sheet)
    requires wb.sheets == []
    modifies wb
    ensures fresh(sheet) && |wb.sheets| == 1 && wb.sheets[0] == sheet
    ensures ok <==> Frequencias.Completes(students, lessons)
    ensures ok ==> AttendanceSheet(sheet, students, lessons)
  {
    ok := Frequencias.CreateFrequenciasSheet(wb, students, lessons);
    sheet := wb.sheets[0];
  }

  /** `createMediasSheet` after the attendance sheet: the averages sheet becomes the second. */
  method AddAverages(wb: Workbook, students: seq<Student>, works: seq<Work>, weights: seq<WeightEntry>)
    returns (sheet: Sheet)
    requires |wb.sheets| == 1
    modifies wb
    ensures fresh(sheet) && |wb.sheets| == 2 && wb.sheets[0] == old(wb.sheets[0]) && wb.sheets[1] == sheet
    ensures AveragesSheet(sheet, students, works, weights)
  {
    Medias.CreateMediasSheet(wb, students, works, weights);
    sheet := wb.sheets[1];
    assert wb.sheets[0] == wb.sheets[..1][0];
  }

  /** `createObservacoesSheet` after the first two: the observations sheet becomes the third. */
  method AddObservations(wb: Workbook, lessons: seq<Lesson>) returns (sheet: Sheet)
    requires |wb.sheets| == 2
    modifies wb
    ensures fresh(sheet) && |wb.sheets| == 3 && wb.sheets[2] == sheet
    ensures wb.sheets[0] == old(wb.sheets[0]) && wb.sheets[1] == old(wb.sheets[1])
    ensures ObservationsSheet(sheet, lessons)
  {
    Observacoes.CreateObservacoesSheet(wb, lessons);
    sheet := wb.sheets[2];
    assert wb.sheets[0] == wb.sheets[..2][0] && wb.sheets[1] == wb.sheets[..2][1];
  }

  /** `createFerramentasDeAvaliacaoSheet` after the first three: the assessment matrix becomes
      the fourth and last sheet. */
  method AddMatrix(wb: Workbook, students: seq<Student>, works: seq<Work>, weights: seq<WeightEntry>)
    returns (sheet: Sheet)
    requires |wb.sheets| == 3
    modifies wb
    ensures fresh(sheet) && |wb.sheets| == 4 && wb.sheets[3] == sheet
    ensures wb.sheets[0] == old(wb.sheets[0]) && wb.sheets[1] == old(wb.sheets[1]) && wb.sheets[2] == old(wb.sheets[2])
    ensures MatrixSheet(sheet, students, works, weights)
  {
    Ferramentas.CreateFerramentasSheet(wb, students, works, weights);
    sheet := wb.sheets[3];
    assert wb.sheets[0] == wb.sheets[..3][0] && wb.sheets[1] == wb.sheets[..3][1] && wb.sheets[2] == wb.sheets[..3][2];
  }
}
