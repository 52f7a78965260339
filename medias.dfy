/**
 * The averages sheet ("Médias"): one column per work type of positive weight, in weight-map
 * order, then the final weighted average; one row per student.
 */
module Medias {
  import opened Wrappers
  import opened Digits
  import opened Entities
  import opened Sheets
  import opened Layout

  const SheetName := "Médias"
  const AverageHeader := "MÉDIA"

  // ---------------------------------------------------------------- rounding

  /** `(double) Math.round(x * 2) / 2`: `x` rounded to a multiple of one half, ties upward. */
  function RoundHalf(x: real): real {
    (2.0 * x + 0.5).Floor as real / 2.0
  }

  /** A whole number of halves. */
  predicate IsHalves(r: real) {
    (2.0 * r).Floor as real == 2.0 * r
  }

  /** The rounded value is a whole number of halves within a quarter of `x`. */
  lemma RoundHalfNearest(x: real)
    ensures x - 0.25 < RoundHalf(x) <= x + 0.25
    ensures IsHalves(RoundHalf(x))
  {
    var n := (2.0 * x + 0.5).Floor;
    assert n as real <= 2.0 * x + 0.5 < n as real + 1.0;
    assert 2.0 * RoundHalf(x) == n as real;
  }

  /** Rounding leaves a whole number of halves unchanged. */
  lemma RoundHalfOfHalves(n: int)
    ensures RoundHalf(n as real / 2.0) == n as real / 2.0
  {
    assert 2.0 * (n as real / 2.0) + 0.5 == n as real + 0.5;
    assert (n as real + 0.5).Floor == n;
  }

  lemma RoundHalfMonotone(x: real, y: real)
    requires x <= y
    ensures RoundHalf(x) <= RoundHalf(y)
  {
    assert (2.0 * x + 0.5).Floor <= (2.0 * y + 0.5).Floor;
  }

  // ---------------------------------------------------------------- per-type totals

  /** `gradesSum` and `quantity` of one type for one student. */
  datatype Totals = Totals(sum: real, count: nat)

  /** Over the works whose type renders as `workType`, in order: the student's first grade in
      each work that has one is added to the sum and counted. */
  function TypeTotals(works: seq<Work>, workType: string, sid: StudentId): (t: Totals)
    ensures t.count == 0 ==> t.sum == 0.0
  {
    if works == [] then Totals(0.0, 0)
    else
      var w := works[|works| - 1];
      var t := TypeTotals(works[..|works| - 1], workType, sid);
      if w.workType == workType && FirstGrade(w.grades, sid).Some? then
        Totals(t.sum + FirstGrade(w.grades, sid).value, t.count + 1)
      else t
  }

  /** A type's count is zero exactly when no work of that type holds a grade of the student. */
  lemma {:induction false} TotalsCountZero(works: seq<Work>, workType: string, sid: StudentId)
    ensures TypeTotals(works, workType, sid).count == 0
        <==> forall w <- works :: w.workType == workType ==> FirstGrade(w.grades, sid).None?
    decreases |works|
  {
    if works != [] {
      var init := works[..|works| - 1];
      TotalsCountZero(init, workType, sid);
      assert forall w <- works :: w in init || w == works[|works| - 1];
      assert works[|works| - 1] in works;
    }
  }

  /** Every grade of the student lies between 0 and 10. */
  predicate GradesInRange(works: seq<Work>, sid: StudentId) {
    forall w <- works :: forall g <- w.grades :: g.student == sid ==> 0.0 <= g.value <= 10.0
  }

  lemma {:induction false} TotalsInRange(works: seq<Work>, workType: string, sid: StudentId)
    requires GradesInRange(works, sid)
    ensures var t := TypeTotals(works, workType, sid); 0.0 <= t.sum <= 10.0 * t.count as real
    decreases |works|
  {
    if works != [] {
      var init := works[..|works| - 1];
      var w := works[|works| - 1];
      assert w in works;
      TotalsInRange(init, workType, sid);
      if FirstGrade(w.grades, sid).Some? {
        FirstGradeSpec(w.grades, sid);
        var i :| 0 <= i < |w.grades| && w.grades[i].student == sid && w.grades[i].value == FirstGrade(w.grades, sid).value
          && forall j :: 0 <= j < i ==> w.grades[j].student != sid;
        assert w.grades[i] in w.grades;
      }
    }
  }

  /** The scan of one type: the loop over the works, each searched up to the student's first grade. */
  method SumTypeGrades(works: seq<Work>, workType: string, sid: StudentId) returns (gradesSum: real, quantity: nat)
    ensures Totals(gradesSum, quantity) == TypeTotals(works, workType, sid)
  {
    gradesSum, quantity := 0.0, 0;
    for m := 0 to |works|
      invariant Totals(gradesSum, quantity) == TypeTotals(works[..m], workType, sid)
    {
      assert works[..m + 1][..m] == works[..m];
      var work := works[m];
      if work.workType == workType {
        var found, value := FindFirstGrade(work.grades, sid);
        if found {
          gradesSum := gradesSum + value;
          quantity := quantity + 1;
        }
      }
    }
    assert works[..|works|] == works;
  }

  // ---------------------------------------------------------------- averages

  /** `gradesSum / quantity`. */
  function Mean(t: Totals): real
    requires t.count > 0
  {
    t.sum / t.count as real
  }

  lemma MeanInRange(t: Totals)
    requires t.count > 0 && 0.0 <= t.sum <= 10.0 * t.count as real
    ensures 0.0 <= Mean(t) <= 10.0
  {
    var c := t.count as real;
    assert Mean(t) * c == t.sum;
  }

  /** `(gradesSum * weight) / quantity`: what a type adds to `finalGrade`. */
  function Share(t: Totals, weight: int): real
    requires t.count > 0
  {
    t.sum * weight as real / t.count as real
  }

  /** The per-type average shown in the sheet: the half-rounded mean of the counted grades, or no
      data when the student has no grade of that type. */
  function TypeAverage(t: Totals): Cell {
    if t.count == 0 then NoData else Decimal(RoundHalf(Mean(t)))
  }

  /** `finalGrade`: the sum, over the types of positive weight, of the type mean times its weight;
      undefined as soon as one of those types has no grade. */
  function WeightedTotal(works: seq<Work>, weights: seq<WeightEntry>, sid: StudentId): Option<real> {
    if weights == [] then Some(0.0)
    else
      var e := weights[|weights| - 1];
      var acc := WeightedTotal(works, weights[..|weights| - 1], sid);
      var t := TypeTotals(works, e.workType, sid);
      if e.weight <= 0 then acc
      else if t.count == 0 || acc.None? then None
      else Some(acc.value + Share(t, e.weight))
  }

  /** The final average cell: the weighted total over 10, rounded to halves, or no data. */
  function FinalCell(total: Option<real>): Cell {
    if total.None? then NoData else Decimal(RoundHalf(total.value / 10.0))
  }

  function FinalAverage(works: seq<Work>, weights: seq<WeightEntry>, sid: StudentId): Cell {
    FinalCell(WeightedTotal(works, weights, sid))
  }

  /** Every type of positive weight has at least one grade of the student. */
  predicate AllTypesGraded(works: seq<Work>, weights: seq<WeightEntry>, sid: StudentId) {
    forall e <- weights :: e.weight > 0 ==> TypeTotals(works, e.workType, sid).count > 0
  }

  /** The final average is missing exactly when some type of positive weight has no grade. */
  lemma {:induction false} FinalAverageDefined(works: seq<Work>, weights: seq<WeightEntry>, sid: StudentId)
    ensures WeightedTotal(works, weights, sid).Some? <==> AllTypesGraded(works, weights, sid)
    decreases |weights|
  {
    if weights != [] {
      var init := weights[..|weights| - 1];
      FinalAverageDefined(works, init, sid);
      assert forall e <- weights :: e in init || e == weights[|weights| - 1];
      assert weights[|weights| - 1] in weights;
    }
  }

  /** With the student's grades between 0 and 10, a type average shown is between 0 and 10. */
  lemma TypeAverageInRange(works: seq<Work>, workType: string, sid: StudentId)
    requires GradesInRange(works, sid)
    ensures var c := TypeAverage(TypeTotals(works, workType, sid));
      c.Decimal? ==> 0.0 <= c.value <= 10.0
  {
    var t := TypeTotals(works, workType, sid);
    TotalsInRange(works, workType, sid);
    if t.count > 0 {
      var mean := Mean(t);
      MeanInRange(t);
      RoundHalfMonotone(0.0, mean);
      RoundHalfMonotone(mean, 10.0);
      RoundHalfOfHalves(0);
      RoundHalfOfHalves(20);
    }
  }

  // ---------------------------------------------------------------- as written: the NaN path

  /** A Java `double` as far as these averages need one: a finite value, or the NaN of `0.0 / 0`. */
  datatype Double = Finite(v: real) | NaN

  /** `gradesSum / quantity` in double arithmetic: with no grade the sum is 0.0 too, and 0.0 / 0 is NaN. */
  function MeanAsWritten(t: Totals): Double
    requires t.count == 0 ==> t.sum == 0.0
  {
    if t.count == 0 then NaN else Finite(Mean(t))
  }

  /** `(gradesSum * weight) / quantity` in double arithmetic: NaN when there is no grade. */
  function ShareAsWritten(t: Totals, weight: int): Double
    requires t.count == 0 ==> t.sum == 0.0
  {
    if t.count == 0 then NaN else Finite(Share(t, weight))
  }

  function Scale(d: Double, k: real): Double {
    match d
    case NaN => NaN
    case Finite(v) => Finite(v * k)
  }

  function Plus(a: Double, b: Double): Double {
    if a.NaN? || b.NaN? then NaN else Finite(a.v + b.v)
  }

  /** `Math.round`: NaN rounds to 0; otherwise the floor of `x + 1/2`. */
  function MathRound(d: Double): int {
    match d
    case NaN => 0
    case Finite(v) => (v + 0.5).Floor
  }

  /** `(double) Math.round((gradesSum / quantity) * 2) / 2`, as written. */
  function TypeAverageAsWritten(t: Totals): real
    requires t.count == 0 ==> t.sum == 0.0
  {
    MathRound(Scale(MeanAsWritten(t), 2.0)) as real / 2.0
  }

  /** `finalGrade += (gradesSum * weight) / quantity` over the types of positive weight, as written. */
  function FinalGradeAsWritten(works: seq<Work>, weights: seq<WeightEntry>, sid: StudentId): Double {
    if weights == [] then Finite(0.0)
    else
      var e := weights[|weights| - 1];
      var acc := FinalGradeAsWritten(works, weights[..|weights| - 1], sid);
      var t := TypeTotals(works, e.workType, sid);
      if e.weight <= 0 then acc
      else Plus(acc, ShareAsWritten(t, e.weight))
  }

  /** `(double) Math.round((finalGrade / 10) * 2) / 2`, as written. */
  function FinalAverageAsWritten(works: seq<Work>, weights: seq<WeightEntry>, sid: StudentId): real {
    MathRound(Scale(Scale(FinalGradeAsWritten(works, weights, sid), 1.0 / 10.0), 2.0)) as real / 2.0
  }

  /** Where the student has grades, the as-written per-type average is the sheet's value. */
  lemma TypeAverageAgrees(t: Totals)
    requires t.count == 0 ==> t.sum == 0.0
    ensures t.count > 0 ==> TypeAverage(t) == Decimal(TypeAverageAsWritten(t))
    ensures t.count == 0 ==> TypeAverage(t) == NoData && TypeAverageAsWritten(t) == 0.0
  {
    if t.count > 0 {
      var m := Mean(t);
      assert m * 2.0 + 0.5 == 2.0 * m + 0.5;
    }
  }

  /** When every type of positive weight has a grade, the as-written accumulation is finite and
      equals the weighted total. */
  lemma {:induction false} FinalGradeAgrees(works: seq<Work>, weights: seq<WeightEntry>, sid: StudentId)
    requires AllTypesGraded(works, weights, sid)
    ensures WeightedTotal(works, weights, sid).Some?
    ensures FinalGradeAsWritten(works, weights, sid) == Finite(WeightedTotal(works, weights, sid).value)
    decreases |weights|
  {
    if weights != [] {
      var init := weights[..|weights| - 1];
      assert forall e <- init :: e in weights;
      assert weights[|weights| - 1] in weights;
      FinalGradeAgrees(works, init, sid);
    }
  }

  /** When every type of positive weight has a grade, the final average shown is the as-written one. */
  lemma FinalAverageAgrees(works: seq<Work>, weights: seq<WeightEntry>, sid: StudentId)
    requires AllTypesGraded(works, weights, sid)
    ensures FinalAverage(works, weights, sid) == Decimal(FinalAverageAsWritten(works, weights, sid))
  {
    FinalGradeAgrees(works, weights, sid);
    RoundingAgrees(WeightedTotal(works, weights, sid).value);
  }

  lemma RoundingAgrees(f: real)
    ensures MathRound(Scale(Scale(Finite(f), 1.0 / 10.0), 2.0)) as real / 2.0 == RoundHalf(f / 10.0)
  {
    assert f * (1.0 / 10.0) * 2.0 + 0.5 == 2.0 * (f / 10.0) + 0.5;
  }

  /** As written, one type of positive weight without a grade of the student turns `finalGrade`
      into NaN, and the final average shown is 0.0 whatever the other types hold. */
  lemma {:induction false} FinalGradeNaN(works: seq<Work>, weights: seq<WeightEntry>, sid: StudentId)
    requires !AllTypesGraded(works, weights, sid)
    ensures FinalGradeAsWritten(works, weights, sid) == NaN
    ensures FinalAverageAsWritten(works, weights, sid) == 0.0
    decreases |weights|
  {
    var init := weights[..|weights| - 1];
    var e := weights[|weights| - 1];
    if AllTypesGraded(works, init, sid) {
      assert forall x <- weights :: x in init || x == e;
    } else {
      FinalGradeNaN(works, init, sid);
    }
  }

  /** A student with 9 in the only test, and no assignment graded, when tests weigh 60 and
      assignments 40: the sheet as written shows 9.0 for tests and 0.0 for assignments and for the
      final average; the corrected sheet shows no data for the last two. */
  lemma MissingTypeExample()
    ensures var works := [Work(1, "P1", "PROVA", Dates.Date(2023, 3, 10), [Grade(9.0, 7, 1)])];
      var weights := [WeightEntry("PROVA", 60), WeightEntry("TRABALHO", 40)];
      && TypeAverageAsWritten(TypeTotals(works, "PROVA", 7)) == 9.0
      && TypeAverageAsWritten(TypeTotals(works, "TRABALHO", 7)) == 0.0
      && FinalAverageAsWritten(works, weights, 7) == 0.0
      && TypeAverage(TypeTotals(works, "PROVA", 7)) == Decimal(9.0)
      && TypeAverage(TypeTotals(works, "TRABALHO", 7)) == NoData
      && FinalAverage(works, weights, 7) == NoData
  {
    var works := [Work(1, "P1", "PROVA", Dates.Date(2023, 3, 10), [Grade(9.0, 7, 1)])];
    var weights := [WeightEntry("PROVA", 60), WeightEntry("TRABALHO", 40)];
    assert works[..0] == [];
    assert TypeTotals(works, "PROVA", 7) == Totals(9.0, 1);
    assert TypeTotals(works, "TRABALHO", 7) == Totals(0.0, 0);
    assert (18.0 + 0.5).Floor == 18;
    assert weights[1] in weights;
    FinalGradeNaN(works, weights, 7);
    FinalAverageDefined(works, weights, 7);
  }

  // ---------------------------------------------------------------- the sheet

  function TypeLabels(cfg: seq<WeightEntry>): (cs: seq<Cell>)
    ensures |cs| == |cfg|
  {
    seq(|cfg|, k requires 0 <= k < |cfg| => Text(cfg[k].workType))
  }

  function AverageCells(works: seq<Work>, cfg: seq<WeightEntry>, sid: StudentId): (cs: seq<Cell>)
    ensures |cs| == |cfg|
  {
    seq(|cfg|, k requires 0 <= k < |cfg| => TypeAverage(TypeTotals(works, cfg[k].workType, sid)))
  }

  function FixedHeader(): seq<Write> {
    [Write(0, 0, Text(NumberHeader)), Write(0, 1, Text(StudentHeader))]
  }

  /** Header: "Número", "Aluno", the type labels from column 2, then "MÉDIA". */
  function HeaderWrites(weights: seq<WeightEntry>): seq<Write> {
    var cfg := Configured(weights);
    FixedHeader() + RowRun(0, 2, TypeLabels(cfg)) + [Write(0, 2 + |cfg|, Text(AverageHeader))]
  }

  /** A student row: position and name, the type averages from column 2, then the final average
      at the "MÉDIA" column. */
  function RowWrites(row: nat, s: Student, works: seq<Work>, weights: seq<WeightEntry>): seq<Write> {
    var cfg := Configured(weights);
    StudentCells(row, row, s) + RowRun(row, 2, AverageCells(works, cfg, s.id))
      + [Write(row, 2 + |cfg|, FinalAverage(works, weights, s.id))]
  }

  function BodyWrites(students: seq<Student>, works: seq<Work>, weights: seq<WeightEntry>): (ws: seq<Write>)
    ensures forall w <- ws :: 1 <= w.row <= |students|
  {
    if students == [] then []
    else
      var n := |students|;
      BodyWrites(students[..n - 1], works, weights) + RowWrites(n, students[n - 1], works, weights)
  }

  function MediasCells(students: seq<Student>, works: seq<Work>, weights: seq<WeightEntry>): map<(int, int), Cell> {
    Cells(HeaderWrites(weights) + BodyWrites(students, works, weights))
  }

  lemma LabelsStep(cfg: seq<WeightEntry>, e: WeightEntry)
    ensures TypeLabels(cfg + [e]) == TypeLabels(cfg) + [Text(e.workType)]
  {
  }

  /** One weight-map entry more in the header loop: its label when its weight is positive. */
  lemma HeaderLabelStep(weights: seq<WeightEntry>, k: nat)
    requires k < |weights|
    ensures var cur := Cells(FixedHeader() + RowRun(0, 2, TypeLabels(Configured(weights[..k]))));
      Cells(FixedHeader() + RowRun(0, 2, TypeLabels(Configured(weights[..k + 1]))))
      == if weights[k].weight <= 0 then cur
         else cur[(0, 2 + |Configured(weights[..k])|) := Text(weights[k].workType)]
  {
    ConfiguredStep(weights, k);
    if weights[k].weight > 0 {
      LabelsStep(Configured(weights[..k]), weights[k]);
      RowRunCellsStep(FixedHeader(), 0, 2, TypeLabels(Configured(weights[..k])), Text(weights[k].workType));
    }
  }

  /** One weight-map entry more in a student row: its type average when its weight is positive. */
  lemma RowAverageStep(rowStart: seq<Write>, row: int, works: seq<Work>, weights: seq<WeightEntry>, k: nat, sid: StudentId)
    requires k < |weights|
    ensures var cur := Cells(rowStart + RowRun(row, 2, AverageCells(works, Configured(weights[..k]), sid)));
      Cells(rowStart + RowRun(row, 2, AverageCells(works, Configured(weights[..k + 1]), sid)))
      == if weights[k].weight <= 0 then cur
         else cur[(row, 2 + |Configured(weights[..k])|) := TypeAverage(TypeTotals(works, weights[k].workType, sid))]
  {
    ConfiguredStep(weights, k);
    if weights[k].weight > 0 {
      AveragesStep(works, Configured(weights[..k]), weights[k], sid);
      RowRunCellsStep(rowStart, row, 2, AverageCells(works, Configured(weights[..k]), sid),
                      TypeAverage(TypeTotals(works, weights[k].workType, sid)));
    }
  }

  lemma AveragesStep(works: seq<Work>, cfg: seq<WeightEntry>, e: WeightEntry, sid: StudentId)
    ensures AverageCells(works, cfg + [e], sid)
         == AverageCells(works, cfg, sid) + [TypeAverage(TypeTotals(works, e.workType, sid))]
  {
  }

  lemma WeightedTotalStep(works: seq<Work>, weights: seq<WeightEntry>, k: nat, sid: StudentId)
    requires k < |weights|
    ensures weights[k].weight <= 0 ==> WeightedTotal(works, weights[..k + 1], sid) == WeightedTotal(works, weights[..k], sid)
    ensures weights[k].weight > 0 ==>
      var acc := WeightedTotal(works, weights[..k], sid);
      var t := TypeTotals(works, weights[k].workType, sid);
      WeightedTotal(works, weights[..k + 1], sid)
      == if t.count == 0 || acc.None? then None else Some(acc.value + Share(t, weights[k].weight))
  {
    var prefix := weights[..k + 1];
    assert prefix[..|prefix| - 1] == weights[..k] && prefix[|prefix| - 1] == weights[k];
  }

  lemma BodyWritesStep(students: seq<Student>, i: nat, works: seq<Work>, weights: seq<WeightEntry>)
    requires i < |students|
    ensures MediasCells(students[..i + 1], works, weights)
         == Cells(HeaderWrites(weights) + BodyWrites(students[..i], works, weights) + RowWrites(i + 1, students[i], works, weights))
  {
    assert students[..i + 1][..i] == students[..i];
    assert HeaderWrites(weights) + BodyWrites(students[..i + 1], works, weights)
        == HeaderWrites(weights) + BodyWrites(students[..i], works, weights) + RowWrites(i + 1, students[i], works, weights);
  }

  /** The last cell of a student row is the final average, right after the type averages. */
  lemma RowWritesFinish(before: seq<Write>, row: nat, s: Student, works: seq<Work>, weights: seq<WeightEntry>)
    ensures Cells(before + RowWrites(row, s, works, weights))
         == Cells(before + StudentCells(row, row, s) + RowRun(row, 2, AverageCells(works, Configured(weights), s.id)))
              [(row, 2 + |Configured(weights)|) := FinalAverage(works, weights, s.id)]
  {
    var prefix := before + StudentCells(row, row, s) + RowRun(row, 2, AverageCells(works, Configured(weights), s.id));
    var last := Write(row, 2 + |Configured(weights)|, FinalAverage(works, weights, s.id));
    assert before + RowWrites(row, s, works, weights) == prefix + [last];
    CellsSnoc(prefix, last);
  }

  /** `createMediasSheet`: appends the averages sheet to `wb`. */
  method CreateMediasSheet(wb: Workbook, students: seq<Student>, works: seq<Work>, weights: seq<WeightEntry>)
    modifies wb
    ensures |wb.sheets| == |old(wb.sheets)| + 1 && wb.sheets[..|old(wb.sheets)|] == old(wb.sheets)
    ensures fresh(wb.sheets[|wb.sheets| - 1])
    ensures var sheet := wb.sheets[|wb.sheets| - 1];
      && sheet.name == SheetName
      && sheet.cells == MediasCells(students, works, weights)
      && sheet.merges == [] && sheet.headerRows == [0] && sheet.centeredFrom == Some(1)
  {
    var sheet := wb.CreateSheet(SheetName);
    var workTypeCellCount := WriteMediasHeader(sheet, weights);
    assert HeaderWrites(weights) + BodyWrites(students[..0], works, weights) == HeaderWrites(weights);

    for i := 0 to |students|
      modifies sheet
      invariant sheet.merges == [] && sheet.headerRows == [] && sheet.centeredFrom == None
      invariant sheet.cells == MediasCells(students[..i], works, weights)
    {
      ghost var before := HeaderWrites(weights) + BodyWrites(students[..i], works, weights);
      WriteAveragesRow(sheet, i + 1, students[i], works, weights, workTypeCellCount, before);
      BodyWritesStep(students, i, works, weights);
    }
    assert students[..|students|] == students;

    sheet.SetHeaderRowStyle(0);
    sheet.SetCentralizedStyleFrom(1);
  }

  /** The header of `createMediasSheet`; returns `workTypeCellCount`, the "MÉDIA" column. */
  method WriteMediasHeader(sheet: Sheet, weights: seq<WeightEntry>) returns (workTypeCellCount: int)
    requires sheet.cells == map[]
    modifies sheet
    ensures workTypeCellCount == 2 + |Configured(weights)|
    ensures sheet.cells == Cells(HeaderWrites(weights))
    ensures sheet.merges == old(sheet.merges)
    ensures sheet.headerRows == old(sheet.headerRows) && sheet.centeredFrom == old(sheet.centeredFrom)
  {
    var w0, w1 := Write(0, 0, Text(NumberHeader)), Write(0, 1, Text(StudentHeader));
    CellsSnoc([], w0);
    sheet.CreateCell(0, 0, Text(NumberHeader));
    CellsSnoc([w0], w1);
    sheet.CreateCell(0, 1, Text(StudentHeader));
    assert [] + [w0] == [w0] && [w0] + [w1] == FixedHeader();

    workTypeCellCount := WriteTypeLabels(sheet, weights);
    CellsSnoc(FixedHeader() + RowRun(0, 2, TypeLabels(Configured(weights))), Write(0, workTypeCellCount, Text(AverageHeader)));
    sheet.CreateCell(0, workTypeCellCount, Text(AverageHeader));
  }
  /** The type loop of the averages header: each type of positive weight gets its label in the
      next column from column 2; returns the column after the last label. */
  method WriteTypeLabels(sheet: Sheet, weights: seq<WeightEntry>) returns (workTypeCellCount: int)
    requires sheet.cells == Cells(FixedHeader())
    modifies sheet
    ensures workTypeCellCount == 2 + |Configured(weights)|
    ensures sheet.cells == Cells(FixedHeader() + RowRun(0, 2, TypeLabels(Configured(weights))))
    ensures sheet.merges == old(sheet.merges)
    ensures sheet.headerRows == old(sheet.headerRows) && sheet.centeredFrom == old(sheet.centeredFrom)
  {
    assert weights[..0] == [] && FixedHeader() + [] == FixedHeader();
    workTypeCellCount := 2;
    for k := 0 to |weights|
      invariant sheet.merges == old(sheet.merges)
      invariant sheet.headerRows == old(sheet.headerRows) && sheet.centeredFrom == old(sheet.centeredFrom)
      invariant workTypeCellCount == 2 + |Configured(weights[..k])|
      invariant sheet.cells == Cells(FixedHeader() + RowRun(0, 2, TypeLabels(Configured(weights[..k]))))
    {
      var entry := weights[k];
      ConfiguredStep(weights, k);
      HeaderLabelStep(weights, k);
      if entry.weight <= 0 {
        continue;
      }
      sheet.CreateCell(0, workTypeCellCount, Text(entry.workType));
      workTypeCellCount := workTypeCellCount + 1;
    }
    assert weights[..|weights|] == weights;
  }


  /** One student row of `createMediasSheet`, on a sheet holding the writes `before`. */
  method WriteAveragesRow(sheet: Sheet, row: nat, student: Student, works: seq<Work>, weights: seq<WeightEntry>,
                          workTypeCellCount: int, ghost before: seq<Write>)
    requires sheet.cells == Cells(before) && workTypeCellCount == 2 + |Configured(weights)|
    modifies sheet
    ensures sheet.cells == Cells(before + RowWrites(row, student, works, weights))
    ensures sheet.merges == old(sheet.merges)
    ensures sheet.headerRows == old(sheet.headerRows) && sheet.centeredFrom == old(sheet.centeredFrom)
  {
    ghost var rowStart := before + StudentCells(row, row, student);
    StudentCellsStep(before, row, row, student);
    sheet.CreateCell(row, 0, Text(NatToString(row)));
    sheet.CreateCell(row, 1, Text(student.name));
    assert weights[..0] == [] && rowStart + [] == rowStart;

    var finalGrade, graded := 0.0, true;
    var studentGradeCellCount := 2;
    for k := 0 to |weights|
      invariant sheet.merges == old(sheet.merges)
      invariant sheet.headerRows == old(sheet.headerRows) && sheet.centeredFrom == old(sheet.centeredFrom)
      invariant studentGradeCellCount == 2 + |Configured(weights[..k])|
      invariant WeightedTotal(works, weights[..k], student.id) == if graded then Some(finalGrade) else None
      invariant sheet.cells == Cells(rowStart + RowRun(row, 2, AverageCells(works, Configured(weights[..k]), student.id)))
    {
      studentGradeCellCount, finalGrade, graded :=
        WriteTypeAverage(sheet, row, student.id, works, weights, k, studentGradeCellCount, finalGrade, graded, rowStart);
    }
    assert weights[..|weights|] == weights;
    var finalCell := FinalCell(if graded then Some(finalGrade) else None);
    RowWritesFinish(before, row, student, works, weights);
    sheet.CreateCell(row, workTypeCellCount, finalCell);
  }
  /** One pass of the type loop of a student row: a type of positive weight gets its average in
      the next column and its share of the final grade; any other type is skipped. */
  method WriteTypeAverage(sheet: Sheet, row: nat, sid: StudentId, works: seq<Work>, weights: seq<WeightEntry>, k: nat,
                          count: int, total: real, graded: bool, ghost rowStart: seq<Write>)
    returns (count': int, total': real, graded': bool)
    requires k < |weights| && count == 2 + |Configured(weights[..k])|
    requires WeightedTotal(works, weights[..k], sid) == if graded then Some(total) else None
    requires sheet.cells == Cells(rowStart + RowRun(row, 2, AverageCells(works, Configured(weights[..k]), sid)))
    modifies sheet
    ensures count' == 2 + |Configured(weights[..k + 1])|
    ensures WeightedTotal(works, weights[..k + 1], sid) == if graded' then Some(total') else None
    ensures sheet.cells == Cells(rowStart + RowRun(row, 2, AverageCells(works, Configured(weights[..k + 1]), sid)))
    ensures sheet.merges == old(sheet.merges)
    ensures sheet.headerRows == old(sheet.headerRows) && sheet.centeredFrom == old(sheet.centeredFrom)
  {
    ConfiguredStep(weights, k);
    RowAverageStep(rowStart, row, works, weights, k, sid);
    if weights[k].weight <= 0 {
      WeightedTotalStep(works, weights, k, sid);
      count', total', graded' := count, total, graded;
    } else {
      var average;
      average, total', graded' := AverageType(works, weights, k, sid, total, graded);
      sheet.CreateCell(row, count, average);
      count' := count + 1;
    }
  }


  /**
   * One configured type in a student row: its average cell, and the running
   * weighted total (`finalGrade`) extended by its share, or lost when the
   * student has no grade of that type.
   */
  method AverageType(works: seq<Work>, weights: seq<WeightEntry>, k: nat, sid: StudentId,
                     finalGrade: real, graded: bool) returns (average: Cell, finalGrade': real, graded': bool)
    requires k < |weights| && weights[k].weight > 0
    requires WeightedTotal(works, weights[..k], sid) == if graded then Some(finalGrade) else None
    ensures average == TypeAverage(TypeTotals(works, weights[k].workType, sid))
    ensures WeightedTotal(works, weights[..k + 1], sid) == if graded' then Some(finalGrade') else None
  {
    WeightedTotalStep(works, weights, k, sid);
    var gradesSum, quantity := SumTypeGrades(works, weights[k].workType, sid);
    average := TypeAverage(Totals(gradesSum, quantity));
    finalGrade', graded' := finalGrade, graded;
    if quantity == 0 {
      graded' := false;
    } else {
      finalGrade' := finalGrade + Share(Totals(gradesSum, quantity), weights[k].weight);
    }
  }
}
