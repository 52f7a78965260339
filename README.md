# Notebook report engine

A Dafny model of the report engine of a school-notebook service. At term end,
`NotebookUtils.finalizeNotebook` takes a notebook (a roster of students, dated lessons with their
attendance, and graded works) and a weight per work type. It sorts the three lists in place, then
builds a four-sheet workbook in a fixed order:

* "Frequências": the attendance grid, with a "C" or "F" per lesson period.
* "Médias": the half-rounded average per work type and the weighted final average.
* "Observações": the dated observations of the lessons.
* "Ferramentas De Avaliação": the assessment matrix, one column per work, grouped under merged type
  labels.

`GradeService.findAllGradesByWorkId`, an order-preserving filter of grades by work, is modelled too.

How the model is built:

* **Sheets and workbooks are classes.** A `Sheets.Sheet` holds a cell map
  `map<(int, int), Cell>`, the merged regions in the order they were added, and the rows given the
  header and centred styles. A `Sheets.Workbook` holds its sheets in creation order. The cell,
  merge, style and create-sheet calls are methods that change exactly those fields.
* **Each builder is specified against a write log.** Each sheet builder is a method with loops
  whose invariants tie the sheet to a pure write log: the sequence of `createRowCell` calls the
  source makes, with a later write replacing an earlier one (`Sheets.Cells`, `Sheets.Lookup`).
  Lemmas in the `*Content` modules then state, cell by cell, what each sheet shows.
* **The weight map is a sequence.** `Map<String, Integer>` becomes `seq<WeightEntry>`, so the
  order of iteration that drives column order is explicit.
* **Students are compared by id.** `equals` becomes id equality.
* **A cell is text, a number or empty.** `Decimal(x)` stands for the text `String.valueOf` gives
  for the double `x`. `NoData` is the sentinel of the corrected averages (see Findings).

Where the code and the design description disagree, the model follows the code:

* **Missing attendance periods.** A lesson with fewer attendance entries than periods makes
  `attendances.get(x)` throw. The model returns `Failure("IndexOutOfBoundsException")` from
  `FinalizeNotebook`, with the lists already sorted. It does not treat the missing periods as blank.
* **Lessons with no attendance.** These move the row cursor by 2 when `quantity == 2`, by 1 when
  `quantity == 1`, and otherwise not at all. `FrequenciasContent.AlignedIff` states when the header
  and body columns stay aligned.
* **Whitespace-only observations.** A lesson is skipped only when `isEmpty() && isBlank()`, that
  is, when its observations are empty. Observations of only spaces get a row.
* **One grade per work.** The per-type average counts, for each work of the type, only the first
  grade of the student in that work (`break`), not every grade.

## Model

| member | source | states |
|---|---|---|
| NotebookUtils.FinalizeNotebook | src/main/java/com/api/notebook/utils/NotebookUtils.java:25-44 | students, lessons and works are replaced by their stable sorts by number, date and delivery date (sorted, same multiset). The result succeeds exactly when every lesson with attendance has an entry for each period read; a failure is the index-out-of-bounds error. On success it is a fresh workbook of exactly four sheets, in the order attendance, averages, observations, matrix, each with its name, its cells and merges computed from the sorted lists (no merges on the averages and observations sheets), a styled header row 0 and centring from row 1, except the matrix, which styles rows 0 and 1 and centres from row 2 |
| NotebookUtils.BuildReport | src/main/java/com/api/notebook/utils/NotebookUtils.java:36-39 | the same four-sheet outcome (names, cells, merges, header rows and centring) and failure condition, on lists given already sorted |
| NotebookUtils.SortsSpec | src/main/java/com/api/notebook/utils/NotebookUtils.java:32-34 | each of the three sorts returns a permutation of its input in ascending key order; students with equal numbers keep their relative order |
| NotebookUtils.AddAttendance | src/main/java/com/api/notebook/utils/NotebookUtils.java:36 | the first sheet is created; it is complete exactly when attendance is recorded for every period read, and then it is the attendance sheet: its cells, one merge per double lesson, header row 0 and centring from row 1 |
| NotebookUtils.AddAverages | src/main/java/com/api/notebook/utils/NotebookUtils.java:37 | the second sheet is the averages sheet: its cells, no merges, header row 0 and centring from row 1; the first one is untouched |
| NotebookUtils.AddObservations | src/main/java/com/api/notebook/utils/NotebookUtils.java:38 | the third sheet is the observations sheet: its cells, no merges, header row 0 and centring from row 1; the first two are untouched |
| NotebookUtils.AddMatrix | src/main/java/com/api/notebook/utils/NotebookUtils.java:39 | the fourth sheet is the assessment matrix: its cells, one merge per type title spanning more than one work, header rows 0 and 1 and centring from row 2; the first three are untouched |
| Sorting.SortBySorted | src/main/java/com/api/notebook/utils/NotebookUtils.java:32-34 | the sorted list is in ascending key order |
| Sorting.SortByPermutes | src/main/java/com/api/notebook/utils/NotebookUtils.java:32-34 | the sorted list has the same multiset of elements as the input |
| Sorting.SortByStable | src/main/java/com/api/notebook/utils/NotebookUtils.java:32-34 | for every key, the elements with that key appear in the same order as in the input (`List.sort` is stable) |
| Dates.DateKeyOrder | src/main/java/com/api/notebook/utils/NotebookUtils.java:33-34 | comparing the sort keys of two dates is comparing the dates by year, month, day; equal keys mean equal dates |
| Dates.FormatDateRoundTrip | src/main/java/com/api/notebook/utils/NotebookUtils.java:64 | for years 1 to 9999, "dd/MM/yyyy" is ten characters long and reads back to the same date |
| Dates.FormatDateInjective | src/main/java/com/api/notebook/utils/NotebookUtils.java:64 | two different dates of years 1 to 9999 never render the same text |
| Digits.ParseNatToString | src/main/java/com/api/notebook/utils/NotebookUtils.java:96 | the decimal text of a row position reads back to the same number |
| Sheets.CellsLookup | src/main/java/com/api/notebook/utils/NotebookUtils.java:54-55 | the cell a sheet holds at a position is the value of the last write to that position, and nothing when there was none |
| Layout.StudentCellsLookup | src/main/java/com/api/notebook/utils/NotebookUtils.java:96-97 | a student row starts with the 1-based position in the sorted roster in column 0 and the name in column 1 |
| Frequencias.CreateFrequenciasSheet | src/main/java/com/api/notebook/utils/NotebookUtils.java:46-120 | appends one fresh sheet named "Frequências" and keeps the earlier sheets. It completes exactly when attendance is recorded for every period read, and then the sheet holds the header and student-row cells, one merge per lesson of more than one period, a styled header row 0 and centring from row 1 |
| Frequencias.WriteHeader | src/main/java/com/api/notebook/utils/NotebookUtils.java:53-86 | row 0 holds the header write log and the merges are those of the double lessons, in lesson order |
| Frequencias.WriteStudentRows | src/main/java/com/api/notebook/utils/NotebookUtils.java:89-116 | completes exactly when attendance is recorded for every period read, and then the sheet holds header plus every student row; merges and styles are unchanged |
| Frequencias.WriteStudentRow | src/main/java/com/api/notebook/utils/NotebookUtils.java:93-115 | one row: position, name, then every lesson's cells; fails exactly when some lesson's attendance is short of its periods |
| Frequencias.WriteLessonCells | src/main/java/com/api/notebook/utils/NotebookUtils.java:101-115 | one lesson of a row: the cursor moves by the lesson's body span, and the marks are written, exactly when the lesson's attendance covers its periods |
| Frequencias.WriteLessonMarks | src/main/java/com/api/notebook/utils/NotebookUtils.java:109-114 | the period loop writes one mark per period from the start column, and fails exactly when a period has no attendance entry |
| FrequenciasContent.HeaderLabelCells | src/main/java/com/api/notebook/utils/NotebookUtils.java:53-55 | row 0 shows "Número" in column 0 and "Aluno" in column 1 |
| FrequenciasContent.HeaderCells | src/main/java/com/api/notebook/utils/NotebookUtils.java:68-86 | each lesson's date, as "dd/MM/yyyy", is at the header column the cursor reached before that lesson |
| FrequenciasContent.HeaderGapCell | src/main/java/com/api/notebook/utils/NotebookUtils.java:72-80 | a lesson of more than one period leaves the column after its date empty in row 0 |
| FrequenciasContent.HeaderCursorInjective | src/main/java/com/api/notebook/utils/NotebookUtils.java:68-86 | later lessons start at strictly greater header columns |
| FrequenciasContent.MergeIffDouble | src/main/java/com/api/notebook/utils/NotebookUtils.java:72-80 | a lesson's two header columns (c, c+1) are merged if and only if it has more than one period |
| FrequenciasContent.MergeHasLesson | src/main/java/com/api/notebook/utils/NotebookUtils.java:77-78 | every merged region is the pair of header columns of some lesson of more than one period |
| FrequenciasContent.PositionCells | src/main/java/com/api/notebook/utils/NotebookUtils.java:89-98 | row i+1 shows i+1 (not the student's number) in column 0 and student i's name in column 1 |
| FrequenciasContent.AttendanceCell | src/main/java/com/api/notebook/utils/NotebookUtils.java:100-115 | for student i and period x of lesson j: the cell at the body column of that period is "C" when the student is in that period's present set and "F" otherwise, and empty when the lesson has no attendance |
| FrequenciasContent.AlignedIff | src/main/java/com/api/notebook/utils/NotebookUtils.java:68-86 | the body cursor equals the header cursor after every lesson if and only if every lesson has one or two periods |
| FrequenciasContent.MarkUnderDate | src/main/java/com/api/notebook/utils/NotebookUtils.java:68-115 | with every lesson of one or two periods, a lesson's date in row 0 and each student's first-period mark ("C"/"F", or nothing without attendance) share one column |
| FrequenciasContent.SecondMarkUnderDate | src/main/java/com/api/notebook/utils/NotebookUtils.java:68-115 | with every lesson of one or two periods, the second-period mark of a double lesson is in the column after its date, the one the header merges with it |
| Medias.CreateMediasSheet | src/main/java/com/api/notebook/utils/NotebookUtils.java:122-205 | appends one fresh sheet named "Médias" and keeps the earlier sheets; it has no merges, a styled row 0 and centring from row 1, and the cells of the averages sheet |
| Medias.WriteMediasHeader | src/main/java/com/api/notebook/utils/NotebookUtils.java:130-151 | returns the "MÉDIA" column 2 + (number of types of positive weight), and row 0 holds the header |
| Medias.WriteTypeLabels | src/main/java/com/api/notebook/utils/NotebookUtils.java:141-150 | the labels of the types of positive weight, in weight-map order, from column 2; returns the column after them |
| Medias.WriteAveragesRow | src/main/java/com/api/notebook/utils/NotebookUtils.java:160-200 | a student row: position, name, the type averages from column 2, the final average in the "MÉDIA" column |
| Medias.WriteTypeAverage | src/main/java/com/api/notebook/utils/NotebookUtils.java:172-197 | one weight-map entry: a type of positive weight adds its average at the next column and its weighted mean to the running total (none once a type is ungraded); weight ≤ 0 changes nothing |
| Medias.AverageType | src/main/java/com/api/notebook/utils/NotebookUtils.java:174-196 | the average cell of one type, and the running weighted total extended by that type's share |
| Medias.SumTypeGrades | src/main/java/com/api/notebook/utils/NotebookUtils.java:175-190 | `gradesSum` and `quantity` are the sum and count of the student's first grades in the works of that type |
| Medias.TotalsCountZero | src/main/java/com/api/notebook/utils/NotebookUtils.java:178-190 | the count is zero exactly when no work of the type has a grade of the student |
| Medias.TotalsInRange | src/main/java/com/api/notebook/utils/NotebookUtils.java:178-190 | with grades in 0..10, the sum lies between 0 and 10 times the count |
| Medias.RoundHalfNearest | src/main/java/com/api/notebook/utils/NotebookUtils.java:192 | `Math.round(x * 2) / 2` is a whole number of halves within a quarter of x |
| Medias.RoundHalfOfHalves | src/main/java/com/api/notebook/utils/NotebookUtils.java:192 | rounding leaves a whole number of halves unchanged |
| Medias.RoundHalfMonotone | src/main/java/com/api/notebook/utils/NotebookUtils.java:192 | rounding to halves preserves order |
| Medias.TypeAverageInRange | src/main/java/com/api/notebook/utils/NotebookUtils.java:192 | with the student's grades in 0..10, a shown type average lies in 0..10 |
| Medias.FinalAverageDefined | src/main/java/com/api/notebook/utils/NotebookUtils.java:169-199 | the final average is defined if and only if every type of positive weight has a grade of the student |
| Medias.TypeAverageAgrees | src/main/java/com/api/notebook/utils/NotebookUtils.java:192 | with grades, the shown type average equals the as-written double computation; without, the as-written one is 0.0 where the model shows no data |
| Medias.FinalGradeAgrees | src/main/java/com/api/notebook/utils/NotebookUtils.java:196 | when every configured type is graded, the as-written `finalGrade` is finite and equals the weighted total |
| Medias.FinalAverageAgrees | src/main/java/com/api/notebook/utils/NotebookUtils.java:199-200 | when every configured type is graded, the final average shown equals the as-written one |
| Medias.RoundingAgrees | src/main/java/com/api/notebook/utils/NotebookUtils.java:199 | `Math.round((f / 10) * 2) / 2` on a finite double is the half-rounding of f / 10 |
| Medias.FinalGradeNaN | src/main/java/com/api/notebook/utils/NotebookUtils.java:196-199 | as written, one configured type without a grade makes `finalGrade` NaN and the final average 0.0 |
| Medias.MissingTypeExample | src/main/java/com/api/notebook/utils/NotebookUtils.java:192-200 | a concrete student for whom the sheet as written shows 0.0 where the corrected one shows no data |
| MediasContent.HeaderCells | src/main/java/com/api/notebook/utils/NotebookUtils.java:130-151 | row 0: "Número", "Aluno", each type of positive weight in weight-map order from column 2, "MÉDIA" right after them, nothing further right |
| MediasContent.RowCells | src/main/java/com/api/notebook/utils/NotebookUtils.java:160-200 | row i+1: position, name, each type's average under its label, and the final average under "MÉDIA", nothing further right |
| MediasContent.BelowRoster | src/main/java/com/api/notebook/utils/NotebookUtils.java:158-201 | no row below the last student holds a cell |
| Observacoes.CreateObservacoesSheet | src/main/java/com/api/notebook/utils/NotebookUtils.java:207-239 | appends one fresh sheet named "Observações" and keeps the earlier sheets; it has no merges, a styled row 0 and centring from row 1, and the observation cells |
| Observacoes.WriteObservacoesHeader | src/main/java/com/api/notebook/utils/NotebookUtils.java:214-216 | row 0 holds "Data" and "Observação" |
| Observacoes.WriteLessonRows | src/main/java/com/api/notebook/utils/NotebookUtils.java:224-235 | after the header, one row per listed lesson from row 1 on |
| Observacoes.WriteLessonRow | src/main/java/com/api/notebook/utils/NotebookUtils.java:228-232 | a lesson's row: its date in column 0, its observations in column 1 |
| Observacoes.SkippedIffEmpty | src/main/java/com/api/notebook/utils/NotebookUtils.java:227 | a lesson is skipped if and only if its observations are the empty string |
| Observacoes.KeptMembers | src/main/java/com/api/notebook/utils/NotebookUtils.java:225-235 | the listed lessons are exactly the lessons with observations, and there are no more of them than lessons |
| Observacoes.KeptSorted | src/main/java/com/api/notebook/utils/NotebookUtils.java:225-235 | lessons sorted by date give observation rows sorted by date |
| Observacoes.HeaderCells | src/main/java/com/api/notebook/utils/NotebookUtils.java:214-216 | row 0 shows "Data" and "Observação" and nothing else |
| Observacoes.RowCells | src/main/java/com/api/notebook/utils/NotebookUtils.java:224-235 | row m+1 holds the date and observations of the m-th listed lesson, and rows after the last are empty |
| Observacoes.DateCellReadsBack | src/main/java/com/api/notebook/utils/NotebookUtils.java:230-231 | the date column reads back to the lesson's date for years 1 to 9999 |
| Ferramentas.CreateFerramentasSheet | src/main/java/com/api/notebook/utils/NotebookUtils.java:241-343 | appends one fresh sheet named "Ferramentas De Avaliação" and keeps the earlier sheets; it has the matrix cells and label merges, styled rows 0 and 1, and centring from row 2 |
| Ferramentas.WriteFerramentasHeader | src/main/java/com/api/notebook/utils/NotebookUtils.java:249-299 | rows 0 and 1 hold the two-row header and the merges are the label merges |
| Ferramentas.WriteTypeHeader | src/main/java/com/api/notebook/utils/NotebookUtils.java:264-298 | one configured type: its titles and label are added, and both row cursors move to the same column, 2 + the number of works of the types so far |
| Ferramentas.WriteTypeTitles | src/main/java/com/api/notebook/utils/NotebookUtils.java:268-280 | the titles of the type's works in row 1 from the cursor; `worksCount` ends one below their number |
| Ferramentas.AddLabelMerge | src/main/java/com/api/notebook/utils/NotebookUtils.java:284-288 | a merge over the label's columns is added only when the type has two or more works |
| Ferramentas.WriteGradesRows | src/main/java/com/api/notebook/utils/NotebookUtils.java:302-338 | after the header, every student row from row 2 on |
| Ferramentas.WriteGradesRow | src/main/java/com/api/notebook/utils/NotebookUtils.java:304-337 | one row: position, name, then the grades |
| Ferramentas.WriteRowGrades | src/main/java/com/api/notebook/utils/NotebookUtils.java:318-337 | the grades of every column work, each in that work's column from 2 (corrected, see Findings) |
| Ferramentas.WriteTypeGrades | src/main/java/com/api/notebook/utils/NotebookUtils.java:322-336 | the grades of one type's works, each in its work's column; the cursor moves by the number of works (corrected, see Findings) |
| Ferramentas.FoundGradesLength | src/main/java/com/api/notebook/utils/NotebookUtils.java:318-337 | as written, a row gets at most one grade cell per work, and exactly one per work if and only if the student is graded in every work (the body cursor never passes the header cursor and meets it exactly then) |
| Ferramentas.PackedAgrees | src/main/java/com/api/notebook/utils/NotebookUtils.java:318-337 | when the student is graded in every work, the as-written packed row is the aligned row |
| Ferramentas.ShiftedGradeExample | src/main/java/com/api/notebook/utils/NotebookUtils.java:326-331 | a concrete row where the as-written grade lands under the wrong title |
| Ferramentas.PackedRowCells | src/main/java/com/api/notebook/utils/NotebookUtils.java:312-337 | as written, a student row holds the position in column 0, the name in column 1, then the grades the student has, packed from column 2 in work order with no gaps, and nothing after them |
| Ferramentas.GradeRunAppend | src/main/java/com/api/notebook/utils/NotebookUtils.java:318-337 | the grades of consecutive work lists land in consecutive column ranges |
| FerramentasContent.TitleRowCells | src/main/java/com/api/notebook/utils/NotebookUtils.java:255-280 | row 1: "Número", "Aluno", the title of every work of a type of positive weight, type by type in weight-map order, nothing further right |
| FerramentasContent.LabelCells | src/main/java/com/api/notebook/utils/NotebookUtils.java:283 | each configured type with works shows its label in row 0 above its first work |
| FerramentasContent.LabelRowOnlyLabels | src/main/java/com/api/notebook/utils/NotebookUtils.java:283 | every cell of row 0 is the label of some configured type at that type's label column, so a type without works shows at most where the next type's label goes |
| FerramentasContent.MergesExactly | src/main/java/com/api/notebook/utils/NotebookUtils.java:284-288 | a region is merged if and only if it spans, in row 0, the columns of a configured type with two or more works |
| FerramentasContent.MergesDisjoint | src/main/java/com/api/notebook/utils/NotebookUtils.java:284-297 | the merges lie in row 0 inside the header, span two or more columns, and follow left to right without overlapping |
| FerramentasContent.RowCells | src/main/java/com/api/notebook/utils/NotebookUtils.java:308-337 | row i+2: position, name, then under each work's column the student's first grade in that work, or nothing; nothing further right |
| FerramentasContent.BelowRoster | src/main/java/com/api/notebook/utils/NotebookUtils.java:302-338 | no row outside the header and the student rows holds a cell |
| FerramentasContent.GradeUnderTitle | src/main/java/com/api/notebook/utils/NotebookUtils.java:274-331 | the column that shows a work's title shows every student's grade in that same work |
| Entities.FindFirstGrade | src/main/java/com/api/notebook/utils/NotebookUtils.java:326-334 | the search stops at the student's first grade in the work, and finds one if and only if there is one |
| Entities.FirstGradeSpec | src/main/java/com/api/notebook/utils/NotebookUtils.java:181-188 | no grade is found exactly when no grade of the work belongs to the student; a found grade is the first of the student's |
| Entities.ConfiguredMembers | src/main/java/com/api/notebook/utils/NotebookUtils.java:142-144 | the configured types are exactly the weight entries of positive weight |
| Entities.TypeWorksMembers | src/main/java/com/api/notebook/utils/NotebookUtils.java:178-180 | a type's works are exactly the works of that type, in order |
| GradeService.FindAllGradesByWorkId | src/main/java/com/api/notebook/services/GradeService.java:27-36 | the result is the order-preserving filter of the input by work id |
| GradeService.WorkGradesMembers | src/main/java/com/api/notebook/services/GradeService.java:29-34 | every result grade belongs to the work and comes from the input; every input grade of the work is in the result; no longer than the input |
| GradeService.WorkGradesCount | src/main/java/com/api/notebook/services/GradeService.java:27-36 | each grade of the work occurs as often in the result as in the input, and others not at all |
| GradeService.WorkGradesAppend | src/main/java/com/api/notebook/services/GradeService.java:29-34 | filtering a concatenation is concatenating the filtered parts, so the input order is kept |
| GradeService.WorkGradesIdempotent | src/main/java/com/api/notebook/services/GradeService.java:27-36 | filtering the result again changes nothing |

## Left out

- Serialisation is not modelled. `workbook.write`, the `ByteArrayOutputStream` and `IOException` are left out. `FinalizeNotebook` returns the workbook object, not its bytes.
- Column widths and cell styles are not modelled. The styles are recorded only as which rows are header rows and the row from which the body is centred.
- `ExcelUtils.createRowCell` with three arguments, `setSheetHeaderRowStyles` and `setGlobalCellCentralizedStyle` are not part of this model. Their effect is modelled as one cell write, one styled header row and a centring start row.
- Double rendering is not modelled. `Decimal(x)` stands for `String.valueOf(x)`.
- Double arithmetic is modelled on reals, without rounding error. Only the NaN of `0.0 / 0` is modelled explicitly, in the as-written averages.
- Java `HashMap` iteration order is not modelled. The weight map is an ordered sequence, and column order follows it.
- The sort algorithm is not modelled. `List.sort` is modelled by a stable insertion sort, and a stable sort by a key has only one possible result.
- Null fields are left out: a null notebook, list, observation text, grade or work type. The model has no nulls.
- Observacoes.Skipped: `isBlank` is modelled on `Character.isWhitespace` for characters below U+0080 only. It does not change the outcome, since an empty string is blank.
- A work's type is compared through the string it renders as. `type.toString()` is not modelled separately.
- Dates.FormatDateRoundTrip: stated only for years 1 to 9999. Other years render with a sign or more digits, as `DateTimeFormatter` does.
- Medias.TypeAverage: shows no data where the source shows 0.0, as the corrected half of the first finding. The as-written value is `Medias.TypeAverageAsWritten`.
- Medias.FinalAverage: shows no data where the source shows 0.0, as the corrected half of the first finding. The as-written value is `Medias.FinalAverageAsWritten`.
- Ferramentas.WriteTypeGrades: leaves a cell empty where the source shifts later grades left, as the corrected half of the second finding. The as-written row is `Ferramentas.PackedRowWrites`, whose cells `Ferramentas.PackedRowCells` gives.

## Findings

| source | as written | input that shows it | evidently intended | confidence | as-written member | corrected member |
|---|---|---|---|---|---|---|
| src/main/java/com/api/notebook/utils/NotebookUtils.java:192-199 | with no grade of the student in a type, `gradesSum / quantity` is `0.0 / 0` = NaN. `Math.round(NaN)` is 0, so the type shows "0.0". `finalGrade` becomes NaN, so the final average also shows "0.0" | one work "P1" of type PROVA where student 7 has 9.0, weights PROVA 60 and TRABALHO 40: TRABALHO and MÉDIA show 0.0 | an ungraded type, and a final average that misses a type, are shown as missing, not as a zero grade | medium, not executed | Medias.FinalGradeNaN, Medias.MissingTypeExample | Medias.FinalAverageDefined, MediasContent.RowCells |
| src/main/java/com/api/notebook/utils/NotebookUtils.java:318-337 | the body cursor moves only when a grade is found, so after a work without the student's grade every later grade sits one column left, under another work's title | works "Prova 1" (no grades) and "Prova 2" (student 7 has 8.0), both PROVA: 8.0 is written in column 2, under "Prova 1" | each grade in the column of its own work, and an empty cell where there is no grade | medium, not executed | Ferramentas.ShiftedGradeExample, Ferramentas.FoundGradesLength, Ferramentas.PackedRowCells | FerramentasContent.GradeUnderTitle, Ferramentas.WriteTypeGrades |
