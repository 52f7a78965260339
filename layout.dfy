/** Layout pieces the four report sheets share. */
module Layout {
  import opened Wrappers
  import opened Digits
  import opened Entities
  import opened Sheets

  const NumberHeader := "Número"
  const StudentHeader := "Aluno"

  /** The two leading cells of a student row: the student's 1-based position in the sorted
      roster (not the roll number) and the student's name. */
  function StudentCells(row: int, position: nat, s: Student): (ws: seq<Write>)
    ensures |ws| == 2 && forall w <- ws :: w.row == row && 0 <= w.col <= 1
  {
    [Write(row, 0, Text(NatToString(position))), Write(row, 1, Text(s.name))]
  }

  lemma StudentCellsLookup(row: int, position: nat, s: Student)
    ensures Lookup(StudentCells(row, position, s), row, 0) == Some(Text(NatToString(position)))
    ensures Lookup(StudentCells(row, position, s), row, 1) == Some(Text(s.name))
  {
    var ws := StudentCells(row, position, s);
    assert ws[..1] == [ws[0]];
    assert ws[..1][..0] == [];
  }

  /** The two leading cells of a row, as two successive cell writes. */
  lemma StudentCellsStep(before: seq<Write>, row: int, position: nat, student: Student)
    ensures Cells(before + StudentCells(row, position, student))
         == Cells(before)[(row, 0) := Text(NatToString(position))][(row, 1) := Text(student.name)]
  {
    var w0, w1 := Write(row, 0, Text(NatToString(position))), Write(row, 1, Text(student.name));
    CellsSnoc(before, w0);
    CellsSnoc(before + [w0], w1);
    assert before + [w0] + [w1] == before + StudentCells(row, position, student);
  }
}
