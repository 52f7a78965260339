/** `GradeService.findAllGradesByWorkId`: the grades of one work, picked out of a list of grades. */
module GradeService {
  import opened Entities

  /** The grades of `grades` that belong to work `workId`, in their order. */
  function WorkGrades(grades: seq<Grade>, workId: WorkId): seq<Grade> {
    if grades == [] then []
    else
      var last := grades[|grades| - 1];
      WorkGrades(grades[..|grades| - 1], workId) + (if last.work == workId then [last] else [])
  }

  lemma WorkGradesStep(grades: seq<Grade>, workId: WorkId, j: nat)
    requires j < |grades|
    ensures WorkGrades(grades[..j + 1], workId)
         == WorkGrades(grades[..j], workId) + (if grades[j].work == workId then [grades[j]] else [])
  {
    assert grades[..j + 1][..j] == grades[..j];
  }

  /** Picking grades out of a concatenation picks them out of each part, in order: the result is
      a subsequence of the input. */
  lemma {:induction false} WorkGradesAppend(a: seq<Grade>, b: seq<Grade>, workId: WorkId)
    ensures WorkGrades(a + b, workId) == WorkGrades(a, workId) + WorkGrades(b, workId)
    decreases |b|
  {
    if b == [] {
      assert a + b == a;
    } else {
      var init, last := b[..|b| - 1], b[|b| - 1];
      assert (a + b)[..|a + b| - 1] == a + init;
      WorkGradesAppend(a, init, workId);
    }
  }

  /** Each grade of the work is kept as often as it occurs, and no other grade is kept. */
  lemma {:induction false} WorkGradesCount(grades: seq<Grade>, workId: WorkId, g: Grade)
    ensures multiset(WorkGrades(grades, workId))[g] == if g.work == workId then multiset(grades)[g] else 0
  {
    if grades != [] {
      var init, last := grades[..|grades| - 1], grades[|grades| - 1];
      WorkGradesCount(init, workId, g);
      assert grades == init + [last];
    }
  }

  /** Every grade returned is of the work and of the input; every grade of the work in the input
      is returned; there are no more grades than in the input. */
  lemma WorkGradesMembers(grades: seq<Grade>, workId: WorkId)
    ensures |WorkGrades(grades, workId)| <= |grades|
    ensures forall g <- WorkGrades(grades, workId) :: g.work == workId && g in grades
    ensures forall g <- grades :: g.work == workId ==> g in WorkGrades(grades, workId)
  {
    forall g | g in WorkGrades(grades, workId)
      ensures g.work == workId && g in grades
    {
      WorkGradesCount(grades, workId, g);
    }
    forall g | g in grades && g.work == workId
      ensures g in WorkGrades(grades, workId)
    {
      WorkGradesCount(grades, workId, g);
    }
    WorkGradesLength(grades, workId);
  }

  lemma {:induction false} WorkGradesLength(grades: seq<Grade>, workId: WorkId)
    ensures |WorkGrades(grades, workId)| <= |grades|
  {
    if grades != [] {
      WorkGradesLength(grades[..|grades| - 1], workId);
    }
  }

  /** Filtering the result again changes nothing. */
  lemma {:induction false} WorkGradesIdempotent(grades: seq<Grade>, workId: WorkId)
    ensures WorkGrades(WorkGrades(grades, workId), workId) == WorkGrades(grades, workId)
  {
    if grades != [] {
      var init, last := grades[..|grades| - 1], grades[|grades| - 1];
      WorkGradesIdempotent(init, workId);
      var tail := if last.work == workId then [last] else [];
      WorkGradesAppend(WorkGrades(init, workId), tail, workId);
      if last.work == workId {
        assert [last][..0] == [];
      }
    }
  }

  /** `findAllGradesByWorkId`: a new list holding, in order, the grades whose work is `workId`. */
  method FindAllGradesByWorkId(grades: seq<Grade>, workId: WorkId) returns (workGrades: seq<Grade>)
    ensures workGrades == WorkGrades(grades, workId)
  {
    workGrades := [];
    assert grades[..0] == [];
    for j := 0 to |grades|
      invariant workGrades == WorkGrades(grades[..j], workId)
    {
      WorkGradesStep(grades, workId, j);
      if grades[j].work == workId {
        workGrades := workGrades + [grades[j]];
      }
    }
    assert grades[..|grades|] == grades;
  }
}
