/** The notebook aggregate handed to the report engine, and the lookups every sheet shares. */
module Entities {
  import opened Wrappers
  import opened Dates

  /** Students are compared by identity; the model identifies them by id. */
  type StudentId = int
  type WorkId = int

  datatype Student = Student(id: StudentId, name: string, number: int)

  /** A class session: `attendances[x]` holds the students present in period `x`. */
  datatype Lesson = Lesson(date: Date, quantity: int, attendances: seq<set<StudentId>>, observations: string)

  datatype Grade = Grade(value: real, student: StudentId, work: WorkId)

  /** `workType` is the rendered name of the work's type (`work.getType().toString()`). */
  datatype Work = Work(id: WorkId, title: string, workType: string, deliveryDate: Date, grades: seq<Grade>)

  /** One entry of the work-type weight map, in the map's iteration order. */
  datatype WeightEntry = WeightEntry(workType: string, weight: int)

  function StudentNumber(s: Student): int {
    s.number
  }

  function LessonDate(l: Lesson): int {
    DateKey(l.date)
  }

  function WorkDeliveryDate(w: Work): int {
    DateKey(w.deliveryDate)
  }

  /** The value of the first grade in `grades` that belongs to `sid`: the loop over grades that breaks at the first match. */
  function FirstGrade(grades: seq<Grade>, sid: StudentId): Option<real> {
    if grades == [] then None
    else if grades[0].student == sid then Some(grades[0].value)
    else FirstGrade(grades[1..], sid)
  }

  /** `FirstGrade` finds a grade exactly when the student has one, and then it is the earliest. */
  lemma {:induction false} FirstGradeSpec(grades: seq<Grade>, sid: StudentId)
    ensures FirstGrade(grades, sid).None? <==> forall i :: 0 <= i < |grades| ==> grades[i].student != sid
    ensures FirstGrade(grades, sid).Some? ==>
      exists i :: 0 <= i < |grades| && grades[i].student == sid && grades[i].value == FirstGrade(grades, sid).value
                  && forall j :: 0 <= j < i ==> grades[j].student != sid
  {
    if grades != [] && grades[0].student != sid {
      var tail := grades[1..];
      FirstGradeSpec(tail, sid);
      assert forall i :: 1 <= i < |grades| ==> grades[i] == tail[i - 1];
      if FirstGrade(tail, sid).Some? {
        var i :| 0 <= i < |tail| && tail[i].student == sid && tail[i].value == FirstGrade(tail, sid).value
                 && forall j :: 0 <= j < i ==> tail[j].student != sid;
        assert grades[i + 1] == tail[i];
      }
    }
  }

  /** The scan `for (grade : work.getGrades()) if (grade.getStudent().equals(student)) { ...; break; }`. */
  method FindFirstGrade(grades: seq<Grade>, sid: StudentId) returns (found: bool, value: real)
    ensures found <==> FirstGrade(grades, sid).Some?
    ensures found ==> value == FirstGrade(grades, sid).value
  {
    found, value := false, 0.0;
    var i := 0;
    while i < |grades|
      invariant 0 <= i <= |grades|
      invariant FirstGrade(grades, sid) == FirstGrade(grades[i..], sid)
    {
      if grades[i].student == sid {
        found, value := true, grades[i].value;
        break;
      }
      assert grades[i..][1..] == grades[i + 1..];
      i := i + 1;
    }
  }

  /** The weight-map entries whose weight is positive, in iteration order: the types every sheet lays out. */
  function Configured(weights: seq<WeightEntry>): seq<WeightEntry> {
    if weights == [] then []
    else
      var last := weights[|weights| - 1];
      Configured(weights[..|weights| - 1]) + (if last.weight > 0 then [last] else [])
  }

  /** One weight-map entry more: kept when its weight is positive. */
  lemma ConfiguredStep(weights: seq<WeightEntry>, k: nat)
    requires k < |weights|
    ensures weights[k].weight > 0 ==> Configured(weights[..k + 1]) == Configured(weights[..k]) + [weights[k]]
    ensures weights[k].weight <= 0 ==> Configured(weights[..k + 1]) == Configured(weights[..k])
  {
    assert weights[..k + 1][..k] == weights[..k];
    assert Configured(weights[..k]) + [] == Configured(weights[..k]);
  }

  /** `Configured` keeps exactly the entries of positive weight, and no more entries than there are. */
  lemma {:induction false} ConfiguredMembers(weights: seq<WeightEntry>)
    ensures |Configured(weights)| <= |weights|
    ensures forall e <- Configured(weights) :: e in weights && e.weight > 0
    ensures forall e <- weights :: e.weight > 0 ==> e in Configured(weights)
    decreases |weights|
  {
    if weights != [] {
      var init := weights[..|weights| - 1];
      ConfiguredMembers(init);
      assert forall e <- weights :: e in init || e == weights[|weights| - 1];
      assert forall e <- init :: e in weights;
    }
  }

  /** The works whose type renders as `workType`, in their order in `works`. */
  function TypeWorks(works: seq<Work>, workType: string): seq<Work> {
    if works == [] then []
    else
      var last := works[|works| - 1];
      TypeWorks(works[..|works| - 1], workType) + (if last.workType == workType then [last] else [])
  }

  /** `TypeWorks` keeps exactly the works of that type. */
  lemma {:induction false} TypeWorksMembers(works: seq<Work>, workType: string)
    ensures |TypeWorks(works, workType)| <= |works|
    ensures forall w <- TypeWorks(works, workType) :: w in works && w.workType == workType
    ensures forall w <- works :: w.workType == workType ==> w in TypeWorks(works, workType)
    decreases |works|
  {
    if works != [] {
      var init := works[..|works| - 1];
      TypeWorksMembers(init, workType);
      assert forall w <- works :: w in init || w == works[|works| - 1];
      assert forall w <- init :: w in works;
    }
  }

  /** One work more: kept when it has the type. */
  lemma TypeWorksStep(works: seq<Work>, workType: string, j: nat)
    requires j < |works|
    ensures works[j].workType == workType ==> TypeWorks(works[..j + 1], workType) == TypeWorks(works[..j], workType) + [works[j]]
    ensures works[j].workType != workType ==> TypeWorks(works[..j + 1], workType) == TypeWorks(works[..j], workType)
  {
    assert works[..j + 1][..j] == works[..j];
    assert TypeWorks(works[..j], workType) + [] == TypeWorks(works[..j], workType);
  }
}
