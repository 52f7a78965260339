/**
 * What the assessment matrix shows, cell by cell: row 1 holds the roster labels and one title per
 * work, type by type; row 0 holds each type's label over the first column of its works, merged
 * over them when there are two or more; each student row holds every grade under its own
 * work's title.
 */
module FerramentasContent {
  import opened Wrappers
  import opened Digits
  import opened Sheets
  import opened Entities
  import opened Layout
  import opened Ferramentas

  /** The column of the label of the `k`-th configured type: right after the works of the
      types before it. */
  function LabelColumn(works: seq<Work>, cfg: seq<WeightEntry>, k: nat): int
    requires k <= |cfg|
  {
    2 + |ColumnWorks(works, cfg[..k])|
  }

  // ---------------------------------------------------------------- columns

  lemma {:induction false} ColumnWorksPrefix(works: seq<Work>, cfg: seq<WeightEntry>, j: nat)
    requires j <= |cfg|
    ensures |ColumnWorks(works, cfg[..j])| <= |ColumnWorks(works, cfg)|
    decreases |cfg|
  {
    if j < |cfg| {
      var init := cfg[..|cfg| - 1];
      assert cfg[..j] == init[..j];
      ColumnWorksPrefix(works, init, j);
    } else {
      assert cfg[..j] == cfg;
    }
  }

  /** Each type's label column is the previous one moved on by the previous type's works; a type
      without works therefore shares its label column with the next type. */
  lemma LabelColumnStep(works: seq<Work>, cfg: seq<WeightEntry>, k: nat)
    requires k + 1 <= |cfg|
    ensures LabelColumn(works, cfg, k + 1) == LabelColumn(works, cfg, k) + |TypeWorks(works, cfg[k].workType)|
  {
    assert cfg[..k + 1][..k] == cfg[..k];
  }

  /** The label of type `k` starts no later than the last column of the header. */
  lemma LabelColumnBound(works: seq<Work>, cfg: seq<WeightEntry>, k: nat)
    requires k < |cfg|
    ensures LabelColumn(works, cfg, k) + |TypeWorks(works, cfg[k].workType)| <= 2 + |ColumnWorks(works, cfg)|
  {
    LabelColumnStep(works, cfg, k);
    ColumnWorksPrefix(works, cfg, k + 1);
  }

  // ---------------------------------------------------------------- the header log

  lemma FixedHeaderLookup(r: int, col: int)
    ensures Lookup(FixedHeader(), r, col)
         == if r == 1 && col == 0 then Some(Text(NumberHeader))
            else if r == 1 && col == 1 then Some(Text(StudentHeader))
            else None
  {
    var ws := FixedHeader();
    assert ws[..1] == [ws[0]] && [ws[0]][..0] == [];
    assert Lookup([ws[0]], r, col) == if r == 1 && col == 0 then Some(Text(NumberHeader)) else None;
  }

  /** Row 1 of the type part: the title of every column work, from column 2. */
  lemma {:induction false} TitleRowLookup(works: seq<Work>, cfg: seq<WeightEntry>, col: int)
    ensures var cw := ColumnWorks(works, cfg);
      Lookup(TypeHeader(works, cfg), 1, col)
      == if 2 <= col < 2 + |cw| then Some(Text(cw[col - 2].title)) else None
  {
    if cfg != [] {
      var init, e := cfg[..|cfg| - 1], cfg[|cfg| - 1];
      var tw := TypeWorks(works, e.workType);
      var c := 2 + |ColumnWorks(works, init)|;
      var titles := RowRun(1, c, TitleCells(tw));
      var tag := Write(0, c, Text(e.workType));
      LookupAppend(TypeHeader(works, init) + titles, [tag], 1, col);
      assert [tag][..0] == [];
      LookupAppend(TypeHeader(works, init), titles, 1, col);
      RowRunLookup(1, c, TitleCells(tw), 1, col);
      TitleRowLookup(works, init, col);
    }
  }

  /** The type part writes only rows 0 and 1. */
  lemma {:induction false} TypeHeaderRows(works: seq<Work>, cfg: seq<WeightEntry>, r: int, col: int)
    requires r != 0 && r != 1
    ensures Lookup(TypeHeader(works, cfg), r, col) == None
  {
    if cfg != [] {
      var init, e := cfg[..|cfg| - 1], cfg[|cfg| - 1];
      var c := 2 + |ColumnWorks(works, init)|;
      var titles := RowRun(1, c, TitleCells(TypeWorks(works, e.workType)));
      var tag := Write(0, c, Text(e.workType));
      LookupAppend(TypeHeader(works, init) + titles, [tag], r, col);
      assert [tag][..0] == [];
      LookupAppend(TypeHeader(works, init), titles, r, col);
      RowRunLookup(1, c, TitleCells(TypeWorks(works, e.workType)), r, col);
      TypeHeaderRows(works, init, r, col);
    }
  }

  /** The prefix of all configured types but the last agrees with `cfg` on the earlier types. */
  lemma LabelColumnPrefix(works: seq<Work>, cfg: seq<WeightEntry>, k: nat)
    requires k < |cfg| - 1
    ensures var init := cfg[..|cfg| - 1];
      init[k] == cfg[k] && LabelColumn(works, init, k) == LabelColumn(works, cfg, k)
  {
    assert cfg[..|cfg| - 1][..k] == cfg[..k];
  }

  /** Row 0 of the type part after one more type: its label at its column, the earlier labels
      elsewhere. */
  lemma LabelRowStep(works: seq<Work>, cfg: seq<WeightEntry>, col: int)
    requires cfg != []
    ensures var init := cfg[..|cfg| - 1];
      Lookup(TypeHeader(works, cfg), 0, col)
      == if col == LabelColumn(works, cfg, |cfg| - 1) then Some(Text(cfg[|cfg| - 1].workType))
         else Lookup(TypeHeader(works, init), 0, col)
  {
    var init, e := cfg[..|cfg| - 1], cfg[|cfg| - 1];
    var c := 2 + |ColumnWorks(works, init)|;
    var titles := RowRun(1, c, TitleCells(TypeWorks(works, e.workType)));
    var tag := Write(0, c, Text(e.workType));
    LookupAppend(TypeHeader(works, init) + titles, [tag], 0, col);
    assert [tag][..0] == [];
    LookupAppend(TypeHeader(works, init), titles, 0, col);
    RowRunLookup(1, c, TitleCells(TypeWorks(works, e.workType)), 0, col);
  }

  /** A type with works has its label left of the last type's label. */
  lemma LabelBeforeLast(works: seq<Work>, cfg: seq<WeightEntry>, k: nat)
    requires k < |cfg| - 1 && |TypeWorks(works, cfg[k].workType)| > 0
    ensures LabelColumn(works, cfg, k) < LabelColumn(works, cfg, |cfg| - 1)
  {
    LabelColumnPrefix(works, cfg, k);
    LabelColumnBound(works, cfg[..|cfg| - 1], k);
  }

  /** A later type with works leaves an earlier label in place. */
  lemma LabelKept(works: seq<Work>, cfg: seq<WeightEntry>, k: nat)
    requires k < |cfg| - 1 && |TypeWorks(works, cfg[k].workType)| > 0
    requires var init := cfg[..|cfg| - 1];
      Lookup(TypeHeader(works, init), 0, LabelColumn(works, init, k)) == Some(Text(init[k].workType))
    ensures Lookup(TypeHeader(works, cfg), 0, LabelColumn(works, cfg, k)) == Some(Text(cfg[k].workType))
  {
    LabelColumnPrefix(works, cfg, k);
    LabelBeforeLast(works, cfg, k);
    LabelRowStep(works, cfg, LabelColumn(works, cfg, k));
  }

  /** A type with at least one work shows its label at its label column; a later type never
      writes there. */
  lemma {:induction false} LabelLookup(works: seq<Work>, cfg: seq<WeightEntry>, k: nat)
    requires k < |cfg| && |TypeWorks(works, cfg[k].workType)| > 0
    ensures Lookup(TypeHeader(works, cfg), 0, LabelColumn(works, cfg, k)) == Some(Text(cfg[k].workType))
  {
    var n := |cfg|;
    if k == n - 1 {
      LabelRowStep(works, cfg, LabelColumn(works, cfg, k));
    } else {
      assert cfg[..n - 1][k] == cfg[k];
      LabelLookup(works, cfg[..n - 1], k);
      LabelKept(works, cfg, k);
    }
  }

  /** Every cell of row 0 is the label of some configured type, at that type's label column. */
  lemma {:induction false} OnlyLabels(works: seq<Work>, cfg: seq<WeightEntry>, col: int)
    ensures Lookup(TypeHeader(works, cfg), 0, col).Some? ==>
      exists k :: 0 <= k < |cfg| && col == LabelColumn(works, cfg, k)
        && Lookup(TypeHeader(works, cfg), 0, col) == Some(Text(cfg[k].workType))
  {
    if cfg != [] {
      var n := |cfg|;
      var init := cfg[..n - 1];
      LabelRowStep(works, cfg, col);
      if col != LabelColumn(works, cfg, n - 1) && Lookup(TypeHeader(works, init), 0, col).Some? {
        OnlyLabels(works, init, col);
        var k :| 0 <= k < |init| && col == LabelColumn(works, init, k)
          && Lookup(TypeHeader(works, init), 0, col) == Some(Text(init[k].workType));
        LabelColumnPrefix(works, cfg, k);
      }
    }
  }

  // ---------------------------------------------------------------- merges

  /** `r` is the merge of the label of type `k` over its works, which are two or more. */
  predicate IsLabelMerge(works: seq<Work>, cfg: seq<WeightEntry>, k: nat, r: Region)
    requires k < |cfg|
  {
    var n := |TypeWorks(works, cfg[k].workType)|;
    n > 1 && r == Region(0, 0, LabelColumn(works, cfg, k), LabelColumn(works, cfg, k) + n - 1)
  }

  lemma TypeMergesStep(works: seq<Work>, cfg: seq<WeightEntry>)
    requires cfg != []
    ensures var init := cfg[..|cfg| - 1];
      TypeMerges(works, cfg)
      == TypeMerges(works, init) + LabelMerge(2 + |ColumnWorks(works, init)|, |TypeWorks(works, cfg[|cfg| - 1].workType)|)
  {
  }

  lemma {:induction false} MergesSound(works: seq<Work>, cfg: seq<WeightEntry>, r: Region)
    requires r in TypeMerges(works, cfg)
    ensures exists k :: 0 <= k < |cfg| && IsLabelMerge(works, cfg, k, r)
  {
    var n := |cfg|;
    var init, e := cfg[..n - 1], cfg[n - 1];
    var c := 2 + |ColumnWorks(works, init)|;
    assert TypeMerges(works, cfg) == TypeMerges(works, init) + LabelMerge(c, |TypeWorks(works, e.workType)|);
    if r in TypeMerges(works, init) {
      MergesSound(works, init, r);
      var k :| 0 <= k < |init| && IsLabelMerge(works, init, k, r);
      LabelColumnPrefix(works, cfg, k);
      assert IsLabelMerge(works, cfg, k, r);
    } else {
      assert cfg[..n - 1] == init;
      assert IsLabelMerge(works, cfg, n - 1, r);
    }
  }

  lemma LastLabelMerge(works: seq<Work>, cfg: seq<WeightEntry>, r: Region)
    requires cfg != [] && IsLabelMerge(works, cfg, |cfg| - 1, r)
    ensures r in TypeMerges(works, cfg)
  {
    var init, e := cfg[..|cfg| - 1], cfg[|cfg| - 1];
    TypeMergesStep(works, cfg);
    assert LabelMerge(2 + |ColumnWorks(works, init)|, |TypeWorks(works, e.workType)|) == [r];
  }

  lemma {:induction false} MergesComplete(works: seq<Work>, cfg: seq<WeightEntry>, k: nat, r: Region)
    requires k < |cfg| && IsLabelMerge(works, cfg, k, r)
    ensures r in TypeMerges(works, cfg)
  {
    var init := cfg[..|cfg| - 1];
    if k == |cfg| - 1 {
      LastLabelMerge(works, cfg, r);
    } else {
      LabelColumnPrefix(works, cfg, k);
      assert IsLabelMerge(works, init, k, r);
      MergesComplete(works, init, k, r);
      TypeMergesStep(works, cfg);
    }
  }

  /** A label is merged exactly over its type's works when the type has two or more; no other
      region is merged. */
  lemma MergesExactly(works: seq<Work>, cfg: seq<WeightEntry>, r: Region)
    ensures r in TypeMerges(works, cfg) <==> exists k :: 0 <= k < |cfg| && IsLabelMerge(works, cfg, k, r)
  {
    if r in TypeMerges(works, cfg) {
      MergesSound(works, cfg, r);
    }
    if exists k :: 0 <= k < |cfg| && IsLabelMerge(works, cfg, k, r) {
      var k :| 0 <= k < |cfg| && IsLabelMerge(works, cfg, k, r);
      MergesComplete(works, cfg, k, r);
    }
  }

  /** The merged regions lie in row 0, each spans two or more columns inside the header, and
      they follow one another from left to right without overlapping. */
  predicate RegionsInOrder(ms: seq<Region>, end: int) {
    && (forall i :: 0 <= i < |ms| ==> ms[i].firstRow == ms[i].lastRow == 0 && 2 <= ms[i].firstCol < ms[i].lastCol < end)
    && (forall i, j :: 0 <= i < j < |ms| ==> ms[i].lastCol < ms[j].firstCol)
  }

  lemma {:induction false} MergesDisjoint(works: seq<Work>, cfg: seq<WeightEntry>)
    ensures RegionsInOrder(TypeMerges(works, cfg), 2 + |ColumnWorks(works, cfg)|)
  {
    if cfg != [] {
      var n := |cfg|;
      var init, e := cfg[..n - 1], cfg[n - 1];
      var c := 2 + |ColumnWorks(works, init)|;
      var m := |TypeWorks(works, e.workType)|;
      var prev := TypeMerges(works, init);
      assert TypeMerges(works, cfg) == prev + LabelMerge(c, m);
      assert |ColumnWorks(works, cfg)| == |ColumnWorks(works, init)| + m;
      MergesDisjoint(works, init);
      var ms := TypeMerges(works, cfg);
      assert |LabelMerge(c, m)| <= 1;
      forall i | 0 <= i < |ms|
        ensures ms[i].firstRow == ms[i].lastRow == 0
        ensures 2 <= ms[i].firstCol < ms[i].lastCol < 2 + |ColumnWorks(works, cfg)|
      {
        if i < |prev| {
          assert ms[i] == prev[i];
          assert prev[i].lastCol < c;
        } else {
          assert m > 1 && LabelMerge(c, m) == [Region(0, 0, c, c + m - 1)];
          assert ms[i] == Region(0, 0, c, c + m - 1);
        }
      }
      forall i, j | 0 <= i < j < |ms|
        ensures ms[i].lastCol < ms[j].firstCol
      {
        assert ms[i] == prev[i];
        if j < |prev| {
          assert ms[j] == prev[j];
        } else {
          assert ms[j] == Region(0, 0, c, c + m - 1);
        }
      }
    }
  }

  // ---------------------------------------------------------------- the body log

  /** A grade run puts the student's grade in each work's column, and nothing where there is
      none. */
  lemma {:induction false} GradeRunLookup(row: int, start: int, ws: seq<Work>, sid: StudentId, r: int, col: int)
    ensures Lookup(GradeRun(row, start, ws, sid), r, col)
         == if r == row && start <= col < start + |ws| then GradeCell(ws[col - start], sid) else None
  {
    if ws != [] {
      var init, w := ws[..|ws| - 1], ws[|ws| - 1];
      var x := start + |init|;
      var last := GradeWrite(row, x, w, sid);
      assert GradeRun(row, start, ws, sid) == GradeRun(row, start, init, sid) + last;
      LookupAppend(GradeRun(row, start, init, sid), last, r, col);
      assert Lookup(last, r, col) == if r == row && col == x then GradeCell(w, sid) else None by {
        if GradeCell(w, sid).Some? {
          assert [Write(row, x, GradeCell(w, sid).value)][..0] == [];
        }
      }
      GradeRunLookup(row, start, init, sid, r, col);
      if r == row && start <= col < x {
        assert ws[col - start] == init[col - start];
      }
    }
  }

  lemma RowLookup(i: nat, s: Student, works: seq<Work>, weights: seq<WeightEntry>, r: int, col: int)
    ensures var cw := ColumnWorks(works, Configured(weights));
      Lookup(RowWrites(i, s, works, weights), r, col)
      == if r != i + 2 then None
         else if col == 0 then Some(Text(NatToString(i + 1)))
         else if col == 1 then Some(Text(s.name))
         else if 2 <= col < 2 + |cw| then GradeCell(cw[col - 2], s.id)
         else None
  {
    var cw := ColumnWorks(works, Configured(weights));
    LookupAppend(StudentCells(i + 2, i + 1, s), GradeRun(i + 2, 2, cw, s.id), r, col);
    GradeRunLookup(i + 2, 2, cw, s.id, r, col);
    StudentCellsLookup(i + 2, i + 1, s);
    if r != i + 2 || col < 0 || col > 1 {
      LookupAvoided(StudentCells(i + 2, i + 1, s), r, col);
    }
  }

  /** Row `r` of the body holds what the writes of student `r - 2` put there, and only rows
      2 to `|students| + 1` are written. */
  lemma {:induction false} BodyLookup(students: seq<Student>, works: seq<Work>, weights: seq<WeightEntry>, r: int, col: int)
    ensures Lookup(BodyWrites(students, works, weights), r, col)
         == if 2 <= r < 2 + |students| then Lookup(RowWrites(r - 2, students[r - 2], works, weights), r, col) else None
  {
    if students != [] {
      var n := |students|;
      var init := students[..n - 1];
      var block := RowWrites(n - 1, students[n - 1], works, weights);
      LookupAppend(BodyWrites(init, works, weights), block, r, col);
      RowLookup(n - 1, students[n - 1], works, weights, r, col);
      BodyLookup(init, works, weights, r, col);
      if 2 <= r < 1 + n {
        assert init[r - 2] == students[r - 2];
      }
    }
  }

  // ---------------------------------------------------------------- the sheet

  lemma HeaderRowsOnly(works: seq<Work>, weights: seq<WeightEntry>, r: int, col: int)
    requires r != 0 && r != 1
    ensures Lookup(HeaderWrites(works, weights), r, col) == None
  {
    LookupAppend(FixedHeader(), TypeHeader(works, Configured(weights)), r, col);
    FixedHeaderLookup(r, col);
    TypeHeaderRows(works, Configured(weights), r, col);
  }

  lemma SheetHeaderLookup(students: seq<Student>, works: seq<Work>, weights: seq<WeightEntry>, r: int, col: int)
    requires r == 0 || r == 1
    ensures CellAt(FerramentasCells(students, works, weights), r, col)
         == Lookup(FixedHeader() + TypeHeader(works, Configured(weights)), r, col)
  {
    var body := BodyWrites(students, works, weights);
    CellsLookup(HeaderWrites(works, weights) + body, r, col);
    LookupAppend(HeaderWrites(works, weights), body, r, col);
    BodyLookup(students, works, weights, r, col);
  }

  /** Row 1: "Número", "Aluno", then the title of every work that has a column, type by type in
      weight-map order, and nothing further right. */
  lemma TitleRowCells(students: seq<Student>, works: seq<Work>, weights: seq<WeightEntry>, col: int)
    ensures var cw := ColumnWorks(works, Configured(weights));
      CellAt(FerramentasCells(students, works, weights), 1, col)
      == if col == 0 then Some(Text(NumberHeader))
         else if col == 1 then Some(Text(StudentHeader))
         else if 2 <= col < 2 + |cw| then Some(Text(cw[col - 2].title))
         else None
  {
    SheetHeaderLookup(students, works, weights, 1, col);
    LookupAppend(FixedHeader(), TypeHeader(works, Configured(weights)), 1, col);
    FixedHeaderLookup(1, col);
    TitleRowLookup(works, Configured(weights), col);
  }

  /** Row 0 shows the label of every configured type with works at the column of its first work. */
  lemma LabelCells(students: seq<Student>, works: seq<Work>, weights: seq<WeightEntry>, k: nat)
    requires var cfg := Configured(weights); k < |cfg| && |TypeWorks(works, cfg[k].workType)| > 0
    ensures var cfg := Configured(weights);
      CellAt(FerramentasCells(students, works, weights), 0, LabelColumn(works, cfg, k)) == Some(Text(cfg[k].workType))
  {
    var cfg := Configured(weights);
    var col := LabelColumn(works, cfg, k);
    SheetHeaderLookup(students, works, weights, 0, col);
    LookupAppend(FixedHeader(), TypeHeader(works, cfg), 0, col);
    LabelLookup(works, cfg, k);
  }

  /** Row 0 holds nothing but type labels, each at its type's label column. */
  lemma LabelRowOnlyLabels(students: seq<Student>, works: seq<Work>, weights: seq<WeightEntry>, col: int)
    ensures var cfg := Configured(weights);
      var c := CellAt(FerramentasCells(students, works, weights), 0, col);
      c.Some? ==> exists k :: 0 <= k < |cfg| && col == LabelColumn(works, cfg, k) && c == Some(Text(cfg[k].workType))
  {
    var cfg := Configured(weights);
    SheetHeaderLookup(students, works, weights, 0, col);
    LookupAppend(FixedHeader(), TypeHeader(works, cfg), 0, col);
    FixedHeaderLookup(0, col);
    OnlyLabels(works, cfg, col);
  }

  /** Row `i + 2`: the student's position and name, then under each work's column the student's
      first grade in that work, or nothing when there is none; nothing further right. */
  lemma RowCells(students: seq<Student>, works: seq<Work>, weights: seq<WeightEntry>, i: nat, col: int)
    requires i < |students|
    ensures var cw := ColumnWorks(works, Configured(weights));
      CellAt(FerramentasCells(students, works, weights), i + 2, col)
      == if col == 0 then Some(Text(NatToString(i + 1)))
         else if col == 1 then Some(Text(students[i].name))
         else if 2 <= col < 2 + |cw| then GradeCell(cw[col - 2], students[i].id)
         else None
  {
    var header := HeaderWrites(works, weights);
    var body := BodyWrites(students, works, weights);
    CellsLookup(header + body, i + 2, col);
    LookupAppend(header, body, i + 2, col);
    HeaderRowsOnly(works, weights, i + 2, col);
    BodyLookup(students, works, weights, i + 2, col);
    RowLookup(i, students[i], works, weights, i + 2, col);
  }

  /** Nothing is written below the last student. */
  lemma BelowRoster(students: seq<Student>, works: seq<Work>, weights: seq<WeightEntry>, r: int, col: int)
    requires r < 0 || r >= 2 + |students|
    ensures CellAt(FerramentasCells(students, works, weights), r, col) == None
  {
    var header := HeaderWrites(works, weights);
    var body := BodyWrites(students, works, weights);
    CellsLookup(header + body, r, col);
    LookupAppend(header, body, r, col);
    HeaderRowsOnly(works, weights, r, col);
    BodyLookup(students, works, weights, r, col);
  }

  /** Every grade stands under the title of its own work: the column that shows a work's title
      in row 1 shows each student's grade in that same work. */
  lemma GradeUnderTitle(students: seq<Student>, works: seq<Work>, weights: seq<WeightEntry>, i: nat, m: nat)
    requires i < |students| && m < |ColumnWorks(works, Configured(weights))|
    ensures var w := ColumnWorks(works, Configured(weights))[m];
      var cells := FerramentasCells(students, works, weights);
      && CellAt(cells, 1, 2 + m) == Some(Text(w.title))
      && CellAt(cells, i + 2, 2 + m) == GradeCell(w, students[i].id)
  {
    TitleRowCells(students, works, weights, 2 + m);
    RowCells(students, works, weights, i, 2 + m);
  }
}
