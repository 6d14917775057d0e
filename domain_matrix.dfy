/** The domain-matrix renderer (visualizers/DomainMatrix.java): every cell
    row by row, addressed "row column" from 1, then an annotation on each cell
    that is the decision's variable. */
module DomainMatrixViz {

  import opened Base
  import opened Decimal
  import opened Values
  import opened Writing
  import opened Layout

  const TypeName: string := "domain_matrix"

  datatype DomainMatrixData = DomainMatrixData(vars: seq<seq<Ref>>)

  /** The address of cell (i, j): both counted from 1, one space between. */
  function Address(i: nat, j: nat): string {
    NatToString(i + 1) + " " + NatToString(j + 1)
  }

  /** Different cells have different addresses. */
  lemma AddressInjective(i: nat, j: nat, i2: nat, j2: nat)
    requires Address(i, j) == Address(i2, j2)
    ensures i == i2 && j == j2
  {
    SplitAtSpace(NatToString(i + 1), NatToString(j + 1), NatToString(i2 + 1), NatToString(j2 + 1));
    NatToStringInjective(i + 1, i2 + 1);
    NatToStringInjective(j + 1, j2 + 1);
  }

  /** var on each cell of row i, left to right, when all are IntVars. */
  function RowRecords(store: Store, i: nat, row: seq<Ref>): (r: seq<VizRecord>)
    requires AllIntVars(store, row)
    ensures |r| == |row|
  {
    if row == [] then []
    else
      var n := |row| - 1;
      assert AllIntVars(store, row[..n]);
      RowRecords(store, i, row[..n]) + [IvarRecord(store(row[n]).iv, Address(i, n), 3)]
  }

  /** One more IntVar cell: its record follows those of the cells before it. */
  lemma RowRecordsSnoc(store: Store, i: nat, row: seq<Ref>, j: nat)
    requires j < |row| && AllIntVars(store, row[..j]) && IsIntVar(store, row[j])
    ensures AllIntVars(store, row[..j + 1])
    ensures RowRecords(store, i, row[..j + 1]) == RowRecords(store, i, row[..j]) + [IvarRecord(store(row[j]).iv, Address(i, j), 3)]
  {
    assert row[..j + 1][..j] == row[..j] && row[..j + 1][j] == row[j];
  }

  lemma {:induction false} RowRecordsAt(store: Store, i: nat, row: seq<Ref>, j: nat)
    requires AllIntVars(store, row) && j < |row|
    ensures RowRecords(store, i, row)[j] == IvarRecord(store(row[j]).iv, Address(i, j), 3)
  {
    var n := |row| - 1;
    if j < n {
      assert AllIntVars(store, row[..n]);
      RowRecordsAt(store, i, row[..n], j);
    }
  }

  lemma RowRecordsPlain(store: Store, i: nat, row: seq<Ref>)
    requires AllIntVars(store, row)
    ensures Plain(RowRecords(store, i, row))
  {
    forall j | 0 <= j < |row| {
      RowRecordsAt(store, i, row, j);
    }
  }

  /** The records of row i: var on each cell, left to right, until a cell
      that is not an IntVar raises. */
  function RowOutput(store: Store, i: nat, row: seq<Ref>): (e: Emitted)
    ensures e.outcome.Pass? <==> AllIntVars(store, row)
    ensures e.outcome.Fail? ==> e.outcome.error == UnsupportedOperation
    ensures |e.records| <= |row| && (e.outcome.Pass? ==> |e.records| == |row|)
  {
    var k := FirstNonInt(store, row);
    assert forall j :: 0 <= j < k ==> row[..k][j] == row[j];
    var recs := seq(k, j requires 0 <= j < k => IvarRecord(store(row[j]).iv, Address(i, j), 3));
    if k == |row| then
      assert row[..k] == row;
      Emitted(recs, Pass)
    else Emitted(recs, Outcome.Fail(UnsupportedOperation))
  }

  /** The records of a row are those of its cells up to the first one that
      is not an IntVar. */
  lemma RowOutputRecords(store: Store, i: nat, row: seq<Ref>)
    ensures FirstNonInt(store, row) <= |row|
    ensures RowOutput(store, i, row).records == RowRecords(store, i, row[..FirstNonInt(store, row)])
  {
    var k := FirstNonInt(store, row);
    var recs := RowRecords(store, i, row[..k]);
    forall j | 0 <= j < k
      ensures RowOutput(store, i, row).records[j] == recs[j]
    {
      RowRecordsAt(store, i, row[..k], j);
    }
  }

  /** Cell j of row i is written as its ivar record, addressed (i, j). */
  lemma RowOutputAt(store: Store, i: nat, row: seq<Ref>, j: nat)
    requires j < |RowOutput(store, i, row).records|
    ensures IsIntVar(store, row[j])
    ensures RowOutput(store, i, row).records[j] == IvarRecord(store(row[j]).iv, Address(i, j), 3)
  {
    var k := FirstNonInt(store, row);
    assert row[..k][j] == row[j];
  }

  /** The first pass of print: the rows in order, stopping at the first raise. */
  function Cells(store: Store, rows: seq<seq<Ref>>): Emitted {
    if rows == [] then Emitted([], Pass)
    else
      var n := |rows| - 1;
      Then(Cells(store, rows[..n]), RowOutput(store, n, rows[n]))
  }

  /** The annotations of row i, left to right. */
  function RowMarks(i: nat, row: seq<Ref>, group: Option<string>, focus: bool, d: Decision): seq<VizRecord> {
    if row == [] then []
    else
      var n := |row| - 1;
      RowMarks(i, row[..n], group, focus, d) +
        (if d.variable == row[n] then [MarkRecord(Address(i, n), group, None, focus, d)] else [])
  }

  /** The second pass of print: the annotations of every row, row by row. */
  function MatrixMarks(rows: seq<seq<Ref>>, group: Option<string>, focus: bool, d: Decision): seq<VizRecord> {
    if rows == [] then []
    else
      var n := |rows| - 1;
      MatrixMarks(rows[..n], group, focus, d) + RowMarks(n, rows[n], group, focus, d)
  }

  /** What print writes: all cells, then, for a decision, the annotations. */
  function Output(data: DomainMatrixData, group: Option<string>, focus: bool, d: Option<Decision>, store: Store): (e: Emitted)
    ensures e.outcome == Cells(store, data.vars).outcome
  {
    Then(Cells(store, data.vars),
         Emitted(if d.Some? then MatrixMarks(data.vars, group, focus, d.value) else [], Pass))
  }

  method Print(w: Writer, data: DomainMatrixData, group: Option<string>, focus: bool, d: Option<Decision>, store: Store)
    returns (o: Outcome)
    modifies w.out`written
    ensures w.out.written == old(w.out.written) + Output(data, group, focus, d, store).records
    ensures o == Output(data, group, focus, d, store).outcome
  {
    ghost var c := Cells(store, data.vars);
    o := PrintCells(w, data.vars, store);
    if o.Fail? {
      assert Output(data, group, focus, d, store) == c;
    } else if d != None {
      PrintMarks(w, data.vars, group, focus, d.value);
      assert Output(data, group, focus, d, store).records == c.records + MatrixMarks(data.vars, group, focus, d.value);
    } else {
      assert Output(data, group, focus, d, store).records == c.records + [];
    }
  }

  /** The cell loops of print. */
  method PrintCells(w: Writer, rows: seq<seq<Ref>>, store: Store) returns (o: Outcome)
    modifies w.out`written
    ensures w.out.written == old(w.out.written) + Cells(store, rows).records
    ensures o == Cells(store, rows).outcome
  {
    var i := 0;
    o := Pass;
    assert rows[..0] == [];
    while i < |rows|
      invariant 0 <= i <= |rows|
      invariant o == Cells(store, rows[..i]).outcome == Pass
      invariant w.out.written == old(w.out.written) + Cells(store, rows[..i]).records
    {
      CellsSnoc(store, rows, i);
      o := PrintRow(w, store, i, rows[i]);
      Append2(old(w.out.written), Cells(store, rows[..i]).records, RowOutput(store, i, rows[i]).records);
      if o.Fail? {
        CellsStop(store, rows, i + 1);
        return;
      }
      i := i + 1;
    }
    assert rows[..i] == rows;
  }

  /** The inner cell loop of print, over row i. */
  method PrintRow(w: Writer, store: Store, i: nat, row: seq<Ref>) returns (o: Outcome)
    modifies w.out`written
    ensures w.out.written == old(w.out.written) + RowOutput(store, i, row).records
    ensures o == RowOutput(store, i, row).outcome
  {
    var j := 0;
    while j < |row|
      invariant 0 <= j <= |row| && AllIntVars(store, row[..j])
      invariant w.out.written == old(w.out.written) + RowRecords(store, i, row[..j])
    {
      o := w.Var(store, row[j], Address(i, j), 3);
      if o.Fail? {
        FirstNonIntAt(store, row, j);
        RowOutputRecords(store, i, row);
        return;
      }
      RowRecordsSnoc(store, i, row, j);
      Append2(old(w.out.written), RowRecords(store, i, row[..j]), [IvarRecord(store(row[j]).iv, Address(i, j), 3)]);
      j := j + 1;
    }
    assert row[..j] == row;
    FirstNonIntAt(store, row, j);
    RowOutputRecords(store, i, row);
    o := Pass;
  }

  /** The annotation loops of print. */
  method PrintMarks(w: Writer, rows: seq<seq<Ref>>, group: Option<string>, focus: bool, d: Decision)
    modifies w.out`written
    ensures w.out.written == old(w.out.written) + MatrixMarks(rows, group, focus, d)
  {
    var i := 0;
    assert rows[..0] == [];
    while i < |rows|
      invariant 0 <= i <= |rows|
      invariant w.out.written == old(w.out.written) + MatrixMarks(rows[..i], group, focus, d)
    {
      assert rows[..i + 1][..i] == rows[..i] && rows[..i + 1][i] == rows[i];
      PrintRowMarks(w, i, rows[i], group, focus, d);
      i := i + 1;
    }
    assert rows[..i] == rows;
  }

  /** The inner annotation loop of print, over row i. */
  method PrintRowMarks(w: Writer, i: nat, row: seq<Ref>, group: Option<string>, focus: bool, d: Decision)
    modifies w.out`written
    ensures w.out.written == old(w.out.written) + RowMarks(i, row, group, focus, d)
  {
    var j := 0;
    assert row[..0] == [];
    while j < |row|
      invariant 0 <= j <= |row|
      invariant w.out.written == old(w.out.written) + RowMarks(i, row[..j], group, focus, d)
    {
      assert row[..j + 1][..j] == row[..j] && row[..j + 1][j] == row[j];
      if d.variable == row[j] {
        w.Mark(Address(i, j), group, None, focus, d);
      }
      j := j + 1;
    }
    assert row[..j] == row;
  }

  /** One more row: its output follows the earlier rows' unless they raised. */
  lemma CellsSnoc(store: Store, rows: seq<seq<Ref>>, i: nat)
    requires i < |rows|
    ensures Cells(store, rows[..i + 1]) == Then(Cells(store, rows[..i]), RowOutput(store, i, rows[i]))
  {
    assert rows[..i + 1][..i] == rows[..i] && rows[..i + 1][i] == rows[i];
  }

  lemma {:induction false} CellsStop(store: Store, rows: seq<seq<Ref>>, j: nat)
    requires 0 < j <= |rows| && Cells(store, rows[..j]).outcome.Fail?
    ensures Cells(store, rows) == Cells(store, rows[..j])
    decreases |rows| - j
  {
    if j < |rows| {
      assert rows[..j + 1][..j] == rows[..j];
      CellsStop(store, rows, j + 1);
    } else {
      assert rows[..j] == rows;
    }
  }

  /** The cells pass exactly when every cell is an IntVar. */
  lemma {:induction false} CellsPass(store: Store, rows: seq<seq<Ref>>)
    ensures Cells(store, rows).outcome.Pass? <==> forall i :: 0 <= i < |rows| ==> AllIntVars(store, rows[i])
  {
    if rows != [] {
      var n := |rows| - 1;
      CellsPass(store, rows[..n]);
      assert forall i :: 0 <= i < n ==> rows[..n][i] == rows[i];
    }
  }

  /** Number of cells in the rows before row i. */
  function Offset(rows: seq<seq<Ref>>, i: nat): nat
    requires i <= |rows|
  {
    if i == 0 then 0 else Offset(rows, i - 1) + |rows[i - 1]|
  }

  /** The only exception the cell loop raises is var's, on a variable that
      is not an IntVar. */
  lemma {:induction false} CellsError(store: Store, rows: seq<seq<Ref>>)
    ensures Cells(store, rows).outcome.Fail? ==> Cells(store, rows).outcome.error == UnsupportedOperation
  {
    if rows != [] {
      CellsError(store, rows[..|rows| - 1]);
    }
  }

  /** Row-major order: when no cell raises, row i's records sit right after
      the records of all earlier rows. */
  lemma {:induction false} CellsRowMajor(store: Store, rows: seq<seq<Ref>>, i: nat)
    requires Cells(store, rows).outcome.Pass? && i < |rows|
    ensures Offset(rows, i) + |rows[i]| <= |Cells(store, rows).records|
    ensures Cells(store, rows).records[Offset(rows, i)..Offset(rows, i) + |rows[i]|] == RowOutput(store, i, rows[i]).records
  {
    var n := |rows| - 1;
    var init := Cells(store, rows[..n]);
    var last := RowOutput(store, n, rows[n]).records;
    CellsSnoc(store, rows, n);
    assert rows[..n + 1] == rows;
    assert init.outcome.Pass?;
    CellsLength(store, rows[..n]);
    OffsetPrefix(rows, n);
    if i < n {
      assert rows[..n][i] == rows[i];
      OffsetPrefixAt(rows, n, i);
      CellsRowMajor(store, rows[..n], i);
      SliceOfAppend(init.records, last, Offset(rows, i), Offset(rows, i) + |rows[i]|);
    } else {
      SliceAfterPrefix(init.records, last);
    }
  }

  lemma SliceOfAppend<T>(a: seq<T>, b: seq<T>, x: nat, y: nat)
    requires x <= y <= |a|
    ensures (a + b)[x..y] == a[x..y]
  {
  }

  lemma SliceAfterPrefix<T>(a: seq<T>, b: seq<T>)
    ensures (a + b)[|a|..|a| + |b|] == b
  {
  }

  lemma {:induction false} OffsetPrefix(rows: seq<seq<Ref>>, i: nat)
    requires i <= |rows|
    ensures Offset(rows[..i], i) == Offset(rows, i)
  {
    if i > 0 {
      assert rows[..i][..i - 1] == rows[..i - 1];
      OffsetPrefixAt(rows, i, i - 1);
    }
  }

  lemma {:induction false} OffsetPrefixAt(rows: seq<seq<Ref>>, i: nat, k: nat)
    requires k <= i <= |rows|
    ensures Offset(rows[..i], k) == Offset(rows, k)
  {
    if k > 0 {
      OffsetPrefixAt(rows, i, k - 1);
    }
  }

  lemma {:induction false} CellsLength(store: Store, rows: seq<seq<Ref>>)
    requires Cells(store, rows).outcome.Pass?
    ensures |Cells(store, rows).records| == Offset(rows, |rows|)
  {
    if rows != [] {
      var n := |rows| - 1;
      CellsLength(store, rows[..n]);
      OffsetPrefix(rows, n);
    }
  }

  /** Cell (i, j) carries annotation r. */
  predicate AnnotatedAt(rows: seq<seq<Ref>>, group: Option<string>, focus: bool, d: Decision, i: int, j: int, r: VizRecord) {
    0 <= i < |rows| && 0 <= j < |rows[i]| && rows[i][j] == d.variable &&
    r == MarkRecord(Address(i, j), group, None, focus, d)
  }

  /** Every annotation of row i belongs to a cell of the row holding the
      decision's variable. */
  lemma {:induction false} RowMarksSound(i: nat, row: seq<Ref>, group: Option<string>, focus: bool, d: Decision, r: VizRecord)
    requires r in RowMarks(i, row, group, focus, d)
    ensures exists j :: 0 <= j < |row| && row[j] == d.variable && r == MarkRecord(Address(i, j), group, None, focus, d)
  {
    var n := |row| - 1;
    if r in RowMarks(i, row[..n], group, focus, d) {
      RowMarksSound(i, row[..n], group, focus, d, r);
      var j :| 0 <= j < n && row[..n][j] == d.variable && r == MarkRecord(Address(i, j), group, None, focus, d);
      assert row[j] == d.variable;
    } else {
      assert row[n] == d.variable && r == MarkRecord(Address(i, n), group, None, focus, d);
    }
  }

  /** Every cell of row i holding the decision's variable is annotated. */
  lemma {:induction false} RowMarksComplete(i: nat, row: seq<Ref>, group: Option<string>, focus: bool, d: Decision, j: nat)
    requires j < |row| && row[j] == d.variable
    ensures MarkRecord(Address(i, j), group, None, focus, d) in RowMarks(i, row, group, focus, d)
  {
    var n := |row| - 1;
    if j < n {
      assert row[..n][j] == row[j];
      RowMarksComplete(i, row[..n], group, focus, d, j);
    }
  }

  /** Every annotation of the second pass belongs to a cell holding the
      decision's variable. */
  lemma {:induction false} MatrixMarksSound(rows: seq<seq<Ref>>, group: Option<string>, focus: bool, d: Decision, r: VizRecord)
    requires r in MatrixMarks(rows, group, focus, d)
    ensures exists i, j :: AnnotatedAt(rows, group, focus, d, i, j, r)
  {
    var n := |rows| - 1;
    if r in MatrixMarks(rows[..n], group, focus, d) {
      MatrixMarksSound(rows[..n], group, focus, d, r);
      var i, j :| AnnotatedAt(rows[..n], group, focus, d, i, j, r);
      assert rows[..n][i] == rows[i];
      assert AnnotatedAt(rows, group, focus, d, i, j, r);
    } else {
      RowMarksSound(n, rows[n], group, focus, d, r);
      var j :| 0 <= j < |rows[n]| && rows[n][j] == d.variable && r == MarkRecord(Address(n, j), group, None, focus, d);
      assert AnnotatedAt(rows, group, focus, d, n, j, r);
    }
  }

  /** Every cell holding the decision's variable is annotated with its own
      address. */
  lemma {:induction false} MatrixMarksComplete(rows: seq<seq<Ref>>, group: Option<string>, focus: bool, d: Decision, i: nat, j: nat)
    requires i < |rows| && j < |rows[i]| && rows[i][j] == d.variable
    ensures MarkRecord(Address(i, j), group, None, focus, d) in MatrixMarks(rows, group, focus, d)
  {
    var n := |rows| - 1;
    if i < n {
      assert rows[..n][i] == rows[i];
      MatrixMarksComplete(rows[..n], group, focus, d, i, j);
    } else {
      RowMarksComplete(n, rows[n], group, focus, d, j);
    }
  }

  /** The second pass annotates exactly the cells holding the decision's
      variable, each with its own address. */
  lemma MatrixMarksExact(rows: seq<seq<Ref>>, group: Option<string>, focus: bool, d: Decision, r: VizRecord)
    ensures r in MatrixMarks(rows, group, focus, d) <==>
      exists i, j :: AnnotatedAt(rows, group, focus, d, i, j, r)
  {
    if r in MatrixMarks(rows, group, focus, d) {
      MatrixMarksSound(rows, group, focus, d, r);
    }
    if exists i, j :: AnnotatedAt(rows, group, focus, d, i, j, r) {
      var i, j :| AnnotatedAt(rows, group, focus, d, i, j, r);
      MatrixMarksComplete(rows, group, focus, d, i, j);
    }
  }

  lemma {:induction false} RowMarksAreMarks(i: nat, row: seq<Ref>, group: Option<string>, focus: bool, d: Decision)
    ensures Marks(RowMarks(i, row, group, focus, d)) == RowMarks(i, row, group, focus, d)
  {
    if row != [] {
      var n := |row| - 1;
      RowMarksAreMarks(i, row[..n], group, focus, d);
      var tail := if d.variable == row[n] then [MarkRecord(Address(i, n), group, None, focus, d)] else [];
      MarksAppend(RowMarks(i, row[..n], group, focus, d), tail);
      assert Marks(tail) == Marks([]) + tail;
    }
  }

  lemma {:induction false} MatrixMarksAreMarks(rows: seq<seq<Ref>>, group: Option<string>, focus: bool, d: Decision)
    ensures Marks(MatrixMarks(rows, group, focus, d)) == MatrixMarks(rows, group, focus, d)
  {
    if rows != [] {
      var n := |rows| - 1;
      MatrixMarksAreMarks(rows[..n], group, focus, d);
      RowMarksAreMarks(n, rows[n], group, focus, d);
      MarksAppend(MatrixMarks(rows[..n], group, focus, d), RowMarks(n, rows[n], group, focus, d));
    }
  }

  lemma {:induction false} CellsCarryNoMarks(store: Store, rows: seq<seq<Ref>>)
    ensures Marks(Cells(store, rows).records) == []
  {
    if rows != [] {
      var n := |rows| - 1;
      CellsCarryNoMarks(store, rows[..n]);
      var row := RowOutput(store, n, rows[n]).records;
      var k := FirstNonInt(store, rows[n]);
      RowOutputRecords(store, n, rows[n]);
      RowRecordsPlain(store, n, rows[n][..k]);
      PlainFilters(row);
      MarksAppend(Cells(store, rows[..n]).records, row);
    }
  }

  /** The annotations of print are the second pass and nothing else: none
      without a decision, none when a cell raised. */
  lemma OutputMarks(data: DomainMatrixData, group: Option<string>, focus: bool, d: Option<Decision>, store: Store)
    ensures Marks(Output(data, group, focus, d, store).records) ==
      if d.Some? && Cells(store, data.vars).outcome.Pass? then MatrixMarks(data.vars, group, focus, d.value) else []
  {
    CellsCarryNoMarks(store, data.vars);
    if d.Some? {
      MatrixMarksAreMarks(data.vars, group, focus, d.value);
    }
    var m := if d.Some? then MatrixMarks(data.vars, group, focus, d.value) else [];
    MarksAppend(Cells(store, data.vars).records, m);
  }
}
