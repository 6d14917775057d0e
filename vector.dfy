/** The vector renderer (visualizers/Vector.java): every variable of the
    vector in order, then an annotation on each position the decision matches. */
module VectorViz {

  import opened Base
  import opened Decimal
  import opened Values
  import opened Writing

  const TypeName: string := "vector"

  datatype VectorData = VectorData(variables: seq<Ref>)

  /** Whether position i is annotated: the Decision object itself is compared
      by identity with the variable, not the variable it branches on. */
  predicate Matches(d: Option<Decision>, r: Ref) {
    d.Some? && d.value.self == r
  }

  /** The annotations for the first |vars| positions, in position order. */
  function Annotations(vars: seq<Ref>, group: Option<string>, focus: bool, d: Option<Decision>): (m: seq<VizRecord>)
    ensures |m| <= |vars|
  {
    if vars == [] then []
    else
      var n := |vars| - 1;
      Annotations(vars[..n], group, focus, d) +
        (if Matches(d, vars[n]) then [MarkRecord(NatToString(n + 1), group, Some(TypeName), focus, d.value)] else [])
  }

  /** What print writes: the variables (which may raise on a non-IntVar),
      then the annotations. */
  function Output(data: VectorData, group: Option<string>, focus: bool, d: Option<Decision>, store: Store): (e: Emitted)
    ensures e.outcome == VarRecords(store, data.variables, 3).outcome
  {
    Then(VarRecords(store, data.variables, 3), Emitted(Annotations(data.variables, group, focus, d), Pass))
  }

  method Print(w: Writer, data: VectorData, group: Option<string>, focus: bool, d: Option<Decision>, store: Store)
    returns (o: Outcome)
    modifies w.out`written
    ensures w.out.written == old(w.out.written) + Output(data, group, focus, d, store).records
    ensures o == Output(data, group, focus, d, store).outcome
  {
    ghost var e := VarRecords(store, data.variables, 3);
    o := w.ArrayDvarVars(store, data.variables, 3);
    if o.Pass? {
      PrintAnnotations(w, data.variables, group, focus, d);
    }
  }

  /** The annotation loop of print: every position is tested, no break. */
  method PrintAnnotations(w: Writer, vars: seq<Ref>, group: Option<string>, focus: bool, d: Option<Decision>)
    modifies w.out`written
    ensures w.out.written == old(w.out.written) + Annotations(vars, group, focus, d)
  {
    var i := 0;
    assert vars[..0] == [];
    while i < |vars|
      invariant 0 <= i <= |vars|
      invariant w.out.written == old(w.out.written) + Annotations(vars[..i], group, focus, d)
    {
      assert vars[..i + 1][..i] == vars[..i] && vars[..i + 1][i] == vars[i];
      assert Annotations(vars[..i + 1], group, focus, d) == Annotations(vars[..i], group, focus, d) +
        (if Matches(d, vars[i]) then [MarkRecord(NatToString(i + 1), group, Some(TypeName), focus, d.value)] else []);
      if Matches(d, vars[i]) {
        w.Mark(NatToString(i + 1), group, Some(TypeName), focus, d.value);
      }
      i := i + 1;
    }
    assert vars[..i] == vars;
  }

  /** Position i of vars carries annotation r. */
  predicate AnnotatedAt(vars: seq<Ref>, group: Option<string>, focus: bool, d: Option<Decision>, i: int, r: VizRecord) {
    0 <= i < |vars| && Matches(d, vars[i]) &&
    r == MarkRecord(NatToString(i + 1), group, Some(TypeName), focus, d.value)
  }

  /** Every annotation belongs to a matching position. */
  lemma {:induction false} AnnotationsSound(vars: seq<Ref>, group: Option<string>, focus: bool, d: Option<Decision>, r: VizRecord)
    requires r in Annotations(vars, group, focus, d)
    ensures exists i :: AnnotatedAt(vars, group, focus, d, i, r)
  {
    var n := |vars| - 1;
    var init := Annotations(vars[..n], group, focus, d);
    if r in init {
      AnnotationsSound(vars[..n], group, focus, d, r);
      var i :| AnnotatedAt(vars[..n], group, focus, d, i, r);
      assert vars[..n][i] == vars[i];
      assert AnnotatedAt(vars, group, focus, d, i, r);
    } else {
      assert AnnotatedAt(vars, group, focus, d, n, r);
    }
  }

  /** Every matching position is annotated: the loop has no break. */
  lemma {:induction false} AnnotationsComplete(vars: seq<Ref>, group: Option<string>, focus: bool, d: Option<Decision>, i: int)
    requires 0 <= i < |vars| && Matches(d, vars[i])
    ensures MarkRecord(NatToString(i + 1), group, Some(TypeName), focus, d.value) in Annotations(vars, group, focus, d)
  {
    var n := |vars| - 1;
    if i < n {
      assert vars[..n][i] == vars[i];
      AnnotationsComplete(vars[..n], group, focus, d, i);
    }
  }

  /** The annotations are all there is to mark: the records of the variables
      carry none, and without a decision there are none at all. */
  lemma OutputMarks(data: VectorData, group: Option<string>, focus: bool, d: Option<Decision>, store: Store)
    requires AllIntVars(store, data.variables)
    ensures Marks(Output(data, group, focus, d, store).records) == Annotations(data.variables, group, focus, d)
    ensures d.None? ==> Annotations(data.variables, group, focus, d) == []
  {
    var recs := IntVarRecords(store, data.variables, 3);
    IntVarRecordsPlain(store, data.variables, 3);
    PlainFilters(recs);
    var m := Annotations(data.variables, group, focus, d);
    AllMarks(data.variables, group, focus, d);
    MarksAppend(recs, m);
    if d.None? {
      NoneNoAnnotations(data.variables, group, focus);
    }
  }

  lemma {:induction false} AllMarks(vars: seq<Ref>, group: Option<string>, focus: bool, d: Option<Decision>)
    ensures Marks(Annotations(vars, group, focus, d)) == Annotations(vars, group, focus, d)
  {
    if vars != [] {
      var n := |vars| - 1;
      AllMarks(vars[..n], group, focus, d);
      var tail := if Matches(d, vars[n]) then [MarkRecord(NatToString(n + 1), group, Some(TypeName), focus, d.value)] else [];
      MarksAppend(Annotations(vars[..n], group, focus, d), tail);
      if tail != [] {
        assert Marks(tail) == Marks([]) + tail;
      }
    }
  }

  lemma {:induction false} NoneNoAnnotations(vars: seq<Ref>, group: Option<string>, focus: bool)
    ensures Annotations(vars, group, focus, None) == []
  {
    if vars != [] {
      NoneNoAnnotations(vars[..|vars| - 1], group, focus);
    }
  }

  /** When the decision object is not one of the variables, the identity
      test never holds and the vector is not annotated. In Java a decision
      is never an IntVar, but the model takes this as a hypothesis. */
  lemma {:induction false} NeverMatchesVariables(vars: seq<Ref>, group: Option<string>, focus: bool, d: Option<Decision>)
    requires d.Some? ==> d.value.self !in vars
    ensures Annotations(vars, group, focus, d) == []
  {
    if vars != [] {
      var n := |vars| - 1;
      assert d.Some? ==> vars[n] in vars;
      NeverMatchesVariables(vars[..n], group, focus, d);
    }
  }
}
