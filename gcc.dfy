/** The global cardinality renderer (visualizers/Gcc.java): argument 1 holds
    one tuple (value, low, high) per value, argument 2 the variables. The
    bounds arrays are indexed by the position in values, so a low or high
    array shorter than values raises ArrayIndexOutOfBoundsException in the
    middle of a tuple. */
module GccViz {

  import opened Base
  import opened Decimal
  import opened Values
  import opened Writing
  import opened Layout

  const TypeName: string := "gcc"

  datatype GccData = GccData(vars: seq<Ref>, values: seq<int>, low: seq<int>, high: seq<int>)

  /** vars is an IntVar[]. */
  predicate Typed(data: GccData, store: Store) {
    AllIntVars(store, data.vars)
  }

  /** How many tuples are written in full: the loop runs over values and
      reads low[i] and high[i]. */
  function Reach(data: GccData): (m: nat)
    ensures m <= |data.values| && m <= |data.low| && m <= |data.high|
    ensures m == |data.values| || m == |data.low| || m == |data.high|
  {
    var m := if |data.low| < |data.high| then |data.low| else |data.high|;
    if |data.values| < m then |data.values| else m
  }

  /** Tuple i: its index, then value, low and high at level 5. */
  function Tuple(data: GccData, i: nat): seq<VizRecord>
    requires i < Reach(data)
  {
    [TupleIn(Indent(4), NatToString(i + 1)),
     IntegerRec(Indent(5), "value", data.values[i]),
     IntegerRec(Indent(5), "low", data.low[i]),
     IntegerRec(Indent(5), "high", data.high[i]),
     TupleOut(Indent(4))]
  }

  /** The first n tuples. */
  function Tuples(data: GccData, n: nat): (r: seq<VizRecord>)
    requires n <= Reach(data)
    ensures |r| == 5 * n
  {
    if n == 0 then [] else Tuples(data, n - 1) + Tuple(data, n - 1)
  }

  /** What tuple i writes before low[i] or high[i] raises. */
  function Broken(data: GccData, i: nat): seq<VizRecord>
    requires i < |data.values| && (i >= |data.low| || i >= |data.high|)
  {
    [TupleIn(Indent(4), NatToString(i + 1)), IntegerRec(Indent(5), "value", data.values[i])] +
      (if i < |data.low| then [IntegerRec(Indent(5), "low", data.low[i])] else [])
  }

  /** The two arguments, when every tuple is complete. */
  function Sections(data: GccData, store: Store): seq<Section>
    requires Typed(data, store) && Reach(data) == |data.values|
  {
    [Section("1", Tuples(data, |data.values|), []), Section("2", IntVarRecords(store, data.vars, 4), [])]
  }

  /** What print writes, and whether it raises. */
  function Output(data: GccData, store: Store): Emitted
    requires Typed(data, store)
  {
    var m := Reach(data);
    if m == |data.values| then Emitted(Flatten(Sections(data, store)), Pass)
    else Emitted([ArgumentIn(Indent(3), "1")] + Tuples(data, m) + Broken(data, m), Outcome.Fail(IndexOutOfBounds))
  }

  method Print(w: Writer, data: GccData, store: Store) returns (o: Outcome)
    requires Typed(data, store)
    modifies w.out`written
    ensures w.out.written == old(w.out.written) + Output(data, store).records
    ensures o == Output(data, store).outcome
  {
    w.ArgumentIn("1", 3);
    o := PrintTuples(w, data);
    if o.Fail? {
      var m := Reach(data);
      Append3(old(w.out.written), [ArgumentIn(Indent(3), "1")], Tuples(data, m), Broken(data, m));
      return;
    }
    w.ArgumentOut(3);
    ScopedInts(w, "2", store, data.vars);
    var n := |data.values|;
    Flatten2Plain("1", Tuples(data, n), "2", IntVarRecords(store, data.vars, 4));
    Append4(old(w.out.written), [ArgumentIn(Indent(3), "1")], Tuples(data, n), [ArgumentOut(Indent(3))],
      Scoped(3, "2", IntVarRecords(store, data.vars, 4)));
  }

  /** The tuple loop: every tuple, or up to the first missing bound. */
  method PrintTuples(w: Writer, data: GccData) returns (o: Outcome)
    modifies w.out`written
    ensures o.Pass? <==> Reach(data) == |data.values|
    ensures o.Fail? ==> o.error == IndexOutOfBounds
    ensures o.Pass? ==> w.out.written == old(w.out.written) + Tuples(data, |data.values|)
    ensures o.Fail? ==> (Reach(data) < |data.values| &&
      w.out.written == old(w.out.written) + Tuples(data, Reach(data)) + Broken(data, Reach(data)))
  {
    var i := 0;
    while i < |data.values|
      invariant 0 <= i <= Reach(data)
      invariant w.out.written == old(w.out.written) + Tuples(data, i)
    {
      o := PrintTuple(w, data, i);
      if o.Fail? {
        return;
      }
      i := i + 1;
    }
    o := Pass;
  }

  /** One turn of the tuple loop: a whole tuple, or what comes before the
      missing bound. */
  method PrintTuple(w: Writer, data: GccData, i: nat) returns (o: Outcome)
    requires i < |data.values|
    modifies w.out`written
    ensures o.Pass? <==> i < Reach(data)
    ensures o.Fail? ==> o.error == IndexOutOfBounds
    ensures o.Pass? ==> w.out.written == old(w.out.written) + Tuple(data, i)
    ensures o.Fail? ==> w.out.written == old(w.out.written) + Broken(data, i)
  {
    w.TupleIn(NatToString(i + 1), 4);
    w.Integer(data.values[i], "value", 5);
    if i >= |data.low| {
      return Outcome.Fail(IndexOutOfBounds);
    }
    w.Integer(data.low[i], "low", 5);
    if i >= |data.high| {
      return Outcome.Fail(IndexOutOfBounds);
    }
    w.Integer(data.high[i], "high", 5);
    w.TupleOut(4);
    o := Pass;
  }

  /** print raises exactly when low or high is shorter than values. */
  lemma OutputOutcome(data: GccData, store: Store)
    requires Typed(data, store)
    ensures Output(data, store).outcome.Pass? <==> |data.low| >= |data.values| && |data.high| >= |data.values|
    ensures Output(data, store).outcome.Fail? ==> Output(data, store).outcome.error == IndexOutOfBounds
  {
  }

  /** Tuple i sits at records 5i to 5i + 4 of the tuples and carries
      values[i], low[i] and high[i]. */
  lemma {:induction false} TuplesAt(data: GccData, n: nat, i: nat)
    requires n <= Reach(data) && i < n
    ensures Tuples(data, n)[5 * i..5 * i + 5] == Tuple(data, i)
  {
    if i < n - 1 {
      TuplesAt(data, n - 1, i);
      assert Tuples(data, n)[..5 * (n - 1)] == Tuples(data, n - 1);
    }
  }

  lemma {:induction false} TuplesPlain(data: GccData, n: nat)
    requires n <= Reach(data)
    ensures Plain(Tuples(data, n))
  {
    if n > 0 {
      TuplesPlain(data, n - 1);
    }
  }

  /** A complete print opens arguments 1 and 2, in that order, and never
      annotates: the decision is not looked at. */
  lemma OutputShape(data: GccData, store: Store)
    requires Typed(data, store) && Output(data, store).outcome.Pass?
    ensures Arguments(Output(data, store).records) == ["1", "2"]
    ensures Marks(Output(data, store).records) == []
  {
    var ss := Sections(data, store);
    TuplesPlain(data, |data.values|);
    IntVarRecordsPlain(store, data.vars, 4);
    Shape2(ss[0], ss[1]);
    assert ss == [ss[0], ss[1]];
  }
}
