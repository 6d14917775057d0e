/** The inverse renderer (visualizers/Inverse.java): two arguments, "1" and
    "2". Both print the variables of X; Y is kept but never printed. */
module InverseViz {

  import opened Base
  import opened Values
  import opened Writing
  import opened Layout

  const TypeName: string := "inverse"

  datatype InverseData = InverseData(xs: seq<Ref>, ys: seq<Ref>)

  /** X and Y are IntVar[]. */
  predicate Typed(data: InverseData, store: Store) {
    AllIntVars(store, data.xs) && AllIntVars(store, data.ys)
  }

  function Sections(data: InverseData, store: Store): seq<Section>
    requires Typed(data, store)
  {
    [Section("1", IntVarRecords(store, data.xs, 4), []), Section("2", IntVarRecords(store, data.xs, 4), [])]
  }

  /** What print writes. */
  function Output(data: InverseData, store: Store): seq<VizRecord>
    requires Typed(data, store)
  {
    Flatten(Sections(data, store))
  }

  method Print(w: Writer, data: InverseData, store: Store)
    requires Typed(data, store)
    modifies w.out`written
    ensures w.out.written == old(w.out.written) + Output(data, store)
  {
    ScopedInts(w, "1", store, data.xs);
    ScopedInts(w, "2", store, data.xs);
    FlattenScoped2("1", IntVarRecords(store, data.xs, 4), "2", IntVarRecords(store, data.xs, 4));
  }

  /** Arguments 1 and 2 in that order, no annotation. */
  lemma OutputShape(data: InverseData, store: Store)
    requires Typed(data, store)
    ensures Arguments(Output(data, store)) == ["1", "2"]
    ensures Marks(Output(data, store)) == []
  {
    var ss := Sections(data, store);
    IntVarRecordsPlain(store, data.xs, 4);
    Shape2(ss[0], ss[1]);
    assert ss == [ss[0], ss[1]];
  }

  /** Both arguments show X: the records of argument 2 repeat those of
      argument 1, and Y does not change the output. */
  lemma XTwiceYNever(data: InverseData, ys: seq<Ref>, store: Store)
    requires Typed(data, store) && AllIntVars(store, ys)
    ensures Output(data, store) == Scoped(3, "1", IntVarRecords(store, data.xs, 4)) + Scoped(3, "2", IntVarRecords(store, data.xs, 4))
    ensures Output(InverseData(data.xs, ys), store) == Output(data, store)
  {
    FlattenScoped2("1", IntVarRecords(store, data.xs, 4), "2", IntVarRecords(store, data.xs, 4));
  }
}
