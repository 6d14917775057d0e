/** The lexicographic ordering renderer (visualizers/LexLt.java): X as
    argument 1, Y as argument 2. The annotation loops of the source are
    commented out, so no decision is ever shown. */
module LexLtViz {

  import opened Base
  import opened Values
  import opened Writing
  import opened Layout

  const TypeName: string := "lex_lt"

  datatype LexLtData = LexLtData(xs: seq<Ref>, ys: seq<Ref>)

  /** X and Y are IntVar[]. */
  predicate Typed(data: LexLtData, store: Store) {
    AllIntVars(store, data.xs) && AllIntVars(store, data.ys)
  }

  function Sections(data: LexLtData, store: Store): seq<Section>
    requires Typed(data, store)
  {
    [Section("1", IntVarRecords(store, data.xs, 4), []), Section("2", IntVarRecords(store, data.ys, 4), [])]
  }

  /** What print writes. */
  function Output(data: LexLtData, store: Store): seq<VizRecord>
    requires Typed(data, store)
  {
    Flatten(Sections(data, store))
  }

  method Print(w: Writer, data: LexLtData, store: Store)
    requires Typed(data, store)
    modifies w.out`written
    ensures w.out.written == old(w.out.written) + Output(data, store)
  {
    ScopedInts(w, "1", store, data.xs);
    ScopedInts(w, "2", store, data.ys);
    FlattenScoped2("1", IntVarRecords(store, data.xs, 4), "2", IntVarRecords(store, data.ys, 4));
  }

  /** Arguments 1 and 2 in that order, no annotation whatever the decision. */
  lemma OutputShape(data: LexLtData, store: Store)
    requires Typed(data, store)
    ensures Arguments(Output(data, store)) == ["1", "2"]
    ensures Marks(Output(data, store)) == []
  {
    var ss := Sections(data, store);
    IntVarRecordsPlain(store, data.xs, 4);
    IntVarRecordsPlain(store, data.ys, 4);
    Shape2(ss[0], ss[1]);
    assert ss == [ss[0], ss[1]];
  }

  /** Variable i of X is the record at position i + 1 (after the scope
      opening), under index i + 1. */
  lemma XAt(data: LexLtData, store: Store, i: nat)
    requires Typed(data, store) && i < |data.xs|
    ensures i + 1 < |Output(data, store)|
    ensures Output(data, store)[i + 1] == IvarRecord(store(data.xs[i]).iv, Decimal.NatToString(i + 1), 4)
  {
    var b1, b2 := IntVarRecords(store, data.xs, 4), IntVarRecords(store, data.ys, 4);
    FlattenScoped2("1", b1, "2", b2);
    IntVarRecordsAt(store, data.xs, 4, i);
    ScopedBodyAt("1", b1, Scoped(3, "2", b2), i);
  }
}
