/** The element renderer (visualizers/Element.java): the index variable, the
    constant table and the value variable as arguments 1, 2 and 3, with an
    annotation after argument 1 or 3 when the decision is on that variable. */
module ElementViz {

  import opened Base
  import opened Decimal
  import opened Values
  import opened Writing
  import opened Layout

  const TypeName: string := "element"

  datatype ElementData = ElementData(index: Ref, values: seq<int>, value: Ref)

  /** index and value are IntVar fields. */
  predicate Typed(data: ElementData, store: Store) {
    IsIntVar(store, data.index) && IsIntVar(store, data.value)
  }

  /** The annotation for variable r at address addr, if the decision is on r. */
  function MarkFor(r: Ref, addr: string, group: Option<string>, focus: bool, d: Option<Decision>): seq<VizRecord> {
    if d.Some? && d.value.variable == r then [MarkRecord(addr, group, Some(TypeName), focus, d.value)] else []
  }

  /** The three arguments with their annotations. */
  function Sections(data: ElementData, group: Option<string>, focus: bool, d: Option<Decision>, store: Store): seq<Section>
    requires Typed(data, store)
  {
    [Section("1", [IvarRecord(store(data.index).iv, "1", 4)], MarkFor(data.index, "1 1", group, focus, d)),
     Section("2", ValueRecords(data.values, 4), []),
     Section("3", [IvarRecord(store(data.value).iv, "3", 4)], MarkFor(data.value, "3 3", group, focus, d))]
  }

  /** What print writes. */
  function Output(data: ElementData, group: Option<string>, focus: bool, d: Option<Decision>, store: Store): seq<VizRecord>
    requires Typed(data, store)
  {
    Flatten(Sections(data, group, focus, d, store))
  }

  method Print(w: Writer, data: ElementData, group: Option<string>, focus: bool, d: Option<Decision>, store: Store)
    requires Typed(data, store)
    modifies w.out`written
    ensures w.out.written == old(w.out.written) + Output(data, group, focus, d, store)
  {
    ghost var s1 := Section("1", [IvarRecord(store(data.index).iv, "1", 4)], MarkFor(data.index, "1 1", group, focus, d));
    ghost var s2 := Section("2", ValueRecords(data.values, 4), []);
    ghost var s3 := Section("3", [IvarRecord(store(data.value).iv, "3", 4)], MarkFor(data.value, "3 3", group, focus, d));
    ScopedIvar(w, "1", store(data.index).iv, "1");
    if d != None && d.value.variable == data.index {
      w.Mark("1 1", group, Some(TypeName), focus, d.value);
    }
    assert w.out.written == old(w.out.written) + Render(s1);
    ghost var mid := w.out.written;
    ScopedArray(w, "2", data.values);
    assert w.out.written == mid + Render(s2);
    ghost var mid2 := w.out.written;
    ScopedIvar(w, "3", store(data.value).iv, "3");
    if d != None && d.value.variable == data.value {
      w.Mark("3 3", group, Some(TypeName), focus, d.value);
    }
    assert w.out.written == mid2 + Render(s3);
    Flatten3(s1, s2, s3);
    Append3(old(w.out.written), Render(s1), Render(s2), Render(s3));
  }

  /** Arguments 1, 2 and 3 in that order; annotations only for a decision on
      index (addressed "1 1") or on value (addressed "3 3"), index first. */
  lemma OutputShape(data: ElementData, group: Option<string>, focus: bool, d: Option<Decision>, store: Store)
    requires Typed(data, store)
    ensures Arguments(Output(data, group, focus, d, store)) == ["1", "2", "3"]
    ensures Marks(Output(data, group, focus, d, store)) ==
      MarkFor(data.index, "1 1", group, focus, d) + MarkFor(data.value, "3 3", group, focus, d)
  {
    var ss := Sections(data, group, focus, d, store);
    ValueRecordsPlain(data.values, 4);
    var m1, m3 := MarkFor(data.index, "1 1", group, focus, d), MarkFor(data.value, "3 3", group, focus, d);
    Shape3(ss[0], ss[1], ss[2]);
    assert ss == [ss[0], ss[1], ss[2]];
    assert m1 + [] + m3 == m1 + m3;
  }

  /** The annotation on index comes right after argument 1, before argument 2. */
  lemma IndexMarkPosition(data: ElementData, group: Option<string>, focus: bool, d: Option<Decision>, store: Store)
    requires Typed(data, store) && d.Some? && d.value.variable == data.index
    ensures Output(data, group, focus, d, store)[3] == MarkRecord("1 1", group, Some(TypeName), focus, d.value)
    ensures Output(data, group, focus, d, store)[4] == ArgumentIn(Indent(3), "2")
  {
    var ss := Sections(data, group, focus, d, store);
    Flatten3(ss[0], ss[1], ss[2]);
    assert ss == [ss[0], ss[1], ss[2]];
    var r0 := Render(ss[0]);
    assert |r0| == 4 && r0[3] == MarkRecord("1 1", group, Some(TypeName), focus, d.value);
    assert Render(ss[1])[0] == ArgumentIn(Indent(3), "2");
    assert Output(data, group, focus, d, store) == r0 + (Render(ss[1]) + Render(ss[2]));
  }
}
