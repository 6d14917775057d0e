/** The shape every fixed-layout renderer (Element, BoolChanneling, Gcc,
    Cumulative, Inverse, LexLt, BinPacking) gives its output: a row of
    argument scopes opened at level 3, each followed by the annotations
    printed right after it. */
module Layout {

  import opened Base
  import opened Values
  import opened Writing

  /** One argument: its index, the records printed inside the scope, and the
      annotations printed after it closes. */
  datatype Section = Section(index: string, body: seq<VizRecord>, marks: seq<VizRecord>)

  /** The body neither annotates nor opens an argument, the annotations are
      all focus or failed lines. */
  predicate Proper(s: Section) {
    Plain(s.body) && forall i :: 0 <= i < |s.marks| ==> IsMark(s.marks[i])
  }

  predicate AllProper(ss: seq<Section>) {
    forall i :: 0 <= i < |ss| ==> Proper(ss[i])
  }

  /** argumentIn(index, 3), the body, argumentOut(3), then the annotations. */
  function Render(s: Section): seq<VizRecord> {
    Scoped(3, s.index, s.body) + s.marks
  }

  /** The sections printed one after another. */
  function Flatten(ss: seq<Section>): (r: seq<VizRecord>)
    ensures |r| >= 2 * |ss|
  {
    if ss == [] then [] else Flatten(ss[..|ss| - 1]) + Render(ss[|ss| - 1])
  }

  /** The argument indices, in order. */
  function Indices(ss: seq<Section>): (r: seq<string>)
    ensures |r| == |ss|
  {
    seq(|ss|, i requires 0 <= i < |ss| => ss[i].index)
  }

  /** The annotations of all sections, in order. */
  function SectionMarks(ss: seq<Section>): seq<VizRecord> {
    if ss == [] then [] else SectionMarks(ss[..|ss| - 1]) + ss[|ss| - 1].marks
  }

  /** One section opens its own argument and carries its own annotations. */
  lemma RenderFilters(s: Section)
    requires Proper(s)
    ensures Arguments(Render(s)) == [s.index]
    ensures Marks(Render(s)) == s.marks
  {
    ScopedFilters(3, s.index, s.body);
    MarksOnly(s.marks);
    ArgumentsAppend(Scoped(3, s.index, s.body), s.marks);
    MarksAppend(Scoped(3, s.index, s.body), s.marks);
    assert [s.index] + [] == [s.index];
    assert [] + s.marks == s.marks;
  }

  /** Reading the arguments back from the printed records gives the
      sections' indices, in order. */
  lemma {:induction false} FlattenArguments(ss: seq<Section>)
    requires AllProper(ss)
    ensures Arguments(Flatten(ss)) == Indices(ss)
  {
    if ss != [] {
      var n := |ss| - 1;
      var init, s := ss[..n], ss[n];
      assert AllProper(init);
      FlattenArguments(init);
      RenderFilters(s);
      ArgumentsAppend(Flatten(init), Render(s));
      assert Indices(ss) == Indices(init) + [s.index];
    }
  }

  /** Reading the annotations back from the printed records gives the
      sections' annotations, in order. */
  lemma {:induction false} FlattenMarks(ss: seq<Section>)
    requires AllProper(ss)
    ensures Marks(Flatten(ss)) == SectionMarks(ss)
  {
    if ss != [] {
      var n := |ss| - 1;
      var init, s := ss[..n], ss[n];
      assert AllProper(init);
      FlattenMarks(init);
      RenderFilters(s);
      MarksAppend(Flatten(init), Render(s));
    }
  }

  lemma FlattenFilters(ss: seq<Section>)
    requires AllProper(ss)
    ensures Arguments(Flatten(ss)) == Indices(ss)
    ensures Marks(Flatten(ss)) == SectionMarks(ss)
  {
    FlattenArguments(ss);
    FlattenMarks(ss);
  }

  lemma Flatten2(s1: Section, s2: Section)
    ensures Flatten([s1, s2]) == Render(s1) + Render(s2)
    ensures SectionMarks([s1, s2]) == s1.marks + s2.marks
  {
    assert [s1, s2][..1] == [s1];
    assert [s1][..0] == [];
    assert Flatten([s1]) == [] + Render(s1) == Render(s1);
    assert SectionMarks([s1]) == [] + s1.marks == s1.marks;
  }

  lemma Flatten3(s1: Section, s2: Section, s3: Section)
    ensures Flatten([s1, s2, s3]) == Render(s1) + Render(s2) + Render(s3)
    ensures SectionMarks([s1, s2, s3]) == s1.marks + s2.marks + s3.marks
  {
    assert [s1, s2, s3][..2] == [s1, s2];
    Flatten2(s1, s2);
  }

  /** Two sections: their indices and their annotations, in order. */
  lemma Shape2(s1: Section, s2: Section)
    requires Proper(s1) && Proper(s2)
    ensures Arguments(Flatten([s1, s2])) == [s1.index, s2.index]
    ensures Marks(Flatten([s1, s2])) == s1.marks + s2.marks
  {
    FlattenFilters([s1, s2]);
    Flatten2(s1, s2);
  }

  /** Three sections: their indices and their annotations, in order. */
  lemma Shape3(s1: Section, s2: Section, s3: Section)
    requires Proper(s1) && Proper(s2) && Proper(s3)
    ensures Arguments(Flatten([s1, s2, s3])) == [s1.index, s2.index, s3.index]
    ensures Marks(Flatten([s1, s2, s3])) == s1.marks + s2.marks + s3.marks
  {
    FlattenFilters([s1, s2, s3]);
    Flatten3(s1, s2, s3);
  }

  /** Printing three sections one after another appends their records. */
  lemma Append3(o: seq<VizRecord>, a: seq<VizRecord>, b: seq<VizRecord>, c: seq<VizRecord>)
    ensures o + a + b + c == o + (a + b + c)
  {
  }

  lemma Append4(o: seq<VizRecord>, a: seq<VizRecord>, b: seq<VizRecord>, c: seq<VizRecord>, d: seq<VizRecord>)
    ensures o + a + b + c + d == o + (a + b + c + d)
  {
  }

  /** Two sections with no annotations, written out. */
  lemma Flatten2Plain(i1: string, b1: seq<VizRecord>, i2: string, b2: seq<VizRecord>)
    ensures Flatten([Section(i1, b1, []), Section(i2, b2, [])]) ==
      [ArgumentIn(Indent(3), i1)] + b1 + [ArgumentOut(Indent(3))] + Scoped(3, i2, b2)
  {
    Flatten2(Section(i1, b1, []), Section(i2, b2, []));
    assert Scoped(3, i1, b1) + [] == [ArgumentIn(Indent(3), i1)] + b1 + [ArgumentOut(Indent(3))];
    assert Scoped(3, i2, b2) + [] == Scoped(3, i2, b2);
  }

  lemma Append5(o: seq<VizRecord>, a: seq<VizRecord>, b: seq<VizRecord>, c: seq<VizRecord>, d: seq<VizRecord>, e: seq<VizRecord>)
    ensures o + a + b + c + d + e == o + (a + b + c + d + e)
  {
  }

  /** Three sections with no annotations, written out. */
  lemma Flatten3Plain(i1: string, b1: seq<VizRecord>, i2: string, b2: seq<VizRecord>, i3: string, b3: seq<VizRecord>)
    ensures Flatten([Section(i1, b1, []), Section(i2, b2, []), Section(i3, b3, [])]) ==
      [ArgumentIn(Indent(3), i1)] + b1 + [ArgumentOut(Indent(3))] + Scoped(3, i2, b2) + Scoped(3, i3, b3)
  {
    Flatten3(Section(i1, b1, []), Section(i2, b2, []), Section(i3, b3, []));
    assert Scoped(3, i1, b1) + [] == [ArgumentIn(Indent(3), i1)] + b1 + [ArgumentOut(Indent(3))];
    assert Scoped(3, i2, b2) + [] == Scoped(3, i2, b2);
    assert Scoped(3, i3, b3) + [] == Scoped(3, i3, b3);
  }

  /** Sections with no annotations are just their scopes. */
  lemma FlattenScoped2(i1: string, b1: seq<VizRecord>, i2: string, b2: seq<VizRecord>)
    ensures Flatten([Section(i1, b1, []), Section(i2, b2, [])]) == Scoped(3, i1, b1) + Scoped(3, i2, b2)
  {
    Flatten2(Section(i1, b1, []), Section(i2, b2, []));
    assert Scoped(3, i1, b1) + [] == Scoped(3, i1, b1);
    assert Scoped(3, i2, b2) + [] == Scoped(3, i2, b2);
  }

  lemma FlattenScoped3(i1: string, b1: seq<VizRecord>, i2: string, b2: seq<VizRecord>, i3: string, b3: seq<VizRecord>)
    ensures Flatten([Section(i1, b1, []), Section(i2, b2, []), Section(i3, b3, [])]) ==
      Scoped(3, i1, b1) + Scoped(3, i2, b2) + Scoped(3, i3, b3)
  {
    Flatten3(Section(i1, b1, []), Section(i2, b2, []), Section(i3, b3, []));
    assert Scoped(3, i1, b1) + [] == Scoped(3, i1, b1);
    assert Scoped(3, i2, b2) + [] == Scoped(3, i2, b2);
    assert Scoped(3, i3, b3) + [] == Scoped(3, i3, b3);
  }

  /** Record k of an argument's body is printed right after the opening line
      and k earlier body records, whatever follows the argument. */
  lemma ScopedBodyAt(index: string, body: seq<VizRecord>, rest: seq<VizRecord>, k: nat)
    requires k < |body|
    ensures k + 1 < |Scoped(3, index, body) + rest|
    ensures (Scoped(3, index, body) + rest)[k + 1] == body[k]
  {
    assert Scoped(3, index, body) + rest == [ArgumentIn(Indent(3), index)] + body + ([ArgumentOut(Indent(3))] + rest);
  }

  /** argumentIn(arg, 3).ivar(v, index, 4).argumentOut(3) */
  method ScopedIvar(w: Writer, arg: string, v: IntVarState, index: string)
    modifies w.out`written
    ensures w.out.written == old(w.out.written) + Scoped(3, arg, [IvarRecord(v, index, 4)])
  {
    w.ArgumentIn(arg, 3);
    w.Ivar(v, index, 4);
    w.ArgumentOut(3);
  }

  /** argumentIn(arg, 3).integer(value, index, 4).argumentOut(3) */
  method ScopedInteger(w: Writer, arg: string, value: int, index: string)
    modifies w.out`written
    ensures w.out.written == old(w.out.written) + Scoped(3, arg, [IntegerRec(Indent(4), index, value)])
  {
    w.ArgumentIn(arg, 3);
    w.Integer(value, index, 4);
    w.ArgumentOut(3);
  }

  /** argumentIn(arg, 3).array(values, 4).argumentOut(3) */
  method ScopedArray(w: Writer, arg: string, values: seq<int>)
    modifies w.out`written
    ensures w.out.written == old(w.out.written) + Scoped(3, arg, ValueRecords(values, 4))
  {
    w.ArgumentIn(arg, 3);
    w.Array(values, 4);
    w.ArgumentOut(3);
  }

  /** argumentIn(arg, 3).arrayDvar(vars, 4).argumentOut(3) over IntVar[] */
  method ScopedInts(w: Writer, arg: string, store: Store, vars: seq<Ref>)
    requires AllIntVars(store, vars)
    modifies w.out`written
    ensures w.out.written == old(w.out.written) + Scoped(3, arg, IntVarRecords(store, vars, 4))
  {
    w.ArgumentIn(arg, 3);
    w.ArrayDvarInts(store, vars, 4);
    w.ArgumentOut(3);
  }
}
