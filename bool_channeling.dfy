/** The boolean channeling renderer (visualizers/BoolChanneling.java): the
    integer variable, the boolean variables and the offset as arguments 1, 2
    and 3. A decision on the integer variable is annotated "1 1"; a decision
    on a boolean is annotated at its first position only, under the address
    "3 <position>". */
module BoolChannelingViz {

  import opened Base
  import opened Decimal
  import opened Values
  import opened Writing
  import opened Layout

  const TypeName: string := "bool_channeling"

  datatype BoolChannelingData = BoolChannelingData(variable: Ref, bools: seq<Ref>, offset: int)

  /** The field types: var is an IntVar, bool a BoolVar[]. */
  predicate Typed(data: BoolChannelingData, store: Store) {
    IsIntVar(store, data.variable) && AllIntVars(store, data.bools)
  }

  predicate IsBoolVar(store: Store, r: Ref) {
    store(r).IntV? && store(r).iv.isBool
  }

  predicate AllBoolVars(store: Store, rs: seq<Ref>) {
    forall i :: 0 <= i < |rs| ==> IsBoolVar(store, rs[i])
  }

  /** The constructors: every element of bool is cast to BoolVar into a fresh
      array, and the offset is the one given or, for the constructors without
      one, the lower bound of var. */
  method Build(store: Store, variable: Ref, bools: seq<Ref>, offset: Option<int>) returns (r: Result<BoolChannelingData>)
    requires IsIntVar(store, variable) && AllIntVars(store, bools)
    requires offset.None? ==> Consistent(store(variable).iv.dom)
    ensures r.Ok? <==> AllBoolVars(store, bools)
    ensures r.Err? ==> r.error == ClassCast
    ensures r.Ok? ==> r.value.variable == variable && r.value.bools == bools
    ensures r.Ok? ==> r.value.offset == if offset.Some? then offset.value else LB(store(variable).iv.dom)
  {
    var a := new Ref[|bools|];
    var b := 0;
    while b < |bools|
      invariant 0 <= b <= |bools|
      invariant a[..b] == bools[..b]
      invariant AllBoolVars(store, bools[..b])
    {
      if !IsBoolVar(store, bools[b]) {
        assert !AllBoolVars(store, bools) by {
          assert !IsBoolVar(store, bools[b]);
        }
        return Err(ClassCast);
      }
      a[b] := bools[b];
      assert bools[..b + 1] == bools[..b] + [bools[b]];
      b := b + 1;
    }
    assert a[..] == bools;
    var off := if offset.Some? then offset.value else LB(store(variable).iv.dom);
    r := Ok(BoolChannelingData(variable, a[..], off));
  }

  /** The first position of r in xs, |xs| when it does not occur. */
  function Find(xs: seq<Ref>, r: Ref): (k: nat)
    ensures k <= |xs| && r !in xs[..k]
    ensures k < |xs| ==> xs[k] == r
  {
    if xs == [] then 0
    else if xs[0] == r then 0
    else
      var k := Find(xs[1..], r);
      assert xs[..k + 1] == [xs[0]] + xs[1..][..k];
      k + 1
  }

  /** A position holding r with no r before it is where Find stops. */
  lemma FindAt(xs: seq<Ref>, r: Ref, i: nat)
    requires i < |xs| && xs[i] == r && r !in xs[..i]
    ensures Find(xs, r) == i
  {
  }

  /** The annotation of a decision on r, for the integer variable. */
  function MarkFor(r: Ref, addr: string, group: Option<string>, focus: bool, d: Option<Decision>): seq<VizRecord> {
    if d.Some? && d.value.variable == r then [MarkRecord(addr, group, Some(TypeName), focus, d.value)] else []
  }

  /** The annotation of a decision on a boolean: the loop over bool stops at
      the first match, addressed under argument 3. */
  function BoolMark(bools: seq<Ref>, group: Option<string>, focus: bool, d: Option<Decision>): seq<VizRecord> {
    if d.None? then []
    else
      var k := Find(bools, d.value.variable);
      if k < |bools| then [MarkRecord("3 " + NatToString(k + 1), group, Some(TypeName), focus, d.value)] else []
  }

  function Sections(data: BoolChannelingData, group: Option<string>, focus: bool, d: Option<Decision>, store: Store): seq<Section>
    requires Typed(data, store)
  {
    [Section("1", [IvarRecord(store(data.variable).iv, "1", 4)], MarkFor(data.variable, "1 1", group, focus, d)),
     Section("2", IntVarRecords(store, data.bools, 4), BoolMark(data.bools, group, focus, d)),
     Section("3", [IntegerRec(Indent(4), "3", data.offset)], [])]
  }

  /** What print writes. */
  function Output(data: BoolChannelingData, group: Option<string>, focus: bool, d: Option<Decision>, store: Store): seq<VizRecord>
    requires Typed(data, store)
  {
    Flatten(Sections(data, group, focus, d, store))
  }

  method Print(w: Writer, data: BoolChannelingData, group: Option<string>, focus: bool, d: Option<Decision>, store: Store)
    requires Typed(data, store)
    modifies w.out`written
    ensures w.out.written == old(w.out.written) + Output(data, group, focus, d, store)
  {
    ghost var s1 := Section("1", [IvarRecord(store(data.variable).iv, "1", 4)], MarkFor(data.variable, "1 1", group, focus, d));
    ghost var s2 := Section("2", IntVarRecords(store, data.bools, 4), BoolMark(data.bools, group, focus, d));
    ghost var s3 := Section("3", [IntegerRec(Indent(4), "3", data.offset)], []);
    ScopedIvar(w, "1", store(data.variable).iv, "1");
    if d != None && d.value.variable == data.variable {
      w.Mark("1 1", group, Some(TypeName), focus, d.value);
    }
    assert w.out.written == old(w.out.written) + Render(s1);
    ghost var mid := w.out.written;
    ScopedInts(w, "2", store, data.bools);
    if d != None {
      PrintBoolMark(w, data.bools, group, focus, d.value);
    }
    assert w.out.written == mid + Render(s2);
    ghost var mid2 := w.out.written;
    ScopedInteger(w, "3", data.offset, "3");
    assert w.out.written == mid2 + Render(s3);
    Flatten3(s1, s2, s3);
    Append3(old(w.out.written), Render(s1), Render(s2), Render(s3));
  }

  /** The loop over bool with its break. */
  method PrintBoolMark(w: Writer, bools: seq<Ref>, group: Option<string>, focus: bool, d: Decision)
    modifies w.out`written
    ensures w.out.written == old(w.out.written) + BoolMark(bools, group, focus, Some(d))
  {
    var i := 0;
    while i < |bools|
      invariant 0 <= i <= |bools| && d.variable !in bools[..i]
      invariant w.out.written == old(w.out.written)
    {
      if d.variable == bools[i] {
        FindAt(bools, d.variable, i);
        w.Mark("3 " + NatToString(i + 1), group, Some(TypeName), focus, d);
        return;
      }
      assert bools[..i + 1] == bools[..i] + [bools[i]];
      i := i + 1;
    }
    assert bools[..i] == bools;
  }

  /** Arguments 1, 2 and 3 in that order; the annotations are the one on the
      integer variable, then the one on a boolean. */
  lemma OutputShape(data: BoolChannelingData, group: Option<string>, focus: bool, d: Option<Decision>, store: Store)
    requires Typed(data, store)
    ensures Arguments(Output(data, group, focus, d, store)) == ["1", "2", "3"]
    ensures Marks(Output(data, group, focus, d, store)) ==
      MarkFor(data.variable, "1 1", group, focus, d) + BoolMark(data.bools, group, focus, d)
  {
    var ss := Sections(data, group, focus, d, store);
    IntVarRecordsPlain(store, data.bools, 4);
    var m1, m2 := MarkFor(data.variable, "1 1", group, focus, d), BoolMark(data.bools, group, focus, d);
    Shape3(ss[0], ss[1], ss[2]);
    assert ss == [ss[0], ss[1], ss[2]];
    assert m1 + m2 + [] == m1 + m2;
  }

  /** A decision on a boolean that occurs in bool gives exactly one
      annotation, at its first occurrence, however often it occurs. */
  lemma FirstOccurrenceOnly(bools: seq<Ref>, group: Option<string>, focus: bool, d: Decision, j: nat)
    requires j < |bools| && bools[j] == d.variable
    ensures Find(bools, d.variable) <= j
    ensures BoolMark(bools, group, focus, Some(d)) ==
      [MarkRecord("3 " + NatToString(Find(bools, d.variable) + 1), group, Some(TypeName), focus, d)]
  {
  }

  /** A decision on a variable outside bool annotates no boolean. */
  lemma NoBoolMark(bools: seq<Ref>, group: Option<string>, focus: bool, d: Decision)
    requires d.variable !in bools
    ensures BoolMark(bools, group, focus, Some(d)) == []
  {
    assert bools[..|bools|] == bools;
  }
}
