/** The snapshot stream's vocabulary and the Writer that renderers print
    through (visualizers/Writer.java). Records are kept abstract: one datatype
    value per printed line, carrying the line's indentation text and the
    values the format string receives. */
module Writing {

  import opened Base
  import opened Decimal
  import opened Values
  import opened Streams

  /** One optional attribute of a visualizer declaration (Visualizer.options). */
  datatype Attr = X(x: int) | Y(y: int) | Group(group: string) | Min(min: int) | Max(max: int)

  /** One line of the snapshot stream. indent is the number of tabs prefix()
      writes before it. */
  datatype VizRecord =
    | Header
    | VisualizationIn
    | VisualizationOut
    | VisualizerDecl(id: int, typ: string, display: string, width: int, height: int, options: seq<Attr>)
    | StateIn(stateId: int, nodeId: int)
    | StateOut
    | VisualizerStateIn(visualizerId: int)
    | VisualizerStateOut
    | ArgumentIn(indent: nat, index: string)
    | ArgumentOut(indent: nat)
    | TupleIn(indent: nat, index: string)
    | TupleOut(indent: nat)
    | CollectionIn(indent: nat, index: string)
    | CollectionOut(indent: nat)
    | IntegerRec(indent: nat, index: string, value: int)
    | DvarRec(indent: nat, index: string, domain: string)
    /** A focus line; typ is None for the form without a type attribute. */
    | FocusRec(indent: nat, index: string, group: Option<string>, focusType: Option<string>)
    | FailedRec(indent: nat, index: string, group: Option<string>, value: int)

  // ---------------------------------------------------------------------------
  // Indentation

  /** The seven precomputed indentations. */
  const PrefixTable: seq<string> :=
    ["", "\t", "\t\t", "\t\t\t", "\t\t\t\t", "\t\t\t\t\t", "\t\t\t\t\t\t"]

  /** n tab characters. */
  function Tabs(n: nat): string {
    seq(n, _ => '\t')
  }

  /** s written n times over. */
  function Repeat(s: string, n: nat): string {
    if n == 0 then "" else Repeat(s, n - 1) + s
  }

  lemma {:induction false} RepeatTab(n: nat)
    ensures Repeat("\t", n) == Tabs(n)
  {
    if n > 0 {
      RepeatTab(n - 1);
      assert Tabs(n) == Tabs(n - 1) + "\t";
    }
  }

  /** prefix(nb): the table entry for 0..6, a fresh run of nb tabs above 7,
      nothing below 0. At nb = 7 the code indexes one past the table, which
      raises instead of returning: None here. */
  function Prefix(nb: int): (r: Option<string>)
    ensures r.None? <==> nb == 7
    ensures r.Some? ==> r.value == Tabs(if nb < 0 then 0 else nb)
  {
    assert PrefixTable[6] == Tabs(6) && PrefixTable[5] == Tabs(5) && PrefixTable[4] == Tabs(4);
    assert PrefixTable[3] == Tabs(3) && PrefixTable[2] == Tabs(2) && PrefixTable[1] == Tabs(1);
    assert PrefixTable[0] == Tabs(0);
    if 0 <= nb <= |PrefixTable| then
      if nb < |PrefixTable| then Some(PrefixTable[nb]) else None
    else if nb > |PrefixTable| then
      RepeatTab(nb);
      Some(Repeat(PrefixTable[1], nb))
    else
      Some(PrefixTable[0])
  }

  /** How many tabs prefix(pf) writes, for every level but the one it
      fails on. */
  function Indent(pf: int): nat
    requires pf != 7
  {
    if pf < 0 then 0 else pf
  }

  /** A record's indent is exactly what prefix writes at its level. */
  lemma IndentIsPrefix(pf: int)
    requires pf != 7
    ensures Prefix(pf) == Some(Tabs(Indent(pf)))
  {
  }

  // ---------------------------------------------------------------------------
  // The domain text of an uninstantiated IntVar

  /** Each value followed by one space, in order. */
  function Spaced(xs: seq<int>): string {
    if xs == [] then "" else IntToString(xs[0]) + " " + Spaced(xs[1..])
  }

  /** "LB .. UB" */
  function RangeText(lb: int, ub: int): string {
    IntToString(lb) + " .. " + IntToString(ub)
  }

  /** What ivar writes as the domain of an uninstantiated variable. */
  function DomainString(dom: IntDomain): string {
    match dom
    case Enumerated(vs) => Spaced(vs)
    case Bounded(lb, ub) => RangeText(lb, ub)
  }

  lemma {:induction false} SpacedSnoc(xs: seq<int>, x: int)
    ensures Spaced(xs + [x]) == Spaced(xs) + IntToString(x) + " "
  {
    if xs != [] {
      var h, m, t := IntToString(xs[0]) + " ", Spaced(xs[1..]), IntToString(x);
      assert (xs + [x])[0] == xs[0] && (xs + [x])[1..] == xs[1..] + [x];
      SpacedSnoc(xs[1..], x);
      Append2(h, m + t, " ");
      Append2(h, m, t);
    } else {
      assert Spaced([x]) == IntToString(x) + " " + Spaced([]);
    }
  }

  /** Index of the first space of s, or |s| when there is none. */
  function FirstSpace(s: string): (k: nat)
    ensures k <= |s| && ' ' !in s[..k]
    ensures k < |s| ==> s[k] == ' '
  {
    if s == [] then 0
    else if s[0] == ' ' then 0
    else
      var k := FirstSpace(s[1..]);
      assert s[..k + 1] == [s[0]] + s[1..][..k];
      k + 1
  }

  lemma FirstSpaceOf(a: string, rest: string)
    requires ' ' !in a
    ensures FirstSpace(a + " " + rest) == |a|
  {
    var s := a + " " + rest;
    var k := FirstSpace(s);
    assert s[..|a|] == a && s[|a|] == ' ';
  }

  /** Two texts joined by a space, neither first text holding a space, split
      back into the same parts. */
  lemma SplitAtSpace(a: string, b: string, a2: string, b2: string)
    requires ' ' !in a && ' ' !in a2 && a + " " + b == a2 + " " + b2
    ensures a == a2 && b == b2
  {
    var s := a + " " + b;
    FirstSpaceOf(a, b);
    FirstSpaceOf(a2, b2);
    assert s[..|a|] == a && s[|a| + 1..] == b;
    assert s[..|a2|] == a2 && s[|a2| + 1..] == b2;
  }

  /** Reads a list of space-terminated decimal values. */
  function DecodeList(s: string): Option<seq<int>>
    decreases |s|
  {
    if s == [] then Some([])
    else
      var k := FirstSpace(s);
      if k == |s| then None
      else
        match ParseInt(s[..k])
        case None => None
        case Some(v) =>
          match DecodeList(s[k + 1..])
          case None => None
          case Some(rest) => Some([v] + rest)
  }

  /** Reads "A .. B". */
  function DecodeRange(s: string): Option<(int, int)> {
    var k := FirstSpace(s);
    if k + 4 <= |s| && s[k..k + 4] == " .. " then
      match (ParseInt(s[..k]), ParseInt(s[k + 4..]))
      case (Some(a), Some(b)) => Some((a, b))
      case _ => None
    else None
  }

  /** How a reader of the stream recovers a domain from its text. */
  function DecodeDomain(s: string): Option<IntDomain> {
    match DecodeList(s)
    case Some(xs) => Some(Enumerated(xs))
    case None =>
      match DecodeRange(s)
      case Some((a, b)) => Some(Bounded(a, b))
      case None => None
  }

  lemma {:induction false} DecodeSpaced(xs: seq<int>)
    ensures DecodeList(Spaced(xs)) == Some(xs)
  {
    if xs != [] {
      var a := IntToString(xs[0]);
      var rest := Spaced(xs[1..]);
      FirstSpaceOf(a, rest);
      var s := a + " " + rest;
      assert Spaced(xs) == s;
      assert s[..|a|] == a && s[|a| + 1..] == rest;
      IntRoundTrip(xs[0]);
      DecodeSpaced(xs[1..]);
      assert [xs[0]] + xs[1..] == xs;
    }
  }

  /** Where the parts of "LB .. UB" sit: the first space ends LB. */
  lemma RangeTextShape(lb: int, ub: int)
    ensures var a, b, s := IntToString(lb), IntToString(ub), RangeText(lb, ub);
      FirstSpace(s) == |a| && s[..|a|] == a && s[|a| + 1..] == ".. " + b &&
      s[|a|..|a| + 4] == " .. " && s[|a| + 4..] == b
  {
    var a, b := IntToString(lb), IntToString(ub);
    assert RangeText(lb, ub) == a + " " + (".. " + b);
    FirstSpaceOf(a, ".. " + b);
  }

  /** Text starting with ".. " is not a list of values: ".." is not a number. */
  lemma DotsNotList(b: string)
    ensures DecodeList(".. " + b) == None
  {
    FirstSpaceOf("..", b);
    assert (".. " + b)[..2] == "..";
    assert ParseInt("..") == None;
  }

  lemma DecodeRangeText(lb: int, ub: int)
    ensures DecodeList(RangeText(lb, ub)) == None
    ensures DecodeRange(RangeText(lb, ub)) == Some((lb, ub))
  {
    RangeTextShape(lb, ub);
    IntRoundTrip(lb);
    IntRoundTrip(ub);
    DotsNotList(IntToString(ub));
  }

  /** The domain text loses nothing: it tells an enumerated domain from a
      bounded one, and gives back every value or both bounds. */
  lemma DomainStringRoundTrip(dom: IntDomain)
    ensures DecodeDomain(DomainString(dom)) == Some(dom)
  {
    match dom
    case Enumerated(vs) => DecodeSpaced(vs);
    case Bounded(lb, ub) => DecodeRangeText(lb, ub);
  }

  // ---------------------------------------------------------------------------
  // Records of variables and arrays

  /** ivar: the value of an instantiated variable, else its domain text. */
  function IvarRecord(v: IntVarState, index: string, pf: int): VizRecord
    requires pf != 7
  {
    if Instantiated(v.dom) then IntegerRec(Indent(pf), index, Value(v.dom))
    else DvarRec(Indent(pf), index, DomainString(v.dom))
  }

  /** The set of values a variable record stands for, as a reader sees it. */
  ghost function Denotes(r: VizRecord): Option<set<int>> {
    match r
    case IntegerRec(_, _, value) => Some({value})
    case DvarRec(_, _, text) =>
      (match DecodeDomain(text)
       case Some(dom) => Some(Members(dom))
       case None => None)
    case _ => None
  }

  /** An instantiated variable gives an integer record carrying its value;
      any other gives its exact domain, list or range as it is. */
  lemma IvarRecordShape(v: IntVarState, index: string, pf: int)
    requires pf != 7
    ensures IvarRecord(v, index, pf).IntegerRec? <==> Instantiated(v.dom)
    ensures IvarRecord(v, index, pf).index == index && IvarRecord(v, index, pf).indent == Indent(pf)
    ensures !Instantiated(v.dom) ==> DecodeDomain(IvarRecord(v, index, pf).domain) == Some(v.dom)
  {
    DomainStringRoundTrip(v.dom);
  }

  /** A reader recovers exactly the values of a consistent variable. */
  lemma IvarRecordDenotes(v: IntVarState, index: string, pf: int)
    requires pf != 7 && Consistent(v.dom)
    ensures Denotes(IvarRecord(v, index, pf)) == Some(Members(v.dom))
  {
    InstantiatedIsSingleton(v.dom);
    DomainStringRoundTrip(v.dom);
  }

  /** arrayDvar over IntVars: one ivar record per element, indexed from "1". */
  function IntVarRecords(store: Store, refs: seq<Ref>, pf: int): (r: seq<VizRecord>)
    requires pf != 7 && AllIntVars(store, refs)
    ensures |r| == |refs|
  {
    if refs == [] then []
    else
      var init := refs[..|refs| - 1];
      assert AllIntVars(store, init);
      IntVarRecords(store, init, pf) + [IvarRecord(store(refs[|refs| - 1]).iv, NatToString(|refs|), pf)]
  }

  /** The i-th record (from 0) is the ivar record of the i-th variable, at index i + 1. */
  lemma {:induction false} IntVarRecordsAt(store: Store, refs: seq<Ref>, pf: int, i: int)
    requires pf != 7 && AllIntVars(store, refs) && 0 <= i < |refs|
    ensures IntVarRecords(store, refs, pf)[i] == IvarRecord(store(refs[i]).iv, NatToString(i + 1), pf)
  {
    var n := |refs| - 1;
    assert AllIntVars(store, refs[..n]);
    if i < n {
      IntVarRecordsAt(store, refs[..n], pf, i);
      assert refs[..n][i] == refs[i];
    }
  }

  /** One more IntVar: its record, at index i + 1, follows those before it. */
  lemma IntVarRecordsSnoc(store: Store, refs: seq<Ref>, pf: int, i: nat)
    requires pf != 7 && i < |refs| && AllIntVars(store, refs[..i]) && IsIntVar(store, refs[i])
    ensures AllIntVars(store, refs[..i + 1])
    ensures IntVarRecords(store, refs[..i + 1], pf) ==
      IntVarRecords(store, refs[..i], pf) + [IvarRecord(store(refs[i]).iv, NatToString(i + 1), pf)]
  {
    assert refs[..i + 1][..i] == refs[..i] && refs[..i + 1][i] == refs[i];
  }

  /** Printing two runs of records one after another appends them. */
  lemma Append2<T>(o: seq<T>, a: seq<T>, b: seq<T>)
    ensures o + a + b == o + (a + b)
  {
  }

  /** What a run of writes leaves: the records, and whether it ended in an exception. */
  datatype Emitted = Emitted(records: seq<VizRecord>, outcome: Outcome)

  /** Position of the first variable that is not an IntVar, |refs| when there is none. */
  function FirstNonInt(store: Store, refs: seq<Ref>): (k: nat)
    ensures k <= |refs| && AllIntVars(store, refs[..k])
    ensures k < |refs| ==> !IsIntVar(store, refs[k])
  {
    if refs == [] then 0
    else if !IsIntVar(store, refs[0]) then 0
    else
      var k := FirstNonInt(store, refs[1..]);
      assert refs[..k + 1] == [refs[0]] + refs[1..][..k];
      k + 1
  }

  /** The first non-IntVar is the one a left-to-right scan stops at. */
  lemma {:induction false} FirstNonIntAt(store: Store, refs: seq<Ref>, i: nat)
    requires i <= |refs| && AllIntVars(store, refs[..i])
    requires i < |refs| ==> !IsIntVar(store, refs[i])
    ensures FirstNonInt(store, refs) == i
  {
    var k := FirstNonInt(store, refs);
    assert forall j :: 0 <= j < i ==> IsIntVar(store, refs[j]) by {
      forall j | 0 <= j < i ensures IsIntVar(store, refs[j]) {
        assert refs[..i][j] == refs[j];
      }
    }
    assert forall j :: 0 <= j < k ==> IsIntVar(store, refs[j]) by {
      forall j | 0 <= j < k ensures IsIntVar(store, refs[j]) {
        assert refs[..k][j] == refs[j];
      }
    }
  }

  /** var over each element: IntVars go to ivar until a SetVar or another
      variable raises; what was printed before the raise stays printed. */
  function VarRecords(store: Store, refs: seq<Ref>, pf: int): (r: Emitted)
    requires pf != 7
    ensures r.outcome.Pass? <==> AllIntVars(store, refs)
    ensures r.outcome.Pass? ==> r.records == IntVarRecords(store, refs, pf)
    ensures r.outcome.Fail? ==>
      r.outcome.error == UnsupportedOperation &&
      r.records == IntVarRecords(store, refs[..FirstNonInt(store, refs)], pf)
  {
    var k := FirstNonInt(store, refs);
    if k == |refs| then
      assert refs[..k] == refs;
      Emitted(IntVarRecords(store, refs, pf), Pass)
    else
      Emitted(IntVarRecords(store, refs[..k], pf), Outcome.Fail(UnsupportedOperation))
  }

  /** Runs b after a, unless a already raised: then b never happens. */
  function Then(a: Emitted, b: Emitted): (r: Emitted)
    ensures r.outcome.Pass? <==> a.outcome.Pass? && b.outcome.Pass?
    ensures a.outcome.Fail? ==> r == a
    ensures a.outcome.Pass? ==> r.records == a.records + b.records && r.outcome == b.outcome
  {
    if a.outcome.Fail? then a else Emitted(a.records + b.records, b.outcome)
  }

  /** What the first print wrote stays written, and the second adds at most
      its own lines. */
  lemma ThenKeepsWritten(a: Emitted, b: Emitted)
    ensures a.records <= Then(a, b).records
    ensures |Then(a, b).records| <= |a.records| + |b.records|
  {
  }

  /** Chaining prints is associative and the empty, passing print is its
      unit: how a run of prints is grouped does not change what it writes. */
  lemma ThenMonoid(a: Emitted, b: Emitted, c: Emitted)
    ensures Then(Then(a, b), c) == Then(a, Then(b, c))
    ensures Then(Emitted([], Pass), a) == a && Then(a, Emitted([], Pass)) == a
  {
    if a.outcome.Pass? {
      if b.outcome.Pass? {
        Append2(a.records, b.records, c.records);
      }
      assert a.records + [] == a.records;
    }
    assert [] + a.records == a.records;
  }

  /** Focus and failed lines, the annotations a renderer adds to its records. */
  predicate IsMark(r: VizRecord) {
    r.FocusRec? || r.FailedRec?
  }

  /** The annotations among some records, in order. */
  function Marks(rs: seq<VizRecord>): (m: seq<VizRecord>)
    ensures |m| <= |rs|
  {
    if rs == [] then []
    else Marks(rs[..|rs| - 1]) + (if IsMark(rs[|rs| - 1]) then [rs[|rs| - 1]] else [])
  }

  lemma {:induction false} MarksAppend(a: seq<VizRecord>, b: seq<VizRecord>)
    ensures Marks(a + b) == Marks(a) + Marks(b)
    decreases |b|
  {
    if b != [] {
      var n := |b| - 1;
      assert (a + b)[..|a + b| - 1] == a + b[..n];
      MarksAppend(a, b[..n]);
    } else {
      assert a + b == a;
    }
  }

  /** Variable, integer and scope records carry no annotation. */
  lemma {:induction false} NoMarks(rs: seq<VizRecord>)
    requires forall i :: 0 <= i < |rs| ==> !IsMark(rs[i])
    ensures Marks(rs) == []
  {
    if rs != [] {
      NoMarks(rs[..|rs| - 1]);
    }
  }

  /** The indices of the argument scopes opened among some records, in order. */
  function Arguments(rs: seq<VizRecord>): (a: seq<string>)
    ensures |a| <= |rs|
  {
    if rs == [] then []
    else Arguments(rs[..|rs| - 1]) + (if rs[|rs| - 1].ArgumentIn? then [rs[|rs| - 1].index] else [])
  }

  lemma {:induction false} ArgumentsAppend(a: seq<VizRecord>, b: seq<VizRecord>)
    ensures Arguments(a + b) == Arguments(a) + Arguments(b)
    decreases |b|
  {
    if b != [] {
      var n := |b| - 1;
      assert (a + b)[..|a + b| - 1] == a + b[..n];
      ArgumentsAppend(a, b[..n]);
    } else {
      assert a + b == a;
    }
  }

  /** Records that neither annotate nor open an argument: what ivar, integer
      and array write. */
  predicate Plain(rs: seq<VizRecord>) {
    forall i :: 0 <= i < |rs| ==> !IsMark(rs[i]) && !rs[i].ArgumentIn?
  }

  lemma {:induction false} PlainFilters(rs: seq<VizRecord>)
    requires Plain(rs)
    ensures Marks(rs) == [] && Arguments(rs) == []
  {
    if rs != [] {
      PlainFilters(rs[..|rs| - 1]);
    }
  }

  lemma FiltersSingle(r: VizRecord)
    ensures Marks([r]) == if IsMark(r) then [r] else []
    ensures Arguments([r]) == if r.ArgumentIn? then [r.index] else []
  {
    assert [r][..0] == [];
  }

  /** Annotations alone: all marks, no argument. */
  lemma {:induction false} MarksOnly(m: seq<VizRecord>)
    requires forall i :: 0 <= i < |m| ==> IsMark(m[i])
    ensures Marks(m) == m && Arguments(m) == []
  {
    if m != [] {
      var n := |m| - 1;
      MarksOnly(m[..n]);
      assert m == m[..n] + [m[n]];
    }
  }

  /** An argument scope at level pf around some records. */
  function Scoped(pf: int, index: string, body: seq<VizRecord>): seq<VizRecord>
    requires pf != 7
  {
    [ArgumentIn(Indent(pf), index)] + body + [ArgumentOut(Indent(pf))]
  }

  /** A scope around plain records opens exactly its own argument and
      annotates nothing. */
  lemma ScopedFilters(pf: int, index: string, body: seq<VizRecord>)
    requires pf != 7 && Plain(body)
    ensures Arguments(Scoped(pf, index, body)) == [index]
    ensures Marks(Scoped(pf, index, body)) == []
  {
    var a, c := ArgumentIn(Indent(pf), index), ArgumentOut(Indent(pf));
    FiltersSingle(a);
    FiltersSingle(c);
    PlainFilters(body);
    ArgumentsAppend([a], body);
    ArgumentsAppend([a] + body, [c]);
    MarksAppend([a], body);
    MarksAppend([a] + body, [c]);
  }

  lemma IntVarRecordsPlain(store: Store, refs: seq<Ref>, pf: int)
    requires pf != 7 && AllIntVars(store, refs)
    ensures Plain(IntVarRecords(store, refs, pf))
  {
    forall i | 0 <= i < |refs| {
      IntVarRecordsAt(store, refs, pf, i);
    }
  }

  lemma ValueRecordsPlain(values: seq<int>, pf: int)
    requires pf != 7
    ensures Plain(ValueRecords(values, pf))
  {
    forall i | 0 <= i < |values| {
      ValueRecordsAt(values, pf, i);
    }
  }

  /** array: one integer record per value, indexed from "1". */
  function ValueRecords(values: seq<int>, pf: int): (r: seq<VizRecord>)
    requires pf != 7
    ensures |r| == |values|
  {
    if values == [] then []
    else ValueRecords(values[..|values| - 1], pf) + [IntegerRec(Indent(pf), NatToString(|values|), values[|values| - 1])]
  }

  /** The i-th record (from 0) holds the i-th value, at index i + 1. */
  lemma {:induction false} ValueRecordsAt(values: seq<int>, pf: int, i: int)
    requires pf != 7 && 0 <= i < |values|
    ensures ValueRecords(values, pf)[i] == IntegerRec(Indent(pf), NatToString(i + 1), values[i])
  {
    var n := |values| - 1;
    if i < n {
      ValueRecordsAt(values[..n], pf, i);
    }
  }

  /** A focus line (when the decision was applied) or a failed line carrying
      the decision's value, always at level 3. */
  function MarkRecord(index: string, group: Option<string>, typ: Option<string>, focus: bool, d: Decision): VizRecord {
    if focus then FocusRec(Indent(3), index, group, typ) else FailedRec(Indent(3), index, group, d.value)
  }

  // ---------------------------------------------------------------------------

  /** Writes records to the snapshot stream. Each method prints its lines and
      nothing else; no nesting is tracked, pairing scopes is the caller's job. */
  class Writer {
    const out: Sink<VizRecord>

    constructor (out: Sink<VizRecord>)
      ensures this.out == out
    {
      this.out := out;
    }

    method Ivar(v: IntVarState, index: string, pf: int)
      requires pf != 7
      modifies out`written
      ensures out.written == old(out.written) + [IvarRecord(v, index, pf)]
    {
      if Instantiated(v.dom) {
        out.Print(IntegerRec(Indent(pf), index, Value(v.dom)));
      } else {
        var st := "";
        match v.dom {
          case Enumerated(vs) =>
            var i := 0;
            while i < |vs|
              invariant 0 <= i <= |vs|
              invariant st == Spaced(vs[..i])
              invariant out.written == old(out.written)
            {
              SpacedSnoc(vs[..i], vs[i]);
              assert vs[..i + 1] == vs[..i] + [vs[i]];
              st := st + IntToString(vs[i]) + " ";
              i := i + 1;
            }
            assert vs[..i] == vs;
          case Bounded(lb, ub) =>
            st := IntToString(lb) + " .. " + IntToString(ub);
        }
        assert st == DomainString(v.dom);
        out.Print(DvarRec(Indent(pf), index, st));
      }
    }

    method Var(store: Store, r: Ref, index: string, pf: int) returns (o: Outcome)
      requires pf != 7
      modifies out`written
      ensures o.Pass? <==> IsIntVar(store, r)
      ensures o.Fail? ==> o.error == UnsupportedOperation
      ensures out.written == old(out.written) + if IsIntVar(store, r) then [IvarRecord(store(r).iv, index, pf)] else []
    {
      match store(r)
      case IntV(iv) =>
        Ivar(iv, index, pf);
        o := Pass;
      case SetV(_, _) =>
        // svar: SetVar output is not implemented and always raises
        o := Outcome.Fail(UnsupportedOperation);
      case OtherV(_) =>
        o := Outcome.Fail(UnsupportedOperation);
    }

    method Integer(value: int, index: string, pf: int)
      requires pf != 7
      modifies out`written
      ensures out.written == old(out.written) + [IntegerRec(Indent(pf), index, value)]
    {
      out.Print(IntegerRec(Indent(pf), index, value));
    }

    /** arrayDvar(IntVar[]) */
    method ArrayDvarInts(store: Store, refs: seq<Ref>, pf: int)
      requires pf != 7 && AllIntVars(store, refs)
      modifies out`written
      ensures out.written == old(out.written) + IntVarRecords(store, refs, pf)
    {
      var i := 0;
      while i < |refs|
        invariant 0 <= i <= |refs|
        invariant out.written == old(out.written) + IntVarRecords(store, refs[..i], pf)
      {
        assert refs[..i + 1][..i] == refs[..i];
        Ivar(store(refs[i]).iv, NatToString(i + 1), pf);
        i := i + 1;
      }
      assert refs[..i] == refs;
    }

    /** arrayDvar(Variable[]): stops at the first variable var() rejects. */
    method ArrayDvarVars(store: Store, refs: seq<Ref>, pf: int) returns (o: Outcome)
      requires pf != 7
      modifies out`written
      ensures out.written == old(out.written) + VarRecords(store, refs, pf).records
      ensures o == VarRecords(store, refs, pf).outcome
    {
      var i := 0;
      while i < |refs|
        invariant 0 <= i <= |refs| && AllIntVars(store, refs[..i])
        invariant out.written == old(out.written) + IntVarRecords(store, refs[..i], pf)
      {
        o := Var(store, refs[i], NatToString(i + 1), pf);
        if o.Fail? {
          FirstNonIntAt(store, refs, i);
          return;
        }
        IntVarRecordsSnoc(store, refs, pf, i);
        Append2(old(out.written), IntVarRecords(store, refs[..i], pf), [IvarRecord(store(refs[i]).iv, NatToString(i + 1), pf)]);
        i := i + 1;
      }
      assert refs[..i] == refs;
      FirstNonIntAt(store, refs, i);
      o := Pass;
    }

    /** array(int[]) */
    method Array(values: seq<int>, pf: int)
      requires pf != 7
      modifies out`written
      ensures out.written == old(out.written) + ValueRecords(values, pf)
    {
      var i := 0;
      while i < |values|
        invariant 0 <= i <= |values|
        invariant out.written == old(out.written) + ValueRecords(values[..i], pf)
      {
        assert values[..i + 1][..i] == values[..i];
        out.Print(IntegerRec(Indent(pf), NatToString(i + 1), values[i]));
        i := i + 1;
      }
      assert values[..i] == values;
    }

    method ArgumentIn(index: string, pf: int)
      requires pf != 7
      modifies out`written
      ensures out.written == old(out.written) + [VizRecord.ArgumentIn(Indent(pf), index)]
    {
      out.Print(VizRecord.ArgumentIn(Indent(pf), index));
    }

    method ArgumentOut(pf: int)
      requires pf != 7
      modifies out`written
      ensures out.written == old(out.written) + [VizRecord.ArgumentOut(Indent(pf))]
    {
      out.Print(VizRecord.ArgumentOut(Indent(pf)));
    }

    method TupleIn(index: string, pf: int)
      requires pf != 7
      modifies out`written
      ensures out.written == old(out.written) + [VizRecord.TupleIn(Indent(pf), index)]
    {
      out.Print(VizRecord.TupleIn(Indent(pf), index));
    }

    method TupleOut(pf: int)
      requires pf != 7
      modifies out`written
      ensures out.written == old(out.written) + [VizRecord.TupleOut(Indent(pf))]
    {
      out.Print(VizRecord.TupleOut(Indent(pf)));
    }

    method CollectionIn(index: string, pf: int)
      requires pf != 7
      modifies out`written
      ensures out.written == old(out.written) + [VizRecord.CollectionIn(Indent(pf), index)]
    {
      out.Print(VizRecord.CollectionIn(Indent(pf), index));
    }

    method CollectionOut(pf: int)
      requires pf != 7
      modifies out`written
      ensures out.written == old(out.written) + [VizRecord.CollectionOut(Indent(pf))]
    {
      out.Print(VizRecord.CollectionOut(Indent(pf)));
    }

    /** focus(idx, group, type) */
    method FocusTyped(index: string, group: Option<string>, typ: string)
      modifies out`written
      ensures out.written == old(out.written) + [FocusRec(Indent(3), index, group, Some(typ))]
    {
      out.Print(FocusRec(Indent(3), index, group, Some(typ)));
    }

    /** focus(idx, group) */
    method FocusUntyped(index: string, group: Option<string>)
      modifies out`written
      ensures out.written == old(out.written) + [FocusRec(Indent(3), index, group, None)]
    {
      out.Print(FocusRec(Indent(3), index, group, None));
    }

    /** fail(idx, group, value) */
    method Fail(index: string, group: Option<string>, value: int)
      modifies out`written
      ensures out.written == old(out.written) + [FailedRec(Indent(3), index, group, value)]
    {
      out.Print(FailedRec(Indent(3), index, group, value));
    }

    /** Focus or fail for the decided variable, as every renderer writes it. */
    method Mark(index: string, group: Option<string>, typ: Option<string>, focus: bool, d: Decision)
      modifies out`written
      ensures out.written == old(out.written) + [MarkRecord(index, group, typ, focus, d)]
    {
      if focus {
        if typ.Some? {
          FocusTyped(index, group, typ.value);
        } else {
          FocusUntyped(index, group);
        }
      } else {
        Fail(index, group, d.value);
      }
    }
  }
}
