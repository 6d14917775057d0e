/** The base of every renderer (Visualizer.java): its identity, placement and
    the attributes its declaration carries, and print dispatched to the
    renderer it is. */
module Visualizers {

  import opened Base
  import opened Decimal
  import opened Values
  import opened Writing
  import VectorViz
  import DomainMatrixViz
  import ElementViz
  import BoolChannelingViz
  import GccViz
  import CumulativeViz
  import InverseViz
  import LexLtViz
  import BinPackingViz

  /** Integer.MIN_VALUE and Integer.MAX_VALUE. */
  const MinInt: int := -0x8000_0000
  const MaxInt: int := 0x7fff_ffff

  /** A Java int. */
  type Int32 = x: int | MinInt <= x <= MaxInt

  // ---------------------------------------------------------------------------
  // options()

  /** The attributes options() appends, in order: x and y when both are
      placed, the group when there is one, min and max when both differ from
      the int extremes. */
  function Attributes(x: Int32, y: Int32, group: Option<string>, min: Int32, max: Int32): seq<Attr> {
    (if x >= 0 && y >= 0 then [X(x), Y(y)] else []) +
    (if group.Some? then [Group(group.value)] else []) +
    (if min > MinInt && max < MaxInt then [Min(min), Max(max)] else [])
  }

  /** Where each attribute kind comes in options()'s text. */
  function Rank(a: Attr): nat {
    match a
    case X(_) => 0
    case Y(_) => 1
    case Group(_) => 2
    case Min(_) => 3
    case Max(_) => 4
  }

  /** x and y are shown together, and only when both are non-negative. */
  lemma AttributesCoordinates(x: Int32, y: Int32, group: Option<string>, min: Int32, max: Int32)
    ensures X(x) in Attributes(x, y, group, min, max) <==> x >= 0 && y >= 0
    ensures Y(y) in Attributes(x, y, group, min, max) <==> x >= 0 && y >= 0
    ensures forall a :: a in Attributes(x, y, group, min, max) && (a.X? || a.Y?) ==> a == X(x) || a == Y(y)
  {
  }

  /** The group is shown exactly when it is not null, the empty string
      included. */
  lemma AttributesGroup(x: Int32, y: Int32, group: Option<string>, min: Int32, max: Int32, g: string)
    ensures Group(g) in Attributes(x, y, group, min, max) <==> group == Some(g)
  {
  }

  /** min and max are shown together, and only when neither sits at its int
      extreme; nothing compares min with max. */
  lemma AttributesBounds(x: Int32, y: Int32, group: Option<string>, min: Int32, max: Int32)
    ensures Min(min) in Attributes(x, y, group, min, max) <==> min > MinInt && max < MaxInt
    ensures Max(max) in Attributes(x, y, group, min, max) <==> min > MinInt && max < MaxInt
    ensures forall a :: a in Attributes(x, y, group, min, max) && (a.Min? || a.Max?) ==> a == Min(min) || a == Max(max)
  {
  }

  /** Attributes come in the order x, y, group, min, max, each at most once. */
  lemma AttributesOrdered(x: Int32, y: Int32, group: Option<string>, min: Int32, max: Int32)
    ensures forall i, j :: 0 <= i < j < |Attributes(x, y, group, min, max)| ==>
      Rank(Attributes(x, y, group, min, max)[i]) < Rank(Attributes(x, y, group, min, max)[j])
  {
  }

  /** The short constructor's defaults show only the empty group. */
  lemma DefaultAttributes()
    ensures Attributes(-1, -1, Some(""), MinInt, MaxInt) == [Group("")]
  {
  }

  // ---------------------------------------------------------------------------
  // The renderers

  /** Which renderer a visualizer is, with the fields that renderer keeps. */
  datatype Kind =
    | VectorK(vector: VectorViz.VectorData)
    | DomainMatrixK(matrix: DomainMatrixViz.DomainMatrixData)
    | ElementK(element: ElementViz.ElementData)
    | BoolChannelingK(channeling: BoolChannelingViz.BoolChannelingData)
    | GccK(gcc: GccViz.GccData)
    | CumulativeK(cumulative: CumulativeViz.CumulativeData)
    | InverseK(inverse: InverseViz.InverseData)
    | LexLtK(lex: LexLtViz.LexLtData)
    | BinPackingK(packing: BinPackingViz.BinPackingData)

  /** The type tag each renderer passes to the base constructor. */
  function TypeOf(k: Kind): string {
    match k
    case VectorK(_) => VectorViz.TypeName
    case DomainMatrixK(_) => DomainMatrixViz.TypeName
    case ElementK(_) => ElementViz.TypeName
    case BoolChannelingK(_) => BoolChannelingViz.TypeName
    case GccK(_) => GccViz.TypeName
    case CumulativeK(_) => CumulativeViz.TypeName
    case InverseK(_) => InverseViz.TypeName
    case LexLtK(_) => LexLtViz.TypeName
    case BinPackingK(_) => BinPackingViz.TypeName
  }

  /** The Java field types: the IntVar fields of each renderer hold IntVars.
      Vector and DomainMatrix keep plain Variables and check at print time. */
  predicate KindTyped(k: Kind, store: Store) {
    match k
    case VectorK(_) => true
    case DomainMatrixK(_) => true
    case ElementK(e) => ElementViz.Typed(e, store)
    case BoolChannelingK(b) => BoolChannelingViz.Typed(b, store)
    case GccK(g) => GccViz.Typed(g, store)
    case CumulativeK(c) => CumulativeViz.Typed(c, store)
    case InverseK(i) => InverseViz.Typed(i, store)
    case LexLtK(l) => LexLtViz.Typed(l, store)
    case BinPackingK(b) => BinPackingViz.Typed(b, store)
  }

  /** What print(focus, decision) writes for a renderer whose group is
      group, and whether it raises. */
  function Snapshot(k: Kind, group: Option<string>, focus: bool, d: Option<Decision>, store: Store): Emitted
    requires KindTyped(k, store)
  {
    match k
    case VectorK(v) => VectorViz.Output(v, group, focus, d, store)
    case DomainMatrixK(m) => DomainMatrixViz.Output(m, group, focus, d, store)
    case ElementK(e) => Emitted(ElementViz.Output(e, group, focus, d, store), Pass)
    case BoolChannelingK(b) => Emitted(BoolChannelingViz.Output(b, group, focus, d, store), Pass)
    case GccK(g) => GccViz.Output(g, store)
    case CumulativeK(c) => CumulativeViz.Output(c, store)
    case InverseK(i) => Emitted(InverseViz.Output(i, store), Pass)
    case LexLtK(l) => Emitted(LexLtViz.Output(l, store), Pass)
    case BinPackingK(b) => Emitted(BinPackingViz.Output(b, store), Pass)
  }

  /** Only Vector and DomainMatrix (a variable that is not an IntVar) and Gcc
      and Cumulative (a bounds or durations array shorter than the loop)
      can raise; the other renderers always print in full. */
  lemma SnapshotFailures(k: Kind, group: Option<string>, focus: bool, d: Option<Decision>, store: Store)
    requires KindTyped(k, store)
    ensures Snapshot(k, group, focus, d, store).outcome.Fail? ==>
      ((k.VectorK? || k.DomainMatrixK?) && Snapshot(k, group, focus, d, store).outcome.error == UnsupportedOperation) ||
      ((k.GccK? || k.CumulativeK?) && Snapshot(k, group, focus, d, store).outcome.error == IndexOutOfBounds)
  {
    match k {
      case VectorK(v) =>
      case DomainMatrixK(m) =>
        DomainMatrixViz.CellsError(store, m.vars);
      case GccK(g) =>
        GccViz.OutputOutcome(g, store);
      case CumulativeK(c) =>
        CumulativeViz.OutputOutcome(c, store);
      case _ =>
    }
  }

  // ---------------------------------------------------------------------------

  /** A constraint or variable visualizer. */
  class Visualizer {
    var writer: Writer?
    var id: int
    const kind: Kind
    const display: string
    var x: Int32
    var y: Int32
    const width: Int32
    const height: Int32
    var group: Option<string>
    var min: Int32
    var max: Int32

    /** The short constructor: no placement, the empty group and no bounds. */
    constructor Short(kind: Kind, display: string, width: Int32, height: Int32)
      ensures this.kind == kind && this.display == display && this.width == width && this.height == height
      ensures x == -1 && y == -1 && group == Some("") && min == MinInt && max == MaxInt
      ensures writer == null && id == 0
    {
      this.kind := kind;
      this.display := display;
      this.width := width;
      this.height := height;
      x, y := -1, -1;
      group := Some("");
      min, max := MinInt, MaxInt;
      writer := null;
      id := 0;
    }

    constructor (kind: Kind, display: string, x: Int32, y: Int32, width: Int32, height: Int32,
                 group: Option<string>, min: Int32, max: Int32)
      ensures this.kind == kind && this.display == display && this.width == width && this.height == height
      ensures this.x == x && this.y == y && this.group == group && this.min == min && this.max == max
      ensures writer == null && id == 0
    {
      this.kind := kind;
      this.display := display;
      this.x, this.y := x, y;
      this.width, this.height := width, height;
      this.group := group;
      this.min, this.max := min, max;
      writer := null;
      id := 0;
    }

    /** getType() */
    function Type(): string {
      TypeOf(kind)
    }

    /** setId: a null group becomes the id's decimal text; any other group,
        the empty one included, is kept. */
    method SetId(id: int)
      modifies this`id, this`group
      ensures this.id == id
      ensures group == if old(group).None? then Some(IntToString(id)) else old(group)
    {
      this.id := id;
      if group.None? {
        group := Some(IntToString(id));
      }
    }

    method SetWriter(writer: Writer?)
      modifies this`writer
      ensures this.writer == writer
    {
      this.writer := writer;
    }

    method SetXY(x: Int32, y: Int32)
      modifies this`x, this`y
      ensures this.x == x && this.y == y
    {
      this.x, this.y := x, y;
    }

    method SetGroup(group: Option<string>)
      modifies this`group
      ensures this.group == group
    {
      this.group := group;
    }

    /** No check that min <= max. */
    method SetMinMax(min: Int32, max: Int32)
      modifies this`min, this`max
      ensures this.min == min && this.max == max
    {
      this.min, this.max := min, max;
    }

    /** options() */
    function Options(): seq<Attr>
      reads this`x, this`y, this`group, this`min, this`max
    {
      Attributes(x, y, group, min, max)
    }

    /** print(focus, decision), through the renderer this visualizer is; e
        is what it writes. */
    method Print(focus: bool, d: Option<Decision>, store: Store) returns (o: Outcome, ghost e: Emitted)
      requires writer != null && KindTyped(kind, store)
      modifies writer.out`written
      ensures e == Snapshot(kind, group, focus, d, store)
      ensures writer.out.written == old(writer.out.written) + e.records
      ensures o == e.outcome
    {
      e := Snapshot(kind, group, focus, d, store);
      o := Render(writer, kind, group, focus, d, store);
    }
  }

  /** The dispatch print performs: the renderer's own print on the shared
      writer. */
  method Render(w: Writer, k: Kind, group: Option<string>, focus: bool, d: Option<Decision>, store: Store) returns (o: Outcome)
    requires KindTyped(k, store)
    modifies w.out`written
    ensures w.out.written == old(w.out.written) + Snapshot(k, group, focus, d, store).records
    ensures o == Snapshot(k, group, focus, d, store).outcome
  {
    match k
    case VectorK(v) =>
      o := VectorViz.Print(w, v, group, focus, d, store);
    case DomainMatrixK(m) =>
      o := DomainMatrixViz.Print(w, m, group, focus, d, store);
    case ElementK(e) =>
      ElementViz.Print(w, e, group, focus, d, store);
      o := Pass;
    case BoolChannelingK(b) =>
      BoolChannelingViz.Print(w, b, group, focus, d, store);
      o := Pass;
    case GccK(g) =>
      o := GccViz.Print(w, g, store);
    case CumulativeK(c) =>
      o := CumulativeViz.Print(w, c, store);
    case InverseK(i) =>
      InverseViz.Print(w, i, store);
      o := Pass;
    case LexLtK(l) =>
      LexLtViz.Print(w, l, store);
      o := Pass;
    case BinPackingK(b) =>
      BinPackingViz.Print(w, b, store);
      o := Pass;
  }
}
