/** The recorder's bookkeeping (Visualization.java) as a function of the
    solver callbacks it receives: the node and state counters, the failure
    flag, the backtrackable parent cell, the tree records written and the
    snapshots requested. The class Recorder.Visualization is proved to
    follow these functions. */
module Trace {

  import opened Base
  import opened Decimal
  import opened Values

  /** The size field of a node record: Integer.toString of a known size, or
      "?". */
  datatype Size = Known(n: int) | Unknown

  function SizeText(z: Size): string {
    match z
    case Known(n) => IntToString(n)
    case Unknown => "?"
  }

  /** One line of the tree stream. */
  datatype TreeRecord =
    | TreeHeader
    | TreeIn
    | TreeOut
    | Root
    | Try(id: int, parent: int, name: string, size: Size, value: int)
    | Failed(id: int, parent: int, name: string, size: Size, value: int)
    | Succ(id: int)

  // ---------------------------------------------------------------------------
  // The parent cell

  /** The backtrackable long the solver's environment hands out: its current
      value, and the value it had when each open world was pushed, innermost
      last. */
  datatype Cell = Cell(value: int, saved: seq<int>)

  /** set(v) */
  function Set(c: Cell, v: int): (r: Cell)
    ensures r.value == v && r.saved == c.saved
  {
    Cell(v, c.saved)
  }

  /** The environment opens a world. */
  function Push(c: Cell): (r: Cell)
    ensures r.value == c.value && r.saved == c.saved + [c.value]
  {
    Cell(c.value, c.saved + [c.value])
  }

  /** The environment backtracks: the value the cell had when the innermost
      world opened comes back. With no open world there is nothing to
      restore. */
  function Pop(c: Cell): (r: Cell)
    ensures c.saved != [] ==> r.value == c.saved[|c.saved| - 1] && r.saved == c.saved[..|c.saved| - 1]
    ensures c.saved == [] ==> r == c
  {
    if c.saved == [] then c else Cell(c.saved[|c.saved| - 1], c.saved[..|c.saved| - 1])
  }

  /** Whatever is set inside a world is undone when the world is popped. */
  lemma PopUndoesSet(c: Cell, v: int)
    ensures Pop(Set(Push(c), v)) == c
  {
    assert (c.saved + [c.value])[..|c.saved|] == c.saved;
  }

  // ---------------------------------------------------------------------------
  // Counters and events

  /** node_id, state_id, hasFailed and parent_id. */
  datatype Counters = Counters(nodeId: int, stateId: int, hasFailed: bool, parent: Cell)

  /** The counters of a freshly built recorder: node_id is -1, state_id 0 and
      the parent cell a new long of value 0. */
  const Initial: Counters := Counters(-1, 0, false, Cell(0, []))

  /** A call of printVisualizerStat(s_id, n_id, focus, decision). */
  datatype Request = Request(stateId: int, nodeId: int, focus: bool, decision: Option<Decision>)

  /** The solver's callbacks, and the environment's world operations on the
      parent cell. A down branch carries the last decision and the Label of
      the variable it branches on, as node() computes it. */
  datatype Event =
    | BeforeInit
    | AfterInit
    | DownBranch(d: Decision, name: string, size: Size)
    | Contradiction
    | Solution
    | WorldPush
    | WorldPop

  /** Which streams are open: tree != null, and visualization != null with a
      renderer list to walk. */
  datatype Streams = Streams(tree: bool, snapshots: bool)

  /** What one or more events produce. */
  datatype Out = Out(counters: Counters, tree: seq<TreeRecord>, requests: seq<Request>)

  /** The name and size node() writes for the decision's variable: the
      variable's name and domain size for an IntVar, its name and envelope
      size for a SetVar, its text and "?" otherwise. */
  function Label(bo: Variable): (string, Size) {
    match bo
    case IntV(iv) => (iv.name, Known(DomainSize(iv.dom)))
    case SetV(name, size) => (name, Known(size))
    case OtherV(text) => (text, Unknown)
  }

  /** An event up to and including its snapshot request: a snapshot that
      raises leaves the recorder here. */
  function Before(c: Counters, e: Event, s: Streams): Out {
    match e
    case BeforeInit =>
      Out(Counters(0, 1, c.hasFailed, Set(c.parent, 0)),
          if s.tree then [Root] else [],
          if s.snapshots then [Request(1, -1, false, None)] else [])
    case AfterInit =>
      Out(c, [], if s.snapshots then [Request(c.stateId, 0, false, None)] else [])
    case DownBranch(d, name, size) =>
      var n := c.nodeId + 1;
      if !s.tree then Out(c.(nodeId := n), [], [])
      else
        var rec := if c.hasFailed then Failed(n, c.parent.value, name, size, d.value)
                   else Try(n, c.parent.value, name, size, d.value);
        var c' := c.(nodeId := n, hasFailed := false);
        Out(c', [rec], if s.snapshots then [Request(c.stateId, n, !c'.hasFailed, Some(d))] else [])
    case Contradiction => Out(c.(hasFailed := true), [], [])
    case Solution => Out(c, if s.tree then [Succ(c.nodeId)] else [], [])
    case WorldPush => Out(c.(parent := Push(c.parent)), [], [])
    case WorldPop => Out(c.(parent := Pop(c.parent)), [], [])
  }

  /** What an event does after its snapshot has been printed. */
  function After(c: Counters, e: Event, s: Streams): Counters {
    match e
    case BeforeInit => c.(stateId := c.stateId + 1)
    case AfterInit => c.(stateId := c.stateId + 1)
    case DownBranch(_, _, _) =>
      var c' := if s.tree then c.(hasFailed := false, parent := Set(c.parent, c.nodeId)) else c;
      c'.(stateId := c.stateId + 1)
    case _ => c
  }

  /** One event, every snapshot printing in full. */
  function Step(c: Counters, e: Event, s: Streams): Out {
    var b := Before(c, e, s);
    Out(After(b.counters, e, s), b.tree, b.requests)
  }

  /** y after x: y's counters, x's records then y's. */
  function Join(x: Out, y: Out): (r: Out)
    ensures r.counters == y.counters && r.tree == x.tree + y.tree && r.requests == x.requests + y.requests
  {
    Out(y.counters, x.tree + y.tree, x.requests + y.requests)
  }

  lemma JoinAssociative(x: Out, y: Out, z: Out)
    ensures Join(Join(x, y), z) == Join(x, Join(y, z))
  {
    assert x.tree + y.tree + z.tree == x.tree + (y.tree + z.tree);
    assert x.requests + y.requests + z.requests == x.requests + (y.requests + z.requests);
  }

  /** A run of events, every snapshot printing in full. */
  function Run(c: Counters, es: seq<Event>, s: Streams): Out {
    if es == [] then Out(c, [], [])
    else
      var r := Run(c, es[..|es| - 1], s);
      Join(r, Step(r.counters, es[|es| - 1], s))
  }

  /** Running a then b is running a, then b from where a left off. */
  lemma {:induction false} RunAppend(c: Counters, a: seq<Event>, b: seq<Event>, s: Streams)
    ensures Run(c, a + b, s) == Join(Run(c, a, s), Run(Run(c, a, s).counters, b, s))
  {
    var ra := Run(c, a, s);
    if b == [] {
      assert a + b == a;
      assert Join(ra, Out(ra.counters, [], [])) == ra;
    } else {
      var n := |b| - 1;
      assert (a + b)[..|a + b| - 1] == a + b[..n];
      assert (a + b)[|a + b| - 1] == b[n];
      RunAppend(c, a, b[..n], s);
      var rb := Run(ra.counters, b[..n], s);
      JoinAssociative(ra, rb, Step(rb.counters, b[n], s));
    }
  }

  lemma RunOne(c: Counters, e: Event, s: Streams)
    ensures Run(c, [e], s) == Step(c, e, s)
  {
    assert [e][..0] == [];
    var t := Step(c, e, s);
    assert [] + t.tree == t.tree && [] + t.requests == t.requests;
  }

  lemma RunTwo(c: Counters, e1: Event, e2: Event, s: Streams)
    ensures Run(c, [e1, e2], s) == Join(Step(c, e1, s), Step(Step(c, e1, s).counters, e2, s))
  {
    assert [e1, e2][..1] == [e1];
    RunOne(c, e1, s);
  }

  // ---------------------------------------------------------------------------
  // Initialisation

  /** beforeInitialize then afterInitialize: node 0 with parent 0, the root
      record, state 1 for tree node -1 and state 2 for tree node 0, and
      state_id left at 3. */
  lemma InitSequence(c: Counters, s: Streams)
    ensures Run(c, [BeforeInit, AfterInit], s).counters.nodeId == 0
    ensures Run(c, [BeforeInit, AfterInit], s).counters.parent.value == 0
    ensures Run(c, [BeforeInit, AfterInit], s).counters.stateId == 3
    ensures Run(c, [BeforeInit, AfterInit], s).tree == if s.tree then [Root] else []
    ensures Run(c, [BeforeInit, AfterInit], s).requests ==
      if s.snapshots then [Request(1, -1, false, None), Request(2, 0, false, None)] else []
  {
    RunTwo(c, BeforeInit, AfterInit, s);
    var t1 := Step(c, BeforeInit, s);
    var t2 := Step(t1.counters, AfterInit, s);
    assert t1.counters.stateId == 2 && t2.tree == [];
    assert t1.tree + [] == t1.tree;
  }

  // ---------------------------------------------------------------------------
  // Down branches

  /** A down branch raises node_id and state_id by exactly one, whether or
      not the tree stream is open. */
  lemma DownBranchCounts(c: Counters, d: Decision, name: string, size: Size, s: Streams)
    ensures Step(c, DownBranch(d, name, size), s).counters.nodeId == c.nodeId + 1
    ensures Step(c, DownBranch(d, name, size), s).counters.stateId == c.stateId + 1
  {
  }

  /** With a tree stream, the node record names the new node and the parent
      the cell holds at that moment; afterwards the cell holds the new node
      and the flag is clear. The snapshot carries the state id before the
      increment, the new node, and focus true even after a failure. */
  lemma DownBranchRecord(c: Counters, d: Decision, name: string, size: Size, s: Streams)
    requires s.tree
    ensures |Step(c, DownBranch(d, name, size), s).tree| == 1
    ensures Step(c, DownBranch(d, name, size), s).tree[0].Failed? <==> c.hasFailed
    ensures Step(c, DownBranch(d, name, size), s).tree[0].Try? <==> !c.hasFailed
    ensures Step(c, DownBranch(d, name, size), s).tree[0].id == c.nodeId + 1
    ensures Step(c, DownBranch(d, name, size), s).tree[0].parent == c.parent.value
    ensures Step(c, DownBranch(d, name, size), s).tree[0].value == d.value
    ensures Step(c, DownBranch(d, name, size), s).counters.parent.value == c.nodeId + 1
    ensures !Step(c, DownBranch(d, name, size), s).counters.hasFailed
    ensures Step(c, DownBranch(d, name, size), s).requests ==
      if s.snapshots then [Request(c.stateId, c.nodeId + 1, true, Some(d))] else []
  {
  }

  /** Without a tree stream, node() writes nothing, asks for no snapshot and
      leaves the parent cell and the flag as they were. */
  lemma DownBranchWithoutTree(c: Counters, d: Decision, name: string, size: Size, s: Streams)
    requires !s.tree
    ensures Step(c, DownBranch(d, name, size), s).tree == []
    ensures Step(c, DownBranch(d, name, size), s).requests == []
    ensures Step(c, DownBranch(d, name, size), s).counters.parent == c.parent
    ensures Step(c, DownBranch(d, name, size), s).counters.hasFailed == c.hasFailed
  {
  }

  /** The size field: domain size of an IntVar, envelope size of a SetVar,
      "?" for anything else. */
  lemma LabelSize(bo: Variable)
    ensures bo.IntV? ==> Label(bo).0 == bo.iv.name && SizeText(Label(bo).1) == IntToString(DomainSize(bo.iv.dom))
    ensures bo.SetV? ==> Label(bo).0 == bo.name && SizeText(Label(bo).1) == IntToString(bo.envelopeSize)
    ensures bo.OtherV? ==> Label(bo).0 == bo.text && SizeText(Label(bo).1) == "?"
  {
  }

  /** Events of the search, after initialisation. */
  predicate SearchEvent(e: Event) {
    !e.BeforeInit? && !e.AfterInit?
  }

  /** Every event is a search event. */
  predicate AllSearch(es: seq<Event>) {
    es == [] || (AllSearch(es[..|es| - 1]) && SearchEvent(es[|es| - 1]))
  }

  /** The number of down branches. */
  function Branches(es: seq<Event>): (n: nat)
    ensures n <= |es|
  {
    if es == [] then 0 else Branches(es[..|es| - 1]) + (if es[|es| - 1].DownBranch? then 1 else 0)
  }

  /** The ids of the node records, in order. */
  function NodeIds(ts: seq<TreeRecord>): seq<int> {
    if ts == [] then []
    else NodeIds(ts[..|ts| - 1]) + (if ts[|ts| - 1].Try? || ts[|ts| - 1].Failed? then [ts[|ts| - 1].id] else [])
  }

  lemma {:induction false} NodeIdsAppend(a: seq<TreeRecord>, b: seq<TreeRecord>)
    ensures NodeIds(a + b) == NodeIds(a) + NodeIds(b)
  {
    if b != [] {
      var n := |b| - 1;
      assert (a + b)[..|a + b| - 1] == a + b[..n];
      NodeIdsAppend(a, b[..n]);
    } else {
      assert a + b == a;
    }
  }

  /** first, first + 1, ..., first + n - 1 */
  function Consecutive(first: int, n: nat): (r: seq<int>)
    ensures |r| == n
  {
    if n == 0 then [] else Consecutive(first, n - 1) + [first + n - 1]
  }

  lemma {:induction false} ConsecutiveAt(first: int, n: nat, i: nat)
    requires i < n
    ensures Consecutive(first, n)[i] == first + i
  {
    if i < n - 1 {
      ConsecutiveAt(first, n - 1, i);
    }
  }

  /** One search event: a down branch numbers the next node and moves to
      the next state; the others leave both counters alone. */
  lemma SearchStep(c: Counters, e: Event, s: Streams)
    requires SearchEvent(e)
    ensures Step(c, e, s).counters.nodeId == c.nodeId + (if e.DownBranch? then 1 else 0)
    ensures Step(c, e, s).counters.stateId == c.stateId + (if e.DownBranch? then 1 else 0)
    ensures NodeIds(Step(c, e, s).tree) == if s.tree && e.DownBranch? then [c.nodeId + 1] else []
  {
    var t := Step(c, e, s).tree;
    assert t == [] || |t| == 1;
    if |t| == 1 {
      assert t[..0] == [];
    }
  }

  /** During search, each down branch raises node_id and state_id by one,
      whether or not the tree stream is open. */
  lemma {:induction false} SearchCounters(c: Counters, es: seq<Event>, s: Streams)
    requires AllSearch(es)
    ensures Run(c, es, s).counters.nodeId == c.nodeId + Branches(es)
    ensures Run(c, es, s).counters.stateId == c.stateId + Branches(es)
  {
    if es != [] {
      var n := |es| - 1;
      SearchCounters(c, es[..n], s);
      SearchStep(Run(c, es[..n], s).counters, es[n], s);
    }
  }

  /** Appending one numbered node (or none) to a consecutive numbering. */
  lemma NodeIdsExtend(prev: seq<TreeRecord>, t: seq<TreeRecord>, first: int, k: nat, branch: bool)
    requires NodeIds(prev) == Consecutive(first, k)
    requires NodeIds(t) == if branch then [first + k] else []
    ensures NodeIds(prev + t) == Consecutive(first, k + if branch then 1 else 0)
  {
    NodeIdsAppend(prev, t);
    if !branch {
      assert NodeIds(prev) + [] == NodeIds(prev);
    }
  }

  /** One more search event keeps a consecutive numbering consecutive. */
  lemma SearchExtend(prev: Out, e: Event, s: Streams, first: int, k: nat)
    requires SearchEvent(e) && s.tree
    requires NodeIds(prev.tree) == Consecutive(first, k)
    requires prev.counters.nodeId + 1 == first + k
    ensures NodeIds(Join(prev, Step(prev.counters, e, s)).tree) == Consecutive(first, k + if e.DownBranch? then 1 else 0)
  {
    SearchStep(prev.counters, e, s);
    NodeIdsExtend(prev.tree, Step(prev.counters, e, s).tree, first, k, e.DownBranch?);
  }

  /** So the node records of a search are numbered consecutively from the
      node after the current one. */
  lemma {:induction false} SearchNodeIds(c: Counters, es: seq<Event>, s: Streams)
    requires AllSearch(es)
    requires s.tree
    ensures NodeIds(Run(c, es, s).tree) == Consecutive(c.nodeId + 1, Branches(es))
  {
    if es != [] {
      var n := |es| - 1;
      SearchNodeIds(c, es[..n], s);
      SearchCounters(c, es[..n], s);
      SearchExtend(Run(c, es[..n], s), es[n], s, c.nodeId + 1, Branches(es[..n]));
    }
  }

  /** Every snapshot asked for at a node has focus true: the flag is cleared
      before !hasFailed is read. */
  lemma {:induction false} NodeSnapshotsFocused(c: Counters, es: seq<Event>, s: Streams, i: nat)
    requires i < |Run(c, es, s).requests| && Run(c, es, s).requests[i].decision.Some?
    ensures Run(c, es, s).requests[i].focus
  {
    if es != [] {
      var n := |es| - 1;
      var r := Run(c, es[..n], s);
      if i < |r.requests| {
        NodeSnapshotsFocused(c, es[..n], s, i);
      }
    }
  }

  // ---------------------------------------------------------------------------
  // Contradictions, solutions

  /** k contradictions in a row. */
  function Contradictions(k: nat): (es: seq<Event>)
    ensures |es| == k && forall i :: 0 <= i < k ==> es[i] == Contradiction
  {
    if k == 0 then [] else Contradictions(k - 1) + [Contradiction]
  }

  /** A contradiction only raises the flag. */
  lemma {:induction false} ContradictionsRaiseFlag(c: Counters, k: nat, s: Streams)
    requires k > 0
    ensures Run(c, Contradictions(k), s) == Out(c.(hasFailed := true), [], [])
  {
    if k > 1 {
      ContradictionsRaiseFlag(c, k - 1, s);
    } else {
      assert Contradictions(1)[..0] == [];
    }
    assert Contradictions(k)[..k - 1] == Contradictions(k - 1);
  }

  /** However many contradictions come between two down branches, the first
      one yields one Fail record and the second a Try record again. */
  lemma ContradictionsCollapse(c: Counters, k: nat, d1: Decision, n1: string, z1: Size, d2: Decision, n2: string, z2: Size, s: Streams)
    requires k > 0 && s.tree
    ensures |Run(c, Contradictions(k) + [DownBranch(d1, n1, z1), DownBranch(d2, n2, z2)], s).tree| == 2
    ensures Run(c, Contradictions(k) + [DownBranch(d1, n1, z1), DownBranch(d2, n2, z2)], s).tree[0].Failed?
    ensures Run(c, Contradictions(k) + [DownBranch(d1, n1, z1), DownBranch(d2, n2, z2)], s).tree[1].Try?
  {
    var es := [DownBranch(d1, n1, z1), DownBranch(d2, n2, z2)];
    RunAppend(c, Contradictions(k), es, s);
    ContradictionsRaiseFlag(c, k, s);
    var c1 := c.(hasFailed := true);
    RunTwo(c1, DownBranch(d1, n1, z1), DownBranch(d2, n2, z2), s);
    var t1 := Step(c1, DownBranch(d1, n1, z1), s);
    DownBranchRecord(c1, d1, n1, z1, s);
    DownBranchRecord(t1.counters, d2, n2, z2, s);
    assert [] + (t1.tree + Step(t1.counters, DownBranch(d2, n2, z2), s).tree) ==
      t1.tree + Step(t1.counters, DownBranch(d2, n2, z2), s).tree;
  }

  /** onSolution writes Succ with the current node id and changes no
      counter. */
  lemma SolutionRecord(c: Counters, s: Streams)
    ensures Step(c, Solution, s).counters == c
    ensures Step(c, Solution, s).tree == if s.tree then [Succ(c.nodeId)] else []
    ensures Step(c, Solution, s).requests == []
  {
  }

  // ---------------------------------------------------------------------------
  // Backtracking

  predicate NoWorldOps(es: seq<Event>) {
    forall i :: 0 <= i < |es| ==> !es[i].WorldPush? && !es[i].WorldPop?
  }

  /** The recorder's own events only set the cell; the worlds it saved stay. */
  lemma {:induction false} SavedKept(c: Counters, es: seq<Event>, s: Streams)
    requires NoWorldOps(es)
    ensures Run(c, es, s).counters.parent.saved == c.parent.saved
  {
    if es != [] {
      SavedKept(c, es[..|es| - 1], s);
    }
  }

  /** Backtracking out of a world brings back the parent seen when it was
      opened, whatever nodes were recorded inside it. */
  lemma ParentRestored(c: Counters, es: seq<Event>, s: Streams)
    requires NoWorldOps(es)
    ensures Run(c, [WorldPush] + es + [WorldPop], s).counters.parent == c.parent
  {
    var c1 := c.(parent := Push(c.parent));
    assert [WorldPush][..0] == [];
    RunAppend(c, [WorldPush], es, s);
    RunAppend(c, [WorldPush] + es, [WorldPop], s);
    SavedKept(c1, es, s);
    var p := Run(c1, es, s).counters.parent;
    assert p.saved == c.parent.saved + [c.parent.value];
    assert p.saved[..|p.saved| - 1] == c.parent.saved;
  }
}
