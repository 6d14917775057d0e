/** The recorder (Visualization.java): the configuration, tree and
    visualization streams, the registered renderers, and the solver callbacks
    that write node records and ask every renderer for a snapshot. Its
    counters follow Trace.Before and Trace.After step for step. */
module Recorder {

  import opened Base
  import opened Decimal
  import opened Values
  import opened Streams
  import opened Writing
  import opened Visualizers
  import Trace

  /** One line of the configuration stream. */
  datatype ConfRecord =
    | ConfIn(dir: string, pbid: string)
    | Tool(show: string, typ: string, display: string, repeat: string, width: int, height: int, file: string)
    | ConfOut

  /** The masks of Show.TREE and Show.VIZ in trace_tools. */
  const TreeMask: int := 1
  const VizMask: int := 2

  /** trace_tools & mask != 0, for a mask that is a power of two. Euclidean
      division by a positive divisor floors, so this reads the same bit as
      Java's & does on a two's-complement int, negative ones included. */
  predicate HasBit(t: int, mask: int)
    requires mask > 0
  {
    (t / mask) % 2 == 1
  }

  /** trace_tools += mask when the bit is clear: the bit becomes set, the
      other mask's bit is left as it was and the sum stays a Java int. */
  lemma AddMask(t: Int32, mask: int)
    requires mask == TreeMask || mask == VizMask
    requires !HasBit(t, mask)
    ensures t + mask <= MaxInt
    ensures HasBit(t + mask, mask)
    ensures mask == TreeMask ==> (HasBit(t + mask, VizMask) <==> HasBit(t, VizMask))
    ensures mask == VizMask ==> (HasBit(t + mask, TreeMask) <==> HasBit(t, TreeMask))
  {
    assert (t + mask) / mask == t / mask + 1;
    if mask == TreeMask {
      assert t % 2 == 0;
      assert (t + 1) / 2 == t / 2;
    } else {
      assert (t + 2) % 2 == t % 2;
    }
  }

  // ---------------------------------------------------------------------------
  // What one snapshot writes

  /** What a snapshot needs of a registered renderer: its id, what it is and
      its group at the moment of the snapshot. */
  datatype View = View(id: int, kind: Kind, group: Option<string>)

  predicate ViewsTyped(vs: seq<View>, store: Store) {
    forall i :: 0 <= i < |vs| ==> KindTyped(vs[i].kind, store)
  }

  /** One renderer's scope: its visualizer_state opening, what its print
      wrote, its closing; a print that raises leaves the scope open. */
  function Scope(id: int, out: Emitted): (r: Emitted)
  {
    Then(Then(Emitted([VisualizerStateIn(id)], Pass), out), Emitted([VisualizerStateOut], Pass))
  }

  /** A scope holds everything its print wrote and is closed exactly when
      the print completes. */
  lemma ScopeRecords(id: int, out: Emitted)
    ensures Scope(id, out).records ==
      [VisualizerStateIn(id)] + out.records + (if out.outcome.Pass? then [VisualizerStateOut] else [])
    ensures Scope(id, out).outcome == out.outcome
  {
  }

  /** The scopes of renderers ids[i] whose prints wrote outs[i], in order, up
      to the first print that raises. */
  function Scopes(ids: seq<int>, outs: seq<Emitted>): (r: Emitted)
    requires |ids| == |outs|
  {
    if ids == [] then Emitted([], Pass)
    else Then(Scopes(ids[..|ids| - 1], outs[..|ids| - 1]), Scope(ids[|ids| - 1], outs[|ids| - 1]))
  }

  function Ids(vs: seq<View>): (ids: seq<int>)
    ensures |ids| == |vs| && forall i :: 0 <= i < |vs| ==> ids[i] == vs[i].id
  {
    seq(|vs|, i requires 0 <= i < |vs| => vs[i].id)
  }

  /** outs[i] is what the print of renderer vs[i] writes for this focus and
      decision, and whether it raises; every renderer's fields are typed. */
  predicate Rendered(vs: seq<View>, focus: bool, d: Option<Decision>, store: Store, outs: seq<Emitted>) {
    |outs| == |vs| && ViewsTyped(vs, store) &&
    forall i {:trigger Snapshot(vs[i].kind, vs[i].group, focus, d, store)} :: 0 <= i < |vs| ==>
      outs[i] == Snapshot(vs[i].kind, vs[i].group, focus, d, store)
  }

  /** What the prints of renderers vs write for this focus and decision. */
  ghost function Renders(vs: seq<View>, focus: bool, d: Option<Decision>, store: Store): (outs: seq<Emitted>)
    requires ViewsTyped(vs, store)
    ensures Rendered(vs, focus, d, store, outs)
  {
    seq(|vs|, i requires 0 <= i < |vs| => Snapshot(vs[i].kind, vs[i].group, focus, d, store))
  }

  lemma RenderedOne(v: View, k: Kind, g: Option<string>, focus: bool, d: Option<Decision>, store: Store, e: Emitted)
    requires v.kind == k && v.group == g
    requires KindTyped(k, store) && e == Snapshot(k, g, focus, d, store)
    ensures Rendered([v], focus, d, store, [e])
  {
  }

  /** Renderer i of a snapshot prints what it prints on its own. */
  lemma RenderedAt(vs: seq<View>, focus: bool, d: Option<Decision>, store: Store, outs: seq<Emitted>, i: nat, e: Emitted)
    requires Rendered(vs, focus, d, store, outs) && i < |vs|
    requires Rendered([vs[i]], focus, d, store, [e])
    ensures outs[i] == e
  {
    assert [vs[i]][0] == vs[i];
    assert outs[i] == Snapshot(vs[i].kind, vs[i].group, focus, d, store);
  }

  /** A state scope around what the renderers wrote: printVisualizerStat. */
  function StateScope(q: Trace.Request, inner: Emitted): (r: Emitted)
  {
    Then(Then(Emitted([StateIn(q.stateId, q.nodeId)], Pass), inner), Emitted([StateOut], Pass))
  }

  /** The snapshot a callback asks for, if any: renderers ids[i] print
      outs[i] inside one state scope. */
  function Requested(qs: seq<Trace.Request>, ids: seq<int>, outs: seq<Emitted>): (r: Emitted)
    requires |ids| == |outs|
  {
    if |qs| == 0 then Emitted([], Pass) else StateScope(qs[0], Scopes(ids, outs))
  }

  /** What a callback does to the counters and the two streams. */
  datatype Response = Response(counters: Trace.Counters, tree: seq<Trace.TreeRecord>, viz: Emitted)

  /** The event node() reports for the search loop's last decision d. */
  function NodeEvent(d: Decision, store: Store): (e: Trace.Event)
    ensures e.DownBranch? && e.d == d && (e.name, e.size) == Trace.Label(store(d.variable))
  {
    Trace.DownBranch(d, Trace.Label(store(d.variable)).0, Trace.Label(store(d.variable)).1)
  }

  /** A callback: Trace.Before, then the snapshot it asks for, then
      Trace.After only if no renderer raised. */
  function Respond(c: Trace.Counters, e: Trace.Event, s: Trace.Streams, ids: seq<int>, outs: seq<Emitted>): Response
    requires |ids| == |outs|
  {
    var b := Trace.Before(c, e, s);
    var p := Requested(b.requests, ids, outs);
    Response(if p.outcome.Pass? then Trace.After(b.counters, e, s) else b.counters, b.tree, p)
  }

  // ---------------------------------------------------------------------------
  // Properties of a snapshot

  lemma ScopesSnoc(ids: seq<int>, outs: seq<Emitted>, i: nat)
    requires |ids| == |outs| && i < |ids|
    ensures Scopes(ids[..i + 1], outs[..i + 1]) == Then(Scopes(ids[..i], outs[..i]), Scope(ids[i], outs[i]))
  {
    assert ids[..i + 1][..i] == ids[..i];
    assert outs[..i + 1][..i] == outs[..i];
  }

  /** A snapshot completes exactly when every renderer's print does. */
  lemma {:induction false} ScopesPass(ids: seq<int>, outs: seq<Emitted>)
    requires |ids| == |outs|
    ensures Scopes(ids, outs).outcome.Pass? <==> forall i :: 0 <= i < |outs| ==> outs[i].outcome.Pass?
  {
    if ids != [] {
      var n := |ids| - 1;
      ScopesPass(ids[..n], outs[..n]);
      assert forall i :: 0 <= i < n ==> outs[..n][i] == outs[i];
    }
  }

  /** The scopes of the first k renderers begin the scopes of all of them. */
  lemma {:induction false} ScopesPrefix(ids: seq<int>, outs: seq<Emitted>, k: nat)
    requires |ids| == |outs| && k <= |ids|
    ensures Scopes(ids[..k], outs[..k]).records <= Scopes(ids, outs).records
  {
    if k < |ids| {
      var n := |ids| - 1;
      assert ids[..n][..k] == ids[..k] && outs[..n][..k] == outs[..k];
      ScopesPrefix(ids[..n], outs[..n], k);
    } else {
      assert ids[..k] == ids && outs[..k] == outs;
    }
  }

  /** When every print completes, renderer k's scope, holding everything its
      print wrote, follows those of the renderers before it. */
  lemma ScopesInOrder(ids: seq<int>, outs: seq<Emitted>, k: nat)
    requires |ids| == |outs| && k < |ids|
    requires Scopes(ids, outs).outcome.Pass?
    ensures Scopes(ids[..k + 1], outs[..k + 1]).records ==
      Scopes(ids[..k], outs[..k]).records + [VisualizerStateIn(ids[k])] + outs[k].records + [VisualizerStateOut]
    ensures Scopes(ids[..k + 1], outs[..k + 1]).records <= Scopes(ids, outs).records
  {
    ScopesPass(ids, outs);
    ScopesPass(ids[..k], outs[..k]);
    assert forall i :: 0 <= i < k ==> outs[..k][i] == outs[i];
    assert outs[k].outcome.Pass?;
    ScopesSnoc(ids, outs, k);
    ScopeRecords(ids[k], outs[k]);
    Concat(Scopes(ids[..k], outs[..k]).records, [VisualizerStateIn(ids[k])], outs[k].records, [VisualizerStateOut]);
    ScopesPrefix(ids, outs, k + 1);
  }

  lemma Concat<T>(a: seq<T>, b: seq<T>, c: seq<T>, d: seq<T>)
    ensures a + (b + c + d) == a + b + c + d
  {
  }

  /** A renderer whose print raises ends the snapshot: its scope stays open,
      and the renderers after it print nothing. */
  lemma {:induction false} ScopesAbort(ids: seq<int>, outs: seq<Emitted>, k: nat)
    requires |ids| == |outs| && k < |ids|
    requires forall i :: 0 <= i < k ==> outs[i].outcome.Pass?
    requires outs[k].outcome.Fail?
    ensures Scopes(ids, outs) ==
      Emitted(Scopes(ids[..k], outs[..k]).records + [VisualizerStateIn(ids[k])] + outs[k].records, outs[k].outcome)
  {
    var n := |ids| - 1;
    if k == n {
      ScopesPass(ids[..k], outs[..k]);
      assert forall i :: 0 <= i < k ==> outs[..k][i] == outs[i];
    } else {
      assert ids[..n][..k] == ids[..k] && outs[..n][..k] == outs[..k];
      assert ids[..n][k] == ids[k] && outs[..n][k] == outs[k];
      ScopesAbort(ids[..n], outs[..n], k);
    }
  }

  /** Once a print raises, the renderers after it change nothing. */
  lemma {:induction false} ScopesStop(ids: seq<int>, outs: seq<Emitted>, k: nat)
    requires |ids| == |outs| && k <= |ids|
    requires Scopes(ids[..k], outs[..k]).outcome.Fail?
    ensures Scopes(ids, outs) == Scopes(ids[..k], outs[..k])
  {
    if k < |ids| {
      var n := |ids| - 1;
      assert ids[..n][..k] == ids[..k] && outs[..n][..k] == outs[..k];
      ScopesStop(ids[..n], outs[..n], k);
    } else {
      assert ids[..k] == ids && outs[..k] == outs;
    }
  }

  /** A state scope opens with the state and node ids and, when no renderer
      raises, closes after the renderers' scopes. */
  lemma StateScopeShape(q: Trace.Request, inner: Emitted)
    ensures StateScope(q, inner).records[0] == StateIn(q.stateId, q.nodeId)
    ensures StateScope(q, inner).outcome == inner.outcome
    ensures inner.outcome.Pass? ==> StateScope(q, inner).records == [StateIn(q.stateId, q.nodeId)] + inner.records + [StateOut]
    ensures inner.outcome.Fail? ==> StateScope(q, inner).records == [StateIn(q.stateId, q.nodeId)] + inner.records
  {
  }

  /** A snapshot that raises raises what one of its renderers raised. */
  lemma {:induction false} ScopesFailure(ids: seq<int>, outs: seq<Emitted>)
    requires |ids| == |outs|
    requires Scopes(ids, outs).outcome.Fail?
    ensures exists k :: 0 <= k < |outs| && outs[k].outcome == Scopes(ids, outs).outcome
  {
    var n := |ids| - 1;
    if Scopes(ids[..n], outs[..n]).outcome.Fail? {
      ScopesFailure(ids[..n], outs[..n]);
      var k :| 0 <= k < n && outs[..n][k].outcome == Scopes(ids[..n], outs[..n]).outcome;
      assert outs[k] == outs[..n][k];
    } else {
      assert outs[n].outcome == Scopes(ids, outs).outcome;
    }
  }

  /** So a snapshot can only raise UnsupportedOperationException (a Vector
      or DomainMatrix over a variable that is not an IntVar) or
      ArrayIndexOutOfBoundsException (Gcc or Cumulative over arrays shorter
      than their loop). */
  lemma SnapshotErrors(vs: seq<View>, focus: bool, d: Option<Decision>, store: Store, outs: seq<Emitted>)
    requires Rendered(vs, focus, d, store, outs)
    requires Scopes(Ids(vs), outs).outcome.Fail?
    ensures Scopes(Ids(vs), outs).outcome.error in {UnsupportedOperation, IndexOutOfBounds}
  {
    ScopesFailure(Ids(vs), outs);
    var k :| 0 <= k < |outs| && outs[k].outcome == Scopes(Ids(vs), outs).outcome;
    assert KindTyped(vs[k].kind, store) && outs[k] == Snapshot(vs[k].kind, vs[k].group, focus, d, store);
    SnapshotFailures(vs[k].kind, vs[k].group, focus, d, store);
  }

  /** Every callback asks for at most one snapshot. */
  lemma BeforeRequests(c: Trace.Counters, e: Trace.Event, s: Trace.Streams)
    ensures |Trace.Before(c, e, s).requests| <= 1
    ensures !s.snapshots ==> Trace.Before(c, e, s).requests == []
  {
  }

  /** When the snapshot completes, a callback does what Trace.Step says. */
  lemma RespondStep(c: Trace.Counters, e: Trace.Event, s: Trace.Streams, ids: seq<int>, outs: seq<Emitted>)
    requires |ids| == |outs|
    requires Respond(c, e, s, ids, outs).viz.outcome.Pass?
    ensures Respond(c, e, s, ids, outs).counters == Trace.Step(c, e, s).counters
    ensures Respond(c, e, s, ids, outs).tree == Trace.Step(c, e, s).tree
  {
  }

  /** Without an open visualization stream a callback prints no snapshot and
      always completes. */
  lemma RespondWithoutSnapshots(c: Trace.Counters, e: Trace.Event, s: Trace.Streams, ids: seq<int>, outs: seq<Emitted>)
    requires |ids| == |outs| && !s.snapshots
    ensures Respond(c, e, s, ids, outs).viz == Emitted([], Pass)
    ensures Respond(c, e, s, ids, outs).counters == Trace.Step(c, e, s).counters
  {
  }

  /** A snapshot that raises in node() leaves node_id raised, the flag
      cleared, the parent cell as it was and state_id not raised. */
  lemma NodeAborted(c: Trace.Counters, d: Decision, name: string, size: Trace.Size, ids: seq<int>, outs: seq<Emitted>)
    requires |ids| == |outs|
    requires Respond(c, Trace.DownBranch(d, name, size), Trace.Streams(true, true), ids, outs).viz.outcome.Fail?
    ensures Respond(c, Trace.DownBranch(d, name, size), Trace.Streams(true, true), ids, outs).counters ==
      c.(nodeId := c.nodeId + 1, hasFailed := false)
  {
  }

  /** beforeInitialize() and afterInitialize() as callbacks: the root
      record when there is a tree stream, the unfocused snapshot of state 1
      at node -1 (of the current state at node 0) when there is a
      visualization stream, then the next state unless a renderer raised. */
  lemma InitResponse(c: Trace.Counters, s: Trace.Streams, ids: seq<int>, outs: seq<Emitted>)
    requires |ids| == |outs|
    ensures var r := Respond(c, Trace.BeforeInit, s, ids, outs);
      && r.tree == (if s.tree then [Trace.Root] else [])
      && r.viz == (if s.snapshots then StateScope(Trace.Request(1, -1, false, None), Scopes(ids, outs)) else Emitted([], Pass))
      && r.viz.outcome == (if s.snapshots then Scopes(ids, outs).outcome else Pass)
      && r.counters == Trace.Counters(0, if r.viz.outcome.Fail? then 1 else 2, c.hasFailed, Trace.Set(c.parent, 0))
    ensures var r := Respond(c, Trace.AfterInit, s, ids, outs);
      && r.tree == []
      && r.viz == (if s.snapshots then StateScope(Trace.Request(c.stateId, 0, false, None), Scopes(ids, outs)) else Emitted([], Pass))
      && r.viz.outcome == (if s.snapshots then Scopes(ids, outs).outcome else Pass)
      && r.counters == (if r.viz.outcome.Fail? then c else c.(stateId := c.stateId + 1))
  {
    StateScopeShape(Trace.Request(1, -1, false, None), Scopes(ids, outs));
    StateScopeShape(Trace.Request(c.stateId, 0, false, None), Scopes(ids, outs));
  }

  /** node() as one callback: the Fail or Try record under the parent the
      cell holds when there is a tree stream, the focused snapshot of the
      current state under the new node when there is also a visualization
      stream, then the cell set to the new node and the next state, unless
      a renderer raised. */
  lemma DownBranchResponse(c: Trace.Counters, d: Decision, name: string, size: Trace.Size, s: Trace.Streams,
                           ids: seq<int>, outs: seq<Emitted>)
    requires |ids| == |outs|
    ensures var n := c.nodeId + 1;
      var r := Respond(c, Trace.DownBranch(d, name, size), s, ids, outs);
      && r.tree == (if !s.tree then []
                    else if c.hasFailed then [Trace.Failed(n, c.parent.value, name, size, d.value)]
                    else [Trace.Try(n, c.parent.value, name, size, d.value)])
      && r.viz == (if s.tree && s.snapshots then StateScope(Trace.Request(c.stateId, n, true, Some(d)), Scopes(ids, outs))
                   else Emitted([], Pass))
      && r.viz.outcome == (if s.tree && s.snapshots then Scopes(ids, outs).outcome else Pass)
      && r.counters == (if !s.tree then c.(nodeId := n, stateId := c.stateId + 1)
                        else if r.viz.outcome.Fail? then c.(nodeId := n, hasFailed := false)
                        else c.(nodeId := n, hasFailed := false, parent := Trace.Set(c.parent, n), stateId := c.stateId + 1))
  {
    StateScopeShape(Trace.Request(c.stateId, c.nodeId + 1, true, Some(d)), Scopes(ids, outs));
  }

  // ---------------------------------------------------------------------------
  // The parent cell

  /** The IStateLong the environment hands out: set and get by the recorder,
      worlds pushed and popped by the environment alone. */
  class StateLong {
    var value: int
    var saved: seq<int>

    /** makeLong(): a fresh cell holding 0. */
    constructor ()
      ensures value == 0 && saved == []
    {
      value := 0;
      saved := [];
    }

    function Cell(): Trace.Cell
      reads this
    {
      Trace.Cell(value, saved)
    }

    method Set(v: int)
      modifies this`value
      ensures Cell() == Trace.Set(old(Cell()), v)
    {
      value := v;
    }

    /** The environment opens a world. */
    method WorldPush()
      modifies this`saved
      ensures Cell() == Trace.Push(old(Cell()))
    {
      saved := saved + [value];
    }

    /** The environment backtracks to the world it opened last. */
    method WorldPop()
      modifies this
      ensures Cell() == Trace.Pop(old(Cell()))
    {
      if saved != [] {
        value := saved[|saved| - 1];
        saved := saved[..|saved| - 1];
      }
    }
  }

  // ---------------------------------------------------------------------------

  /** The recorder. */
  class Visualization {
    const pbid: string
    const dir: string
    var configuration: Sink?<ConfRecord>
    var tree: Sink?<Trace.TreeRecord>
    var visualization: Sink?<VizRecord>
    var writer: Writer?
    var traceTools: Int32
    /** The renderer list; None before the first createViz. */
    var visualizers: Option<seq<Visualizer>>
    var nodeId: int
    const parent: StateLong
    var stateId: int
    var hasFailed: bool

    /** The renderers registered so far, none when there is no list. */
    function Registered(): seq<Visualizer>
      reads this`visualizers
    {
      if visualizers.Some? then visualizers.value else []
    }

    /** The registered renderers as a snapshot sees them. */
    function Views(): (vs: seq<View>)
      reads this`visualizers, Registered()
      ensures |vs| == |Registered()|
      ensures forall i :: 0 <= i < |vs| ==>
        vs[i] == View(Registered()[i].id, Registered()[i].kind, Registered()[i].group)
    {
      var list := Registered();
      seq(|list|, i requires 0 <= i < |list| reads list => View(list[i].id, list[i].kind, list[i].group))
    }

    /** The renderers' field types hold in the current store. */
    predicate Typed(store: Store)
      reads this`visualizers, Registered()
    {
      ViewsTyped(Views(), store)
    }

    /** The open visualization stream has the shared writer on it and a list,
        and every registered renderer prints through that writer. */
    predicate Valid()
      reads this`visualization, this`writer, this`visualizers, Registered()
    {
      (visualization != null ==> writer != null && writer.out == visualization && visualizers.Some?) &&
      forall i :: 0 <= i < |Registered()| ==> Registered()[i].writer == writer
    }

    /** The k-th registered renderer has id k. */
    predicate Numbered()
      reads this`visualizers, Registered()
    {
      forall i :: 0 <= i < |Registered()| ==> Registered()[i].id == i + 1
    }

    function Counters(): Trace.Counters
      reads this`nodeId, this`stateId, this`hasFailed, parent
    {
      Trace.Counters(nodeId, stateId, hasFailed, parent.Cell())
    }

    /** Which streams the callbacks write to. */
    function Open(): Trace.Streams
      reads this`tree, this`visualization, this`visualizers
    {
      Trace.Streams(tree != null, visualization != null && visualizers.Some?)
    }

    /** The constructor once the configuration file is open: it writes the
        configuration's opening tag. */
    constructor (pbid: string, dir: string, configuration: Sink<ConfRecord>)
      modifies Present(configuration)`written
      ensures this.pbid == pbid && this.dir == dir && this.configuration == configuration
      ensures configuration.written == old(configuration.written) + [ConfIn(dir, pbid)]
      ensures tree == null && visualization == null && writer == null && visualizers == None
      ensures traceTools == 0 && fresh(parent) && Counters() == Trace.Initial
      ensures Valid() && Numbered()
    {
      this.pbid := pbid;
      this.dir := dir;
      this.configuration := configuration;
      tree, visualization, writer := null, null, null;
      traceTools := 0;
      visualizers := None;
      nodeId := -1;
      stateId := 0;
      hasFailed := false;
      parent := new StateLong();
      new;
      configuration.Print(ConfIn(dir, pbid));
    }

    /** createTree(type, display, repeat, width, height); file is the one
        the PrintWriter got, null when it could not be created. */
    method CreateTree(typ: string, display: string, repeat: string, width: Int32, height: Int32,
                      file: Sink?<Trace.TreeRecord>) returns (o: Outcome)
      requires Valid()
      modifies this`traceTools, this`tree, Present(configuration)`written, Present(tree)`written, Present(file)`written
      ensures Valid()
      ensures configuration == null ==> o == Fail(UnsupportedOperation) && traceTools == old(traceTools) && tree == old(tree)
      ensures configuration != null && old(HasBit(traceTools, TreeMask)) ==>
        o == Pass && traceTools == old(traceTools) && tree == old(tree) && configuration.written == old(configuration.written)
      ensures configuration != null && !old(HasBit(traceTools, TreeMask)) ==>
        traceTools == old(traceTools) + TreeMask &&
        tree == (if file != null then file else old(tree)) &&
        (o.Pass? <==> tree != null) && (o.Fail? ==> o.error == UnsupportedOperation) &&
        configuration.written == old(configuration.written) +
          (if tree != null then [Tool("tree", typ, display, repeat, width, height, "tree-" + pbid)] else []) &&
        (tree != null ==>
          tree.written == (if file != null then old(file.written) else old(tree.written)) + [Trace.TreeHeader, Trace.TreeIn])
      ensures configuration == null || old(HasBit(traceTools, TreeMask)) ==>
        unchanged(Present(old(tree))) && unchanged(Present(file))
      ensures configuration != null ==> HasBit(traceTools, TreeMask)
      ensures HasBit(traceTools, VizMask) == old(HasBit(traceTools, VizMask))
    {
      if configuration == null {
        return Fail(UnsupportedOperation);
      }
      if !HasBit(traceTools, TreeMask) {
        AddMask(traceTools, TreeMask);
        traceTools := traceTools + TreeMask;
        if file != null {
          tree := file;
        }
        if tree != null {
          configuration.Print(Tool("tree", typ, display, repeat, width, height, "tree-" + pbid));
          tree.Print(Trace.TreeHeader);
          tree.Print(Trace.TreeIn);
        } else {
          return Fail(UnsupportedOperation);
        }
      }
      o := Pass;
    }

    /** createViz(type, display, repeat, width, height): the renderer list is
        replaced by an empty one on every call, before anything is checked. */
    method CreateViz(typ: string, display: string, repeat: string, width: Int32, height: Int32,
                     file: Sink?<VizRecord>) returns (o: Outcome)
      requires Valid()
      modifies this`visualizers, this`traceTools, this`visualization, this`writer
      modifies Present(configuration)`written, Present(visualization)`written, Present(file)`written
      ensures Valid() && Numbered()
      ensures visualizers == Some([])
      ensures configuration == null ==>
        o == Fail(UnsupportedOperation) && traceTools == old(traceTools) && visualization == old(visualization)
      ensures configuration != null && old(HasBit(traceTools, VizMask)) ==>
        o == Pass && traceTools == old(traceTools) && visualization == old(visualization) &&
        writer == old(writer) && configuration.written == old(configuration.written)
      ensures configuration != null && !old(HasBit(traceTools, VizMask)) ==>
        traceTools == old(traceTools) + VizMask &&
        visualization == (if file != null then file else old(visualization)) &&
        (o.Pass? <==> visualization != null) && (o.Fail? ==> o.error == UnsupportedOperation) &&
        configuration.written == old(configuration.written) +
          (if visualization != null then [Tool("viz", typ, display, repeat, width, height, "visualization-" + pbid)] else []) &&
        (visualization != null ==>
          fresh(writer) && writer.out == visualization &&
          visualization.written ==
            (if file != null then old(file.written) else old(visualization.written)) + [Header, VisualizationIn])
      ensures configuration == null ==> writer == old(writer)
      ensures configuration == null || old(HasBit(traceTools, VizMask)) ==>
        unchanged(Present(old(visualization))) && unchanged(Present(file))
      ensures configuration != null ==> HasBit(traceTools, VizMask)
      ensures HasBit(traceTools, TreeMask) == old(HasBit(traceTools, TreeMask))
    {
      visualizers := Some([]);
      if configuration == null {
        return Fail(UnsupportedOperation);
      }
      if !HasBit(traceTools, VizMask) {
        AddMask(traceTools, VizMask);
        traceTools := traceTools + VizMask;
        if file != null {
          visualization := file;
        }
        if visualization != null {
          writer := new Writer(visualization);
          configuration.Print(Tool("viz", typ, display, repeat, width, height, "visualization-" + pbid));
          visualization.Print(Header);
          visualization.Print(VisualizationIn);
        } else {
          return Fail(UnsupportedOperation);
        }
      }
      o := Pass;
    }

    /** addVisualizer(v): append to the list (a null list raises), hand over
        the writer, number the renderer by the new list size and declare it
        on the visualization stream. */
    method AddVisualizer(v: Visualizer) returns (o: Outcome)
      requires Valid()
      modifies this`visualizers, v`writer, v`id, v`group, Present(visualization)`written
      ensures Valid()
      ensures old(visualizers).None? ==>
        o == Fail(NullPointer) && visualizers == None && unchanged(v`writer, v`id, v`group)
      ensures old(visualizers).Some? ==>
        o == Pass && visualizers == Some(old(visualizers.value) + [v]) &&
        v.writer == writer && v.id == |visualizers.value| &&
        v.group == (if old(v.group).None? then Some(IntToString(v.id)) else old(v.group))
      ensures visualization != null ==>
        visualization.written == old(visualization.written) +
          (if o.Pass? then [VisualizerDecl(v.id, v.Type(), v.display, v.width, v.height, v.Options())] else [])
      ensures old(Numbered()) && v !in old(Registered()) ==> Numbered()
    {
      if visualizers.None? {
        return Fail(NullPointer);
      }
      ghost var before := visualizers.value;
      assert before == Registered();
      visualizers := Some(visualizers.value + [v]);
      v.SetWriter(writer);
      v.SetId(|visualizers.value|);
      assert forall i :: 0 <= i < |before| ==> before[i].writer == writer;
      assert visualizers.value == before + [v];
      if visualization != null {
        visualization.Print(VisualizerDecl(v.id, v.Type(), v.display, v.width, v.height, v.Options()));
      }
      o := Pass;
    }

    /** beforeClose(): each open stream gets its closing tag and is closed. */
    method BeforeClose()
      modifies configuration, tree, visualization
      ensures configuration != null ==>
        configuration.written == old(configuration.written) + [ConfOut] &&
        configuration.closedAt == (if old(configuration.closedAt).Some? then old(configuration.closedAt) else Some(|configuration.written|))
      ensures tree != null ==>
        tree.written == old(tree.written) + [Trace.TreeOut] &&
        tree.closedAt == (if old(tree.closedAt).Some? then old(tree.closedAt) else Some(|tree.written|))
      ensures visualization != null ==>
        visualization.written == old(visualization.written) + [VisualizationOut] &&
        visualization.closedAt == (if old(visualization.closedAt).Some? then old(visualization.closedAt) else Some(|visualization.written|))
    {
      if configuration != null {
        configuration.Print(ConfOut);
        configuration.Close();
      }
      if tree != null {
        tree.Print(Trace.TreeOut);
        tree.Close();
      }
      if visualization != null {
        visualization.Print(VisualizationOut);
        visualization.Close();
      }
    }

    /** printVisualizerStat(s_id, n_id, focus, decision): a state scope with
        every registered renderer's scope inside it, in list order; a
        renderer that raises ends it there. vs are the registered renderers
        and outs[i] is what renderer i's print writes. */
    method PrintVisualizerStat(sid: int, nid: int, focus: bool, d: Option<Decision>, store: Store, ghost vs: seq<View>)
      returns (o: Outcome, ghost outs: seq<Emitted>)
      requires Valid() && Typed(store) && vs == Views()
      modifies Present(visualization)`written
      ensures Rendered(vs, focus, d, store, outs)
      ensures Open().snapshots ==>
        visualization.written == old(visualization.written) +
          StateScope(Trace.Request(sid, nid, focus, d), Scopes(Ids(vs), outs)).records &&
        o == Scopes(Ids(vs), outs).outcome
      ensures !Open().snapshots ==> o == Pass
    {
      o := Pass;
      outs := Renders(vs, focus, d, store);
      if visualization != null && visualizers.Some? {
        o := PrintState(visualization, visualizers.value, sid, nid, focus, d, store, vs, outs);
      }
    }

    // -------------------------------------------------------------------------
    // The solver callbacks

    /** beforeInitialize(): node 0, parent 0, state 1, the root record and
        the snapshot of state 1 at tree node -1, then state 2. */
    method BeforeInitialize(store: Store) returns (o: Outcome, ghost outs: seq<Emitted>, ghost r: Response)
      requires Valid() && Typed(store)
      modifies this`nodeId, this`stateId, parent`value, Present(tree)`written, Present(visualization)`written
      ensures Rendered(old(Views()), false, None, store, outs)
      ensures r == Respond(old(Counters()), Trace.BeforeInit, old(Open()), Ids(old(Views())), outs)
      ensures Counters() == r.counters && o == r.viz.outcome
      ensures tree != null ==> tree.written == old(tree.written) + r.tree
      ensures visualization != null ==> visualization.written == old(visualization.written) + r.viz.records
    {
      ghost var c, s, vs := Counters(), Open(), Views();
      InitEnter();
      o := Pass;
      outs := Renders(vs, false, None, store);
      if visualization != null {
        o, outs := PrintVisualizerStat(stateId, -1, false, None, store, vs);
      }
      r := Respond(c, Trace.BeforeInit, s, Ids(vs), outs);
      InitResponse(c, s, Ids(vs), outs);
      if o.Fail? {
        return;
      }
      stateId := stateId + 1;
    }

    /** beforeInitialize() up to the snapshot: node 0, parent 0, state 1
        and the root record. */
    method InitEnter()
      modifies this`nodeId, this`stateId, parent`value, Present(tree)`written
      ensures Counters() == Trace.Before(old(Counters()), Trace.BeforeInit, Open()).counters
      ensures tree != null ==> tree.written == old(tree.written) + Trace.Before(old(Counters()), Trace.BeforeInit, Open()).tree
    {
      nodeId := 0;
      parent.Set(0);
      stateId := 1;
      if tree != null {
        tree.Print(Trace.Root);
      }
    }

    /** afterInitialize(): the snapshot of the current state at tree node 0,
        then the next state. */
    method AfterInitialize(store: Store) returns (o: Outcome, ghost outs: seq<Emitted>, ghost r: Response)
      requires Valid() && Typed(store)
      modifies this`stateId, Present(visualization)`written
      ensures Rendered(old(Views()), false, None, store, outs)
      ensures r == Respond(old(Counters()), Trace.AfterInit, old(Open()), Ids(old(Views())), outs)
      ensures Counters() == r.counters && o == r.viz.outcome
      ensures visualization != null ==> visualization.written == old(visualization.written) + r.viz.records
    {
      ghost var c, s, vs := Counters(), Open(), Views();
      o := Pass;
      outs := Renders(vs, false, None, store);
      if visualization != null {
        o, outs := PrintVisualizerStat(stateId, 0, false, None, store, vs);
      }
      r := Respond(c, Trace.AfterInit, s, Ids(vs), outs);
      InitResponse(c, s, Ids(vs), outs);
      if o.Fail? {
        return;
      }
      stateId := stateId + 1;
    }

    /** afterDownBranch(left): node(). */
    method AfterDownBranch(d: Decision, store: Store) returns (o: Outcome, ghost outs: seq<Emitted>, ghost r: Response)
      requires Valid() && Typed(store)
      modifies this`nodeId, this`stateId, this`hasFailed, parent`value, Present(tree)`written, Present(visualization)`written
      ensures Rendered(old(Views()), true, Some(d), store, outs)
      ensures r == Respond(old(Counters()), NodeEvent(d, store), old(Open()), Ids(old(Views())), outs)
      ensures Counters() == r.counters && o == r.viz.outcome
      ensures tree != null ==> tree.written == old(tree.written) + r.tree
      ensures visualization != null ==> visualization.written == old(visualization.written) + r.viz.records
    {
      o, outs, r := Node(d, store);
    }

    /** node(): the next node id; with a tree stream a Fail or Try record
        under the parent the cell holds, the snapshot of the current state,
        and the cell set to the new node; then the next state. d is the
        search loop's last decision. */
    method Node(d: Decision, store: Store) returns (o: Outcome, ghost outs: seq<Emitted>, ghost r: Response)
      requires Valid() && Typed(store)
      modifies this`nodeId, this`stateId, this`hasFailed, parent`value, Present(tree)`written, Present(visualization)`written
      ensures Rendered(old(Views()), true, Some(d), store, outs)
      ensures r == Respond(old(Counters()), NodeEvent(d, store), old(Open()), Ids(old(Views())), outs)
      ensures Counters() == r.counters && o == r.viz.outcome
      ensures tree != null ==> tree.written == old(tree.written) + r.tree
      ensures visualization != null ==> visualization.written == old(visualization.written) + r.viz.records
    {
      ghost var c, s, vs := Counters(), Open(), Views();
      NodeEnter(d, store);
      o := Pass;
      outs := Renders(vs, true, Some(d), store);
      if tree != null && visualization != null {
        var focus := !hasFailed;
        o, outs := PrintVisualizerStat(stateId, nodeId, focus, Some(d), store, vs);
      }
      r := Respond(c, NodeEvent(d, store), s, Ids(vs), outs);
      DownBranchResponse(c, d, NodeEvent(d, store).name, NodeEvent(d, store).size, s, Ids(vs), outs);
      if o.Fail? {
        return;
      }
      NodeLeave(NodeEvent(d, store));
    }

    /** node() up to the snapshot: the next node id and, with a tree stream,
        the Fail or Try record, which clears the flag. */
    method NodeEnter(d: Decision, store: Store)
      modifies this`nodeId, this`hasFailed, Present(tree)`written
      ensures Counters() == Trace.Before(old(Counters()), NodeEvent(d, store), old(Open())).counters
      ensures tree != null ==> tree.written == old(tree.written) + Trace.Before(old(Counters()), NodeEvent(d, store), old(Open())).tree
    {
      nodeId := nodeId + 1;
      if tree != null {
        var (name, size) := Trace.Label(store(d.variable));
        if hasFailed {
          hasFailed := false;
          tree.Print(Trace.Failed(nodeId, parent.value, name, size, d.value));
        } else {
          tree.Print(Trace.Try(nodeId, parent.value, name, size, d.value));
        }
      }
    }

    /** node() after a snapshot that completed: with a tree stream the flag
        cleared and the cell set to the new node; then the next state. */
    method NodeLeave(ghost e: Trace.Event)
      requires e.DownBranch?
      modifies this`stateId, this`hasFailed, parent`value
      ensures Counters() == Trace.After(old(Counters()), e, Open())
    {
      if tree != null {
        hasFailed := false;
        parent.Set(nodeId);
      }
      stateId := stateId + 1;
    }

    /** onContradiction(cex): only the flag is raised. */
    method OnContradiction()
      modifies this`hasFailed
      ensures Counters() == Trace.Step(old(Counters()), Trace.Contradiction, old(Open())).counters
    {
      hasFailed := true;
    }

    /** onSolution(): a success record for the current node. */
    method OnSolution()
      modifies Present(tree)`written
      ensures Counters() == old(Counters())
      ensures tree != null ==> tree.written == old(tree.written) + Trace.Step(old(Counters()), Trace.Solution, old(Open())).tree
    {
      if tree != null {
        tree.Print(Trace.Succ(nodeId));
      }
    }
  }

  /** printVisualizerStat with a list to walk: the state scope around the
      renderers' scopes, its closing tag only when none of them raised. */
  method PrintState(out: Sink<VizRecord>, list: seq<Visualizer>, sid: int, nid: int, focus: bool, d: Option<Decision>,
                    store: Store, ghost vs: seq<View>, ghost outs: seq<Emitted>)
    returns (o: Outcome)
    requires |list| == |vs| && Rendered(vs, focus, d, store, outs)
    requires forall j :: 0 <= j < |list| ==>
      list[j].writer != null && list[j].writer.out == out && vs[j] == View(list[j].id, list[j].kind, list[j].group)
    modifies out`written
    ensures out.written == old(out.written) + StateScope(Trace.Request(sid, nid, focus, d), Scopes(Ids(vs), outs)).records
    ensures o == Scopes(Ids(vs), outs).outcome
  {
    ghost var w0 := out.written;
    out.Print(StateIn(sid, nid));
    o := PrintScopes(out, list, focus, d, store, vs, outs);
    StateScopeShape(Trace.Request(sid, nid, focus, d), Scopes(Ids(vs), outs));
    if o.Pass? {
      out.Print(StateOut);
      Concat(w0, [StateIn(sid, nid)], Scopes(Ids(vs), outs).records, [StateOut]);
    }
  }

  /** One more renderer's scope, after those of the renderers before it
      have been written to w. */
  lemma ScopesStep(vs: seq<View>, focus: bool, d: Option<Decision>, store: Store, outs: seq<Emitted>, i: nat,
                   e: Emitted, w: seq<VizRecord>)
    requires Rendered(vs, focus, d, store, outs) && i < |vs|
    requires Rendered([vs[i]], focus, d, store, [e])
    requires Scopes(Ids(vs)[..i], outs[..i]).outcome.Pass?
    ensures w + Scopes(Ids(vs)[..i + 1], outs[..i + 1]).records == w + Scopes(Ids(vs)[..i], outs[..i]).records + Scope(vs[i].id, e).records
    ensures Scopes(Ids(vs)[..i + 1], outs[..i + 1]).outcome == e.outcome
    ensures e.outcome.Fail? ==> Scopes(Ids(vs), outs) == Scopes(Ids(vs)[..i + 1], outs[..i + 1])
  {
    var ids := Ids(vs);
    RenderedAt(vs, focus, d, store, outs, i, e);
    ScopesSnoc(ids, outs, i);
    var p, q := Scopes(ids[..i], outs[..i]), Scope(vs[i].id, e);
    assert ids[i] == vs[i].id && outs[i] == e;
    assert Scopes(ids[..i + 1], outs[..i + 1]) == Then(p, q);
    Append2(w, p.records, q.records);
    if e.outcome.Fail? {
      ScopeRecords(vs[i].id, e);
      ScopesStop(ids, outs, i + 1);
    }
  }

  /** printVisualizerStat's loop: renderer after renderer, each in its own
      scope, until one raises. */
  method PrintScopes(out: Sink<VizRecord>, list: seq<Visualizer>, focus: bool, d: Option<Decision>, store: Store,
                     ghost vs: seq<View>, ghost outs: seq<Emitted>)
    returns (o: Outcome)
    requires |list| == |vs| && Rendered(vs, focus, d, store, outs)
    requires forall j :: 0 <= j < |list| ==>
      list[j].writer != null && list[j].writer.out == out && vs[j] == View(list[j].id, list[j].kind, list[j].group)
    modifies out`written
    ensures out.written == old(out.written) + Scopes(Ids(vs), outs).records
    ensures o == Scopes(Ids(vs), outs).outcome
  {
    ghost var ids := Ids(vs);
    ghost var w0 := out.written;
    o := Pass;
    var i := 0;
    while i < |list|
      invariant 0 <= i <= |list| && o == Pass
      invariant Scopes(ids[..i], outs[..i]).outcome == Pass
      invariant out.written == w0 + Scopes(ids[..i], outs[..i]).records
    {
      ghost var e;
      o, e := PrintScope(out, list[i], focus, d, store, vs[i]);
      ScopesStep(vs, focus, d, store, outs, i, e, w0);
      if o.Fail? {
        return;
      }
      i := i + 1;
    }
    assert ids[..i] == ids && outs[..i] == outs;
  }

  /** One turn of printVisualizerStat's loop: the renderer's scope around
      its print; v is the renderer as a snapshot sees it and e what its
      print wrote. */
  method PrintScope(out: Sink<VizRecord>, vv: Visualizer, focus: bool, d: Option<Decision>, store: Store, ghost v: View)
    returns (o: Outcome, ghost e: Emitted)
    requires vv.writer != null && vv.writer.out == out && KindTyped(vv.kind, store)
    requires v == View(vv.id, vv.kind, vv.group)
    modifies out`written
    ensures Rendered([v], focus, d, store, [e])
    ensures out.written == old(out.written) + Scope(v.id, e).records
    ensures o == e.outcome
  {
    ghost var w0 := out.written;
    out.Print(VisualizerStateIn(vv.id));
    o, e := vv.Print(focus, d, store);
    RenderedOne(v, vv.kind, vv.group, focus, d, store, e);
    ScopeRecords(v.id, e);
    assert out.written == w0 + [VisualizerStateIn(v.id)] + e.records;
    if o.Pass? {
      out.Print(VisualizerStateOut);
    } else {
      assert [VisualizerStateIn(v.id)] + e.records + [] == [VisualizerStateIn(v.id)] + e.records;
    }
    Append2(w0, [VisualizerStateIn(v.id)] + e.records, if o.Pass? then [VisualizerStateOut] else []);
  }

  /** new Visualization(pbname, solver, dir): configuration is the file the
      PrintWriter got, null when it could not be created, in which case the
      first printf raises. */
  method NewVisualization(pbid: string, dir: string, configuration: Sink?<ConfRecord>) returns (r: Result<Visualization>)
    modifies Present(configuration)`written
    ensures r.Err? <==> configuration == null
    ensures r.Err? ==> r.error == NullPointer
    ensures r.Ok? ==>
      fresh(r.value) && r.value.configuration == configuration && r.value.Valid() && r.value.Counters() == Trace.Initial &&
      r.value.Open() == Trace.Streams(false, false) &&
      configuration.written == old(configuration.written) + [ConfIn(dir, pbid)]
  {
    if configuration == null {
      return Err(NullPointer);
    }
    var v := new Visualization(pbid, dir, configuration);
    r := Ok(v);
  }
}
