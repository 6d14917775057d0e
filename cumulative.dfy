/** The cumulative renderer (visualizers/Cumulative.java): argument "tasks"
    holds one tuple (start, duration, resource 1) per task, then the limit
    and the end variable each as their own argument. The durations are
    indexed by the position in starts, so a shorter durations array raises
    ArrayIndexOutOfBoundsException in the middle of a tuple. */
module CumulativeViz {

  import opened Base
  import opened Decimal
  import opened Values
  import opened Writing
  import opened Layout

  const TypeName: string := "cumulative"

  datatype CumulativeData = CumulativeData(starts: seq<Ref>, durations: seq<Ref>, limit: Ref, end: Ref)

  /** starts and durations are IntVar[], limit and end IntVars. */
  predicate Typed(data: CumulativeData, store: Store) {
    AllIntVars(store, data.starts) && AllIntVars(store, data.durations) &&
    IsIntVar(store, data.limit) && IsIntVar(store, data.end)
  }

  /** How many tuples are written in full: the loop runs over starts and
      reads durations[i]. */
  function Reach(data: CumulativeData): (m: nat)
    ensures m <= |data.starts| && m <= |data.durations|
    ensures m == |data.starts| || m == |data.durations|
  {
    if |data.starts| < |data.durations| then |data.starts| else |data.durations|
  }

  /** Task i: its index, then its start and duration variables and the
      resource 1, at level 5. */
  function Task(data: CumulativeData, store: Store, i: nat): seq<VizRecord>
    requires Typed(data, store) && i < Reach(data)
  {
    [TupleIn(Indent(4), NatToString(i + 1)),
     IvarRecord(store(data.starts[i]).iv, "start", 5),
     IvarRecord(store(data.durations[i]).iv, "dur", 5),
     IntegerRec(Indent(5), "res", 1),
     TupleOut(Indent(4))]
  }

  /** The first n tasks. */
  function Tasks(data: CumulativeData, store: Store, n: nat): (r: seq<VizRecord>)
    requires Typed(data, store) && n <= Reach(data)
    ensures |r| == 5 * n
  {
    if n == 0 then [] else Tasks(data, store, n - 1) + Task(data, store, n - 1)
  }

  /** What task i writes before durations[i] raises. */
  function Broken(data: CumulativeData, store: Store, i: nat): seq<VizRecord>
    requires Typed(data, store) && i < |data.starts|
  {
    [TupleIn(Indent(4), NatToString(i + 1)), IvarRecord(store(data.starts[i]).iv, "start", 5)]
  }

  /** The three arguments, when every task is complete. Both limit and end
      are written under index "1". */
  function Sections(data: CumulativeData, store: Store): seq<Section>
    requires Typed(data, store) && Reach(data) == |data.starts|
  {
    [Section("tasks", Tasks(data, store, |data.starts|), []),
     Section("limit", [IvarRecord(store(data.limit).iv, "1", 4)], []),
     Section("end", [IvarRecord(store(data.end).iv, "1", 4)], [])]
  }

  /** What print writes, and whether it raises. */
  function Output(data: CumulativeData, store: Store): Emitted
    requires Typed(data, store)
  {
    var m := Reach(data);
    if m == |data.starts| then Emitted(Flatten(Sections(data, store)), Pass)
    else Emitted([ArgumentIn(Indent(3), "tasks")] + Tasks(data, store, m) + Broken(data, store, m),
                 Outcome.Fail(IndexOutOfBounds))
  }

  method Print(w: Writer, data: CumulativeData, store: Store) returns (o: Outcome)
    requires Typed(data, store)
    modifies w.out`written
    ensures w.out.written == old(w.out.written) + Output(data, store).records
    ensures o == Output(data, store).outcome
  {
    w.ArgumentIn("tasks", 3);
    o := PrintTasks(w, data, store);
    if o.Fail? {
      var m := Reach(data);
      Append3(old(w.out.written), [ArgumentIn(Indent(3), "tasks")], Tasks(data, store, m), Broken(data, store, m));
      return;
    }
    w.ArgumentOut(3);
    ghost var mid := w.out.written;
    ScopedIvar(w, "limit", store(data.limit).iv, "1");
    ScopedIvar(w, "end", store(data.end).iv, "1");
    var n := |data.starts|;
    var limit, end := [IvarRecord(store(data.limit).iv, "1", 4)], [IvarRecord(store(data.end).iv, "1", 4)];
    assert w.out.written == mid + Scoped(3, "limit", limit) + Scoped(3, "end", end);
    Flatten3Plain("tasks", Tasks(data, store, n), "limit", limit, "end", end);
    Append5(old(w.out.written), [ArgumentIn(Indent(3), "tasks")], Tasks(data, store, n), [ArgumentOut(Indent(3))],
      Scoped(3, "limit", limit), Scoped(3, "end", end));
  }

  /** The task loop: every task, or up to the first missing duration. */
  method PrintTasks(w: Writer, data: CumulativeData, store: Store) returns (o: Outcome)
    requires Typed(data, store)
    modifies w.out`written
    ensures o.Pass? <==> Reach(data) == |data.starts|
    ensures o.Fail? ==> o.error == IndexOutOfBounds
    ensures o.Pass? ==> w.out.written == old(w.out.written) + Tasks(data, store, |data.starts|)
    ensures o.Fail? ==> (Reach(data) < |data.starts| &&
      w.out.written == old(w.out.written) + Tasks(data, store, Reach(data)) + Broken(data, store, Reach(data)))
  {
    var i := 0;
    while i < |data.starts|
      invariant 0 <= i <= Reach(data)
      invariant w.out.written == old(w.out.written) + Tasks(data, store, i)
    {
      o := PrintTask(w, data, store, i);
      if o.Fail? {
        return;
      }
      i := i + 1;
    }
    o := Pass;
  }

  /** One turn of the task loop: a whole tuple, or what comes before the
      missing duration. */
  method PrintTask(w: Writer, data: CumulativeData, store: Store, i: nat) returns (o: Outcome)
    requires Typed(data, store) && i < |data.starts|
    modifies w.out`written
    ensures o.Pass? <==> i < Reach(data)
    ensures o.Fail? ==> o.error == IndexOutOfBounds
    ensures o.Pass? ==> w.out.written == old(w.out.written) + Task(data, store, i)
    ensures o.Fail? ==> w.out.written == old(w.out.written) + Broken(data, store, i)
  {
    w.TupleIn(NatToString(i + 1), 4);
    w.Ivar(store(data.starts[i]).iv, "start", 5);
    if i >= |data.durations| {
      return Outcome.Fail(IndexOutOfBounds);
    }
    w.Ivar(store(data.durations[i]).iv, "dur", 5);
    w.Integer(1, "res", 5);
    w.TupleOut(4);
    o := Pass;
  }

  /** print raises exactly when durations is shorter than starts. */
  lemma OutputOutcome(data: CumulativeData, store: Store)
    requires Typed(data, store)
    ensures Output(data, store).outcome.Pass? <==> |data.durations| >= |data.starts|
    ensures Output(data, store).outcome.Fail? ==> Output(data, store).outcome.error == IndexOutOfBounds
  {
  }

  /** Task i sits at records 5i to 5i + 4 of the tasks and carries the state
      of starts[i] and durations[i]. */
  lemma {:induction false} TasksAt(data: CumulativeData, store: Store, n: nat, i: nat)
    requires Typed(data, store) && n <= Reach(data) && i < n
    ensures Tasks(data, store, n)[5 * i..5 * i + 5] == Task(data, store, i)
  {
    if i < n - 1 {
      TasksAt(data, store, n - 1, i);
      assert Tasks(data, store, n)[..5 * (n - 1)] == Tasks(data, store, n - 1);
    }
  }

  lemma {:induction false} TasksPlain(data: CumulativeData, store: Store, n: nat)
    requires Typed(data, store) && n <= Reach(data)
    ensures Plain(Tasks(data, store, n))
  {
    if n > 0 {
      TasksPlain(data, store, n - 1);
    }
  }

  /** A complete print opens "tasks", "limit" and "end", in that order, and
      never annotates: the decision is not looked at. */
  lemma OutputShape(data: CumulativeData, store: Store)
    requires Typed(data, store) && Output(data, store).outcome.Pass?
    ensures Arguments(Output(data, store).records) == ["tasks", "limit", "end"]
    ensures Marks(Output(data, store).records) == []
  {
    var ss := Sections(data, store);
    TasksPlain(data, store, |data.starts|);
    Shape3(ss[0], ss[1], ss[2]);
    assert ss == [ss[0], ss[1], ss[2]];
  }
}
