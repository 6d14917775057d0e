/** The bin packing renderer (visualizers/BinPacking.java): items, sizes and
    bins as arguments "items", "sizes" and "bins". The short constructor
    copies each array behind a duplicate of its first element, so that the
    real entries start at position 2 of the printed indices. */
module BinPackingViz {

  import opened Base
  import opened Decimal
  import opened Values
  import opened Writing
  import opened Layout

  const TypeName: string := "bin_packing"

  datatype BinPackingData = BinPackingData(items: seq<Ref>, sizes: seq<int>, bins: seq<Ref>)

  /** items and bins are IntVar[]. */
  predicate Typed(data: BinPackingData, store: Store) {
    AllIntVars(store, data.items) && AllIntVars(store, data.bins)
  }

  /** A fresh array one longer than a, holding a[0] and then a copy of a;
      reading a[0] of an empty array raises. */
  method PadFront<T>(a: seq<T>) returns (r: Result<seq<T>>)
    ensures r.Ok? <==> |a| > 0
    ensures r.Err? ==> r.error == IndexOutOfBounds
    ensures r.Ok? ==> |r.value| == |a| + 1 && r.value[0] == a[0] && r.value[1..] == a
  {
    if |a| == 0 {
      return Err(IndexOutOfBounds);
    }
    var b := new T[|a| + 1](_ => a[0]);
    var i := 0;
    while i < |a|
      invariant 0 <= i <= |a|
      invariant b[0] == a[0]
      invariant b[1..i + 1] == a[..i]
    {
      b[i + 1] := a[i];
      i := i + 1;
    }
    r := Ok(b[..]);
  }

  /** The short constructor: items, then sizes, then bins are padded; the
      first empty one raises. */
  method BuildPadded(items: seq<Ref>, sizes: seq<int>, bins: seq<Ref>) returns (r: Result<BinPackingData>)
    ensures r.Ok? <==> |items| > 0 && |sizes| > 0 && |bins| > 0
    ensures r.Err? ==> r.error == IndexOutOfBounds
    ensures r.Ok? ==> r.value == BinPackingData([items[0]] + items, [sizes[0]] + sizes, [bins[0]] + bins)
  {
    var pi := PadFront(items);
    if pi.Err? {
      return Err(IndexOutOfBounds);
    }
    var ps := PadFront(sizes);
    if ps.Err? {
      return Err(IndexOutOfBounds);
    }
    var pb := PadFront(bins);
    if pb.Err? {
      return Err(IndexOutOfBounds);
    }
    assert pi.value == [pi.value[0]] + pi.value[1..];
    assert ps.value == [ps.value[0]] + ps.value[1..];
    assert pb.value == [pb.value[0]] + pb.value[1..];
    r := Ok(BinPackingData(pi.value, ps.value, pb.value));
  }

  /** The long constructor keeps the arrays it is given. */
  function BuildPlain(items: seq<Ref>, sizes: seq<int>, bins: seq<Ref>): (d: BinPackingData)
    ensures d.items == items && d.sizes == sizes && d.bins == bins
  {
    BinPackingData(items, sizes, bins)
  }

  function Sections(data: BinPackingData, store: Store): seq<Section>
    requires Typed(data, store)
  {
    [Section("items", IntVarRecords(store, data.items, 4), []),
     Section("sizes", ValueRecords(data.sizes, 4), []),
     Section("bins", IntVarRecords(store, data.bins, 4), [])]
  }

  /** What print writes. */
  function Output(data: BinPackingData, store: Store): seq<VizRecord>
    requires Typed(data, store)
  {
    Flatten(Sections(data, store))
  }

  method Print(w: Writer, data: BinPackingData, store: Store)
    requires Typed(data, store)
    modifies w.out`written
    ensures w.out.written == old(w.out.written) + Output(data, store)
  {
    ScopedInts(w, "items", store, data.items);
    ScopedArray(w, "sizes", data.sizes);
    ScopedInts(w, "bins", store, data.bins);
    FlattenScoped3("items", IntVarRecords(store, data.items, 4), "sizes", ValueRecords(data.sizes, 4),
      "bins", IntVarRecords(store, data.bins, 4));
    Append3(old(w.out.written), Scoped(3, "items", IntVarRecords(store, data.items, 4)),
      Scoped(3, "sizes", ValueRecords(data.sizes, 4)), Scoped(3, "bins", IntVarRecords(store, data.bins, 4)));
  }

  /** Arguments items, sizes and bins in that order; the decision is never
      shown. */
  lemma OutputShape(data: BinPackingData, store: Store)
    requires Typed(data, store)
    ensures Arguments(Output(data, store)) == ["items", "sizes", "bins"]
    ensures Marks(Output(data, store)) == []
  {
    var ss := Sections(data, store);
    IntVarRecordsPlain(store, data.items, 4);
    ValueRecordsPlain(data.sizes, 4);
    IntVarRecordsPlain(store, data.bins, 4);
    Shape3(ss[0], ss[1], ss[2]);
    assert ss == [ss[0], ss[1], ss[2]];
  }

  /** Item k is the record at position k + 1, under index k + 1. */
  lemma ItemAt(data: BinPackingData, store: Store, k: nat)
    requires Typed(data, store) && k < |data.items|
    ensures k + 1 < |Output(data, store)|
    ensures Output(data, store)[k + 1] == IvarRecord(store(data.items[k]).iv, NatToString(k + 1), 4)
  {
    var b1, b2, b3 := IntVarRecords(store, data.items, 4), ValueRecords(data.sizes, 4), IntVarRecords(store, data.bins, 4);
    FlattenScoped3("items", b1, "sizes", b2, "bins", b3);
    IntVarRecordsAt(store, data.items, 4, k);
    ScopedBodyAt("items", b1, Scoped(3, "sizes", b2), k);
  }

  /** After the short constructor, the first item is printed twice, under
      indices 1 and 2, and item j of the caller's array under index j + 2. */
  lemma PaddedItems(items: seq<Ref>, sizes: seq<int>, bins: seq<Ref>, store: Store, j: nat)
    requires |items| > 0 && |sizes| > 0 && |bins| > 0 && j < |items|
    requires AllIntVars(store, items) && AllIntVars(store, bins)
    ensures Typed(BinPackingData([items[0]] + items, [sizes[0]] + sizes, [bins[0]] + bins), store)
    ensures |Output(BinPackingData([items[0]] + items, [sizes[0]] + sizes, [bins[0]] + bins), store)| > j + 2
    ensures Output(BinPackingData([items[0]] + items, [sizes[0]] + sizes, [bins[0]] + bins), store)[1] ==
      IvarRecord(store(items[0]).iv, NatToString(1), 4)
    ensures Output(BinPackingData([items[0]] + items, [sizes[0]] + sizes, [bins[0]] + bins), store)[j + 2] ==
      IvarRecord(store(items[j]).iv, NatToString(j + 2), 4)
  {
    var data := BinPackingData([items[0]] + items, [sizes[0]] + sizes, [bins[0]] + bins);
    assert Typed(data, store) by {
      assert forall i :: 0 <= i < |data.items| ==> data.items[i] == if i == 0 then items[0] else items[i - 1];
      assert forall i :: 0 <= i < |data.bins| ==> data.bins[i] == if i == 0 then bins[0] else bins[i - 1];
    }
    ItemAt(data, store, 0);
    ItemAt(data, store, j + 1);
  }
}
