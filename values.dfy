/** The solver-side objects the recorder and the renderers look at: variables,
    their domains and the last decision. The solver owns them; the model sees
    a variable through its identity and the store that maps identities to the
    variable's current state. */
module Values {

  import opened Base

  /** Object identity: Java's `==` on references compares these. */
  datatype Ref = Ref(id: nat)

  predicate StrictlyIncreasing(xs: seq<int>) {
    forall i, j :: 0 <= i < j < |xs| ==> xs[i] < xs[j]
  }

  /** The domain of an integer variable: an explicit set of values
      (hasEnumeratedDomain), held in the ascending order in which
      getValueIterator(true) yields them, or an interval known only by its
      bounds. */
  datatype IntDomain =
    | Enumerated(values: seq<int>)
    | Bounded(lb: int, ub: int)

  /** An enumerated domain never repeats a value and keeps them sorted. */
  predicate WellFormed(dom: IntDomain) {
    dom.Enumerated? ==> StrictlyIncreasing(dom.values)
  }

  /** Current state of an IntVar. isBool says whether the object is a BoolVar. */
  datatype IntVarState = IntVarState(name: string, isBool: bool, dom: IntDomain)

  /** The kinds of Variable the code distinguishes with instanceof. */
  datatype Variable =
    | IntV(iv: IntVarState)
    | SetV(name: string, envelopeSize: int)
    | OtherV(text: string)       // any other Variable; text is its toString()

  /** The solver's variables as they are at one moment. */
  type Store = Ref -> Variable

  /** The last decision: its own identity, the identity of the variable it
      branches on (getDecisionVariables) and the value it tries. */
  datatype Decision = Decision(self: Ref, variable: Ref, value: int)

  predicate IsIntVar(store: Store, r: Ref) {
    store(r).IntV?
  }

  predicate AllIntVars(store: Store, rs: seq<Ref>) {
    forall i :: 0 <= i < |rs| ==> IsIntVar(store, rs[i])
  }

  /** A domain as the solver presents it between propagations: sorted and
      never empty. */
  predicate Consistent(dom: IntDomain) {
    WellFormed(dom) &&
    match dom
    case Enumerated(vs) => vs != []
    case Bounded(lb, ub) => lb <= ub
  }

  /** isInstantiated() */
  predicate Instantiated(dom: IntDomain) {
    match dom
    case Enumerated(vs) => |vs| == 1
    case Bounded(lb, ub) => lb == ub
  }

  /** getDomainSize() */
  function DomainSize(dom: IntDomain): int {
    match dom
    case Enumerated(vs) => |vs|
    case Bounded(lb, ub) => ub - lb + 1
  }

  /** getLB() */
  function LB(dom: IntDomain): int
    requires Consistent(dom)
  {
    match dom
    case Enumerated(vs) => vs[0]
    case Bounded(lb, _) => lb
  }

  /** getValue() of an instantiated variable. */
  function Value(dom: IntDomain): int
    requires Instantiated(dom)
  {
    match dom
    case Enumerated(vs) => vs[0]
    case Bounded(lb, _) => lb
  }

  predicate Within(lb: int, ub: int, x: int) {
    lb <= x <= ub
  }

  /** The integers from lb to ub inclusive. */
  ghost function Interval(lb: int, ub: int): set<int> {
    set x | lb <= x <= ub && Within(lb, ub, x)
  }

  /** The values the domain holds. */
  ghost function Members(dom: IntDomain): set<int> {
    match dom
    case Enumerated(vs) => set x | x in vs
    case Bounded(lb, ub) => Interval(lb, ub)
  }

  lemma {:induction false} DistinctCount(xs: seq<int>)
    requires StrictlyIncreasing(xs)
    ensures |set x | x in xs| == |xs|
  {
    if xs != [] {
      DistinctCount(xs[1..]);
      assert (set x | x in xs) == (set x | x in xs[1..]) + {xs[0]};
      assert xs[0] !in (set x | x in xs[1..]);
    }
  }

  lemma {:induction false} IntervalSize(lb: int, ub: int)
    requires lb <= ub + 1
    ensures |Interval(lb, ub)| == ub - lb + 1
    decreases ub - lb
  {
    if lb <= ub {
      IntervalSize(lb + 1, ub);
      assert Interval(lb, ub) == Interval(lb + 1, ub) + {lb};
    } else {
      assert Interval(lb, ub) == {};
    }
  }

  /** getDomainSize() counts the values the domain holds. */
  lemma DomainSizeCounts(dom: IntDomain)
    requires Consistent(dom)
    ensures DomainSize(dom) == |Members(dom)| > 0
  {
    match dom
    case Enumerated(vs) => DistinctCount(vs);
    case Bounded(lb, ub) => IntervalSize(lb, ub);
  }

  /** isInstantiated() holds exactly when one value is left, and getValue() is it. */
  lemma InstantiatedIsSingleton(dom: IntDomain)
    requires Consistent(dom)
    ensures Instantiated(dom) <==> |Members(dom)| == 1
    ensures Instantiated(dom) ==> Members(dom) == {Value(dom)}
  {
    DomainSizeCounts(dom);
    if dom.Enumerated? && |dom.values| == 1 {
      assert dom.values == [dom.values[0]];
    }
    if dom.Bounded? && dom.lb == dom.ub {
      assert Interval(dom.lb, dom.ub) == {dom.lb};
    }
  }
}
