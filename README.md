# cpviz recorder and renderers, modelled in Dafny

cpviz writes the three XML files that the CP-Viz tool reads after a Choco
search:

- the configuration file, which declares the tools;
- the tree file, with one record per search node;
- the visualization file, with one snapshot of every registered visualizer
  per search state.

The recorder `Visualization` is plugged into the solver as a search monitor:

- it counts nodes and states;
- it remembers whether the last branch failed;
- it keeps the parent node in a backtrackable long;
- on every callback it writes tree records and asks each visualizer to
  print itself.

Visualizers print through a shared `Writer`. It turns integer variables,
integer arrays, argument, tuple and collection scopes, and focus and fail
annotations into tagged, tab-indented lines.

## The model's shape

The model keeps the source's own shape.

**Output streams.** A `PrintWriter` becomes the class `Streams.Sink`. Its
`written` field is the sequence of records printed so far, and `Close` fixes
how much of it is kept. Each printed line is an abstract record that carries
its indentation and the values of its format string: `Writing.VizRecord` for
the visualization stream and `Trace.TreeRecord` for the tree stream. The
literal XML text is not modelled.

**Writer.** `Writing.Writer` is a class whose methods append to its sink. Each
method is proved against a record function: `IvarRecord`, `IntVarRecords`,
`VarRecords`, `ValueRecords` or `MarkRecord`. The domain text a variable
record carries is proved to decode back to the domain: the value list for an
enumerated domain, `lb .. ub` for a bounded one.

**Visualizers.** The base `Visualizers.Visualizer` is a class whose setters
update its fields. It prints by dispatching on `Kind` to the renderer's own
`Print`. Each renderer (`VectorViz`, `DomainMatrixViz`, `ElementViz`,
`BoolChannelingViz`, `GccViz`, `CumulativeViz`, `InverseViz`, `LexLtViz`,
`BinPackingViz`) has:

- an `Output` function giving the records it writes, and whether it raises;
- a `Print` method proved to write exactly those records;
- lemmas about the output: which arguments it opens, in order, and which
  annotations it adds, and for which cells.

**Recorder.** `Recorder.Visualization` is a class with the source's fields:

- the three sinks, the writer and the visualizer list;
- `trace_tools`;
- `node_id`, `state_id` and `hasFailed`;
- a `StateLong` parent cell.

Each callback's contract ties its effect to `Trace.Step`, a pure function of
the counters, the event and which streams are open. The trace lemmas then
prove over whole sequences of callbacks what the recorder guarantees. Node
ids are consecutive, state and node counts move together, contradictions
collapse into one `fail` record, and the parent is restored when a world is
popped. A snapshot is a state scope holding one visualizer-state scope per
registered visualizer, in registration order. When a renderer raises, the
output is cut short at that point, and the counters are left where the
source leaves them.

**Values and exceptions.** Java `int` values that matter are bounded. The
`Int32` type covers visualizer fields, and the `trace_tools` masks are proved
to stay below `Integer.MAX_VALUE`. The node and state counters (Java `long`)
are unbounded. A Java exception is an `Outcome` or `Result` value:

- `UnsupportedOperation` for an unknown variable type, or a stream that
  cannot be created;
- `IndexOutOfBounds` for shorter parallel arrays, or the first element of an
  empty array;
- `ClassCast` for a non-boolean variable given to `BoolChanneling`;
- `NullPointer` for a null configuration, or a visualizer added before
  `createViz`.

A sink that could not be opened is a `null` parameter.

**Solver.** The solver is given as data:

- a `Values.Store` maps each variable reference to its state (an `IntVar`
  with a name and an enumerated or bounded domain, a `SetVar`, or any other
  variable);
- a `Values.Decision` carries the variable it branches on, its value, and
  the decision object's own identity.

Renderers whose fields are `IntVar` arrays in Java require, through their
`Typed` predicate, that the store maps those references to integer
variables.

The model keeps one Vector detail as written. `Vector.print` compares the
decision object itself with each variable (`Vector.java:72`), not the
decision's variable. In Java a decision object is never one of the vector's
variables, so no cell is annotated. The model does not enforce this: a
decision's `self` is any reference, and the model's Vector annotates exactly
the positions where `self` is found (`VectorViz.AnnotationsSound` and
`VectorViz.AnnotationsComplete`). `VectorViz.NeverMatchesVariables` takes
"the decision is not one of the variables" as its hypothesis and proves that
then nothing is annotated.

## Model

| member | source | states |
|---|---|---|
| Writing.Prefix | src/main/java/org/chocosolver/cpviz/visualizers/Writer.java:168-180 | prefix(nb) raises exactly when nb is 7, one past the table; otherwise it is nb tabs, and none for a negative nb |
| Writing.IndentIsPrefix | src/main/java/org/chocosolver/cpviz/visualizers/Writer.java:168-180 | for every indentation but 7, the indentation recorded in a line is the prefix the source prints |
| Writing.DomainStringRoundTrip | src/main/java/org/chocosolver/cpviz/visualizers/Writer.java:56-65 | the domain text of a dvar line decodes back to the exact domain: the value list, each followed by a space, or `lb .. ub` |
| Writing.DecodeRangeText | src/main/java/org/chocosolver/cpviz/visualizers/Writer.java:64 | a bounded domain's text is never read as a value list, and reads back as its two bounds |
| Writing.IvarRecordShape | src/main/java/org/chocosolver/cpviz/visualizers/Writer.java:52-70 | an integer line is written exactly when the variable is instantiated; otherwise a dvar line whose domain decodes to the variable's domain; index and indentation as given |
| Writing.IvarRecordDenotes | src/main/java/org/chocosolver/cpviz/visualizers/Writer.java:52-70 | the set of values a variable's line denotes is exactly the variable's domain |
| Writing.IntVarRecordsAt | src/main/java/org/chocosolver/cpviz/visualizers/Writer.java:95-100 | the i-th line of an IntVar array is that variable's line, with index i+1 |
| Writing.VarRecords | src/main/java/org/chocosolver/cpviz/visualizers/Writer.java:88-93 | a Variable array prints in full exactly when every element is an IntVar; otherwise it raises UnsupportedOperation after printing the elements before the first non-IntVar |
| Writing.ValueRecordsAt | src/main/java/org/chocosolver/cpviz/visualizers/Writer.java:119-124 | the i-th line of an int array is an integer line with index i+1 and the i-th value |
| Writing.Then | src/main/java/org/chocosolver/cpviz/visualizers/Writer.java:41-50 | a chained print passes exactly when both parts pass; a raise in the first part leaves the second unprinted |
| Writing.ThenKeepsWritten | src/main/java/org/chocosolver/cpviz/visualizers/Writer.java:41-50 | what the first print wrote stays a prefix of the chained output, which adds at most the second print's lines |
| Writing.ThenMonoid | src/main/java/org/chocosolver/cpviz/visualizers/Writer.java:41-50 | chaining prints is associative and the empty, passing print is its unit on both sides, so grouping never changes what is written |
| Writing.MarksAppend | src/main/java/org/chocosolver/cpviz/visualizers/Writer.java:156-166 | the annotations among concatenated lines are those of each part, in order |
| Writing.ArgumentsAppend | src/main/java/org/chocosolver/cpviz/visualizers/Writer.java:126-129 | the arguments opened in concatenated lines are those of each part, in order |
| Writing.ScopedFilters | src/main/java/org/chocosolver/cpviz/visualizers/Writer.java:126-134 | an argument scope around plain lines opens exactly its own index and carries no annotation |
| Writing.Writer.constructor | src/main/java/org/chocosolver/cpviz/visualizers/Writer.java:37-39 | the writer prints to the given stream |
| Writing.Writer.Ivar | src/main/java/org/chocosolver/cpviz/visualizers/Writer.java:52-70 | appends exactly the variable's line |
| Writing.Writer.Var | src/main/java/org/chocosolver/cpviz/visualizers/Writer.java:41-50 | an IntVar prints its line; any other variable raises UnsupportedOperation and prints nothing |
| Writing.Writer.Integer | src/main/java/org/chocosolver/cpviz/visualizers/Writer.java:72-75 | appends one integer line |
| Writing.Writer.ArrayDvarInts | src/main/java/org/chocosolver/cpviz/visualizers/Writer.java:95-100 | appends the lines of the IntVar array in index order |
| Writing.Writer.ArrayDvarVars | src/main/java/org/chocosolver/cpviz/visualizers/Writer.java:88-93 | appends the Variable array's lines and raises as VarRecords says |
| Writing.Writer.Array | src/main/java/org/chocosolver/cpviz/visualizers/Writer.java:119-124 | appends one integer line per value, in order |
| Writing.Writer.ArgumentIn | src/main/java/org/chocosolver/cpviz/visualizers/Writer.java:126-129 | appends an opening argument line |
| Writing.Writer.ArgumentOut | src/main/java/org/chocosolver/cpviz/visualizers/Writer.java:131-134 | appends a closing argument line |
| Writing.Writer.TupleIn | src/main/java/org/chocosolver/cpviz/visualizers/Writer.java:136-139 | appends an opening tuple line |
| Writing.Writer.TupleOut | src/main/java/org/chocosolver/cpviz/visualizers/Writer.java:141-144 | appends a closing tuple line |
| Writing.Writer.CollectionIn | src/main/java/org/chocosolver/cpviz/visualizers/Writer.java:146-149 | appends an opening collection line |
| Writing.Writer.CollectionOut | src/main/java/org/chocosolver/cpviz/visualizers/Writer.java:151-154 | appends a closing collection line |
| Writing.Writer.FocusTyped | src/main/java/org/chocosolver/cpviz/visualizers/Writer.java:156-158 | appends a focus line with a type, at three tabs |
| Writing.Writer.FocusUntyped | src/main/java/org/chocosolver/cpviz/visualizers/Writer.java:160-162 | appends a focus line without a type, at three tabs |
| Writing.Writer.Fail | src/main/java/org/chocosolver/cpviz/visualizers/Writer.java:164-166 | appends a failed line carrying the decision value, at three tabs |
| Writing.Writer.Mark | src/main/java/org/chocosolver/cpviz/visualizers/Writer.java:156-166 | appends the focus line when focused, and otherwise the failed line |
| Decimal.NatRoundTrip | src/main/java/org/chocosolver/cpviz/visualizers/Writer.java:90 | the decimal text of an index parses back to the index |
| Decimal.IntRoundTrip | src/main/java/org/chocosolver/cpviz/visualizers/Writer.java:64 | the decimal text of an int parses back to it, sign included |
| Decimal.NatToStringInjective | src/main/java/org/chocosolver/cpviz/visualizers/Writer.java:90 | different indices get different index texts |
| Values.DomainSizeCounts | src/main/java/org/chocosolver/cpviz/Visualization.java:305-308 | the domain size node() writes is the number of values in the domain, and is positive |
| Values.InstantiatedIsSingleton | src/main/java/org/chocosolver/cpviz/visualizers/Writer.java:53-54 | a variable is instantiated exactly when its domain has one value, and that value is the one printed |
| Streams.Sink.constructor | src/main/java/org/chocosolver/cpviz/Visualization.java:115 | a new stream has nothing written and is open |
| Streams.Sink.Print | src/main/java/org/chocosolver/cpviz/visualizers/Writer.java:73 | printing appends one record |
| Streams.Sink.Close | src/main/java/org/chocosolver/cpviz/Visualization.java:240 | closing keeps what was written so far; closing twice changes nothing |
| Streams.PrintAfterClose | src/main/java/org/chocosolver/cpviz/Visualization.java:237-250 | records printed after close are not part of the file |
| Visualizers.AttributesCoordinates | src/main/java/org/chocosolver/cpviz/Visualizer.java:180-182 | x and y appear, both and only them, exactly when both are non-negative |
| Visualizers.AttributesGroup | src/main/java/org/chocosolver/cpviz/Visualizer.java:183-185 | the group appears exactly when it is not null, the empty one included |
| Visualizers.AttributesBounds | src/main/java/org/chocosolver/cpviz/Visualizer.java:186-188 | min and max appear together exactly when min is above Integer.MIN_VALUE and max below Integer.MAX_VALUE |
| Visualizers.AttributesOrdered | src/main/java/org/chocosolver/cpviz/Visualizer.java:178-190 | the attributes come in the order x, y, group, min, max |
| Visualizers.DefaultAttributes | src/main/java/org/chocosolver/cpviz/Visualizer.java:47-49 | a visualizer built with the short constructor declares only the empty group |
| Visualizers.SnapshotFailures | src/main/java/org/chocosolver/cpviz/Visualizer.java:192 | only Vector and DomainMatrix can raise, with UnsupportedOperation; only Gcc and Cumulative can raise, with IndexOutOfBounds |
| Visualizers.Visualizer.Short | src/main/java/org/chocosolver/cpviz/Visualizer.java:47-49 | no placement, the empty group and the int extremes as bounds |
| Visualizers.Visualizer.constructor | src/main/java/org/chocosolver/cpviz/Visualizer.java:64-74 | every given field is stored as given |
| Visualizers.Visualizer.SetId | src/main/java/org/chocosolver/cpviz/Visualizer.java:81-86 | stores the id; a null group becomes the id's decimal text; any other group is kept |
| Visualizers.Visualizer.SetWriter | src/main/java/org/chocosolver/cpviz/Visualizer.java:88-90 | stores the writer |
| Visualizers.Visualizer.SetXY | src/main/java/org/chocosolver/cpviz/Visualizer.java:107-110 | stores the placement |
| Visualizers.Visualizer.SetGroup | src/main/java/org/chocosolver/cpviz/Visualizer.java:117-119 | stores the group, null included |
| Visualizers.Visualizer.SetMinMax | src/main/java/org/chocosolver/cpviz/Visualizer.java:173-176 | stores the bounds, unchecked |
| Visualizers.Visualizer.Print | src/main/java/org/chocosolver/cpviz/Visualizer.java:192 | print writes exactly the snapshot of the renderer this visualizer is, and raises as it does |
| Visualizers.Render | src/main/java/org/chocosolver/cpviz/Visualizer.java:192 | the dispatch writes each renderer's own output on the shared writer |
| VectorViz.Print | src/main/java/org/chocosolver/cpviz/visualizers/Vector.java:69-80 | writes the variables' lines and then the annotations; a non-IntVar raises UnsupportedOperation before any annotation |
| VectorViz.PrintAnnotations | src/main/java/org/chocosolver/cpviz/visualizers/Vector.java:71-79 | the loop writes exactly the annotation list, in position order |
| VectorViz.AnnotationsSound | src/main/java/org/chocosolver/cpviz/visualizers/Vector.java:71-79 | every annotation is at a position whose element the decision matches, with that position's index |
| VectorViz.AnnotationsComplete | src/main/java/org/chocosolver/cpviz/visualizers/Vector.java:71-79 | every matching position is annotated |
| VectorViz.OutputMarks | src/main/java/org/chocosolver/cpviz/visualizers/Vector.java:69-80 | the annotations in the output are exactly the annotation list; without a decision there are none |
| VectorViz.NeverMatchesVariables | src/main/java/org/chocosolver/cpviz/visualizers/Vector.java:72 | since the decision object is compared with the variables, no cell is annotated when that object is not one of them |
| DomainMatrixViz.AddressInjective | src/main/java/org/chocosolver/cpviz/visualizers/DomainMatrix.java:74 | different cells get different "i j" indices |
| DomainMatrixViz.Print | src/main/java/org/chocosolver/cpviz/visualizers/DomainMatrix.java:71-90 | writes the cells row by row, then the annotations for a decision; a non-IntVar cell raises UnsupportedOperation |
| DomainMatrixViz.PrintCells | src/main/java/org/chocosolver/cpviz/visualizers/DomainMatrix.java:72-76 | the nested loop writes exactly the cell lines and stops at the first raising cell |
| DomainMatrixViz.PrintRow | src/main/java/org/chocosolver/cpviz/visualizers/DomainMatrix.java:73-75 | one row's inner loop writes that row's lines and raises on its first non-IntVar |
| DomainMatrixViz.PrintMarks | src/main/java/org/chocosolver/cpviz/visualizers/DomainMatrix.java:78-88 | the second nested loop writes exactly the matrix annotations |
| DomainMatrixViz.PrintRowMarks | src/main/java/org/chocosolver/cpviz/visualizers/DomainMatrix.java:79-87 | one row's annotation loop writes that row's annotations |
| DomainMatrixViz.RowOutput | src/main/java/org/chocosolver/cpviz/visualizers/DomainMatrix.java:73-75 | a row passes exactly when all its cells are IntVars, raises UnsupportedOperation otherwise, and writes at most one line per cell |
| DomainMatrixViz.RowOutputAt | src/main/java/org/chocosolver/cpviz/visualizers/DomainMatrix.java:74 | every line a row writes is the line of the cell at its position, with index "i+1 j+1" |
| DomainMatrixViz.CellsPass | src/main/java/org/chocosolver/cpviz/visualizers/DomainMatrix.java:72-76 | the cells print in full exactly when every cell is an IntVar |
| DomainMatrixViz.CellsError | src/main/java/org/chocosolver/cpviz/visualizers/DomainMatrix.java:74 | the only exception the cells raise is UnsupportedOperation |
| DomainMatrixViz.CellsStop | src/main/java/org/chocosolver/cpviz/visualizers/DomainMatrix.java:72-76 | after a row raises, the later rows write nothing |
| DomainMatrixViz.CellsRowMajor | src/main/java/org/chocosolver/cpviz/visualizers/DomainMatrix.java:72-76 | the lines of row i sit after those of every earlier row, in row-major order |
| DomainMatrixViz.CellsLength | src/main/java/org/chocosolver/cpviz/visualizers/DomainMatrix.java:72-76 | a complete print writes one line per cell |
| DomainMatrixViz.MatrixMarksExact | src/main/java/org/chocosolver/cpviz/visualizers/DomainMatrix.java:78-88 | an annotation is written exactly for the cells holding the decision's variable, with that cell's index, untyped |
| DomainMatrixViz.MatrixMarksSound | src/main/java/org/chocosolver/cpviz/visualizers/DomainMatrix.java:78-88 | every annotation belongs to a cell holding the decision's variable |
| DomainMatrixViz.MatrixMarksComplete | src/main/java/org/chocosolver/cpviz/visualizers/DomainMatrix.java:78-88 | every cell holding the decision's variable is annotated |
| DomainMatrixViz.OutputMarks | src/main/java/org/chocosolver/cpviz/visualizers/DomainMatrix.java:77-89 | the output carries the matrix annotations exactly when there is a decision and no cell raised, and none otherwise |
| ElementViz.Print | src/main/java/org/chocosolver/cpviz/visualizers/Element.java:71-91 | writes the index, values and value arguments with their annotations |
| ElementViz.OutputShape | src/main/java/org/chocosolver/cpviz/visualizers/Element.java:71-91 | arguments "1", "2", "3" in order; the annotations are the index's at "1 1" and then the value's at "3 3" |
| ElementViz.IndexMarkPosition | src/main/java/org/chocosolver/cpviz/visualizers/Element.java:72-81 | the index's annotation comes right after its argument closes and before argument "2" opens |
| BoolChannelingViz.Build | src/main/java/org/chocosolver/cpviz/visualizers/BoolChanneling.java:44-120 | the constructors succeed exactly when every element casts to BoolVar and raise ClassCast otherwise; the offset is the given one or the variable's lower bound |
| BoolChannelingViz.Find | src/main/java/org/chocosolver/cpviz/visualizers/BoolChanneling.java:137-147 | the first position holding the variable, or the length when there is none |
| BoolChannelingViz.Print | src/main/java/org/chocosolver/cpviz/visualizers/BoolChanneling.java:123-150 | writes the variable, booleans and offset arguments with their annotations |
| BoolChannelingViz.PrintBoolMark | src/main/java/org/chocosolver/cpviz/visualizers/BoolChanneling.java:136-148 | the loop with its break writes exactly the boolean annotation |
| BoolChannelingViz.OutputShape | src/main/java/org/chocosolver/cpviz/visualizers/BoolChanneling.java:123-150 | arguments "1", "2", "3" in order; the annotations are the variable's at "1 1" and then at most one boolean annotation |
| BoolChannelingViz.FirstOccurrenceOnly | src/main/java/org/chocosolver/cpviz/visualizers/BoolChanneling.java:136-148 | a decision on a boolean annotates only its first occurrence, at "3 k+1" |
| BoolChannelingViz.NoBoolMark | src/main/java/org/chocosolver/cpviz/visualizers/BoolChanneling.java:136-148 | a decision on any other variable annotates no boolean |
| GccViz.Reach | src/main/java/org/chocosolver/cpviz/visualizers/Gcc.java:76-82 | the loop completes as many tuples as the shortest of values, low and high |
| GccViz.Print | src/main/java/org/chocosolver/cpviz/visualizers/Gcc.java:74-86 | writes the tuples argument and then the variables argument, or stops at the out-of-bounds read |
| GccViz.PrintTuples | src/main/java/org/chocosolver/cpviz/visualizers/Gcc.java:76-82 | the loop passes exactly when low and high are as long as values; otherwise it raises IndexOutOfBounds after the complete tuples and the broken one |
| GccViz.PrintTuple | src/main/java/org/chocosolver/cpviz/visualizers/Gcc.java:77-81 | one tuple is written in full exactly when low[i] and high[i] exist |
| GccViz.OutputOutcome | src/main/java/org/chocosolver/cpviz/visualizers/Gcc.java:74-86 | print raises exactly when low or high is shorter than values, and then with IndexOutOfBounds |
| GccViz.TuplesAt | src/main/java/org/chocosolver/cpviz/visualizers/Gcc.java:77-81 | the i-th five lines are tuple i |
| GccViz.OutputShape | src/main/java/org/chocosolver/cpviz/visualizers/Gcc.java:74-86 | a complete print opens arguments "1" then "2" and carries no annotation |
| CumulativeViz.Reach | src/main/java/org/chocosolver/cpviz/visualizers/Cumulative.java:79-85 | the loop completes as many tasks as the shorter of starts and durations |
| CumulativeViz.Print | src/main/java/org/chocosolver/cpviz/visualizers/Cumulative.java:77-90 | writes tasks, limit and end, or stops at the out-of-bounds read |
| CumulativeViz.PrintTasks | src/main/java/org/chocosolver/cpviz/visualizers/Cumulative.java:79-85 | the loop passes exactly when durations is as long as starts; otherwise it raises IndexOutOfBounds after the complete tasks and the broken one |
| CumulativeViz.PrintTask | src/main/java/org/chocosolver/cpviz/visualizers/Cumulative.java:80-84 | one task is written in full exactly when durations[i] exists |
| CumulativeViz.OutputOutcome | src/main/java/org/chocosolver/cpviz/visualizers/Cumulative.java:77-90 | print raises exactly when durations is shorter than starts, and then with IndexOutOfBounds |
| CumulativeViz.TasksAt | src/main/java/org/chocosolver/cpviz/visualizers/Cumulative.java:80-84 | the i-th five lines are task i |
| CumulativeViz.OutputShape | src/main/java/org/chocosolver/cpviz/visualizers/Cumulative.java:77-90 | a complete print opens "tasks", "limit", "end" in order and carries no annotation |
| InverseViz.Print | src/main/java/org/chocosolver/cpviz/visualizers/Inverse.java:65-69 | writes the two arguments |
| InverseViz.OutputShape | src/main/java/org/chocosolver/cpviz/visualizers/Inverse.java:65-69 | arguments "1" and "2", no annotation whatever the decision |
| InverseViz.XTwiceYNever | src/main/java/org/chocosolver/cpviz/visualizers/Inverse.java:66-67 | both arguments hold X's lines, and the output does not depend on Y |
| LexLtViz.Print | src/main/java/org/chocosolver/cpviz/visualizers/LexLt.java:65-89 | writes the two arguments |
| LexLtViz.OutputShape | src/main/java/org/chocosolver/cpviz/visualizers/LexLt.java:65-89 | arguments "1" and "2", no annotation, since the annotation code is commented out |
| LexLtViz.XAt | src/main/java/org/chocosolver/cpviz/visualizers/LexLt.java:66 | line i+1 is X[i]'s line with index i+1 |
| BinPackingViz.PadFront | src/main/java/org/chocosolver/cpviz/visualizers/BinPacking.java:46-48 | a copy one longer with the first element repeated in front; an empty array raises IndexOutOfBounds |
| BinPackingViz.BuildPadded | src/main/java/org/chocosolver/cpviz/visualizers/BinPacking.java:43-57 | the short constructor succeeds exactly when items, sizes and bins are all non-empty, and pads each with its first element |
| BinPackingViz.BuildPlain | src/main/java/org/chocosolver/cpviz/visualizers/BinPacking.java:74-79 | the long constructor keeps the arrays as given |
| BinPackingViz.Print | src/main/java/org/chocosolver/cpviz/visualizers/BinPacking.java:82-86 | writes items, sizes and bins |
| BinPackingViz.OutputShape | src/main/java/org/chocosolver/cpviz/visualizers/BinPacking.java:82-86 | arguments "items", "sizes", "bins" in order, no annotation |
| BinPackingViz.ItemAt | src/main/java/org/chocosolver/cpviz/visualizers/BinPacking.java:83 | item k is written with index k+1 |
| BinPackingViz.PaddedItems | src/main/java/org/chocosolver/cpviz/visualizers/BinPacking.java:43-57 | after padding, index 1 repeats item 0 and item j is written with index j+2 |
| Trace.PopUndoesSet | src/main/java/org/chocosolver/cpviz/Visualization.java:325 | setting the parent inside a pushed world is undone by popping it |
| Trace.LabelSize | src/main/java/org/chocosolver/cpviz/Visualization.java:302-313 | the name and size a node record carries: an IntVar's name and domain size, a SetVar's name and envelope size, else its text and "?" |
| Trace.InitSequence | src/main/java/org/chocosolver/cpviz/Visualization.java:261-282 | after initialization, node 0 is the parent, the next state id is 3, the tree holds the root, and the snapshots are states 1 (node -1) and 2 (node 0) |
| Trace.DownBranchCounts | src/main/java/org/chocosolver/cpviz/Visualization.java:298-328 | each branch adds one to the node id and one to the state id |
| Trace.DownBranchRecord | src/main/java/org/chocosolver/cpviz/Visualization.java:301-326 | with a tree, one record: fail after a contradiction, try otherwise, with the new id, the parent, and the decision value; then the new node is the parent, the flag is cleared, and one focused snapshot is requested |
| Trace.DownBranchWithoutTree | src/main/java/org/chocosolver/cpviz/Visualization.java:301 | without a tree a branch writes nothing, requests no snapshot and leaves parent and flag alone |
| Trace.SearchCounters | src/main/java/org/chocosolver/cpviz/Visualization.java:289-335 | over any run of search callbacks, node and state ids both grow by the number of branches |
| Trace.SearchNodeIds | src/main/java/org/chocosolver/cpviz/Visualization.java:298-328 | the node records of a search carry consecutive ids starting after the current node |
| Trace.NodeSnapshotsFocused | src/main/java/org/chocosolver/cpviz/Visualization.java:314-322 | every snapshot that carries a decision is focused, because the flag is cleared before it is read |
| Trace.ContradictionsRaiseFlag | src/main/java/org/chocosolver/cpviz/Visualization.java:294-296 | any number of contradictions only raises the flag |
| Trace.ContradictionsCollapse | src/main/java/org/chocosolver/cpviz/Visualization.java:314-320 | after contradictions the next branch is one fail record and the one after it a try |
| Trace.SolutionRecord | src/main/java/org/chocosolver/cpviz/Visualization.java:330-335 | a solution writes one succ record for the current node, changes no counter and requests no snapshot |
| Trace.SavedKept | src/main/java/org/chocosolver/cpviz/Visualization.java:264 | the recorder's own callbacks never disturb the saved worlds of the parent cell |
| Trace.ParentRestored | src/main/java/org/chocosolver/cpviz/Visualization.java:325 | whatever the callbacks inside a world, popping it restores the parent |
| Trace.RunAppend | src/main/java/org/chocosolver/cpviz/Visualization.java:261-335 | running callbacks a then b is running b from where a left off |
| Recorder.AddMask | src/main/java/org/chocosolver/cpviz/Visualization.java:135-136 | adding an absent tool mask sets its bit, keeps the other bit, and stays within int |
| Recorder.ScopesPass | src/main/java/org/chocosolver/cpviz/Visualization.java:340-345 | a snapshot completes exactly when every visualizer's print completes |
| Recorder.ScopesInOrder | src/main/java/org/chocosolver/cpviz/Visualization.java:340-345 | the visualizer scopes follow the registration order, each wrapping that visualizer's output |
| Recorder.ScopesAbort | src/main/java/org/chocosolver/cpviz/Visualization.java:340-345 | when visualizer k is the first to raise, the snapshot ends with its opening tag and partial output, and the later visualizers print nothing |
| Recorder.ScopesFailure | src/main/java/org/chocosolver/cpviz/Visualization.java:343 | a raising snapshot raises one visualizer's exception |
| Recorder.SnapshotErrors | src/main/java/org/chocosolver/cpviz/Visualization.java:337-348 | a snapshot can raise only UnsupportedOperation or IndexOutOfBounds |
| Recorder.StateScopeShape | src/main/java/org/chocosolver/cpviz/Visualization.java:339-346 | a state scope opens with its state and node ids and closes only when every visualizer completed |
| Recorder.RespondStep | src/main/java/org/chocosolver/cpviz/Visualization.java:261-328 | when the snapshot completes, the callback has exactly the effect Trace.Step gives |
| Recorder.RespondWithoutSnapshots | src/main/java/org/chocosolver/cpviz/Visualization.java:270 | without a visualization stream nothing is snapshotted and the effect is Trace.Step's |
| Recorder.NodeAborted | src/main/java/org/chocosolver/cpviz/Visualization.java:320-327 | a raising snapshot leaves the node id advanced and the flag cleared, but the parent and the state id untouched |
| Recorder.InitResponse | src/main/java/org/chocosolver/cpviz/Visualization.java:261-282 | the records and counters of the two initialization callbacks, on success and on a raising snapshot |
| Recorder.DownBranchResponse | src/main/java/org/chocosolver/cpviz/Visualization.java:298-328 | the tree record, snapshot and counters of a branch, with or without a tree, on success and on a raising snapshot |
| Recorder.StateLong.constructor | src/main/java/org/chocosolver/cpviz/Visualization.java:113 | a new backtrackable long is 0 with no saved world |
| Recorder.StateLong.Set | src/main/java/org/chocosolver/cpviz/Visualization.java:325 | set changes the current value only |
| Recorder.StateLong.WorldPush | src/main/java/org/chocosolver/cpviz/Visualization.java:82 | a new world saves the current value |
| Recorder.StateLong.WorldPop | src/main/java/org/chocosolver/cpviz/Visualization.java:82 | popping a world restores the value it saved |
| Recorder.NewVisualization | src/main/java/org/chocosolver/cpviz/Visualization.java:109-121 | building with a null configuration raises NullPointer; otherwise a fresh recorder in its initial counters, with no tree or visualization, whose configuration gains the opening record |
| Recorder.Visualization.constructor | src/main/java/org/chocosolver/cpviz/Visualization.java:109-121 | stores the problem id and directory, writes the opening configuration record, starts with node -1, state 0 and parent 0 |
| Recorder.Visualization.CreateTree | src/main/java/org/chocosolver/cpviz/Visualization.java:133-155 | no configuration raises UnsupportedOperation; an already declared tree changes nothing; otherwise the mask is set and, if the file opened, the tool is declared and the tree opened, else UnsupportedOperation |
| Recorder.Visualization.CreateViz | src/main/java/org/chocosolver/cpviz/Visualization.java:180-203 | the visualizer list is always reset; no configuration raises UnsupportedOperation; an already declared viz changes nothing else; otherwise the mask is set and, if the file opened, a writer on it is created, the tool declared and the visualization opened, else UnsupportedOperation |
| Recorder.Visualization.AddVisualizer | src/main/java/org/chocosolver/cpviz/Visualization.java:223-233 | before createViz raises NullPointer; otherwise appends the visualizer, gives it the writer and its 1-based position as id, and declares it with its options |
| Recorder.Visualization.BeforeClose | src/main/java/org/chocosolver/cpviz/Visualization.java:237-250 | each open stream gets its closing record and is closed |
| Recorder.Visualization.PrintVisualizerStat | src/main/java/org/chocosolver/cpviz/Visualization.java:337-348 | with a visualization and a list, writes one state scope holding each visualizer's scope in order; otherwise writes nothing |
| Recorder.Visualization.BeforeInitialize | src/main/java/org/chocosolver/cpviz/Visualization.java:261-274 | writes exactly the tree and snapshot records Trace gives for the first initialization callback and moves the counters as it does |
| Recorder.Visualization.InitEnter | src/main/java/org/chocosolver/cpviz/Visualization.java:263-269 | node 0, parent 0, state 1, and the root record |
| Recorder.Visualization.AfterInitialize | src/main/java/org/chocosolver/cpviz/Visualization.java:276-282 | writes the node-0 snapshot and moves the state id as Trace gives |
| Recorder.Visualization.AfterDownBranch | src/main/java/org/chocosolver/cpviz/Visualization.java:289-291 | records a node, as node() does |
| Recorder.Visualization.Node | src/main/java/org/chocosolver/cpviz/Visualization.java:298-328 | writes exactly the tree record and snapshot Trace gives for the last decision and moves the counters as it does, stopping where a raising snapshot stops |
| Recorder.Visualization.NodeEnter | src/main/java/org/chocosolver/cpviz/Visualization.java:299-320 | the node id step and the try or fail record |
| Recorder.Visualization.NodeLeave | src/main/java/org/chocosolver/cpviz/Visualization.java:324-327 | the flag cleared, the parent set and the state id stepped |
| Recorder.Visualization.OnContradiction | src/main/java/org/chocosolver/cpviz/Visualization.java:294-296 | raises the failure flag, as Trace gives |
| Recorder.Visualization.OnSolution | src/main/java/org/chocosolver/cpviz/Visualization.java:330-335 | writes the succ record Trace gives and changes no counter |
| Recorder.PrintState | src/main/java/org/chocosolver/cpviz/Visualization.java:339-346 | writes the state scope around the visualizer scopes |
| Recorder.PrintScopes | src/main/java/org/chocosolver/cpviz/Visualization.java:340-345 | the loop writes exactly the visualizer scopes, stopping at the first exception |
| Recorder.PrintScope | src/main/java/org/chocosolver/cpviz/Visualization.java:341-344 | one visualizer's opening tag, its output, and the closing tag if it completed |

## Left out

- Files are not created. A `PrintWriter` that fails to open becomes a `null` sink parameter. The printed stack trace is not modelled.
- The XML text of each line is not modelled. Records carry the values that the `CPVizConstant` format strings receive.
- The `Visualization(solver, dir)` constructor is left out: it draws a random problem id.
- The solver is not modelled: plugging the monitor in, the search loop, and the environment's trail. The trail drives the parent cell only through `WorldPush` and `WorldPop`. Popping with no open world leaves the cell as it is.
- `Show`'s masks are inlined as the constants 1 (tree) and 2 (viz).
- The no-argument `createTree()` and `createViz()` are left out. They only pass the default layout, display, repeat and size to the five-argument forms.
- `beforeDownBranch` and `afterClose` are empty in the source, so they have no members.
- `BinaryVector`, `AllDifferent`, `VectorWaterfall` and `AllDifferentMatrix` are not part of this model.
- `Writer.svar` always raises `UnsupportedOperationException`. It appears only as the UnsupportedOperation outcome of a non-IntVar, and `Writer.domain` is unused.
- Renderer arrays are values, so aliasing between a renderer and its caller, and null arrays, are not modelled.
- A decision's value is an `int`. The `(Integer)` casts of `getDecisionValue()` in the renderers and a non-Integer value in the tree records are not modelled: the recorder only hands renderers decisions over integer variables.
- `node_id` and `state_id` are Java `long`s but are kept unbounded: 2^63 callbacks are out of reach.
- The public `trace_tools` field is only changed by `createTree` and `createViz`. Outside writes are not modelled.
- Writing.Writer.Ivar: requires an indentation other than 7, where `prefix` raises `ArrayIndexOutOfBoundsException`. The same requirement is on Integer, ArrayDvarInts, ArrayDvarVars, Array, ArgumentIn, ArgumentOut, TupleIn, TupleOut, CollectionIn, CollectionOut, Var and the record functions. Every call site in the renderers passes 3, 4 or 5.
- Recorder.Visualization.BeforeInitialize: the visualizer outputs and the Trace response are ghost outputs. The same holds for AfterInitialize, AfterDownBranch and Node. They let the contract name the snapshot written, and the source returns nothing.
- Recorder.Visualization.Node: the store must type every renderer's variables as the Java field types do. The same holds for the other callbacks and PrintVisualizerStat.
