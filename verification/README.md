# A verified model of the PlotJuggler core data layer

This project models the stateful parts of the data layer in Dafny and proves, for all inputs and over whole runs, that
each of them agrees with a much simpler description of what it is for.

**Derived-transform engine.** Single-input and multi-input transforms form a graph. They run incrementally, with dirty
flags, chunk-number and time watermarks, and, if asked, only for the nodes someone looks at. The simple description: a
derived topic is its operator folded over the whole history of its inputs.
`World`, `Runs` and `Denotation` hold the transition system and that description; `DerivedEngines.DerivedEngine` is the
class with the tables and loops of the program, and every method of it is proved to be one step of the system.
An operator is any pair of an initial memory and a step function that keeps the order of times (`Transforms.Obeys`).

**Columnar store.** A topic is a time-ordered sequence of rows of optional values. Writers (`DataWriters.DataWriter`),
chunk builders that own one column each per field (`ChunkBuilders.ChunkBuilder`), column buffers with lazy null bitmaps
and rebased string offsets (`ColumnBuffers.TypedColumnBuffer`), sealing with four encodings (`SealedColumns`), storage, retention and draining (`DataEngines`, `EngineDrain`) and binary-searched cursors
(`RangeCursors`, `SeriesQueries`) are proved against that sequence.

**Object store.** Time-ordered payloads with two kinds of retention, an all-or-nothing move between two stores
(`ObjectStores.ObjectStore`), and the locks behind it as a step relation between threads (`LockOrder`).

**Wire format.** The Protocol Buffers encoding, sections "Base 128 Varints", "Message Structure" and "Packed Repeated
Fields": `WireFormat` has the values, `WireStreams` the reader and the writer, and the codecs are proved to undo each
other, also with unknown fields in between. Doubles are 64-bit patterns throughout.

Conventions: times and counts are unbounded integers, and 32-bit and 64-bit wrap-around is written out wherever a
result depends on it (the exceptions are listed below); what the program asserts
of its callers is a precondition, what it returns as an error is a result. Some predicates are kept folded behind a
trigger so that the proofs of long methods stay short; `Folding` explains how.

## Findings

Properties that do not hold of the code as it is. The code is modelled unchanged; each has an input that shows it and a
proof of exactly when the property holds.

- **Removing a node can be visible later.** A removed node's output topics keep their rows, but not the rows that its
  pending work would have added. `Removal.UnsettledRemovalIsVisible` gives two runs with the same calls and different
  rows; `LazyExactness.LazyEqualsEagerExactly` says that lazy and eager runs agree if and only if every removal found
  its outputs complete; `LazyExactness.ScheduledFirstIsHarmless` gives the rule a caller can follow: schedule a node
  directly before removing it.
- **A sealed column can change values.** A block of doubles whose row 0 is null over a slot with 7, and whose other
  rows are 5, is sealed as the constant 7 (`SealedContent.NullFirstRowIsRead`). A null, then 0.0 in a row by itself,
  then a block with 5 reads back as 0 (`SealedContent.LateStartLosesAValue`). 2^53 and 2^53 + 1 as unsigned 64-bit
  integers read back as the same number (`SealedContent.LargeIntegerIsLost`). `SealedContent.PreservedExactly` is the
  exact condition; a value in row 0 (and, for unsigned integers, values up to 2^53) suffices.
- **An unknown field can break a timestamp.** A nested timestamp tolerates one field it does not know, at any place, if
  and only if that field is not a varint (`TimestampUnknowns.UnknownTolerated`): the handler reads the varint before it
  looks at the field number, and the loop then skips one more.
- **The earliest timestamps cannot be decoded.** Combining undoes splitting exactly from -9223372036 whole seconds on
  (`GeometryCodec.CombineSplit`).
- **A drain can hide chunks from a node.** Draining checks times, not chunk numbers. A node that had read the
  destination sees what moved in if and only if the numbers run on (`DrainNumbers.ReaderSeesExactly`,
  `DrainNumbers.OlderChunkIsMissed`).
- **A bulk append and its rows one at a time can be sealed differently.** Both leave the same rows, but the block
  [null, 5, 5] is sealed as a constant and reads back as whatever is under the null, while its rows one at a time read
  back as 5 (`SealedContent.BlockAndRowsDiffer`). `SealedContent.BlockRefinesRows` has the exact condition: no run has
  started, the block's first value is not in row 0, and its values are all equal, but not to 0.0.
- **Source topics of one name can leave a drained topic out of order.** Each is checked against what the destination
  holds before the drain, not against the others (`DrainNumbers.SharedNameStepsBack`); the destination stays ordered if
  and only if they follow each other in the order in which they are met (`DrainNumbers.SharedNameExactly`).
- **A flush in the middle of a row loses it.** The open row goes with the builder if that has finished rows, and stays
  open if it has none (`Flushes.OpenRowAfterFlush`); nothing that was finished is lost (`WriterRuns.RunConserves`).
- **Single-input calls need not have strictly rising times.** The transform header promises strictly ascending times
  (pj_datastore/include/pj_datastore/derived_engine.hpp:36-44), but the loop passes on equal times as stored
  (pj_datastore/src/derived_engine.cpp:707-753). `StrictCalls.EqualTimesAreCalled` is a legal run with two rows of one
  time; `StrictCalls.StrictCallsOverRun` says that the times rise strictly, at any point of any run, if and only if
  every row committed to the source topic was after the newest one there.

## Model

| member | source | states |
|---|---|---|
| Runs.StepKeepsInv | pj_datastore/src/derived_engine.cpp:285-962 | adding a topic or a node, removing a node, a commit with its notification and a schedule each keep the invariant: acyclic graph, one producer per topic, outputs and memory of each node are its operator folded over what lies below its watermarks, and a clean node has nothing above them |
| Runs.RunSound | pj_datastore/src/derived_engine.cpp:688-962 | dirty flags are sound: the invariant holds at every state of every legal run, so a clean node is always caught up |
| NodeRuns.WorkCompletes | pj_datastore/src/derived_engine.cpp:707-883 | what a node emitted so far, followed by what it emits for its pending calls, is its operator folded over its whole input, and so is its memory |
| NodeRuns.EmitsFit | pj_datastore/include/pj_datastore/derived_engine.hpp:66-74 | if the operator keeps its order contract, storage accepts every chunk a run emits |
| StrictCalls.StrictCallsExactly | pj_datastore/include/pj_datastore/derived_engine.hpp:36-44 | the calls of a single-input operator rise strictly if and only if no two rows of its input have one time |
| StrictCalls.StrictOverRun | pj_datastore/src/derived_engine.cpp:707-753 | over any run a source topic is strictly ordered if and only if it was and every row committed since was after the newest one |
| StrictCalls.StrictCallsOverRun | pj_datastore/src/derived_engine.cpp:707-753 | hence the promise of strictly rising calls holds, at any point of any run, if and only if every commit since the topic was created was strictly later |
| StrictCalls.EqualTimesAreCalled | pj_datastore/src/derived_engine.cpp:720-741 | a concrete legal run after which the operator is owed two calls with one time |
| NodeRuns.RunKeepsInv | pj_datastore/src/derived_engine.cpp:707-883 | one incremental run of one node keeps the whole invariant: it is caught up, and the nodes that read it are marked |
| Denotation.SettledMeaning | pj_datastore/src/derived_engine.cpp:893-962 | a topic whose producers are all clean, transitively, holds what operators composed over source histories say |
| Scheduling.PassSettles | pj_datastore/src/derived_engine.cpp:926-962 | a pass in producer-first order leaves everything it chose clean, upstream included |
| LazyScheduling.ScheduleAllCompletes | pj_datastore/src/derived_engine.cpp:889-891 | after scheduling everything no node is dirty, and every output is its operator over its whole input history |
| LazyScheduling.ActiveOutputsAreExact | pj_datastore/src/derived_engine.cpp:893-962 | after scheduling some nodes, their outputs are complete with regard to the source topics, however stale the rest is |
| LazyScheduling.LazyPassIsLocal | pj_datastore/src/derived_engine.cpp:893-962 | a node that no active node depends on keeps outputs, memory and watermarks, and a dirty one stays dirty |
| LazyScheduling.StepOutside | pj_datastore/src/derived_engine.cpp:285-962 | after a call, graph, source rows and counters are a function of those before it, if and only if the call is not a removal that leaves incomplete outputs behind |
| LazyScheduling.RemoveOutside | pj_datastore/src/derived_engine.cpp:575-610 | the same for a removal, which turns outputs into source topics: exactly if they are complete at that moment |
| LazyScheduling.ScheduledIsHarmless | pj_datastore/src/derived_engine.cpp:893-962 | a node just scheduled has complete outputs, so it may be removed |
| LazyScheduling.ActiveOutputsDependOnCallsOnly | pj_datastore/src/derived_engine.cpp:893-962 | whatever was scheduled before, once a node is active its outputs are a function of the other calls alone |
| LazyScheduling.LazyEqualsEager | pj_datastore/src/derived_engine.cpp:893-962 | two runs that differ only in what they schedule, whose removals are harmless and which end by scheduling everything, hold the same rows in every topic |
| LazyExactness.SourceRun | pj_datastore/src/derived_engine.cpp:688-701 | over any run, a source topic gains exactly what is committed to it |
| LazyExactness.HarmIsVisible | pj_datastore/src/derived_engine.cpp:575-610 | one harmful removal leaves a topic that differs for good from the run without it |
| LazyExactness.LazyEqualsEagerExactly | pj_datastore/src/derived_engine.cpp:575-962 | a run ends with the same rows as one with harmless removals and the same calls if and only if its own removals are harmless |
| LazyExactness.ScheduledFirstIsHarmless | pj_datastore/src/derived_engine.cpp:575-610 | a run in which every removal directly follows scheduling that node has only harmless removals |
| Prefixes.StoredIsPrefix | pj_datastore/src/derived_engine.cpp:707-962 | whatever is dirty, every topic holds a prefix of what its operators say about the source histories |
| Prefixes.NothingIsWrong | pj_datastore/src/derived_engine.cpp:688-962 | so at every state of every run outputs are never wrong, only late, for inputs of joins whose full histories rise strictly |
| Prefixes.LackingRows | pj_datastore/src/derived_engine.cpp:707-883 | what an output lacks is exactly what the operator will emit for the calls it is owed, those included that its producers still owe |
| Prefixes.RemovalAlwaysExact | pj_datastore/src/derived_engine.cpp:575-610 | whatever is settled upstream, a removal leaves complete outputs if and only if the operator would emit nothing for the calls it is owed |
| Removal.RemovalExact | pj_datastore/src/derived_engine.cpp:575-610 | the special case in which all producers upstream are settled: what is owed is then what is pending |
| Removal.UnsettledRemovalIsVisible | pj_datastore/src/derived_engine.cpp:575-610 | two concrete legal runs with the same calls that end with different rows |
| Join.JoinMeaning | pj_datastore/src/derived_engine.cpp:798-875 | the operator is called exactly once, in rising order, for each time above the watermark that every input has, with each input's last value at it |
| Join.JoinSplit | pj_datastore/src/derived_engine.cpp:759-883 | joining from a watermark continues exactly where the calls up to it stop |
| Join.JoinStable | pj_datastore/src/derived_engine.cpp:759-883 | with strictly rising input times, calls up to a watermark do not change when the inputs grow: the join does not depend on how the input is split into commits |
| TimeJoin.Intersect | pj_datastore/src/derived_engine.cpp:798-829 | the times kept are exactly those that every input has, each once and in rising order |
| TimeJoin.JoinTopics | pj_datastore/src/derived_engine.cpp:798-875 | the loops of the multi-input run make exactly the calls of the join |
| NodeRunner.FeedAll | pj_datastore/src/derived_engine.cpp:720-741 | the operator and the writer, fed event by event, hold exactly the fold's memory and emitted rows; a refusal means a row stepped back in time |
| NodeRunner.RunSiso | pj_datastore/src/derived_engine.cpp:707-753 | a single-input run: topics only grow; from a well-kept store, with an operator that keeps its contract, it succeeds, every output gains the rows emitted for the pending input, and the watermark is the last chunk seen |
| NodeRunner.RunMimo | pj_datastore/src/derived_engine.cpp:759-883 | the same for a multi-input run with its time watermark |
| UpstreamFilter.Filter | pj_datastore/src/derived_engine.cpp:896-924 | the least set that holds the active nodes and everything they depend on |
| CycleCheck.CheckCycle | pj_datastore/src/derived_engine.cpp:240-279 | terminates on any graph, cyclic ones too, and reports a cycle if and only if some given output can be reached from the inputs by walking from topics to their producers' inputs |
| KahnOrder.KahnSort | pj_datastore/src/derived_engine.cpp:628-682 | terminates with every node once and every producer before its consumers |
| NodeIndexes.AddKeepsEdges | pj_datastore/src/derived_engine.cpp:382-406 | after registering a node the consumer lists are again exactly the feeding relation, without duplicates |
| NodeIndexes.DropKeepsEdges | pj_datastore/src/derived_engine.cpp:575-610 | and after removing one |
| OutputNames.AddKeepsNames | pj_datastore/src/derived_engine.cpp:382-406 | after registering a node the name table again maps exactly the output names of the nodes to their topics |
| OutputNames.DropKeepsNames | pj_datastore/src/derived_engine.cpp:575-610 | and after removing one |
| OutputNames.FoundByName | pj_datastore/src/derived_engine.cpp:536-545 | in an exact table an output is found under its own name if and only if no later output of the same call took that name |
| DerivedEngines.DerivedEngine.AddSiso | pj_datastore/src/derived_engine.cpp:285-411 | succeeds exactly for a known dataset, a fresh name and a one-column input; then it is the add step and all tables stay exact; a failure changes nothing |
| DerivedEngines.DerivedEngine.AddMimo | pj_datastore/src/derived_engine.cpp:413-573 | the same for several inputs and outputs; a failure changes nothing but may use up a node id |
| DerivedEngines.DerivedEngine.RemoveNode | pj_datastore/src/derived_engine.cpp:575-610 | succeeds exactly for a known node; then it is the remove step and no table mentions the node |
| SourceTopics.CreateSource | pj_datastore/src/engine.cpp:73-92 | creating a source topic beside a derived engine in use keeps all its tables and is the new-topic step; a failure changes nothing |
| DerivedEngines.DerivedEngine.NodeOrder | pj_datastore/src/derived_engine.cpp:628-682 | the order of the current graph: each node once, producers first |
| DerivedEngines.DerivedEngine.OnSourceCommitted | pj_datastore/src/derived_engine.cpp:688-701 | marks exactly the nodes that read a changed topic and changes nothing else |
| DerivedEngines.DerivedEngine.ScheduleActive | pj_datastore/src/derived_engine.cpp:893-962 | keeps all tables and the graph; from a state that satisfies the invariant, with multi-input times strictly rising, it succeeds and is one schedule step |
| DerivedEngines.DerivedEngine.ScheduleAll | pj_datastore/src/derived_engine.cpp:889-891 | the same for the empty active set |
| DerivedEngines.DerivedEngine.RecomputeBatch | pj_datastore/src/derived_engine.cpp:968-1013 | replays one node over its whole input; fails without change for an unknown node |
| Recompute.RecomputeMeaning | pj_datastore/src/derived_engine.cpp:968-1013 | recomputing succeeds under the operator contract and leaves the operator folded over the whole input history, which is what incremental runs add up to |
| CommitCycle.CommitThenNotify | pj_datastore/src/engine.cpp:154-173 | committing a batch that continues each source topic in time and number, then notifying with the reported topics, is exactly the commit step |
| CommitCycle.CommitAndNotify | pj_datastore/src/derived_engine.cpp:688-701 | the same for the engine object: it stays valid and has made that step |
| CommitOrder.CommitPerTopic | pj_datastore/src/engine.cpp:154-173 | what a topic gains depends only on the chunks addressed to it, in order: a batch may list topics in any order |
| CommitOrder.TopicAppends | pj_datastore/src/engine.cpp:154-173 | a topic whose rows the chunks continue in time gains all of them and stays ordered |
| DataEngines.DataEngine.CommitChunks | pj_datastore/src/engine.cpp:154-173 | storage stays time-ordered for any batch, and the result is exactly the sorted, duplicate-free list of topics that gained a chunk |
| DataEngines.DataEngine.CreateDataset | pj_datastore/src/engine.cpp:40-59 | a new dataset under the next id; time domains are not modelled |
| DataEngines.DataEngine.CreateTopic | pj_datastore/src/engine.cpp:73-92 | succeeds exactly for a known dataset, under the next id; a failure changes nothing |
| Orders.UniqueMeaning | pj_datastore/src/engine.cpp:169-171 | dropping neighbours that are equal from an ordered list keeps every element once |
| SortedIds.SortMeaning | pj_datastore/src/engine.cpp:169-171 | sorting orders and keeps the contents, as a multiset |
| TopicStorages.TopicStorage.AppendSealedChunk | pj_datastore/src/topic_storage.cpp:18-29 | rejects exactly the chunks that start before the newest stored row, and keeps the topic ordered |
| TopicStorages.EvictedKeepsRecent | pj_datastore/src/topic_storage.cpp:31-42 | eviction drops a prefix of the rows, none of them at or after the limit |
| EngineDrain.EnforceRetention | pj_datastore/src/engine.cpp:175-183 | every topic is cut back to the window before its own newest row |
| EngineDrain.RetainedKeepsWindow | pj_datastore/src/engine.cpp:175-183 | no dropped row is within the window |
| EngineDrain.RetainedKeepsNewest | pj_datastore/src/engine.cpp:175-183 | with a window of at least zero no topic becomes empty and its newest row stays |
| EngineDrain.FlushTo | pj_datastore/src/engine.cpp:185-240 | all or nothing: refused without change, because of one named topic or because both are the same engine; or every source topic is empty and each destination is its old chunks followed by the source's |
| DrainNumbers.RisesExactly | pj_datastore/src/engine.cpp:225-240 | a drained topic is numbered upwards if and only if the first chunk moved in has a number above the last one there |
| DrainNumbers.ReaderSeesExactly | pj_datastore/src/derived_engine.cpp:720-724 | a node that had read the whole destination sees all chunks that moved in if and only if they run on, else it never sees the first of them |
| DrainNumbers.DrainRisesExactly | pj_datastore/src/engine.cpp:185-240 | after a drain all topics are numbered upwards if and only if the chunks run on in every topic that received any |
| DrainNumbers.DrainNumberedExactly | pj_datastore/src/engine.cpp:185-240 | after a drain the destination's numbers are below a counter if and only if both engines' were |
| DrainNumbers.FlushNumbered | pj_datastore/src/engine.cpp:185-240 | a drain keeps all numbers below the counter, if both engines' were |
| DrainNumbers.OlderChunkIsMissed | pj_datastore/src/engine.cpp:185-240 | an older chunk with newer rows is accepted, and never read |
| DrainNumbers.SharedNameExactly | pj_datastore/src/engine.cpp:198-237 | source topics of one name that all pass the check leave the destination in time order if and only if each starts where the one before it ends, or later |
| DrainNumbers.SharedNameStepsBack | pj_datastore/src/engine.cpp:198-237 | two such topics that leave it out of order |
| DrainCycle.DrainCommitsRows | pj_datastore/src/engine.cpp:185-240 | a drain brings exactly the source's rows, as a commit does, if and only if the chunks run on and no node writes the destinations |
| DrainCycle.DrainInto | pj_datastore/src/engine.cpp:185-240 | a drain into the engine of a derived engine leaves the derived engine valid and changes nothing but stored chunks |
| DrainCycle.DrainAndNotify | pj_datastore/src/derived_engine.cpp:688-701 | a drain followed by the notification of its destinations is one commit step if and only if the chunks run on and no node writes them |
| DataWriters.DataWriter.BeginRow | pj_datastore/src/writer.cpp:263-275 | refuses exactly unknown topics and times before the builder's last row |
| DataWriters.DataWriter.Set | pj_datastore/src/writer.cpp:293-308 | one more value in the open row and nothing else |
| DataWriters.DataWriter.FinishRow | pj_datastore/src/writer.cpp:276-292 | the row is appended with nulls where nothing was set; a full builder becomes a pending chunk |
| DataWriters.DataWriter.AppendColumns | pj_datastore/src/writer.cpp:348-406 | a bulk append of sorted rows terminates and leaves the same builders, chunks, numbers and layouts as one begin, set, finish round per row |
| DataWriters.DataWriter.Flush | pj_datastore/src/writer.cpp:481-499 | hands over the pending chunks of the topic and then its builder, at any time, also while a row is open |
| DataWriters.DataWriter.FlushAll | pj_datastore/src/writer.cpp:501-530 | at any time: per topic the batch reads back exactly the finished rows held, in order; no chunk is empty or too long, and numbers continue the pending ones |
| DataWriters.DataWriter.EnsureColumn | pj_datastore/src/writer.cpp:536-581 | finds or adds the column; a column never changes its type; a row in progress is left alone; rows under the old layout are sealed first |
| DataWriters.DataWriter.ExpandArray | pj_datastore/src/writer.cpp:587-707 | the count becomes the clamped request if that is larger; old columns keep their places, and every element below the count has its columns |
| BulkAppend.AppendBatches | pj_datastore/src/writer.cpp:380-404 | the batching loop equals one round per row, at every limit of at least one row |
| BulkAppend.PutRowsMeaning | pj_datastore/src/writer.cpp:263-308 | the rounds append each row once, in order, and no other topic notices |
| BulkAppend.PutRowsConcat | pj_datastore/src/writer.cpp:348-406 | appending in two parts equals appending at once |
| WriterStates.FinishedAppends | pj_datastore/src/writer.cpp:276-292 | finishing a row appends exactly that row, whether or not the builder becomes full |
| Flushes.TakenMeaning | pj_datastore/src/writer.cpp:481-499 | flushing one topic hands over its rows in order and touches no other topic |
| Flushes.OpenRowAfterFlush | pj_datastore/src/writer.cpp:481-499 | a row that is open stays open if its builder has no finished rows, and is lost with the builder otherwise |
| Flushes.SealAll | pj_datastore/src/writer.cpp:501-530 | sealing all builders moves all rows into the batch, and loses none |
| Layouts.WithColumnOk | pj_datastore/src/writer.cpp:536-581 | a new column keeps ids equal to positions and paths unique |
| Layouts.AddElements | pj_datastore/src/writer.cpp:654-699 | so do array elements, and every element asked for is there |
| WriterRuns.StepSound | pj_datastore/src/writer.cpp:263-802 | every legal call keeps the writer's invariant: ids equal positions, paths are unique, the open builder has the current layout and is not full, and no pending chunk is empty or above the limit |
| WriterRuns.RunSound | pj_datastore/src/writer.cpp:263-802 | so the invariant holds throughout every run of a new writer |
| WriterRuns.StepConserves | pj_datastore/src/writer.cpp:263-802 | per topic, what a call hands over followed by what is then held is what was held followed by what the call added |
| WriterRuns.RunConserves | pj_datastore/src/writer.cpp:481-802 | over any run, what was handed over followed by what is held is exactly what was accepted, in order |
| WriterRuns.ChunksFit | pj_datastore/src/writer.cpp:481-802 | no chunk handed over in any run is empty or above the limit |
| WriterRuns.ExpansionIsMaximum | pj_datastore/src/writer.cpp:587-707 | over any run the expansion count is the maximum of where it started and all clamped requests that succeeded |
| WriterNumbers.RunNumbersRise | pj_datastore/src/chunk.cpp:458-475 | over any run the chunks handed over for a topic, and then those pending, are numbered upwards |
| WriterCalls.DoBeginRow | pj_datastore/src/writer.cpp:263-275 | beginning a row is a step of such a run: the builder is opened with the layout the run says, and refused exactly when the step says |
| WriterCalls.DoSet | pj_datastore/src/writer.cpp:293-308 | setting a value is a step of such a run: only the open row of that topic changes |
| WriterCalls.DoFinishRow | pj_datastore/src/writer.cpp:276-292 | finishing a row is a step of such a run, also when it seals the builder |
| WriterCalls.DoAppendColumns | pj_datastore/src/writer.cpp:348-406 | a bulk append to a sound writer is a step of such a run: its rows, chunks and layouts are those of the rounds |
| WriterCalls.DoFlush | pj_datastore/src/writer.cpp:481-499 | flushing a topic is a step of such a run: it hands over that topic's chunks and no other's |
| WriterCalls.DoFlushAll | pj_datastore/src/writer.cpp:501-530 | flushing everything is a step of such a run: it hands over everything, in sizes and numbers as the run says |
| WriterCalls.DoEnsureColumn | pj_datastore/src/writer.cpp:536-581 | adding a column is a step of such a run: the layout gains at most that column, and rows under the old one are sealed |
| WriterCalls.DoExpandArray | pj_datastore/src/writer.cpp:587-707 | expanding an array is a step of such a run, and moves the count as the run says |
| WriterRuns.ElapsedSound | pj_datastore/src/engine.cpp:154-173 | commits, chunk numbers taken by other writers and new topics between the calls of a run keep the writer's invariant |
| WriterCommits.OfferedAfter | pj_datastore/src/writer.cpp:713-741 | a commit gives a topic a layout only if none was known, and then that of a committed chunk |
| WriterCommits.DoCommit | pj_datastore/src/engine.cpp:154-173 | a commit between two calls of the writer, of its own chunks or others, is a step of such a run |
| BitVectors.BitVector.CountNulls | pj_datastore/src/buffer.cpp:90-110 | the count by bytes and one masked rest equals the number of unset bits |
| ColumnBuffers.TypedColumnBuffer.AppendFixed | pj_datastore/src/column_buffer.cpp:77-126 | the column's rows gain the value, and all earlier rows and null flags stay |
| ColumnBuffers.TypedColumnBuffer.AppendString | pj_datastore/src/column_buffer.cpp:129-151 | the same for a string |
| ColumnBuffers.TypedColumnBuffer.AppendNull | pj_datastore/src/column_buffer.cpp:153-184 | the same for a null; the bitmap is made only now if this is the first one |
| ColumnBuffers.TypedColumnBuffer.AppendFixedBulk | pj_datastore/src/column_buffer.cpp:187-236 | the same for a block of values |
| ColumnBuffers.TypedColumnBuffer.AppendStringsBulk | pj_datastore/src/column_buffer.cpp:239-280 | strings given by shared bytes and offsets read back one by one behind what was there: rebasing the offsets is exact |
| ColumnBuffers.TypedColumnBuffer.AppendValidityBulk | pj_datastore/src/column_buffer.cpp:282-304 | exactly the rows just appended whose flag is unset become null |
| ColumnBuffers.TypedColumnBuffer.ReadFixed | pj_datastore/src/column_buffer.cpp:88-96 | reads back the slot of the row |
| ColumnBuffers.TypedColumnBuffer.ReadString | pj_datastore/src/column_buffer.cpp:334-340 | reads back the string of the row |
| ColumnBuffers.TypedColumnBuffer.IsNull | pj_datastore/src/column_buffer.cpp:342-351 | tells exactly the null rows, bitmap or not |
| ColumnStats.ComputeBulk | pj_datastore/src/chunk.cpp:290-372 | the statistics loop over a block with nulls skipped |
| ColumnStats.ConstantExactly | pj_datastore/src/chunk.cpp:290-456 | after any mix of calls the constant flag says exactly: values before the run started are zeros, and within the run each value equals the one before it as a double |
| Encodings.ForRoundTrip | pj_datastore/src/encoding.cpp:174-252 | narrowed integers decode exactly over the whole 64-bit range, although the subtraction wraps around |
| Encodings.NoWrap | pj_datastore/src/encoding.cpp:174-220 | the unsigned difference to the minimum is the true one |
| Encodings.DictionaryEncode | pj_datastore/src/encoding.cpp:291-349 | every row looks up its own string at each index width, in a dictionary that holds each string of the column once, in order of first appearance, and no other |
| Encodings.PackBools | pj_datastore/src/encoding.cpp:351-383 | every packed bit reads back whether the byte was non-zero |
| SealedColumns.SealColumn | pj_datastore/src/chunk.cpp:458-573 | whichever encoding is chosen, the sealed column shows every null flag and, per row, either the row's own value or, when measured constant, slot 0 |
| SealedContent.PreservedExactly | pj_datastore/src/chunk.cpp:458-663 | every non-null value reads back if and only if the column is not of a measured kind or nothing is blurred: some value differs as a double from the one it is compared with, or all mean what slot 0 means |
| SealedContent.FirstRowSetPreserves | pj_datastore/src/chunk.cpp:546-556 | with a value in row 0, every value reads back as an equal double, whatever mix of calls made the column |
| SealedContent.SmallValuesPreserved | pj_datastore/src/chunk.cpp:546-556 | then booleans, and unsigned integers up to 2^53, read back exactly |
| SealedContent.RowsOnlyPreserves | pj_datastore/src/chunk.cpp:432-456 | a column filled only row by row reads back equal values even if row 0 is null |
| SealedContent.BlockRefinesRows | pj_datastore/src/chunk.cpp:255-456 | a block always leaves the same rows as its rows one at a time; the two constant flags differ if and only if no run has started, the first value is not in row 0, and all values are equal but not to 0.0; in every other case but that late start the statistics are the same |
| SealedContent.NoRunMeaning | pj_datastore/src/chunk.cpp:290-456 | no run has started exactly if every value so far came late and was a zero |
| SealedContent.BlockAndRowsDiffer | pj_datastore/src/chunk.cpp:290-456 | the block that is sealed as a constant while its rows one at a time are not |
| SealedContent.NullFirstRowIsRead | pj_datastore/src/chunk.cpp:546-549 | the block of doubles that is sealed as the constant 7 |
| SealedContent.LateStartLosesAValue | pj_datastore/src/chunk.cpp:290-372 | the 5 that reads back as 0 |
| SealedContent.LargeIntegerIsLost | pj_datastore/src/chunk.cpp:290-372 | the 2^53 + 1 that reads back as 2^53 |
| ColumnBuilders.ColumnBuilder.SetFixed | pj_datastore/src/chunk.cpp:96-142 | buffer and statistics stay in step: one more value |
| ColumnBuilders.ColumnBuilder.SetNull | pj_datastore/src/chunk.cpp:161-187 | one more null |
| ColumnBuilders.ColumnBuilder.AppendBlock | pj_datastore/src/chunk.cpp:209-280 | one more block, its null flags and then its statistics |
| ColumnBuilders.ColumnBuilder.SetText | pj_datastore/src/chunk.cpp:143-159 | one more string |
| ColumnBuilders.ColumnBuilder.AppendTextBlock | pj_datastore/src/chunk.cpp:244-280 | one more block of strings, its null flags and then its statistics |
| ColumnBuilders.ColumnBuilder.Seal | pj_datastore/src/chunk.cpp:458-573 | the column sealed from its own history of calls shows what that history says |
| ColumnChunks.RowTracked | pj_datastore/src/chunk.cpp:168-187 | finishing a row is one call on every column, and columns and rows stay aligned |
| ColumnChunks.BlockTracked | pj_datastore/src/chunk.cpp:255-280 | so is appending a block |
| ColumnChunks.ChunkReadsBack | pj_datastore/src/chunk.cpp:458-663 | a chunk that holds the rows of its columns is, row by row, what its sealed columns read back, for columns whose values survive sealing |
| ChunkBuilders.ChunkBuilder.constructor | pj_datastore/src/chunk.cpp:72-81 | the object with one column object per column is the writer's new builder |
| ChunkBuilders.ChunkBuilder.BeginRow | pj_datastore/src/chunk.cpp:83-89 | and stays the writer's builder when a row is begun |
| ChunkBuilders.ChunkBuilder.SetFixed | pj_datastore/src/chunk.cpp:95-142 | when a value is set, which goes into its column at once and touches no other |
| ChunkBuilders.ChunkBuilder.SetText | pj_datastore/src/chunk.cpp:143-159 | when a string is set |
| ChunkBuilders.ChunkBuilder.SetNull | pj_datastore/src/chunk.cpp:161-166 | when a null is set |
| ChunkBuilders.ChunkBuilder.FinishRow | pj_datastore/src/chunk.cpp:168-183 | when a row is finished: exactly the columns not set get a null |
| ChunkBuilders.ChunkBuilder.AppendBatch | pj_datastore/src/chunk.cpp:189-280 | and when a batch is appended, column by column |
| ChunkBuilders.ChunkBuilder.Seal | pj_datastore/src/chunk.cpp:458-573 | the sealed columns show what every column was given |
| ChunkBuilders.SealedReadsBack | pj_datastore/src/chunk.cpp:458-663 | the chunk that a writer's builder becomes holds, row by row, what the sealed columns read back; what an open row has put into the columns is not part of it |
| BulkColumns.BatchOfBlock | pj_datastore/src/writer.cpp:324-346 | a batch's part of the slots and its validity subspan are that part of the block |
| BulkColumns.BatchOfTexts | pj_datastore/src/writer.cpp:324-346 | a batch's part of the offsets, over shared bytes, is that part of the strings |
| BulkColumns.BulkRow | pj_datastore/src/writer.cpp:348-406 | row i of a bulk append has in each column the value given for that column |
| BulkColumns.BulkTracked | pj_datastore/src/writer.cpp:348-406 | after a bulk append the columns hold the builder's rows followed by the new ones |
| BulkColumns.SliceGives | pj_datastore/src/writer.cpp:324-346 | the slice of slots or offsets that a batch hands over, with its validity subspan, is that part of the column's rows |
| BulkColumns.BatchForBuilder | pj_datastore/src/writer.cpp:388-403 | each batch is what a chunk builder takes as one, and adds exactly the rows that one round per row adds |
| BulkColumns.BatchTracked | pj_datastore/src/writer.cpp:388-403 | after a batch the columns again hold exactly the builder's rows |
| BulkColumns.LoopTracked | pj_datastore/src/writer.cpp:388-403 | the whole loop: every chunk it makes holds exactly the rows of the columns filled for it, the open builder those of the columns left open, and both are what one round per row gives |
| BulkColumns.BulkLoopTracked | pj_datastore/src/writer.cpp:348-406 | the same for a whole bulk append, compared with one round per row |
| BulkColumns.MadeReadsBack | pj_datastore/src/writer.cpp:388-403 | so each chunk made reads back those rows from its sealed columns, where values survive sealing |
| Queries.HitsSound | pj_datastore/src/query.cpp:57-174 | the reference enumeration is strictly rising in global order and only has selected rows |
| Queries.HitsComplete | pj_datastore/src/query.cpp:57-174 | and misses none |
| Queries.OrderedTimeline | pj_datastore/src/topic_storage.cpp:18-29 | what storage keeps in order is what the cursors need |
| Queries.QueryOfTopic | pj_datastore/src/query.cpp:57-174 | its rows are exactly the topic's rows within the time range, in order |
| Searching.LowerBound | pj_datastore/src/query.cpp:128-160 | the first position not below a time, exactly |
| Searching.UpperBound | pj_datastore/src/query.cpp:180-205 | the first position above a time, exactly |
| RangeCursors.RangeCursor.FindFirstValid | pj_datastore/src/query.cpp:128-160 | the binary search stops where the enumeration starts |
| RangeCursors.RangeCursor.Advance | pj_datastore/src/query.cpp:72-81 | drops exactly the first of the rows to come |
| RangeCursors.RangeCursor.ForEach | pj_datastore/src/query.cpp:83-88 | visits exactly the rows to come, once each and in order |
| RangeCursors.RangeCursor.ForEachChunk | pj_datastore/src/query.cpp:90-126 | from any position, its runs flatten to the same rows, and no two runs are of one chunk |
| RangeCursors.ApartMeaning | pj_datastore/src/query.cpp:90-126 | runs that are apart are in order and of different chunks |
| RangeCursors.LatestAt | pj_datastore/src/query.cpp:180-205 | the last row in global order not after the time, and none exactly if all rows are later |
| SeriesQueries.SeriesCursor.ForEach | pj_datastore/src/query.cpp:239-284 | visits exactly the non-null samples to come |
| SeriesQueries.CountMeaning | pj_datastore/src/query.cpp:327-376 | the samples before a time are exactly those with an index below their number |
| SeriesQueries.AllTimeIsAll | pj_datastore/src/query.cpp:286-325 | a cursor over all 64-bit times enumerates all samples |
| SeriesQueries.SeriesReader.Size | pj_datastore/src/query.cpp:289-302 | the number of enumerated samples |
| SeriesQueries.SeriesReader.SampleAt | pj_datastore/src/query.cpp:308-325 | the sample with that index in the enumeration |
| SeriesQueries.SeriesReader.IndexAtOrBeforeTime | pj_datastore/src/query.cpp:327-349 | the number of samples at or before the time, minus one |
| SeriesQueries.SeriesReader.IndexAtOrAfterTime | pj_datastore/src/query.cpp:351-376 | the number strictly before the time, if a sample is left |
| SeriesQueries.SeriesReader.SampleAtOrBeforeTime | pj_datastore/src/query.cpp:378-381 | the last sample at or before the time |
| SeriesQueries.SeriesReader.SampleAtOrAfterTime | pj_datastore/src/query.cpp:383-386 | the first sample at or after it |
| ObjectStores.ObjectStore.RegisterTopic | pj_datastore/src/object_store.cpp:12-25 | refuses exactly a name already taken in the dataset; ids rise |
| ObjectStores.ObjectStore.Push | pj_datastore/src/object_store.cpp:70-95 | refuses exactly unknown topics and entries that step back; else appends and applies retention |
| ObjectStores.ObjectStore.IndexAt | pj_datastore/src/object_store.cpp:156-174 | the position of the last entry not after the time |
| ObjectStores.ObjectStore.LatestAt | pj_datastore/src/object_store.cpp:121-140 | the entry at that position |
| ObjectStores.ObjectStore.EvictTopicBefore | pj_datastore/src/object_store.cpp:246-256 | drops exactly the entries before the threshold from that topic |
| ObjectStores.ObjectStore.EvictAllBefore | pj_datastore/src/object_store.cpp:258-268 | from all topics |
| ObjectStores.ObjectStore.FindTopic | pj_datastore/src/object_store.cpp:27-35 | the topic of that dataset and name, if there is one |
| ObjectStores.ObjectStore.SetRetentionBudget | pj_datastore/src/object_store.cpp:214-222 | replaces the budget of a known topic and nothing else |
| ObjectStores.ObjectStore.RemoveTopic | pj_datastore/src/object_store.cpp:338-344 | drops exactly that topic |
| ObjectStores.ObjectStore.Clear | pj_datastore/src/object_store.cpp:346-350 | drops every topic, and hands out ids from 1 again |
| ObjectStores.ObjectStore.FlushTo | pj_datastore/src/object_store.cpp:270-334 | succeeds exactly if every non-empty source topic has a matching destination that it may follow; a refusal changes neither store; entries, timestamps and byte counts stay aligned |
| ObjectStores.ReceivesItsMatch | pj_datastore/src/object_store.cpp:314-334 | with distinct source names each destination gets exactly its match |
| ObjectStores.FlushConserves | pj_datastore/src/object_store.cpp:314-334 | a destination ends with its old entries and then the source's, minus the shortest prefix that meets both limits |
| ObjectSeriesStates.ApplyRetention | pj_datastore/src/object_store.cpp:394-420 | the two eviction loops equal the specification and keep the byte count the sum of the sizes |
| ObjectSeriesStates.KeptIsShortest | pj_datastore/src/object_store.cpp:408-420 | retention drops the shortest prefix after which both limits are met |
| ObjectSeriesStates.WindowSurvives | pj_datastore/src/object_store.cpp:408-420 | without a byte limit no entry within the window is dropped |
| ObjectSeriesStates.FromIsExact | pj_datastore/src/object_store.cpp:246-256 | evicting by time drops exactly the entries before the threshold |
| LockOrder.RunKeeps | pj_datastore/src/object_store.cpp:275-282 | in every state locks are exclusive, or shared by readers only, and every thread's remaining program takes locks upwards |
| LockOrder.NobodyWaitsForever | pj_datastore/src/object_store.cpp:275-282 | any number of threads and stores: while a thread is unfinished, some thread can step |
| LockOrder.RunsEnd | pj_datastore/src/object_store.cpp:275-282 | every step uses up one operation, and a run that cannot go on has finished all threads |
| LockOrder.NaiveDeadlock | pj_datastore/src/object_store.cpp:275-282 | without ordering the two store locks by address, two opposite flushes block each other |
| WireFormat.VarintRoundTrip | pj_base/src/builtin/protobuf_wire.hpp:116-184 | every 64-bit value reads back in front of any suffix, which is left, in at most ten bytes |
| WireFormat.VarintBounded | pj_base/src/builtin/protobuf_wire.hpp:165-184 | whatever the bytes, a varint that is read fits 64 bits |
| WireFormat.VarintLocalAt | pj_base/src/builtin/protobuf_wire.hpp:165-184 | a varint that is read is read the same whatever follows |
| WireFormat.FixedReadsBack | pj_base/src/builtin/protobuf_wire.hpp:124-208 | little-endian words read back and leave what follows |
| WireFormat.TagRoundTrip | pj_base/src/builtin/protobuf_wire.hpp:112-163 | so do tags, for every field number of 32 bits |
| WireFormat.BytesRoundTrip | pj_base/src/builtin/protobuf_wire.hpp:95-103 | so do length-delimited bytes |
| WireFormat.SkipLocal | pj_base/src/builtin/protobuf_wire.hpp:256-296 | skipping a complete field does not depend on what follows |
| WireFormat.PackedRoundTrip | pj_base/src/builtin/protobuf_wire.hpp:322-345 | packed 32-bit lists read back and leave what follows |
| WireStreams.Writer.AppendVarint | pj_base/src/builtin/protobuf_wire.hpp:116-122 | the loop writes exactly that encoding |
| WireStreams.Reader.ReadVarint | pj_base/src/builtin/protobuf_wire.hpp:165-184 | the loop over shifted digits is that decoding, on any bytes, with the same position behind it also on failure, and what it accumulates fits 64 bits |
| WireStreams.Reader.Skip | pj_base/src/builtin/protobuf_wire.hpp:256-275 | skips exactly a field of the given wire type or fails |
| WireStreams.Reader.ReadPackedFixed32 | pj_base/src/builtin/protobuf_wire.hpp:322-345 | is that decoding on any bytes |
| WireStreams.Writer.PackedFixed32Field | pj_base/src/builtin/protobuf_wire.hpp:50-60 | writes exactly the packed encoding, and nothing for an empty list |
| MessageFields.ParseConcat | pj_base/src/builtin/protobuf_wire.hpp:305-318 | a message may be cut at any field boundary: the second part continues from the state the first one left |
| MessageFields.InsertUnknown | pj_base/src/builtin/protobuf_wire.hpp:305-318 | inserting a well-formed field that the handler leaves alone, at any boundary, changes nothing |
| MessageFields.NoiseSkipped | pj_base/src/builtin/protobuf_wire.hpp:305-318 | so does any number of them |
| GeometryCodec.SplitMeaning | pj_base/src/builtin/geometry_codec.hpp:34-43 | seconds are rounded down although the program's division truncates, and nanoseconds are within a second |
| GeometryCodec.CombineSplit | pj_base/src/builtin/geometry_codec.hpp:34-59 | combining undoes splitting exactly from -9223372036 seconds on, and fails below |
| GeometryCodec.NoisyTimestampReads | pj_base/src/builtin/geometry_codec.hpp:61-95 | a timestamp message reads back among any fields but varints, exactly in that range |
| GeometryCodec.NoisyDoublesRead | pj_base/src/builtin/geometry_codec.hpp:97-191 | vectors and quaternions read back bit by bit among unknown fields, whatever they are read into |
| GeometryCodec.Signed32 | pj_base/src/builtin/occupancy_grid_update_codec.cpp:39-54 | signed 32-bit values survive being carried as unsigned words |
| TimestampUnknowns.UnknownTolerated | pj_base/src/builtin/geometry_codec.hpp:67-95 | one unknown field, at any of the three places, leaves the timestamp intact if and only if it is not a varint |
| FrameTransformsCodec.NoisyFrameReads | pj_base/src/builtin/frame_transforms_codec.cpp:25-55 | a transform reads back with unknown fields at every boundary and depth |
| FrameTransformsCodec.NoisyListReads | pj_base/src/builtin/frame_transforms_codec.cpp:57-104 | so does a list of them |
| FrameTransformsCodec.RoundTrip | pj_base/src/builtin/frame_transforms_codec.cpp:57-104 | decoding undoes encoding for every non-empty list; the empty list is written as the empty buffer, which is refused |
| FrameTransformsCodec.Concatenation | pj_base/src/builtin/frame_transforms_codec.cpp:68-104 | the concatenation of two decodable buffers decodes to the concatenated lists |
| FrameTransformsIo.SerializeFrameTransforms | pj_base/src/builtin/frame_transforms_codec.cpp:57-66 | the nested writers produce exactly the specified bytes |
| FrameTransformsIo.DeserializeFrameTransforms | pj_base/src/builtin/frame_transforms_codec.cpp:68-104 | the nested readers decode, or refuse, exactly as specified, on any bytes |
| OccupancyGridCodec.RoundTrip | pj_base/src/builtin/occupancy_grid_update_codec.cpp:39-90 | every update reads back, with the whole range of signed offsets |

## Left out

- WriterRuns.Run: calls that break what the program asserts (a second row begun in a topic, a column set twice or left out of a bulk append, unsorted bulk times) are not modelled; neither is a limit of zero rows, with which the bulk loop would not end. Between the calls anything may be committed, but no other writer expands arrays, and a topic whose layout was loaded empty gets none from a commit.
- Runs.Run: multi-input topics have strictly rising times, there is no eviction and no recompute in a run, and every schedule in it succeeds; recomputing does not mark the consumers dirty (pj_datastore/src/derived_engine.cpp:1008-1012), so `Recompute.RecomputeMeaning` speaks of one node.
- Removal.RemovalExact: needs everything upstream settled; `Prefixes.RemovalAlwaysExact` does not.
- DerivedEngines.DerivedEngine.ScheduleActive: after a failed run only the graph, the tables and the growth of topics are stated; the operator's memory has already advanced by then.
- EngineDrain.FlushTo: the method is stated for source topics that differ in dataset and name; what happens otherwise is `DrainNumbers.SharedNameExactly`, on the chunks alone. The program numbers chunks from one counter for the whole process (pj_datastore/include/pj_datastore/chunk.hpp:180), the model from one per engine, so what a shared counter gives is the precondition of `DrainNumbers.FlushNumbered`.
- SealedColumns.SealColumn: fewer than 2^32 rows and value bytes in a column; beyond that the program's 32-bit offsets and counts wrap.
- SealedContent.FirstRowSetPreserves: floats are compared as the statistics compare them, with signed zeros equal and not-a-number equal to nothing; the statement is about equal doubles, not equal bits.
- ColumnBuilders.ColumnBuilder.AppendTextBlock: run counts of string columns are not modelled; they do not influence sealing.
- DataWriters.DataWriter.ExpandArray: what the type tree says about an array path is a parameter (`ArrayField`); flattening type trees and the type registry are not modelled, nor is `registerScalarSeries`.
- DerivedEngines.DerivedEngine.AddSiso: the column count of an input comes from its storage; coercing an input value to the operator's kind is part of the operator's step function; the cycle check is called by the program with no outputs and so never refuses (pj_datastore/src/derived_engine.cpp:240-279), acyclicity rests on fresh ids.
- ObjectStores.ObjectStore.Push: payloads are values with a byte size, lazy ones of size 0; anchors, callbacks and `EntryTimestampsView` are not modelled, and the subtraction of the window is not bounded to 64 bits.
- EngineDrain.EnforceRetention: the subtraction of the window is not bounded to 64 bits; the program's overflow at the limits is undefined behaviour.
- LockOrder.NobodyWaitsForever: threads run flushes, pushes, reads, evictions, registrations and removals; a thread that keeps an `EntryTimestampsView` while calling again, and a lazy callback that calls a store while it is fetched under the locks, are not modelled.
- TimeJoin.JoinTopics: the order in which hash maps are walked is not modelled; the results are proved not to depend on it.
- Minimum and maximum statistics, decoding columns as doubles, series bounds and other IEEE arithmetic; doubles are bit patterns with the comparison above.
- The scene-entities codec and the remaining message codecs: they repeat nested messages, packed lists and unknown fields, which are proved for the codecs above.
- Plugins, Arrow import, C interfaces, settings, colour maps and display offsets.
