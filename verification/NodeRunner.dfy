/** Running one node: the calls it owes, made one after the other, and the commit of what they emit. */
module NodeRunner {
  import opened Orders
  import opened Samples
  import opened Transforms
  import opened Join
  import opened World
  import opened NodeRuns
  import opened Denotation
  import opened TopicStorages
  import opened SortedIds
  import opened DataEngines
  import opened WriterStates
  import opened BulkAppend
  import opened Flushes
  import opened CommitOrder
  import opened DataWriters
  import opened Emission
  import opened TimeJoin

  /** One emitted event goes to every output topic. */
  method Emit(w: DataWriter, outputs: seq<TopicId>, e: Event, ghost emits: seq<Event>) returns (ok: bool)
    requires w.Valid() && AllReady(w, outputs) && Distinct(outputs) && Holds(w.State(), outputs, emits)
    modifies w`builders, w`pending, w`layouts, w.engine`nextChunkId
    ensures w.Valid()
    ensures ok ==> AllReady(w, outputs) && Holds(w.State(), outputs, emits + [e])
    ensures !ok ==> StepsBack(outputs, emits + [e])
  {
    WritesStart(w.State(), outputs, emits, e);
    for k := 0 to |outputs|
      invariant w.Valid() && AllReady(w, outputs) && HoldsPart(w.State(), outputs, emits, e, k)
    {
      ok := EmitTo(w, outputs, e, emits, k);
      if !ok {
        return;
      }
    }
    WritesEnd(w.State(), outputs, emits, e);
    ok := true;
  }

  method EmitTo(w: DataWriter, outputs: seq<TopicId>, e: Event, ghost emits: seq<Event>, k: nat) returns (ok: bool)
    requires w.Valid() && AllReady(w, outputs) && Distinct(outputs)
    requires k < |outputs| && HoldsPart(w.State(), outputs, emits, e, k)
    modifies w`builders, w`pending, w`layouts, w.engine`nextChunkId
    ensures w.Valid()
    ensures ok ==> AllReady(w, outputs) && HoldsPart(w.State(), outputs, emits, e, k + 1)
    ensures !ok ==> StepsBack(outputs, emits + [e])
  {
    var t := outputs[k];
    assert Ready(w, t);
    ghost var h, columns := w.State(), w.NextLayout(t);
    ok := PutValue(w, t, e.ts, if k < |e.values| then e.values[k] else Null);
    if ok {
      WritesNext(h, w.State(), outputs, emits, e, k, columns);
    } else {
      RefusedStepsBack(h, outputs, emits, e, k);
    }
  }

  /** The operator has made the calls `done` from memory `start`; the writer holds what they emitted. */
  ghost predicate Worked(h: Held, op: Transform, outputs: seq<TopicId>, start: Memory, done: seq<Event>,
                         memory: Memory, wrote: bool)
  {
    var o := Fold(op, start, done);
    o.memory == memory && Holds(h, outputs, o.emits) && (wrote <==> o.emits != [])
  }

  lemma FoldPush(op: Transform, start: Memory, done: seq<Event>, e: Event)
    ensures var before := Fold(op, start, done);
            var r := op.step(before.memory, e);
            Fold(op, start, done + [e]) ==
            Outcome(r.memory, if r.emit.Some? then before.emits + [r.emit.value] else before.emits)
  {
    assert (done + [e])[..|done|] == done;
  }

  lemma StepsBackLater(op: Transform, outputs: seq<TopicId>, start: Memory, a: seq<Event>, b: seq<Event>)
    requires StepsBack(outputs, Fold(op, start, a).emits)
    ensures StepsBack(outputs, Fold(op, start, a + b).emits)
  {
    var k: nat :| k < |outputs| && !Sorted(EmitRows(Fold(op, start, a).emits, k));
    FoldSplit(op, start, a, b);
    var later := Fold(op, Fold(op, start, a).memory, b).emits;
    EmitRowsConcat(Fold(op, start, a).emits, later, k);
    if Sorted(EmitRows(Fold(op, start, a + b).emits, k)) {
      SortedPrefix(EmitRows(Fold(op, start, a).emits, k), EmitRows(later, k));
    }
  }

  /** One call of the operator. */
  method Feed(w: DataWriter, op: Transform, outputs: seq<TopicId>, memory: Memory, e: Event, wrote: bool,
              ghost start: Memory, ghost done: seq<Event>) returns (ok: bool, after: Memory, wrote': bool)
    requires w.Valid() && AllReady(w, outputs) && Distinct(outputs)
    requires Worked(w.State(), op, outputs, start, done, memory, wrote)
    modifies w`builders, w`pending, w`layouts, w.engine`nextChunkId
    ensures w.Valid()
    ensures ok ==> AllReady(w, outputs) && Worked(w.State(), op, outputs, start, done + [e], after, wrote')
    ensures !ok ==> StepsBack(outputs, Fold(op, start, done + [e]).emits)
  {
    FoldPush(op, start, done, e);
    var result := op.step(memory, e);
    ok, after, wrote' := true, result.memory, wrote;
    if result.emit.Some? {
      ok := Emit(w, outputs, result.emit.value, Fold(op, start, done).emits);
      wrote' := true;
    }
  }

  lemma DoneNext(done: seq<Event>, events: seq<Event>, j: nat)
    requires j < |events|
    ensures done + events[..j + 1] == done + events[..j] + [events[j]]
    ensures done + events == done + events[..j + 1] + events[j + 1..]
  {
    PrefixNext(events, j);
    Halves(events, j + 1);
  }

  /** The calls of a run, in order; it stops at the first refused row. */
  method FeedAll(w: DataWriter, op: Transform, outputs: seq<TopicId>, memory: Memory, events: seq<Event>, wrote: bool,
                 ghost start: Memory, ghost done: seq<Event>) returns (ok: bool, after: Memory, wrote': bool)
    requires w.Valid() && AllReady(w, outputs) && Distinct(outputs)
    requires Worked(w.State(), op, outputs, start, done, memory, wrote)
    modifies w`builders, w`pending, w`layouts, w.engine`nextChunkId
    ensures w.Valid()
    ensures ok ==> AllReady(w, outputs) && Worked(w.State(), op, outputs, start, done + events, after, wrote')
    ensures !ok ==> StepsBack(outputs, Fold(op, start, done + events).emits)
  {
    ok, after, wrote' := true, memory, wrote;
    assert done + events[..0] == done;
    for j := 0 to |events|
      invariant w.Valid() && AllReady(w, outputs)
      invariant Worked(w.State(), op, outputs, start, done + events[..j], after, wrote')
    {
      DoneNext(done, events, j);
      ok, after, wrote' := Feed(w, op, outputs, after, events[j], wrote', start, done + events[..j]);
      if !ok {
        StepsBackLater(op, outputs, start, done + events[..j + 1], events[j + 1..]);
        return;
      }
    }
    assert events[..|events|] == events;
    ok := true;
  }

  // ---------------------------------------------------------------- committing what was emitted

  lemma {:induction false} ChunksForHas(batch: seq<(TopicId, Chunk)>, i: nat)
    requires i < |batch|
    ensures batch[i].1 in ChunksFor(batch, batch[i].0)
  {
    if i < |batch| - 1 {
      ChunksForHas(batch[..|batch| - 1], i);
    }
  }

  lemma BatchIsWriterMade(batch: seq<(TopicId, Chunk)>, h: Held, first: nat, origin: Held)
    requires Conserves(batch, h, first, origin) && 0 < first
    ensures WriterMade(batch, h.counter)
  {
    forall i | 0 <= i < |batch| ensures Sealed(batch[i].1) && 0 < batch[i].1.id < h.counter {
      ChunksForHas(batch, i);
      assert Carries(batch, h, first, batch[i].0, Rows(origin, batch[i].0));
      StagedMember(ChunksFor(batch, batch[i].0), first, h.counter, batch[i].1);
    }
  }

  lemma StagedMember(chunks: seq<Chunk>, first: nat, counter: nat, c: Chunk)
    requires Staged(chunks, first, counter) && c in chunks
    ensures MadeBetween(c, first, counter)
  {
    var j :| 0 <= j < |chunks| && chunks[j] == c;
    assert MadeBetween(chunks[j], first, counter);
  }

  lemma NothingStaged(chunks: seq<Chunk>, first: nat, counter: nat)
    requires Staged(chunks, first, counter) && Flatten(chunks) == []
    ensures chunks == []
  {
    assert chunks != [] ==> MadeBetween(chunks[|chunks| - 1], first, counter);
  }

  /** What the store looks like after the emitted rows were committed. */
  ghost predicate Gains(before: Store, after: Store, outputs: seq<TopicId>, emits: seq<Event>) {
    && SameOutside(before, after, outputs) && Grows(before, after) && StoreOk(after)
    && forall k | 0 <= k < |outputs| ::
         History(after, outputs[k]) == History(before, outputs[k]) + EmitRows(emits, k)
  }

  /** The rows emitted continue each output topic in time order. */
  ghost predicate EmitsContinue(store: Store, outputs: seq<TopicId>, emits: seq<Event>) {
    forall k {:trigger EmitRows(emits, k)} | 0 <= k < |outputs| ::
      Sorted(History(store, outputs[k]) + EmitRows(emits, k))
  }

  ghost predicate GainsTopic(before: Store, after: Store, outputs: seq<TopicId>, emits: seq<Event>, t: TopicId) {
    && t in before && t in after && before[t] <= after[t] && Ordered(after[t]) && Rising(after[t])
    && (t !in outputs ==> after[t] == before[t])
    && History(after, t) == History(before, t) + RowsFor(outputs, emits, t)
  }

  lemma GainsByTopic(before: Store, after: Store, outputs: seq<TopicId>, emits: seq<Event>)
    requires after.Keys == before.Keys && forall t <- before :: GainsTopic(before, after, outputs, emits, t)
    requires Distinct(outputs) && forall t <- outputs :: t in before
    ensures Gains(before, after, outputs, emits)
  {
    GrowsByTopic(before, after, outputs, emits);
    forall k | 0 <= k < |outputs|
      ensures History(after, outputs[k]) == History(before, outputs[k]) + EmitRows(emits, k)
    {
      IndexOfOwn(outputs, k);
      assert GainsTopic(before, after, outputs, emits, outputs[k]);
    }
  }

  lemma GrowsByTopic(before: Store, after: Store, outputs: seq<TopicId>, emits: seq<Event>)
    requires after.Keys == before.Keys && forall t <- before :: GainsTopic(before, after, outputs, emits, t)
    ensures SameOutside(before, after, outputs) && Grows(before, after) && StoreOk(after)
  {
    forall t <- before
      ensures before[t] <= after[t] && (t !in outputs ==> after[t] == before[t]) && Ordered(after[t])
                && Rising(after[t])
    {
      assert GainsTopic(before, after, outputs, emits, t);
    }
  }

  /** Every chunk is accepted, and no other topic is touched. */
  lemma CommitGains(store: Store, batch: seq<(TopicId, Chunk)>, h: Held, first: nat, origin: Held,
                    outputs: seq<TopicId>, emits: seq<Event>)
    requires Conserves(batch, h, first, origin) && WithRows(h) == {} && Holds(origin, outputs, emits)
    requires StoreOk(store) && StoreNumbered(store, first) && Distinct(outputs) && forall t <- outputs :: t in store
    requires EmitsContinue(store, outputs, emits)
    ensures Gains(store, CommitAll(store, batch), outputs, emits)
  {
    CommitPerTopic(store, batch, 0);
    forall t <- store ensures GainsTopic(store, CommitAll(store, batch), outputs, emits, t) {
      assert IdsBelow(store[t], first);
      CommitGainsTopic(store, batch, h, first, origin, outputs, emits, t);
    }
    GainsByTopic(store, CommitAll(store, batch), outputs, emits);
  }

  lemma CommitGainsTopic(store: Store, batch: seq<(TopicId, Chunk)>, h: Held, first: nat, origin: Held,
                         outputs: seq<TopicId>, emits: seq<Event>, t: TopicId)
    requires Conserves(batch, h, first, origin) && WithRows(h) == {} && Holds(origin, outputs, emits)
    requires t in store && Ordered(store[t]) && Rising(store[t]) && IdsBelow(store[t], first)
    requires EmitsContinue(store, outputs, emits)
    ensures GainsTopic(store, CommitAll(store, batch), outputs, emits, t)
  {
    AllHandedOver(batch, h, first, origin, t);
    assert Rows(origin, t) == RowsFor(outputs, emits, t);
    if t in outputs {
      TopicGains(store, batch, t, first, h.counter);
    } else {
      NothingStaged(ChunksFor(batch, t), first, h.counter);
      CommitPerTopic(store, batch, t);
    }
  }

  lemma CommitOnlyGrows(store: Store, batch: seq<(TopicId, Chunk)>)
    ensures Grows(store, CommitAll(store, batch)) && CommitAll(store, batch).Keys == store.Keys
  {
    CommitAllGrows(store, batch, 0);
    forall t <- store ensures store[t] <= CommitAll(store, batch)[t] {
      CommitAllGrows(store, batch, t);
    }
  }

  /** The result of a commit, as a relation between the stores before and after it. */
  ghost predicate Committed(before: Store, after: Store, outputs: seq<TopicId>, emits: seq<Event>) {
    && Grows(before, after) && after.Keys == before.Keys
    && (StoreOk(before) ==>
          StoreOk(after) && (EmitsContinue(before, outputs, emits) ==> Gains(before, after, outputs, emits)))
  }

  /** Even a commit that drops chunks leaves every topic ordered and numbered. */
  lemma CommitKeepsOk(store: Store, batch: seq<(TopicId, Chunk)>, h: Held, first: nat, origin: Held)
    requires Conserves(batch, h, first, origin) && WithRows(h) == {}
    requires StoreOk(store) && StoreNumbered(store, first)
    ensures StoreOk(CommitAll(store, batch))
  {
    CommitPerTopic(store, batch, 0);
    forall t <- store ensures Rising(CommitAll(store, batch)[t]) && Ordered(CommitAll(store, batch)[t]) {
      AllHandedOver(batch, h, first, origin, t);
      assert IdsBelow(store[t], first);
      CommitPerTopic(store, batch, t);
      AcceptedRising(store[t], ChunksFor(batch, t), first, h.counter);
      StagedFollows(store[t], ChunksFor(batch, t), first, h.counter);
      AcceptedOrdered(store[t], ChunksFor(batch, t));
    }
  }

  lemma {:induction false} AcceptedOrdered(chunks: seq<Chunk>, offered: seq<Chunk>)
    requires Ordered(chunks) && AllSealed(offered)
    ensures Ordered(Accepted(chunks, offered))
  {
    if offered != [] {
      AcceptedOrdered(chunks, offered[..|offered| - 1]);
    }
  }

  lemma CommitResult(store: Store, batch: seq<(TopicId, Chunk)>, h: Held, first: nat, origin: Held,
                     outputs: seq<TopicId>, emits: seq<Event>)
    requires Conserves(batch, h, first, origin) && WithRows(h) == {} && Holds(origin, outputs, emits)
    requires StoreNumbered(store, first) && Distinct(outputs) && forall t <- outputs :: t in store
    ensures Committed(store, CommitAll(store, batch), outputs, emits)
  {
    CommitOnlyGrows(store, batch);
    if StoreOk(store) {
      CommitKeepsOk(store, batch, h, first, origin);
      if EmitsContinue(store, outputs, emits) {
        CommitGains(store, batch, h, first, origin, outputs, emits);
      }
    }
  }

  method FlushAndCommit(w: DataWriter) returns (ghost batch: seq<(TopicId, Chunk)>, ghost rest: Held)
    requires w.Valid() && w.engine.Valid() && w.engine.AllNumbered()
    requires forall t :: !RowOpen(w.State(), t)
    modifies w`builders, w`pending, w.engine`nextChunkId, w.engine`store, w.engine.topics.Values`sealedChunks
    ensures w.engine.Valid() && w.engine.AllNumbered()
    ensures w.engine.store == CommitAll(old(w.engine.store), batch)
    ensures Conserves(batch, rest, w.firstId, old(w.State())) && WithRows(rest) == {}
  {
    ghost var origin := w.State();
    var chunks := w.FlushAll();
    batch, rest := chunks, w.State();
    BatchIsWriterMade(chunks, rest, w.firstId, origin);
    NumberedLater(w.engine.store, old(w.engine.nextChunkId), w.engine.nextChunkId);
    var changed := w.engine.CommitChunks(chunks);
  }

  /** Hands the emitted rows to the store. */
  method CommitEmitted(w: DataWriter, outputs: seq<TopicId>, ghost emits: seq<Event>)
    requires w.Valid() && w.engine.Valid() && w.engine.AllNumbered()
    requires StoreNumbered(w.engine.store, w.firstId)
    requires Holds(w.State(), outputs, emits)
    requires Distinct(outputs) && forall t <- outputs :: t in w.engine.topics
    modifies w`builders, w`pending, w.engine`nextChunkId, w.engine`store, w.engine.topics.Values`sealedChunks
    ensures w.engine.Valid() && w.engine.AllNumbered()
    ensures Committed(old(w.engine.store), w.engine.store, outputs, emits)
  {
    ghost var store, origin := w.engine.store, w.State();
    ghost var batch, rest;
    batch, rest := FlushAndCommit(w);
    CommitResult(store, batch, rest, w.firstId, origin, outputs, emits);
  }

  lemma NothingCommitted(store: Store, outputs: seq<TopicId>)
    ensures Committed(store, store, outputs, [])
  {
  }

  lemma NumberedLater(store: Store, first: nat, counter: nat)
    requires StoreNumbered(store, first) && first <= counter
    ensures StoreNumbered(store, counter)
  {
    forall t <- store ensures IdsBelow(store[t], counter) {
      assert IdsBelow(store[t], first);
    }
  }

  lemma ContinuesNotBack(store: Store, outputs: seq<TopicId>, emits: seq<Event>)
    requires EmitsContinue(store, outputs, emits)
    ensures !StepsBack(outputs, emits)
  {
    forall k: nat | k < |outputs| ensures Sorted(EmitRows(emits, k)) {
      var before, rows := History(store, outputs[k]), EmitRows(emits, k);
      SortedMeaning(before + rows);
      forall i, j | 0 <= i < j < |rows| ensures rows[i].ts <= rows[j].ts {
        assert rows[i] == (before + rows)[|before| + i] && rows[j] == (before + rows)[|before| + j];
      }
      SortedMeaning(rows);
    }
  }

  // ---------------------------------------------------------------- one incremental run

  /** What a run of node `n` needs of the store. */
  ghost predicate NodeKnown(engine: DataEngine, n: Node)
    reads engine`topics, engine`store, engine`nextTopicId, engine.topics.Values`sealedChunks,
        engine.topics.Values`columns
  {
    && engine.Valid() && NodeShape(n)
    && (forall t <- n.inputs :: t in engine.topics)
    && (forall t <- n.outputs :: t in engine.topics && OneColumn(engine.topics[t]))
  }

  /** A run that did everything: the node has advanced and its outputs gained what it emitted. */
  ghost predicate RanWell(n: Node, before: Store, after: Store, n': Node)
    requires n.inputs != []
  {
    Gains(before, after, n.outputs, Work(n, before).emits) && n' == Advanced(n, before).(dirty := n.dirty)
  }

  /** The outcome of a run, successful or not. */
  ghost predicate RanSomehow(n: Node, before: Store, after: Store, ok: bool, n': Node)
    requires n.inputs != []
  {
    && Grows(before, after) && after.Keys == before.Keys && SameShape(n, n')
    && (StoreOk(before) ==>
          && StoreOk(after)
          && (EmitsContinue(before, n.outputs, Work(n, before).emits) ==> ok && RanWell(n, before, after, n')))
  }

  /** A writer that has written nothing yet. */
  method StartWork(engine: DataEngine, n: Node) returns (w: DataWriter)
    requires NodeKnown(engine, n) && engine.AllNumbered()
    ensures fresh(w) && w.engine == engine && w.Valid() && AllReady(w, n.outputs)
    ensures Worked(w.State(), n.op, n.outputs, n.memory, [], n.memory, false)
    ensures StoreNumbered(engine.store, w.firstId)
  {
    w := new DataWriter(engine);
  }

  /** The end of a run: commits if anything was written. */
  method EndWork(w: DataWriter, n: Node, memory: Memory, wrote: bool, ghost done: seq<Event>)
    requires w.Valid() && NodeKnown(w.engine, n) && w.engine.AllNumbered() && StoreNumbered(w.engine.store, w.firstId)
    requires Worked(w.State(), n.op, n.outputs, n.memory, done, memory, wrote)
    modifies w`builders, w`pending, w.engine`nextChunkId, w.engine`store, w.engine.topics.Values`sealedChunks
    ensures w.engine.Valid() && w.engine.AllNumbered()
    ensures Committed(old(w.engine.store), w.engine.store, n.outputs, Fold(n.op, n.memory, done).emits)
  {
    if wrote {
      CommitEmitted(w, n.outputs, Fold(n.op, n.memory, done).emits);
    } else {
      NothingCommitted(w.engine.store, n.outputs);
    }
  }

  /** The largest chunk id seen beyond the watermark. */
  function MaxSeen(chunks: seq<Chunk>, mark: nat): nat {
    if chunks == [] then mark
    else
      var front, last := MaxSeen(chunks[..|chunks| - 1], mark), chunks[|chunks| - 1];
      if last.id <= mark || last.id < front then front else last.id
  }

  lemma {:induction false} MaxSeenIsLast(chunks: seq<Chunk>, mark: nat)
    requires Rising(chunks)
    ensures MaxSeen(chunks, mark) == if mark < LastId(chunks) then LastId(chunks) else mark
  {
    if chunks != [] {
      RisingFront(chunks);
      MaxSeenIsLast(chunks[..|chunks| - 1], mark);
    }
  }

  /** The calls owed for the first `i` chunks. */
  function CallsFor(chunks: seq<Chunk>, mark: nat, i: nat): seq<Event>
    requires i <= |chunks|
  {
    RowEvents(Flatten(ChunksAfter(chunks[..i], mark)))
  }

  lemma CallsForNext(chunks: seq<Chunk>, mark: nat, i: nat)
    requires i < |chunks|
    ensures CallsFor(chunks, mark, i + 1) ==
            if chunks[i].id <= mark then CallsFor(chunks, mark, i)
            else CallsFor(chunks, mark, i) + RowEvents(chunks[i].rows)
    ensures MaxSeen(chunks[..i + 1], mark) ==
            var front := MaxSeen(chunks[..i], mark);
            if chunks[i].id <= mark || chunks[i].id < front then front else chunks[i].id
  {
    assert chunks[..i + 1][..i] == chunks[..i];
    var before := ChunksAfter(chunks[..i], mark);
    if chunks[i].id > mark {
      FlattenPush(before, chunks[i]);
      RowEventsConcat(Flatten(before), chunks[i].rows);
    }
  }

  lemma {:induction false} CallsForAll(chunks: seq<Chunk>, mark: nat, i: nat) returns (rest: seq<Event>)
    requires i <= |chunks|
    ensures RowEvents(Flatten(ChunksAfter(chunks, mark))) == CallsFor(chunks, mark, i) + rest
    decreases |chunks| - i
  {
    if i == |chunks| {
      assert chunks[..i] == chunks;
      rest := [];
    } else {
      CallsForNext(chunks, mark, i);
      rest := CallsForAll(chunks, mark, i + 1);
      if chunks[i].id > mark {
        rest := RowEvents(chunks[i].rows) + rest;
      }
    }
  }

  /** The calls for the first `i` chunks have been made. */
  ghost predicate FedTo(h: Held, n: Node, chunks: seq<Chunk>, i: nat, memory: Memory, wrote: bool)
    requires i <= |chunks|
  {
    Worked(h, n.op, n.outputs, n.memory, CallsFor(chunks, n.chunkMark, i), memory, wrote)
  }

  /** All calls that the chunks owe would step back on some output. */
  ghost predicate Overruns(n: Node, chunks: seq<Chunk>) {
    StepsBack(n.outputs, Fold(n.op, n.memory, RowEvents(Flatten(ChunksAfter(chunks, n.chunkMark)))).emits)
  }

  /** Calls the operator for every row of every chunk beyond the watermark. */
  method FeedChunks(w: DataWriter, n: Node, chunks: seq<Chunk>)
      returns (ok: bool, memory: Memory, wrote: bool, maxSeen: nat)
    requires w.Valid() && AllReady(w, n.outputs) && Distinct(n.outputs)
    requires Worked(w.State(), n.op, n.outputs, n.memory, [], n.memory, false)
    modifies w`builders, w`pending, w`layouts, w.engine`nextChunkId
    ensures w.Valid()
    ensures ok ==> FedTo(w.State(), n, chunks, |chunks|, memory, wrote) && maxSeen == MaxSeen(chunks, n.chunkMark)
    ensures !ok ==> Overruns(n, chunks)
  {
    ok, memory, wrote, maxSeen := true, n.memory, false, n.chunkMark;
    assert CallsFor(chunks, n.chunkMark, 0) == [];
    for i := 0 to |chunks|
      invariant w.Valid() && AllReady(w, n.outputs) && FedTo(w.State(), n, chunks, i, memory, wrote)
      invariant maxSeen == MaxSeen(chunks[..i], n.chunkMark)
    {
      CallsForNext(chunks, n.chunkMark, i);
      if chunks[i].id > n.chunkMark {
        maxSeen := if maxSeen < chunks[i].id then chunks[i].id else maxSeen;
        ok, memory, wrote := FeedChunk(w, n, chunks, i, memory, wrote);
        if !ok {
          return;
        }
      }
    }
    assert chunks[..|chunks|] == chunks;
    ok := true;
  }

  method FeedChunk(w: DataWriter, n: Node, chunks: seq<Chunk>, i: nat, memory: Memory, wrote: bool)
      returns (ok: bool, after: Memory, wrote': bool)
    requires w.Valid() && AllReady(w, n.outputs) && Distinct(n.outputs)
    requires i < |chunks| && chunks[i].id > n.chunkMark && FedTo(w.State(), n, chunks, i, memory, wrote)
    modifies w`builders, w`pending, w`layouts, w.engine`nextChunkId
    ensures w.Valid()
    ensures ok ==> AllReady(w, n.outputs) && FedTo(w.State(), n, chunks, i + 1, after, wrote')
    ensures !ok ==> Overruns(n, chunks)
  {
    CallsForNext(chunks, n.chunkMark, i);
    ok, after, wrote' := FeedAll(w, n.op, n.outputs, memory, RowEvents(chunks[i].rows), wrote,
                                 n.memory, CallsFor(chunks, n.chunkMark, i));
    if !ok {
      ghost var rest := CallsForAll(chunks, n.chunkMark, i + 1);
      StepsBackLater(n.op, n.outputs, n.memory, CallsFor(chunks, n.chunkMark, i + 1), rest);
    }
  }

  lemma WorkedKeepsNumbering(w: Held, store: Store, first: nat, topics: set<TopicId>)
    requires HeldOk(w, topics, first) && StoreNumbered(store, first)
    ensures StoreNumbered(store, w.counter) && 0 < w.counter
  {
    NumberedLater(store, first, w.counter);
  }

  /** What a finished run adds up to. */
  lemma RanAll(n: Node, before: Store, after: Store, calls: seq<Event>, n': Node)
    requires n.inputs != [] && calls == Pending(n, before) && SameShape(n, n')
    requires Committed(before, after, n.outputs, Fold(n.op, n.memory, calls).emits)
    requires StoreOk(before) ==> n' == Advanced(n, before).(dirty := n.dirty)
    ensures RanSomehow(n, before, after, true, n')
  {
  }

  /** A run that was refused a row leaves the store alone; the emitted rows did not continue the outputs. */
  lemma RanPartly(n: Node, before: Store, n': Node)
    requires n.inputs != [] && SameShape(n, n')
    requires StepsBack(n.outputs, Fold(n.op, n.memory, Pending(n, before)).emits)
    ensures RanSomehow(n, before, before, false, n')
  {
    if EmitsContinue(before, n.outputs, Work(n, before).emits) {
      ContinuesNotBack(before, n.outputs, Work(n, before).emits);
    }
  }

  lemma SisoAdvances(n: Node, store: Store, memory: Memory, maxSeen: nat, after: Store)
    requires NodeShape(n) && !n.joined
    requires memory == Work(n, store).memory && maxSeen == MaxSeen(ChunksOf(store, n.inputs[0]), n.chunkMark)
    requires Committed(store, after, n.outputs, Work(n, store).emits)
    ensures RanSomehow(n, store, after, true, n.(memory := memory, chunkMark := maxSeen))
  {
    if StoreOk(store) {
      assert n.inputs[0] in store ==> Rising(store[n.inputs[0]]);
      MaxSeenIsLast(ChunksOf(store, n.inputs[0]), n.chunkMark);
    }
    RanAll(n, store, after, Pending(n, store), n.(memory := memory, chunkMark := maxSeen));
  }

  lemma MimoAdvances(n: Node, store: Store, memory: Memory, events: seq<Event>, after: Store)
    requires NodeShape(n) && n.joined && events == Pending(n, store) != []
    requires memory == Work(n, store).memory
    requires Committed(store, after, n.outputs, Work(n, store).emits)
    ensures RanSomehow(n, store, after, true, n.(memory := memory, timeMark := events[|events| - 1].ts))
  {
    RanAll(n, store, after, events, n.(memory := memory, timeMark := events[|events| - 1].ts));
  }

  /** A finished series of calls is committed; a refused one leaves the store alone. */
  ghost predicate Concluded(n: Node, before: Store, after: Store, calls: seq<Event>, ok: bool, memory: Memory) {
    if ok then
      memory == Fold(n.op, n.memory, calls).memory
      && Committed(before, after, n.outputs, Fold(n.op, n.memory, calls).emits)
    else
      after == before && StepsBack(n.outputs, Fold(n.op, n.memory, calls).emits)
  }

  method Conclude(w: DataWriter, n: Node, ok: bool, memory: Memory, wrote: bool, ghost calls: seq<Event>)
    requires w.Valid() && NodeKnown(w.engine, n) && StoreNumbered(w.engine.store, w.firstId)
    requires ok ==> Worked(w.State(), n.op, n.outputs, n.memory, calls, memory, wrote)
    requires !ok ==> StepsBack(n.outputs, Fold(n.op, n.memory, calls).emits)
    modifies w`builders, w`pending, w.engine`nextChunkId, w.engine`store, w.engine.topics.Values`sealedChunks
    ensures w.engine.Valid() && w.engine.AllNumbered()
    ensures Concluded(n, old(w.engine.store), w.engine.store, calls, ok, memory)
  {
    WorkedKeepsNumbering(w.State(), w.engine.store, w.firstId, w.engine.topics.Keys);
    if ok {
      EndWork(w, n, memory, wrote, calls);
    }
  }

  /** One incremental run of a single-input node. */
  method RunSiso(engine: DataEngine, n: Node) returns (ok: bool, n': Node)
    requires NodeKnown(engine, n) && engine.AllNumbered() && !n.joined
    modifies engine`nextChunkId, engine`store, engine.topics.Values`sealedChunks
    ensures engine.Valid() && engine.AllNumbered()
    ensures RanSomehow(n, old(engine.store), engine.store, ok, n')
  {
    ghost var store := engine.store;
    var chunks := engine.topics[n.inputs[0]].sealedChunks;
    assert ChunksOf(store, n.inputs[0]) == chunks by { assert n.inputs[0] in n.inputs; }
    var memory, maxSeen;
    ok, memory, maxSeen := MakeRowCalls(engine, n, chunks);
    n' := n.(memory := memory);
    if !ok {
      RanPartly(n, store, n');
      return;
    }
    n' := n'.(chunkMark := maxSeen);
    SisoAdvances(n, store, memory, maxSeen, engine.store);
  }

  method MakeRowCalls(engine: DataEngine, n: Node, chunks: seq<Chunk>) returns (ok: bool, memory: Memory, maxSeen: nat)
    requires NodeKnown(engine, n) && engine.AllNumbered()
    modifies engine`nextChunkId, engine`store, engine.topics.Values`sealedChunks
    ensures engine.Valid() && engine.AllNumbered()
    ensures Concluded(n, old(engine.store), engine.store, RowEvents(Flatten(ChunksAfter(chunks, n.chunkMark))), ok,
              memory)
    ensures ok ==> maxSeen == MaxSeen(chunks, n.chunkMark)
  {
    var w := StartWork(engine, n);
    var wrote;
    ok, memory, wrote, maxSeen := FeedChunks(w, n, chunks);
    assert chunks[..|chunks|] == chunks;
    assert engine.store == old(engine.store);
    Conclude(w, n, ok, memory, wrote, RowEvents(Flatten(ChunksAfter(chunks, n.chunkMark))));
  }

  // ---------------------------------------------------------------- joins

  /** The new rows of every input; incomplete as soon as one input has none. */
  method CollectInputs(engine: DataEngine, n: Node) returns (complete: bool, topics: seq<seq<Row>>)
    requires NodeKnown(engine, n)
    ensures complete ==> Trimmed(Histories(engine.store, n.inputs), n.timeMark, topics)
    ensures !complete ==> exists i | 0 <= i < |n.inputs| ::
                            RowsAfter(Histories(engine.store, n.inputs)[i], n.timeMark) == []
  {
    topics := [];
    for i := 0 to |n.inputs|
      invariant |topics| == i
      invariant forall j | 0 <= j < i :: topics[j] == RowsAfter(History(engine.store, n.inputs[j]), n.timeMark)
    {
      assert n.inputs[i] in n.inputs;
      var chunks := engine.topics[n.inputs[i]].sealedChunks;
      assert OrderedTopic(engine.store[n.inputs[i]], n.inputs[i], engine.nextTopicId);
      OrderedIsSealed(chunks);
      var rows := Collect(chunks, n.timeMark);
      if rows == [] {
        assert RowsAfter(Histories(engine.store, n.inputs)[i], n.timeMark) == [];
        return false, [];
      }
      topics := topics + [rows];
    }
    return true, topics;
  }

  lemma {:induction false} OrderedIsSealed(chunks: seq<Chunk>)
    requires Ordered(chunks)
    ensures forall i | 0 <= i < |chunks| :: Sealed(chunks[i])
  {
    if chunks != [] {
      OrderedIsSealed(chunks[..|chunks| - 1]);
      forall i | 0 <= i < |chunks| ensures Sealed(chunks[i]) {
        assert i < |chunks| - 1 ==> chunks[..|chunks| - 1][i] == chunks[i];
      }
    }
  }

  lemma StoredIsSorted(store: Store, nextTopic: TopicId, topics: seq<TopicId>)
    requires StoreOrdered(store, nextTopic)
    ensures AllSorted(Histories(store, topics))
  {
    forall i | 0 <= i < |topics| ensures Sorted(History(store, topics[i])) {
      if topics[i] in store {
        assert OrderedTopic(store[topics[i]], topics[i], nextTopic);
        OrderedSorted(store[topics[i]]);
      }
    }
  }

  /** The calls a join owes. */
  method JoinCalls(engine: DataEngine, n: Node) returns (events: seq<Event>)
    requires NodeKnown(engine, n) && n.joined
    ensures events == Pending(n, engine.store)
  {
    var complete, topics := CollectInputs(engine, n);
    ghost var histories := Histories(engine.store, n.inputs);
    StoredIsSorted(engine.store, engine.nextTopicId, n.inputs);
    if !complete {
      ghost var i :| 0 <= i < |n.inputs| && RowsAfter(histories[i], n.timeMark) == [];
      NothingToJoin(histories, n.timeMark, i);
      return [];
    }
    TrimmedJoin(histories, n.timeMark, topics);
    events := JoinTopics(topics, n.timeMark);
  }

  /** One incremental run of a multi-input node. */
  method RunMimo(engine: DataEngine, n: Node) returns (ok: bool, n': Node)
    requires NodeKnown(engine, n) && engine.AllNumbered() && n.joined
    modifies engine`nextChunkId, engine`store, engine.topics.Values`sealedChunks
    ensures engine.Valid() && engine.AllNumbered()
    ensures RanSomehow(n, old(engine.store), engine.store, ok, n')
  {
    ghost var store := engine.store;
    var events := JoinCalls(engine, n);
    if events == [] {
      NothingCommitted(store, n.outputs);
      RanAll(n, store, store, [], n);
      return true, n;
    }
    var memory;
    ok, memory := MakeCalls(engine, n, events);
    n' := n.(memory := memory);
    if !ok {
      RanPartly(n, store, n');
      return;
    }
    n' := n'.(timeMark := events[|events| - 1].ts);
    MimoAdvances(n, store, memory, events, engine.store);
  }

  method MakeCalls(engine: DataEngine, n: Node, events: seq<Event>) returns (ok: bool, memory: Memory)
    requires NodeKnown(engine, n) && engine.AllNumbered()
    modifies engine`nextChunkId, engine`store, engine.topics.Values`sealedChunks
    ensures engine.Valid() && engine.AllNumbered()
    ensures Concluded(n, old(engine.store), engine.store, events, ok, memory)
  {
    var w := StartWork(engine, n);
    var wrote;
    ok, memory, wrote := FeedAll(w, n.op, n.outputs, n.memory, events, false, n.memory, []);
    assert [] + events == events;
    assert engine.store == old(engine.store);
    Conclude(w, n, ok, memory, wrote, events);
  }

  /** One incremental run of a node of either kind. */
  method RunIncremental(engine: DataEngine, n: Node) returns (ok: bool, n': Node)
    requires NodeKnown(engine, n) && engine.AllNumbered()
    modifies engine`nextChunkId, engine`store, engine.topics.Values`sealedChunks
    ensures engine.Valid() && engine.AllNumbered()
    ensures RanSomehow(n, old(engine.store), engine.store, ok, n')
  {
    if n.joined {
      ok, n' := RunMimo(engine, n);
    } else {
      ok, n' := RunSiso(engine, n);
    }
  }
}
