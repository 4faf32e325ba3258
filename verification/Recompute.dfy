/** Full recomputation of one node, against its incremental runs. */
module Recompute {
  import opened Samples
  import opened Transforms
  import opened World
  import opened NodeRuns
  import opened Denotation
  import opened Runs
  import opened DataEngines
  import opened NodeRunner

  function Cleared(store: Store, topics: seq<TopicId>): Store {
    if topics == [] then store
    else
      var front, last := Cleared(store, topics[..|topics| - 1]), topics[|topics| - 1];
      if last in front then front[last := []] else front
  }

  lemma {:induction false} ClearedMeaning(store: Store, topics: seq<TopicId>)
    ensures Cleared(store, topics).Keys == store.Keys
    ensures forall t <- store :: Cleared(store, topics)[t] == if t in topics then [] else store[t]
  {
    if topics != [] {
      ClearedMeaning(store, topics[..|topics| - 1]);
    }
  }

  /** Drops the chunks of every output topic. */
  method ClearOutputs(engine: DataEngine, outputs: seq<TopicId>)
    requires engine.Valid() && engine.AllNumbered()
    modifies engine`store, engine.topics.Values`sealedChunks
    ensures engine.Valid() && engine.AllNumbered() && engine.store == Cleared(old(engine.store), outputs)
  {
    for k := 0 to |outputs|
      invariant engine.Valid() && engine.AllNumbered()
      invariant engine.store == Cleared(old(engine.store), outputs[..k])
    {
      assert outputs[..k + 1][..k] == outputs[..k];
      if outputs[k] in engine.topics {
        StillNumbered(engine.store, outputs[k], engine.nextChunkId);
        engine.ClearTopic(outputs[k]);
      }
    }
    assert outputs[..|outputs|] == outputs;
  }

  lemma StillNumbered(store: Store, t: TopicId, counter: nat)
    requires StoreNumbered(store, counter)
    ensures StoreNumbered(store[t := []], counter)
  {
    forall u | u in store || u == t ensures IdsBelow(store[t := []][u], counter) {
      assert u in store ==> IdsBelow(store[u], counter);
    }
  }

  /** The node reset: nothing processed, the operator's memory fresh. */
  function Reset(n: Node): Node {
    n.(memory := n.op.init, chunkMark := 0, timeMark := MIN_TIMESTAMP)
  }

  /** After a reset every call of the whole history is due again. */
  lemma ResetOwesAll(n: Node, store: Store)
    requires n.inputs != [] && StoreOk(store)
    ensures Pending(Reset(n), store) == AllEvents(n, store)
  {
    if !n.joined {
      var chunks := ChunksOf(store, n.inputs[0]);
      NothingProcessed(chunks);
      ChunkSplit(chunks, 0);
      assert [] + ChunksAfter(chunks, 0) == ChunksAfter(chunks, 0);
      assert Histories(store, n.inputs)[0] == Flatten(chunks);
    }
  }

  /** What a full recomputation leaves. */
  ghost predicate Recomputed(n: Node, before: Store, after: Store, n': Node)
    requires n.inputs != []
  {
    && SameOutside(before, after, n.outputs) && StoreOk(after)
    && SameShape(n, n') && Pending(n', after) == []
    && n'.memory == Fold(n.op, n.op.init, AllEvents(n, before)).memory
    && forall k | 0 <= k < |n.outputs| ::
         History(after, n.outputs[k]) == EmitRows(Fold(n.op, n.op.init, AllEvents(n, before)).emits, k)
  }

  /** With sound topics and an operator that keeps its contract, a recomputation succeeds and leaves the node clean. */
  ghost predicate BatchResult(n: Node, before: Store, after: Store, ok: bool, n': Node)
    requires n.inputs != []
  {
    StoreOk(before) && Obeys(n.op, n.joined) ==> ok && !n'.dirty && Recomputed(n, before, after, n')
  }

  lemma ClearedOk(store: Store, topics: seq<TopicId>)
    requires StoreOk(store)
    ensures StoreOk(Cleared(store, topics))
  {
    ClearedMeaning(store, topics);
  }

  lemma ResetFits(n: Node, store: Store)
    requires n.inputs != [] && StoreOk(store) && Obeys(n.op, n.joined)
    requires forall k | 0 <= k < |n.outputs| :: History(store, n.outputs[k]) == []
    ensures EmitsContinue(store, n.outputs, Work(Reset(n), store).emits)
  {
    var fresh' := Reset(n).(dirty := true);
    FreshNodeOk(fresh', store);
    forall k | 0 <= k < |n.outputs|
      ensures Sorted(History(store, n.outputs[k]) + EmitRows(Work(Reset(n), store).emits, k))
    {
      EmitsFit(fresh', store, k);
    }
  }

  /** Recomputing equals folding the operator over the whole input history: what incremental runs add up to. */
  lemma RecomputeMeaning(n: Node, before: Store, after: Store, ok: bool, n': Node)
    requires NodeShape(n) && TopicsKnown(n, before) && !Feeds(n, n) && Obeys(n.op, n.joined) && StoreOk(before)
    requires RanSomehow(Reset(n), Cleared(before, n.outputs), after, ok, n')
    ensures ok && Recomputed(n, before, after, n'.(dirty := false))
  {
    var cleared := Cleared(before, n.outputs);
    ClearedMeaning(before, n.outputs);
    ClearedOk(before, n.outputs);
    forall k | 0 <= k < |n.outputs| ensures History(cleared, n.outputs[k]) == [] {
      assert n.outputs[k] in n.outputs;
    }
    ResetFits(n, cleared);
    ResetOwesAll(n, cleared);
    SameFeed(n, before, cleared);
    assert RanWell(Reset(n), cleared, after, n');
    CaughtUpAfter(n, before, cleared, after, n');
    RecomputedRows(n, cleared, after, Fold(n.op, n.op.init, AllEvents(n, before)).emits);
    forall t <- before | t !in n.outputs ensures after[t] == before[t] {
      assert cleared[t] == before[t];
    }
  }

  lemma RecomputedRows(n: Node, cleared: Store, after: Store, emits: seq<Event>)
    requires forall k | 0 <= k < |n.outputs| ::
               History(after, n.outputs[k]) == History(cleared, n.outputs[k]) + EmitRows(emits, k)
    requires forall k | 0 <= k < |n.outputs| :: History(cleared, n.outputs[k]) == []
    ensures forall k | 0 <= k < |n.outputs| :: History(after, n.outputs[k]) == EmitRows(emits, k)
  {
    forall k | 0 <= k < |n.outputs| ensures History(after, n.outputs[k]) == EmitRows(emits, k) {
      assert [] + EmitRows(emits, k) == EmitRows(emits, k);
    }
  }

  lemma SameFeed(n: Node, before: Store, other: Store)
    requires n.inputs != [] && TopicsKnown(n, before) && !Feeds(n, n)
    requires other.Keys == before.Keys && forall t <- before | t !in n.outputs :: other[t] == before[t]
    ensures AllEvents(n, other) == AllEvents(n, before)
  {
    forall t <- n.inputs ensures t in before && t in other && other[t] == before[t] {
      assert t in n.outputs ==> Feeds(n, n);
    }
    SameInputs(n, before, other);
  }

  lemma CaughtUpAfter(n: Node, before: Store, cleared: Store, after: Store, n': Node)
    requires NodeShape(n) && TopicsKnown(n, before) && !Feeds(n, n) && StoreOk(cleared)
    requires cleared.Keys == before.Keys && SameOutside(cleared, after, n.outputs)
    requires n' == Advanced(Reset(n), cleared).(dirty := n.dirty)
    ensures Pending(n', after) == []
  {
    FreshMarks(Reset(n), cleared);
    AdvancedCaughtUp(Reset(n), cleared);
    forall t <- n.inputs ensures t in cleared && t in after && after[t] == cleared[t] {
      assert t in n.outputs ==> Feeds(n, n);
    }
    SameInputs(n', cleared, after);
  }

  lemma FreshMarks(n: Node, store: Store)
    requires n.inputs != [] && n.chunkMark == 0 && n.timeMark == MIN_TIMESTAMP
    ensures MarksOk(n, store)
  {
  }

  /** Clears the outputs of a node, resets it, and replays its whole input. */
  method ReplayNode(engine: DataEngine, n: Node) returns (ok: bool, n': Node)
    requires NodeKnown(engine, n) && engine.AllNumbered() && TopicsKnown(n, engine.store) && !Feeds(n, n)
    modifies engine`nextChunkId, engine`store, engine.topics.Values`sealedChunks
    ensures engine.Valid() && engine.AllNumbered() && engine.store.Keys == old(engine.store.Keys)
    ensures SameShape(n, n') && BatchResult(n, old(engine.store), engine.store, ok, n')
  {
    ghost var before := engine.store;
    ClearOutputs(engine, n.outputs);
    ClearedMeaning(before, n.outputs);
    ok, n' := RunIncremental(engine, Reset(n));
    if StoreOk(before) && Obeys(n.op, n.joined) {
      RecomputeMeaning(n, before, engine.store, ok, n');
    }
    if ok {
      n' := n'.(dirty := false);
    }
  }
}
