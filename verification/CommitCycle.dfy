/** The commit cycle: committing a writer's batch and notifying the engine is one commit step. */
module CommitCycle {
  import opened Samples
  import opened World
  import opened Denotation
  import opened NodeRuns
  import opened Runs
  import opened DataEngines
  import opened CommitOrder
  import opened EngineSteps
  import opened NodeIndexes
  import opened OutputNames
  import opened DerivedEngines

  /**
   * A batch continues the store: it is addressed to source topics, and continues each of them in time and in number.
   */
  ghost predicate BatchContinues(nodes: map<NodeId, Node>, store: Store, batch: seq<(TopicId, Chunk)>) {
    && StoreOk(store)
    && (forall t {:trigger ContinuesTopic(nodes, store, batch, t)} :: ContinuesTopic(nodes, store, batch, t))
  }

  ghost predicate ContinuesTopic(nodes: map<NodeId, Node>, store: Store, batch: seq<(TopicId, Chunk)>, t: TopicId) {
    var added := ChunksFor(batch, t);
    && AllSealed(added)
    && (added != [] ==> t in store && !Produced(nodes, t))
    && Sorted(History(store, t) + Flatten(added))
    && (t in store ==> Rising(store[t] + added))
  }

  /** The rows a batch brings to each topic that gained something. */
  function BatchRows(batch: seq<(TopicId, Chunk)>, changed: seq<TopicId>): map<TopicId, seq<Row>> {
    map t | t in changed :: Flatten(ChunksFor(batch, t))
  }

  lemma TopicCommitted(nodes: map<NodeId, Node>, store: Store, batch: seq<(TopicId, Chunk)>, t: TopicId)
    requires BatchContinues(nodes, store, batch) && t in store
    ensures var after := CommitAll(store, batch);
            && t in after && after[t] == store[t] + ChunksFor(batch, t)
            && Ordered(after[t]) && Rising(after[t])
            && History(after, t) == History(store, t) + Flatten(ChunksFor(batch, t))
            && (Gained(store, after, t) <==> ChunksFor(batch, t) != [])
  {
    assert ContinuesTopic(nodes, store, batch, t);
    TopicAppends(store, batch, t);
  }

  lemma ReportedTopic(nodes: map<NodeId, Node>, store: Store, batch: seq<(TopicId, Chunk)>, changed: seq<TopicId>,
                      t: TopicId)
    requires BatchContinues(nodes, store, batch) && Reports(changed, store, CommitAll(store, batch)) && t in store
    ensures var after := CommitAll(store, batch);
            && t in after && store[t] <= after[t] && Ordered(after[t]) && Rising(after[t])
            && (t in changed ==>
                  !Produced(nodes, t) && History(after, t) == History(store, t) + Flatten(ChunksFor(batch, t)))
            && (t !in changed ==> after[t] == store[t])
  {
    CommitPerTopic(store, batch, 0);
    assert t in changed <==> Gained(store, CommitAll(store, batch), t);
    assert ContinuesTopic(nodes, store, batch, t);
    TopicCommitted(nodes, store, batch, t);
  }

  lemma BatchCommitted(nodes: map<NodeId, Node>, store: Store, batch: seq<(TopicId, Chunk)>, changed: seq<TopicId>)
    requires BatchContinues(nodes, store, batch) && Reports(changed, store, CommitAll(store, batch))
    ensures CommitsRows(nodes, store, BatchRows(batch, changed), CommitAll(store, batch))
  {
    var after := CommitAll(store, batch);
    CommitPerTopic(store, batch, 0);
    forall t <- store
      ensures store[t] <= after[t] && Ordered(after[t]) && Rising(after[t])
      ensures t in changed ==>
                !Produced(nodes, t) && History(after, t) == History(store, t) + Flatten(ChunksFor(batch, t))
      ensures t !in changed ==> after[t] == store[t]
    {
      ReportedTopic(nodes, store, batch, changed, t);
    }
    forall t <- changed ensures t in store {
      assert Gained(store, after, t);
    }
  }

  /** Commit, then notify with the reported topics: exactly the commit step of the transition system. */
  lemma CommitThenNotify(w: World, batch: seq<(TopicId, Chunk)>, changed: seq<TopicId>, nodes: map<NodeId, Node>)
    requires BatchContinues(w.nodes, w.store, batch)
    requires Reports(changed, w.store, CommitAll(w.store, batch))
    requires Notified(w.nodes, Changed(changed), nodes)
    ensures Commits(w, BatchRows(batch, changed), w.(nodes := nodes, store := CommitAll(w.store, batch)))
  {
    BatchCommitted(w.nodes, w.store, batch, changed);
    assert BatchRows(batch, changed).Keys == Changed(changed);
  }

  /** The tables do not depend on what the topics hold. */
  lemma SoundAfterCommit(w: World, store: Store, impl: Impl, labels: Labels)
    requires Sound(w, impl, labels) && store.Keys == w.store.Keys
    ensures Sound(w.(store := store), impl, labels)
  {
    SoundMeaning(w, impl, labels);
    SoundMeaning(w.(store := store), impl, labels);
    SameStoreKeys(w, store);
  }

  lemma SameStoreKeys(w: World, store: Store)
    requires GraphOk(w) && store.Keys == w.store.Keys
    ensures GraphOk(w.(store := store))
  {
    forall n <- w.nodes ensures TopicsKnown(w.nodes[n], store) {
      assert TopicsKnown(w.nodes[n], w.store);
    }
  }

  /** What a caller does with a batch: commit it, and tell the derived engine which topics changed. */
  method CommitAndNotify(derived: DerivedEngine, batch: seq<(TopicId, Chunk)>) returns (changed: seq<TopicId>)
    requires derived.Valid() && WriterMade(batch, derived.engine.nextChunkId)
    requires BatchContinues(derived.impl.nodes, derived.engine.store, batch)
    modifies derived`impl, derived.engine`store, derived.engine.topics.Values`sealedChunks
    ensures derived.Valid()
    ensures Commits(old(derived.View()), BatchRows(batch, changed), derived.View())
  {
    ghost var w := derived.View();
    changed := derived.engine.CommitChunks(batch);
    CommitPerTopic(w.store, batch, 0);
    SoundAfterCommit(w, derived.engine.store, derived.impl, derived.labels);
    derived.OnSourceCommitted(changed);
    CommitThenNotify(w, batch, changed, derived.impl.nodes);
  }
}
