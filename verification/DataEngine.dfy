/** The store of all topics: creation, the commit cycle, retention and draining into another store. */
module DataEngines {
  import opened Orders
  import opened Samples
  import opened TopicStorages
  import opened SortedIds

  /** Committing one chunk: a chunk that would step back in time, or names no topic, is dropped. */
  ghost function CommitOne(store: Store, t: TopicId, c: Chunk): Store {
    if t in store && (store[t] == [] || EndOf(store[t]) <= TMin(c)) then store[t := store[t] + [c]] else store
  }

  ghost function CommitAll(store: Store, chunks: seq<(TopicId, Chunk)>): Store {
    if chunks == [] then store
    else CommitOne(CommitAll(store, chunks[..|chunks| - 1]), chunks[|chunks| - 1].0, chunks[|chunks| - 1].1)
  }

  /** The chunks of a batch that are addressed to topic `t`, in order. */
  function ChunksFor(chunks: seq<(TopicId, Chunk)>, t: TopicId): seq<Chunk> {
    if chunks == [] then []
    else
      var front := ChunksFor(chunks[..|chunks| - 1], t);
      if chunks[|chunks| - 1].0 == t then front + [chunks[|chunks| - 1].1] else front
  }

  /** Every chunk of the batch comes from a writer: sealed, and numbered below the counter. */
  ghost predicate WriterMade(chunks: seq<(TopicId, Chunk)>, counter: nat) {
    forall i | 0 <= i < |chunks| :: Sealed(chunks[i].1) && 0 < chunks[i].1.id < counter
  }

  ghost predicate IdsBelow(chunks: seq<Chunk>, counter: nat) {
    forall i | 0 <= i < |chunks| :: 0 < chunks[i].id < counter
  }

  ghost predicate StoreOrdered(store: Store, nextTopic: TopicId) {
    forall t {:trigger OrderedTopic(store[t], t, nextTopic)} | t in store :: OrderedTopic(store[t], t, nextTopic)
  }

  ghost predicate OrderedTopic(chunks: seq<Chunk>, t: TopicId, nextTopic: TopicId) {
    t < nextTopic && Ordered(chunks)
  }

  ghost predicate StoreNumbered(store: Store, counter: nat) {
    forall t {:trigger IdsBelow(store[t], counter)} | t in store :: IdsBelow(store[t], counter)
  }

  ghost predicate Gained(before: Store, after: Store, t: TopicId) {
    t in before && t in after && |before[t]| < |after[t]|
  }

  /** Committing keeps every topic ordered. */
  lemma CommitOneKeeps(store: Store, t: TopicId, c: Chunk, nextTopic: TopicId)
    requires StoreOrdered(store, nextTopic) && Sealed(c)
    ensures StoreOrdered(CommitOne(store, t, c), nextTopic)
  {
    assert t in store ==> OrderedTopic(store[t], t, nextTopic);
    forall u | u in store ensures OrderedTopic(CommitOne(store, t, c)[u], u, nextTopic) {
      assert OrderedTopic(store[u], u, nextTopic);
    }
  }

  lemma CommitOneNumbers(store: Store, t: TopicId, c: Chunk, counter: nat)
    requires StoreNumbered(store, counter) && 0 < c.id < counter
    ensures StoreNumbered(CommitOne(store, t, c), counter)
  {
    forall u | u in store ensures IdsBelow(CommitOne(store, t, c)[u], counter) {
      assert IdsBelow(store[u], counter);
    }
  }

  /** A commit only ever appends. */
  lemma {:induction false} CommitAllGrows(store: Store, chunks: seq<(TopicId, Chunk)>, t: TopicId)
    ensures CommitAll(store, chunks).Keys == store.Keys
    ensures t in store ==> store[t] <= CommitAll(store, chunks)[t]
  {
    if chunks != [] {
      CommitAllGrows(store, chunks[..|chunks| - 1], t);
    }
  }

  lemma {:induction false} CommitAllNumbers(store: Store, chunks: seq<(TopicId, Chunk)>, counter: nat)
    requires StoreNumbered(store, counter) && WriterMade(chunks, counter)
    ensures StoreNumbered(CommitAll(store, chunks), counter)
  {
    if chunks != [] {
      CommitAllNumbers(store, chunks[..|chunks| - 1], counter);
      var last := chunks[|chunks| - 1];
      CommitOneNumbers(CommitAll(store, chunks[..|chunks| - 1]), last.0, last.1, counter);
    }
  }

  lemma SetKeeps(store: Store, t: TopicId, chunks: seq<Chunk>, nextTopic: TopicId)
    requires StoreOrdered(store, nextTopic) && t in store && Ordered(chunks)
    ensures StoreOrdered(store[t := chunks], nextTopic)
  {
    assert OrderedTopic(store[t], t, nextTopic);
    forall u | u in store ensures OrderedTopic(store[t := chunks][u], u, nextTopic) {
      assert OrderedTopic(store[u], u, nextTopic);
    }
  }

  lemma EmptyTopicKeeps(store: Store, t: TopicId, counter: nat)
    requires StoreOrdered(store, t)
    ensures StoreOrdered(store[t := []], t + 1)
    ensures StoreNumbered(store, counter) ==> StoreNumbered(store[t := []], counter)
    ensures t !in store
  {
    var after := store[t := []];
    assert t in store ==> OrderedTopic(store[t], t, t);
    forall u | u in after ensures OrderedTopic(after[u], u, t + 1) {
      assert u in store ==> OrderedTopic(store[u], u, t);
    }
    if StoreNumbered(store, counter) {
      forall u | u in after ensures IdsBelow(after[u], counter) {
        assert u in store ==> IdsBelow(store[u], counter);
      }
    }
  }

  /** `changed` lists exactly the topics that gained a chunk. */
  ghost predicate Reports(changed: seq<TopicId>, before: Store, now: Store) {
    forall t {:trigger Gained(before, now, t)} :: t in changed <==> Gained(before, now, t)
  }

  lemma ReportsNext(changed: seq<TopicId>, changed': seq<TopicId>, before: Store, now: Store, t: TopicId, c: Chunk,
                    ok: bool)
    requires Reports(changed, before, now) && t in before && t in now && |before[t]| <= |now[t]|
    requires ok <==> Gained(now, CommitOne(now, t, c), t)
    requires forall u :: u in changed' <==> u in changed || (ok && u == t)
    ensures Reports(changed', before, CommitOne(now, t, c))
  {
    var after := CommitOne(now, t, c);
    forall u ensures u in changed' <==> Gained(before, after, u) {
      assert u in changed <==> Gained(before, now, u);
    }
  }

  lemma SameReport(a: seq<TopicId>, b: seq<TopicId>, before: Store, now: Store)
    requires Reports(a, before, now) && forall t :: t in b <==> t in a
    ensures Reports(b, before, now)
  {
    forall t ensures t in b <==> Gained(before, now, t) {
      assert t in a <==> Gained(before, now, t);
    }
  }

  class DataEngine {
    var topics: map<TopicId, TopicStorage>
    var datasets: set<nat>
    var nextTopicId: TopicId
    var nextDatasetId: nat
    /** The counter that numbers sealed chunks. */
    var nextChunkId: nat

    /** The committed chunks of every topic, as one value. */
    ghost var store: Store

    ghost predicate Valid()
      reads this`topics, this`store, this`nextTopicId, topics.Values`sealedChunks
    {
      IdsMatch() && Mirrors() && StoreOrdered(store, nextTopicId)
    }

    ghost predicate IdsMatch()
      reads this`topics
    {
      forall t <- topics :: topics[t].topicId == t
    }

    ghost predicate Mirrors()
      reads this`topics, this`store, topics.Values`sealedChunks
    {
      store.Keys == topics.Keys && forall t <- topics :: topics[t].sealedChunks == store[t]
    }

    /** Every committed chunk was numbered by the counter. */
    ghost predicate AllNumbered()
      reads this`store, this`nextChunkId
    {
      0 < nextChunkId && StoreNumbered(store, nextChunkId)
    }

    /** Topic `t` was created for an output: under the given dataset and name, with one column. */
    ghost predicate MadeAs(t: TopicId, key: (nat, string))
      reads this`topics, topics.Values`columns
    {
      && t in topics && OneColumn(topics[t])
      && (topics[t].descriptor.datasetId, topics[t].descriptor.name) == key
    }

    ghost predicate AllMade(labels: map<TopicId, (nat, string)>)
      reads this`topics, topics.Values`columns
    {
      forall t {:trigger MadeAs(t, labels[t])} | t in labels :: MadeAs(t, labels[t])
    }

    constructor ()
      ensures Valid() && AllNumbered() && topics == map[] && datasets == {} && nextTopicId == 1
    {
      topics, datasets, store := map[], {}, map[];
      nextTopicId, nextDatasetId, nextChunkId := 1, 1, 1;
    }

    method CreateDataset() returns (id: nat)
      modifies this`datasets, this`nextDatasetId
      ensures id == old(nextDatasetId) && nextDatasetId == id + 1 && datasets == old(datasets) + {id}
    {
      id := nextDatasetId;
      nextDatasetId := nextDatasetId + 1;
      datasets := datasets + {id};
    }

    method CreateTopic(d: Descriptor) returns (r: Result<TopicId>)
      requires Valid()
      modifies this`topics, this`store, this`nextTopicId
      ensures Valid() && (old(AllNumbered()) ==> AllNumbered())
      ensures r.Ok? <==> d.datasetId in datasets
      ensures r.Err? ==> topics == old(topics) && nextTopicId == old(nextTopicId) && store == old(store)
      ensures r.Ok? ==>
                && r.value == old(nextTopicId) && nextTopicId == r.value + 1 && r.value !in old(topics)
                && r.value in topics && fresh(topics[r.value])
                && topics[r.value].descriptor == d && topics[r.value].columns == []
                && topics == old(topics)[r.value := topics[r.value]]
                && store == old(store)[r.value := []]
    {
      if d.datasetId !in datasets {
        return Err("dataset not found");
      }
      var id := nextTopicId;
      EmptyTopicKeeps(store, id, nextChunkId);
      var storage := new TopicStorage(id, d);
      topics, nextTopicId := topics[id := storage], nextTopicId + 1;
      store := store[id := []];
      return Ok(id);
    }

    /** Drops all chunks of one topic. */
    method ClearTopic(t: TopicId)
      requires Valid() && t in topics
      modifies this`store, topics.Values`sealedChunks
      ensures Valid() && store == old(store)[t := []]
    {
      SetKeeps(store, t, [], nextTopicId);
      topics[t].ClearChunks();
      store := store[t := []];
    }

    /** Appends chunks taken over from another engine. */
    method AppendChunks(t: TopicId, chunks: seq<Chunk>)
      requires Valid() && t in topics && Ordered(store[t] + chunks)
      modifies this`store, topics.Values`sealedChunks
      ensures Valid() && store == old(store)[t := old(store)[t] + chunks]
    {
      var storage := topics[t];
      assert OrderedTopic(store[t], t, nextTopicId);
      SetKeeps(store, t, store[t] + chunks, nextTopicId);
      storage.sealedChunks := storage.sealedChunks + chunks;
      store := store[t := storage.sealedChunks];
    }

    method AppendTo(t: TopicId, c: Chunk) returns (ok: bool)
      requires Valid() && t in topics && Sealed(c)
      modifies this`store, topics.Values`sealedChunks
      ensures Valid() && store == CommitOne(old(store), t, c)
      ensures ok <==> Gained(old(store), store, t)
    {
      CommitOneKeeps(store, t, c, nextTopicId);
      assert OrderedTopic(store[t], t, nextTopicId);
      ok := topics[t].AppendSealedChunk(c);
      store := CommitOne(store, t, c);
    }

    /** Commits a batch and reports exactly the topics that gained a chunk, in order and once each. */
    method CommitChunks(chunks: seq<(TopicId, Chunk)>) returns (changed: seq<TopicId>)
      requires Valid() && WriterMade(chunks, nextChunkId)
      modifies this`store, topics.Values`sealedChunks
      ensures Valid() && (old(AllNumbered()) ==> AllNumbered())
      ensures store == CommitAll(old(store), chunks)
      ensures StrictlyInOrder(changed) && Reports(changed, old(store), store)
    {
      var touched := CommitInOrder(chunks);
      if old(AllNumbered()) {
        CommitAllNumbers(old(store), chunks, nextChunkId);
      }
      SortMeaning(touched);
      UniqueMeaning(Sort(touched));
      UniqueIds(Sort(touched));
      changed := Unique(Sort(touched));
      SameReport(touched, changed, old(store), store);
    }

    /** The commit loop; a topic is noted again whenever another topic's chunk came in between. */
    method CommitInOrder(chunks: seq<(TopicId, Chunk)>) returns (touched: seq<TopicId>)
      requires Valid() && WriterMade(chunks, nextChunkId)
      modifies this`store, topics.Values`sealedChunks
      ensures Valid() && store == CommitAll(old(store), chunks) && Reports(touched, old(store), store)
    {
      touched := [];
      for i := 0 to |chunks|
        invariant Valid()
        invariant store == CommitAll(old(store), chunks[..i]) && Reports(touched, old(store), store)
      {
        assert chunks[..i + 1][..i] == chunks[..i];
        touched := CommitNext(chunks[i].0, chunks[i].1, touched, old(store), chunks[..i]);
      }
      assert chunks[..|chunks|] == chunks;
    }

    method CommitNext(t: TopicId, c: Chunk, touched: seq<TopicId>, ghost before: Store,
                      ghost done: seq<(TopicId, Chunk)>)
        returns (touched': seq<TopicId>)
      requires Valid() && Sealed(c) && store == CommitAll(before, done) && Reports(touched, before, store)
      modifies this`store, topics.Values`sealedChunks
      ensures Valid() && store == CommitOne(old(store), t, c) && Reports(touched', before, store)
    {
      CommitAllGrows(before, done, t);
      touched' := touched;
      if t in topics {
        ghost var now := store;
        var ok := AppendTo(t, c);
        if ok && (touched == [] || touched[|touched| - 1] != t) {
          touched' := touched + [t];
        }
        ReportsNext(touched, touched', before, now, t, c, ok);
      }
    }
  }
}
