/** Commits between the calls of a writer. */
module WriterCommits {
  import opened Samples
  import opened TopicStorages
  import opened DataEngines
  import opened WriterStates
  import opened Layouts
  import opened DataWriters
  import opened WriterRuns
  import opened WriterCalls
  import CommitOrder

  /** The layouts in a batch are in order, and empty where this writer has loaded an empty one. */
  ghost predicate CommitFits(v: View, batch: seq<(TopicId, Chunk)>) {
    forall t {:trigger ChunksFor(batch, t)} | t in v.topics :: forall c <- ChunksFor(batch, t) ::
      LayoutOk(c.columns) && (t in v.layouts && v.layouts[t] == [] ==> c.columns == [])
  }

  lemma {:induction false} AcceptedGrows(chunks: seq<Chunk>, offered: seq<Chunk>)
    ensures chunks <= CommitOrder.Accepted(chunks, offered)
    ensures forall c <- CommitOrder.Accepted(chunks, offered)[|chunks|..] :: c in offered
  {
    if offered != [] {
      var front, last := offered[..|offered| - 1], offered[|offered| - 1];
      AcceptedGrows(chunks, front);
      FrontAndLast(offered);
      var before, after := CommitOrder.Accepted(chunks, front), CommitOrder.Accepted(chunks, offered);
      assert after == before || after == before + [last];
      assert (before + [last])[|chunks|..] == before[|chunks|..] + [last];
    }
  }

  /** The layout that a topic's storage offers, given what it has stored and declared. */
  function Offered(columns: seq<Column>, schema: seq<Column>, chunks: seq<Chunk>): seq<Column> {
    if columns != [] then columns else if schema != [] then schema else if chunks != [] then chunks[0].columns else []
  }

  /** A commit gives a topic a layout only if it had none, and then one out of the batch. */
  lemma OfferedAfter(columns: seq<Column>, schema: seq<Column>, chunks: seq<Chunk>, offered: seq<Chunk>)
    ensures var before := Offered(columns, schema, chunks);
            var after := Offered(columns, schema, CommitOrder.Accepted(chunks, offered));
            after == before || (before == [] && exists c :: c in offered && after == c.columns)
  {
    AcceptedGrows(chunks, offered);
    var all := CommitOrder.Accepted(chunks, offered);
    if chunks == [] && all != [] {
      assert all[0] in all[|chunks|..];
    } else if chunks != [] {
      assert all[0] == chunks[0];
    }
  }

  /** After a commit a topic is seen as before, but for a layout out of the batch if it had none. */
  ghost predicate SeenAfter(tv: TopicView, offered: seq<Chunk>, tv': TopicView) {
    && tv' == tv.(stored := tv'.stored)
    && (tv'.stored == tv.stored || (tv.stored == [] && exists c :: c in offered && tv'.stored == c.columns))
  }

  ghost predicate OffersMore(v: View, batch: seq<(TopicId, Chunk)>, v': View, t: TopicId) {
    t in v.topics && t in v'.topics && SeenAfter(v.topics[t], ChunksFor(batch, t), v'.topics[t])
  }

  lemma CommitElapses(v: View, batch: seq<(TopicId, Chunk)>, v': View)
    requires (forall t <- v.topics :: TopicSound(v, t)) && CommitFits(v, batch)
    requires v' == v.(topics := v'.topics) && v'.topics.Keys == v.topics.Keys
    requires forall t <- v.topics :: OffersMore(v, batch, v', t)
    ensures Elapsed(v, v')
  {
    forall t <- v'.topics
      ensures 1 <= v'.topics[t].maxRows && LayoutOk(LayoutFor(v', t))
      ensures t in v.layouts && v.layouts[t] == [] ==> v'.topics[t].stored == []
    {
      assert TopicSound(v, t) && OffersMore(v, batch, v', t);
    }
    forall t <- v.topics ensures StaysKnown(v.topics[t], v'.topics[t]) {
      assert OffersMore(v, batch, v', t);
    }
  }

  /** What is seen of one storage once chunks are added to it. */
  lemma SeenGrows(tv: TopicView, columns: seq<Column>, schema: seq<Column>, chunks: seq<Chunk>, offered: seq<Chunk>)
    requires tv.stored == Offered(columns, schema, chunks)
    ensures SeenAfter(tv, offered, tv.(stored := Offered(columns, schema, CommitOrder.Accepted(chunks, offered))))
  {
    OfferedAfter(columns, schema, chunks, offered);
  }

  /** A commit, topic by topic. */
  method CommitEach(engine: DataEngine, batch: seq<(TopicId, Chunk)>) returns (changed: seq<TopicId>)
    requires engine.Valid() && WriterMade(batch, engine.nextChunkId)
    modifies engine`store, engine.topics.Values`sealedChunks
    ensures engine.Valid()
    ensures forall t <- engine.topics ::
              SeenAfter(old(TopicSeen(engine.topics[t])), ChunksFor(batch, t), TopicSeen(engine.topics[t]))
  {
    ghost var stores := engine.store;
    ghost var seen := map t | t in engine.topics :: TopicSeen(engine.topics[t]);
    changed := engine.CommitChunks(batch);
    forall t <- engine.topics ensures SeenAfter(seen[t], ChunksFor(batch, t), TopicSeen(engine.topics[t])) {
      var storage := engine.topics[t];
      CommitOrder.CommitPerTopic(stores, batch, t);
      SeenGrows(seen[t], storage.columns, storage.descriptor.schemaColumns, stores[t], ChunksFor(batch, t));
    }
  }

  /** A commit between two calls of the writer, of its own chunks or any others, is a step of such a run. */
  method DoCommit(w: DataWriter, batch: seq<(TopicId, Chunk)>, ghost v: View)
      returns (changed: seq<TopicId>, ghost v': View)
    requires w.Valid() && Seen(w, v) && Sound(v, w.firstId) && w.engine.Valid()
    requires WriterMade(batch, w.engine.nextChunkId) && CommitFits(v, batch)
    modifies w.engine`store, w.engine.topics.Values`sealedChunks
    ensures w.Valid() && w.engine.Valid() && Seen(w, v')
    ensures Stepped(v, Made(Elsewhere, true, []), v', w.firstId)
  {
    changed, v' := CommitSeen(w, batch, v);
    CommitElapses(v, batch, v');
  }

  method CommitSeen(w: DataWriter, batch: seq<(TopicId, Chunk)>, ghost v: View)
      returns (changed: seq<TopicId>, ghost v': View)
    requires w.Valid() && Seen(w, v) && w.engine.Valid() && WriterMade(batch, w.engine.nextChunkId)
    modifies w.engine`store, w.engine.topics.Values`sealedChunks
    ensures w.Valid() && w.engine.Valid() && Seen(w, v')
    ensures v' == v.(topics := v'.topics) && v'.topics.Keys == v.topics.Keys
    ensures forall t <- v.topics :: OffersMore(v, batch, v', t)
  {
    changed := CommitEach(w.engine, batch);
    v' := v.(topics := map t | t in v.topics :: TopicSeen(w.engine.topics[t]));
    forall t <- v.topics ensures OffersMore(v, batch, v', t) {
      assert v.topics[t] == old(TopicSeen(w.engine.topics[t]));
    }
  }
}
