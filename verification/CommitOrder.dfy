/** What one commit does to one topic: time order decides, the interleaving of topics does not. */
module CommitOrder {
  import opened Samples
  import opened DataEngines
  import opened WriterStates

  /** Chunks offered to one topic in order; each is kept unless it steps back in time. */
  function Accepted(chunks: seq<Chunk>, offered: seq<Chunk>): seq<Chunk> {
    if offered == [] then chunks
    else
      var front, last := Accepted(chunks, offered[..|offered| - 1]), offered[|offered| - 1];
      if front == [] || EndOf(front) <= TMin(last) then front + [last] else front
  }

  /** A topic's new chunks depend only on the chunks addressed to it: a batch may list topics in any order. */
  lemma {:induction false} CommitPerTopic(store: Store, batch: seq<(TopicId, Chunk)>, t: TopicId)
    ensures CommitAll(store, batch).Keys == store.Keys
    ensures t in store ==> CommitAll(store, batch)[t] == Accepted(store[t], ChunksFor(batch, t))
  {
    if batch != [] {
      CommitPerTopic(store, batch[..|batch| - 1], t);
      var front, last := ChunksFor(batch[..|batch| - 1], t), batch[|batch| - 1];
      assert (front + [last.1])[..|front|] == front;
    }
  }

  lemma AppendFits(chunks: seq<Chunk>, c: Chunk)
    requires Ordered(chunks) && Sealed(c) && Sorted(Flatten(chunks) + c.rows)
    ensures Ordered(chunks + [c]) && (chunks != [] ==> EndOf(chunks) <= TMin(c))
  {
    var all := Flatten(chunks) + c.rows;
    SortedMeaning(all);
    if chunks != [] {
      FlattenLast(chunks);
      var n := |Flatten(chunks)|;
      assert all[n - 1].ts <= all[n].ts;
    }
    ConcatFront(chunks, [c]);
  }

  lemma SortedPrefix(rows: seq<Row>, more: seq<Row>)
    requires Sorted(rows + more)
    ensures Sorted(rows)
  {
    SortedMeaning(rows + more);
    forall i, j | 0 <= i < j < |rows| ensures rows[i].ts <= rows[j].ts {
      assert (rows + more)[i] == rows[i] && (rows + more)[j] == rows[j];
    }
    SortedMeaning(rows);
  }

  ghost predicate AllSealed(chunks: seq<Chunk>) {
    forall i | 0 <= i < |chunks| :: Sealed(chunks[i])
  }

  lemma AcceptsNext(chunks: seq<Chunk>, front: seq<Chunk>, c: Chunk)
    requires Accepted(chunks, front) == chunks + front && Ordered(chunks + front) && Sealed(c)
    requires Sorted(Flatten(chunks) + Flatten(front) + c.rows)
    ensures Accepted(chunks, front + [c]) == chunks + (front + [c]) && Ordered(chunks + (front + [c]))
  {
    FlattenConcat(chunks, front);
    AppendFits(chunks + front, c);
    Assoc(chunks, front, [c]);
    assert (front + [c])[..|front|] == front;
  }

  /** Nothing is dropped when the topic's rows continued by the offered rows are in time order. */
  lemma {:induction false} SortedIsAccepted(chunks: seq<Chunk>, offered: seq<Chunk>)
    requires Ordered(chunks) && AllSealed(offered) && Sorted(Flatten(chunks) + Flatten(offered))
    ensures Accepted(chunks, offered) == chunks + offered && Ordered(chunks + offered)
  {
    if offered == [] {
      assert chunks + offered == chunks;
    } else {
      var front, last := offered[..|offered| - 1], offered[|offered| - 1];
      assert offered == front + [last];
      assert Sealed(last) && AllSealed(front);
      Assoc(Flatten(chunks), Flatten(front), last.rows);
      SortedPrefix(Flatten(chunks) + Flatten(front), last.rows);
      SortedIsAccepted(chunks, front);
      AcceptsNext(chunks, front, last);
    }
  }

  lemma StagedFollows(chunks: seq<Chunk>, added: seq<Chunk>, first: nat, counter: nat)
    requires Rising(chunks) && IdsBelow(chunks, first) && Staged(added, first, counter)
    ensures AllSealed(added) && Rising(chunks + added)
  {
    forall i | 0 <= i < |added| ensures Sealed(added[i]) && first <= added[i].id {
      assert MadeBetween(added[i], first, counter);
    }
    RisingMeaning(added);
    RisingConcat(chunks, added);
  }

  /** One topic gains exactly the chunks addressed to it, if they continue it in time. */
  lemma TopicAppends(store: Store, batch: seq<(TopicId, Chunk)>, t: TopicId)
    requires t in store && Ordered(store[t]) && AllSealed(ChunksFor(batch, t))
    requires Sorted(History(store, t) + Flatten(ChunksFor(batch, t)))
    ensures var after := CommitAll(store, batch);
            && t in after && after[t] == store[t] + ChunksFor(batch, t) && Ordered(after[t])
            && History(after, t) == History(store, t) + Flatten(ChunksFor(batch, t))
  {
    var added := ChunksFor(batch, t);
    CommitPerTopic(store, batch, t);
    SortedIsAccepted(store[t], added);
    FlattenConcat(store[t], added);
  }

  /** The same for chunks that one writer numbered after everything stored: they also stay numbered in commit order. */
  lemma TopicGains(store: Store, batch: seq<(TopicId, Chunk)>, t: TopicId, first: nat, counter: nat)
    requires t in store && Ordered(store[t]) && Rising(store[t]) && IdsBelow(store[t], first)
    requires Staged(ChunksFor(batch, t), first, counter)
    requires Sorted(History(store, t) + Flatten(ChunksFor(batch, t)))
    ensures var after := CommitAll(store, batch);
            && t in after && after[t] == store[t] + ChunksFor(batch, t)
            && Ordered(after[t]) && Rising(after[t])
            && History(after, t) == History(store, t) + Flatten(ChunksFor(batch, t))
  {
    StagedFollows(store[t], ChunksFor(batch, t), first, counter);
    TopicAppends(store, batch, t);
  }

  /** Whatever a commit drops, what it keeps stays numbered in commit order. */
  lemma {:induction false} AcceptedRising(chunks: seq<Chunk>, offered: seq<Chunk>, first: nat, counter: nat)
    requires Rising(chunks) && IdsBelow(chunks, first) && Staged(offered, first, counter)
    ensures Rising(Accepted(chunks, offered))
    ensures LastId(Accepted(chunks, offered)) <= if offered == [] then LastId(chunks) else LastId(offered)
  {
    if offered != [] {
      var front, last := offered[..|offered| - 1], offered[|offered| - 1];
      StagedFront(offered, first, counter);
      AcceptedRising(chunks, front, first, counter);
      var kept := Accepted(chunks, front);
      assert LastId(kept) < last.id;
      RisingMeaning([last]);
      RisingConcat(kept, [last]);
    }
  }

  lemma StagedFront(chunks: seq<Chunk>, first: nat, counter: nat)
    requires Staged(chunks, first, counter) && chunks != []
    ensures Staged(chunks[..|chunks| - 1], first, counter) && LastId(chunks[..|chunks| - 1]) < LastId(chunks)
    ensures first <= LastId(chunks) && 0 < LastId(chunks)
  {
    RisingFront(chunks);
    RisingMeaning(chunks);
    assert MadeBetween(chunks[|chunks| - 1], first, counter);
    var front := chunks[..|chunks| - 1];
    forall i | 0 <= i < |front| ensures MadeBetween(front[i], first, counter) {
      assert MadeBetween(chunks[i], first, counter);
    }
  }
}
