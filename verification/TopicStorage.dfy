/** The committed chunks of one topic. */
module TopicStorages {
  import opened Samples

  /** The chunks left after dropping the leading ones that end before `keep`. */
  function Evicted(chunks: seq<Chunk>, keep: Timestamp): seq<Chunk> {
    if chunks == [] || keep <= TMax(chunks[0]) then chunks else Evicted(chunks[1..], keep)
  }

  /** Eviction drops the longest prefix of chunks that end before the limit. */
  lemma {:induction false} EvictedIsSuffix(chunks: seq<Chunk>, keep: Timestamp) returns (n: nat)
    requires Ordered(chunks)
    ensures n <= |chunks| && Evicted(chunks, keep) == chunks[n..] && Ordered(chunks[n..])
    ensures forall i | 0 <= i < n :: Sealed(chunks[i]) && TMax(chunks[i]) < keep
    ensures n < |chunks| ==> keep <= TMax(chunks[n])
  {
    n := 0;
    assert chunks[0..] == chunks;
    if chunks != [] && TMax(chunks[0]) < keep {
      OrderedTail(chunks);
      var m := EvictedIsSuffix(chunks[1..], keep);
      n := m + 1;
      assert chunks[1..][m..] == chunks[n..];
      forall i | 0 <= i < n ensures Sealed(chunks[i]) && TMax(chunks[i]) < keep {
        assert i > 0 ==> chunks[i] == chunks[1..][i - 1];
      }
    }
  }

  lemma {:induction false} FlattenBelow(chunks: seq<Chunk>, limit: Timestamp)
    requires forall i | 0 <= i < |chunks| :: Sealed(chunks[i]) && TMax(chunks[i]) < limit
    ensures forall row <- Flatten(chunks) :: row.ts < limit
  {
    if chunks != [] {
      FlattenBelow(chunks[..|chunks| - 1], limit);
      SortedMeaning(chunks[|chunks| - 1].rows);
    }
  }

  /** Eviction never loses a row at or after the limit. */
  lemma EvictedKeepsRecent(chunks: seq<Chunk>, keep: Timestamp) returns (lost: seq<Row>)
    requires Ordered(chunks)
    ensures Flatten(chunks) == lost + Flatten(Evicted(chunks, keep))
    ensures forall row <- lost :: row.ts < keep
  {
    var n := EvictedIsSuffix(chunks, keep);
    lost := Flatten(chunks[..n]);
    Halves(chunks, n);
    FlattenConcat(chunks[..n], chunks[n..]);
    FlattenBelow(chunks[..n], keep);
  }

  /** Ordered chunks stay ordered when the first is dropped, and the first is sealed. */
  lemma {:induction false} OrderedTail(chunks: seq<Chunk>)
    requires Ordered(chunks) && chunks != []
    ensures Ordered(chunks[1..]) && Sealed(chunks[0])
    ensures chunks[1..] != [] ==> TMax(chunks[0]) <= TMin(chunks[1])
  {
    if |chunks| > 1 {
      var front := chunks[..|chunks| - 1];
      OrderedTail(front);
      assert chunks[1..][..|chunks| - 2] == front[1..];
      assert |chunks| > 2 ==> EndOf(front) == EndOf(front[1..]);
    }
  }

  /** What a topic is created with; `schemaColumns` are the leaves of its registered type tree, if any. */
  datatype Descriptor = Descriptor(datasetId: nat, name: string, maxChunkRows: nat, expansionLimit: nat,
                                   schemaColumns: seq<Column>)

  class TopicStorage {
    const topicId: nat
    const descriptor: Descriptor
    /** The column layout recorded at registration or by a writer; empty when there is none yet. */
    var columns: seq<Column>
    var sealedChunks: seq<Chunk>
    /** How many elements of each variable-length array field have columns. */
    var expansionCounts: map<string, nat>
    var maxObserved: nat
    var truncated: nat

    constructor (topicId: nat, descriptor: Descriptor)
      ensures this.topicId == topicId && this.descriptor == descriptor
      ensures columns == [] && sealedChunks == [] && expansionCounts == map[] && maxObserved == truncated == 0
    {
      this.topicId, this.descriptor := topicId, descriptor;
      columns, sealedChunks, expansionCounts := [], [], map[];
      maxObserved, truncated := 0, 0;
    }

    function ExpansionCount(field: string): nat
      reads this`expansionCounts
    {
      if field in expansionCounts then expansionCounts[field] else 0
    }

    /** Rejects exactly the chunks that start before the newest committed row. */
    method AppendSealedChunk(c: Chunk) returns (ok: bool)
      requires Sealed(c) && Ordered(sealedChunks)
      modifies this`sealedChunks
      ensures ok <==> old(sealedChunks) == [] || EndOf(old(sealedChunks)) <= TMin(c)
      ensures sealedChunks == if ok then old(sealedChunks) + [c] else old(sealedChunks)
      ensures Ordered(sealedChunks)
    {
      if sealedChunks != [] && TMin(c) < TMax(sealedChunks[|sealedChunks| - 1]) {
        return false;
      }
      sealedChunks := sealedChunks + [c];
      return true;
    }

    method EvictBefore(keep: Timestamp)
      requires Ordered(sealedChunks)
      modifies this`sealedChunks
      ensures sealedChunks == Evicted(old(sealedChunks), keep)
      ensures Ordered(sealedChunks)
    {
      var end := 0;
      while end < |sealedChunks| && TMax(sealedChunks[end]) < keep
        invariant 0 <= end <= |sealedChunks| && sealedChunks == old(sealedChunks)
        invariant Ordered(sealedChunks[end..])
        invariant Evicted(sealedChunks, keep) == Evicted(sealedChunks[end..], keep)
      {
        OrderedTail(sealedChunks[end..]);
        assert sealedChunks[end..][1..] == sealedChunks[end + 1..];
        end := end + 1;
      }
      if end > 0 {
        sealedChunks := sealedChunks[end..];
      }
    }

    method ClearChunks()
      modifies this`sealedChunks
      ensures sealedChunks == []
    {
      sealedChunks := [];
    }
  }

  /** A topic registered with one schema column and no other layout, as derived topics are. */
  predicate OneColumn(storage: TopicStorage)
    reads storage`columns
  {
    storage.columns == [] && |storage.descriptor.schemaColumns| == 1
  }
}
