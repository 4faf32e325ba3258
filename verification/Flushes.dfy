/** Handing over what a writer holds: the batch conserves every accepted row. */
module Flushes {
  import opened Samples
  import opened DataEngines
  import opened WriterStates

  lemma ForPush(batch: seq<(TopicId, Chunk)>, t: TopicId, c: Chunk)
    ensures ChunksFor(batch + [(t, c)], t) == ChunksFor(batch, t) + [c]
    ensures forall u | u != t :: ChunksFor(batch + [(t, c)], u) == ChunksFor(batch, u)
  {
    assert (batch + [(t, c)])[..|batch|] == batch;
  }

  /** What a partly built batch holds of topic `u`, followed by the open builder, are the rows `rows`. */
  ghost predicate Carries(batch: seq<(TopicId, Chunk)>, h: Held, first: nat, u: TopicId, rows: seq<Row>) {
    && Staged(ChunksFor(batch, u), first, h.counter)
    && Flatten(ChunksFor(batch, u)) + OpenRows(h, u) == rows
  }

  /** The batch and the open builders together hold exactly the rows that `origin` held, topic by topic, in order. */
  ghost predicate Conserves(batch: seq<(TopicId, Chunk)>, h: Held, first: nat, origin: Held) {
    forall u :: Carries(batch, h, first, u, Rows(origin, u))
  }

  /** Sealing one builder straight into the batch. */
  function Emptied(h: Held, t: TopicId): Held
    requires t in h.builders
  {
    h.(builders := h.builders - {t}, counter := h.counter + 1)
  }

  lemma SealCarries(batch: seq<(TopicId, Chunk)>, h: Held, first: nat, t: TopicId, u: TopicId, rows: seq<Row>)
    requires 0 < first <= h.counter && t in h.builders && BuilderOk(h.builders[t]) && h.builders[t].rows != []
    requires Carries(batch, h, first, u, rows)
    ensures Carries(batch + [(t, NewChunk(h, t))], Emptied(h, t), first, u, rows)
  {
    ForPush(batch, t, NewChunk(h, t));
    if u == t {
      SealCarriesOwn(ChunksFor(batch, t), NewChunk(h, t), first, rows);
    } else {
      StagedLater(ChunksFor(batch, u), first, h.counter, h.counter + 1);
    }
  }

  lemma SealCarriesOwn(chunks: seq<Chunk>, c: Chunk, first: nat, rows: seq<Row>)
    requires Staged(chunks, first, c.id) && Sealed(c) && first <= c.id && 0 < first
    requires Flatten(chunks) + c.rows == rows
    ensures Staged(chunks + [c], first, c.id + 1) && Flatten(chunks + [c]) + [] == rows
  {
    StagedPush(chunks, c, first);
    FlattenPush(chunks, c);
  }

  lemma SealConserves(batch: seq<(TopicId, Chunk)>, h: Held, first: nat, t: TopicId, origin: Held)
    requires 0 < first <= h.counter && t in h.builders && BuilderOk(h.builders[t]) && h.builders[t].rows != []
    requires Conserves(batch, h, first, origin)
    ensures Conserves(batch + [(t, NewChunk(h, t))], Emptied(h, t), first, origin)
  {
    forall u ensures Carries(batch + [(t, NewChunk(h, t))], Emptied(h, t), first, u, Rows(origin, u)) {
      SealCarries(batch, h, first, t, u, Rows(origin, u));
    }
  }

  lemma StagedConserves(batch: seq<(TopicId, Chunk)>, h: Held, topics: set<TopicId>, first: nat)
    requires HeldOk(h, topics, first) && forall u :: ChunksFor(batch, u) == PendingOf(h, u)
    ensures Conserves(batch, h, first, h)
  {
    forall u ensures Carries(batch, h, first, u, Rows(h, u)) {
      assert u in h.pending ==> Staged(h.pending[u], first, h.counter);
    }
  }

  /** No chunk of the batch is empty or above its topic's limit, if that was so of the state it was taken from. */
  ghost predicate BatchFits(batch: seq<(TopicId, Chunk)>, h: Held) {
    forall u, m: nat {:trigger Bounded(h, u, m)} | Bounded(h, u, m) :: AllFit(ChunksFor(batch, u), m)
  }

  lemma StagedFits(batch: seq<(TopicId, Chunk)>, h: Held)
    requires forall u :: ChunksFor(batch, u) == PendingOf(h, u)
    ensures BatchFits(batch, h)
  {
  }

  lemma FitsPush(chunks: seq<Chunk>, c: Chunk, m: nat)
    requires AllFit(chunks, m) && Fits(c, m)
    ensures AllFit(chunks + [c], m)
  {
    forall i | 0 <= i < |chunks + [c]| ensures Fits((chunks + [c])[i], m) {
      if i < |chunks| { assert Fits(chunks[i], m); }
    }
  }

  lemma SealFitsOne(batch: seq<(TopicId, Chunk)>, c: Chunk, t: TopicId, u: TopicId, m: nat)
    requires AllFit(ChunksFor(batch, u), m) && (u == t ==> Fits(c, m))
    ensures AllFit(ChunksFor(batch + [(t, c)], u), m)
  {
    ForPush(batch, t, c);
    if u == t {
      FitsPush(ChunksFor(batch, t), c, m);
    }
  }

  lemma SealFits(batch: seq<(TopicId, Chunk)>, h: Held, rest: Held, t: TopicId)
    requires BatchFits(batch, h) && t in rest.builders && t in h.builders && rest.builders[t] == h.builders[t]
    requires rest.builders[t].rows != []
    ensures BatchFits(batch + [(t, NewChunk(rest, t))], h)
  {
    forall u, m: nat | Bounded(h, u, m) ensures AllFit(ChunksFor(batch + [(t, NewChunk(rest, t))], u), m) {
      SealFitsOne(batch, NewChunk(rest, t), t, u, m);
    }
  }

  /** The pending chunks first, then chunks numbered from the state's counter on. */
  ghost predicate Continues(pending: seq<Chunk>, all: seq<Chunk>, first: nat, counter: nat) {
    pending <= all && Staged(all[|pending|..], first, counter)
  }

  ghost predicate BatchNumbered(batch: seq<(TopicId, Chunk)>, h: Held, counter: nat) {
    forall u :: Continues(PendingOf(h, u), ChunksFor(batch, u), h.counter, counter)
  }

  lemma StagedNumbered(batch: seq<(TopicId, Chunk)>, h: Held)
    requires forall u :: ChunksFor(batch, u) == PendingOf(h, u)
    ensures BatchNumbered(batch, h, h.counter)
  {
    RisingMeaning([]);
  }

  lemma SealNumbered(batch: seq<(TopicId, Chunk)>, h: Held, rest: Held, t: TopicId)
    requires BatchNumbered(batch, h, rest.counter) && 0 < h.counter <= rest.counter
    requires t in rest.builders && BuilderOk(rest.builders[t]) && rest.builders[t].rows != []
    ensures BatchNumbered(batch + [(t, NewChunk(rest, t))], h, rest.counter + 1)
  {
    forall u
        ensures Continues(PendingOf(h, u), ChunksFor(batch + [(t, NewChunk(rest, t))], u), h.counter,
                          rest.counter + 1) {
      ForPush(batch, t, NewChunk(rest, t));
      assert Continues(PendingOf(h, u), ChunksFor(batch, u), h.counter, rest.counter);
      var p, all := PendingOf(h, u), ChunksFor(batch, u);
      if u == t {
        StagedPush(all[|p|..], NewChunk(rest, t), h.counter);
        assert (all + [NewChunk(rest, t)])[|p|..] == all[|p|..] + [NewChunk(rest, t)];
      } else {
        StagedLater(all[|p|..], h.counter, rest.counter, rest.counter + 1);
      }
    }
  }

  function WithRows(h: Held): set<TopicId> {
    set t | t in h.builders && h.builders[t].rows != []
  }

  lemma WithRowsLess(h: Held, t: TopicId)
    requires t in h.builders
    ensures WithRows(Emptied(h, t)) == WithRows(h) - {t}
  {
  }

  /** With no builder holding rows, the batch alone holds everything. */
  lemma AllHandedOver(batch: seq<(TopicId, Chunk)>, h: Held, first: nat, origin: Held, t: TopicId)
    requires Conserves(batch, h, first, origin) && WithRows(h) == {}
    ensures Staged(ChunksFor(batch, t), first, h.counter) && Flatten(ChunksFor(batch, t)) == Rows(origin, t)
  {
    assert Carries(batch, h, first, t, Rows(origin, t));
    assert t !in WithRows(h);
  }

  /** All pending chunks, topic by topic. */
  method StagedBatch(pending: map<TopicId, seq<Chunk>>) returns (batch: seq<(TopicId, Chunk)>)
    ensures forall u :: ChunksFor(batch, u) == if u in pending then pending[u] else []
  {
    batch := [];
    var left := pending.Keys;
    while left != {}
      invariant left <= pending.Keys
      invariant forall u :: ChunksFor(batch, u) == if u in pending && u !in left then pending[u] else []
      decreases left
    {
      var t :| t in left;
      batch := AddTopic(batch, t, pending[t]);
      left := left - {t};
    }
  }

  method AddTopic(batch: seq<(TopicId, Chunk)>, t: TopicId, chunks: seq<Chunk>) returns (longer: seq<(TopicId, Chunk)>)
    ensures ChunksFor(longer, t) == ChunksFor(batch, t) + chunks
    ensures forall u | u != t :: ChunksFor(longer, u) == ChunksFor(batch, u)
  {
    longer := batch;
    for j := 0 to |chunks|
      invariant ChunksFor(longer, t) == ChunksFor(batch, t) + chunks[..j]
      invariant forall u | u != t :: ChunksFor(longer, u) == ChunksFor(batch, u)
    {
      ForPush(longer, t, chunks[j]);
      longer := longer + [(t, chunks[j])];
      assert chunks[..j + 1] == chunks[..j] + [chunks[j]];
    }
    assert chunks[..|chunks|] == chunks;
  }

  /** Seals every builder that holds rows into the batch. */
  method SealAll(staged: seq<(TopicId, Chunk)>, h: Held, ghost first: nat)
      returns (batch: seq<(TopicId, Chunk)>, rest: Held)
    requires 0 < first <= h.counter && (forall t <- h.builders :: BuilderOk(h.builders[t]))
    requires Conserves(staged, h, first, h) && BatchFits(staged, h) && BatchNumbered(staged, h, h.counter)
    ensures Conserves(batch, rest, first, h) && WithRows(rest) == {}
    ensures BatchFits(batch, h) && BatchNumbered(batch, h, rest.counter)
    ensures h.counter <= rest.counter && rest.pending == h.pending
    ensures rest.builders.Keys <= h.builders.Keys && forall t <- rest.builders :: rest.builders[t] == h.builders[t]
  {
    batch, rest := staged, h;
    while WithRows(rest) != {}
      invariant Conserves(batch, rest, first, h) && BatchFits(batch, h) && BatchNumbered(batch, h, rest.counter)
      invariant h.counter <= rest.counter && rest.pending == h.pending
      invariant rest.builders.Keys <= h.builders.Keys && forall t <- rest.builders :: rest.builders[t] == h.builders[t]
      decreases WithRows(rest)
    {
      var t :| t in WithRows(rest);
      WithRowsLess(rest, t);
      SealConserves(batch, rest, first, t, h);
      SealFits(batch, h, rest, t);
      SealNumbered(batch, h, rest, t);
      batch, rest := batch + [(t, NewChunk(rest, t))], Emptied(rest, t);
    }
  }

  /** A batch keeps its meaning when the pending chunks it copied are forgotten. */
  lemma DropPending(batch: seq<(TopicId, Chunk)>, h: Held, first: nat, origin: Held)
    requires Conserves(batch, h, first, origin)
    ensures Conserves(batch, h.(pending := map[]), first, origin)
  {
    forall u ensures Carries(batch, h.(pending := map[]), first, u, Rows(origin, u)) {
      assert Carries(batch, h, first, u, Rows(origin, u));
    }
  }

  // ---------------------------------------------------------------- one topic

  /** The state with the builder of `t`, if it holds rows, among the pending chunks. */
  function AllShut(h: Held, t: TopicId): Held {
    if t in h.builders && h.builders[t].rows != [] then Shut(h, t) else h
  }

  function Taken(h: Held, t: TopicId): Held {
    h.(pending := h.pending - {t})
  }

  /** A row that is open when its topic is flushed stays open exactly if the builder has no rows; else it is lost. */
  lemma OpenRowAfterFlush(h: Held, t: TopicId)
    ensures RowOpen(Taken(AllShut(h, t), t), t) <==> RowOpen(h, t) && OpenRows(h, t) == []
    ensures OpenRows(h, t) != [] ==> t !in Taken(AllShut(h, t), t).builders
  {
  }

  /** Flushing one topic hands over its rows in order and touches no other topic. */
  lemma TakenMeaning(h: Held, t: TopicId, topics: set<TopicId>, first: nat)
    requires HeldOk(h, topics, first)
    ensures var s := AllShut(h, t);
            && HeldOk(Taken(s, t), topics, first)
            && Flatten(PendingOf(s, t)) == Rows(h, t) && Staged(PendingOf(s, t), first, s.counter)
            && Rows(Taken(s, t), t) == [] && OthersKept(h, Taken(s, t), t)
  {
    var s := AllShut(h, t);
    if s != h {
      ShutKeeps(h, t, topics, first);
      ShutMoves(h, t);
    }
    TakenKeeps(s, t, topics, first);
  }

  lemma TakenKeeps(h: Held, t: TopicId, topics: set<TopicId>, first: nat)
    requires HeldOk(h, topics, first) && OpenRows(h, t) == []
    ensures HeldOk(Taken(h, t), topics, first)
    ensures Staged(PendingOf(h, t), first, h.counter) && Rows(h, t) == Flatten(PendingOf(h, t))
    ensures Rows(Taken(h, t), t) == [] && OthersKept(h, Taken(h, t), t)
  {
  }
}
