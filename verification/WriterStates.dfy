/** What a writer holds, as a value: open builders, pending chunks and the chunk counter. */
module WriterStates {
  import opened Samples
  import opened DataEngines

  /** An open chunk builder. `current` is the row between beginRow and finishRow: its values by column. */
  datatype Builder = Builder(columns: seq<Column>, maxRows: nat, rows: seq<Row>, lastTs: Timestamp,
                             current: Option<map<nat, Cell>>)

  datatype Held = Held(builders: map<TopicId, Builder>, pending: map<TopicId, seq<Chunk>>, counter: nat)

  ghost predicate BuilderOk(b: Builder) {
    && Sorted(b.rows)
    && (b.rows != [] ==> b.rows[|b.rows| - 1].ts <= b.lastTs)
    && (b.rows != [] && b.current.None? ==> b.rows[|b.rows| - 1].ts == b.lastTs)
  }

  /** Chunks sealed by one writer: never empty, numbered in order from `first` on and below `counter`. */
  ghost predicate Staged(chunks: seq<Chunk>, first: nat, counter: nat) {
    && Rising(chunks)
    && (forall i {:trigger MadeBetween(chunks[i], first, counter)} | 0 <= i < |chunks| ::
          MadeBetween(chunks[i], first, counter))
  }

  ghost predicate MadeBetween(c: Chunk, first: nat, counter: nat) {
    Sealed(c) && first <= c.id < counter
  }

  ghost predicate HeldOk(h: Held, topics: set<TopicId>, first: nat) {
    && 0 < first <= h.counter
    && h.builders.Keys <= topics && h.pending.Keys <= topics
    && (forall t <- h.builders :: BuilderOk(h.builders[t]))
    && (forall t <- h.pending :: Staged(h.pending[t], first, h.counter))
  }

  function PendingOf(h: Held, t: TopicId): seq<Chunk> {
    if t in h.pending then h.pending[t] else []
  }

  function OpenRows(h: Held, t: TopicId): seq<Row> {
    if t in h.builders then h.builders[t].rows else []
  }

  /** The rows of topic `t` accepted so far and not handed over: pending chunks, then the open builder. */
  function Rows(h: Held, t: TopicId): seq<Row> {
    Flatten(PendingOf(h, t)) + OpenRows(h, t)
  }

  predicate RowOpen(h: Held, t: TopicId) {
    t in h.builders && h.builders[t].current.Some?
  }

  /** Every topic but `t` is as it was. */
  ghost predicate OthersKept(h: Held, h': Held, t: TopicId) {
    forall u | u != t :: PendingOf(h', u) == PendingOf(h, u) && OpenRows(h', u) == OpenRows(h, u)
                         && (RowOpen(h', u) <==> RowOpen(h, u)) && OpenLayout(h', u) == OpenLayout(h, u)
  }

  function OpenLayout(h: Held, t: TopicId): Option<seq<Column>> {
    if t in h.builders then Some(h.builders[t].columns) else None
  }

  // ---------------------------------------------------------------- the steps of row-at-a-time appending

  function Opened(h: Held, t: TopicId, columns: seq<Column>, maxRows: nat): Held {
    if t in h.builders then h
    else h.(builders := h.builders[t := Builder(columns, maxRows, [], MIN_TIMESTAMP, None)])
  }

  function Began(h: Held, t: TopicId, ts: Timestamp): Held
    requires t in h.builders
  {
    h.(builders := h.builders[t := h.builders[t].(lastTs := ts, current := Some(map[]))])
  }

  /** The state after a row was begun, or after only the builder was opened. */
  function Begun(h: Held, t: TopicId, ts: Timestamp, columns: seq<Column>, max: nat, ok: bool): Held {
    var o := Opened(h, t, columns, max);
    if ok then Began(o, t, ts) else o
  }

  function WithCell(h: Held, t: TopicId, column: nat, value: Cell): Held
    requires RowOpen(h, t)
  {
    var b := h.builders[t];
    h.(builders := h.builders[t := b.(current := Some(b.current.value[column := value]))])
  }

  /** Columns not set in a row are null. */
  function FillRow(columns: nat, values: map<nat, Cell>): seq<Cell> {
    seq(columns, i requires 0 <= i < columns => if i in values then values[i] else Null)
  }

  /** The row that finishRow appends. */
  function OpenRow(b: Builder): Row
    requires b.current.Some?
  {
    Row(b.lastTs, FillRow(|b.columns|, b.current.value))
  }

  function Completed(h: Held, t: TopicId): Held
    requires RowOpen(h, t)
  {
    var b := h.builders[t];
    h.(builders := h.builders[t := b.(rows := b.rows + [OpenRow(b)], current := None)])
  }

  function NewChunk(h: Held, t: TopicId): Chunk
    requires t in h.builders
  {
    Chunk(h.counter, h.builders[t].columns, h.builders[t].rows)
  }

  /** The builder of `t` becomes a pending chunk. */
  function Shut(h: Held, t: TopicId): Held
    requires t in h.builders
  {
    Held(h.builders - {t}, h.pending[t := PendingOf(h, t) + [NewChunk(h, t)]], h.counter + 1)
  }

  function ShutIfFull(h: Held, t: TopicId): Held {
    if t in h.builders && |h.builders[t].rows| >= h.builders[t].maxRows then Shut(h, t) else h
  }

  function Finished(h: Held, t: TopicId): Held
    requires RowOpen(h, t)
  {
    ShutIfFull(Completed(h, t), t)
  }

  /** Sealing before the column layout changes: rows are kept, an empty builder is dropped. */
  function ShutForLayout(h: Held, t: TopicId): Held {
    if t !in h.builders then h
    else if h.builders[t].rows != [] then Shut(h, t)
    else h.(builders := h.builders - {t})
  }

  // ---------------------------------------------------------------- what each step keeps

  lemma OpenedKeeps(h: Held, t: TopicId, columns: seq<Column>, maxRows: nat, topics: set<TopicId>, first: nat)
    requires HeldOk(h, topics, first) && t in topics
    ensures HeldOk(Opened(h, t, columns, maxRows), topics, first)
  {
  }

  lemma BeganKeeps(h: Held, t: TopicId, ts: Timestamp, topics: set<TopicId>, first: nat)
    requires HeldOk(h, topics, first) && t in h.builders && NotBefore(h.builders[t].rows, ts)
    ensures HeldOk(Began(h, t, ts), topics, first)
  {
    assert BuilderOk(h.builders[t]);
  }

  lemma WithCellKeeps(h: Held, t: TopicId, column: nat, value: Cell, topics: set<TopicId>, first: nat)
    requires HeldOk(h, topics, first) && RowOpen(h, t)
    ensures HeldOk(WithCell(h, t, column, value), topics, first)
  {
    assert BuilderOk(h.builders[t]);
  }

  lemma CompletedKeeps(h: Held, t: TopicId, topics: set<TopicId>, first: nat)
    requires HeldOk(h, topics, first) && RowOpen(h, t)
    ensures HeldOk(Completed(h, t), topics, first)
  {
    var b := h.builders[t];
    assert BuilderOk(b);
    SortedConcat(b.rows, [OpenRow(b)]);
  }

  lemma StagedPush(chunks: seq<Chunk>, c: Chunk, first: nat)
    requires Staged(chunks, first, c.id) && Sealed(c) && first <= c.id && 0 < first
    ensures Staged(chunks + [c], first, c.id + 1)
  {
    assert chunks != [] ==> MadeBetween(chunks[|chunks| - 1], first, c.id);
    RisingMeaning([c]);
    RisingConcat(chunks, [c]);
    forall i | 0 <= i < |chunks + [c]| ensures MadeBetween((chunks + [c])[i], first, c.id + 1) {
      if i < |chunks| { assert MadeBetween(chunks[i], first, c.id); }
    }
  }

  lemma StagedLater(chunks: seq<Chunk>, first: nat, counter: nat, counter': nat)
    requires Staged(chunks, first, counter) && counter <= counter'
    ensures Staged(chunks, first, counter')
  {
    forall i | 0 <= i < |chunks| ensures MadeBetween(chunks[i], first, counter') {
      assert MadeBetween(chunks[i], first, counter);
    }
  }

  lemma ShutKeeps(h: Held, t: TopicId, topics: set<TopicId>, first: nat)
    requires HeldOk(h, topics, first) && t in h.builders && h.builders[t].rows != []
    ensures HeldOk(Shut(h, t), topics, first)
  {
    assert BuilderOk(h.builders[t]);
    StagedPush(PendingOf(h, t), NewChunk(h, t), first);
    forall u | u in h.pending && u != t ensures Staged(h.pending[u], first, h.counter + 1) {
      StagedLater(h.pending[u], first, h.counter, h.counter + 1);
    }
  }

  lemma FinishedKeeps(h: Held, t: TopicId, topics: set<TopicId>, first: nat)
    requires HeldOk(h, topics, first) && RowOpen(h, t)
    ensures HeldOk(Finished(h, t), topics, first)
  {
    CompletedKeeps(h, t, topics, first);
    if ShutIfFull(Completed(h, t), t) != Completed(h, t) {
      ShutKeeps(Completed(h, t), t, topics, first);
    }
  }

  /** Sealing moves a builder's rows to the pending chunks and changes no topic's rows. */
  lemma ShutMoves(h: Held, t: TopicId)
    requires t in h.builders
    ensures Rows(Shut(h, t), t) == Rows(h, t) && OthersKept(h, Shut(h, t), t)
  {
    FlattenPush(PendingOf(h, t), NewChunk(h, t));
  }

  /** Completing a row appends exactly that row to its topic, whether or not the builder becomes full. */
  lemma FinishedAppends(h: Held, t: TopicId)
    requires RowOpen(h, t)
    ensures Rows(Finished(h, t), t) == Rows(h, t) + [OpenRow(h.builders[t])]
    ensures OthersKept(h, Finished(h, t), t) && !RowOpen(Finished(h, t), t)
  {
    var done := Completed(h, t);
    Assoc(Flatten(PendingOf(h, t)), OpenRows(h, t), [OpenRow(h.builders[t])]);
    if ShutIfFull(done, t) != done {
      ShutMoves(done, t);
    }
  }

  lemma ShutForLayoutKeeps(h: Held, t: TopicId, topics: set<TopicId>, first: nat)
    requires HeldOk(h, topics, first)
    ensures HeldOk(ShutForLayout(h, t), topics, first)
    ensures Rows(ShutForLayout(h, t), t) == Rows(h, t) && OthersKept(h, ShutForLayout(h, t), t)
    ensures t !in ShutForLayout(h, t).builders
  {
    if t in h.builders && h.builders[t].rows != [] {
      ShutKeeps(h, t, topics, first);
      ShutMoves(h, t);
    }
  }

  // ---------------------------------------------------------------- chunk sizes

  ghost predicate Fits(c: Chunk, maxRows: nat) {
    1 <= |c.rows| <= maxRows
  }

  ghost predicate AllFit(chunks: seq<Chunk>, maxRows: nat) {
    forall i {:trigger Fits(chunks[i], maxRows)} | 0 <= i < |chunks| :: Fits(chunks[i], maxRows)
  }

  /** No chunk of topic `t` is empty or above the limit; an open builder is not full. */
  ghost predicate Bounded(h: Held, t: TopicId, maxRows: nat) {
    && (t in h.builders ==> h.builders[t].maxRows == maxRows && |h.builders[t].rows| < maxRows)
    && AllFit(PendingOf(h, t), maxRows)
  }

  lemma ShutBounded(h: Held, t: TopicId, maxRows: nat)
    requires t in h.builders && 1 <= |h.builders[t].rows| <= maxRows && AllFit(PendingOf(h, t), maxRows)
    ensures Bounded(Shut(h, t), t, maxRows)
  {
    var chunks, c := PendingOf(h, t), NewChunk(h, t);
    forall i | 0 <= i < |chunks + [c]| ensures Fits((chunks + [c])[i], maxRows) {
      if i < |chunks| { assert Fits(chunks[i], maxRows); }
    }
  }

  lemma FinishedBounded(h: Held, t: TopicId, maxRows: nat)
    requires RowOpen(h, t) && Bounded(h, t, maxRows)
    ensures Bounded(Finished(h, t), t, maxRows)
  {
    var done := Completed(h, t);
    if ShutIfFull(done, t) != done {
      ShutBounded(done, t, maxRows);
    }
  }

  lemma ShutForLayoutBounded(h: Held, t: TopicId, maxRows: nat)
    requires Bounded(h, t, maxRows)
    ensures Bounded(ShutForLayout(h, t), t, maxRows)
  {
    if t in h.builders && h.builders[t].rows != [] {
      ShutBounded(h, t, maxRows);
    }
  }
}
