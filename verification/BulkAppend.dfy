/** Bulk append against row-at-a-time append. */
module BulkAppend {
  import opened Samples
  import opened WriterStates

  /** One row to write: its time, and its values in the order they are set. */
  datatype Put = Put(ts: Timestamp, cells: seq<(nat, Cell)>)

  /** The values after a series of set calls: later calls win. */
  function Values(cells: seq<(nat, Cell)>): map<nat, Cell> {
    if cells == [] then map[]
    else Values(cells[..|cells| - 1])[cells[|cells| - 1].0 := cells[|cells| - 1].1]
  }

  function WithCells(h: Held, t: TopicId, cells: seq<(nat, Cell)>): (h': Held)
    requires RowOpen(h, t)
    ensures RowOpen(h', t)
  {
    if cells == [] then h
    else
      var last := cells[|cells| - 1];
      WithCell(WithCells(h, t, cells[..|cells| - 1]), t, last.0, last.1)
  }

  /** One round of beginRow, set for every value, finishRow. */
  function PutRow(h: Held, t: TopicId, columns: seq<Column>, maxRows: nat, p: Put): Held {
    Finished(WithCells(Began(Opened(h, t, columns, maxRows), t, p.ts), t, p.cells), t)
  }

  function PutRows(h: Held, t: TopicId, columns: seq<Column>, maxRows: nat, puts: seq<Put>): Held {
    if puts == [] then h
    else PutRow(PutRows(h, t, columns, maxRows, puts[..|puts| - 1]), t, columns, maxRows, puts[|puts| - 1])
  }

  function RowOf(columns: nat, p: Put): Row {
    Row(p.ts, FillRow(columns, Values(p.cells)))
  }

  function RowsOf(columns: nat, puts: seq<Put>): seq<Row> {
    if puts == [] then [] else RowsOf(columns, puts[..|puts| - 1]) + [RowOf(columns, puts[|puts| - 1])]
  }

  /** One batch: appended to the builder at once, which is sealed only then if it is full. */
  function PutBatch(h: Held, t: TopicId, columns: seq<Column>, maxRows: nat, batch: seq<Put>): Held
    requires batch != []
  {
    ShutIfFull(Filled(h, t, columns, maxRows, batch), t)
  }

  function Filled(h: Held, t: TopicId, columns: seq<Column>, maxRows: nat, batch: seq<Put>): Held
    requires batch != []
  {
    var o := Opened(h, t, columns, maxRows);
    var b := o.builders[t];
    o.(builders := o.builders[t := b.(rows := b.rows + RowsOf(|b.columns|, batch), lastTs := batch[|batch| - 1].ts)])
  }

  lemma {:induction false} WithCellsSets(h: Held, t: TopicId, cells: seq<(nat, Cell)>)
    requires RowOpen(h, t) && h.builders[t].current == Some(map[])
    ensures WithCells(h, t, cells) == h.(builders := h.builders[t := h.builders[t].(current := Some(Values(cells)))])
  {
    if cells != [] {
      WithCellsSets(h, t, cells[..|cells| - 1]);
    }
  }

  lemma OneRow(columns: nat, p: Put)
    ensures RowsOf(columns, [p]) == [RowOf(columns, p)]
  {
    assert RowsOf(columns, [p]) == RowsOf(columns, []) + [RowOf(columns, p)];
  }

  lemma PutRowFills(h: Held, t: TopicId, columns: seq<Column>, maxRows: nat, p: Put)
    requires !RowOpen(h, t)
    ensures PutRow(h, t, columns, maxRows, p) == PutBatch(h, t, columns, maxRows, [p])
  {
    var o := Opened(h, t, columns, maxRows);
    var b := o.builders[t];
    OneRow(|b.columns|, p);
    WithCellsSets(Began(o, t, p.ts), t, p.cells);
    var after := b.(rows := b.rows + [RowOf(|b.columns|, p)], lastTs := p.ts);
    assert Completed(WithCells(Began(o, t, p.ts), t, p.cells), t).builders == o.builders[t := after];
    assert Filled(h, t, columns, maxRows, [p]).builders == o.builders[t := after];
  }

  /** A batch that fits the builder is the same as its rows put one by one. */
  lemma {:induction false} BatchIsRows(h: Held, t: TopicId, columns: seq<Column>, maxRows: nat, batch: seq<Put>)
    requires batch != [] && !RowOpen(h, t) && Bounded(h, t, maxRows)
    requires |OpenRows(h, t)| + |batch| <= maxRows
    ensures PutBatch(h, t, columns, maxRows, batch) == PutRows(h, t, columns, maxRows, batch)
  {
    var front, last := batch[..|batch| - 1], batch[|batch| - 1];
    if front == [] {
      assert batch == [last];
      assert PutRows(h, t, columns, maxRows, front) == h;
      PutRowFills(h, t, columns, maxRows, last);
    } else {
      BatchIsRows(h, t, columns, maxRows, front);
      var before := Filled(h, t, columns, maxRows, front);
      RowsOfSize(|before.builders[t].columns|, front);
      assert PutRows(h, t, columns, maxRows, front) == before;
      PutRowFills(before, t, columns, maxRows, last);
      FilledTwice(h, t, columns, maxRows, front, last);
    }
  }

  lemma {:induction false} RowsOfSize(columns: nat, puts: seq<Put>)
    ensures |RowsOf(columns, puts)| == |puts|
  {
    if puts != [] { RowsOfSize(columns, puts[..|puts| - 1]); }
  }

  lemma FilledTwice(h: Held, t: TopicId, columns: seq<Column>, maxRows: nat, front: seq<Put>, last: Put)
    requires front != []
    ensures Filled(Filled(h, t, columns, maxRows, front), t, columns, maxRows, [last])
            == Filled(h, t, columns, maxRows, front + [last])
  {
    var b := Opened(h, t, columns, maxRows).builders[t];
    var n := |b.columns|;
    assert (front + [last])[..|front|] == front;
    OneRow(n, last);
    Assoc(b.rows, RowsOf(n, front), [RowOf(n, last)]);
    assert Filled(Filled(h, t, columns, maxRows, front), t, columns, maxRows, [last]).builders
           == Filled(h, t, columns, maxRows, front + [last]).builders;
  }

  lemma {:induction false} PutRowsConcat(h: Held, t: TopicId, columns: seq<Column>, maxRows: nat, a: seq<Put>,
                                         b: seq<Put>)
    ensures PutRows(h, t, columns, maxRows, a + b)
            == PutRows(PutRows(h, t, columns, maxRows, a), t, columns, maxRows, b)
  {
    if b == [] {
      assert a + b == a;
    } else {
      PutRowsConcat(h, t, columns, maxRows, a, b[..|b| - 1]);
      ConcatFront(a, b);
    }
  }

  // ---------------------------------------------------------------- what the rounds achieve

  /** Times that start no earlier than the builder ends and never go back. */
  ghost predicate PutsInOrder(puts: seq<Put>) {
    forall i, j | 0 <= i < j < |puts| :: puts[i].ts <= puts[j].ts
  }

  ghost predicate LayoutIs(h: Held, t: TopicId, columns: seq<Column>) {
    t in h.builders ==> h.builders[t].columns == columns
  }

  /** The row being written, before it is completed. */
  function Written(h: Held, t: TopicId, columns: seq<Column>, maxRows: nat, p: Put): (h': Held)
    ensures RowOpen(h', t)
  {
    WithCells(Began(Opened(h, t, columns, maxRows), t, p.ts), t, p.cells)
  }

  lemma WrittenMeaning(h: Held, t: TopicId, columns: seq<Column>, maxRows: nat, p: Put)
    requires LayoutIs(h, t, columns)
    ensures var w := Written(h, t, columns, maxRows, p);
            && Rows(w, t) == Rows(h, t) && OthersKept(h, w, t)
            && w.builders[t].columns == columns && OpenRow(w.builders[t]) == RowOf(|columns|, p)
  {
    WithCellsSets(Began(Opened(h, t, columns, maxRows), t, p.ts), t, p.cells);
  }

  lemma KeptTwice(a: Held, b: Held, c: Held, t: TopicId)
    requires OthersKept(a, b, t) && OthersKept(b, c, t)
    ensures OthersKept(a, c, t)
  {
  }

  lemma FinishedLast(w: Held, t: TopicId)
    requires RowOpen(w, t)
    ensures LayoutIs(Finished(w, t), t, w.builders[t].columns)
    ensures var rows := OpenRows(Finished(w, t), t); rows != [] ==> rows[|rows| - 1] == OpenRow(w.builders[t])
  {
  }

  /** Topic `t` gained exactly `rows`; nothing else changed. */
  ghost predicate Appended(h: Held, h': Held, t: TopicId, columns: seq<Column>, rows: seq<Row>) {
    && Rows(h', t) == Rows(h, t) + rows
    && OthersKept(h, h', t) && !RowOpen(h', t) && LayoutIs(h', t, columns)
    && (rows != [] && OpenRows(h', t) != [] ==> OpenRows(h', t)[|OpenRows(h', t)| - 1].ts == rows[|rows| - 1].ts)
  }

  lemma AppendedTwice(a: Held, b: Held, c: Held, t: TopicId, columns: seq<Column>, first: seq<Row>, second: seq<Row>)
    requires Appended(a, b, t, columns, first) && Appended(b, c, t, columns, second) && second != []
    ensures Appended(a, c, t, columns, first + second)
  {
    Assoc(Rows(a, t), first, second);
    KeptTwice(a, b, c, t);
  }

  lemma PutRowMeaning(h: Held, t: TopicId, columns: seq<Column>, maxRows: nat, p: Put)
    requires LayoutIs(h, t, columns)
    ensures Appended(h, PutRow(h, t, columns, maxRows, p), t, columns, [RowOf(|columns|, p)])
  {
    var w := Written(h, t, columns, maxRows, p);
    WrittenMeaning(h, t, columns, maxRows, p);
    FinishedAppends(w, t);
    FinishedLast(w, t);
    KeptTwice(h, w, Finished(w, t), t);
  }

  lemma PutRowKeeps(h: Held, t: TopicId, columns: seq<Column>, maxRows: nat, p: Put, topics: set<TopicId>, first: nat)
    requires HeldOk(h, topics, first) && t in topics && NotBefore(OpenRows(h, t), p.ts)
    ensures HeldOk(PutRow(h, t, columns, maxRows, p), topics, first)
  {
    var o := Opened(h, t, columns, maxRows);
    OpenedKeeps(h, t, columns, maxRows, topics, first);
    BeganKeeps(o, t, p.ts, topics, first);
    WithCellsKeep(Began(o, t, p.ts), t, p.cells, topics, first);
    FinishedKeeps(WithCells(Began(o, t, p.ts), t, p.cells), t, topics, first);
  }

  lemma {:induction false} WithCellsKeep(h: Held, t: TopicId, cells: seq<(nat, Cell)>, topics: set<TopicId>, first: nat)
    requires HeldOk(h, topics, first) && RowOpen(h, t)
    ensures HeldOk(WithCells(h, t, cells), topics, first)
  {
    if cells != [] {
      var last := cells[|cells| - 1];
      WithCellsKeep(h, t, cells[..|cells| - 1], topics, first);
      WithCellKeeps(WithCells(h, t, cells[..|cells| - 1]), t, last.0, last.1, topics, first);
    }
  }

  /** Each row is appended once and in order, and no other topic notices. */
  lemma {:induction false} PutRowsMeaning(h: Held, t: TopicId, columns: seq<Column>, maxRows: nat, puts: seq<Put>)
    requires !RowOpen(h, t) && LayoutIs(h, t, columns)
    ensures Appended(h, PutRows(h, t, columns, maxRows, puts), t, columns, RowsOf(|columns|, puts))
  {
    if puts != [] {
      var front, last := puts[..|puts| - 1], puts[|puts| - 1];
      PutRowsMeaning(h, t, columns, maxRows, front);
      var before := PutRows(h, t, columns, maxRows, front);
      PutRowMeaning(before, t, columns, maxRows, last);
      AppendedTwice(h, before, PutRow(before, t, columns, maxRows, last), t, columns,
                    RowsOf(|columns|, front), [RowOf(|columns|, last)]);
    }
  }

  lemma {:induction false} RowsOfLast(columns: nat, puts: seq<Put>)
    requires puts != []
    ensures RowsOf(columns, puts) != [] && RowsOf(columns, puts)[|RowsOf(columns, puts)| - 1].ts == puts[|puts| - 1].ts
  {
  }

  /** Rows put in time order are accepted. */
  lemma {:induction false} PutRowsKeep(h: Held, t: TopicId, columns: seq<Column>, maxRows: nat, puts: seq<Put>,
                                       topics: set<TopicId>, first: nat)
    requires HeldOk(h, topics, first) && t in topics && !RowOpen(h, t) && LayoutIs(h, t, columns)
    requires PutsInOrder(puts) && (puts != [] ==> NotBefore(OpenRows(h, t), puts[0].ts))
    ensures HeldOk(PutRows(h, t, columns, maxRows, puts), topics, first)
  {
    if puts != [] {
      var front, last := puts[..|puts| - 1], puts[|puts| - 1];
      PutRowsKeep(h, t, columns, maxRows, front, topics, first);
      PutRowsMeaning(h, t, columns, maxRows, front);
      if front != [] {
        RowsOfLast(|columns|, front);
      }
      PutRowKeeps(PutRows(h, t, columns, maxRows, front), t, columns, maxRows, last, topics, first);
    }
  }

  lemma PutRowBounded(h: Held, t: TopicId, columns: seq<Column>, maxRows: nat, p: Put)
    requires 1 <= maxRows && Bounded(h, t, maxRows) && !RowOpen(h, t)
    ensures Bounded(PutRow(h, t, columns, maxRows, p), t, maxRows)
  {
    var o := Opened(h, t, columns, maxRows);
    WithCellsSets(Began(o, t, p.ts), t, p.cells);
    FinishedBounded(WithCells(Began(o, t, p.ts), t, p.cells), t, maxRows);
  }

  /** However many rows are put, chunks are never empty nor above the limit. */
  lemma {:induction false} PutRowsBounded(h: Held, t: TopicId, columns: seq<Column>, maxRows: nat, puts: seq<Put>)
    requires 1 <= maxRows && Bounded(h, t, maxRows) && !RowOpen(h, t) && LayoutIs(h, t, columns)
    ensures Bounded(PutRows(h, t, columns, maxRows, puts), t, maxRows)
    ensures !RowOpen(PutRows(h, t, columns, maxRows, puts), t)
    ensures LayoutIs(PutRows(h, t, columns, maxRows, puts), t, columns)
  {
    if puts != [] {
      var front, last := puts[..|puts| - 1], puts[|puts| - 1];
      PutRowsBounded(h, t, columns, maxRows, front);
      PutRowBounded(PutRows(h, t, columns, maxRows, front), t, columns, maxRows, last);
      PutRowMeaning(PutRows(h, t, columns, maxRows, front), t, columns, maxRows, last);
    }
  }

  function Prefix(puts: seq<Put>, n: nat): seq<Put> {
    if n <= |puts| then puts[..n] else puts
  }

  /** The first `offset` rows have been put; kept folded (see Folding), unfolded by naming the prefix. */
  ghost predicate PutSoFar(h: Held, t: TopicId, columns: seq<Column>, maxRows: nat, puts: seq<Put>, offset: nat,
                           h': Held) {
    && offset <= |puts|
    && forall n: nat {:trigger Prefix(puts, n)} | n == offset :: IsPut(h, t, columns, maxRows, Prefix(puts, n), h')
  }

  ghost predicate IsPut(h: Held, t: TopicId, columns: seq<Column>, maxRows: nat, puts: seq<Put>, h': Held) {
    h' == PutRows(h, t, columns, maxRows, puts)
  }

  /** What a batch needs of the state it is appended to. */
  ghost predicate BatchReady(h: Held, t: TopicId, columns: seq<Column>, maxRows: nat) {
    !RowOpen(h, t) && Bounded(h, t, maxRows) && LayoutIs(h, t, columns)
  }

  lemma PrefixSplit(puts: seq<Put>, offset: nat, size: nat)
    requires offset + size <= |puts|
    ensures Prefix(puts, offset + size) == Prefix(puts, offset) + puts[offset..offset + size]
  {
  }

  lemma PutRowsJoin(h: Held, t: TopicId, columns: seq<Column>, maxRows: nat, a: seq<Put>, b: seq<Put>, h': Held,
                    h'': Held)
    requires IsPut(h, t, columns, maxRows, a, h') && IsPut(h', t, columns, maxRows, b, h'')
    ensures IsPut(h, t, columns, maxRows, a + b, h'')
  {
    PutRowsConcat(h, t, columns, maxRows, a, b);
  }

  lemma PutNext(h: Held, t: TopicId, columns: seq<Column>, maxRows: nat, puts: seq<Put>, offset: nat, size: nat,
                h': Held, h'': Held)
    requires PutSoFar(h, t, columns, maxRows, puts, offset, h') && offset + size <= |puts|
    requires IsPut(h', t, columns, maxRows, puts[offset..offset + size], h'')
    ensures PutSoFar(h, t, columns, maxRows, puts, offset + size, h'')
  {
    assert IsPut(h, t, columns, maxRows, Prefix(puts, offset + size), h'') by {
      assert IsPut(h, t, columns, maxRows, Prefix(puts, offset), h');
      PrefixSplit(puts, offset, size);
      PutRowsJoin(h, t, columns, maxRows, Prefix(puts, offset), puts[offset..offset + size], h', h'');
    }
  }

  /** The batching loop: each turn fills the open builder at most to its limit, and seals it when full. */
  method AppendBatches(h: Held, t: TopicId, columns: seq<Column>, maxRows: nat, puts: seq<Put>) returns (h': Held)
    requires 1 <= maxRows && BatchReady(h, t, columns, maxRows)
    ensures h' == PutRows(h, t, columns, maxRows, puts)
  {
    h' := h;
    var offset := 0;
    assert Prefix(puts, 0) == [];
    while offset < |puts|
      invariant PutSoFar(h, t, columns, maxRows, puts, offset, h') && BatchReady(h', t, columns, maxRows)
    {
      var free := if t in h'.builders then maxRows - |h'.builders[t].rows| else maxRows;
      var size := if |puts| - offset < free then |puts| - offset else free;
      h' := AppendBatch(h', t, columns, maxRows, puts, offset, size, h);
      offset := offset + size;
    }
    assert Prefix(puts, offset) == puts;
  }

  method AppendBatch(h: Held, t: TopicId, columns: seq<Column>, maxRows: nat, puts: seq<Put>, offset: nat, size: nat,
                     ghost origin: Held) returns (h': Held)
    requires 1 <= maxRows && BatchReady(h, t, columns, maxRows)
    requires 0 < size && offset + size <= |puts| && |OpenRows(h, t)| + size <= maxRows
    requires PutSoFar(origin, t, columns, maxRows, puts, offset, h)
    ensures PutSoFar(origin, t, columns, maxRows, puts, offset + size, h') && BatchReady(h', t, columns, maxRows)
  {
    ghost var batch := puts[offset..offset + size];
    BatchIsRows(h, t, columns, maxRows, batch);
    PutRowsBounded(h, t, columns, maxRows, batch);
    h' := FillBatch(h, t, columns, maxRows, puts[offset..offset + size]);
    PutNext(origin, t, columns, maxRows, puts, offset, size, h, h');
  }

  method FillBatch(h: Held, t: TopicId, columns: seq<Column>, maxRows: nat, batch: seq<Put>) returns (h': Held)
    requires batch != []
    ensures h' == PutBatch(h, t, columns, maxRows, batch)
  {
    h' := Opened(h, t, columns, maxRows);
    var b := h'.builders[t];
    b := b.(rows := b.rows + RowsOf(|b.columns|, batch), lastTs := batch[|batch| - 1].ts);
    h' := h'.(builders := h'.builders[t := b]);
    if |b.rows| >= b.maxRows {
      h' := Shut(h', t);
    }
  }
}
