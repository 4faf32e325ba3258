/** Bulk appending at the level of columns: batches are slices of blocks, and blocks are the rows of the writer. */
module BulkColumns {
  import opened Folding
  import opened Samples
  import opened WireFormat
  import opened BitVectors
  import opened ColumnBuffers
  import opened ColumnStats
  import opened ColumnBuilders
  import opened ColumnChunks
  import opened ChunkBuilders
  import opened SealedColumns
  import Appends = BulkAppend
  import Writer = WriterStates
  import Bulk = DataWriters

  /**
   * A batch takes a part of the slots and the matching part of the null flags: the same rows as that part of the block.
   */
  lemma BatchOfBlock(raws: seq<Bytes>, validity: Option<BitSpan>, offset: nat, size: nat)
    requires validity.Some? ==> validity.value.Ok() && validity.value.length == |raws|
    requires offset + size <= |raws|
    ensures BlockRows(raws[offset..offset + size], if validity.None? then None
              else Some(validity.value.Subspan(offset, size)))
            == BlockRows(raws, validity)[offset..offset + size]
  {
  }

  /** A batch of strings takes one more offset than it has rows, and shares the bytes. */
  lemma BatchOfTexts(offs: seq<nat>, data: Bytes, offset: nat, size: nat)
    requires TextsOk(offs, data) && offset + size < |offs|
    ensures TextsOk(offs[offset..offset + size + 1], data)
    ensures Texts(offs[offset..offset + size + 1], data) == Texts(offs, data)[offset..offset + size]
  {
    var part := offs[offset..offset + size + 1];
    assert forall i | 0 <= i < |part| :: part[i] == offs[offset + i];
  }

  // ---------------------------------------------------------------- the rows of a bulk append

  /** What the set calls of one row leave in a column that is set once. */
  lemma {:induction false} SetOnce(cells: seq<(nat, Cell)>, k: nat)
    requires k < |cells| && forall i, j | 0 <= i < j < |cells| :: cells[i].0 != cells[j].0
    ensures cells[k].0 in Appends.Values(cells) && Appends.Values(cells)[cells[k].0] == cells[k].1
  {
    var n := |cells| - 1;
    if k < n {
      assert forall i | 0 <= i < n :: cells[..n][i] == cells[i];
      SetOnce(cells[..n], k);
    }
  }

  /** Row `i` of a bulk append has, in every column, the value given for that column. */
  lemma BulkRow(times: seq<Timestamp>, data: seq<Bulk.ColumnData>, columns: nat, i: nat, k: nat)
    requires Bulk.SameLength(times, data) && Bulk.EachOnce(data, columns) && i < |times| && k < |data|
    ensures var row := Appends.RowOf(columns, Bulk.BulkPuts(times, data)[i]);
            row.ts == times[i] && |row.cells| == columns && row.cells[data[k].column] == data[k].values[i]
  {
    var cells := Bulk.CellsAt(data, i);
    forall a, b | 0 <= a < b < |cells| ensures cells[a].0 != cells[b].0 {
      assert data[a].column != data[b].column;
    }
    SetOnce(cells, k);
  }

  lemma {:induction false} RowsOfAt(columns: nat, puts: seq<Appends.Put>, i: nat)
    requires i < |puts|
    ensures |Appends.RowsOf(columns, puts)| == |puts|
              && Appends.RowsOf(columns, puts)[i] == Appends.RowOf(columns, puts[i])
  {
    Appends.RowsOfSize(columns, puts);
    var n := |puts| - 1;
    Appends.RowsOfSize(columns, puts[..n]);
    if i < n {
      RowsOfAt(columns, puts[..n], i);
    }
  }

  /** The blocks hold, column by column, what the bulk data give for it. */
  ghost predicate BlocksGive(tracks: seq<Track>, blocks: seq<seq<Item>>, data: seq<Bulk.ColumnData>, n: nat) {
    && |blocks| == |tracks| && (forall c | 0 <= c < |blocks| :: |blocks[c]| == n)
    && forall k, i | 0 <= k < |data| && 0 <= i < n && data[k].column < |blocks| && i < |data[k].values| ::
         CellOf(tracks[data[k].column].kind, blocks[data[k].column][i]) == data[k].values[i]
  }

  /** A bulk append is one block on every column: the columns then hold the builder's rows and the new ones. */
  lemma BulkTracked(rows: seq<Row>, times: seq<Timestamp>, tracks: seq<Track>, more: seq<Timestamp>,
                    data: seq<Bulk.ColumnData>, blocks: seq<seq<Item>>)
    requires Tracks(rows, times, tracks) && Bulk.SameLength(more, data) && Bulk.EachOnce(data, |tracks|)
    requires BlocksGive(tracks, blocks, data, |more|)
    ensures Tracks(rows + Appends.RowsOf(|tracks|, Bulk.BulkPuts(more, data)), times + more,
              Called(tracks, AsBlocks(blocks)))
  {
    var puts := Bulk.BulkPuts(more, data);
    var added := Appends.RowsOf(|tracks|, puts);
    Appends.RowsOfSize(|tracks|, puts);
    forall i | 0 <= i < |added| ensures added[i] == Row(more[i], BlockCells(Kinds(tracks), blocks, i)) {
      RowsOfAt(|tracks|, puts, i);
      BulkRowCells(tracks, more, data, blocks, i);
    }
    BlockTracked(rows, times, tracks, added, more, blocks);
  }

  lemma BulkRowCells(tracks: seq<Track>, times: seq<Timestamp>, data: seq<Bulk.ColumnData>, blocks: seq<seq<Item>>,
                     i: nat)
    requires Bulk.SameLength(times, data) && Bulk.EachOnce(data, |tracks|) && i < |times|
    requires BlocksGive(tracks, blocks, data, |times|)
    ensures Appends.RowOf(|tracks|, Bulk.BulkPuts(times, data)[i])
              == Row(times[i], BlockCells(Kinds(tracks), blocks, i))
  {
    var row, cells := Appends.RowOf(|tracks|, Bulk.BulkPuts(times, data)[i]), BlockCells(Kinds(tracks), blocks, i);
    forall c: nat | c < |tracks| ensures row.cells[c] == cells[c] {
      assert Bulk.GivenBy(data, c);
      var k :| 0 <= k < |data| && data[k].column == c;
      BulkRow(times, data, |tracks|, i, k);
    }
  }

  // ---------------------------------------------------------------- what one batch gives a chunk builder

  function SpanPart(validity: Option<BitSpan>, offset: nat, size: nat): Option<BitSpan>
    requires validity.Some? ==> validity.value.Ok() && offset + size <= validity.value.length
  {
    if validity.None? then None else Some(validity.value.Subspan(offset, size))
  }

  /** The part of a column that a batch hands to the builder: a slice of the slots, or of the offsets over all bytes. */
  function SlicePart(kind: Kind, p: ColumnPart, offset: nat, size: nat): ColumnPart
    requires PartOk(kind, p) && offset + size <= |PartRows(kind, p)|
  {
    match p
    case Slots(raws, validity) => Slots(raws[offset..offset + size], SpanPart(validity, offset, size))
    case Strings(offs, data, validity) =>
      Strings(offs[offset..offset + size + 1], data, SpanPart(validity, offset, size))
  }

  /** It gives that part of the column's rows. */
  lemma SliceGives(kind: Kind, p: ColumnPart, offset: nat, size: nat)
    requires PartOk(kind, p) && offset + size <= |PartRows(kind, p)|
    ensures PartOk(kind, SlicePart(kind, p, offset, size))
    ensures PartRows(kind, SlicePart(kind, p, offset, size)) == PartRows(kind, p)[offset..offset + size]
  {
    match p
    case Slots(raws, validity) => BatchOfBlock(raws, validity, offset, size);
    case Strings(offs, data, validity) =>
      BatchOfTexts(offs, data, offset, size);
      BatchOfBlock(Texts(offs, data), validity, offset, size);
  }

  function SliceAll(kinds: seq<Kind>, parts: seq<ColumnPart>, offset: nat, size: nat): (slices: seq<ColumnPart>)
    requires |parts| == |kinds|
    requires forall c | 0 <= c < |kinds| :: PartOk(kinds[c], parts[c])
               && offset + size <= |PartRows(kinds[c], parts[c])|
    ensures |slices| == |kinds|
    ensures forall c | 0 <= c < |kinds| :: slices[c] == SlicePart(kinds[c], parts[c], offset, size)
  {
    seq(|kinds|, c requires 0 <= c < |kinds| => SlicePart(kinds[c], parts[c], offset, size))
  }

  /** Each batch of a bulk call is what a chunk builder takes as one batch, and adds exactly the rows put one by one. */
  lemma BatchForBuilder(kinds: seq<Kind>, tracks: seq<Track>, more: seq<Timestamp>, data: seq<Bulk.ColumnData>,
                        parts: seq<ColumnPart>, blocks: seq<seq<Item>>, offset: nat, size: nat)
    requires PartsGive(kinds, parts, blocks) && OfKinds(tracks, kinds) && Kinds(tracks) == kinds
    requires Bulk.SameLength(more, data) && Bulk.EachOnce(data, |kinds|) && BlocksGive(tracks, blocks, data, |more|)
    requires offset + size <= |more|
    ensures PartsGive(kinds, SliceAll(kinds, parts, offset, size), Parts(blocks, offset, size))
    ensures BlocksAre(kinds, Parts(blocks, offset, size), more[offset..offset + size],
                      Appends.RowsOf(|kinds|, Bulk.BulkPuts(more, data)[offset..offset + size]))
  {
    forall c | 0 <= c < |kinds|
      ensures PartOk(kinds[c], SlicePart(kinds[c], parts[c], offset, size))
      ensures PartRows(kinds[c], SlicePart(kinds[c], parts[c], offset, size)) == blocks[c][offset..offset + size]
    {
      SliceGives(kinds[c], parts[c], offset, size);
    }
    BatchRows(kinds, tracks, more, data, blocks, offset, size);
  }

  lemma BatchRows(kinds: seq<Kind>, tracks: seq<Track>, more: seq<Timestamp>, data: seq<Bulk.ColumnData>,
                  blocks: seq<seq<Item>>, offset: nat, size: nat)
    requires OfKinds(tracks, kinds) && Kinds(tracks) == kinds
    requires Bulk.SameLength(more, data) && Bulk.EachOnce(data, |kinds|) && BlocksGive(tracks, blocks, data, |more|)
    requires offset + size <= |more|
    ensures BlocksAre(kinds, Parts(blocks, offset, size), more[offset..offset + size],
                      Appends.RowsOf(|kinds|, Bulk.BulkPuts(more, data)[offset..offset + size]))
  {
    var times, part, cut := more[offset..offset + size], DataPart(data, offset, size), Parts(blocks, offset, size);
    var puts := Bulk.BulkPuts(more, data)[offset..offset + size];
    var added := Appends.RowsOf(|kinds|, puts);
    PartOnce(data, |kinds|, offset, size);
    PartPuts(more, data, offset, size);
    PartGives(tracks, blocks, data, |more|, offset, size);
    Appends.RowsOfSize(|kinds|, puts);
    forall i | 0 <= i < |added| ensures added[i] == Row(times[i], BlockCells(kinds, cut, i)) {
      RowsOfAt(|kinds|, puts, i);
      BulkRowCells(tracks, times, part, cut, i);
    }
  }

  // ---------------------------------------------------------------- the batches of a bulk append

  /** The part of every block that one batch takes. */
  function Parts(blocks: seq<seq<Item>>, offset: nat, size: nat): (parts: seq<seq<Item>>)
    requires forall c | 0 <= c < |blocks| :: offset + size <= |blocks[c]|
    ensures |parts| == |blocks| && forall c | 0 <= c < |blocks| :: parts[c] == blocks[c][offset..offset + size]
  {
    seq(|blocks|, c requires 0 <= c < |blocks| => blocks[c][offset..offset + size])
  }

  function DataPart(data: seq<Bulk.ColumnData>, offset: nat, size: nat): (part: seq<Bulk.ColumnData>)
    requires forall k | 0 <= k < |data| :: offset + size <= |data[k].values|
    ensures |part| == |data|
    ensures forall k | 0 <= k < |data| ::
              part[k] == Bulk.ColumnData(data[k].column, data[k].values[offset..offset + size])
  {
    seq(|data|, k requires 0 <= k < |data| => Bulk.ColumnData(data[k].column, data[k].values[offset..offset + size]))
  }

  lemma PartOnce(data: seq<Bulk.ColumnData>, columns: nat, offset: nat, size: nat)
    requires Bulk.EachOnce(data, columns) && forall k | 0 <= k < |data| :: offset + size <= |data[k].values|
    ensures Bulk.EachOnce(DataPart(data, offset, size), columns)
  {
    var part := DataPart(data, offset, size);
    forall c: nat | c < columns ensures Bulk.GivenBy(part, c) {
      assert Bulk.GivenBy(data, c);
      var k :| 0 <= k < |data| && data[k].column == c;
      assert part[k].column == c;
    }
  }

  lemma PartPuts(times: seq<Timestamp>, data: seq<Bulk.ColumnData>, offset: nat, size: nat)
    requires Bulk.SameLength(times, data) && offset + size <= |times|
    ensures Bulk.SameLength(times[offset..offset + size], DataPart(data, offset, size))
    ensures Bulk.BulkPuts(times[offset..offset + size], DataPart(data, offset, size))
            == Bulk.BulkPuts(times, data)[offset..offset + size]
  {
    var part, puts := DataPart(data, offset, size), Bulk.BulkPuts(times, data);
    forall i | 0 <= i < size ensures Bulk.CellsAt(part, i) == Bulk.CellsAt(data, offset + i) {
    }
  }

  lemma PartGives(tracks: seq<Track>, blocks: seq<seq<Item>>, data: seq<Bulk.ColumnData>, n: nat, offset: nat,
                  size: nat)
    requires BlocksGive(tracks, blocks, data, n) && offset + size <= n
    requires forall k | 0 <= k < |data| :: |data[k].values| == n
    ensures BlocksGive(tracks, Parts(blocks, offset, size), DataPart(data, offset, size), size)
  {
    var parts, part := Parts(blocks, offset, size), DataPart(data, offset, size);
    forall k, i | 0 <= k < |part| && 0 <= i < size && part[k].column < |parts| && i < |part[k].values|
      ensures CellOf(tracks[part[k].column].kind, parts[part[k].column][i]) == part[k].values[i]
    {
      assert CellOf(tracks[data[k].column].kind, blocks[data[k].column][offset + i]) == data[k].values[offset + i];
    }
  }

  /** A batch adds to the columns exactly the rows that it adds to the builder. */
  lemma BatchTracked(rows: seq<Row>, times: seq<Timestamp>, tracks: seq<Track>, more: seq<Timestamp>,
                     data: seq<Bulk.ColumnData>, blocks: seq<seq<Item>>, offset: nat, size: nat)
    requires Tracks(rows, times, tracks) && Bulk.SameLength(more, data) && Bulk.EachOnce(data, |tracks|)
    requires BlocksGive(tracks, blocks, data, |more|) && offset + size <= |more|
    ensures Tracks(rows + Appends.RowsOf(|tracks|, Bulk.BulkPuts(more, data)[offset..offset + size]),
                   times + more[offset..offset + size], Called(tracks, AsBlocks(Parts(blocks, offset, size))))
  {
    PartOnce(data, |tracks|, offset, size);
    PartPuts(more, data, offset, size);
    PartGives(tracks, blocks, data, |more|, offset, size);
    BulkTracked(rows, times, tracks, more[offset..offset + size], DataPart(data, offset, size),
                Parts(blocks, offset, size));
  }

  /** The columns of an open builder, and the times beside them. */
  datatype Open = Open(times: seq<Timestamp>, tracks: seq<Track>)

  function FreshTracks(kinds: seq<Kind>): (tracks: seq<Track>)
    ensures |tracks| == |kinds| && forall c | 0 <= c < |kinds| :: tracks[c] == Track(kinds[c], [])
  {
    seq(|kinds|, c requires 0 <= c < |kinds| => Track(kinds[c], []))
  }

  ghost predicate OfKinds(tracks: seq<Track>, kinds: seq<Kind>) {
    |tracks| == |kinds| && forall c | 0 <= c < |kinds| :: tracks[c].kind == kinds[c]
  }

  datatype Batched = Batched(made: seq<Open>, last: Open)

  /** The batching loop on columns: the builders it fills, and the one it leaves open. */
  function Batches(open: Open, kinds: seq<Kind>, maxRows: nat, more: seq<Timestamp>, blocks: seq<seq<Item>>,
                   offset: nat): Batched
    requires |open.times| < maxRows && |open.tracks| == |kinds| == |blocks| && offset <= |more|
    requires forall c | 0 <= c < |blocks| :: |blocks[c]| == |more|
    decreases |more| - offset
  {
    if offset == |more| then Batched([], open)
    else
      var size := BatchSize(open, maxRows, |more| - offset);
      var next := Filled(open, more, blocks, offset, size);
      if |next.times| >= maxRows then
        var rest := Batches(Open([], FreshTracks(kinds)), kinds, maxRows, more, blocks, offset + size);
        Batched([next] + rest.made, rest.last)
      else Batches(next, kinds, maxRows, more, blocks, offset + size)
  }

  function BatchSize(open: Open, maxRows: nat, left: nat): (size: nat)
    requires |open.times| < maxRows && left > 0
    ensures 0 < size <= left && |open.times| + size <= maxRows
  {
    if left < maxRows - |open.times| then left else maxRows - |open.times|
  }

  function Filled(open: Open, more: seq<Timestamp>, blocks: seq<seq<Item>>, offset: nat, size: nat): (next: Open)
    requires |open.tracks| == |blocks| && offset + size <= |more|
    requires forall c | 0 <= c < |blocks| :: |blocks[c]| == |more|
    ensures |next.times| == |open.times| + size && |next.tracks| == |open.tracks|
  {
    Open(open.times + more[offset..offset + size], Called(open.tracks, AsBlocks(Parts(blocks, offset, size))))
  }

  /** The columns are those of the topic's open builder; without one they hold nothing. */
  ghost predicate ColumnsOf(h: Writer.Held, t: TopicId, open: Open) {
    Tracks(Writer.OpenRows(h, t), open.times, open.tracks)
  }

  /** Every chunk holds the rows of the columns that were sealed for it. */
  ghost predicate AllTracked(chunks: seq<Chunk>, made: seq<Open>) {
    |chunks| == |made| && forall i | 0 <= i < |chunks| :: Tracks(chunks[i].rows, made[i].times, made[i].tracks)
  }

  lemma NothingTracked(kinds: seq<Kind>)
    ensures Tracks([], [], FreshTracks(kinds)) && OfKinds(FreshTracks(kinds), kinds)
  {
    forall c | 0 <= c < |kinds| ensures |TrackItems(FreshTracks(kinds)[c])| == 0 {
      assert FreshTracks(kinds)[c] == Track(kinds[c], []);
      assert ItemsOf(kinds[c], []) == [];
    }
  }

  /** The data of a bulk call, and the same column by column. */
  ghost predicate BulkGiven(kinds: seq<Kind>, more: seq<Timestamp>, data: seq<Bulk.ColumnData>,
                            blocks: seq<seq<Item>>) {
    && Bulk.SameLength(more, data) && Bulk.EachOnce(data, |kinds|)
    && BlocksGive(FreshTracks(kinds), blocks, data, |more|)
  }

  lemma GivenForKinds(kinds: seq<Kind>, tracks: seq<Track>, more: seq<Timestamp>, data: seq<Bulk.ColumnData>,
                      blocks: seq<seq<Item>>)
    requires BulkGiven(kinds, more, data, blocks) && OfKinds(tracks, kinds)
    ensures BlocksGive(tracks, blocks, data, |more|)
  {
    var none := FreshTracks(kinds);
    forall k, i | 0 <= k < |data| && 0 <= i < |more| && data[k].column < |blocks| && i < |data[k].values|
      ensures CellOf(tracks[data[k].column].kind, blocks[data[k].column][i]) == data[k].values[i]
    {
      assert CellOf(none[data[k].column].kind, blocks[data[k].column][i]) == data[k].values[i];
    }
  }

  /** What the loop knows in front of each batch: the builder's state, and its columns. */
  ghost predicate LoopReady(h: Writer.Held, t: TopicId, columns: seq<Column>, maxRows: nat, open: Open,
                            kinds: seq<Kind>)
  {
    && Appends.BatchReady(h, t, columns, maxRows) && |columns| == |kinds| && 0 < maxRows
    && OfKinds(open.tracks, kinds) && ColumnsOf(h, t, open)
  }

  lemma FilledTracked(h: Writer.Held, t: TopicId, columns: seq<Column>, maxRows: nat, open: Open, kinds: seq<Kind>,
                      more: seq<Timestamp>, data: seq<Bulk.ColumnData>, blocks: seq<seq<Item>>, offset: nat, size: nat)
    requires LoopReady(h, t, columns, maxRows, open, kinds) && BulkGiven(kinds, more, data, blocks)
    requires 0 < size && offset + size <= |more|
    ensures var filled := Appends.Filled(h, t, columns, maxRows, Bulk.BulkPuts(more, data)[offset..offset + size]);
            var next := Filled(open, more, blocks, offset, size);
            && t in filled.builders && Tracks(filled.builders[t].rows, next.times, next.tracks)
            && filled.pending == h.pending && OfKinds(next.tracks, kinds)
  {
    GivenForKinds(kinds, open.tracks, more, data, blocks);
    BatchTracked(Writer.OpenRows(h, t), open.times, open.tracks, more, data, blocks, offset, size);
  }

  /** After a batch that leaves the builder open. */
  ghost predicate StaysOpen(h: Writer.Held, t: TopicId, next: Open, h': Writer.Held) {
    Writer.PendingOf(h', t) == Writer.PendingOf(h, t) && ColumnsOf(h', t, next)
  }

  /** After a batch that fills the builder: its chunk holds the rows of the columns, and no builder is open. */
  ghost predicate FillsUp(h: Writer.Held, t: TopicId, next: Open, h': Writer.Held) {
    var before, after := Writer.PendingOf(h, t), Writer.PendingOf(h', t);
    && |after| == |before| + 1 && before <= after && Tracks(after[|before|].rows, next.times, next.tracks)
    && Writer.OpenRows(h', t) == []
  }

  /** What holds behind one batch. */
  ghost predicate BatchDone(h: Writer.Held, t: TopicId, columns: seq<Column>, maxRows: nat, next: Open,
                            kinds: seq<Kind>, h1: Writer.Held)
  {
    && Appends.BatchReady(h1, t, columns, maxRows) && OfKinds(next.tracks, kinds)
    && if |next.times| >= maxRows then FillsUp(h, t, next, h1) else StaysOpen(h, t, next, h1)
  }

  lemma OneBatch(h: Writer.Held, t: TopicId, columns: seq<Column>, maxRows: nat, open: Open, kinds: seq<Kind>,
                 more: seq<Timestamp>, data: seq<Bulk.ColumnData>, blocks: seq<seq<Item>>, offset: nat, size: nat,
                 h1: Writer.Held)
    requires LoopReady(h, t, columns, maxRows, open, kinds) && BulkGiven(kinds, more, data, blocks)
    requires 0 < size && offset + size <= |more| && |open.times| + size <= maxRows
    requires Appends.IsPut(h, t, columns, maxRows, Bulk.BulkPuts(more, data)[offset..offset + size], h1)
    ensures BatchDone(h, t, columns, maxRows, Filled(open, more, blocks, offset, size), kinds, h1)
  {
    var batch := Bulk.BulkPuts(more, data)[offset..offset + size];
    Appends.BatchIsRows(h, t, columns, maxRows, batch);
    Appends.PutRowsBounded(h, t, columns, maxRows, batch);
    FilledTracked(h, t, columns, maxRows, open, kinds, more, data, blocks, offset, size);
    BatchCloses(h, t, Appends.Filled(h, t, columns, maxRows, batch), maxRows,
                Filled(open, more, blocks, offset, size));
  }

  lemma BatchCloses(h: Writer.Held, t: TopicId, filled: Writer.Held, maxRows: nat, next: Open)
    requires t in filled.builders && filled.builders[t].maxRows == maxRows && filled.pending == h.pending
    requires Tracks(filled.builders[t].rows, next.times, next.tracks)
    ensures var h' := Writer.ShutIfFull(filled, t);
            if |next.times| >= maxRows then FillsUp(h, t, next, h') else StaysOpen(h, t, next, h')
  {
  }

  /** From `h` to `h'` the loop has made the chunks of `b.made`, and has left the columns of `b.last` open. */
  ghost predicate LoopDone(h: Writer.Held, t: TopicId, b: Batched, h': Writer.Held) {
    var before, after := Writer.PendingOf(h, t), Writer.PendingOf(h', t);
    before <= after && AllTracked(after[|before|..], b.made) && ColumnsOf(h', t, b.last)
  }

  lemma AfterOpen(h: Writer.Held, t: TopicId, next: Open, h1: Writer.Held, b: Batched, h': Writer.Held)
    requires StaysOpen(h, t, next, h1) && LoopDone(h1, t, b, h')
    ensures LoopDone(h, t, b, h')
  {
  }

  lemma AfterFull(h: Writer.Held, t: TopicId, next: Open, h1: Writer.Held, b: Batched, h': Writer.Held)
    requires FillsUp(h, t, next, h1) && LoopDone(h1, t, b, h')
    ensures LoopDone(h, t, Batched([next] + b.made, b.last), h')
  {
    var before, middle, after := Writer.PendingOf(h, t), Writer.PendingOf(h1, t), Writer.PendingOf(h', t);
    var made, rest := after[|before|..], after[|middle|..];
    assert made == [middle[|before|]] + rest;
    forall i | 0 <= i < |made|
      ensures Tracks(made[i].rows, ([next] + b.made)[i].times, ([next] + b.made)[i].tracks)
    {
      if i > 0 {
        assert made[i] == rest[i - 1] && ([next] + b.made)[i] == b.made[i - 1];
      }
    }
  }

  lemma PutsRest(h: Writer.Held, t: TopicId, columns: seq<Column>, maxRows: nat, puts: seq<Appends.Put>, offset: nat,
                 size: nat, h1: Writer.Held, h': Writer.Held)
    requires offset + size <= |puts| && Appends.IsPut(h, t, columns, maxRows, puts[offset..offset + size], h1)
    requires Appends.IsPut(h, t, columns, maxRows, puts[offset..], h')
    ensures Appends.IsPut(h1, t, columns, maxRows, puts[offset + size..], h')
  {
    assert puts[offset..] == puts[offset..offset + size] + puts[offset + size..];
    Appends.PutRowsConcat(h, t, columns, maxRows, puts[offset..offset + size], puts[offset + size..]);
  }

  lemma NothingLeft(h: Writer.Held, t: TopicId, columns: seq<Column>, maxRows: nat, puts: seq<Appends.Put>, open: Open,
                    h': Writer.Held)
    requires Appends.IsPut(h, t, columns, maxRows, puts[|puts|..], h') && ColumnsOf(h, t, open)
    ensures LoopDone(h, t, Batched([], open), h')
  {
    assert puts[|puts|..] == [];
  }

  /** What is left after the first batch of the loop. */
  function LeftOpen(next: Open, kinds: seq<Kind>, maxRows: nat): Open {
    if |next.times| >= maxRows then Open([], FreshTracks(kinds)) else next
  }

  lemma BatchesStep(open: Open, kinds: seq<Kind>, maxRows: nat, more: seq<Timestamp>, blocks: seq<seq<Item>>,
                    offset: nat) returns (rest: Batched)
    requires |open.times| < maxRows && |open.tracks| == |kinds| == |blocks| && offset < |more|
    requires forall c | 0 <= c < |blocks| :: |blocks[c]| == |more|
    ensures var size := BatchSize(open, maxRows, |more| - offset);
            var next := Filled(open, more, blocks, offset, size);
            && rest == Batches(LeftOpen(next, kinds, maxRows), kinds, maxRows, more, blocks, offset + size)
            && Batches(open, kinds, maxRows, more, blocks, offset)
               == if |next.times| >= maxRows then Batched([next] + rest.made, rest.last) else rest
  {
    var size := BatchSize(open, maxRows, |more| - offset);
    var next := Filled(open, more, blocks, offset, size);
    rest := Batches(LeftOpen(next, kinds, maxRows), kinds, maxRows, more, blocks, offset + size);
  }

  /** The state behind a batch is ready for the next one. */
  lemma BatchReadyAgain(h: Writer.Held, t: TopicId, columns: seq<Column>, maxRows: nat, next: Open, kinds: seq<Kind>,
                        h1: Writer.Held)
    requires BatchDone(h, t, columns, maxRows, next, kinds, h1) && |columns| == |kinds| && 0 < maxRows
    ensures LoopReady(h1, t, columns, maxRows, LeftOpen(next, kinds, maxRows), kinds)
  {
    NothingTracked(kinds);
  }

  lemma LoopCloses(h: Writer.Held, t: TopicId, columns: seq<Column>, maxRows: nat, next: Open, kinds: seq<Kind>,
                   h1: Writer.Held, rest: Batched, h': Writer.Held)
    requires BatchDone(h, t, columns, maxRows, next, kinds, h1) && LoopDone(h1, t, rest, h')
    ensures LoopDone(h, t, if |next.times| >= maxRows then Batched([next] + rest.made, rest.last) else rest, h')
  {
    if |next.times| >= maxRows {
      AfterFull(h, t, next, h1, rest, h');
    } else {
      AfterOpen(h, t, next, h1, rest, h');
    }
  }

  /** `LoopReady` and `BulkGiven`, kept folded (see Folding). */
  ghost predicate LoopAt(h: Writer.Held, t: TopicId, columns: seq<Column>, maxRows: nat, open: Open, kinds: seq<Kind>) {
    forall n: nat {:trigger UnfoldAt(n)} | n == maxRows :: LoopReady(h, t, columns, n, open, kinds)
  }

  ghost predicate GivenAt(kinds: seq<Kind>, more: seq<Timestamp>, data: seq<Bulk.ColumnData>, blocks: seq<seq<Item>>) {
    forall n: nat {:trigger UnfoldAt(n)} | n == |more| :: BulkGiven(kinds, more, data, blocks)
  }

  /** What the loop asks of the sizes. */
  ghost predicate SizesFit(open: Open, kinds: seq<Kind>, maxRows: nat, more: seq<Timestamp>, blocks: seq<seq<Item>>) {
    && |open.times| < maxRows && |open.tracks| == |kinds| == |blocks|
    && forall c | 0 <= c < |blocks| :: |blocks[c]| == |more|
  }

  /** Putting the rows from `offset` on leads from `h` to `h'`; kept folded as well. */
  ghost predicate PutsLeft(h: Writer.Held, t: TopicId, columns: seq<Column>, maxRows: nat, more: seq<Timestamp>,
                           data: seq<Bulk.ColumnData>, offset: nat, h': Writer.Held)
  {
    forall n: nat {:trigger UnfoldAt(n)} | n == offset ::
      && Bulk.SameLength(more, data) && n <= |more|
      && Appends.IsPut(h, t, columns, maxRows, Bulk.BulkPuts(more, data)[n..], h')
  }

  /** One turn of the loop. */
  lemma LoopTurn(h: Writer.Held, t: TopicId, columns: seq<Column>, maxRows: nat, open: Open, kinds: seq<Kind>,
                 more: seq<Timestamp>, data: seq<Bulk.ColumnData>, blocks: seq<seq<Item>>, offset: nat, size: nat,
                 next: Open, h': Writer.Held) returns (h1: Writer.Held)
    requires LoopAt(h, t, columns, maxRows, open, kinds) && GivenAt(kinds, more, data, blocks)
    requires SizesFit(open, kinds, maxRows, more, blocks) && offset < |more|
    requires size == BatchSize(open, maxRows, |more| - offset) && next == Filled(open, more, blocks, offset, size)
    requires PutsLeft(h, t, columns, maxRows, more, data, offset, h')
    ensures BatchDone(h, t, columns, maxRows, next, kinds, h1)
    ensures LoopAt(h1, t, columns, maxRows, LeftOpen(next, kinds, maxRows), kinds)
    ensures SizesFit(LeftOpen(next, kinds, maxRows), kinds, maxRows, more, blocks)
    ensures PutsLeft(h1, t, columns, maxRows, more, data, offset + size, h')
  {
    h1 := PutsTurn(h, t, columns, maxRows, more, data, offset, size, h');
    BatchTurn(h, t, columns, maxRows, open, kinds, more, data, blocks, offset, size, next, h1);
  }

  lemma PutsTurn(h: Writer.Held, t: TopicId, columns: seq<Column>, maxRows: nat, more: seq<Timestamp>,
                 data: seq<Bulk.ColumnData>, offset: nat, size: nat, h': Writer.Held) returns (h1: Writer.Held)
    requires PutsLeft(h, t, columns, maxRows, more, data, offset, h') && offset + size <= |more|
    ensures Bulk.SameLength(more, data)
    ensures Appends.IsPut(h, t, columns, maxRows, Bulk.BulkPuts(more, data)[offset..offset + size], h1)
    ensures PutsLeft(h1, t, columns, maxRows, more, data, offset + size, h')
  {
    assert UnfoldAt(offset);
    var puts := Bulk.BulkPuts(more, data);
    h1 := Appends.PutRows(h, t, columns, maxRows, puts[offset..offset + size]);
    PutsRest(h, t, columns, maxRows, puts, offset, size, h1, h');
  }

  lemma BatchTurn(h: Writer.Held, t: TopicId, columns: seq<Column>, maxRows: nat, open: Open, kinds: seq<Kind>,
                  more: seq<Timestamp>, data: seq<Bulk.ColumnData>, blocks: seq<seq<Item>>, offset: nat, size: nat,
                  next: Open, h1: Writer.Held)
    requires LoopAt(h, t, columns, maxRows, open, kinds) && GivenAt(kinds, more, data, blocks)
    requires SizesFit(open, kinds, maxRows, more, blocks) && offset < |more| && Bulk.SameLength(more, data)
    requires size == BatchSize(open, maxRows, |more| - offset) && next == Filled(open, more, blocks, offset, size)
    requires Appends.IsPut(h, t, columns, maxRows, Bulk.BulkPuts(more, data)[offset..offset + size], h1)
    ensures BatchDone(h, t, columns, maxRows, next, kinds, h1)
    ensures LoopAt(h1, t, columns, maxRows, LeftOpen(next, kinds, maxRows), kinds)
    ensures SizesFit(LeftOpen(next, kinds, maxRows), kinds, maxRows, more, blocks)
  {
    assert UnfoldAt(maxRows) && UnfoldAt(|more|);
    OneBatch(h, t, columns, maxRows, open, kinds, more, data, blocks, offset, size, h1);
    BatchReadyAgain(h, t, columns, maxRows, next, kinds, h1);
  }

  lemma LoopEnds(h: Writer.Held, t: TopicId, columns: seq<Column>, maxRows: nat, open: Open, kinds: seq<Kind>,
                 more: seq<Timestamp>, data: seq<Bulk.ColumnData>, h': Writer.Held)
    requires LoopAt(h, t, columns, maxRows, open, kinds) && PutsLeft(h, t, columns, maxRows, more, data, |more|, h')
    ensures LoopDone(h, t, Batched([], open), h')
  {
    assert UnfoldAt(maxRows) && UnfoldAt(|more|);
    NothingLeft(h, t, columns, maxRows, Bulk.BulkPuts(more, data), open, h');
  }

  /**
   * The whole loop: the chunks it makes hold exactly the rows of the columns it fills, one by one, the builder it
   * leaves open holds those of the columns left open, and both are what one round per row gives.
   */
  lemma {:induction false} LoopTracked(h: Writer.Held, t: TopicId, columns: seq<Column>, maxRows: nat, open: Open,
                                       kinds: seq<Kind>, more: seq<Timestamp>, data: seq<Bulk.ColumnData>,
                                       blocks: seq<seq<Item>>, offset: nat, b: Batched, h': Writer.Held)
    requires LoopAt(h, t, columns, maxRows, open, kinds) && GivenAt(kinds, more, data, blocks)
    requires SizesFit(open, kinds, maxRows, more, blocks) && offset <= |more|
    requires b == Batches(open, kinds, maxRows, more, blocks, offset)
    requires PutsLeft(h, t, columns, maxRows, more, data, offset, h')
    ensures LoopDone(h, t, b, h')
    decreases |more| - offset
  {
    if offset == |more| {
      LoopEnds(h, t, columns, maxRows, open, kinds, more, data, h');
    } else {
      var size := BatchSize(open, maxRows, |more| - offset);
      var next := Filled(open, more, blocks, offset, size);
      var h1 := LoopTurn(h, t, columns, maxRows, open, kinds, more, data, blocks, offset, size, next, h');
      var rest := BatchesStep(open, kinds, maxRows, more, blocks, offset);
      LoopTracked(h1, t, columns, maxRows, LeftOpen(next, kinds, maxRows), kinds, more, data, blocks, offset + size,
                  rest, h');
      LoopCloses(h, t, columns, maxRows, next, kinds, h1, rest, h');
    }
  }

  lemma PutsFromStart(h: Writer.Held, t: TopicId, columns: seq<Column>, maxRows: nat, more: seq<Timestamp>,
                      data: seq<Bulk.ColumnData>)
    requires Bulk.SameLength(more, data)
    ensures PutsLeft(h, t, columns, maxRows, more, data, 0,
                     Appends.PutRows(h, t, columns, maxRows, Bulk.BulkPuts(more, data)))
  {
    var puts := Bulk.BulkPuts(more, data);
    var h' := Appends.PutRows(h, t, columns, maxRows, puts);
    forall n: nat | n == 0 ensures n <= |more| && Appends.IsPut(h, t, columns, maxRows, puts[n..], h') {
      assert puts[n..] == puts;
    }
  }

  /** The same, from the start of a bulk append. */
  lemma BulkLoopTracked(h: Writer.Held, t: TopicId, columns: seq<Column>, maxRows: nat, open: Open, kinds: seq<Kind>,
                        more: seq<Timestamp>, data: seq<Bulk.ColumnData>, blocks: seq<seq<Item>>)
    requires LoopReady(h, t, columns, maxRows, open, kinds) && BulkGiven(kinds, more, data, blocks)
    requires SizesFit(open, kinds, maxRows, more, blocks)
    ensures LoopDone(h, t, Batches(open, kinds, maxRows, more, blocks, 0),
                     Appends.PutRows(h, t, columns, maxRows, Bulk.BulkPuts(more, data)))
  {
    var h' := Appends.PutRows(h, t, columns, maxRows, Bulk.BulkPuts(more, data));
    PutsFromStart(h, t, columns, maxRows, more, data);
    LoopTracked(h, t, columns, maxRows, open, kinds, more, data, blocks, 0,
                Batches(open, kinds, maxRows, more, blocks, 0), h');
  }

  /** Each chunk that a bulk append makes reads back the rows put one by one, if its columns survive sealing. */
  lemma MadeReadsBack(chunks: seq<Chunk>, made: seq<Open>, k: nat, cols: seq<SealedColumn>, i: nat)
    requires AllTracked(chunks, made) && k < |chunks| && i < |chunks[k].rows|
    requires AllShow(cols, made[k].tracks) && forall c | 0 <= c < |made[k].tracks| :: Survives(made[k].tracks[c])
    ensures forall c | 0 <= c < |made[k].tracks| :: i < |TrackItems(made[k].tracks[c])|
    ensures |made[k].times| == |chunks[k].rows|
    ensures chunks[k].rows[i] == Row(made[k].times[i], ReadCells(cols, made[k].tracks, i))
  {
    ChunkReadsBack(chunks[k], made[k].times, made[k].tracks, cols, i);
  }
}
