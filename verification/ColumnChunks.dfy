/** Chunks column by column: the columns of a builder hold exactly its rows, and the sealed columns read them back. */
module ColumnChunks {
  import opened Samples
  import opened WireFormat
  import opened GeometryCodec
  import opened ColumnBuffers
  import opened ColumnStats
  import opened SealedColumns
  import opened SealedContent
  import Writer = WriterStates

  /** A column of an open chunk: its kind, and the calls made on it. */
  datatype Track = Track(kind: Kind, history: seq<Entry>)

  function TextOf(text: Bytes): string {
    seq(|text|, i requires 0 <= i < |text| => text[i] as char)
  }

  /** The cell that a value of a column is, seen as a row. */
  function CellFrom(r: Reading): Cell {
    match r
    case Whole(n) => Fixed(Unsigned(n, TWO64))
    case Bits(raw) => Fixed(Word(raw))
    case Truth(b) => Fixed(if b then 1 else 0)
    case Chars(text) => Text(TextOf(text))
  }

  function CellOf(kind: Kind, x: Item): Cell {
    if x.isNull then Null else CellFrom(Meaning(kind, x.raw))
  }

  function TrackItems(tr: Track): seq<Item> {
    ItemsOf(tr.kind, tr.history)
  }

  /** Every column has the given number of rows. */
  ghost predicate Aligned(tracks: seq<Track>, rows: nat) {
    forall c | 0 <= c < |tracks| :: |TrackItems(tracks[c])| == rows
  }

  function CellsAt(tracks: seq<Track>, i: nat): seq<Cell>
    requires forall c | 0 <= c < |tracks| :: i < |TrackItems(tracks[c])|
  {
    seq(|tracks|, c requires 0 <= c < |tracks| => CellOf(tracks[c].kind, TrackItems(tracks[c])[i]))
  }

  /** The rows of the builder are those of its columns. */
  ghost predicate Tracks(rows: seq<Row>, times: seq<Timestamp>, tracks: seq<Track>) {
    && |rows| == |times| && Aligned(tracks, |rows|)
    && forall i | 0 <= i < |rows| :: rows[i] == Row(times[i], CellsAt(tracks, i))
  }

  // ---------------------------------------------------------------- row by row

  /** One more call on every column. */
  function Called(tracks: seq<Track>, entries: seq<Entry>): (called: seq<Track>)
    requires |entries| == |tracks|
    ensures |called| == |tracks|
    ensures forall c | 0 <= c < |tracks| :: called[c] == Track(tracks[c].kind, tracks[c].history + [entries[c]])
  {
    seq(|tracks|, c requires 0 <= c < |tracks| => Track(tracks[c].kind, tracks[c].history + [entries[c]]))
  }

  /** The call that finishing a row has made on a column: its value, or a null if it was not set or set to null. */
  ghost predicate Fills(kind: Kind, e: Entry, values: map<nat, Cell>, c: nat) {
    if c in values && values[c] != Null then e.One? && CellOf(kind, Item(e.raw, false)) == values[c] else e == Missing
  }

  /** Finishing a row of the builder is one call on every column. */
  lemma RowTracked(b: Writer.Builder, times: seq<Timestamp>, tracks: seq<Track>, entries: seq<Entry>)
    requires b.current.Some? && |b.columns| == |tracks| == |entries| && Tracks(b.rows, times, tracks)
    requires forall c | 0 <= c < |tracks| :: Fills(tracks[c].kind, entries[c], b.current.value, c)
    ensures Tracks(b.rows + [Writer.OpenRow(b)], times + [b.lastTs], Called(tracks, entries))
  {
    var called, n := Called(tracks, entries), |b.rows|;
    forall c | 0 <= c < |tracks|
        ensures TrackItems(called[c]) == TrackItems(tracks[c]) + NewItems(tracks[c].kind, entries[c]) {
      OneEntry(tracks[c].kind, tracks[c].history, entries[c]);
    }
    assert Aligned(called, n + 1);
    assert CellsAt(called, n) == Writer.OpenRow(b).cells;
    forall i | 0 <= i < n ensures CellsAt(called, i) == CellsAt(tracks, i) {
    }
  }

  // ---------------------------------------------------------------- blocks

  function BlockCells(kinds: seq<Kind>, blocks: seq<seq<Item>>, i: nat): seq<Cell>
    requires |kinds| == |blocks| && forall c | 0 <= c < |blocks| :: i < |blocks[c]|
  {
    seq(|blocks|, c requires 0 <= c < |blocks| => CellOf(kinds[c], blocks[c][i]))
  }

  function Kinds(tracks: seq<Track>): (kinds: seq<Kind>)
    ensures |kinds| == |tracks| && forall c | 0 <= c < |tracks| :: kinds[c] == tracks[c].kind
  {
    seq(|tracks|, c requires 0 <= c < |tracks| => tracks[c].kind)
  }

  function AsBlocks(blocks: seq<seq<Item>>): (entries: seq<Entry>)
    ensures |entries| == |blocks| && forall c | 0 <= c < |blocks| :: entries[c] == Block(blocks[c])
  {
    seq(|blocks|, c requires 0 <= c < |blocks| => Block(blocks[c]))
  }

  /** Appending a block of rows is one block on every column. */
  lemma BlockTracked(rows: seq<Row>, times: seq<Timestamp>, tracks: seq<Track>, more: seq<Row>,
                     moreTimes: seq<Timestamp>,
                     blocks: seq<seq<Item>>)
    requires Tracks(rows, times, tracks) && |blocks| == |tracks| && |more| == |moreTimes|
    requires forall c | 0 <= c < |blocks| :: |blocks[c]| == |more|
    requires forall i | 0 <= i < |more| :: more[i] == Row(moreTimes[i], BlockCells(Kinds(tracks), blocks, i))
    ensures Tracks(rows + more, times + moreTimes, Called(tracks, AsBlocks(blocks)))
  {
    var called, n := Called(tracks, AsBlocks(blocks)), |rows|;
    forall c | 0 <= c < |tracks| ensures TrackItems(called[c]) == TrackItems(tracks[c]) + blocks[c] {
      OneEntry(tracks[c].kind, tracks[c].history, Block(blocks[c]));
    }
    assert Aligned(called, n + |more|);
    forall i | 0 <= i < n + |more| ensures (rows + more)[i] == Row((times + moreTimes)[i], CellsAt(called, i)) {
      if i < n {
        assert CellsAt(called, i) == CellsAt(tracks, i);
      } else {
        assert CellsAt(called, i) == BlockCells(Kinds(tracks), blocks, i - n);
      }
    }
  }

  // ---------------------------------------------------------------- sealing

  /** The sealed columns of a chunk, one for each column of the builder. */
  ghost predicate AllShow(cols: seq<SealedColumn>, tracks: seq<Track>) {
    |cols| == |tracks| && forall c | 0 <= c < |cols| :: ShowsTrack(cols[c], tracks[c])
  }

  ghost predicate ShowsTrack(col: SealedColumn, tr: Track) {
    Shows(col, tr.kind, TrackItems(tr), StatsOf(tr.kind, tr.history).isConstant)
  }

  /** A cell as the readers of a sealed column give it. */
  ghost function ReadCell(col: SealedColumn, tr: Track, i: nat): Cell
    requires ShowsTrack(col, tr) && i < |TrackItems(tr)|
  {
    assert ShowsNull(col.bitmap, TrackItems(tr), i);
    assert ShowsValue(tr.kind, col.data, TrackItems(tr), StatsOf(tr.kind, tr.history).isConstant, i);
    if IsNullAt(col, i) then Null else CellFrom(ReadValue(col, i))
  }

  ghost function ReadCells(cols: seq<SealedColumn>, tracks: seq<Track>, i: nat): seq<Cell>
    requires AllShow(cols, tracks) && forall c | 0 <= c < |tracks| :: i < |TrackItems(tracks[c])|
  {
    seq(|cols|, c requires 0 <= c < |cols| => ReadCell(cols[c], tracks[c], i))
  }

  /** A column survives sealing: it is of a kind that always does, or nothing in it is blurred. */
  ghost predicate Survives(tr: Track) {
    !Measured(tr.kind) || NothingBlurred(tr.kind, tr.history)
  }

  lemma CellReadBack(col: SealedColumn, tr: Track, i: nat)
    requires ShowsTrack(col, tr) && i < |TrackItems(tr)| && Survives(tr)
    ensures ReadCell(col, tr, i) == CellOf(tr.kind, TrackItems(tr)[i])
  {
    PreservedExactly(tr.kind, tr.history);
    assert ShowsNull(col.bitmap, TrackItems(tr), i);
    assert ShowsValue(tr.kind, col.data, TrackItems(tr), StatsOf(tr.kind, tr.history).isConstant, i);
  }

  /** A chunk whose rows are those of its columns is what its sealed columns read back, row by row. */
  lemma ChunkReadsBack(chunk: Chunk, times: seq<Timestamp>, tracks: seq<Track>, cols: seq<SealedColumn>, i: nat)
    requires Tracks(chunk.rows, times, tracks) && AllShow(cols, tracks)
    requires forall c | 0 <= c < |tracks| :: Survives(tracks[c])
    requires i < |chunk.rows|
    ensures forall c | 0 <= c < |tracks| :: i < |TrackItems(tracks[c])|
    ensures chunk.rows[i] == Row(times[i], ReadCells(cols, tracks, i))
  {
    assert Aligned(tracks, |chunk.rows|);
    CellsReadBack(cols, tracks, i);
  }

  lemma CellsReadBack(cols: seq<SealedColumn>, tracks: seq<Track>, i: nat)
    requires AllShow(cols, tracks) && forall c | 0 <= c < |tracks| :: Survives(tracks[c])
    requires forall c | 0 <= c < |tracks| :: i < |TrackItems(tracks[c])|
    ensures ReadCells(cols, tracks, i) == CellsAt(tracks, i)
  {
    forall c | 0 <= c < |tracks|
      ensures ReadCell(cols[c], tracks[c], i) == CellOf(tracks[c].kind, TrackItems(tracks[c])[i])
    {
      CellReadBack(cols[c], tracks[c], i);
    }
  }
}
