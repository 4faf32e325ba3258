/** A chunk under construction: it owns one column builder per column, and holds the rows of the writer's builder. */
module ChunkBuilders {
  import opened Folding
  import opened Samples
  import opened WireFormat
  import opened BitVectors
  import opened ColumnBuffers
  import opened ColumnStats
  import opened SealedColumns
  import opened SealedContent
  import opened ColumnBuilders
  import opened ColumnChunks
  import Writer = WriterStates

  // ---------------------------------------------------------------- rows and columns while a row is open

  /** The column without what the open row has put into it. */
  function Closed(tr: Track, rows: nat): Track {
    if |TrackItems(tr)| > rows then Track(tr.kind, tr.history[..|tr.history| - 1]) else tr
  }

  function AllClosed(tracks: seq<Track>, rows: nat): (closed: seq<Track>)
    ensures |closed| == |tracks| && forall c | 0 <= c < |tracks| :: closed[c] == Closed(tracks[c], rows)
  {
    seq(|tracks|, c requires 0 <= c < |tracks| => Closed(tracks[c], rows))
  }

  /** A column of a builder with an open row: the value set in it, if any, is its last call. */
  ghost predicate HoldsOpen(tr: Track, rows: nat, values: map<nat, Cell>, c: nat) {
    if c in values then
      && tr.history != [] && |TrackItems(Track(tr.kind, tr.history[..|tr.history| - 1]))| == rows
      && |TrackItems(tr)| == rows + 1 && Fills(tr.kind, tr.history[|tr.history| - 1], values, c)
    else |TrackItems(tr)| == rows
  }

  /** The columns hold the builder's rows, and what is set in its open row; kept folded (see Folding). */
  ghost predicate RowTracks(b: Writer.Builder, times: seq<Timestamp>, tracks: seq<Track>) {
    forall x {:trigger Unfold(x)} | x == b :: RowHolds(x, times, tracks)
  }

  lemma RowMeaning(b: Writer.Builder, times: seq<Timestamp>, tracks: seq<Track>)
    ensures RowTracks(b, times, tracks) <==> RowHolds(b, times, tracks)
  {
    assert Unfold(b);
  }

  ghost predicate RowHolds(b: Writer.Builder, times: seq<Timestamp>, tracks: seq<Track>) {
    && |b.columns| == |tracks|
    && match b.current
       case None => Tracks(b.rows, times, tracks)
       case Some(values) =>
         && Tracks(b.rows, times, AllClosed(tracks, |b.rows|))
         && forall c | 0 <= c < |tracks| :: HoldsOpen(tracks[c], |b.rows|, values, c)
  }

  /** A new builder holds no rows, and its columns have had no calls. */
  lemma NewTracked(b: Writer.Builder, tracks: seq<Track>)
    requires |b.columns| == |tracks| && b.rows == [] && b.current.None?
    requires forall c | 0 <= c < |tracks| :: tracks[c].history == []
    ensures RowTracks(b, [], tracks)
  {
    forall c | 0 <= c < |tracks| ensures |TrackItems(tracks[c])| == 0 {
      assert ItemsOf(tracks[c].kind, []) == [];
    }
    RowMeaning(b, [], tracks);
  }

  lemma BeginTracked(b: Writer.Builder, times: seq<Timestamp>, tracks: seq<Track>, ts: Timestamp)
    requires RowTracks(b, times, tracks) && b.current.None?
    ensures RowTracks(b.(lastTs := ts, current := Some(map[])), times, tracks)
  {
    RowMeaning(b, times, tracks);
    assert Aligned(tracks, |b.rows|);
    assert AllClosed(tracks, |b.rows|) == tracks;
    RowMeaning(b.(lastTs := ts, current := Some(map[])), times, tracks);
  }

  /** One more call on one column. */
  function CalledOn(tracks: seq<Track>, c: nat, e: Entry): seq<Track>
    requires c < |tracks|
  {
    tracks[c := Track(tracks[c].kind, tracks[c].history + [e])]
  }

  lemma CloseAgain(tr: Track, e: Entry, rows: nat)
    requires |TrackItems(tr)| == rows && !e.Block?
    ensures var more := Track(tr.kind, tr.history + [e]);
            |TrackItems(more)| == rows + 1 && Closed(more, rows) == tr
                && more.history[..|more.history| - 1] == tr.history
  {
    OneEntry(tr.kind, tr.history, e);
    assert (tr.history + [e])[..|tr.history|] == tr.history;
  }

  /** Setting a value in the open row. */
  lemma SetTracked(b: Writer.Builder, times: seq<Timestamp>, tracks: seq<Track>, c: nat, e: Entry, value: Cell)
    requires RowTracks(b, times, tracks) && b.current.Some? && c < |tracks| && c !in b.current.value && !e.Block?
    requires Fills(tracks[c].kind, e, map[c := value], c)
    ensures RowTracks(b.(current := Some(b.current.value[c := value])), times, CalledOn(tracks, c, e))
  {
    var values, rows, called := b.current.value, |b.rows|, CalledOn(tracks, c, e);
    RowMeaning(b, times, tracks);
    assert HoldsOpen(tracks[c], rows, values, c);
    CloseAgain(tracks[c], e, rows);
    assert AllClosed(called, rows) == AllClosed(tracks, rows);
    forall d | 0 <= d < |called| ensures HoldsOpen(called[d], rows, values[c := value], d) {
      assert HoldsOpen(tracks[d], rows, values, d);
    }
    RowMeaning(b.(current := Some(values[c := value])), times, called);
  }

  /** What finishing a row adds to a column: a null, if nothing was set. */
  function LastEntry(tr: Track, rows: nat): Entry {
    if |TrackItems(tr)| > rows && tr.history != [] then tr.history[|tr.history| - 1] else Missing
  }

  function LastEntries(tracks: seq<Track>, rows: nat): (entries: seq<Entry>)
    ensures |entries| == |tracks| && forall c | 0 <= c < |tracks| :: entries[c] == LastEntry(tracks[c], rows)
  {
    seq(|tracks|, c requires 0 <= c < |tracks| => LastEntry(tracks[c], rows))
  }

  /** The columns after finishing a row: those still short get a null. */
  function FinishedTracks(tracks: seq<Track>, rows: nat): (finished: seq<Track>)
    ensures |finished| == |tracks| && forall c | 0 <= c < |tracks| :: finished[c] == FinishedTrack(tracks[c], rows)
  {
    seq(|tracks|, c requires 0 <= c < |tracks| => FinishedTrack(tracks[c], rows))
  }

  function FinishedTrack(tr: Track, rows: nat): Track {
    if |TrackItems(tr)| < rows + 1 then Track(tr.kind, tr.history + [Missing]) else tr
  }

  lemma FinishTracked(b: Writer.Builder, times: seq<Timestamp>, tracks: seq<Track>)
    requires RowTracks(b, times, tracks) && b.current.Some?
    ensures RowTracks(b.(rows := b.rows + [Writer.OpenRow(b)], current := None), times + [b.lastTs],
                      FinishedTracks(tracks, |b.rows|))
  {
    var rows := |b.rows|;
    RowMeaning(b, times, tracks);
    var closed, entries := AllClosed(tracks, rows), LastEntries(tracks, rows);
    forall c | 0 <= c < |tracks|
      ensures Fills(closed[c].kind, entries[c], b.current.value, c)
      ensures FinishedTracks(tracks, rows)[c] == Track(closed[c].kind, closed[c].history + [entries[c]])
    {
      assert HoldsOpen(tracks[c], rows, b.current.value, c);
    }
    RowTracked(b, times, closed, entries);
    assert FinishedTracks(tracks, rows) == Called(closed, entries);
    RowMeaning(b.(rows := b.rows + [Writer.OpenRow(b)], current := None), times + [b.lastTs],
               FinishedTracks(tracks, rows));
  }

  // ---------------------------------------------------------------- the object

  /** No two columns share an object. */
  predicate Apart(columns: seq<ColumnBuilder>) {
    forall c, d | 0 <= c < d < |columns| ::
      columns[c] != columns[d] && columns[c].buffer != columns[d].buffer
      && columns[c].buffer.validity != columns[d].buffer.validity
  }

  /** The calls made on each column so far. */
  ghost function TracksOf(columns: seq<ColumnBuilder>): (tracks: seq<Track>)
    reads columns
    ensures |tracks| == |columns|
    ensures forall c | 0 <= c < |columns| :: tracks[c] == Track(columns[c].buffer.kind, columns[c].history)
  {
    seq(|columns|, c requires 0 <= c < |columns| reads columns => Track(columns[c].buffer.kind, columns[c].history))
  }

  /** Every column is in order; kept folded (see Folding). */
  ghost predicate AllValid(columns: seq<ColumnBuilder>)
    reads columns, Buffers(columns), Bitmaps(columns)
  {
    forall n: nat {:trigger UnfoldAt(n)} | n == |columns| :: forall c | 0 <= c < |columns| :: columns[c].Valid()
  }

  ghost function Buffers(columns: seq<ColumnBuilder>): set<TypedColumnBuffer> {
    set c | c in columns :: c.buffer
  }

  ghost function Bitmaps(columns: seq<ColumnBuilder>): set<BitVector> {
    set c | c in columns :: c.buffer.validity
  }

  lemma OneCalled(columns: seq<ColumnBuilder>, c: nat, before: seq<Track>, e: Entry)
    requires c < |columns| && |before| == |columns|
    requires columns[c].history == before[c].history + [e]
    requires forall d | 0 <= d < |columns| :: columns[d].buffer.kind == before[d].kind
    requires forall d | 0 <= d < |columns| && d != c :: columns[d].history == before[d].history
    ensures TracksOf(columns) == CalledOn(before, c, e)
  {
  }

  /** One call on one column leaves the others as they are. */
  method SetFixedIn(columns: seq<ColumnBuilder>, c: nat, bits: nat)
    requires Apart(columns) && AllValid(columns) && c < |columns| && columns[c].buffer.kind != String
    modifies columns[c], columns[c].buffer, columns[c].buffer.validity
    ensures AllValid(columns)
    ensures TracksOf(columns)
            == CalledOn(old(TracksOf(columns)), c, One(FixedBytes(bits, SizeOf(columns[c].buffer.kind))))
  {
    assert UnfoldAt(|columns|);
    ghost var before := TracksOf(columns);
    columns[c].SetFixed(bits);
    forall d | 0 <= d < |columns| ensures columns[d].Valid() && (d != c ==> columns[d].history == before[d].history) {
      if d != c {
        assert old(columns[d].Valid());
      }
    }
    OneCalled(columns, c, before, One(FixedBytes(bits, SizeOf(columns[c].buffer.kind))));
  }

  method SetTextIn(columns: seq<ColumnBuilder>, c: nat, text: Bytes)
    requires Apart(columns) && AllValid(columns) && c < |columns| && columns[c].buffer.kind == String
    modifies columns[c], columns[c].buffer, columns[c].buffer.validity
    ensures AllValid(columns) && TracksOf(columns) == CalledOn(old(TracksOf(columns)), c, One(text))
  {
    assert UnfoldAt(|columns|);
    ghost var before := TracksOf(columns);
    columns[c].SetText(text);
    forall d | 0 <= d < |columns| ensures columns[d].Valid() && (d != c ==> columns[d].history == before[d].history) {
      if d != c {
        assert old(columns[d].Valid());
      }
    }
    OneCalled(columns, c, before, One(text));
  }

  method SetNullIn(columns: seq<ColumnBuilder>, c: nat)
    requires Apart(columns) && AllValid(columns) && c < |columns|
    modifies columns[c], columns[c].buffer, columns[c].buffer.validity
    ensures AllValid(columns) && TracksOf(columns) == CalledOn(old(TracksOf(columns)), c, Missing)
  {
    assert UnfoldAt(|columns|);
    ghost var before := TracksOf(columns);
    columns[c].SetNull();
    forall d | 0 <= d < |columns| ensures columns[d].Valid() && (d != c ==> columns[d].history == before[d].history) {
      if d != c {
        assert old(columns[d].Valid());
      }
    }
    OneCalled(columns, c, before, Missing);
  }

  method AddColumn(made: seq<ColumnBuilder>, kind: Kind) returns (next: ColumnBuilder)
    requires Apart(made) && AllValid(made)
    ensures fresh(next) && fresh(next.buffer) && fresh(next.buffer.validity)
    ensures next.buffer.kind == kind && next.history == [] && Apart(made + [next]) && AllValid(made + [next])
  {
    assert UnfoldAt(|made|);
    next := new ColumnBuilder(kind);
    forall c | 0 <= c < |made + [next]| ensures (made + [next])[c].Valid() {
      assert c < |made| ==> (made + [next])[c] == made[c] && made[c].Valid();
    }
  }

  method MakeColumns(kinds: seq<Kind>) returns (made: seq<ColumnBuilder>)
    ensures |made| == |kinds| && Apart(made) && AllValid(made)
    ensures forall c | 0 <= c < |kinds| :: fresh(made[c]) && fresh(made[c].buffer) && fresh(made[c].buffer.validity)
    ensures forall c | 0 <= c < |kinds| :: made[c].buffer.kind == kinds[c] && made[c].history == []
  {
    made := [];
    for k := 0 to |kinds|
      invariant |made| == k && Apart(made) && AllValid(made)
      invariant forall c | 0 <= c < k :: fresh(made[c]) && fresh(made[c].buffer) && fresh(made[c].buffer.validity)
      invariant forall c | 0 <= c < k :: made[c].buffer.kind == kinds[c] && made[c].history == []
    {
      var next := AddColumn(made, kinds[k]);
      made := made + [next];
    }
  }

  /** A column that is short of a row gets a null. */
  method FinishOne(columns: seq<ColumnBuilder>, c: nat, rows: nat)
    requires Apart(columns) && AllValid(columns) && c < |columns|
    modifies columns[c], columns[c].buffer, columns[c].buffer.validity
    ensures AllValid(columns)
    ensures var before := old(TracksOf(columns)); TracksOf(columns) == before[c := FinishedTrack(before[c], rows)]
  {
    ShortColumn(columns, c);
    ghost var before := TracksOf(columns);
    if columns[c].buffer.rowCount < rows + 1 {
      SetNullIn(columns, c);
    } else {
      assert before[c := before[c]] == before;
    }
  }

  method FinishIn(columns: seq<ColumnBuilder>, rows: nat)
    requires Apart(columns) && AllValid(columns)
    modifies columns, Buffers(columns), Bitmaps(columns)
    ensures AllValid(columns) && TracksOf(columns) == FinishedTracks(old(TracksOf(columns)), rows)
  {
    ghost var before := TracksOf(columns);
    ghost var after := FinishedTracks(before, rows);
    for c := 0 to |columns|
      invariant AllValid(columns) && TracksOf(columns) == after[..c] + before[c..]
    {
      ghost var now := TracksOf(columns);
      FinishOne(columns, c, rows);
      OneDone(now, before, after, c);
    }
  }

  /** One more column is done. */
  lemma OneDone(now: seq<Track>, before: seq<Track>, after: seq<Track>, c: nat)
    requires |before| == |after| && c < |before| && now == after[..c] + before[c..]
    ensures now[c] == before[c] && now[c := after[c]] == after[..c + 1] + before[c + 1..]
  {
  }

  lemma ShortColumn(columns: seq<ColumnBuilder>, c: nat)
    requires AllValid(columns) && c < |columns|
    ensures columns[c].buffer.rowCount == |TrackItems(TracksOf(columns)[c])|
  {
    assert UnfoldAt(|columns|);
    assert columns[c].Valid();
  }

  /** One column of a batch: slots, or strings given by offsets into shared bytes, and null flags. */
  datatype ColumnPart =
    | Slots(raws: seq<Bytes>, validity: Option<BitSpan>)
    | Strings(offs: seq<nat>, data: Bytes, validity: Option<BitSpan>)

  ghost predicate PartOk(kind: Kind, p: ColumnPart) {
    match p
    case Slots(raws, validity) =>
      && kind != String && (forall i | 0 <= i < |raws| :: |raws[i]| == SizeOf(kind))
      && (validity.Some? ==> validity.value.Ok() && validity.value.length == |raws|)
    case Strings(offs, data, validity) =>
      && kind == String && TextsOk(offs, data)
      && (validity.Some? ==> validity.value.Ok() && validity.value.length == |offs| - 1)
  }

  function PartRows(kind: Kind, p: ColumnPart): seq<Item>
    requires PartOk(kind, p)
  {
    match p
    case Slots(raws, validity) => BlockRows(raws, validity)
    case Strings(offs, data, validity) => BlockRows(Texts(offs, data), validity)
  }

  method AppendIn(columns: seq<ColumnBuilder>, c: nat, p: ColumnPart)
    requires Apart(columns) && AllValid(columns) && c < |columns| && PartOk(columns[c].buffer.kind, p)
    modifies columns[c], columns[c].buffer, columns[c].buffer.validity
    ensures AllValid(columns)
    ensures TracksOf(columns)
            == CalledOn(old(TracksOf(columns)), c, Block(PartRows(columns[c].buffer.kind, p)))
  {
    assert UnfoldAt(|columns|);
    ghost var before := TracksOf(columns);
    match p {
      case Slots(raws, validity) => columns[c].AppendBlock(raws, validity);
      case Strings(offs, data, validity) => columns[c].AppendTextBlock(offs, data, validity);
    }
    forall d | 0 <= d < |columns| ensures columns[d].Valid() && (d != c ==> columns[d].history == before[d].history) {
      if d != c {
        assert old(columns[d].Valid());
      }
    }
    OneCalled(columns, c, before, Block(PartRows(columns[c].buffer.kind, p)));
  }

  ghost predicate PartsGive(kinds: seq<Kind>, parts: seq<ColumnPart>, blocks: seq<seq<Item>>) {
    && |parts| == |kinds| == |blocks|
    && forall c | 0 <= c < |kinds| :: PartOk(kinds[c], parts[c]) && PartRows(kinds[c], parts[c]) == blocks[c]
  }

  ghost predicate PartFits(kind: Kind, p: ColumnPart, block: seq<Item>) {
    PartOk(kind, p) && PartRows(kind, p) == block
  }

  /** The same, said of the column objects, whose kinds never change. */
  lemma PartsFit(columns: seq<ColumnBuilder>, parts: seq<ColumnPart>, blocks: seq<seq<Item>>)
    requires PartsGive(Kinds(TracksOf(columns)), parts, blocks)
    ensures |parts| == |columns| == |blocks|
    ensures forall c | 0 <= c < |columns| :: PartFits(columns[c].buffer.kind, parts[c], blocks[c])
  {
    var kinds := Kinds(TracksOf(columns));
    forall c | 0 <= c < |columns| ensures PartFits(columns[c].buffer.kind, parts[c], blocks[c]) {
      assert kinds[c] == columns[c].buffer.kind;
    }
  }

  /** A batch, column by column. */
  method AppendAll(columns: seq<ColumnBuilder>, parts: seq<ColumnPart>, ghost blocks: seq<seq<Item>>)
    requires Apart(columns) && AllValid(columns) && PartsGive(Kinds(TracksOf(columns)), parts, blocks)
    modifies columns, Buffers(columns), Bitmaps(columns)
    ensures AllValid(columns) && TracksOf(columns) == Called(old(TracksOf(columns)), AsBlocks(blocks))
  {
    PartsFit(columns, parts, blocks);
    AppendEach(columns, parts, blocks, TracksOf(columns), Called(TracksOf(columns), AsBlocks(blocks)));
  }

  method AppendEach(columns: seq<ColumnBuilder>, parts: seq<ColumnPart>, ghost blocks: seq<seq<Item>>,
                    ghost before: seq<Track>, ghost after: seq<Track>)
    requires Apart(columns) && AllValid(columns) && before == TracksOf(columns)
    requires |parts| == |blocks| == |after| == |columns|
    requires forall c | 0 <= c < |columns| :: PartFits(columns[c].buffer.kind, parts[c], blocks[c])
    requires forall c | 0 <= c < |columns| :: after[c] == Track(before[c].kind, before[c].history + [Block(blocks[c])])
    modifies columns, Buffers(columns), Bitmaps(columns)
    ensures AllValid(columns) && TracksOf(columns) == after
  {
    for c := 0 to |columns|
      invariant AllValid(columns) && TracksOf(columns) == after[..c] + before[c..]
    {
      OneDone(TracksOf(columns), before, after, c);
      AppendIn(columns, c, parts[c]);
    }
  }

  ghost predicate NoneTooLong(columns: seq<ColumnBuilder>)
    reads columns, Buffers(columns)
  {
    forall c | 0 <= c < |columns| :: |columns[c].buffer.values| < TWO32 && columns[c].buffer.rowCount < TWO32
  }

  /** The columns sealed so far show what they were given; kept folded (see Folding). */
  ghost predicate ShownSoFar(cols: seq<SealedColumn>, tracks: seq<Track>) {
    forall n: nat {:trigger UnfoldAt(n)} | n == |cols| ::
      n <= |tracks| && forall d | 0 <= d < n :: ShowsTrack(cols[d], tracks[d])
  }

  lemma ShownNext(cols: seq<SealedColumn>, tracks: seq<Track>, col: SealedColumn)
    requires ShownSoFar(cols, tracks) && |cols| < |tracks| && ShowsTrack(col, tracks[|cols|])
    ensures ShownSoFar(cols + [col], tracks)
  {
    assert UnfoldAt(|cols|);
  }

  lemma ShownAll(cols: seq<SealedColumn>, tracks: seq<Track>)
    requires ShownSoFar(cols, tracks) && |cols| == |tracks|
    ensures AllShow(cols, tracks)
  {
    assert UnfoldAt(|cols|);
  }

  method SealAll(columns: seq<ColumnBuilder>) returns (cols: seq<SealedColumn>)
    requires AllValid(columns) && NoneTooLong(columns)
    ensures AllShow(cols, TracksOf(columns))
  {
    cols := [];
    ghost var tracks := TracksOf(columns);
    for c := 0 to |columns|
      invariant AllValid(columns) && NoneTooLong(columns) && TracksOf(columns) == tracks
      invariant |cols| == c && ShownSoFar(cols, tracks)
    {
      assert UnfoldAt(|columns|);
      var col := SealOne(columns, c);
      ShownNext(cols, tracks, col);
      cols := cols + [col];
    }
    ShownAll(cols, tracks);
  }

  method SealOne(columns: seq<ColumnBuilder>, c: nat) returns (col: SealedColumn)
    requires AllValid(columns) && NoneTooLong(columns) && c < |columns|
    ensures ShowsTrack(col, TracksOf(columns)[c])
  {
    assert UnfoldAt(|columns|);
    assert columns[c].Valid();
    col := columns[c].Seal();
  }

  method FinishColumns(columns: seq<ColumnBuilder>, times: seq<Timestamp>, ghost b: Writer.Builder)
    requires Apart(columns) && AllValid(columns) && RowTracks(b, times, TracksOf(columns)) && b.current.Some?
    modifies columns, Buffers(columns), Bitmaps(columns)
    ensures AllValid(columns)
    ensures RowTracks(b.(rows := b.rows + [Writer.OpenRow(b)], current := None), times + [b.lastTs],
                      TracksOf(columns))
  {
    FinishTracked(b, times, TracksOf(columns));
    RowCount(b, times, TracksOf(columns));
    FinishIn(columns, |times|);
  }

  method AppendColumns(columns: seq<ColumnBuilder>, times: seq<Timestamp>, more: seq<Timestamp>, parts: seq<ColumnPart>,
                       ghost b: Writer.Builder, ghost added: seq<Row>, ghost blocks: seq<seq<Item>>)
    requires Apart(columns) && AllValid(columns) && RowTracks(b, times, TracksOf(columns)) && b.current.None?
    requires more != [] && PartsGive(Kinds(TracksOf(columns)), parts, blocks)
    requires BlocksAre(Kinds(TracksOf(columns)), blocks, more, added)
    modifies columns, Buffers(columns), Bitmaps(columns)
    ensures AllValid(columns)
    ensures RowTracks(b.(rows := b.rows + added, lastTs := more[|more| - 1]), times + more, TracksOf(columns))
  {
    BatchHolds(b, times, TracksOf(columns), more, added, blocks);
    AppendAll(columns, parts, blocks);
  }

  class ChunkBuilder {
    const columns: seq<ColumnBuilder>
    var times: seq<Timestamp>
    var rowOpen: bool
    var currentTime: Timestamp
    var lastTime: Timestamp

    ghost predicate Valid()
      reads this, columns, Buffers(columns), Bitmaps(columns)
    {
      Apart(columns) && AllValid(columns)
    }

    /** The builder of the writer that this object is: its rows, its last time and the row that is open. */
    ghost predicate Holds(b: Writer.Builder)
      reads this, columns
    {
      && RowTracks(b, times, TracksOf(columns)) && lastTime == b.lastTs
      && rowOpen == b.current.Some? && (rowOpen ==> currentTime == b.lastTs)
    }

    /** The writer's new builder. */
    constructor (kinds: seq<Kind>, ghost b: Writer.Builder)
      requires |b.columns| == |kinds| && b.rows == [] && b.lastTs == MIN_TIMESTAMP && b.current.None?
      ensures Valid() && Holds(b) && |columns| == |kinds|
      ensures forall c | 0 <= c < |columns| :: columns[c].buffer.kind == kinds[c]
    {
      var made := MakeColumns(kinds);
      NewTracked(b, TracksOf(made));
      assert UnfoldAt(|made|);
      columns := made;
      times, rowOpen, currentTime, lastTime := [], false, 0, MIN_TIMESTAMP;
    }

    method BeginRow(ts: Timestamp, ghost b: Writer.Builder)
      requires Valid() && Holds(b) && !rowOpen && lastTime <= ts
      modifies this
      ensures Valid() && Holds(b.(lastTs := ts, current := Some(map[])))
    {
      assert UnfoldAt(|columns|);
      BeginTracked(b, times, TracksOf(columns), ts);
      rowOpen, currentTime, lastTime := true, ts, ts;
    }

    /** Sets one value of the open row, in a column that has none in this row yet. */
    method SetFixed(c: nat, bits: nat, ghost b: Writer.Builder, ghost value: Cell)
      requires Valid() && Holds(b) && rowOpen && c < |columns| && c !in b.current.value
      requires columns[c].buffer.kind != String
      requires Fills(columns[c].buffer.kind, One(FixedBytes(bits, SizeOf(columns[c].buffer.kind))), map[c := value], c)
      modifies columns[c], columns[c].buffer, columns[c].buffer.validity
      ensures Valid() && Holds(b.(current := Some(b.current.value[c := value])))
    {
      SetTracked(b, times, TracksOf(columns), c, One(FixedBytes(bits, SizeOf(columns[c].buffer.kind))), value);
      SetFixedIn(columns, c, bits);
    }

    method SetText(c: nat, text: Bytes, ghost b: Writer.Builder, ghost value: Cell)
      requires Valid() && Holds(b) && rowOpen && c < |columns| && c !in b.current.value
      requires columns[c].buffer.kind == String && Fills(String, One(text), map[c := value], c)
      modifies columns[c], columns[c].buffer, columns[c].buffer.validity
      ensures Valid() && Holds(b.(current := Some(b.current.value[c := value])))
    {
      SetTracked(b, times, TracksOf(columns), c, One(text), value);
      SetTextIn(columns, c, text);
    }

    method SetNull(c: nat, ghost b: Writer.Builder)
      requires Valid() && Holds(b) && rowOpen && c < |columns| && c !in b.current.value
      modifies columns[c], columns[c].buffer, columns[c].buffer.validity
      ensures Valid() && Holds(b.(current := Some(b.current.value[c := Null])))
    {
      SetTracked(b, times, TracksOf(columns), c, Missing, Null);
      SetNullIn(columns, c);
    }

    /** Columns that were not set get a null. */
    method FinishRow(ghost b: Writer.Builder)
      requires Valid() && Holds(b) && rowOpen
      modifies this, columns, Buffers(columns), Bitmaps(columns)
      ensures Valid() && Holds(b.(rows := b.rows + [Writer.OpenRow(b)], current := None))
    {
      FinishColumns(columns, times, b);
      times, rowOpen := times + [currentTime], false;
    }

    /** A batch of rows at once. */
    method AppendBatch(more: seq<Timestamp>, parts: seq<ColumnPart>, ghost b: Writer.Builder, ghost added: seq<Row>,
                       ghost blocks: seq<seq<Item>>)
      requires Valid() && Holds(b) && !rowOpen && more != []
      requires PartsGive(Kinds(TracksOf(columns)), parts, blocks)
      requires BlocksAre(Kinds(TracksOf(columns)), blocks, more, added)
      modifies this, columns, Buffers(columns), Bitmaps(columns)
      ensures Valid() && Holds(b.(rows := b.rows + added, lastTs := more[|more| - 1]))
    {
      AppendColumns(columns, times, more, parts, b, added, blocks);
      times, lastTime := times + more, more[|more| - 1];
    }

    /** The sealed columns, which show what every column was given. */
    method Seal(ghost b: Writer.Builder) returns (stamps: seq<Timestamp>, cols: seq<SealedColumn>)
      requires Valid() && Holds(b) && NoneTooLong(columns)
      ensures stamps == times && AllShow(cols, TracksOf(columns)) && RowTracks(b, stamps, TracksOf(columns))
    {
      stamps := times;
      cols := SealAll(columns);
    }
  }

  lemma RowCount(b: Writer.Builder, times: seq<Timestamp>, tracks: seq<Track>)
    requires RowTracks(b, times, tracks)
    ensures |times| == |b.rows|
  {
    RowMeaning(b, times, tracks);
  }

  /** The blocks are the rows to add, column by column. */
  ghost predicate BlocksAre(kinds: seq<Kind>, blocks: seq<seq<Item>>, more: seq<Timestamp>, added: seq<Row>) {
    && |blocks| == |kinds| && |added| == |more| && (forall c | 0 <= c < |blocks| :: |blocks[c]| == |more|)
    && forall i | 0 <= i < |added| :: added[i] == Row(more[i], BlockCells(kinds, blocks, i))
  }

  lemma BatchHolds(b: Writer.Builder, times: seq<Timestamp>, tracks: seq<Track>, more: seq<Timestamp>,
                   added: seq<Row>, blocks: seq<seq<Item>>)
    requires RowTracks(b, times, tracks) && b.current.None? && more != []
    requires BlocksAre(Kinds(tracks), blocks, more, added)
    ensures RowTracks(b.(rows := b.rows + added, lastTs := more[|more| - 1]), times + more,
                      Called(tracks, AsBlocks(blocks)))
  {
    RowMeaning(b, times, tracks);
    BlockTracked(b.rows, times, tracks, added, more, blocks);
    RowMeaning(b.(rows := b.rows + added, lastTs := more[|more| - 1]), times + more, Called(tracks, AsBlocks(blocks)));
  }

  // ---------------------------------------------------------------- what a sealed chunk reads back

  /** What an open row has put into a column lies behind the finished rows. */
  lemma OpenLiesBehind(tr: Track, rows: nat, values: map<nat, Cell>, c: nat, i: nat)
    requires HoldsOpen(tr, rows, values, c) && i < rows
    ensures i < |TrackItems(tr)| && i < |TrackItems(Closed(tr, rows))|
    ensures TrackItems(Closed(tr, rows))[i] == TrackItems(tr)[i]
  {
    if c in values {
      var n := |tr.history| - 1;
      FrontAndLast(tr.history);
      OneEntry(tr.kind, tr.history[..n], tr.history[n]);
    }
  }

  lemma FinishedCells(b: Writer.Builder, times: seq<Timestamp>, tracks: seq<Track>, i: nat)
    requires RowTracks(b, times, tracks) && i < |b.rows|
    ensures |times| == |b.rows| && forall c | 0 <= c < |tracks| :: i < |TrackItems(tracks[c])|
    ensures b.rows[i] == Row(times[i], CellsAt(tracks, i))
  {
    RowMeaning(b, times, tracks);
    if b.current.Some? {
      var closed := AllClosed(tracks, |b.rows|);
      forall c | 0 <= c < |tracks|
        ensures i < |TrackItems(tracks[c])| && i < |TrackItems(closed[c])|
        ensures TrackItems(closed[c])[i] == TrackItems(tracks[c])[i]
      {
        OpenLiesBehind(tracks[c], |b.rows|, b.current.value, c, i);
      }
      assert CellsAt(closed, i) == CellsAt(tracks, i);
    } else {
      assert Aligned(tracks, |b.rows|);
    }
  }

  /**
   * The chunk that a builder becomes holds, row by row, what its sealed columns read back, for columns whose values
   * survive sealing. A row that is still open is not in the chunk, though its values are in the columns.
   */
  lemma SealedReadsBack(h: Writer.Held, t: TopicId, times: seq<Timestamp>, tracks: seq<Track>,
                        cols: seq<SealedColumn>, i: nat)
    requires t in h.builders && RowTracks(h.builders[t], times, tracks) && AllShow(cols, tracks)
    requires forall c | 0 <= c < |tracks| :: Survives(tracks[c])
    requires i < |Writer.NewChunk(h, t).rows|
    ensures |times| == |Writer.NewChunk(h, t).rows| && forall c | 0 <= c < |tracks| :: i < |TrackItems(tracks[c])|
    ensures Writer.NewChunk(h, t).rows[i] == Row(times[i], ReadCells(cols, tracks, i))
  {
    FinishedCells(h.builders[t], times, tracks, i);
    CellsReadBack(cols, tracks, i);
  }
}
