/** What queries over a topic's chunks select: positions in global order. */
module Queries {
  import opened Samples

  /** A row's position: its chunk, and its place in the chunk. */
  datatype Ref = Ref(chunk: nat, row: nat)

  /** Rows from one time to another, both included; with a column, only rows where it has a value. */
  datatype Query = Query(from: Option<Timestamp>, to: Option<Timestamp>, column: Option<nat>)

  predicate IsRow(chunks: seq<Chunk>, p: Ref) {
    p.chunk < |chunks| && p.row < |chunks[p.chunk].rows|
  }

  function RowAt(chunks: seq<Chunk>, p: Ref): Row
    requires IsRow(chunks, p)
  {
    chunks[p.chunk].rows[p.row]
  }

  /** Does the chunk have a value in that column of that row? */
  predicate HasValue(c: Chunk, column: nat, row: Row) {
    column < |c.columns| && column < |row.cells| && row.cells[column] != Null
  }

  predicate InTime(q: Query, ts: Timestamp) {
    (q.from.Some? ==> q.from.value <= ts) && (q.to.Some? ==> ts <= q.to.value)
  }

  predicate Selects(q: Query, c: Chunk, row: Row) {
    InTime(q, row.ts) && (q.column.Some? ==> HasValue(c, q.column.value, row))
  }

  /** The selected rows from position (c, r) on. */
  function Hits(chunks: seq<Chunk>, q: Query, c: nat, r: nat): (hits: seq<Ref>)
    decreases |chunks| - c, if c < |chunks| then |chunks[c].rows| - r else 0
  {
    if c >= |chunks| then []
    else if r >= |chunks[c].rows| then Hits(chunks, q, c + 1, 0)
    else if Selects(q, chunks[c], chunks[c].rows[r]) then [Ref(c, r)] + Hits(chunks, q, c, r + 1)
    else Hits(chunks, q, c, r + 1)
  }

  predicate Earlier(a: Ref, b: Ref) {
    a.chunk < b.chunk || (a.chunk == b.chunk && a.row < b.row)
  }

  /** Selected rows at or after (c, r), in global order, none twice. */
  predicate Listed(chunks: seq<Chunk>, q: Query, hits: seq<Ref>, c: nat, r: nat) {
    && (forall i | 0 <= i < |hits| :: IsHit(chunks, q, hits[i]) && !Earlier(hits[i], Ref(c, r)))
    && (forall i, j | 0 <= i < j < |hits| :: Earlier(hits[i], hits[j]))
  }

  lemma {:induction false} HitsSound(chunks: seq<Chunk>, q: Query, c: nat, r: nat)
    ensures Listed(chunks, q, Hits(chunks, q, c, r), c, r)
    decreases |chunks| - c, if c < |chunks| then |chunks[c].rows| - r else 0
  {
    if c < |chunks| {
      if r >= |chunks[c].rows| {
        HitsSound(chunks, q, c + 1, 0);
        ListedFrom(chunks, q, Hits(chunks, q, c + 1, 0), c + 1, 0, c, r);
      } else {
        HitsSound(chunks, q, c, r + 1);
        ListedFrom(chunks, q, Hits(chunks, q, c, r + 1), c, r + 1, c, r);
      }
    }
  }

  lemma ListedFrom(chunks: seq<Chunk>, q: Query, hits: seq<Ref>, c: nat, r: nat, c': nat, r': nat)
    requires Listed(chunks, q, hits, c, r) && Earlier(Ref(c', r'), Ref(c, r))
    ensures Listed(chunks, q, hits, c', r')
    ensures IsHit(chunks, q, Ref(c', r')) ==> Listed(chunks, q, [Ref(c', r')] + hits, c', r')
  {
    forall i | 0 <= i < |hits| ensures Earlier(Ref(c', r'), hits[i]) {
      assert !Earlier(hits[i], Ref(c, r));
    }
  }

  predicate IsHit(chunks: seq<Chunk>, q: Query, p: Ref) {
    IsRow(chunks, p) && Selects(q, chunks[p.chunk], RowAt(chunks, p))
  }

  /** No selected row is missed. */
  lemma {:induction false} HitsComplete(chunks: seq<Chunk>, q: Query, c: nat, r: nat, p: Ref)
    requires IsHit(chunks, q, p) && !Earlier(p, Ref(c, r))
    ensures p in Hits(chunks, q, c, r)
    decreases |chunks| - c, if c < |chunks| then |chunks[c].rows| - r else 0
  {
    if r >= |chunks[c].rows| {
      HitsComplete(chunks, q, c + 1, 0, p);
    } else if p != Ref(c, r) {
      HitsComplete(chunks, q, c, r + 1, p);
    }
  }

  // ---------------------------------------------------------------- committed chunks

  /** Non-empty, sorted chunks, each starting no earlier than the ones before it end. */
  ghost predicate Timeline(chunks: seq<Chunk>) {
    && (forall c | 0 <= c < |chunks| :: Sealed(chunks[c]))
    && (forall c, d | 0 <= c < d < |chunks| :: TMax(chunks[c]) <= TMin(chunks[d]))
  }

  /** What storage keeps in order is a timeline. */
  lemma {:induction false} OrderedTimeline(chunks: seq<Chunk>)
    requires Ordered(chunks)
    ensures Timeline(chunks)
  {
    if chunks != [] {
      var n := |chunks| - 1;
      var front := chunks[..n];
      OrderedTimeline(front);
      forall c | 0 <= c < n ensures TMax(chunks[c]) <= TMin(chunks[n]) {
        assert front[c] == chunks[c] && front[n - 1] == chunks[n - 1];
        ChunkSpan(front[n - 1]);
        assert c < n - 1 ==> TMax(front[c]) <= TMin(front[n - 1]);
      }
      forall c, d | 0 <= c < d < |chunks| ensures TMax(chunks[c]) <= TMin(chunks[d]) {
        assert d < n ==> front[c] == chunks[c] && front[d] == chunks[d];
      }
    }
  }

  lemma ChunkSpan(c: Chunk)
    requires Sealed(c)
    ensures TMin(c) <= TMax(c) && forall r | 0 <= r < |c.rows| :: TMin(c) <= c.rows[r].ts <= TMax(c)
  {
    SortedMeaning(c.rows);
  }

  /** Time never goes back along the global order. */
  lemma TimeRises(chunks: seq<Chunk>, a: Ref, b: Ref)
    requires Timeline(chunks) && IsRow(chunks, a) && IsRow(chunks, b) && Earlier(a, b)
    ensures RowAt(chunks, a).ts <= RowAt(chunks, b).ts
  {
    ChunkSpan(chunks[a.chunk]);
    ChunkSpan(chunks[b.chunk]);
    SortedMeaning(chunks[a.chunk].rows);
  }

  /** Rows before the start of the query do not matter. */
  lemma {:induction false} SkipEarly(chunks: seq<Chunk>, q: Query, c: nat, r: nat, c': nat, r': nat)
    requires q.from.Some? && c' <= |chunks| && (c' < |chunks| ==> r' <= |chunks[c'].rows|)
    requires c < c' || (c == c' && r <= r')
    requires forall p | IsRow(chunks, p) && !Earlier(p, Ref(c, r)) && Earlier(p, Ref(c', r')) ::
               RowAt(chunks, p).ts < q.from.value
    ensures Hits(chunks, q, c, r) == Hits(chunks, q, c', r')
    decreases |chunks| - c, if c < |chunks| then |chunks[c].rows| - r else 0
  {
    if c == c' && r == r' {
    } else if c < |chunks| {
      if r >= |chunks[c].rows| {
        SkipEarly(chunks, q, c + 1, 0, c', r');
      } else {
        assert RowAt(chunks, Ref(c, r)).ts < q.from.value;
        SkipEarly(chunks, q, c, r + 1, c', r');
      }
    }
  }

  /** From a row past the end of the query on, nothing is selected. */
  lemma {:induction false} StopLate(chunks: seq<Chunk>, q: Query, c: nat, r: nat)
    requires Timeline(chunks) && IsRow(chunks, Ref(c, r)) && q.to.Some? && chunks[c].rows[r].ts > q.to.value
    ensures Hits(chunks, q, c, r) == []
  {
    HitsSound(chunks, q, c, r);
    var hits := Hits(chunks, q, c, r);
    assert Listed(chunks, q, hits, c, r);
    if hits != [] {
      var p := hits[0];
      assert IsHit(chunks, q, p) && !Earlier(p, Ref(c, r));
      if p != Ref(c, r) {
        TimeRises(chunks, Ref(c, r), p);
      }
    }
  }

  // ---------------------------------------------------------------- positions and rows

  /** The rows at the given positions. */
  function RowsAt(chunks: seq<Chunk>, refs: seq<Ref>): seq<Row>
    requires forall i | 0 <= i < |refs| :: IsRow(chunks, refs[i])
  {
    if refs == [] then [] else [RowAt(chunks, refs[0])] + RowsAt(chunks, refs[1..])
  }

  function HitRows(chunks: seq<Chunk>, q: Query, c: nat, r: nat): seq<Row> {
    HitsSound(chunks, q, c, r);
    assert Listed(chunks, q, Hits(chunks, q, c, r), c, r);
    RowsAt(chunks, Hits(chunks, q, c, r))
  }

  /** The rows in the query's time, in the order given. */
  function Picked(q: Query, rows: seq<Row>): seq<Row> {
    if rows == [] then []
    else (if InTime(q, rows[0].ts) then [rows[0]] else []) + Picked(q, rows[1..])
  }

  /** The topic's rows from position (c, r) on. */
  function RowsFrom(chunks: seq<Chunk>, c: nat, r: nat): seq<Row> {
    if c >= |chunks| then []
    else (if r <= |chunks[c].rows| then chunks[c].rows[r..] else []) + Flatten(chunks[c + 1..])
  }

  lemma RowsFromNext(chunks: seq<Chunk>, c: nat, r: nat)
    requires c < |chunks|
    ensures r >= |chunks[c].rows| ==> RowsFrom(chunks, c, r) == RowsFrom(chunks, c + 1, 0)
    ensures r < |chunks[c].rows| ==> RowsFrom(chunks, c, r) == [chunks[c].rows[r]] + RowsFrom(chunks, c, r + 1)
  {
    if r < |chunks[c].rows| {
      assert chunks[c].rows[r..] == [chunks[c].rows[r]] + chunks[c].rows[r + 1..];
      Assoc([chunks[c].rows[r]], chunks[c].rows[r + 1..], Flatten(chunks[c + 1..]));
    } else {
      StartOfChunk(chunks, c + 1);
    }
  }

  lemma StartOfChunk(chunks: seq<Chunk>, c: nat)
    requires c <= |chunks|
    ensures RowsFrom(chunks, c, 0) == Flatten(chunks[c..])
  {
    if c < |chunks| {
      assert chunks[c..] == [chunks[c]] + chunks[c + 1..];
      FlattenConcat([chunks[c]], chunks[c + 1..]);
      assert Flatten([chunks[c]]) == chunks[c].rows;
    }
  }

  /** A time query selects exactly the topic's rows of that time, once each and in the stored order. */
  lemma {:induction false} HitsArePicked(chunks: seq<Chunk>, q: Query, c: nat, r: nat)
    requires q.column.None?
    ensures HitRows(chunks, q, c, r) == Picked(q, RowsFrom(chunks, c, r))
    decreases |chunks| - c, if c < |chunks| then |chunks[c].rows| - r else 0
  {
    if c < |chunks| {
      RowsFromNext(chunks, c, r);
      if r >= |chunks[c].rows| {
        HitsArePicked(chunks, q, c + 1, 0);
      } else {
        HitsArePicked(chunks, q, c, r + 1);
        PickOne(chunks, q, c, r);
      }
    }
  }

  lemma PickOne(chunks: seq<Chunk>, q: Query, c: nat, r: nat)
    requires q.column.None? && IsRow(chunks, Ref(c, r))
    ensures HitRows(chunks, q, c, r)
              == (if InTime(q, chunks[c].rows[r].ts) then [chunks[c].rows[r]] else []) + HitRows(chunks, q, c, r + 1)
    ensures Picked(q, [chunks[c].rows[r]] + RowsFrom(chunks, c, r + 1))
            == (if InTime(q, chunks[c].rows[r].ts) then [chunks[c].rows[r]] else [])
                + Picked(q, RowsFrom(chunks, c, r + 1))
  {
    var rest := RowsFrom(chunks, c, r + 1);
    assert ([chunks[c].rows[r]] + rest)[1..] == rest;
    var hits := Hits(chunks, q, c, r + 1);
    assert ([Ref(c, r)] + hits)[1..] == hits;
  }

  lemma QueryOfTopic(chunks: seq<Chunk>, q: Query)
    requires q.column.None?
    ensures HitRows(chunks, q, 0, 0) == Picked(q, Flatten(chunks))
  {
    HitsArePicked(chunks, q, 0, 0);
    StartOfChunk(chunks, 0);
    assert chunks[0..] == chunks;
  }
}
