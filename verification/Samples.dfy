/** Rows, chunks and their time order: the vocabulary shared by storage, queries and the derived engine. */
module Samples {

  /** Nanoseconds since the epoch; the program stores them as signed 64-bit integers. */
  type Timestamp = int

  const MIN_TIMESTAMP: Timestamp := -0x8000_0000_0000_0000
  const MAX_TIMESTAMP: Timestamp := 0x7FFF_FFFF_FFFF_FFFF

  datatype Option<+T> = None | Some(value: T)

  datatype Result<+T> = Ok(value: T) | Err(message: string)

  /** One stored column value: null, a fixed-width bit pattern, or text. */
  datatype Cell = Null | Fixed(bits: nat) | Text(chars: string)

  datatype Row = Row(ts: Timestamp, cells: seq<Cell>)

  /** A column of a topic: its id, its field path and its logical type. */
  datatype Column = Column(fieldId: nat, path: string, logicalType: nat)

  /** A sealed chunk, seen as the rows it reads back. */
  datatype Chunk = Chunk(id: nat, columns: seq<Column>, rows: seq<Row>)

  /** The value of the first column, which is the only one a derived node reads. */
  function FirstCell(row: Row): Cell {
    if row.cells == [] then Null else row.cells[0]
  }

  predicate NotBefore(rows: seq<Row>, ts: Timestamp) {
    rows == [] || rows[|rows| - 1].ts <= ts
  }

  predicate NoLater(a: Row, b: Row) {
    a.ts <= b.ts
  }

  /** Time order, equal timestamps allowed. */
  ghost predicate Sorted(rows: seq<Row>) {
    forall i, j {:trigger NoLater(rows[i], rows[j])} | 0 <= i < j < |rows| :: NoLater(rows[i], rows[j])
  }

  lemma SortedMeaning(rows: seq<Row>)
    ensures Sorted(rows) <==> forall i, j | 0 <= i < j < |rows| :: rows[i].ts <= rows[j].ts
  {
    if Sorted(rows) {
      forall i, j | 0 <= i < j < |rows| ensures rows[i].ts <= rows[j].ts {
        assert NoLater(rows[i], rows[j]);
      }
    }
  }

  lemma SortedFront(rows: seq<Row>)
    requires Sorted(rows) && rows != []
    ensures Sorted(rows[..|rows| - 1]) && NotBefore(rows[..|rows| - 1], rows[|rows| - 1].ts)
  {
    SortedMeaning(rows);
    SortedMeaning(rows[..|rows| - 1]);
  }

  lemma SortedConcat(a: seq<Row>, b: seq<Row>)
    requires Sorted(a) && Sorted(b) && (b != [] ==> NotBefore(a, b[0].ts))
    ensures Sorted(a + b)
  {
    SortedMeaning(a);
    SortedMeaning(b);
    var both := a + b;
    forall i, j | 0 <= i < j < |both| ensures both[i].ts <= both[j].ts {
      if i < |a| <= j {
        assert a[i].ts <= a[|a| - 1].ts <= b[0].ts <= b[j - |a|].ts;
      }
    }
    SortedMeaning(both);
  }

  ghost predicate StrictlySorted(rows: seq<Row>) {
    forall i, j | 0 <= i < j < |rows| :: rows[i].ts < rows[j].ts
  }

  /** What a chunk made by a writer satisfies. */
  ghost predicate Sealed(c: Chunk) {
    c.rows != [] && Sorted(c.rows)
  }

  /** First and last timestamp of a chunk; an empty chunk keeps the builder's initial statistics. */
  function TMin(c: Chunk): Timestamp {
    if c.rows == [] then MAX_TIMESTAMP else c.rows[0].ts
  }

  function TMax(c: Chunk): Timestamp {
    if c.rows == [] then MIN_TIMESTAMP else c.rows[|c.rows| - 1].ts
  }

  lemma Assoc<T>(x: seq<T>, y: seq<T>, z: seq<T>)
    ensures x + (y + z) == (x + y) + z
  {
  }

  lemma FrontAndLast<T>(s: seq<T>)
    requires s != []
    ensures s == s[..|s| - 1] + [s[|s| - 1]]
  {
  }

  lemma ConcatFront<T>(a: seq<T>, b: seq<T>)
    requires b != []
    ensures (a + b)[..|a + b| - 1] == a + b[..|b| - 1] && (a + b)[|a + b| - 1] == b[|b| - 1]
  {
  }

  /** One more element of a prefix. */
  lemma PrefixNext<T>(s: seq<T>, i: nat)
    requires i < |s|
    ensures s[..i + 1] == s[..i] + [s[i]]
  {
  }

  lemma Halves<T>(s: seq<T>, i: nat)
    requires i <= |s|
    ensures s == s[..i] + s[i..]
  {
  }

  /** All rows of a topic, in global order. */
  function Flatten(chunks: seq<Chunk>): seq<Row> {
    if chunks == [] then [] else Flatten(chunks[..|chunks| - 1]) + chunks[|chunks| - 1].rows
  }

  /** Every chunk is sealed and starts no earlier than the one before it ends. */
  ghost predicate Ordered(chunks: seq<Chunk>) {
    chunks == [] ||
    var front, last := chunks[..|chunks| - 1], chunks[|chunks| - 1];
    Sealed(last) && Ordered(front) && (front != [] ==> EndOf(front) <= TMin(last))
  }

  /** The last timestamp of a non-empty topic. */
  function EndOf(chunks: seq<Chunk>): Timestamp
    requires chunks != []
  {
    TMax(chunks[|chunks| - 1])
  }

  predicate IdBelow(a: Chunk, b: Chunk) {
    a.id < b.id
  }

  predicate Numbered(c: Chunk) {
    0 < c.id
  }

  /** Chunk ids are positive and rise in commit order. */
  ghost predicate Rising(chunks: seq<Chunk>) {
    && (forall i {:trigger Numbered(chunks[i])} | 0 <= i < |chunks| :: Numbered(chunks[i]))
    && (forall i, j {:trigger IdBelow(chunks[i], chunks[j])} | 0 <= i < j < |chunks| :: IdBelow(chunks[i], chunks[j]))
  }

  lemma RisingMeaning(chunks: seq<Chunk>)
    ensures Rising(chunks) <==>
              (forall i | 0 <= i < |chunks| :: 0 < chunks[i].id)
              && (forall i, j | 0 <= i < j < |chunks| :: chunks[i].id < chunks[j].id)
  {
    if Rising(chunks) {
      forall i | 0 <= i < |chunks| ensures 0 < chunks[i].id {
        assert Numbered(chunks[i]);
      }
      forall i, j | 0 <= i < j < |chunks| ensures chunks[i].id < chunks[j].id {
        assert IdBelow(chunks[i], chunks[j]);
      }
    }
  }

  lemma RisingFront(chunks: seq<Chunk>)
    requires Rising(chunks) && chunks != []
    ensures Rising(chunks[..|chunks| - 1]) && LastId(chunks[..|chunks| - 1]) < LastId(chunks)
  {
    RisingMeaning(chunks);
    RisingMeaning(chunks[..|chunks| - 1]);
  }

  lemma RisingConcat(a: seq<Chunk>, b: seq<Chunk>)
    requires Rising(a) && Rising(b) && (b != [] ==> LastId(a) < b[0].id)
    ensures Rising(a + b)
  {
    RisingMeaning(a);
    RisingMeaning(b);
    forall i, j | 0 <= i < |a| && 0 <= j < |b| ensures a[i].id < b[j].id {
      assert a[i].id <= a[|a| - 1].id < b[0].id <= b[j].id;
    }
    IdsAcross(a, b);
    RisingMeaning(a + b);
  }

  lemma IdsAcross(a: seq<Chunk>, b: seq<Chunk>)
    requires (forall i, j | 0 <= i < j < |a| :: a[i].id < a[j].id)
               && (forall i, j | 0 <= i < j < |b| :: b[i].id < b[j].id)
    requires forall i, j | 0 <= i < |a| && 0 <= j < |b| :: a[i].id < b[j].id
    ensures forall i, j | 0 <= i < j < |a + b| :: (a + b)[i].id < (a + b)[j].id
  {
  }

  function LastId(chunks: seq<Chunk>): nat {
    if chunks == [] then 0 else chunks[|chunks| - 1].id
  }

  lemma {:induction false} FlattenConcat(a: seq<Chunk>, b: seq<Chunk>)
    ensures Flatten(a + b) == Flatten(a) + Flatten(b)
  {
    if b == [] {
      assert a + b == a;
    } else {
      FlattenConcat(a, b[..|b| - 1]);
      ConcatFront(a, b);
      Assoc(Flatten(a), Flatten(b[..|b| - 1]), b[|b| - 1].rows);
    }
  }

  lemma FlattenPush(chunks: seq<Chunk>, c: Chunk)
    ensures Flatten(chunks + [c]) == Flatten(chunks) + c.rows
  {
    ConcatFront(chunks, [c]);
  }

  lemma FlattenLast(chunks: seq<Chunk>)
    requires Ordered(chunks) && chunks != []
    ensures Flatten(chunks) != []
    ensures Flatten(chunks)[|Flatten(chunks)| - 1].ts == EndOf(chunks)
  {
  }

  /** A topic whose chunks are ordered is sorted as a whole. */
  lemma {:induction false} OrderedSorted(chunks: seq<Chunk>)
    requires Ordered(chunks)
    ensures Sorted(Flatten(chunks))
  {
    if chunks != [] {
      var front, last := chunks[..|chunks| - 1], chunks[|chunks| - 1];
      OrderedSorted(front);
      if front != [] { FlattenLast(front); }
      SortedConcat(Flatten(front), last.rows);
    }
  }

  /** Ids appended to a rising topic are all above the ids it had. */
  lemma RisingAbove(chunks: seq<Chunk>, added: seq<Chunk>)
    requires Rising(chunks + added)
    ensures Rising(chunks) && LastId(chunks) <= LastId(chunks + added)
    ensures forall i | 0 <= i < |added| :: LastId(chunks) < added[i].id
  {
    var both := chunks + added;
    RisingMeaning(both);
    assert both[..|chunks|] == chunks;
    forall i, j | 0 <= i < j < |chunks| ensures chunks[i].id < chunks[j].id {
      assert both[i] == chunks[i] && both[j] == chunks[j];
    }
    RisingMeaning(chunks);
    forall i | 0 <= i < |added| ensures LastId(chunks) < added[i].id {
      assert both[|chunks| + i] == added[i];
      assert chunks != [] ==> both[|chunks| - 1] == chunks[|chunks| - 1];
    }
  }

  type TopicId = nat

  /** The committed chunks of every topic. */
  type Store = map<TopicId, seq<Chunk>>

  function ChunksOf(store: Store, t: TopicId): seq<Chunk> {
    if t in store then store[t] else []
  }

  /** The committed rows of a topic, in global order. */
  function History(store: Store, t: TopicId): seq<Row> {
    if t in store then Flatten(store[t]) else []
  }
}
