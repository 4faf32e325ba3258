/** The cursor over a time range, and the lookup of the latest row. */
module RangeCursors {
  import opened Orders
  import opened Folding
  import opened Samples
  import opened Searching
  import opened Queries

  /** A run of rows of one chunk: from `first` up to, but not including, `end`. */
  datatype Span = Span(chunk: nat, first: nat, end: nat)

  function SpanRefs(s: Span): (refs: seq<Ref>)
    ensures |refs| == if s.first < s.end then s.end - s.first else 0
    decreases s.end - s.first
  {
    if s.first >= s.end then [] else [Ref(s.chunk, s.first)] + SpanRefs(s.(first := s.first + 1))
  }

  function AllRefs(spans: seq<Span>): seq<Ref> {
    if spans == [] then [] else AllRefs(spans[..|spans| - 1]) + SpanRefs(spans[|spans| - 1])
  }

  lemma AllRefsMore(spans: seq<Span>, s: Span)
    ensures AllRefs(spans + [s]) == AllRefs(spans) + SpanRefs(s)
  {
    assert (spans + [s])[..|spans|] == spans;
  }

  function Ends(chunks: seq<Chunk>): (keys: seq<Timestamp>)
    ensures |keys| == |chunks| && forall i | 0 <= i < |chunks| :: keys[i] == TMax(chunks[i])
  {
    seq(|chunks|, i requires 0 <= i < |chunks| => TMax(chunks[i]))
  }

  function Starts(chunks: seq<Chunk>): (keys: seq<Timestamp>)
    ensures |keys| == |chunks| && forall i | 0 <= i < |chunks| :: keys[i] == TMin(chunks[i])
  {
    seq(|chunks|, i requires 0 <= i < |chunks| => TMin(chunks[i]))
  }

  function Times(c: Chunk): (keys: seq<Timestamp>)
    ensures |keys| == |c.rows| && forall i | 0 <= i < |c.rows| :: keys[i] == c.rows[i].ts
  {
    seq(|c.rows|, i requires 0 <= i < |c.rows| => c.rows[i].ts)
  }

  lemma KeysInOrder(chunks: seq<Chunk>)
    requires Timeline(chunks)
    ensures InOrder(Ends(chunks)) && InOrder(Starts(chunks))
  {
    forall i, j | 0 <= i < j < |chunks|
        ensures TMax(chunks[i]) <= TMax(chunks[j]) && TMin(chunks[i]) <= TMin(chunks[j]) {
      ChunkSpan(chunks[i]);
      ChunkSpan(chunks[j]);
    }
  }

  lemma TimesInOrder(c: Chunk)
    requires Sealed(c)
    ensures InOrder(Times(c))
  {
    SortedMeaning(c.rows);
  }

  function Between(lo: Timestamp, hi: Timestamp): Query {
    Query(Some(lo), Some(hi), None)
  }

  /** Where the binary searches of the constructor lead: everything before is too early. */
  lemma SearchSkipsEarly(chunks: seq<Chunk>, q: Query, c: nat, r: nat)
    requires Timeline(chunks) && q.from.Some? && c <= |chunks|
    requires forall i | 0 <= i < c :: TMax(chunks[i]) < q.from.value
    requires if c == |chunks| then r == 0
               else r <= |chunks[c].rows| && forall i | 0 <= i < r :: chunks[c].rows[i].ts < q.from.value
    ensures Hits(chunks, q, 0, 0) == Hits(chunks, q, c, r)
  {
    forall p | IsRow(chunks, p) && !Earlier(p, Ref(0, 0)) && Earlier(p, Ref(c, r))
        ensures RowAt(chunks, p).ts < q.from.value {
      if p.chunk < c {
        ChunkSpan(chunks[p.chunk]);
      }
    }
    SkipEarly(chunks, q, 0, 0, c, r);
  }

  class RangeCursor {
    const chunks: seq<Chunk>
    const lo: Timestamp
    const hi: Timestamp
    var chunkIndex: nat
    var rowIndex: nat

    /** Either exhausted, or on a row of the range. */
    ghost predicate Valid()
      reads this
    {
      && Timeline(chunks) && chunkIndex <= |chunks|
      && (chunkIndex < |chunks| ==> IsHit(chunks, Between(lo, hi), Ref(chunkIndex, rowIndex)))
    }

    /** The rows still to come. */
    ghost function Remaining(): seq<Ref>
      reads this
    {
      Hits(chunks, Between(lo, hi), chunkIndex, rowIndex)
    }

    constructor (chunks: seq<Chunk>, lo: Timestamp, hi: Timestamp)
      requires Timeline(chunks)
      ensures Valid() && this.chunks == chunks && this.lo == lo && this.hi == hi
      ensures Remaining() == Hits(chunks, Between(lo, hi), 0, 0)
    {
      this.chunks, this.lo, this.hi := chunks, lo, hi;
      chunkIndex, rowIndex := 0, 0;
      new;
      FindFirstValid();
    }

    method FindFirstValid()
      requires Timeline(chunks)
      modifies this
      ensures Valid() && Remaining() == Hits(chunks, Between(lo, hi), 0, 0)
    {
      KeysInOrder(chunks);
      chunkIndex := LowerBound(Ends(chunks), lo);
      rowIndex := 0;
      if chunkIndex == |chunks| {
        SearchSkipsEarly(chunks, Between(lo, hi), |chunks|, 0);
        return;
      }
      TimesInOrder(chunks[chunkIndex]);
      ChunkSpan(chunks[chunkIndex]);
      rowIndex := LowerBound(Times(chunks[chunkIndex]), lo);
      assert chunks[chunkIndex].rows[|chunks[chunkIndex].rows| - 1].ts >= lo;
      SearchSkipsEarly(chunks, Between(lo, hi), chunkIndex, rowIndex);
      if chunks[chunkIndex].rows[rowIndex].ts > hi {
        StopLate(chunks, Between(lo, hi), chunkIndex, rowIndex);
        chunkIndex := |chunks|;
        rowIndex := 0;
      }
    }

    predicate AtRow()
      requires Valid()
      reads this
      ensures AtRow() <==> Remaining() != []
    {
      chunkIndex < |chunks|
    }

    method Current() returns (p: Ref)
      requires Valid() && Remaining() != []
      ensures p == Remaining()[0]
    {
      p := Ref(chunkIndex, rowIndex);
    }

    method Advance()
      requires Valid() && Remaining() != []
      modifies this
      ensures Valid() && Remaining() == old(Remaining())[1..]
    {
      ghost var q := Between(lo, hi);
      assert Remaining() == [Ref(chunkIndex, rowIndex)] + Hits(chunks, q, chunkIndex, rowIndex + 1);
      ghost var here := Ref(chunkIndex, rowIndex);
      rowIndex := rowIndex + 1;
      if rowIndex >= |chunks[chunkIndex].rows| {
        chunkIndex := chunkIndex + 1;
        rowIndex := 0;
      }
      SkipToValid(here);
    }

    /** Stops at the first row past the range. */
    method SkipToValid(ghost before: Ref)
      requires Timeline(chunks) && chunkIndex <= |chunks|
                 && (chunkIndex < |chunks| ==> IsRow(chunks, Ref(chunkIndex, rowIndex)))
      requires IsHit(chunks, Between(lo, hi), before) && Earlier(before, Ref(chunkIndex, rowIndex))
      modifies this
      ensures Valid() && Remaining() == old(Remaining())
    {
      if chunkIndex >= |chunks| {
        return;
      }
      TimeRises(chunks, before, Ref(chunkIndex, rowIndex));
      if chunks[chunkIndex].rows[rowIndex].ts > hi {
        StopLate(chunks, Between(lo, hi), chunkIndex, rowIndex);
        chunkIndex := |chunks|;
      }
    }

    /** Visits every row still to come. */
    method ForEach() returns (visited: seq<Ref>)
      requires Valid()
      modifies this
      ensures Valid() && visited == old(Remaining()) && Remaining() == []
    {
      visited := [];
      while AtRow()
        invariant Valid() && visited + Remaining() == old(Remaining())
        decreases |Remaining()|
      {
        var p := Current();
        Assoc(visited, [p], Remaining()[1..]);
        assert Remaining() == [p] + Remaining()[1..];
        visited := visited + [p];
        Advance();
      }
    }

    /** Visits the rows still to come a run at a time. */
    method ForEachChunk() returns (spans: seq<Span>)
      requires Valid()
      modifies this
      ensures Valid() && AllRefs(spans) == old(Remaining()) && Remaining() == []
      ensures Apart(spans, |chunks|)
    {
      spans := [];
      var more := true;
      SweptMeaning(chunks, Between(lo, hi), spans, Remaining(), chunkIndex, rowIndex);
      while more && chunkIndex < |chunks|
        invariant Swept(chunks, Between(lo, hi), spans, old(Remaining()), chunkIndex, rowIndex)
        invariant !more ==> Remaining() == []
        decreases more, |chunks| - chunkIndex
      {
        spans, more := SweepChunk(spans, old(Remaining()));
      }
      SweptMeaning(chunks, Between(lo, hi), spans, old(Remaining()), chunkIndex, rowIndex);
      assert Remaining() == [];
      chunkIndex := |chunks|;
    }

    /** One chunk of the sweep; `all` is everything the sweep visits. */
    method SweepChunk(spans: seq<Span>, ghost all: seq<Ref>) returns (spans': seq<Span>, more: bool)
      requires Swept(chunks, Between(lo, hi), spans, all, chunkIndex, rowIndex) && chunkIndex < |chunks|
      modifies this
      ensures Swept(chunks, Between(lo, hi), spans', all, chunkIndex, rowIndex)
      ensures if more then chunkIndex == old(chunkIndex) + 1 else Remaining() == []
    {
      ghost var q := Between(lo, hi);
      SweptMeaning(chunks, q, spans, all, chunkIndex, rowIndex);
      spans', more := spans, true;
      if TMax(chunks[chunkIndex]) < lo {
        SweptEarly(chunks, q, spans, all, chunkIndex, rowIndex);
        chunkIndex := chunkIndex + 1;
      } else if TMin(chunks[chunkIndex]) > hi {
        SweptLate(chunks, q, spans, all, chunkIndex, rowIndex);
        more := false;
      } else {
        spans' := SweepRows(spans, all);
      }
    }

    /** The rows of the current chunk that lie in the range, if any, as one run. */
    method SweepRows(spans: seq<Span>, ghost all: seq<Ref>) returns (spans': seq<Span>)
      requires Swept(chunks, Between(lo, hi), spans, all, chunkIndex, rowIndex) && chunkIndex < |chunks|
      modifies this
      ensures Swept(chunks, Between(lo, hi), spans', all, chunkIndex, rowIndex) && chunkIndex == old(chunkIndex) + 1
    {
      SweptMeaning(chunks, Between(lo, hi), spans, all, chunkIndex, rowIndex);
      var first, end := RowsInRange();
      SweptRun(chunks, Between(lo, hi), spans, all, chunkIndex, rowIndex, first, end);
      spans' := WithRun(spans, Span(chunkIndex, first, end));
      chunkIndex := chunkIndex + 1;
      rowIndex := 0;
    }

    /** The rows of the current chunk, from the current row on, that lie in the range. */
    method RowsInRange() returns (first: nat, end: nat)
      requires Timeline(chunks) && chunkIndex < |chunks|
      requires rowIndex == 0 || IsHit(chunks, Between(lo, hi), Ref(chunkIndex, rowIndex))
      ensures rowIndex <= first <= end <= |chunks[chunkIndex].rows|
      ensures IsRun(chunks[chunkIndex].rows, Between(lo, hi), rowIndex, first, end)
    {
      first := rowIndex;
      while first < |chunks[chunkIndex].rows| && chunks[chunkIndex].rows[first].ts < lo
        invariant rowIndex <= first <= |chunks[chunkIndex].rows|
        invariant forall r | rowIndex <= r < first :: chunks[chunkIndex].rows[r].ts < lo
      {
        first := first + 1;
      }
      end := first;
      SortedMeaning(chunks[chunkIndex].rows);
      while end < |chunks[chunkIndex].rows| && chunks[chunkIndex].rows[end].ts <= hi
        invariant first <= end <= |chunks[chunkIndex].rows|
        invariant forall r | first <= r < end :: lo <= chunks[chunkIndex].rows[r].ts <= hi
      {
        end := end + 1;
      }
    }
  }

  /** Rows r up to `first` are too early, up to `end` in range, and `end` is too late or past the chunk. */
  predicate IsRun(rows: seq<Row>, q: Query, r: nat, first: nat, end: nat)
    requires r <= first <= end <= |rows| && q.from.Some? && q.to.Some?
  {
    && (forall i | r <= i < first :: rows[i].ts < q.from.value)
    && (forall i | first <= i < end :: InTime(q, rows[i].ts))
    && (end < |rows| ==> rows[end].ts > q.to.value)
  }

  lemma SkipChunk(chunks: seq<Chunk>, q: Query, c: nat)
    requires Timeline(chunks) && c < |chunks| && q.from.Some? && TMax(chunks[c]) < q.from.value
    ensures Hits(chunks, q, c, 0) == Hits(chunks, q, c + 1, 0)
  {
    forall p | IsRow(chunks, p) && !Earlier(p, Ref(c, 0)) && Earlier(p, Ref(c + 1, 0))
        ensures RowAt(chunks, p).ts < q.from.value {
      ChunkSpan(chunks[c]);
    }
    SkipEarly(chunks, q, c, 0, c + 1, 0);
  }

  /** The hits from (c, r) on are the run's rows, then the hits of the chunks behind. */
  lemma RunOfHits(chunks: seq<Chunk>, q: Query, c: nat, r: nat, first: nat, end: nat)
    requires Timeline(chunks) && c < |chunks| && r <= first <= end <= |chunks[c].rows|
    requires q.from.Some? && q.to.Some? && q.column.None? && IsRun(chunks[c].rows, q, r, first, end)
    ensures Hits(chunks, q, c, r) == SpanRefs(Span(c, first, end)) + Hits(chunks, q, c + 1, 0)
  {
    forall p | IsRow(chunks, p) && !Earlier(p, Ref(c, r)) && Earlier(p, Ref(c, first))
        ensures RowAt(chunks, p).ts < q.from.value {
      assert r <= p.row < first;
    }
    SkipEarly(chunks, q, c, r, c, first);
    TakeRun(chunks, q, c, first, end);
    if end < |chunks[c].rows| {
      StopLate(chunks, q, c, end);
      if c + 1 < |chunks| {
        TimeRises(chunks, Ref(c, end), Ref(c + 1, 0));
        StopLate(chunks, q, c + 1, 0);
      }
    }
  }

  /** Non-empty runs of different chunks before `bound`, in order. */
  predicate Apart(spans: seq<Span>, bound: nat) {
    spans == [] ||
    var last := spans[|spans| - 1];
    last.first < last.end && last.chunk < bound && Apart(spans[..|spans| - 1], last.chunk)
  }

  lemma {:induction false} ApartMeaning(spans: seq<Span>, bound: nat, i: nat, j: nat)
    requires Apart(spans, bound) && i <= j < |spans|
    ensures spans[i].first < spans[i].end && spans[j].chunk < bound && (i < j ==> spans[i].chunk < spans[j].chunk)
  {
    var n := |spans| - 1;
    if j < n {
      ApartMeaning(spans[..n], spans[n].chunk, i, j);
    } else if i < n {
      ApartMeaning(spans[..n], spans[n].chunk, i, i);
    }
  }

  function WithRun(spans: seq<Span>, s: Span): seq<Span> {
    if s.first < s.end then spans + [s] else spans
  }

  lemma WithRunRefs(spans: seq<Span>, s: Span)
    ensures AllRefs(WithRun(spans, s)) == AllRefs(spans) + SpanRefs(s)
  {
    if s.first < s.end {
      AllRefsMore(spans, s);
    } else {
      assert AllRefs(spans) + [] == AllRefs(spans);
    }
  }

  lemma WithRunApart(spans: seq<Span>, s: Span)
    requires Apart(spans, s.chunk)
    ensures Apart(WithRun(spans, s), s.chunk + 1)
  {
    assert (spans + [s])[..|spans|] == spans;
  }

  lemma NextRun(chunks: seq<Chunk>, q: Query, spans: seq<Span>, c: nat, r: nat, first: nat, end: nat)
    requires Timeline(chunks) && c < |chunks| && r <= first <= end <= |chunks[c].rows|
    requires q.from.Some? && q.to.Some? && q.column.None? && IsRun(chunks[c].rows, q, r, first, end)
    ensures AllRefs(spans) + Hits(chunks, q, c, r)
              == AllRefs(WithRun(spans, Span(c, first, end))) + Hits(chunks, q, c + 1, 0)
  {
    RunOfHits(chunks, q, c, r, first, end);
    WithRunRefs(spans, Span(c, first, end));
    Assoc(AllRefs(spans), SpanRefs(Span(c, first, end)), Hits(chunks, q, c + 1, 0));
  }

  /** `SweptTo`, kept folded (see Folding). */
  ghost predicate Swept(chunks: seq<Chunk>, q: Query, spans: seq<Span>, all: seq<Ref>, c: nat, r: nat) {
    forall n: nat {:trigger UnfoldAt(n)} | n == c :: SweptTo(chunks, q, spans, all, n, r)
  }

  lemma SweptMeaning(chunks: seq<Chunk>, q: Query, spans: seq<Span>, all: seq<Ref>, c: nat, r: nat)
    ensures Swept(chunks, q, spans, all, c, r) <==> SweptTo(chunks, q, spans, all, c, r)
  {
    assert UnfoldAt(c);
  }

  /** The runs found so far and what remains make up everything; (c, r) is a chunk's start or a row in range. */
  ghost predicate SweptTo(chunks: seq<Chunk>, q: Query, spans: seq<Span>, all: seq<Ref>, c: nat, r: nat) {
    && Timeline(chunks) && c <= |chunks| && Apart(spans, c)
    && (r == 0 || c == |chunks| || IsHit(chunks, q, Ref(c, r)))
    && AllRefs(spans) + Hits(chunks, q, c, r) == all
  }

  lemma SweptEarly(chunks: seq<Chunk>, q: Query, spans: seq<Span>, all: seq<Ref>, c: nat, r: nat)
    requires Swept(chunks, q, spans, all, c, r) && c < |chunks| && q.from.Some? && TMax(chunks[c]) < q.from.value
    ensures Swept(chunks, q, spans, all, c + 1, r)
  {
    SweptMeaning(chunks, q, spans, all, c, r);
    ChunkSpan(chunks[c]);
    SkipChunk(chunks, q, c);
    WithRunApart(spans, Span(c, 0, 0));
    SweptMeaning(chunks, q, spans, all, c + 1, r);
  }

  lemma SweptLate(chunks: seq<Chunk>, q: Query, spans: seq<Span>, all: seq<Ref>, c: nat, r: nat)
    requires Swept(chunks, q, spans, all, c, r) && c < |chunks| && q.to.Some? && TMin(chunks[c]) > q.to.value
    ensures Hits(chunks, q, c, r) == []
  {
    SweptMeaning(chunks, q, spans, all, c, r);
    ChunkSpan(chunks[c]);
    StopLate(chunks, q, c, r);
  }

  lemma SweptRun(chunks: seq<Chunk>, q: Query, spans: seq<Span>, all: seq<Ref>, c: nat, r: nat, first: nat, end: nat)
    requires Swept(chunks, q, spans, all, c, r) && c < |chunks| && r <= first <= end <= |chunks[c].rows|
    requires q.from.Some? && q.to.Some? && q.column.None? && IsRun(chunks[c].rows, q, r, first, end)
    ensures Swept(chunks, q, WithRun(spans, Span(c, first, end)), all, c + 1, 0)
  {
    SweptMeaning(chunks, q, spans, all, c, r);
    NextRun(chunks, q, spans, c, r, first, end);
    WithRunApart(spans, Span(c, first, end));
    SweptMeaning(chunks, q, WithRun(spans, Span(c, first, end)), all, c + 1, 0);
  }

  lemma {:induction false} TakeRun(chunks: seq<Chunk>, q: Query, c: nat, first: nat, end: nat)
    requires c < |chunks| && first <= end <= |chunks[c].rows| && q.column.None?
    requires forall i | first <= i < end :: InTime(q, chunks[c].rows[i].ts)
    ensures Hits(chunks, q, c, first) == SpanRefs(Span(c, first, end)) + Hits(chunks, q, c, end)
    decreases end - first
  {
    if first < end {
      TakeRun(chunks, q, c, first + 1, end);
      Assoc([Ref(c, first)], SpanRefs(Span(c, first + 1, end)), Hits(chunks, q, c, end));
    }
  }

  // ---------------------------------------------------------------- the latest row

  /** `p` is the last row in global order not after `t`; None if every row is after `t`. */
  ghost predicate IsLatest(chunks: seq<Chunk>, t: Timestamp, p: Option<Ref>) {
    match p
    case None => forall a | IsRow(chunks, a) :: RowAt(chunks, a).ts > t
    case Some(b) => IsRow(chunks, b) && RowAt(chunks, b).ts <= t
                    && forall a | IsRow(chunks, a) && Earlier(b, a) :: RowAt(chunks, a).ts > t
  }

  method LatestAt(chunks: seq<Chunk>, t: Timestamp) returns (p: Option<Ref>)
    requires Timeline(chunks)
    ensures IsLatest(chunks, t, p)
  {
    KeysInOrder(chunks);
    var after := UpperBound(Starts(chunks), t);
    AllLater(chunks, t, after);
    if after == 0 {
      return None;
    }
    var c := after - 1;
    TimesInOrder(chunks[c]);
    ChunkSpan(chunks[c]);
    var rowAfter := UpperBound(Times(chunks[c]), t);
    assert chunks[c].rows[0].ts == Starts(chunks)[c] <= t;
    p := Some(Ref(c, rowAfter - 1));
    forall a | IsRow(chunks, a) && Earlier(Ref(c, rowAfter - 1), a) ensures RowAt(chunks, a).ts > t {
      assert a.chunk == c ==> Times(chunks[c])[a.row] > t;
    }
  }

  lemma AllLater(chunks: seq<Chunk>, t: Timestamp, after: nat)
    requires Timeline(chunks) && after <= |chunks|
    requires forall i | 0 <= i < |chunks| :: Starts(chunks)[i] <= t <==> i < after
    ensures forall a | IsRow(chunks, a) && a.chunk >= after :: RowAt(chunks, a).ts > t
  {
    forall a | IsRow(chunks, a) && a.chunk >= after ensures RowAt(chunks, a).ts > t {
      assert Starts(chunks)[a.chunk] > t;
      ChunkSpan(chunks[a.chunk]);
    }
  }
}
