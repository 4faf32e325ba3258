/** One column of a topic as a series of samples: the null-skipping cursor and the indexed reader. */
module SeriesQueries {
  import opened Samples
  import opened Queries
  import opened RangeCursors

  function OfColumn(from: Option<Timestamp>, to: Option<Timestamp>, column: nat): Query {
    Query(from, to, Some(column))
  }

  /** A chunk without the column has no hits. */
  lemma {:induction false} NoColumn(chunks: seq<Chunk>, q: Query, c: nat, r: nat)
    requires c < |chunks| && q.column.Some? && q.column.value >= |chunks[c].columns|
    ensures Hits(chunks, q, c, r) == Hits(chunks, q, c + 1, 0)
    decreases |chunks[c].rows| - r
  {
    if r < |chunks[c].rows| {
      NoColumn(chunks, q, c, r + 1);
    }
  }

  class SeriesCursor {
    const chunks: seq<Chunk>
    const column: nat
    const lo: Timestamp
    const hi: Timestamp
    var chunkIndex: nat
    var rowIndex: nat

    function Asked(): Query {
      OfColumn(Some(lo), Some(hi), column)
    }

    /** Either exhausted, or on a sample of the range. */
    ghost predicate Valid()
      reads this
    {
      && Timeline(chunks) && chunkIndex <= |chunks|
      && (chunkIndex < |chunks| ==> IsHit(chunks, Asked(), Ref(chunkIndex, rowIndex)))
    }

    ghost function Remaining(): seq<Ref>
      reads this
    {
      Hits(chunks, Asked(), chunkIndex, rowIndex)
    }

    /** A range given back to front is turned around. */
    constructor (chunks: seq<Chunk>, column: nat, lo: Timestamp, hi: Timestamp)
      requires Timeline(chunks)
      ensures Valid() && this.chunks == chunks
      ensures Remaining()
                == (var from, to := if hi < lo then hi else lo, if hi < lo then lo else hi;
                    Hits(chunks, OfColumn(Some(from), Some(to), column), 0, 0))
    {
      this.chunks, this.column := chunks, column;
      this.lo, this.hi := if hi < lo then hi else lo, if hi < lo then lo else hi;
      chunkIndex, rowIndex := 0, 0;
      new;
      SkipToSample();
    }

    predicate AtSample()
      requires Valid()
      reads this
      ensures AtSample() <==> Remaining() != []
    {
      chunkIndex < |chunks|
    }

    method Current() returns (p: Ref)
      requires Valid() && Remaining() != []
      ensures p == Remaining()[0]
    {
      p := Ref(chunkIndex, rowIndex);
    }

    method Advance()
      requires Valid() && Remaining() != []
      modifies this
      ensures Valid() && Remaining() == old(Remaining())[1..]
    {
      rowIndex := rowIndex + 1;
      SkipToSample();
    }

    /** Moves to the first sample at or after the current position. */
    method SkipToSample()
      requires Timeline(chunks) && chunkIndex <= |chunks|
      modifies this
      ensures Valid() && Remaining() == old(Remaining())
    {
      var found := false;
      while !found && chunkIndex < |chunks|
        invariant chunkIndex <= |chunks| && Remaining() == old(Remaining())
        invariant found ==> Valid()
        decreases !found, |chunks| - chunkIndex
      {
        ChunkSpan(chunks[chunkIndex]);
        if |chunks[chunkIndex].rows| == 0 || TMax(chunks[chunkIndex]) < lo || column >= |chunks[chunkIndex].columns| {
          SkipWholeChunk();
        } else if TMin(chunks[chunkIndex]) > hi {
          LateChunk(chunks, Asked(), chunkIndex, rowIndex);
          chunkIndex := |chunks|;
        } else {
          found := SkipInChunk();
        }
      }
    }

    method SkipWholeChunk()
      requires Timeline(chunks) && chunkIndex < |chunks|
      requires TMax(chunks[chunkIndex]) < lo || column >= |chunks[chunkIndex].columns|
      modifies this
      ensures chunkIndex == old(chunkIndex) + 1 && Remaining() == old(Remaining())
    {
      if column >= |chunks[chunkIndex].columns| {
        NoColumn(chunks, Asked(), chunkIndex, rowIndex);
      } else {
        EarlyChunk(chunks, Asked(), chunkIndex, rowIndex);
      }
      chunkIndex := chunkIndex + 1;
      rowIndex := 0;
    }

    /** Row by row through the current chunk; past the range the cursor is exhausted. */
    method SkipInChunk() returns (found: bool)
      requires Timeline(chunks) && chunkIndex < |chunks|
      modifies this
      ensures chunkIndex <= |chunks| && Remaining() == old(Remaining())
      ensures if found then Valid() else chunkIndex > old(chunkIndex)
    {
      var c := chunks[chunkIndex];
      while rowIndex < |c.rows|
        invariant chunkIndex == old(chunkIndex) && Remaining() == old(Remaining())
      {
        var ts := c.rows[rowIndex].ts;
        if ts < lo {
          rowIndex := rowIndex + 1;
        } else if ts > hi {
          StopLate(chunks, Asked(), chunkIndex, rowIndex);
          chunkIndex := |chunks|;
          return false;
        } else if HasValue(c, column, c.rows[rowIndex]) {
          return true;
        } else {
          rowIndex := rowIndex + 1;
        }
      }
      chunkIndex := chunkIndex + 1;
      rowIndex := 0;
      found := false;
    }

    /** Visits every sample still to come. */
    method ForEach() returns (visited: seq<Ref>)
      requires Valid()
      modifies this
      ensures Valid() && visited == old(Remaining()) && Remaining() == []
    {
      visited := [];
      while AtSample()
        invariant Valid() && visited + Remaining() == old(Remaining())
        decreases |Remaining()|
      {
        var p := Current();
        Assoc(visited, [p], Remaining()[1..]);
        assert Remaining() == [p] + Remaining()[1..];
        visited := visited + [p];
        Advance();
      }
    }
  }

  lemma EarlyChunk(chunks: seq<Chunk>, q: Query, c: nat, r: nat)
    requires Timeline(chunks) && c < |chunks| && q.from.Some? && TMax(chunks[c]) < q.from.value
    ensures Hits(chunks, q, c, r) == Hits(chunks, q, c + 1, 0)
  {
    forall p | IsRow(chunks, p) && !Earlier(p, Ref(c, r)) && Earlier(p, Ref(c + 1, 0))
        ensures RowAt(chunks, p).ts < q.from.value {
      ChunkSpan(chunks[c]);
    }
    SkipEarly(chunks, q, c, r, c + 1, 0);
  }

  lemma LateChunk(chunks: seq<Chunk>, q: Query, c: nat, r: nat)
    requires Timeline(chunks) && c < |chunks| && q.to.Some? && TMin(chunks[c]) > q.to.value
    ensures Hits(chunks, q, c, r) == []
  {
    ChunkSpan(chunks[c]);
    if r < |chunks[c].rows| {
      StopLate(chunks, q, c, r);
    } else if c + 1 < |chunks| {
      ChunkSpan(chunks[c + 1]);
      StopLate(chunks, q, c + 1, 0);
    }
  }

  // ---------------------------------------------------------------- the indexed reader

  /** All samples of a column. */
  function AllSamples(chunks: seq<Chunk>, column: nat): seq<Ref> {
    Hits(chunks, OfColumn(None, None, column), 0, 0)
  }

  /** A cursor over all 64-bit time sees every sample. */
  lemma {:induction false} AllTimeIsAll(chunks: seq<Chunk>, column: nat, c: nat, r: nat)
    requires forall p | IsRow(chunks, p) :: MIN_TIMESTAMP <= RowAt(chunks, p).ts <= MAX_TIMESTAMP
    ensures Hits(chunks, OfColumn(Some(MIN_TIMESTAMP), Some(MAX_TIMESTAMP), column), c, r)
            == Hits(chunks, OfColumn(None, None, column), c, r)
    decreases |chunks| - c, if c < |chunks| then |chunks[c].rows| - r else 0
  {
    if c < |chunks| {
      if r >= |chunks[c].rows| {
        AllTimeIsAll(chunks, column, c + 1, 0);
      } else {
        assert IsRow(chunks, Ref(c, r)) && RowAt(chunks, Ref(c, r)) == chunks[c].rows[r];
        AllTimeIsAll(chunks, column, c, r + 1);
      }
    }
  }

  /** How many of the samples are at or before `t`, or strictly before it. */
  function CountUpTo(chunks: seq<Chunk>, refs: seq<Ref>, t: Timestamp, strict: bool): (n: nat)
    requires forall i | 0 <= i < |refs| :: IsRow(chunks, refs[i])
    ensures n <= |refs|
  {
    if refs == [] then 0
    else
      var ts := RowAt(chunks, refs[0]).ts;
      (if ts < t || (!strict && ts == t) then 1 else 0) + CountUpTo(chunks, refs[1..], t, strict)
  }

  predicate Counted(chunks: seq<Chunk>, p: Ref, t: Timestamp, strict: bool)
    requires IsRow(chunks, p)
  {
    RowAt(chunks, p).ts < t || (!strict && RowAt(chunks, p).ts == t)
  }

  /** If the samples split into ones that count and ones that do not, the count is where they split. */
  lemma {:induction false} CountSplit(chunks: seq<Chunk>, refs: seq<Ref>, t: Timestamp, strict: bool, k: nat)
    requires k <= |refs| && forall i | 0 <= i < |refs| :: IsRow(chunks, refs[i])
    requires forall i | 0 <= i < |refs| :: Counted(chunks, refs[i], t, strict) <==> i < k
    ensures CountUpTo(chunks, refs, t, strict) == k
  {
    if refs != [] {
      assert Counted(chunks, refs[0], t, strict) <==> 0 < k;
      assert forall i | 0 <= i < |refs[1..]| :: refs[1..][i] == refs[i + 1];
      CountSplit(chunks, refs[1..], t, strict, if k > 0 then k - 1 else 0);
    }
  }

  /** After `count` samples the scan stands at (c, r): the samples from there on are those behind the first `count`. */
  ghost predicate Seen(chunks: seq<Chunk>, column: nat, count: nat, c: nat, r: nat) {
    var all := AllSamples(chunks, column);
    count <= |all| && Hits(chunks, OfColumn(None, None, column), c, r) == all[count..]
  }

  lemma SeenSample(chunks: seq<Chunk>, column: nat, count: nat, c: nat, r: nat)
    requires Seen(chunks, column, count, c, r) && IsRow(chunks, Ref(c, r))
               && HasValue(chunks[c], column, chunks[c].rows[r])
    ensures count < |AllSamples(chunks, column)| && AllSamples(chunks, column)[count] == Ref(c, r)
    ensures Seen(chunks, column, count + 1, c, r + 1)
  {
    var all := AllSamples(chunks, column);
    assert all[count..] == [Ref(c, r)] + Hits(chunks, OfColumn(None, None, column), c, r + 1);
    assert all[count..][1..] == all[count + 1..];
    assert ([Ref(c, r)] + Hits(chunks, OfColumn(None, None, column), c, r + 1))[1..]
        == Hits(chunks, OfColumn(None, None, column), c, r + 1);
  }

  lemma SamplesAreRows(chunks: seq<Chunk>, column: nat)
    ensures forall i | 0 <= i < |AllSamples(chunks, column)| :: IsRow(chunks, AllSamples(chunks, column)[i])
  {
    HitsSound(chunks, OfColumn(None, None, column), 0, 0);
    assert Listed(chunks, OfColumn(None, None, column), AllSamples(chunks, column), 0, 0);
  }

  /** The first `count` samples are exactly those that count, given that the scan stands where none behind does. */
  ghost predicate Bounded(chunks: seq<Chunk>, column: nat, t: Timestamp, strict: bool, count: nat)
    requires count <= |AllSamples(chunks, column)|
  {
    forall i | 0 <= i < count ::
      IsRow(chunks, AllSamples(chunks, column)[i]) && Counted(chunks, AllSamples(chunks, column)[i], t, strict)
  }

  function CountOf(chunks: seq<Chunk>, column: nat, t: Timestamp, strict: bool): (n: nat)
    ensures n <= |AllSamples(chunks, column)|
  {
    SamplesAreRows(chunks, column);
    CountUpTo(chunks, AllSamples(chunks, column), t, strict)
  }

  /** The scan has passed all samples that count: from (c, r) on, none does. */
  lemma CountReached(chunks: seq<Chunk>, column: nat, t: Timestamp, strict: bool, count: nat, c: nat, r: nat)
    requires Timeline(chunks) && Seen(chunks, column, count, c, r) && Bounded(chunks, column, t, strict, count)
    requires c >= |chunks| || (IsRow(chunks, Ref(c, r)) && !Counted(chunks, Ref(c, r), t, strict))
    ensures CountOf(chunks, column, t, strict) == count
  {
    var q, all := OfColumn(None, None, column), AllSamples(chunks, column);
    SamplesAreRows(chunks, column);
    HitsSound(chunks, q, c, r);
    var hits := Hits(chunks, q, c, r);
    assert Listed(chunks, q, hits, c, r);
    forall i | 0 <= i < |all| ensures Counted(chunks, all[i], t, strict) <==> i < count {
      if i >= count {
        var p := hits[i - count];
        assert p == all[i] && IsHit(chunks, q, p) && !Earlier(p, Ref(c, r));
        if p != Ref(c, r) {
          TimeRises(chunks, Ref(c, r), p);
        }
      }
    }
    CountSplit(chunks, all, t, strict, count);
  }

  /** Samples are in time order, so those that count come first: their number is the index behind the last of them. */
  lemma CountMeaning(chunks: seq<Chunk>, column: nat, t: Timestamp, strict: bool, i: nat)
    requires Timeline(chunks) && i < |AllSamples(chunks, column)|
    ensures IsRow(chunks, AllSamples(chunks, column)[i])
    ensures i < CountOf(chunks, column, t, strict) <==> Counted(chunks, AllSamples(chunks, column)[i], t, strict)
  {
    var all := AllSamples(chunks, column);
    SamplesAreRows(chunks, column);
    HitsSound(chunks, OfColumn(None, None, column), 0, 0);
    assert Listed(chunks, OfColumn(None, None, column), all, 0, 0);
    var k := 0;
    while k < |all| && Counted(chunks, all[k], t, strict)
      invariant 0 <= k <= |all| && forall j | 0 <= j < k :: Counted(chunks, all[j], t, strict)
    {
      k := k + 1;
    }
    forall j | 0 <= j < |all| ensures Counted(chunks, all[j], t, strict) <==> j < k {
      if j > k {
        TimeRises(chunks, all[k], all[j]);
      }
    }
    CountSplit(chunks, all, t, strict, k);
  }

  class SeriesReader {
    const chunks: seq<Chunk>
    const column: nat

    constructor (chunks: seq<Chunk>, column: nat)
      ensures this.chunks == chunks && this.column == column
    {
      this.chunks, this.column := chunks, column;
    }

    method Size() returns (count: nat)
      ensures count == |AllSamples(chunks, column)|
    {
      count := 0;
      for c := 0 to |chunks|
        invariant Seen(chunks, column, count, c, 0)
      {
        if column >= |chunks[c].columns| {
          NoColumn(chunks, OfColumn(None, None, column), c, 0);
          continue;
        }
        for row := 0 to |chunks[c].rows|
          invariant Seen(chunks, column, count, c, row)
        {
          if HasValue(chunks[c], column, chunks[c].rows[row]) {
            SeenSample(chunks, column, count, c, row);
            count := count + 1;
          }
        }
      }
    }

    /** The sample with that index, if there are so many. */
    method SampleAt(index: nat) returns (p: Option<Ref>)
      ensures p == if index < |AllSamples(chunks, column)| then Some(AllSamples(chunks, column)[index]) else None
    {
      var count := 0;
      for c := 0 to |chunks|
        invariant count <= index && Seen(chunks, column, count, c, 0)
      {
        if column >= |chunks[c].columns| {
          NoColumn(chunks, OfColumn(None, None, column), c, 0);
          continue;
        }
        for row := 0 to |chunks[c].rows|
          invariant count <= index && Seen(chunks, column, count, c, row)
        {
          if HasValue(chunks[c], column, chunks[c].rows[row]) {
            SeenSample(chunks, column, count, c, row);
            if count == index {
              return Some(Ref(c, row));
            }
            count := count + 1;
          }
        }
      }
      return None;
    }

    /** The number of samples at or before `t`, minus one. */
    method IndexAtOrBeforeTime(t: Timestamp) returns (index: Option<nat>)
      requires Timeline(chunks)
      ensures index == LastOf(CountOf(chunks, column, t, false))
    {
      var count := 0;
      for c := 0 to |chunks|
        invariant Seen(chunks, column, count, c, 0) && Bounded(chunks, column, t, false, count)
      {
        ChunkSpan(chunks[c]);
        if |chunks[c].rows| == 0 || column >= |chunks[c].columns| {
          NoColumn(chunks, OfColumn(None, None, column), c, 0);
          continue;
        }
        if TMin(chunks[c]) > t {
          CountReached(chunks, column, t, false, count, c, 0);
          return LastOf(count);
        }
        for row := 0 to |chunks[c].rows|
          invariant Seen(chunks, column, count, c, row) && Bounded(chunks, column, t, false, count)
        {
          if chunks[c].rows[row].ts > t {
            CountReached(chunks, column, t, false, count, c, row);
            return LastOf(count);
          }
          if HasValue(chunks[c], column, chunks[c].rows[row]) {
            SeenSample(chunks, column, count, c, row);
            count := count + 1;
          }
        }
      }
      CountReached(chunks, column, t, false, count, |chunks|, 0);
      return LastOf(count);
    }

    /** The number of samples strictly before `t`, when there is a sample behind them. */
    method IndexAtOrAfterTime(t: Timestamp) returns (index: Option<nat>)
      requires Timeline(chunks)
      ensures var n := CountOf(chunks, column, t, true);
              index == if n < |AllSamples(chunks, column)| then Some(n) else None
    {
      var count := 0;
      for c := 0 to |chunks|
        invariant Seen(chunks, column, count, c, 0) && Bounded(chunks, column, t, true, count)
      {
        ChunkSpan(chunks[c]);
        if |chunks[c].rows| == 0 || column >= |chunks[c].columns| {
          NoColumn(chunks, OfColumn(None, None, column), c, 0);
          continue;
        }
        if TMax(chunks[c]) < t {
          for row := 0 to |chunks[c].rows|
            invariant Seen(chunks, column, count, c, row) && Bounded(chunks, column, t, true, count)
          {
            if HasValue(chunks[c], column, chunks[c].rows[row]) {
              SeenSample(chunks, column, count, c, row);
              count := count + 1;
            }
          }
          continue;
        }
        for row := 0 to |chunks[c].rows|
          invariant Seen(chunks, column, count, c, row) && Bounded(chunks, column, t, true, count)
        {
          if HasValue(chunks[c], column, chunks[c].rows[row]) {
            SeenSample(chunks, column, count, c, row);
            if chunks[c].rows[row].ts >= t {
              CountReached(chunks, column, t, true, count, c, row);
              return Some(count);
            }
            count := count + 1;
          }
        }
      }
      CountReached(chunks, column, t, true, count, |chunks|, 0);
      return None;
    }

    method SampleAtOrBeforeTime(t: Timestamp) returns (p: Option<Ref>)
      requires Timeline(chunks)
      ensures var n := CountOf(chunks, column, t, false);
              p == if n > 0 then Some(AllSamples(chunks, column)[n - 1]) else None
    {
      var index := IndexAtOrBeforeTime(t);
      if index.None? {
        return None;
      }
      p := SampleAt(index.value);
    }

    method SampleAtOrAfterTime(t: Timestamp) returns (p: Option<Ref>)
      requires Timeline(chunks)
      ensures var n := CountOf(chunks, column, t, true);
              p == if n < |AllSamples(chunks, column)| then Some(AllSamples(chunks, column)[n]) else None
    {
      var index := IndexAtOrAfterTime(t);
      if index.None? {
        return None;
      }
      p := SampleAt(index.value);
    }
  }

  function LastOf(count: nat): Option<nat> {
    if count == 0 then None else Some(count - 1)
  }
}
