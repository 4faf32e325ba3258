/** The join as the engine computes it: collect, intersect, deduplicate, look up. */
module TimeJoin {
  import opened Orders
  import opened Samples
  import opened Transforms
  import opened Join

  lemma HasTimePush(rows: seq<Row>, last: Row)
    ensures forall t :: HasTime(rows + [last], t) <==> HasTime(rows, t) || t == last.ts
  {
    var all := rows + [last];
    forall t ensures HasTime(all, t) <==> HasTime(rows, t) || t == last.ts {
      if HasTime(rows, t) {
        var i :| 0 <= i < |rows| && rows[i].ts == t;
        assert all[i].ts == t;
      }
      if HasTime(all, t) && t != last.ts {
        var i :| 0 <= i < |all| && all[i].ts == t;
        assert rows[i].ts == t;
      }
      assert all[|rows|].ts == last.ts;
    }
  }

  // ---------------------------------------------------------------- rows beyond a watermark

  function RowsAfter(rows: seq<Row>, mark: Timestamp): seq<Row> {
    if rows == [] then []
    else
      var front, last := RowsAfter(rows[..|rows| - 1], mark), rows[|rows| - 1];
      if last.ts <= mark then front else front + [last]
  }

  lemma {:induction false} RowsAfterConcat(a: seq<Row>, b: seq<Row>, mark: Timestamp)
    ensures RowsAfter(a + b, mark) == RowsAfter(a, mark) + RowsAfter(b, mark)
  {
    if b == [] {
      assert a + b == a;
    } else {
      RowsAfterConcat(a, b[..|b| - 1], mark);
      ConcatFront(a, b);
    }
  }

  lemma {:induction false} NoneAfter(rows: seq<Row>, mark: Timestamp)
    requires Sorted(rows) && NotBefore(rows, mark)
    ensures RowsAfter(rows, mark) == []
  {
    if rows != [] {
      SortedFront(rows);
      NoneAfter(rows[..|rows| - 1], mark);
    }
  }

  lemma {:induction false} RowsAfterMeaning(rows: seq<Row>, mark: Timestamp)
    ensures forall t :: HasTime(RowsAfter(rows, mark), t) <==> mark < t && HasTime(rows, t)
    ensures forall t | mark < t :: LastAt(RowsAfter(rows, mark), t) == LastAt(rows, t)
  {
    if rows != [] {
      var front, last := rows[..|rows| - 1], rows[|rows| - 1];
      RowsAfterMeaning(front, mark);
      HasTimePush(front, last);
      assert rows == front + [last];
      HasTimePush(RowsAfter(front, mark), last);
      assert (RowsAfter(front, mark) + [last])[..|RowsAfter(front, mark)|] == RowsAfter(front, mark);
    }
  }

  lemma {:induction false} RowsAfterSorted(rows: seq<Row>, mark: Timestamp)
    requires Sorted(rows)
    ensures var r := RowsAfter(rows, mark);
            Sorted(r) && (r != [] ==> r[|r| - 1].ts <= rows[|rows| - 1].ts)
  {
    if rows != [] {
      var front, last := rows[..|rows| - 1], rows[|rows| - 1];
      SortedFront(rows);
      RowsAfterSorted(front, mark);
      SortedConcat(RowsAfter(front, mark), [last]);
    }
  }

  /** Collects the rows of a topic beyond a watermark, skipping whole chunks by their last timestamp. */
  method Collect(chunks: seq<Chunk>, mark: Timestamp) returns (rows: seq<Row>)
    requires forall i | 0 <= i < |chunks| :: Sealed(chunks[i])
    ensures rows == RowsAfter(Flatten(chunks), mark)
  {
    rows := [];
    for i := 0 to |chunks|
      invariant rows == RowsAfter(Flatten(chunks[..i]), mark)
    {
      var c := chunks[i];
      assert Sealed(c);
      assert chunks[..i + 1] == chunks[..i] + [c];
      FlattenPush(chunks[..i], c);
      RowsAfterConcat(Flatten(chunks[..i]), c.rows, mark);
      if TMax(c) <= mark {
        NoneAfter(c.rows, mark);
      } else {
        var more := CollectRows(c.rows, mark);
        rows := rows + more;
      }
    }
    assert chunks[..|chunks|] == chunks;
  }

  method CollectRows(rows: seq<Row>, mark: Timestamp) returns (later: seq<Row>)
    ensures later == RowsAfter(rows, mark)
  {
    later := [];
    for r := 0 to |rows|
      invariant later == RowsAfter(rows[..r], mark)
    {
      assert rows[..r + 1][..r] == rows[..r];
      if mark < rows[r].ts {
        later := later + [rows[r]];
      }
    }
    assert rows[..|rows|] == rows;
  }

  // ---------------------------------------------------------------- intersecting the times

  function Times(rows: seq<Row>): (times: seq<Timestamp>)
    ensures |times| == |rows| && forall i | 0 <= i < |rows| :: times[i] == rows[i].ts
  {
    seq(|rows|, i requires 0 <= i < |rows| => rows[i].ts)
  }

  lemma TimesMeaning(rows: seq<Row>)
    requires Sorted(rows)
    ensures InOrder(Times(rows)) && forall t :: t in Times(rows) <==> HasTime(rows, t)
  {
    SortedMeaning(rows);
    forall t | HasTime(rows, t) ensures t in Times(rows) {
      var i :| 0 <= i < |rows| && rows[i].ts == t;
      assert Times(rows)[i] == t;
    }
  }

  function KeepIn(times: seq<Timestamp>, present: set<Timestamp>): seq<Timestamp> {
    if times == [] then []
    else
      var front, last := KeepIn(times[..|times| - 1], present), times[|times| - 1];
      if last in present then front + [last] else front
  }

  lemma {:induction false} KeepInMeaning(times: seq<Timestamp>, present: set<Timestamp>)
    requires InOrder(times)
    ensures InOrder(KeepIn(times, present))
    ensures forall t :: t in KeepIn(times, present) <==> t in times && t in present
  {
    if times != [] {
      var front, last := times[..|times| - 1], times[|times| - 1];
      KeepInMeaning(front, present);
      assert times == front + [last];
      var kept := KeepIn(front, present);
      forall i | 0 <= i < |kept| ensures kept[i] <= last {
        assert kept[i] in kept && kept[i] in front;
      }
    }
  }

  ghost predicate InFirst(topics: seq<seq<Row>>, count: nat, t: Timestamp) {
    forall i | 0 <= i < |topics| && i < count :: HasTime(topics[i], t)
  }

  /** The times that every topic has, once each and in order. */
  method Intersect(topics: seq<seq<Row>>) returns (joined: seq<Timestamp>)
    requires topics != [] && AllSorted(topics)
    ensures StrictlyInOrder(joined)
    ensures forall t :: t in joined <==> InAll(topics, t)
  {
    assert Sorted(topics[0]);
    joined := Times(topics[0]);
    TimesMeaning(topics[0]);
    var i := 1;
    while i < |topics| && joined != []
      invariant 1 <= i <= |topics| && InOrder(joined)
      invariant forall t :: t in joined <==> InFirst(topics, i, t)
      decreases |topics| - i
    {
      assert Sorted(topics[i]);
      var present := set t | t in Times(topics[i]);
      TimesMeaning(topics[i]);
      KeepInMeaning(joined, present);
      ghost var before := joined;
      joined := KeepIn(joined, present);
      forall t ensures t in joined <==> InFirst(topics, i + 1, t) {
        assert InFirst(topics, i + 1, t) <==> InFirst(topics, i, t) && HasTime(topics[i], t);
        assert t in before <==> InFirst(topics, i, t);
      }
      i := i + 1;
    }
    forall t ensures t in joined <==> InAll(topics, t) {
      assert InAll(topics, t) ==> InFirst(topics, i, t);
    }
    UniqueMeaning(joined);
    joined := Unique(joined);
  }

  // ---------------------------------------------------------------- looking the values up

  /** Later rows overwrite earlier ones of the same time. */
  method LastWrites(rows: seq<Row>) returns (lookup: map<Timestamp, Cell>)
    ensures forall t :: t in lookup <==> HasTime(rows, t)
    ensures forall t <- lookup :: lookup[t] == LastAt(rows, t)
  {
    lookup := map[];
    for r := 0 to |rows|
      invariant forall t :: t in lookup <==> HasTime(rows[..r], t)
      invariant forall t <- lookup :: lookup[t] == LastAt(rows[..r], t)
    {
      HasTimePush(rows[..r], rows[r]);
      assert rows[..r + 1] == rows[..r] + [rows[r]];
      assert rows[..r + 1][..r] == rows[..r];
      lookup := lookup[rows[r].ts := FirstCell(rows[r])];
    }
    assert rows[..|rows|] == rows;
  }

  ghost predicate LooksUp(lookup: map<Timestamp, Cell>, rows: seq<Row>) {
    && (forall t :: t in lookup <==> HasTime(rows, t))
    && (forall t <- lookup :: lookup[t] == LastAt(rows, t))
  }

  method Lookups(topics: seq<seq<Row>>) returns (lookups: seq<map<Timestamp, Cell>>)
    ensures |lookups| == |topics| && forall i | 0 <= i < |topics| :: LooksUp(lookups[i], topics[i])
  {
    lookups := [];
    for i := 0 to |topics|
      invariant |lookups| == i && forall j | 0 <= j < i :: LooksUp(lookups[j], topics[j])
    {
      var lookup := LastWrites(topics[i]);
      lookups := lookups + [lookup];
    }
  }

  method ValuesAt(lookups: seq<map<Timestamp, Cell>>, ghost topics: seq<seq<Row>>, t: Timestamp) returns (e: Event)
    requires |lookups| == |topics| && (forall i | 0 <= i < |topics| :: LooksUp(lookups[i], topics[i]))
               && InAll(topics, t)
    ensures e == JoinedEvent(topics, t)
  {
    var values: seq<Cell> := [];
    for i := 0 to |lookups|
      invariant |values| == i && forall j | 0 <= j < i :: values[j] == LastAt(topics[j], t)
    {
      assert LooksUp(lookups[i], topics[i]) && HasTime(topics[i], t);
      values := values + [lookups[i][t]];
    }
    e := Event(t, values);
    assert e.values == JoinedEvent(topics, t).values;
  }

  /** The operator's calls: one per joined time, in order, with the last written value of every topic. */
  method JoinTopics(topics: seq<seq<Row>>, ghost mark: Timestamp) returns (events: seq<Event>)
    requires topics != [] && AllSorted(topics)
    requires forall i, t | 0 <= i < |topics| && HasTime(topics[i], t) :: mark < t
    ensures events == JoinEvents(topics, mark)
  {
    var joined := Intersect(topics);
    var lookups := Lookups(topics);
    events := [];
    for k := 0 to |joined|
      invariant |events| == k && forall j | 0 <= j < k :: events[j] == JoinedEvent(topics, joined[j])
    {
      assert joined[k] in joined;
      var e := ValuesAt(lookups, topics, joined[k]);
      events := events + [e];
    }
    SameJoin(topics, mark, joined, events);
  }

  lemma SameJoin(topics: seq<seq<Row>>, mark: Timestamp, joined: seq<Timestamp>, events: seq<Event>)
    requires topics != [] && AllSorted(topics) && StrictlyInOrder(joined)
    requires forall i, t | 0 <= i < |topics| && HasTime(topics[i], t) :: mark < t
    requires forall t :: t in joined <==> InAll(topics, t)
    requires |events| == |joined| && forall j | 0 <= j < |joined| :: events[j] == JoinedEvent(topics, joined[j])
    ensures events == JoinEvents(topics, mark)
  {
    JoinMeaning(topics, mark);
    var all := JoinEvents(topics, mark);
    forall e ensures e in events <==> e in all {
      if e in events {
        var j :| 0 <= j < |events| && events[j] == e;
        assert joined[j] in joined && InAll(topics, joined[j]) && HasTime(topics[0], joined[j]);
      }
      if e in all {
        assert InAll(topics, e.ts) && e.ts in joined;
        var j :| 0 <= j < |joined| && joined[j] == e.ts;
        assert events[j] == e;
      }
    }
    SameMembers(events, all);
  }

  // ---------------------------------------------------------------- only what lies beyond the watermark matters

  ghost predicate Trimmed(histories: seq<seq<Row>>, mark: Timestamp, topics: seq<seq<Row>>) {
    |topics| == |histories| && forall i | 0 <= i < |topics| :: topics[i] == RowsAfter(histories[i], mark)
  }

  /** Dropping the rows up to the watermark does not change the calls that are due. */
  lemma TrimmedJoin(histories: seq<seq<Row>>, mark: Timestamp, topics: seq<seq<Row>>)
    requires histories != [] && AllSorted(histories) && Trimmed(histories, mark, topics)
    ensures AllSorted(topics) && JoinEvents(topics, mark) == JoinEvents(histories, mark)
    ensures forall i, t | 0 <= i < |topics| && HasTime(topics[i], t) :: mark < t
  {
    forall i | 0 <= i < |topics| ensures Sorted(topics[i]) && forall t | HasTime(topics[i], t) :: mark < t {
      assert Sorted(histories[i]);
      RowsAfterSorted(histories[i], mark);
      RowsAfterMeaning(histories[i], mark);
    }
    JoinMeaning(topics, mark);
    JoinMeaning(histories, mark);
    forall e ensures e in JoinEvents(topics, mark) <==> e in JoinEvents(histories, mark) {
      if mark < e.ts {
        SameAt(histories, mark, topics, e.ts);
      }
    }
    SameMembers(JoinEvents(topics, mark), JoinEvents(histories, mark));
  }

  lemma SameAt(histories: seq<seq<Row>>, mark: Timestamp, topics: seq<seq<Row>>, t: Timestamp)
    requires Trimmed(histories, mark, topics) && mark < t
    ensures InAll(topics, t) <==> InAll(histories, t)
    ensures JoinedEvent(topics, t) == JoinedEvent(histories, t)
  {
    forall i | 0 <= i < |topics|
      ensures HasTime(topics[i], t) <==> HasTime(histories[i], t)
      ensures LastAt(topics[i], t) == LastAt(histories[i], t)
    {
      RowsAfterMeaning(histories[i], mark);
    }
  }

  /** No join is due while one topic has nothing new. */
  lemma NothingToJoin(histories: seq<seq<Row>>, mark: Timestamp, i: nat)
    requires histories != [] && AllSorted(histories) && i < |histories|
    requires RowsAfter(histories[i], mark) == []
    ensures JoinEvents(histories, mark) == []
  {
    JoinMeaning(histories, mark);
    RowsAfterMeaning(histories[i], mark);
    forall e ensures e !in JoinEvents(histories, mark) {
      assert InAll(histories, e.ts) ==> HasTime(histories[i], e.ts);
    }
    SameMembers(JoinEvents(histories, mark), []);
  }
}
