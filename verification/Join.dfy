/** The N-way join on exact timestamps that feeds a multi-input operator. */
module Join {
  import opened Samples
  import opened Transforms

  predicate HasTime(rows: seq<Row>, t: Timestamp) {
    exists i | 0 <= i < |rows| :: rows[i].ts == t
  }

  /** The cell of the last row at time `t`: within one topic the last write wins. */
  function LastAt(rows: seq<Row>, t: Timestamp): Cell {
    if rows == [] then Null
    else if rows[|rows| - 1].ts == t then FirstCell(rows[|rows| - 1])
    else LastAt(rows[..|rows| - 1], t)
  }

  predicate InAll(histories: seq<seq<Row>>, t: Timestamp) {
    forall i | 0 <= i < |histories| :: HasTime(histories[i], t)
  }

  function JoinedEvent(histories: seq<seq<Row>>, t: Timestamp): (e: Event)
    ensures e.ts == t && |e.values| == |histories|
  {
    Event(t, seq(|histories|, i requires 0 <= i < |histories| => LastAt(histories[i], t)))
  }

  /** Walks `lead` in order and keeps, once each, the times after `after` that every topic has. */
  function JoinAlong(lead: seq<Row>, histories: seq<seq<Row>>, after: Timestamp): seq<Event> {
    if lead == [] then []
    else
      var before := JoinAlong(lead[..|lead| - 1], histories, after);
      var t := lead[|lead| - 1].ts;
      if t > after && InAll(histories, t) && (before == [] || before[|before| - 1].ts != t)
      then before + [JoinedEvent(histories, t)]
      else before
  }

  function JoinEvents(histories: seq<seq<Row>>, after: Timestamp): seq<Event>
    requires histories != []
  {
    JoinAlong(histories[0], histories, after)
  }

  ghost predicate AllSorted(histories: seq<seq<Row>>) {
    forall i | 0 <= i < |histories| :: Sorted(histories[i])
  }

  ghost predicate AllStrict(histories: seq<seq<Row>>) {
    forall i | 0 <= i < |histories| :: StrictlySorted(histories[i])
  }

  /** `e` is the joined event of some time that lies in `lead`, after `after`, and in every topic. */
  ghost predicate Joins(lead: seq<Row>, histories: seq<seq<Row>>, after: Timestamp, e: Event) {
    e == JoinedEvent(histories, e.ts) && after < e.ts && HasTime(lead, e.ts) && InAll(histories, e.ts)
  }

  lemma {:induction false} JoinAlongMeaning(lead: seq<Row>, histories: seq<seq<Row>>, after: Timestamp)
    requires Sorted(lead)
    ensures var events := JoinAlong(lead, histories, after);
            && StrictlyAscending(events)
            && (forall e :: e in events <==> Joins(lead, histories, after, e))
            && (events != [] ==> lead != [] && events[|events| - 1].ts <= lead[|lead| - 1].ts)
  {
    if lead != [] {
      var front, t := lead[..|lead| - 1], lead[|lead| - 1].ts;
      SortedFront(lead);
      JoinAlongMeaning(front, histories, after);
      var before := JoinAlong(front, histories, after);
      var events := JoinAlong(lead, histories, after);
      forall e ensures e in events <==> Joins(lead, histories, after, e) {
        assert lead[|lead| - 1].ts == t;
        assert HasTime(lead, e.ts) <==> HasTime(front, e.ts) || e.ts == t by {
          if HasTime(front, e.ts) {
            var i :| 0 <= i < |front| && front[i].ts == e.ts;
            assert lead[i].ts == e.ts;
          }
          if HasTime(lead, e.ts) && e.ts != t {
            var i :| 0 <= i < |lead| && lead[i].ts == e.ts;
            assert front[i].ts == e.ts;
          }
        }
        if before != [] && before[|before| - 1].ts == t {
          assert before[|before| - 1] in before;
        }
      }
    }
  }

  /** The operator is called exactly once, in rising order, for each time after `after` present in every topic. */
  lemma JoinMeaning(histories: seq<seq<Row>>, after: Timestamp)
    requires histories != [] && AllSorted(histories)
    ensures StrictlyAscending(JoinEvents(histories, after))
    ensures forall e :: e in JoinEvents(histories, after) <==>
                        e == JoinedEvent(histories, e.ts) && after < e.ts && InAll(histories, e.ts)
  {
    JoinAlongMeaning(histories[0], histories, after);
    forall e ensures e in JoinEvents(histories, after) <==>
                     e == JoinedEvent(histories, e.ts) && after < e.ts && InAll(histories, e.ts)
    {
      assert InAll(histories, e.ts) ==> HasTime(histories[0], e.ts);
    }
  }

  /** Strictly rising event lists with the same members are equal. */
  lemma {:induction false} SameMembers(a: seq<Event>, b: seq<Event>)
    requires StrictlyAscending(a) && StrictlyAscending(b)
    requires forall e :: e in a <==> e in b
    ensures a == b
  {
    assert a != [] ==> a[|a| - 1] in b;
    assert b != [] ==> b[|b| - 1] in a;
    if a != [] {
      var x, y := a[|a| - 1], b[|b| - 1];
      assert x == y;
      var a', b' := a[..|a| - 1], b[..|b| - 1];
      forall e ensures e in a' <==> e in b' {
        assert e in a <==> e in a' || e == x;
        assert e in b <==> e in b' || e == y;
        if e in a' { assert e.ts < x.ts; }
        if e in b' { assert e.ts < y.ts; }
      }
      SameMembers(a', b');
      assert a == a' + [x];
      assert b == b' + [y];
    }
  }

  /** The leading events whose time is at most `mark`. */
  function UpTo(events: seq<Event>, mark: Timestamp): seq<Event> {
    if events == [] || events[|events| - 1].ts <= mark then events
    else UpTo(events[..|events| - 1], mark)
  }

  lemma {:induction false} UpToMeaning(events: seq<Event>, mark: Timestamp)
    requires StrictlyAscending(events)
    ensures StrictlyAscending(UpTo(events, mark))
    ensures forall e :: e in UpTo(events, mark) <==> e in events && e.ts <= mark
  {
    if events != [] && mark < events[|events| - 1].ts {
      var front := events[..|events| - 1];
      UpToMeaning(front, mark);
      forall e ensures e in UpTo(front, mark) <==> e in events && e.ts <= mark {
        assert e in events <==> e in front || e == events[|events| - 1];
      }
    }
  }

  /** A run that starts at a watermark continues exactly where the earlier events stop. */
  lemma JoinSplit(histories: seq<seq<Row>>, after: Timestamp, mark: Timestamp)
    requires histories != [] && AllSorted(histories) && after <= mark
    ensures JoinEvents(histories, after) == UpTo(JoinEvents(histories, after), mark) + JoinEvents(histories, mark)
  {
    var all, rest := JoinEvents(histories, after), JoinEvents(histories, mark);
    var done := UpTo(all, mark);
    JoinMeaning(histories, after);
    JoinMeaning(histories, mark);
    UpToMeaning(all, mark);
    var both := done + rest;
    assert StrictlyAscending(both) by {
      forall i, j | 0 <= i < j < |both| ensures both[i].ts < both[j].ts {
        if i < |done| <= j {
          assert done[i] in done && rest[j - |done|] in rest;
        }
      }
    }
    SameMembers(all, both);
  }

  /** Every topic of `later` continues the same topic of `earlier`. */
  ghost predicate Extends(earlier: seq<seq<Row>>, later: seq<seq<Row>>) {
    |earlier| == |later| && forall i | 0 <= i < |earlier| :: earlier[i] <= later[i]
  }

  lemma {:induction false} LastAtPrefix(earlier: seq<Row>, later: seq<Row>, t: Timestamp)
    requires earlier <= later
    requires forall i | |earlier| <= i < |later| :: later[i].ts != t
    ensures LastAt(later, t) == LastAt(earlier, t)
    decreases |later|
  {
    if |earlier| < |later| {
      LastAtPrefix(earlier, later[..|later| - 1], t);
    } else {
      assert earlier == later;
    }
  }

  /** Up to a joined time, what is joined cannot change when strictly rising topics grow. */
  lemma JoinedBeforeIsFinal(earlier: seq<seq<Row>>, later: seq<seq<Row>>, mark: Timestamp, t: Timestamp)
    requires Extends(earlier, later) && AllStrict(later)
    requires InAll(earlier, mark) && t <= mark
    ensures InAll(earlier, t) <==> InAll(later, t)
    ensures JoinedEvent(earlier, t) == JoinedEvent(later, t)
  {
    forall i | 0 <= i < |earlier|
      ensures HasTime(earlier[i], t) <==> HasTime(later[i], t)
      ensures LastAt(earlier[i], t) == LastAt(later[i], t)
    {
      var a, b := earlier[i], later[i];
      assert HasTime(a, mark);
      var k :| 0 <= k < |a| && a[k].ts == mark;
      assert b[k] == a[k] && StrictlySorted(b);
      if HasTime(a, t) {
        var j :| 0 <= j < |a| && a[j].ts == t;
        assert b[j].ts == t;
      }
      if HasTime(b, t) {
        var j :| 0 <= j < |b| && b[j].ts == t;
        assert j <= k;
        assert a[j].ts == t;
      }
      LastAtPrefix(a, b, t);
    }
  }

  lemma StrictIsSorted(histories: seq<seq<Row>>)
    requires AllStrict(histories)
    ensures AllSorted(histories)
  {
    forall i | 0 <= i < |histories| ensures Sorted(histories[i]) {
      assert StrictlySorted(histories[i]);
      SortedMeaning(histories[i]);
    }
  }

  /** Splitting the input into commits does not matter: what was joined up to a watermark stays what it was. */
  lemma JoinStable(earlier: seq<seq<Row>>, later: seq<seq<Row>>, after: Timestamp, mark: Timestamp)
    requires earlier != [] && Extends(earlier, later) && AllSorted(earlier) && AllStrict(later)
    requires mark == after || InAll(earlier, mark)
    ensures UpTo(JoinEvents(earlier, after), mark) == UpTo(JoinEvents(later, after), mark)
  {
    StrictIsSorted(later);
    JoinMeaning(earlier, after);
    JoinMeaning(later, after);
    UpToMeaning(JoinEvents(earlier, after), mark);
    UpToMeaning(JoinEvents(later, after), mark);
    var a, b := UpTo(JoinEvents(earlier, after), mark), UpTo(JoinEvents(later, after), mark);
    forall e ensures e in a <==> e in b {
      if mark != after && e.ts <= mark {
        JoinedBeforeIsFinal(earlier, later, mark, e.ts);
      }
    }
    SameMembers(a, b);
  }
}
