/** A store of object topics. */
module ObjectStores {
  import opened Folding
  import opened Samples
  import opened Searching
  import opened ObjectSeriesStates

  datatype Topic = Topic(id: nat, series: Series)

  /** Ids are handed out upwards from 1, and no two topics share a key. */
  ghost predicate TopicsOk(topics: seq<Topic>, nextId: nat) {
    && (forall i | 0 <= i < |topics| :: 0 < topics[i].id < nextId && SeriesOk(topics[i].series))
    && (forall i, j | 0 <= i < j < |topics| ::
          topics[i].id != topics[j].id && topics[i].series.key != topics[j].series.key)
  }

  /** The position of a topic, or -1. */
  function PositionOf(topics: seq<Topic>, id: nat): (k: int)
    ensures -1 <= k < |topics| && (k >= 0 ==> topics[k].id == id)
    ensures k < 0 <==> forall i | 0 <= i < |topics| :: topics[i].id != id
  {
    if topics == [] then -1
    else if topics[|topics| - 1].id == id && PositionOf(topics[..|topics| - 1], id) < 0 then |topics| - 1
    else
      var front := topics[..|topics| - 1];
      assert forall i | 0 <= i < |front| :: front[i] == topics[i];
      PositionOf(front, id)
  }

  function WithSeries(topics: seq<Topic>, k: nat, s: Series): seq<Topic>
    requires k < |topics|
  {
    topics[k := topics[k].(series := s)]
  }

  lemma WithSeriesOk(topics: seq<Topic>, nextId: nat, k: nat, s: Series)
    requires TopicsOk(topics, nextId) && k < |topics| && SeriesOk(s) && s.key == topics[k].series.key
    ensures TopicsOk(WithSeries(topics, k, s), nextId)
  {
  }

  lemma WithoutOk(topics: seq<Topic>, nextId: nat, k: nat)
    requires TopicsOk(topics, nextId) && k < |topics|
    ensures TopicsOk(topics[..k] + topics[k + 1..], nextId)
  {
    var left := topics[..k] + topics[k + 1..];
    forall i, j | 0 <= i < j < |left| ensures left[i].id != left[j].id && left[i].series.key != left[j].series.key {
      assert left[i] == topics[if i < k then i else i + 1] && left[j] == topics[if j < k then j else j + 1];
    }
  }

  // ---------------------------------------------------------------- flushing, as a plan on values

  /** A series that holds something. */
  predicate Busy(t: Topic) {
    t.series.stamps != []
  }

  /** The destination of a source topic. */
  predicate Matches(s: Topic, d: Topic) {
    s.series.key == d.series.key
  }

  /** What one destination topic becomes: its entries, the matching source's entries behind them, then retention. */
  function Received(d: Topic, src: seq<Topic>): Topic {
    if src == [] then d
    else
      var s := src[|src| - 1];
      if Busy(s) && Matches(s, d) then d.(series := Merged(d.series, s.series)) else Received(d, src[..|src| - 1])
  }

  function Merged(d: Series, s: Series): Series {
    var joined := Joined(d, s);
    Retained(joined, if joined.stamps == [] then 0 else joined.stamps[|joined.stamps| - 1])
  }

  /** What a source topic becomes. */
  function Drained(s: Topic): Topic {
    if Busy(s) then s.(series := Emptied(s.series)) else s
  }

  /** Every busy source topic has a destination behind which it may be moved. */
  ghost predicate Movable(src: seq<Topic>, dst: seq<Topic>) {
    forall i | 0 <= i < |src| && Busy(src[i]) :: HasPlace(src[i], dst)
  }

  ghost predicate HasPlace(s: Topic, dst: seq<Topic>) {
    exists j :: 0 <= j < |dst| && Matches(s, dst[j]) && Follows(dst[j].series, s.series)
  }

  datatype Move = Move(from: nat, to: nat)

  ghost predicate MoveOk(m: Move, src: seq<Topic>, dst: seq<Topic>) {
    && m.from < |src| && m.to < |dst|
    && Busy(src[m.from]) && Matches(src[m.from], dst[m.to]) && Follows(dst[m.to].series, src[m.from].series)
  }

  /** Exactly one move for each busy source topic among the first `n`, in order. */
  ghost predicate PlanFor(plan: seq<Move>, src: seq<Topic>, dst: seq<Topic>, n: nat)
    requires n <= |src|
  {
    && (forall k | 0 <= k < |plan| :: MoveOk(plan[k], src, dst) && plan[k].from < n)
    && (forall k, l | 0 <= k < l < |plan| :: plan[k].from < plan[l].from)
    && (forall i | 0 <= i < n && Busy(src[i]) :: Planned(plan, i))
  }

  ghost predicate Planned(plan: seq<Move>, i: nat) {
    exists k :: 0 <= k < |plan| && plan[k].from == i
  }

  lemma PlanMore(plan: seq<Move>, src: seq<Topic>, dst: seq<Topic>, m: Move)
    requires m.from < |src| && PlanFor(plan, src, dst, m.from) && MoveOk(m, src, dst)
    ensures PlanFor(plan + [m], src, dst, m.from + 1)
  {
    var more := plan + [m];
    forall i | 0 <= i < m.from + 1 && Busy(src[i]) ensures Planned(more, i) {
      if i == m.from {
        assert more[|plan|].from == i;
      } else {
        assert Planned(plan, i);
        var k :| 0 <= k < |plan| && plan[k].from == i;
        assert more[k].from == i;
      }
    }
  }

  /** Between two moves of the plan there are only idle source topics. */
  lemma IdleBetween(plan: seq<Move>, src: seq<Topic>, dst: seq<Topic>, k: nat, i: nat)
    requires PlanFor(plan, src, dst, |src|) && k <= |plan| && i < |src|
    requires (k > 0 ==> plan[k - 1].from < i) && (k < |plan| ==> i < plan[k].from)
    ensures !Busy(src[i])
  {
    forall l | 0 <= l < |plan| ensures plan[l].from != i {
      assert l < k - 1 ==> plan[l].from < plan[k - 1].from;
      assert l > k ==> plan[k].from < plan[l].from;
    }
    assert !Planned(plan, i);
  }

  ghost predicate KeysDistinct(topics: seq<Topic>) {
    forall i, j | 0 <= i < j < |topics| :: topics[i].series.key != topics[j].series.key
  }

  /** Phase 1: every busy source topic is matched and checked; nothing changes. */
  method MakePlan(src: seq<Topic>, dst: seq<Topic>) returns (ok: bool, plan: seq<Move>)
    requires KeysDistinct(dst)
    ensures ok <==> Movable(src, dst)
    ensures ok ==> PlanFor(plan, src, dst, |src|)
  {
    plan := [];
    for i := 0 to |src|
      invariant PlanFor(plan, src, dst, i)
      invariant forall l | 0 <= l < i && Busy(src[l]) :: HasPlace(src[l], dst)
    {
      if Busy(src[i]) {
        var j := FindMatch(src[i], dst);
        if j < 0 || !Follows(dst[j].series, src[i].series) {
          assert !HasPlace(src[i], dst);
          return false, [];
        }
        assert HasPlace(src[i], dst);
        PlanMore(plan, src, dst, Move(i, j));
        plan := plan + [Move(i, j)];
      }
    }
    ok := true;
  }

  method FindMatch(s: Topic, dst: seq<Topic>) returns (j: int)
    requires KeysDistinct(dst)
    ensures -1 <= j < |dst|
    ensures j >= 0 ==> Matches(s, dst[j]) && forall l | 0 <= l < |dst| && Matches(s, dst[l]) :: l == j
    ensures j < 0 ==> forall l | 0 <= l < |dst| :: !Matches(s, dst[l])
  {
    for l := 0 to |dst|
      invariant forall m | 0 <= m < l :: !Matches(s, dst[m])
    {
      if Matches(s, dst[l]) {
        return l;
      }
    }
    return -1;
  }

  /** No busy source topic matches: nothing is received. */
  lemma {:induction false} NothingReceived(d: Topic, src: seq<Topic>)
    requires forall i | 0 <= i < |src| :: !(Busy(src[i]) && Matches(src[i], d))
    ensures Received(d, src) == d
  {
    if src != [] {
      NothingReceived(d, src[..|src| - 1]);
    }
  }

  /** With distinct source keys, a destination receives exactly its match. */
  lemma {:induction false} ReceivesItsMatch(d: Topic, src: seq<Topic>, i: nat)
    requires KeysDistinct(src) && i < |src| && Busy(src[i]) && Matches(src[i], d)
    ensures Received(d, src) == d.(series := Merged(d.series, src[i].series))
  {
    if i < |src| - 1 {
      assert src[i].series.key != src[|src| - 1].series.key;
      ReceivesItsMatch(d, src[..|src| - 1], i);
    }
  }

  /** Source and destination after the moves of the first `n` source topics. */
  ghost predicate MovedSoFar(src: seq<Topic>, dst: seq<Topic>, src': seq<Topic>, dst': seq<Topic>, n: nat)
    requires n <= |src|
  {
    && |src'| == |src| && |dst'| == |dst|
    && (forall i | 0 <= i < n :: src'[i] == Drained(src[i]))
    && (forall i | n <= i < |src| :: src'[i] == src[i])
    && (forall j | 0 <= j < |dst| :: dst'[j] == Received(dst[j], src[..n]))
  }

  lemma IdleStep(src: seq<Topic>, dst: seq<Topic>, src': seq<Topic>, dst': seq<Topic>, n: nat)
    requires n < |src| && !Busy(src[n]) && MovedSoFar(src, dst, src', dst', n)
    ensures MovedSoFar(src, dst, src', dst', n + 1)
  {
    assert src[..n + 1][..n] == src[..n];
  }

  lemma MoveStep(src: seq<Topic>, dst: seq<Topic>, src': seq<Topic>, dst': seq<Topic>, m: Move)
    requires KeysDistinct(src) && KeysDistinct(dst) && MoveOk(m, src, dst) && MovedSoFar(src, dst, src', dst', m.from)
    ensures src'[m.from] == src[m.from] && dst'[m.to] == dst[m.to]
    ensures MovedSoFar(src, dst, src'[m.from := Drained(src[m.from])],
                       dst'[m.to := dst[m.to].(series := Merged(dst[m.to].series, src[m.from].series))], m.from + 1)
  {
    var n := m.from;
    assert src[..n + 1][..n] == src[..n];
    forall i | 0 <= i < n ensures !(Busy(src[..n][i]) && Matches(src[..n][i], dst[m.to])) {
      assert src[i].series.key != src[n].series.key;
    }
    NothingReceived(dst[m.to], src[..n]);
    forall j | 0 <= j < |dst| && j != m.to ensures !Matches(src[n], dst[j]) {
      assert dst[j].series.key != dst[m.to].series.key;
    }
  }

  /** One move: append, empty the source, retain. */
  method MoveEntries(s: Topic, d: Topic) returns (s': Topic, d': Topic)
    requires SeriesOk(s.series) && SeriesOk(d.series) && Busy(s) && Follows(d.series, s.series)
    ensures s' == Drained(s) && d' == d.(series := Merged(d.series, s.series)) && SeriesOk(d'.series)
  {
    JoinedOk(d.series, s.series);
    var joined := Joined(d.series, s.series);
    s' := s.(series := Emptied(s.series));
    var newest := if |joined.stamps| == 0 then 0 else joined.stamps[|joined.stamps| - 1];
    var kept := ApplyRetention(joined, newest);
    d' := d.(series := kept);
  }

  /** The move of one source topic, once all earlier topics are done. */
  method MoveNext(src: seq<Topic>, dst: seq<Topic>, src': seq<Topic>, dst': seq<Topic>, m: Move)
    returns (src'': seq<Topic>, dst'': seq<Topic>)
    requires KeysDistinct(src) && KeysDistinct(dst) && AllOk(src) && AllOk(dst') && MoveOk(m, src, dst)
    requires MovedSoFar(src, dst, src', dst', m.from)
    ensures MovedSoFar(src, dst, src'', dst'', m.from + 1) && AllOk(dst'')
  {
    MoveStep(src, dst, src', dst', m);
    var drained, filled := MoveEntries(src'[m.from], dst'[m.to]);
    src'', dst'' := src'[m.from := drained], dst'[m.to := filled];
  }

  ghost predicate AllOk(topics: seq<Topic>) {
    forall i | 0 <= i < |topics| :: SeriesOk(topics[i].series)
  }

  lemma NextMove(plan: seq<Move>, src: seq<Topic>, dst: seq<Topic>, k: nat)
    requires PlanFor(plan, src, dst, |src|) && k < |plan|
    ensures MoveOk(plan[k], src, dst) && (k > 0 ==> plan[k - 1].from < plan[k].from)
  {
  }

  /** `MovedSoFar`, kept folded (see Folding). */
  ghost predicate Moved(src: seq<Topic>, dst: seq<Topic>, src': seq<Topic>, dst': seq<Topic>, n: nat) {
    forall k: nat {:trigger UnfoldAt(k)} | k == n :: k <= |src| && MovedSoFar(src, dst, src', dst', k) && AllOk(dst')
  }

  lemma MovedMeaning(src: seq<Topic>, dst: seq<Topic>, src': seq<Topic>, dst': seq<Topic>, n: nat)
    ensures Moved(src, dst, src', dst', n) <==> n <= |src| && MovedSoFar(src, dst, src', dst', n) && AllOk(dst')
  {
    assert UnfoldAt(n);
  }

  /** What the second phase starts from, kept folded (see Folding). */
  ghost predicate Ready(src: seq<Topic>, dst: seq<Topic>, plan: seq<Move>) {
    forall k: nat {:trigger UnfoldAt(k)} | k == |src| ::
      KeysDistinct(src) && KeysDistinct(dst) && AllOk(src) && AllOk(dst) && PlanFor(plan, src, dst, k)
  }

  lemma ReadyMeaning(src: seq<Topic>, dst: seq<Topic>, plan: seq<Move>)
    ensures Ready(src, dst, plan)
            <==> KeysDistinct(src) && KeysDistinct(dst) && AllOk(src) && AllOk(dst) && PlanFor(plan, src, dst, |src|)
  {
    assert UnfoldAt(|src|);
  }

  function Upto(plan: seq<Move>, k: nat): nat
    requires k <= |plan|
  {
    if k == 0 then 0 else plan[k - 1].from + 1
  }

  lemma NothingMoved(src: seq<Topic>, dst: seq<Topic>, plan: seq<Move>)
    requires Ready(src, dst, plan)
    ensures Moved(src, dst, src, dst, 0)
  {
    ReadyMeaning(src, dst, plan);
    assert src[..0] == [];
    MovedMeaning(src, dst, src, dst, 0);
  }

  /** The `k`-th move of the plan, past the idle source topics before it. */
  method MoveAfterIdle(src: seq<Topic>, dst: seq<Topic>, src': seq<Topic>, dst': seq<Topic>, plan: seq<Move>, k: nat)
    returns (src'': seq<Topic>, dst'': seq<Topic>)
    requires Ready(src, dst, plan) && k < |plan| && Moved(src, dst, src', dst', Upto(plan, k))
    ensures Moved(src, dst, src'', dst'', Upto(plan, k + 1))
  {
    PastIdle(src, dst, src', dst', plan, k);
    src'', dst'' := MoveOne(src, dst, src', dst', plan[k]);
  }

  /** All idle source topics before the `k`-th move of the plan. */
  lemma PastIdle(src: seq<Topic>, dst: seq<Topic>, src': seq<Topic>, dst': seq<Topic>, plan: seq<Move>, k: nat)
    requires Ready(src, dst, plan) && k < |plan| && Moved(src, dst, src', dst', Upto(plan, k))
    ensures MoveReady(src, dst, plan[k]) && Moved(src, dst, src', dst', plan[k].from)
  {
    ReadyMeaning(src, dst, plan);
    MovedMeaning(src, dst, src', dst', Upto(plan, k));
    NextMove(plan, src, dst, k);
    IdleSteps(plan, src, dst, src', dst', k, Upto(plan, k), plan[k].from);
    MovedMeaning(src, dst, src', dst', plan[k].from);
    assert Unfold(plan[k]);
  }

  /** What one move asks of the two stores, kept folded (see Folding). */
  ghost predicate MoveReady(src: seq<Topic>, dst: seq<Topic>, m: Move) {
    forall x {:trigger Unfold(x)} | x == m ::
      KeysDistinct(src) && KeysDistinct(dst) && AllOk(src) && AllOk(dst) && MoveOk(x, src, dst)
  }

  method MoveOne(src: seq<Topic>, dst: seq<Topic>, src': seq<Topic>, dst': seq<Topic>, m: Move)
    returns (src'': seq<Topic>, dst'': seq<Topic>)
    requires MoveReady(src, dst, m) && Moved(src, dst, src', dst', m.from)
    ensures Moved(src, dst, src'', dst'', m.from + 1)
  {
    assert Unfold(m);
    MovedMeaning(src, dst, src', dst', m.from);
    src'', dst'' := MoveNext(src, dst, src', dst', m);
    MovedMeaning(src, dst, src'', dst'', m.from + 1);
  }

  lemma RestIdle(src: seq<Topic>, dst: seq<Topic>, src': seq<Topic>, dst': seq<Topic>, plan: seq<Move>)
    requires Ready(src, dst, plan) && Moved(src, dst, src', dst', Upto(plan, |plan|))
    ensures Moved(src, dst, src', dst', |src|)
  {
    ReadyMeaning(src, dst, plan);
    MovedMeaning(src, dst, src', dst', Upto(plan, |plan|));
    IdleSteps(plan, src, dst, src', dst', |plan|, Upto(plan, |plan|), |src|);
    MovedMeaning(src, dst, src', dst', |src|);
  }

  /** Phase 2: the moves, one by one. */
  method Execute(src: seq<Topic>, dst: seq<Topic>, plan: seq<Move>) returns (src': seq<Topic>, dst': seq<Topic>)
    requires Ready(src, dst, plan)
    ensures Moved(src, dst, src', dst', |src|)
  {
    src', dst' := src, dst;
    NothingMoved(src, dst, plan);
    for k := 0 to |plan|
      invariant Moved(src, dst, src', dst', Upto(plan, k))
    {
      src', dst' := MoveAfterIdle(src, dst, src', dst', plan, k);
    }
    RestIdle(src, dst, src', dst', plan);
  }

  lemma {:induction false} IdleSteps(plan: seq<Move>, src: seq<Topic>, dst: seq<Topic>, src': seq<Topic>,
                                     dst': seq<Topic>,
                                     k: nat, n: nat, next: nat)
    requires PlanFor(plan, src, dst, |src|) && k <= |plan| && n <= next <= |src|
    requires (k > 0 ==> plan[k - 1].from < n) && (k < |plan| ==> next <= plan[k].from)
    requires MovedSoFar(src, dst, src', dst', n)
    ensures MovedSoFar(src, dst, src', dst', next)
    decreases next - n
  {
    if n < next {
      IdleBetween(plan, src, dst, k, n);
      IdleStep(src, dst, src', dst', n);
      IdleSteps(plan, src, dst, src', dst', k, n + 1, next);
    }
  }

  /** Nothing is lost or reordered: a destination holds its old entries followed by its match's, minus the shortest
      prefix that retention takes. */
  lemma FlushConserves(d: Topic, src: seq<Topic>, i: nat) returns (k: nat)
    requires KeysDistinct(src) && i < |src| && Busy(src[i]) && Matches(src[i], d)
    ensures k <= |d.series.entries + src[i].series.entries|
    ensures Received(d, src).series.entries == (d.series.entries + src[i].series.entries)[k..]
    ensures Received(d, src).id == d.id && Received(d, src).series.key == d.series.key
    ensures var newest := src[i].series.stamps[|src[i].series.stamps| - 1];
            && Fits(Received(d, src).series.entries, d.series.budget, newest)
            && forall j | 0 <= j < k :: !Fits((d.series.entries + src[i].series.entries)[j..], d.series.budget, newest)
  {
    ReceivesItsMatch(d, src, i);
    var joined := Joined(d.series, src[i].series);
    var newest := src[i].series.stamps[|src[i].series.stamps| - 1];
    assert joined.stamps[|joined.stamps| - 1] == newest;
    k := KeptIsShortest(joined.entries, d.series.budget, newest);
  }

  lemma {:induction false} ReceivedSameName(d: Topic, src: seq<Topic>)
    ensures Received(d, src).id == d.id && Received(d, src).series.key == d.series.key
  {
    if src != [] {
      ReceivedSameName(d, src[..|src| - 1]);
    }
  }

  lemma MovedOk(src: seq<Topic>, dst: seq<Topic>, src': seq<Topic>, dst': seq<Topic>, srcNext: nat, dstNext: nat)
    requires TopicsOk(src, srcNext) && TopicsOk(dst, dstNext) && MovedSoFar(src, dst, src', dst', |src|)
    requires AllOk(dst')
    ensures TopicsOk(src', srcNext) && TopicsOk(dst', dstNext)
  {
    forall i | 0 <= i < |src'|
      ensures src'[i].id == src[i].id && src'[i].series.key == src[i].series.key && SeriesOk(src'[i].series)
    {
      assert src'[i] == Drained(src[i]);
    }
    forall j | 0 <= j < |dst'| ensures dst'[j].id == dst[j].id && dst'[j].series.key == dst[j].series.key {
      ReceivedSameName(dst[j], src[..|src|]);
    }
  }

  class ObjectStore {
    var topics: seq<Topic>
    var nextId: nat

    ghost predicate Valid()
      reads this
    {
      0 < nextId && TopicsOk(topics, nextId)
    }

    constructor ()
      ensures Valid() && topics == [] && nextId == 1
    {
      topics, nextId := [], 1;
    }

    /** A new topic under the next id, unless one with the same dataset and name exists. */
    method RegisterTopic(key: Key) returns (id: Result<nat>)
      requires Valid()
      modifies this
      ensures Valid()
      ensures id.Err? <==> exists i :: 0 <= i < |old(topics)| && old(topics)[i].series.key == key
      ensures id.Err? ==> topics == old(topics) && nextId == old(nextId)
      ensures id.Ok? ==> id.value == old(nextId) && nextId == old(nextId) + 1
                         && topics == old(topics) + [Topic(old(nextId), Series(key, [], [], Budget(0, 0), 0))]
    {
      for i := 0 to |topics|
        invariant topics == old(topics) && nextId == old(nextId)
        invariant forall j | 0 <= j < i :: topics[j].series.key != key
      {
        if topics[i].series.key == key {
          return Err("topic already registered");
        }
      }
      id := Ok(nextId);
      topics := topics + [Topic(nextId, Series(key, [], [], Budget(0, 0), 0))];
      nextId := nextId + 1;
    }

    method FindTopic(key: Key) returns (id: Option<nat>)
      requires Valid()
      ensures id.None? ==> forall i | 0 <= i < |topics| :: topics[i].series.key != key
      ensures id.Some? ==> PositionOf(topics, id.value) >= 0 && topics[PositionOf(topics, id.value)].series.key == key
    {
      for i := 0 to |topics|
        invariant forall j | 0 <= j < i :: topics[j].series.key != key
      {
        if topics[i].series.key == key {
          assert topics[PositionOf(topics, topics[i].id)].id == topics[i].id;
          return Some(topics[i].id);
        }
      }
      return None;
    }

    method FindSeries(id: nat) returns (k: int)
      requires Valid()
      ensures k == PositionOf(topics, id)
    {
      for i := 0 to |topics|
        invariant forall j | 0 <= j < i :: topics[j].id != id
      {
        if topics[i].id == id {
          assert topics[PositionOf(topics, id)].id == topics[i].id;
          return i;
        }
      }
      return -1;
    }

    /** Appends an entry and applies the topic's retention; out-of-order entries are refused. */
    method Push(id: nat, e: Entry) returns (ok: bool)
      requires Valid()
      modifies this
      ensures Valid() && nextId == old(nextId)
      ensures var k := PositionOf(old(topics), id);
              && (ok <==> k >= 0 && (old(topics)[k].series.stamps == []
                                     || old(topics)[k].series.stamps[|old(topics)[k].series.stamps| - 1] <= e.ts))
              && topics == if ok then WithSeries(old(topics), k, Retained(Pushed(old(topics)[k].series, e), e.ts))
                  else old(topics)
    {
      var k := FindSeries(id);
      if k < 0 {
        return false;
      }
      var s := topics[k].series;
      if |s.stamps| != 0 && e.ts < s.stamps[|s.stamps| - 1] {
        return false;
      }
      PushedOk(s, e);
      var r := ApplyRetention(Pushed(s, e), e.ts);
      WithSeriesOk(topics, nextId, k, r);
      topics := WithSeries(topics, k, r);
      ok := true;
    }

    /** The position of the last entry not after `t`. */
    method IndexAt(id: nat, t: Timestamp) returns (index: Option<nat>)
      requires Valid()
      ensures var k := PositionOf(topics, id);
              if k < 0 then index == None else AtOrBefore(topics[k].series.entries, t, index)
    {
      var k := FindSeries(id);
      if k < 0 || |topics[k].series.stamps| == 0 {
        return None;
      }
      var after := UpperBound(topics[k].series.stamps, t);
      if after == 0 {
        assert forall i | 0 <= i < |topics[k].series.entries| :: topics[k].series.stamps[i] > t;
        return None;
      }
      assert topics[k].series.stamps[after - 1] <= t;
      assert forall i | after - 1 < i < |topics[k].series.entries| :: topics[k].series.stamps[i] > t;
      return Some(after - 1);
    }

    method LatestAt(id: nat, t: Timestamp) returns (e: Option<Entry>)
      requires Valid()
      ensures var k := PositionOf(topics, id);
              if k < 0 then e == None
              else exists index: Option<nat> :: AtOrBefore(topics[k].series.entries, t, index)
                                   && e == if index.None? then None else Some(topics[k].series.entries[index.value])
    {
      var index := IndexAt(id, t);
      var k := FindSeries(id);
      if index.None? {
        return None;
      }
      return Some(topics[k].series.entries[index.value]);
    }

    method SetRetentionBudget(id: nat, budget: Budget)
      requires Valid()
      modifies this
      ensures Valid() && nextId == old(nextId)
      ensures var k := PositionOf(old(topics), id);
              topics == if k < 0 then old(topics)
                  else WithSeries(old(topics), k, old(topics)[k].series.(budget := budget))
    {
      var k := FindSeries(id);
      if k >= 0 {
        WithSeriesOk(topics, nextId, k, topics[k].series.(budget := budget));
        topics := WithSeries(topics, k, topics[k].series.(budget := budget));
      }
    }

    method EvictTopicBefore(id: nat, threshold: Timestamp)
      requires Valid()
      modifies this
      ensures Valid() && nextId == old(nextId)
      ensures var k := PositionOf(old(topics), id);
              topics == if k < 0 then old(topics)
                  else WithSeries(old(topics), k, Since(old(topics)[k].series, threshold))
    {
      var k := FindSeries(id);
      if k >= 0 {
        var r := EvictBefore(topics[k].series, threshold);
        WithSeriesOk(topics, nextId, k, r);
        topics := WithSeries(topics, k, r);
      }
    }

    method EvictAllBefore(threshold: Timestamp)
      requires Valid()
      modifies this
      ensures Valid() && nextId == old(nextId) && |topics| == |old(topics)|
      ensures forall i | 0 <= i < |topics| ::
                topics[i] == old(topics)[i].(series := Since(old(topics)[i].series, threshold))
    {
      for k := 0 to |topics|
        invariant Valid() && nextId == old(nextId) && |topics| == |old(topics)|
        invariant forall i | 0 <= i < k ::
                  topics[i] == old(topics)[i].(series := Since(old(topics)[i].series, threshold))
        invariant forall i | k <= i < |topics| :: topics[i] == old(topics)[i]
      {
        var r := EvictBefore(topics[k].series, threshold);
        WithSeriesOk(topics, nextId, k, r);
        topics := WithSeries(topics, k, r);
      }
    }

    /** Moves everything into `target`, or changes neither store. */
    method FlushTo(target: ObjectStore) returns (ok: bool)
      requires Valid() && target.Valid()
      modifies this, target
      ensures Valid() && target.Valid() && nextId == old(nextId) && target.nextId == old(target.nextId)
      ensures ok <==> target != this && Movable(old(topics), old(target.topics))
      ensures !ok ==> topics == old(topics) && target.topics == old(target.topics)
      ensures ok ==> MovedSoFar(old(topics), old(target.topics), topics, target.topics, |old(topics)|)
    {
      if target == this {
        return false;
      }
      var planned, plan := MakePlan(topics, target.topics);
      if !planned {
        return false;
      }
      ReadyMeaning(topics, target.topics, plan);
      var src', dst' := Execute(topics, target.topics, plan);
      MovedMeaning(topics, target.topics, src', dst', |topics|);
      MovedOk(topics, target.topics, src', dst', nextId, target.nextId);
      topics := src';
      target.topics := dst';
      ok := true;
    }

    method RemoveTopic(id: nat)
      requires Valid()
      modifies this
      ensures Valid() && nextId == old(nextId)
      ensures var k := PositionOf(old(topics), id);
              topics == if k < 0 then old(topics) else old(topics)[..k] + old(topics)[k + 1..]
    {
      var k := FindSeries(id);
      if k >= 0 {
        WithoutOk(topics, nextId, k);
        topics := topics[..k] + topics[k + 1..];
      }
    }

    /** Forgets all topics, and hands out ids from 1 again. */
    method Clear()
      modifies this
      ensures Valid() && topics == [] && nextId == 1
    {
      topics, nextId := [], 1;
    }
  }

  /** `index` is the last entry not after `t`, or None if there is none. */
  predicate AtOrBefore(entries: seq<Entry>, t: Timestamp, index: Option<nat>) {
    match index
    case None => forall i | 0 <= i < |entries| :: entries[i].ts > t
    case Some(k) => k < |entries| && entries[k].ts <= t && forall i | k < i < |entries| :: entries[i].ts > t
  }
}
