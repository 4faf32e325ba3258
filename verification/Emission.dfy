/** Writing what an operator emits: one row per output topic and emitted event. */
module Emission {
  import opened Orders
  import opened Samples
  import opened Transforms
  import opened World
  import opened Denotation
  import opened TopicStorages
  import opened WriterStates
  import opened BulkAppend
  import opened DataWriters

  /** The rows of topic `t` after the events `emits`, of a node with the given outputs. */
  ghost function RowsFor(outputs: seq<TopicId>, emits: seq<Event>, t: TopicId): seq<Row> {
    if t in outputs then EmitRows(emits, IndexOf(outputs, t)) else []
  }

  ghost predicate Holds(h: Held, outputs: seq<TopicId>, emits: seq<Event>) {
    forall t :: Rows(h, t) == RowsFor(outputs, emits, t) && !RowOpen(h, t)
  }

  /** Event `e` has been written to the first `k` outputs. */
  ghost predicate HoldsPart(h: Held, outputs: seq<TopicId>, emits: seq<Event>, e: Event, k: nat)
    requires k <= |outputs|
  {
    forall t {:trigger HoldsAt(h, outputs, emits, e, k, t)} :: HoldsAt(h, outputs, emits, e, k, t)
  }

  ghost predicate HoldsAt(h: Held, outputs: seq<TopicId>, emits: seq<Event>, e: Event, k: nat, t: TopicId)
    requires k <= |outputs|
  {
    Rows(h, t) == RowsFor(outputs, if t in outputs[..k] then emits + [e] else emits, t) && !RowOpen(h, t)
  }

  lemma IndexOfOwn(outputs: seq<TopicId>, k: nat)
    requires Distinct(outputs) && k < |outputs|
    ensures IndexOf(outputs, outputs[k]) == k && outputs[k] !in outputs[..k]
  {
  }

  lemma EmitRowsPush(emits: seq<Event>, e: Event, k: nat)
    ensures EmitRows(emits + [e], k) == EmitRows(emits, k) + [EmitRow(e, k)]
  {
    assert (emits + [e])[..|emits|] == emits;
  }

  lemma WritesNext(h: Held, h': Held, outputs: seq<TopicId>, emits: seq<Event>, e: Event, k: nat, columns: seq<Column>)
    requires k < |outputs| && Distinct(outputs) && HoldsPart(h, outputs, emits, e, k)
    requires Appended(h, h', outputs[k], columns, [EmitRow(e, k)])
    ensures HoldsPart(h', outputs, emits, e, k + 1)
  {
    var next := k + 1;
    forall t ensures HoldsAt(h', outputs, emits, e, next, t) {
      assert HoldsAt(h, outputs, emits, e, k, t);
      WritesNextAt(h, h', outputs, emits, e, k, columns, t);
    }
  }

  lemma WritesNextAt(h: Held, h': Held, outputs: seq<TopicId>, emits: seq<Event>, e: Event, k: nat,
                     columns: seq<Column>, t: TopicId)
    requires k < |outputs| && Distinct(outputs) && Appended(h, h', outputs[k], columns, [EmitRow(e, k)])
    requires HoldsAt(h, outputs, emits, e, k, t)
    ensures HoldsAt(h', outputs, emits, e, k + 1, t)
  {
    PartGrows(outputs, k, t);
    if t == outputs[k] {
      WritesOwn(outputs, emits, e, k);
    } else {
      OthersSame(h, h', outputs[k], t);
    }
  }

  lemma PartGrows(outputs: seq<TopicId>, k: nat, t: TopicId)
    requires k < |outputs|
    ensures t in outputs[..k + 1] <==> t in outputs[..k] || t == outputs[k]
  {
    assert outputs[..k + 1] == outputs[..k] + [outputs[k]];
  }

  /** The output in turn gets the event's row, and had not got it before. */
  lemma WritesOwn(outputs: seq<TopicId>, emits: seq<Event>, e: Event, k: nat)
    requires k < |outputs| && Distinct(outputs)
    ensures outputs[k] !in outputs[..k]
    ensures RowsFor(outputs, emits + [e], outputs[k]) == RowsFor(outputs, emits, outputs[k]) + [EmitRow(e, k)]
  {
    IndexOfOwn(outputs, k);
    EmitRowsPush(emits, e, k);
  }

  lemma OthersSame(h: Held, h': Held, u: TopicId, t: TopicId)
    requires OthersKept(h, h', u) && t != u
    ensures Rows(h', t) == Rows(h, t) && (RowOpen(h', t) <==> RowOpen(h, t))
  {
    assert PendingOf(h', t) == PendingOf(h, t) && OpenRows(h', t) == OpenRows(h, t);
  }

  lemma WritesStart(h: Held, outputs: seq<TopicId>, emits: seq<Event>, e: Event)
    requires Holds(h, outputs, emits)
    ensures HoldsPart(h, outputs, emits, e, 0)
  {
    forall t ensures HoldsAt(h, outputs, emits, e, 0, t) {
    }
  }

  lemma WritesEnd(h: Held, outputs: seq<TopicId>, emits: seq<Event>, e: Event)
    requires HoldsPart(h, outputs, emits, e, |outputs|)
    ensures Holds(h, outputs, emits + [e])
  {
    assert outputs[..|outputs|] == outputs;
    forall t ensures Rows(h, t) == RowsFor(outputs, emits + [e], t) && !RowOpen(h, t) {
      assert HoldsAt(h, outputs, emits, e, |outputs|, t);
    }
  }

  /** The emitted rows would step back in time on some output. */
  ghost predicate StepsBack(outputs: seq<TopicId>, emits: seq<Event>) {
    exists k: nat :: k < |outputs| && !Sorted(EmitRows(emits, k))
  }

  lemma RefusedStepsBack(h: Held, outputs: seq<TopicId>, emits: seq<Event>, e: Event, k: nat)
    requires k < |outputs| && Distinct(outputs) && HoldsPart(h, outputs, emits, e, k)
    requires !NotBefore(OpenRows(h, outputs[k]), e.ts)
    ensures StepsBack(outputs, emits + [e])
  {
    assert HoldsAt(h, outputs, emits, e, k, outputs[k]);
    IndexOfOwn(outputs, k);
    EmitRowsPush(emits, e, k);
    var rows, all := Rows(h, outputs[k]), EmitRows(emits + [e], k);
    assert rows == EmitRows(emits, k);
    SortedMeaning(all);
    assert all[|rows| - 1].ts == rows[|rows| - 1].ts > all[|rows|].ts;
  }

  /** As far as the writer knows topic `t`, its rows have one cell; and none is in progress. */
  ghost predicate TakesOneCell(h: Held, layouts: map<TopicId, seq<Column>>, t: TopicId) {
    && !RowOpen(h, t)
    && (t in layouts && layouts[t] != [] ==> |layouts[t]| == 1)
    && (OpenLayout(h, t).Some? ==> t in layouts && |layouts[t]| == 1 && OpenLayout(h, t).value == layouts[t])
  }

  ghost predicate OthersTake(h: Held, h': Held, layouts: map<TopicId, seq<Column>>, layouts': map<TopicId, seq<Column>>,
                             t: TopicId) {
    forall u | u != t && TakesOneCell(h, layouts, u) :: TakesOneCell(h', layouts', u)
  }

  lemma StillTake(h: Held, h': Held, layouts: map<TopicId, seq<Column>>, layouts': map<TopicId, seq<Column>>,
                  t: TopicId, columns: seq<Column>)
    requires OthersKept(h, h', t) && (layouts' == layouts || layouts' == layouts[t := columns])
    ensures OthersTake(h, h', layouts, layouts', t)
  {
    forall u | u != t && TakesOneCell(h, layouts, u) ensures TakesOneCell(h', layouts', u) {
      assert PendingOf(h', u) == PendingOf(h, u);
    }
  }

  ghost predicate Ready(w: DataWriter, t: TopicId)
    reads w`builders, w`pending, w`layouts, w.engine`nextChunkId, w.engine`topics, w.engine.topics.Values`columns
  {
    t in w.engine.topics && OneColumn(w.engine.topics[t]) && TakesOneCell(w.State(), w.layouts, t)
  }

  ghost predicate AllReady(w: DataWriter, outputs: seq<TopicId>)
    reads w`builders, w`pending, w`layouts, w.engine`nextChunkId, w.engine`topics, w.engine.topics.Values`columns
  {
    forall t <- outputs :: Ready(w, t)
  }

  lemma OneCell(p: Put, value: Cell)
    requires p.cells == [(0, value)]
    ensures RowOf(1, p) == Row(p.ts, [value])
  {
    assert Values([]) == map[];
    assert p.cells[..0] == [];
    assert Values(p.cells) == map[0 := value];
    assert FillRow(1, map[0 := value]) == [value];
  }

  function OneRound(h: Held, t: TopicId, columns: seq<Column>, maxRows: nat, ts: Timestamp, value: Cell): Held {
    Finished(WithCell(Began(Opened(h, t, columns, maxRows), t, ts), t, 0, value), t)
  }

  lemma OneCellPut(h: Held, t: TopicId, columns: seq<Column>, maxRows: nat, ts: Timestamp, value: Cell)
    requires !RowOpen(h, t)
    ensures PutRow(h, t, columns, maxRows, Put(ts, [(0, value)]))
            == OneRound(h, t, columns, maxRows, ts, value)
  {
    var began := Began(Opened(h, t, columns, maxRows), t, ts);
    assert [(0, value)][..0] == [];
    assert WithCells(began, t, []) == began;
  }

  /** One round of beginRow, set, finishRow. */
  method PutRound(w: DataWriter, t: TopicId, ts: Timestamp, value: Cell) returns (ok: bool)
    requires w.Valid() && t in w.engine.topics && !RowOpen(w.State(), t)
    requires 0 < |if t in w.builders then w.builders[t].columns else w.NextLayout(t)|
    modifies w`builders, w`pending, w`layouts, w.engine`nextChunkId
    ensures w.Valid()
    ensures ok <==> NotBefore(OpenRows(old(w.State()), t), ts)
    ensures ok ==> w.State() == OneRound(old(w.State()), t, old(w.NextLayout(t)),
                                         w.engine.topics[t].descriptor.maxChunkRows, ts, value)
    ensures w.layouts == if t in old(w.builders) then old(w.layouts) else old(w.layouts)[t := old(w.NextLayout(t))]
  {
    ok := w.BeginRow(t, ts);
    if ok {
      w.Set(t, 0, value);
      var finished := w.FinishRow(t);
    }
  }

  lemma PutTakes(h: Held, layouts: map<TopicId, seq<Column>>, t: TopicId, columns: seq<Column>, maxRows: nat,
                 ts: Timestamp, value: Cell)
    requires TakesOneCell(h, layouts, t) && |columns| == 1
    requires t in layouts && layouts[t] != [] ==> columns == layouts[t]
    ensures var h' := OneRound(h, t, columns, maxRows, ts, value);
            var layouts' := if t in h.builders then layouts else layouts[t := columns];
            && Appended(h, h', t, columns, [Row(ts, [value])])
            && TakesOneCell(h', layouts', t) && OthersTake(h, h', layouts, layouts', t)
  {
    OneCellPut(h, t, columns, maxRows, ts, value);
    PutRowMeaning(h, t, columns, maxRows, Put(ts, [(0, value)]));
    OneCell(Put(ts, [(0, value)]), value);
    var h' := PutRow(h, t, columns, maxRows, Put(ts, [(0, value)]));
    StillTake(h, h', layouts, if t in h.builders then layouts else layouts[t := columns], t, columns);
  }

  /** One row with one value; refused exactly when it would step back within the open builder. */
  method PutValue(w: DataWriter, t: TopicId, ts: Timestamp, value: Cell) returns (ok: bool)
    requires w.Valid() && Ready(w, t)
    modifies w`builders, w`pending, w`layouts, w.engine`nextChunkId
    ensures w.Valid()
    ensures ok <==> NotBefore(OpenRows(old(w.State()), t), ts)
    ensures ok ==> TakesOneCell(w.State(), w.layouts, t)
    ensures ok ==> OthersTake(old(w.State()), w.State(), old(w.layouts), w.layouts, t)
    ensures ok ==> Appended(old(w.State()), w.State(), t, old(w.NextLayout(t)), [Row(ts, [value])])
  {
    PutTakes(w.State(), w.layouts, t, w.NextLayout(t), w.engine.topics[t].descriptor.maxChunkRows, ts, value);
    ok := PutRound(w, t, ts, value);
  }
}
