/** Each method of the writer makes one step of a run. */
module WriterCalls {
  import opened Samples
  import opened TopicStorages
  import opened DataEngines
  import opened WriterStates
  import opened BulkAppend
  import opened Flushes
  import opened Layouts
  import opened DataWriters
  import opened WriterRuns

  ghost function TopicSeen(storage: TopicStorage): TopicView
    reads storage`columns, storage`sealedChunks, storage`expansionCounts
  {
    TopicView(storage.descriptor.maxChunkRows, storage.descriptor.expansionLimit, StoredLayout(storage),
        storage.expansionCounts)
  }

  /** `v` is the writer and what it sees. */
  ghost predicate Seen(w: DataWriter, v: View)
    reads w`builders, w`pending, w`layouts, w.engine`nextChunkId, w.engine`topics
    reads w.engine.topics.Values`columns, w.engine.topics.Values`sealedChunks, w.engine.topics.Values`expansionCounts
  {
    && v.held == w.State() && v.layouts == w.layouts && v.topics.Keys == w.engine.topics.Keys
    && forall t <- v.topics :: v.topics[t] == TopicSeen(w.engine.topics[t])
  }

  /** What is seen tells the layout that the next builder of a topic gets, and its limit. */
  lemma SeenLayout(w: DataWriter, v: View, t: TopicId)
    requires Seen(w, v) && t in w.engine.topics
    ensures LayoutFor(v, t) == w.NextLayout(t) && v.topics[t].maxRows == w.engine.topics[t].descriptor.maxChunkRows
  {
    assert v.topics[t] == TopicSeen(w.engine.topics[t]);
  }

  /** No other topic shares the storage of `t`. */
  ghost predicate Alone(engine: DataEngine, t: TopicId)
    reads engine`topics
  {
    t in engine.topics && forall u <- engine.topics | u != t :: engine.topics[u] != engine.topics[t]
  }

  /** A valid engine keeps one storage per topic. */
  lemma AloneInEngine(engine: DataEngine, t: TopicId)
    requires engine.Valid() && t in engine.topics
    ensures Alone(engine, t)
  {
  }

  method DoBeginRow(w: DataWriter, t: TopicId, ts: Timestamp, ghost v: View) returns (ok: bool, ghost v': View)
    requires w.Valid() && Seen(w, v) && Legal(v, BeginRow(t, ts))
    modifies w`builders, w`layouts
    ensures w.Valid() && Seen(w, v') && Stepped(v, Made(BeginRow(t, ts), ok, []), v', w.firstId)
  {
    ok, v' := BeginSeen(w, t, ts, v);
  }

  method BeginSeen(w: DataWriter, t: TopicId, ts: Timestamp, ghost v: View) returns (ok: bool, ghost v': View)
    requires w.Valid() && Seen(w, v) && !RowOpen(v.held, t)
    modifies w`builders, w`layouts
    ensures w.Valid() && Seen(w, v') && RowBegun(v, t, ts, v', ok)
  {
    if t in w.engine.topics {
      SeenLayout(w, v, t);
    }
    ok := w.BeginRow(t, ts);
    v' := View(w.State(), w.layouts, v.topics);
  }

  method DoSet(w: DataWriter, t: TopicId, column: nat, value: Cell, ghost v: View) returns (ghost v': View)
    requires w.Valid() && Seen(w, v) && Legal(v, SetCell(t, column, value))
    modifies w`builders
    ensures w.Valid() && Seen(w, v') && Stepped(v, Made(SetCell(t, column, value), true, []), v', w.firstId)
  {
    w.Set(t, column, value);
    v' := v.(held := w.State());
  }

  method DoFinishRow(w: DataWriter, t: TopicId, ghost v: View) returns (ok: bool, ghost v': View)
    requires w.Valid() && Seen(w, v) && Legal(v, FinishRow(t))
    modifies w`builders, w`pending, w.engine`nextChunkId
    ensures w.Valid() && Seen(w, v') && Stepped(v, Made(FinishRow(t), ok, []), v', w.firstId)
  {
    ok, v' := FinishSeen(w, t, v);
  }

  method FinishSeen(w: DataWriter, t: TopicId, ghost v: View) returns (ok: bool, ghost v': View)
    requires w.Valid() && Seen(w, v) && (t in v.held.builders ==> RowOpen(v.held, t))
    modifies w`builders, w`pending, w.engine`nextChunkId
    ensures w.Valid() && Seen(w, v')
    ensures (ok <==> t in v.held.builders) && v' == if ok then v.(held := Finished(v.held, t)) else v
  {
    ok := w.FinishRow(t);
    v' := v.(held := w.State());
  }

  /** What a bulk append asks of a sound writer. */
  lemma ReadyForBatch(v: View, first: nat, t: TopicId)
    requires Sound(v, first) && !RowOpen(v.held, t) && t in v.topics
    ensures 1 <= v.topics[t].maxRows && BatchReady(v.held, t, LayoutFor(v, t), v.topics[t].maxRows)
  {
    assert TopicSound(v, t);
    LayoutIsCurrent(v, t);
  }

  method DoAppendColumns(w: DataWriter, t: TopicId, times: seq<Timestamp>, data: seq<ColumnData>, ghost v: View)
    returns (ok: bool, ghost v': View)
    requires w.Valid() && Seen(w, v) && Sound(v, w.firstId) && Legal(v, AppendColumns(t, times, data))
    modifies w`builders, w`pending, w`layouts, w.engine`nextChunkId
    ensures w.Valid() && Seen(w, v') && Stepped(v, Made(AppendColumns(t, times, data), ok, []), v', w.firstId)
  {
    if t in w.engine.topics {
      ReadyForBatch(v, w.firstId, t);
    }
    ok, v' := AppendSeen(w, t, times, data, v);
  }

  method AppendSeen(w: DataWriter, t: TopicId, times: seq<Timestamp>, data: seq<ColumnData>, ghost v: View)
    returns (ok: bool, ghost v': View)
    requires w.Valid() && Seen(w, v) && !RowOpen(v.held, t)
    requires forall i, j | 0 <= i < j < |times| :: times[i] <= times[j]
    requires t in v.topics ==>
               && 1 <= v.topics[t].maxRows && BatchReady(v.held, t, LayoutFor(v, t), v.topics[t].maxRows)
               && (SameLength(times, data) && times != [] ==> EachOnce(data, |LayoutFor(v, t)|))
    modifies w`builders, w`pending, w`layouts, w.engine`nextChunkId
    ensures w.Valid() && Seen(w, v') && ColumnsAppended(v, t, times, data, v', ok)
  {
    ok := w.AppendColumns(t, times, data);
    v' := View(w.State(), w.layouts, v.topics);
  }

  method DoFlush(w: DataWriter, t: TopicId, ghost v: View) returns (given: seq<(TopicId, Chunk)>, ghost v': View)
    requires w.Valid() && Seen(w, v)
    modifies w`builders, w`pending, w.engine`nextChunkId
    ensures w.Valid() && Seen(w, v') && Stepped(v, Made(Flush(t), true, given), v', w.firstId)
  {
    var chunks;
    chunks, v' := FlushSeen(w, t, v);
    given := AddTopic([], t, chunks);
    assert forall u :: ChunksFor([], u) == [];
  }

  method FlushSeen(w: DataWriter, t: TopicId, ghost v: View) returns (chunks: seq<Chunk>, ghost v': View)
    requires w.Valid() && Seen(w, v)
    modifies w`builders, w`pending, w.engine`nextChunkId
    ensures w.Valid() && Seen(w, v') && v' == v.(held := Taken(AllShut(v.held, t), t))
    ensures chunks == PendingOf(AllShut(v.held, t), t)
  {
    chunks := w.Flush(t);
    v' := v.(held := w.State());
  }

  method DoFlushAll(w: DataWriter, ghost v: View) returns (given: seq<(TopicId, Chunk)>, ghost v': View)
    requires w.Valid() && Seen(w, v)
    modifies w`builders, w`pending, w.engine`nextChunkId
    ensures w.Valid() && Seen(w, v') && Stepped(v, Made(FlushAll, true, given), v', w.firstId)
  {
    given := w.FlushAll();
    v' := v.(held := w.State());
  }

  // ---------------------------------------------------------------- changes of layout

  method EnsureSeen(w: DataWriter, t: TopicId, path: string, logicalType: nat, ghost v: View)
      returns (ok: bool, ghost v': View)
    requires w.Valid() && Seen(w, v) && Alone(w.engine, t) && LayoutOk(LayoutFor(v, t))
    modifies w`builders, w`pending, w`layouts, w.engine`nextChunkId, w.StorageOf(t)`columns
    ensures w.Valid() && Seen(w, v') && ColumnEnsured(v, t, path, logicalType, v', ok)
  {
    ok := EnsureOne(w, t, path, logicalType, v);
    v' := View(w.State(), w.layouts, v.topics[t := TopicSeen(w.engine.topics[t])]);
    if HasPath(LayoutFor(v, t), path) || RowOpen(v.held, t) {
      assert v'.topics == v.topics;
    } else {
      WithColumnOk(LayoutFor(v, t), path, logicalType);
    }
  }

  /** What the call does to the writer and to the storage of its topic. */
  method EnsureOne(w: DataWriter, t: TopicId, path: string, logicalType: nat, ghost v: View) returns (ok: bool)
    requires w.Valid() && Seen(w, v) && t in w.engine.topics
    modifies w`builders, w`pending, w`layouts, w.engine`nextChunkId, w.StorageOf(t)`columns
    ensures w.Valid()
    ensures var storage, next := w.engine.topics[t], LayoutFor(v, t);
            if HasPath(next, path) || RowOpen(v.held, t) then
              && w.State() == v.held && w.layouts == v.layouts[t := next] && TopicSeen(storage) == v.topics[t]
              && (!HasPath(next, path) ==> !ok)
            else
              var columns := WithColumn(next, path, logicalType);
              && ok && w.State() == ShutForLayout(v.held, t) && w.layouts == v.layouts[t := columns]
              && TopicSeen(storage) == v.topics[t].(stored := columns)
  {
    SeenLayout(w, v, t);
    var r := w.EnsureColumn(t, path, logicalType);
    ok := r.Ok?;
  }

  method DoEnsureColumn(w: DataWriter, t: TopicId, path: string, logicalType: nat, ghost v: View)
    returns (ok: bool, ghost v': View)
    requires w.Valid() && Seen(w, v) && Sound(v, w.firstId) && w.engine.Valid()
    modifies w`builders, w`pending, w`layouts, w.engine`nextChunkId, w.StorageOf(t)`columns
    ensures w.Valid() && Seen(w, v') && Stepped(v, Made(EnsureColumn(t, path, logicalType), ok, []), v', w.firstId)
  {
    if t in w.engine.topics {
      assert TopicSound(v, t);
      AloneInEngine(w.engine, t);
      ok, v' := EnsureSeen(w, t, path, logicalType, v);
    } else {
      var r := w.EnsureColumn(t, path, logicalType);
      ok, v' := r.Ok?, v;
    }
  }

  lemma Expanded(v: View, t: TopicId, path: string, newLength: nat, columns: seq<Column>, v': View)
    requires t in v.topics && LayoutFor(v, t) <= columns && (LayoutOk(LayoutFor(v, t)) ==> LayoutOk(columns))
    requires var wanted := Clamped(v.topics[t], CountOf(v.topics[t], path), newLength);
             wanted != CountOf(v.topics[t], path) && LayoutSet(v, t, columns, v.topics[t].counts[path := wanted], v')
    ensures ArrayExpanded(v, t, path, newLength, v', true)
  {
    var wanted := Clamped(v.topics[t], CountOf(v.topics[t], path), newLength);
    assert LayoutChanged(v, t, columns, v.topics[t].counts[path := wanted], v');
  }

  /** What the call does to the writer and to the storage of its topic. */
  method ExpandOne(w: DataWriter, t: TopicId, path: string, newLength: nat, elementType: nat, field: ArrayField,
                   ghost tv: TopicView)
    returns (ok: bool)
    requires w.Valid() && t in w.engine.topics && tv == TopicSeen(w.engine.topics[t])
    requires field.Elements? ==> LeavesOk(field.leaves)
    modifies w`builders, w`pending, w`layouts, w.engine`nextChunkId, w.StorageOf(t)`columns,
             w.StorageOf(t)`expansionCounts, w.StorageOf(t)`maxObserved, w.StorageOf(t)`truncated
    ensures w.Valid()
    ensures var storage, wanted := w.engine.topics[t], Clamped(tv, CountOf(tv, path), newLength);
            if ok && wanted != CountOf(tv, path) then
              && w.State() == ShutForLayout(old(w.State()), t) && w.layouts == old(w.layouts)[t := storage.columns]
              && old(w.NextLayout(t)) <= storage.columns
                  && (old(LayoutOk(w.NextLayout(t))) ==> LayoutOk(storage.columns))
              && TopicSeen(storage) == tv.(stored := storage.columns, counts := tv.counts[path := wanted])
            else w.State() == old(w.State()) && w.layouts == old(w.layouts) && TopicSeen(storage) == tv
  {
    var r := w.ExpandArray(t, path, newLength, elementType, field);
    ok := r.Ok?;
  }

  method ExpandSeen(w: DataWriter, t: TopicId, path: string, newLength: nat, elementType: nat, field: ArrayField,
                    ghost v: View)
    returns (ok: bool, ghost v': View)
    requires w.Valid() && Seen(w, v) && Alone(w.engine, t) && (field.Elements? ==> LeavesOk(field.leaves))
    modifies w`builders, w`pending, w`layouts, w.engine`nextChunkId, w.StorageOf(t)`columns,
             w.StorageOf(t)`expansionCounts, w.StorageOf(t)`maxObserved, w.StorageOf(t)`truncated
    ensures w.Valid() && Seen(w, v') && ArrayExpanded(v, t, path, newLength, v', ok)
  {
    ok := ExpandOne(w, t, path, newLength, elementType, field, v.topics[t]);
    v' := View(w.State(), w.layouts, v.topics[t := TopicSeen(w.engine.topics[t])]);
    if ok && Clamped(v.topics[t], CountOf(v.topics[t], path), newLength) != CountOf(v.topics[t], path) {
      Expanded(v, t, path, newLength, w.engine.topics[t].columns, v');
    } else {
      assert v'.topics == v.topics;
    }
  }

  method DoExpandArray(w: DataWriter, t: TopicId, path: string, newLength: nat, elementType: nat, field: ArrayField,
                       ghost v: View)
    returns (ok: bool, ghost v': View)
    requires w.Valid() && Seen(w, v) && Legal(v, ExpandArray(t, path, newLength, elementType, field))
    requires w.engine.Valid()
    modifies w`builders, w`pending, w`layouts, w.engine`nextChunkId, w.StorageOf(t)`columns,
             w.StorageOf(t)`expansionCounts, w.StorageOf(t)`maxObserved, w.StorageOf(t)`truncated
    ensures w.Valid() && Seen(w, v')
    ensures Stepped(v, Made(ExpandArray(t, path, newLength, elementType, field), ok, []), v', w.firstId)
  {
    if t in w.engine.topics {
      AloneInEngine(w.engine, t);
      ok, v' := ExpandSeen(w, t, path, newLength, elementType, field, v);
    } else {
      var r := w.ExpandArray(t, path, newLength, elementType, field);
      ok, v' := r.Ok?, v;
    }
  }
}
