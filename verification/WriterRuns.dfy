/** Whole runs of a writer: what every call keeps, and where every accepted row is. */
module WriterRuns {
  import opened Samples
  import opened TopicStorages
  import opened DataEngines
  import opened WriterStates
  import opened BulkAppend
  import opened Flushes
  import opened Layouts
  import opened DataWriters

  /** What a writer sees of a topic: its limits, the layout it would load, and how far its array fields are expanded. */
  datatype TopicView = TopicView(maxRows: nat, limit: nat, stored: seq<Column>, counts: map<string, nat>)

  /** A writer and what it sees. */
  datatype View = View(held: Held, layouts: map<TopicId, seq<Column>>, topics: map<TopicId, TopicView>)

  function CountOf(tv: TopicView, path: string): nat {
    if path in tv.counts then tv.counts[path] else 0
  }

  /** The layout the next builder of a topic gets. */
  function LayoutFor(v: View, t: TopicId): seq<Column>
    requires t in v.topics
  {
    if t in v.layouts && v.layouts[t] != [] then v.layouts[t] else v.topics[t].stored
  }

  /** A call on the writer, or whatever happens elsewhere in the engine between two calls. */
  datatype Call =
    | BeginRow(t: TopicId, ts: Timestamp)
    | SetCell(t: TopicId, column: nat, value: Cell)
    | FinishRow(t: TopicId)
    | AppendColumns(t: TopicId, times: seq<Timestamp>, data: seq<ColumnData>)
    | Flush(t: TopicId)
    | FlushAll
    | EnsureColumn(t: TopicId, path: string, logicalType: nat)
    | ExpandArray(t: TopicId, path: string, newLength: nat, elementType: nat, field: ArrayField)
    | Elsewhere

  /** A call that was made: whether it succeeded, and the chunks it handed over. */
  datatype Made = Made(call: Call, ok: bool, given: seq<(TopicId, Chunk)>)

  // ---------------------------------------------------------------- what the caller must see to

  ghost predicate Legal(v: View, c: Call) {
    match c
    case BeginRow(t, _) => !RowOpen(v.held, t)
    case SetCell(t, column, _) =>
      RowOpen(v.held, t) && column < |v.held.builders[t].columns| && column !in v.held.builders[t].current.value
    case FinishRow(t) => t in v.held.builders ==> RowOpen(v.held, t)
    case AppendColumns(t, times, data) =>
      && !RowOpen(v.held, t) && (forall i, j | 0 <= i < j < |times| :: times[i] <= times[j])
      && (t in v.topics && SameLength(times, data) && times != [] ==> EachOnce(data, |LayoutFor(v, t)|))
    case Flush(_) => true
    case FlushAll => true
    case EnsureColumn(_, _, _) => true
    case ExpandArray(_, _, _, _, field) => field.Elements? ==> LeavesOk(field.leaves)
    case Elsewhere => true
  }

  // ---------------------------------------------------------------- the calls, on values

  /** The layouts after a builder was asked for. */
  function Loaded(v: View, t: TopicId): map<TopicId, seq<Column>>
    requires t in v.topics
  {
    if t in v.held.builders then v.layouts else v.layouts[t := LayoutFor(v, t)]
  }

  ghost predicate RowBegun(v: View, t: TopicId, ts: Timestamp, v': View, ok: bool) {
    && v'.topics == v.topics && (ok <==> t in v.topics && NotBefore(OpenRows(v.held, t), ts))
    && if t !in v.topics then v'.held == v.held && v'.layouts == v.layouts
       else
         v'.held == Begun(v.held, t, ts, LayoutFor(v, t), v.topics[t].maxRows, ok) && v'.layouts == Loaded(v, t)
  }

  ghost predicate ColumnsAppended(v: View, t: TopicId, times: seq<Timestamp>, data: seq<ColumnData>, v': View,
                                  ok: bool) {
    && v'.topics == v.topics
    && (ok <==> t in v.topics && SameLength(times, data) && (times != [] ==> NotBefore(OpenRows(v.held, t), times[0])))
    && v'.held == (if ok then PutRows(v.held, t, LayoutFor(v, t), v.topics[t].maxRows, BulkPuts(times, data))
        else v.held)
    && v'.layouts == (if ok && times != [] then Loaded(v, t) else v.layouts)
  }

  ghost predicate AllFlushed(v: View, v': View, given: seq<(TopicId, Chunk)>, first: nat) {
    && v'.topics == v.topics && v'.layouts == v.layouts && v'.held.pending == map[]
    && Conserves(given, v'.held, first, v.held) && WithRows(v'.held) == {} && BatchFits(given, v.held)
    && BatchNumbered(given, v.held, v'.held.counter)
    && (forall t <- v'.held.builders :: t in v.held.builders && v'.held.builders[t] == v.held.builders[t])
    && v.held.counter <= v'.held.counter
  }

  /** The topic gets the layout `columns`, stored and loaded; what was written under the old one is sealed. */
  ghost predicate LayoutSet(v: View, t: TopicId, columns: seq<Column>, counts: map<string, nat>, v': View)
    requires t in v.topics
  {
    && v'.held == ShutForLayout(v.held, t) && v'.layouts == v.layouts[t := columns]
    && v'.topics == v.topics[t := v.topics[t].(stored := columns, counts := counts)]
  }

  /** A longer layout that is in order if the old one was. */
  ghost predicate LayoutChanged(v: View, t: TopicId, columns: seq<Column>, counts: map<string, nat>, v': View)
    requires t in v.topics
  {
    && LayoutSet(v, t, columns, counts, v')
    && LayoutFor(v, t) <= columns && (LayoutOk(LayoutFor(v, t)) ==> LayoutOk(columns))
  }

  /** The loaded layout is brought in, and nothing else changes. */
  ghost predicate Reloaded(v: View, t: TopicId, v': View)
    requires t in v.topics
  {
    v'.held == v.held && v'.topics == v.topics && v'.layouts == v.layouts[t := LayoutFor(v, t)]
  }

  ghost predicate ColumnEnsured(v: View, t: TopicId, path: string, logicalType: nat, v': View, ok: bool) {
    if t !in v.topics then v' == v && !ok
    else if HasPath(LayoutFor(v, t), path) || RowOpen(v.held, t) then
      && Reloaded(v, t, v')
      && (!HasPath(LayoutFor(v, t), path) ==> !ok)
    else ok && LayoutChanged(v, t, WithColumn(LayoutFor(v, t), path, logicalType), v.topics[t].counts, v')
  }

  /** The count a request leads to: no more than the limit, and never less than before. */
  function Clamped(tv: TopicView, count: nat, newLength: nat): nat {
    Max(count, Min(newLength, tv.limit))
  }

  ghost predicate ArrayExpanded(v: View, t: TopicId, path: string, newLength: nat, v': View, ok: bool) {
    if t !in v.topics then v' == v && !ok
    else
      var count := CountOf(v.topics[t], path);
      var wanted := Clamped(v.topics[t], count, newLength);
      if !ok || wanted == count then v' == v
      else SomeLayoutChanged(v, t, v.topics[t].counts[path := wanted], v')
  }

  ghost predicate SomeLayoutChanged(v: View, t: TopicId, counts: map<string, nat>, v': View)
    requires t in v.topics
  {
    exists columns :: LayoutChanged(v, t, columns, counts, v')
  }

  /** Elsewhere a topic keeps its limits and its layout, and may only get one if none was known. */
  ghost predicate StaysKnown(tv: TopicView, tv': TopicView) {
    && tv'.maxRows == tv.maxRows && tv'.limit == tv.limit && tv'.counts == tv.counts
    && (tv.stored != [] ==> tv'.stored == tv.stored)
  }

  /**
   * Commits, chunks numbered by other writers, and new topics: nothing of what this writer holds. New layouts are in
   * order, and a topic for which this writer has loaded an empty layout gets none.
   */
  ghost predicate Elapsed(v: View, v': View) {
    && v'.layouts == v.layouts && v'.held == v.held.(counter := v'.held.counter) && v.held.counter <= v'.held.counter
    && (forall t <- v.topics :: t in v'.topics && StaysKnown(v.topics[t], v'.topics[t]))
    && (forall t <- v'.topics ::
          && 1 <= v'.topics[t].maxRows && LayoutOk(LayoutFor(v', t))
          && (t in v.layouts && v.layouts[t] == [] ==> v'.topics[t].stored == []))
    && (forall t <- v'.topics | t !in v.topics :: t !in v.layouts)
  }

  /** What a call does; `first` is the number from which on the writer numbers its chunks. */
  ghost predicate Stepped(v: View, m: Made, v': View, first: nat) {
    && (m.call.Flush? || m.call.FlushAll? || m.given == [])
    && match m.call
       case BeginRow(t, ts) => RowBegun(v, t, ts, v', m.ok)
       case SetCell(t, column, value) => RowOpen(v.held, t) && v' == v.(held := WithCell(v.held, t, column, value))
       case FinishRow(t) =>
         (m.ok <==> t in v.held.builders) && (m.ok ==> RowOpen(v.held, t))
         && v' == if m.ok then v.(held := Finished(v.held, t)) else v
       case AppendColumns(t, times, data) => ColumnsAppended(v, t, times, data, v', m.ok)
       case Flush(t) =>
         && v' == v.(held := Taken(AllShut(v.held, t), t))
         && forall u :: ChunksFor(m.given, u) == if u == t then PendingOf(AllShut(v.held, t), t) else []
       case FlushAll => AllFlushed(v, v', m.given, first)
       case EnsureColumn(t, path, logicalType) => ColumnEnsured(v, t, path, logicalType, v', m.ok)
       case ExpandArray(t, path, newLength, _, _) => ArrayExpanded(v, t, path, newLength, v', m.ok)
       case Elsewhere => Elapsed(v, v')
  }

  // ---------------------------------------------------------------- what every call keeps

  /** A topic's chunks are within its limit, its open builder has the loaded layout, and ids and paths are in order. */
  ghost predicate TopicSound(v: View, t: TopicId)
    requires t in v.topics
  {
    && 1 <= v.topics[t].maxRows && Bounded(v.held, t, v.topics[t].maxRows)
    && (t in v.held.builders ==> t in v.layouts && v.held.builders[t].columns == v.layouts[t])
    && (t in v.layouts && v.layouts[t] == [] ==> v.topics[t].stored == [])
    && LayoutOk(LayoutFor(v, t))
  }

  ghost predicate Sound(v: View, first: nat) {
    HeldOk(v.held, v.topics.Keys, first) && forall t <- v.topics :: TopicSound(v, t)
  }

  /** In a sound state the open builder, if any, has the layout the next one would get. */
  lemma LayoutIsCurrent(v: View, t: TopicId)
    requires t in v.topics && TopicSound(v, t)
    ensures LayoutIs(v.held, t, LayoutFor(v, t))
  {
  }

  /** What another topic's soundness rests on is the same. */
  ghost predicate SameFor(v: View, v': View, u: TopicId) {
    && v'.topics.Keys == v.topics.Keys && (u in v.topics ==> v'.topics[u] == v.topics[u])
    && (u in v'.layouts <==> u in v.layouts) && (u in v.layouts ==> v'.layouts[u] == v.layouts[u])
    && (u in v'.held.builders <==> u in v.held.builders)
    && (u in v.held.builders ==> v'.held.builders[u] == v.held.builders[u])
    && PendingOf(v'.held, u) == PendingOf(v.held, u)
  }

  lemma OthersSound(v: View, v': View, t: TopicId)
    requires (forall u <- v.topics :: TopicSound(v, u)) && v'.topics.Keys == v.topics.Keys
    requires forall u | u != t :: SameFor(v, v', u)
    ensures forall u <- v'.topics | u != t :: TopicSound(v', u)
  {
    forall u <- v'.topics | u != t ensures TopicSound(v', u) {
      assert TopicSound(v, u) && SameFor(v, v', u);
    }
  }

  /** The state of one topic changed as a step says, and the others are as they were. */
  lemma TopicStepSound(v: View, t: TopicId, v': View, first: nat)
    requires Sound(v, first) && t in v.topics && HeldOk(v'.held, v'.topics.Keys, first)
    requires v'.topics.Keys == v.topics.Keys && TopicSound(v', t) && forall u | u != t :: SameFor(v, v', u)
    ensures Sound(v', first)
  {
    OthersSound(v, v', t);
  }

  lemma BuilderStepOthers(v: View, t: TopicId, b: Builder, layouts: map<TopicId, seq<Column>>, v': View)
    requires v' == v.(held := v.held.(builders := v.held.builders[t := b]), layouts := layouts)
    requires layouts == v.layouts || (t in v.topics && layouts == v.layouts[t := LayoutFor(v, t)])
    ensures forall u | u != t :: SameFor(v, v', u)
  {
  }

  lemma BeginSound(v: View, t: TopicId, ts: Timestamp, v': View, ok: bool, first: nat)
    requires Sound(v, first) && !RowOpen(v.held, t) && RowBegun(v, t, ts, v', ok)
    ensures Sound(v', first)
  {
    if t in v.topics {
      assert TopicSound(v, t);
      var columns, max := LayoutFor(v, t), v.topics[t].maxRows;
      BegunKeeps(v.held, t, ts, columns, max, ok, v.topics.Keys, first);
      BegunOne(v.held, t, ts, columns, max, ok);
      BuilderStepOthers(v, t, v'.held.builders[t], v'.layouts, v');
      TopicStepSound(v, t, v', first);
    }
  }

  lemma BegunKeeps(h: Held, t: TopicId, ts: Timestamp, columns: seq<Column>, max: nat, ok: bool, topics: set<TopicId>,
                   first: nat)
    requires HeldOk(h, topics, first) && t in topics && (ok ==> NotBefore(OpenRows(h, t), ts))
    ensures HeldOk(Begun(h, t, ts, columns, max, ok), topics, first)
  {
    OpenedKeeps(h, t, columns, max, topics, first);
    if ok {
      BeganKeeps(Opened(h, t, columns, max), t, ts, topics, first);
    }
  }

  /** Only the builder of `t` is touched, and its rows, layout and limit stay. */
  lemma BegunOne(h: Held, t: TopicId, ts: Timestamp, columns: seq<Column>, max: nat, ok: bool)
    ensures var h' := Begun(h, t, ts, columns, max, ok);
            && t in h'.builders && h' == h.(builders := h.builders[t := h'.builders[t]])
            && if t in h.builders
               then h'.builders[t] == h.builders[t].(lastTs := h'.builders[t].lastTs, current := h'.builders[t].current)
               else h'.builders[t].columns == columns && h'.builders[t].maxRows == max && h'.builders[t].rows == []
  {
  }

  lemma CellSound(v: View, t: TopicId, column: nat, value: Cell, first: nat)
    requires Sound(v, first) && RowOpen(v.held, t)
    ensures Sound(v.(held := WithCell(v.held, t, column, value)), first)
  {
    var v' := v.(held := WithCell(v.held, t, column, value));
    assert TopicSound(v, t);
    WithCellKeeps(v.held, t, column, value, v.topics.Keys, first);
    BuilderStepOthers(v, t, v'.held.builders[t], v'.layouts, v');
    TopicStepSound(v, t, v', first);
  }

  lemma FinishSound(v: View, t: TopicId, first: nat)
    requires Sound(v, first) && RowOpen(v.held, t)
    ensures Sound(v.(held := Finished(v.held, t)), first)
  {
    var v' := v.(held := Finished(v.held, t));
    assert TopicSound(v, t);
    FinishedKeeps(v.held, t, v.topics.Keys, first);
    FinishedBounded(v.held, t, v.topics[t].maxRows);
    forall u | u != t ensures SameFor(v, v', u) {
    }
    TopicStepSound(v, t, v', first);
  }

  /** Only topic `t` differs between two held states. */
  ghost predicate Only(h: Held, h': Held, t: TopicId) {
    forall u | u != t ::
      && (u in h'.builders <==> u in h.builders) && (u in h.builders ==> h'.builders[u] == h.builders[u])
      && PendingOf(h', u) == PendingOf(h, u)
  }

  lemma PutRowOnly(h: Held, t: TopicId, columns: seq<Column>, maxRows: nat, p: Put)
    ensures Only(h, PutRow(h, t, columns, maxRows, p), t)
  {
    WithCellsSets(Began(Opened(h, t, columns, maxRows), t, p.ts), t, p.cells);
  }

  lemma {:induction false} PutRowsOnly(h: Held, t: TopicId, columns: seq<Column>, maxRows: nat, puts: seq<Put>)
    ensures Only(h, PutRows(h, t, columns, maxRows, puts), t)
  {
    if puts != [] {
      PutRowsOnly(h, t, columns, maxRows, puts[..|puts| - 1]);
      PutRowOnly(PutRows(h, t, columns, maxRows, puts[..|puts| - 1]), t, columns, maxRows, puts[|puts| - 1]);
    }
  }

  lemma BulkInOrder(times: seq<Timestamp>, data: seq<ColumnData>)
    requires SameLength(times, data) && forall i, j | 0 <= i < j < |times| :: times[i] <= times[j]
    ensures PutsInOrder(BulkPuts(times, data))
  {
  }

  /** The rows of a bulk append, put one by one, keep the state in order. */
  lemma PutsSound(v: View, t: TopicId, times: seq<Timestamp>, data: seq<ColumnData>, first: nat)
    requires Sound(v, first) && Legal(v, AppendColumns(t, times, data)) && t in v.topics && SameLength(times, data)
    requires times != [] ==> NotBefore(OpenRows(v.held, t), times[0])
    ensures var h := PutRows(v.held, t, LayoutFor(v, t), v.topics[t].maxRows, BulkPuts(times, data));
            && HeldOk(h, v.topics.Keys, first) && Bounded(h, t, v.topics[t].maxRows)
            && LayoutIs(h, t, LayoutFor(v, t)) && Only(v.held, h, t) && (times == [] ==> h == v.held)
  {
    assert TopicSound(v, t);
    LayoutIsCurrent(v, t);
    BulkInOrder(times, data);
    var puts, columns, max := BulkPuts(times, data), LayoutFor(v, t), v.topics[t].maxRows;
    PutRowsKeep(v.held, t, columns, max, puts, v.topics.Keys, first);
    PutRowsBounded(v.held, t, columns, max, puts);
    PutRowsOnly(v.held, t, columns, max, puts);
    assert times == [] ==> puts == [];
  }

  lemma AppendSound(v: View, t: TopicId, times: seq<Timestamp>, data: seq<ColumnData>, v': View, ok: bool, first: nat)
    requires Sound(v, first) && Legal(v, AppendColumns(t, times, data)) && ColumnsAppended(v, t, times, data, v', ok)
    ensures Sound(v', first)
  {
    if ok {
      PutsSound(v, t, times, data, first);
      if times != [] {
        PutLayouts(v, t, v', first);
      }
    }
  }

  lemma PutLayouts(v: View, t: TopicId, v': View, first: nat)
    requires Sound(v, first) && t in v.topics && v'.topics == v.topics && v'.layouts == Loaded(v, t)
    requires HeldOk(v'.held, v.topics.Keys, first) && Bounded(v'.held, t, v.topics[t].maxRows)
    requires LayoutIs(v'.held, t, LayoutFor(v, t)) && Only(v.held, v'.held, t)
    ensures Sound(v', first)
  {
    assert TopicSound(v, t);
    forall u | u != t ensures SameFor(v, v', u) {
    }
    TopicStepSound(v, t, v', first);
  }

  lemma TakenTopicSound(v: View, t: TopicId)
    requires t in v.topics && TopicSound(v, t)
    ensures TopicSound(v.(held := Taken(AllShut(v.held, t), t)), t)
  {
    assert PendingOf(Taken(AllShut(v.held, t), t), t) == [];
  }

  lemma TakenOthers(v: View, t: TopicId)
    ensures forall u | u != t :: SameFor(v, v.(held := Taken(AllShut(v.held, t), t)), u)
  {
  }

  lemma FlushSound(v: View, t: TopicId, first: nat)
    requires Sound(v, first)
    ensures Sound(v.(held := Taken(AllShut(v.held, t), t)), first)
  {
    var v' := v.(held := Taken(AllShut(v.held, t), t));
    TakenMeaning(v.held, t, v.topics.Keys, first);
    if t in v.topics {
      TakenTopicSound(v, t);
      TakenOthers(v, t);
      TopicStepSound(v, t, v', first);
    } else {
      assert v'.held == v.held;
    }
  }

  lemma FlushAllSound(v: View, v': View, given: seq<(TopicId, Chunk)>, first: nat)
    requires Sound(v, first) && AllFlushed(v, v', given, first)
    ensures Sound(v', first)
  {
    forall t <- v'.topics ensures TopicSound(v', t) {
      assert TopicSound(v, t);
    }
    assert HeldOk(v'.held, v'.topics.Keys, first) by {
      forall t <- v'.held.builders ensures BuilderOk(v'.held.builders[t]) {
        assert BuilderOk(v.held.builders[t]);
      }
    }
  }

  lemma LayoutSound(v: View, t: TopicId, columns: seq<Column>, counts: map<string, nat>, v': View, first: nat)
    requires Sound(v, first) && t in v.topics && LayoutChanged(v, t, columns, counts, v')
    ensures Sound(v', first)
  {
    ShutForLayoutKeeps(v.held, t, v.topics.Keys, first);
    LayoutTopicSound(v, t, columns, counts, v');
    LayoutOthers(v, t, columns, counts, v');
    TopicStepSound(v, t, v', first);
  }

  lemma LayoutTopicSound(v: View, t: TopicId, columns: seq<Column>, counts: map<string, nat>, v': View)
    requires t in v.topics && TopicSound(v, t) && LayoutChanged(v, t, columns, counts, v')
    ensures TopicSound(v', t)
  {
    ShutForLayoutBounded(v.held, t, v.topics[t].maxRows);
  }

  lemma LayoutOthers(v: View, t: TopicId, columns: seq<Column>, counts: map<string, nat>, v': View)
    requires t in v.topics && LayoutSet(v, t, columns, counts, v')
    ensures forall u | u != t :: SameFor(v, v', u)
  {
  }

  lemma ReloadSound(v: View, t: TopicId, v': View, first: nat)
    requires Sound(v, first) && t in v.topics && v' == v.(layouts := v.layouts[t := LayoutFor(v, t)])
    ensures Sound(v', first)
  {
    assert TopicSound(v, t);
    forall u | u != t ensures SameFor(v, v', u) {
    }
    TopicStepSound(v, t, v', first);
  }

  lemma ElapsedSound(v: View, v': View, first: nat)
    requires Sound(v, first) && Elapsed(v, v')
    ensures Sound(v', first)
  {
    forall t <- v'.held.pending ensures Staged(v'.held.pending[t], first, v'.held.counter) {
      StagedLater(v.held.pending[t], first, v.held.counter, v'.held.counter);
    }
    forall t <- v'.topics ensures TopicSound(v', t) {
      if t in v.topics {
        assert TopicSound(v, t) && StaysKnown(v.topics[t], v'.topics[t]);
      } else {
        assert PendingOf(v'.held, t) == [];
      }
    }
  }

  /** Every legal call keeps a sound writer sound. */
  lemma StepSound(v: View, m: Made, v': View, first: nat)
    requires Sound(v, first) && Legal(v, m.call) && Stepped(v, m, v', first)
    ensures Sound(v', first)
  {
    match m.call
    case BeginRow(t, ts) => BeginSound(v, t, ts, v', m.ok, first);
    case SetCell(t, column, value) => CellSound(v, t, column, value, first);
    case FinishRow(t) => if m.ok { FinishSound(v, t, first); }
    case AppendColumns(t, times, data) => AppendSound(v, t, times, data, v', m.ok, first);
    case Flush(t) => FlushSound(v, t, first);
    case FlushAll => FlushAllSound(v, v', m.given, first);
    case EnsureColumn(t, path, logicalType) =>
      if t in v.topics {
        if HasPath(LayoutFor(v, t), path) || RowOpen(v.held, t) {
          ReloadSound(v, t, v', first);
        } else {
          LayoutSound(v, t, WithColumn(LayoutFor(v, t), path, logicalType), v.topics[t].counts, v', first);
        }
      }
    case ExpandArray(t, path, newLength, _, _) =>
      if v' != v {
        var wanted := Clamped(v.topics[t], CountOf(v.topics[t], path), newLength);
        var columns :| LayoutChanged(v, t, columns, v.topics[t].counts[path := wanted], v');
        LayoutSound(v, t, columns, v.topics[t].counts[path := wanted], v', first);
      }
    case Elsewhere => ElapsedSound(v, v', first);
  }

  // ---------------------------------------------------------------- conservation

  /** The rows that a call adds to a topic. */
  ghost function Gains(v: View, c: Call, ok: bool, t: TopicId): seq<Row> {
    match c
    case FinishRow(u) => if ok && u == t && RowOpen(v.held, t) then [OpenRow(v.held.builders[t])] else []
    case AppendColumns(u, times, data) =>
      if ok && u == t && t in v.topics && SameLength(times, data)
          then RowsOf(|LayoutFor(v, t)|, BulkPuts(times, data)) else []
    case _ => []
  }

  /** What a call hands over, and what the writer then holds, is what it held before and what the call added. */
  lemma StepConserves(v: View, m: Made, v': View, first: nat, t: TopicId)
    requires Sound(v, first) && Legal(v, m.call) && Stepped(v, m, v', first)
    ensures Flatten(ChunksFor(m.given, t)) + Rows(v'.held, t) == Rows(v.held, t) + Gains(v, m.call, m.ok, t)
  {
    if m.call.Flush? {
      FlushConserves(v, m.call.t, m.given, t, first);
    } else if m.call.FlushAll? {
      AllHandedOver(m.given, v'.held, first, v.held, t);
      assert t !in WithRows(v'.held);
      assert Rows(v.held, t) + [] == Rows(v.held, t);
      assert Flatten(ChunksFor(m.given, t)) + [] == Rows(v.held, t);
    } else {
      assert Flatten(ChunksFor(m.given, t)) == [];
      KeptOrGained(v, m, v', first, t);
      assert [] + Rows(v'.held, t) == Rows(v'.held, t);
    }
  }

  lemma FlushConserves(v: View, u: TopicId, given: seq<(TopicId, Chunk)>, t: TopicId, first: nat)
    requires Sound(v, first)
    requires forall w :: ChunksFor(given, w) == if w == u then PendingOf(AllShut(v.held, u), u) else []
    ensures Flatten(ChunksFor(given, t)) + Rows(Taken(AllShut(v.held, u), u), t) == Rows(v.held, t) + []
  {
    TakenMeaning(v.held, u, v.topics.Keys, first);
    var h' := Taken(AllShut(v.held, u), u);
    if t == u {
      assert Flatten(ChunksFor(given, t)) + [] == Rows(v.held, t);
    } else {
      assert PendingOf(h', t) == PendingOf(v.held, t);
      assert [] + Rows(v.held, t) == Rows(v.held, t) + [];
    }
  }

  lemma KeptOrGained(v: View, m: Made, v': View, first: nat, t: TopicId)
    requires Sound(v, first) && Legal(v, m.call) && Stepped(v, m, v', first) && !m.call.Flush? && !m.call.FlushAll?
    ensures Rows(v'.held, t) == Rows(v.held, t) + Gains(v, m.call, m.ok, t)
  {
    if m.call.FinishRow? && m.ok {
      FinishGains(v.held, m.call.t, t);
    } else if m.call.AppendColumns? && m.ok {
      PutsGained(v, m.call.t, m.call.times, m.call.data, first, t);
    } else {
      GainsNothing(v, m, v', first, t);
      assert Rows(v.held, t) + [] == Rows(v.held, t);
    }
  }

  lemma SameHeldRows(h: Held, h': Held, t: TopicId)
    requires h'.pending == h.pending && OpenRows(h', t) == OpenRows(h, t)
    ensures Rows(h', t) == Rows(h, t)
  {
    assert PendingOf(h', t) == PendingOf(h, t);
  }

  lemma BegunRows(v: View, u: TopicId, ts: Timestamp, v': View, ok: bool, t: TopicId)
    requires RowBegun(v, u, ts, v', ok)
    ensures Rows(v'.held, t) == Rows(v.held, t)
  {
    if u in v.topics {
      BegunOne(v.held, u, ts, LayoutFor(v, u), v.topics[u].maxRows, ok);
      SameHeldRows(v.held, v'.held, t);
    }
  }

  /** Every other call leaves the rows of all topics alone. */
  lemma GainsNothing(v: View, m: Made, v': View, first: nat, t: TopicId)
    requires Sound(v, first) && Stepped(v, m, v', first) && !m.call.Flush? && !m.call.FlushAll?
    requires (m.call.FinishRow? || m.call.AppendColumns?) ==> !m.ok
    ensures Rows(v'.held, t) == Rows(v.held, t) && Gains(v, m.call, m.ok, t) == []
  {
    if m.call.EnsureColumn? || m.call.ExpandArray? {
      ShutKept(v.held, m.call.t, v.topics.Keys, first, t);
    } else if m.call.Elsewhere? {
      SameHeldRows(v.held, v'.held, t);
    } else if m.call.BeginRow? {
      BegunRows(v, m.call.t, m.call.ts, v', m.ok, t);
    }
  }

  lemma FinishGains(h: Held, u: TopicId, t: TopicId)
    requires RowOpen(h, u)
    ensures Rows(Finished(h, u), t) == Rows(h, t) + if t == u then [OpenRow(h.builders[u])] else []
  {
    FinishedAppends(h, u);
    if t != u {
      SameRowsKept(h, Finished(h, u), u, t);
      assert Rows(h, t) + [] == Rows(h, t);
    }
  }

  lemma PutsGained(v: View, u: TopicId, times: seq<Timestamp>, data: seq<ColumnData>, first: nat, t: TopicId)
    requires Sound(v, first) && u in v.topics && SameLength(times, data) && !RowOpen(v.held, u)
    ensures var columns, puts := LayoutFor(v, u), BulkPuts(times, data);
            Rows(PutRows(v.held, u, columns, v.topics[u].maxRows, puts), t)
            == Rows(v.held, t) + if t == u then RowsOf(|columns|, puts) else []
  {
    assert TopicSound(v, u);
    LayoutIsCurrent(v, u);
    RowsGained(v.held, u, LayoutFor(v, u), v.topics[u].maxRows, BulkPuts(times, data), t);
  }

  lemma RowsGained(h: Held, u: TopicId, columns: seq<Column>, max: nat, puts: seq<Put>, t: TopicId)
    requires !RowOpen(h, u) && LayoutIs(h, u, columns)
    ensures Rows(PutRows(h, u, columns, max, puts), t) == Rows(h, t) + if t == u then RowsOf(|columns|, puts) else []
  {
    PutRowsMeaning(h, u, columns, max, puts);
    if t != u {
      SameRowsKept(h, PutRows(h, u, columns, max, puts), u, t);
      assert Rows(h, t) + [] == Rows(h, t);
    }
  }

  lemma SameRowsKept(h: Held, h': Held, u: TopicId, t: TopicId)
    requires OthersKept(h, h', u) && t != u
    ensures Rows(h', t) == Rows(h, t)
  {
    assert PendingOf(h', t) == PendingOf(h, t);
  }

  lemma ShutKept(h: Held, u: TopicId, topics: set<TopicId>, first: nat, t: TopicId)
    requires HeldOk(h, topics, first)
    ensures Rows(ShutForLayout(h, u), t) == Rows(h, t)
  {
    ShutForLayoutKeeps(h, u, topics, first);
    assert t != u ==> PendingOf(ShutForLayout(h, u), t) == PendingOf(h, t);
  }

  // ---------------------------------------------------------------- runs

  /** A writer just made: it holds nothing, limits are at least one row, and stored layouts are in order. */
  ghost predicate Unused(v: View, first: nat) {
    && v.held.builders == map[] && v.held.pending == map[] && v.held.counter == first && 0 < first && v.layouts == map[]
    && forall t <- v.topics :: 1 <= v.topics[t].maxRows && LayoutOk(v.topics[t].stored)
  }

  /** Any sequence of legal calls. */
  ghost predicate Run(states: seq<View>, calls: seq<Made>, first: nat) {
    && |states| == |calls| + 1 && Unused(states[0], first)
    && forall i | 0 <= i < |calls| :: Legal(states[i], calls[i].call)
        && Stepped(states[i], calls[i], states[i + 1], first)
  }

  lemma {:induction false} RunSound(states: seq<View>, calls: seq<Made>, first: nat, i: nat)
    requires Run(states, calls, first) && i < |states|
    ensures Sound(states[i], first)
  {
    if i > 0 {
      RunSound(states, calls, first, i - 1);
      StepSound(states[i - 1], calls[i - 1], states[i], first);
    }
  }

  /** Everything handed over for a topic in the first calls, in order. */
  function HandedOver(calls: seq<Made>, t: TopicId): seq<Row> {
    if calls == [] then [] else HandedOver(calls[..|calls| - 1], t) + Flatten(ChunksFor(calls[|calls| - 1].given, t))
  }

  /** Everything the first `i` calls added to a topic, in order. */
  ghost function Accepted(states: seq<View>, calls: seq<Made>, i: nat, t: TopicId): seq<Row>
    requires i <= |calls| <= |states|
  {
    if i == 0 then []
        else Accepted(states, calls, i - 1, t) + Gains(states[i - 1], calls[i - 1].call, calls[i - 1].ok, t)
  }

  /** After any run, what was handed over followed by what the writer holds is exactly what was accepted, in order. */
  lemma {:induction false} RunConserves(states: seq<View>, calls: seq<Made>, first: nat, i: nat, t: TopicId)
    requires Run(states, calls, first) && i < |states|
    ensures HandedOver(calls[..i], t) + Rows(states[i].held, t) == Accepted(states, calls, i, t)
  {
    if i > 0 {
      var k := i - 1;
      RunConserves(states, calls, first, k, t);
      RunSound(states, calls, first, k);
      StepConserves(states[k], calls[k], states[i], first, t);
      assert calls[..i][..k] == calls[..k];
      Assoc(HandedOver(calls[..k], t), Flatten(ChunksFor(calls[k].given, t)), Rows(states[i].held, t));
      Assoc(HandedOver(calls[..k], t), Rows(states[k].held, t), Gains(states[k], calls[k].call, calls[k].ok, t));
    }
  }

  /** Limits do not change. */
  lemma {:induction false} LimitsStay(states: seq<View>, calls: seq<Made>, first: nat, i: nat)
    requires Run(states, calls, first) && i < |states|
    ensures states[0].topics.Keys <= states[i].topics.Keys
    ensures forall t <- states[0].topics :: states[i].topics[t].maxRows == states[0].topics[t].maxRows
                                           && states[i].topics[t].limit == states[0].topics[t].limit
  {
    if i > 0 {
      LimitsStay(states, calls, first, i - 1);
      StepKeepsLimits(states[i - 1], calls[i - 1], states[i], first);
    }
  }

  lemma StepKeepsLimits(v: View, m: Made, v': View, first: nat)
    requires Stepped(v, m, v', first)
    ensures v.topics.Keys <= v'.topics.Keys
    ensures forall t <- v.topics :: v'.topics[t].maxRows == v.topics[t].maxRows
              && v'.topics[t].limit == v.topics[t].limit
  {
  }

  lemma StepFits(v: View, m: Made, v': View, first: nat, t: TopicId, max: nat)
    requires Stepped(v, m, v', first) && Bounded(v.held, t, max)
    ensures AllFit(ChunksFor(m.given, t), max)
  {
    if m.call.FlushAll? {
      assert BatchFits(m.given, v.held);
    } else if m.call.Flush? {
      FlushFits(v.held, m.call.t, m.given, t, max);
    } else {
      assert ChunksFor(m.given, t) == [];
    }
  }

  lemma FlushFits(h: Held, u: TopicId, given: seq<(TopicId, Chunk)>, t: TopicId, max: nat)
    requires Bounded(h, t, max)
    requires forall w :: ChunksFor(given, w) == if w == u then PendingOf(AllShut(h, u), u) else []
    ensures AllFit(ChunksFor(given, t), max)
  {
    if t != u {
      assert ChunksFor(given, t) == [];
    } else if AllShut(h, t) != h {
      ShutBounded(h, t, max);
      assert ChunksFor(given, t) == PendingOf(Shut(h, t), t);
    } else {
      assert ChunksFor(given, t) == PendingOf(h, t);
    }
  }

  /** No chunk that any call of a run hands over is empty or above its topic's limit. */
  lemma ChunksFit(states: seq<View>, calls: seq<Made>, first: nat, i: nat, t: TopicId)
    requires Run(states, calls, first) && i < |calls| && t in states[0].topics
    ensures AllFit(ChunksFor(calls[i].given, t), states[0].topics[t].maxRows)
  {
    LimitsStay(states, calls, first, i);
    RunSound(states, calls, first, i);
    assert TopicSound(states[i], t);
    StepFits(states[i], calls[i], states[i + 1], first, t, states[0].topics[t].maxRows);
  }

  // ---------------------------------------------------------------- expansion counts

  /** The largest request for an array field that succeeded, clamped to the limit. */
  function Asked(calls: seq<Made>, t: TopicId, path: string, limit: nat): nat {
    if calls == [] then 0
    else
      var m := calls[|calls| - 1];
      var before := Asked(calls[..|calls| - 1], t, path, limit);
      if m.ok && m.call.ExpandArray? && m.call.t == t && m.call.path == path
          then Max(before, Min(m.call.newLength, limit))
      else before
  }

  lemma StepCounts(v: View, m: Made, v': View, first: nat, t: TopicId, path: string)
    requires Stepped(v, m, v', first) && t in v.topics
    ensures t in v'.topics
    ensures CountOf(v'.topics[t], path)
            == if m.ok && m.call.ExpandArray? && m.call.t == t && m.call.path == path
               then Max(CountOf(v.topics[t], path), Min(m.call.newLength, v.topics[t].limit))
               else CountOf(v.topics[t], path)
  {
  }

  /**
   * Over any run, an array field is expanded to the largest of the clamped requests, and to no less than at the start.
   */
  lemma {:induction false} ExpansionIsMaximum(states: seq<View>, calls: seq<Made>, first: nat, i: nat, t: TopicId,
                                              path: string)
    requires Run(states, calls, first) && i < |states| && t in states[0].topics
    ensures t in states[i].topics
    ensures CountOf(states[i].topics[t], path)
            == Max(CountOf(states[0].topics[t], path), Asked(calls[..i], t, path, states[0].topics[t].limit))
  {
    LimitsStay(states, calls, first, i);
    if i > 0 {
      ExpansionIsMaximum(states, calls, first, i - 1, t, path);
      LimitsStay(states, calls, first, i - 1);
      StepCounts(states[i - 1], calls[i - 1], states[i], first, t, path);
      assert calls[..i][..i - 1] == calls[..i - 1];
    }
  }
}
