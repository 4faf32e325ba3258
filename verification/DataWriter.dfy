/** The writer: rows go into one open builder per topic, full builders become pending chunks. */
module DataWriters {
  import opened Samples
  import opened TopicStorages
  import opened DataEngines
  import opened WriterStates
  import opened BulkAppend
  import opened Flushes
  import opened Layouts

  /** The layout a writer loads for a topic: the stored one, else the schema's, else the first chunk's. */
  function StoredLayout(storage: TopicStorage): seq<Column>
    reads storage`columns, storage`sealedChunks
  {
    if storage.columns != [] then storage.columns
    else if storage.descriptor.schemaColumns != [] then storage.descriptor.schemaColumns
    else if storage.sealedChunks != [] then storage.sealedChunks[0].columns
    else []
  }

  /** One column of a bulk append: which column, and a value per row. */
  datatype ColumnData = ColumnData(column: nat, values: seq<Cell>)

  /** Row `i` of a bulk append, written column by column. */
  function CellsAt(data: seq<ColumnData>, i: nat): seq<(nat, Cell)>
    requires forall k | 0 <= k < |data| :: i < |data[k].values|
  {
    seq(|data|, k requires 0 <= k < |data| => (data[k].column, data[k].values[i]))
  }

  ghost predicate SameLength(times: seq<Timestamp>, data: seq<ColumnData>) {
    forall k | 0 <= k < |data| :: |data[k].values| == |times|
  }

  /** The data give every column of the layout exactly once. */
  ghost predicate EachOnce(data: seq<ColumnData>, columns: nat) {
    && (forall k | 0 <= k < |data| :: data[k].column < columns)
    && (forall c: nat | c < columns :: GivenBy(data, c))
    && (forall j, k | 0 <= j < k < |data| :: data[j].column != data[k].column)
  }

  ghost predicate GivenBy(data: seq<ColumnData>, c: nat) {
    exists k :: 0 <= k < |data| && data[k].column == c
  }

  function BulkPuts(times: seq<Timestamp>, data: seq<ColumnData>): (puts: seq<Put>)
    requires SameLength(times, data)
    ensures |puts| == |times| && forall i | 0 <= i < |puts| :: puts[i] == Put(times[i], CellsAt(data, i))
  {
    seq(|times|, i requires 0 <= i < |times| => Put(times[i], CellsAt(data, i)))
  }

  /** What the schema says of an array field to expand. */
  datatype ArrayField = NoSchema | Missing | NotArray | FixedSize | Elements(leaves: Leaves)

  function Max(a: nat, b: nat): nat {
    if a < b then b else a
  }

  function Min(a: nat, b: nat): nat {
    if a < b then a else b
  }

  method RowCountsMatch(times: seq<Timestamp>, data: seq<ColumnData>) returns (ok: bool)
    ensures ok <==> SameLength(times, data)
  {
    for k := 0 to |data|
      invariant forall j | 0 <= j < k :: |data[j].values| == |times|
    {
      if |data[k].values| != |times| {
        return false;
      }
    }
    return true;
  }

  class DataWriter {
    const engine: DataEngine
    var builders: map<TopicId, Builder>
    var pending: map<TopicId, seq<Chunk>>
    /** The column layouts this writer has loaded. */
    var layouts: map<TopicId, seq<Column>>
    /** The chunk counter when this writer was made. */
    ghost const firstId: nat

    function State(): Held
      reads this`builders, this`pending, engine`nextChunkId
    {
      Held(builders, pending, engine.nextChunkId)
    }

    ghost predicate Valid()
      reads this`builders, this`pending, engine`topics, engine`nextChunkId
    {
      HeldOk(State(), engine.topics.Keys, firstId)
    }

    /** The layout the next builder of topic `t` will have. */
    function NextLayout(t: TopicId): seq<Column>
      requires t in engine.topics
      reads this`layouts, engine`topics, engine.topics.Values`columns, engine.topics.Values`sealedChunks
    {
      if t in layouts && layouts[t] != [] then layouts[t] else StoredLayout(engine.topics[t])
    }

    ghost function StorageOf(t: TopicId): set<TopicStorage>
      reads engine`topics
    {
      if t in engine.topics then {engine.topics[t]} else {}
    }

    constructor (engine: DataEngine)
      requires 0 < engine.nextChunkId
      ensures Valid() && this.engine == engine && firstId == engine.nextChunkId
      ensures builders == map[] && pending == map[] && layouts == map[]
    {
      this.engine := engine;
      builders, pending, layouts := map[], map[], map[];
      firstId := engine.nextChunkId;
    }

    /** Loads the layout of a topic unless a non-empty one is loaded already. */
    method EnsureLayout(t: TopicId)
      requires t in engine.topics
      modifies this`layouts
      ensures layouts == old(layouts)[t := old(NextLayout(t))]
    {
      if t !in layouts || layouts[t] == [] {
        var storage := engine.topics[t];
        if storage.columns != [] {
          layouts := layouts[t := storage.columns];
        } else if storage.descriptor.schemaColumns != [] {
          layouts := layouts[t := storage.descriptor.schemaColumns];
        } else if storage.sealedChunks != [] {
          layouts := layouts[t := storage.sealedChunks[0].columns];
        } else {
          layouts := layouts[t := []];
        }
      }
    }

    method GetOrCreateBuilder(t: TopicId)
      requires Valid() && t in engine.topics
      modifies this`builders, this`layouts
      ensures Valid()
      ensures State() == Opened(old(State()), t, old(NextLayout(t)), engine.topics[t].descriptor.maxChunkRows)
      ensures layouts == if t in old(builders) then old(layouts) else old(layouts)[t := old(NextLayout(t))]
    {
      if t !in builders {
        OpenedKeeps(State(), t, NextLayout(t), engine.topics[t].descriptor.maxChunkRows, engine.topics.Keys, firstId);
        EnsureLayout(t);
        var maxRows := engine.topics[t].descriptor.maxChunkRows;
        builders := builders[t := Builder(layouts[t], maxRows, [], MIN_TIMESTAMP, None)];
      }
    }

    /** Opens a row; refuses exactly unknown topics and times before the builder's last row. */
    method BeginRow(t: TopicId, ts: Timestamp) returns (ok: bool)
      requires Valid() && !RowOpen(State(), t)
      modifies this`builders, this`layouts
      ensures Valid()
      ensures ok <==> t in engine.topics && NotBefore(OpenRows(old(State()), t), ts)
      ensures t !in engine.topics ==> State() == old(State()) && layouts == old(layouts)
      ensures t in engine.topics ==>
                var maxRows := engine.topics[t].descriptor.maxChunkRows;
                && State() == Begun(old(State()), t, ts, old(NextLayout(t)), maxRows, ok)
                && layouts == if t in old(builders) then old(layouts) else old(layouts)[t := old(NextLayout(t))]
    {
      if t !in engine.topics {
        return false;
      }
      GetOrCreateBuilder(t);
      var b := builders[t];
      assert BuilderOk(b);
      if b.rows != [] && ts < b.lastTs {
        return false;
      }
      BeganKeeps(State(), t, ts, engine.topics.Keys, firstId);
      builders := builders[t := b.(lastTs := ts, current := Some(map[]))];
      return true;
    }

    /** Sets one value of the open row: a column that exists and has no value in this row yet. */
    method Set(t: TopicId, column: nat, value: Cell)
      requires Valid() && RowOpen(State(), t)
      requires column < |builders[t].columns| && column !in builders[t].current.value
      modifies this`builders
      ensures Valid() && State() == WithCell(old(State()), t, column, value)
    {
      WithCellKeeps(State(), t, column, value, engine.topics.Keys, firstId);
      var b := builders[t];
      builders := builders[t := b.(current := Some(b.current.value[column := value]))];
    }

    /** Completes the open row; a builder that becomes full is sealed. */
    method FinishRow(t: TopicId) returns (ok: bool)
      requires Valid() && (t in builders ==> RowOpen(State(), t))
      modifies this`builders, this`pending, engine`nextChunkId
      ensures Valid()
      ensures ok <==> t in old(builders)
      ensures State() == if ok then Finished(old(State()), t) else old(State())
    {
      if t !in builders {
        return false;
      }
      CompletedKeeps(State(), t, engine.topics.Keys, firstId);
      var b := builders[t];
      builders := builders[t := b.(rows := b.rows + [OpenRow(b)], current := None)];
      if |builders[t].rows| >= builders[t].maxRows {
        AutoSeal(t);
      }
      return true;
    }

    /** Moves a builder that holds rows to the pending chunks. */
    method AutoSeal(t: TopicId)
      requires Valid() && t in builders && builders[t].rows != []
      modifies this`builders, this`pending, engine`nextChunkId
      ensures Valid() && State() == Shut(old(State()), t)
    {
      ShutKeeps(State(), t, engine.topics.Keys, firstId);
      var c := NewChunk(State(), t);
      pending := pending[t := (if t in pending then pending[t] else []) + [c]];
      builders := builders - {t};
      engine.nextChunkId := engine.nextChunkId + 1;
    }

    /** Seals a builder before its layout changes; an empty builder is dropped. */
    method SealBeforeLayoutChange(t: TopicId)
      requires Valid()
      modifies this`builders, this`pending, engine`nextChunkId
      ensures Valid() && State() == ShutForLayout(old(State()), t)
    {
      ShutForLayoutKeeps(State(), t, engine.topics.Keys, firstId);
      if t in builders {
        if builders[t].rows != [] {
          AutoSeal(t);
        } else {
          builders := builders - {t};
        }
      }
    }

    /** Appends whole columns, batch by batch, with the same effect as one round per row. */
    method AppendColumns(t: TopicId, times: seq<Timestamp>, data: seq<ColumnData>) returns (ok: bool)
      requires Valid() && !RowOpen(State(), t)
      requires forall i, j | 0 <= i < j < |times| :: times[i] <= times[j]
      requires t in engine.topics ==>
                 var max := engine.topics[t].descriptor.maxChunkRows;
                 1 <= max && BatchReady(State(), t, NextLayout(t), max)
      requires t in engine.topics && SameLength(times, data) && times != [] ==> EachOnce(data, |NextLayout(t)|)
      modifies this`builders, this`pending, this`layouts, engine`nextChunkId
      ensures Valid()
      ensures ok <==> t in engine.topics && SameLength(times, data)
                      && (times != [] ==> NotBefore(OpenRows(old(State()), t), times[0]))
      ensures ok ==> State() == PutRows(old(State()), t, old(NextLayout(t)), engine.topics[t].descriptor.maxChunkRows,
                                        BulkPuts(times, data))
      ensures !ok ==> State() == old(State())
      ensures layouts == if ok && times != [] && t !in old(builders)
                         then old(layouts)[t := old(NextLayout(t))] else old(layouts)
    {
      if t !in engine.topics {
        return false;
      }
      var matching := RowCountsMatch(times, data);
      if !matching {
        return false;
      }
      if times == [] {
        return true;
      }
      if t in builders {
        assert BuilderOk(builders[t]);
        if builders[t].rows != [] && times[0] < builders[t].lastTs {
          return false;
        }
      }
      AppendInBatches(t, BulkPuts(times, data));
      return true;
    }

    method AppendInBatches(t: TopicId, puts: seq<Put>)
      requires Valid() && t in engine.topics && puts != [] && PutsInOrder(puts)
      requires var max := engine.topics[t].descriptor.maxChunkRows;
               1 <= max && BatchReady(State(), t, NextLayout(t), max)
      requires NotBefore(OpenRows(State(), t), puts[0].ts)
      modifies this`builders, this`pending, this`layouts, engine`nextChunkId
      ensures Valid()
      ensures State() == PutRows(old(State()), t, old(NextLayout(t)), engine.topics[t].descriptor.maxChunkRows, puts)
      ensures layouts == if t in old(builders) then old(layouts) else old(layouts)[t := old(NextLayout(t))]
    {
      var columns, max := NextLayout(t), engine.topics[t].descriptor.maxChunkRows;
      PutRowsKeep(State(), t, columns, max, puts, engine.topics.Keys, firstId);
      if t !in builders {
        EnsureLayout(t);
      }
      var h := AppendBatches(State(), t, columns, max, puts);
      builders, pending, engine.nextChunkId := h.builders, h.pending, h.counter;
    }

    /**
     * Hands over the rows of one topic: its pending chunks, then its builder. A row that is still open goes with the
     * builder and is lost, or stays open if the builder has no rows.
     */
    method Flush(t: TopicId) returns (chunks: seq<Chunk>)
      requires Valid()
      modifies this`builders, this`pending, engine`nextChunkId
      ensures Valid() && chunks == PendingOf(AllShut(old(State()), t), t)
      ensures State() == Taken(AllShut(old(State()), t), t)
    {
      TakenMeaning(State(), t, engine.topics.Keys, firstId);
      var shut := AllShut(State(), t);
      chunks := PendingOf(shut, t);
      builders, pending, engine.nextChunkId := shut.builders, shut.pending - {t}, shut.counter;
    }

    /** Hands over every accepted row: per topic, the batch reads back exactly what was written, in order. */
    method FlushAll() returns (batch: seq<(TopicId, Chunk)>)
      requires Valid()
      modifies this`builders, this`pending, engine`nextChunkId
      ensures Valid() && pending == map[]
      ensures Conserves(batch, State(), firstId, old(State())) && WithRows(State()) == {}
      ensures BatchFits(batch, old(State())) && BatchNumbered(batch, old(State()), engine.nextChunkId)
      ensures forall t <- builders :: t in old(builders) && builders[t] == old(builders)[t]
      ensures old(engine.nextChunkId) <= engine.nextChunkId
    {
      batch := StagedBatch(pending);
      StagedConserves(batch, State(), engine.topics.Keys, firstId);
      StagedFits(batch, State());
      StagedNumbered(batch, State());
      var rest;
      batch, rest := SealAll(batch, State(), firstId);
      builders, pending, engine.nextChunkId := rest.builders, map[], rest.counter;
      DropPending(batch, rest, firstId, old(State()));
    }

    // ---------------------------------------------------------------- column layouts

    /** Adds a column, or finds it; a column never changes its type and a row in progress is left alone. */
    method EnsureColumn(t: TopicId, path: string, logicalType: nat) returns (r: Result<nat>)
      requires Valid()
      modifies this`builders, this`pending, this`layouts, engine`nextChunkId, StorageOf(t)`columns
      ensures Valid()
      ensures t !in engine.topics ==> r.Err? && State() == old(State()) && layouts == old(layouts)
      ensures t in engine.topics && HasPath(old(NextLayout(t)), path) ==>
                && layouts == old(layouts)[t := old(NextLayout(t))] && State() == old(State())
                && engine.topics[t].columns == old(engine.topics[t].columns)
                && (r.Ok? ==> r.value < |layouts[t]| && layouts[t][r.value].path == path
                              && layouts[t][r.value].logicalType == logicalType)
      ensures t in engine.topics && !HasPath(old(NextLayout(t)), path) && RowOpen(old(State()), t) ==>
                && r.Err? && layouts == old(layouts)[t := old(NextLayout(t))] && State() == old(State())
                && engine.topics[t].columns == old(engine.topics[t].columns)
      ensures t in engine.topics && !HasPath(old(NextLayout(t)), path) && !RowOpen(old(State()), t) ==>
                && r == Ok(|old(NextLayout(t))|) && State() == ShutForLayout(old(State()), t)
                && layouts == old(layouts)[t := WithColumn(old(NextLayout(t)), path, logicalType)]
                && engine.topics[t].columns == layouts[t]
    {
      if t !in engine.topics {
        return Err("topic not found");
      }
      EnsureLayout(t);
      var columns := layouts[t];
      var at := FindPath(columns, path);
      if at < |columns| {
        if columns[at].logicalType != logicalType {
          return Err("field already exists with a different type");
        }
        return Ok(at);
      }
      if t in builders && builders[t].current.Some? {
        return Err("row in progress");
      }
      ChangeLayout(t, WithColumn(columns, path, logicalType));
      return Ok(|columns|);
    }

    /** Seals what was written under the old layout, then records the new one here and in the store. */
    method ChangeLayout(t: TopicId, columns: seq<Column>)
      requires Valid() && t in engine.topics
      modifies this`builders, this`pending, this`layouts, engine`nextChunkId, StorageOf(t)`columns
      ensures Valid() && State() == ShutForLayout(old(State()), t)
      ensures layouts == old(layouts)[t := columns] && engine.topics[t].columns == columns
    {
      SealBeforeLayoutChange(t);
      layouts := layouts[t := columns];
      engine.topics[t].columns := columns;
    }

    /** Gives the first elements of a variable-length array their columns, up to the topic's limit. */
    method ExpandArray(t: TopicId, path: string, newLength: nat, elementType: nat, field: ArrayField)
        returns (r: Result<nat>)
      requires Valid() && (field.Elements? ==> LeavesOk(field.leaves))
      modifies this`builders, this`pending, this`layouts, engine`nextChunkId,
               StorageOf(t)`columns,
               StorageOf(t)`expansionCounts, StorageOf(t)`maxObserved, StorageOf(t)`truncated
      ensures Valid()
      ensures t !in engine.topics ==> r.Err? && State() == old(State()) && layouts == old(layouts)
      ensures t in engine.topics ==>
                var storage := engine.topics[t];
                var count := old(storage.ExpansionCount(path));
                var wanted := Max(count, Min(newLength, storage.descriptor.expansionLimit));
                && storage.maxObserved == Max(old(storage.maxObserved), newLength)
                && (newLength <= count ==> r == Ok(count))
                && (count < newLength ==>
                      (r.Err? <==> field.Missing? || field.NotArray? || field.FixedSize?
                                   || (count < wanted && RowOpen(old(State()), t))))
                && (count < newLength && r.Ok? ==> r.value == wanted)
                && storage.expansionCounts
                    == (if r.Ok? && count < r.value then old(storage.expansionCounts)[path := r.value]
                                               else old(storage.expansionCounts))
                && (r.Err? || r.value == count ==>
                      State() == old(State()) && layouts == old(layouts) && storage.columns == old(storage.columns))
                && (r.Ok? && count < r.value ==>
                      && State() == ShutForLayout(old(State()), t)
                      && layouts == old(layouts)[t := storage.columns] && old(NextLayout(t)) <= storage.columns
                      && (LayoutOk(old(NextLayout(t))) ==> LayoutOk(storage.columns))
                      && (field != Elements([]) ==>
                            forall index | count <= index < r.value :: ElementIn(storage.columns, path, index)))
    {
      if t !in engine.topics {
        return Err("topic not found");
      }
      var storage := engine.topics[t];
      storage.maxObserved := Max(storage.maxObserved, newLength);
      var count := storage.ExpansionCount(path);
      if newLength <= count {
        return Ok(count);
      }
      if field.Missing? || field.NotArray? || field.FixedSize? {
        return Err("not a variable-length array of the schema");
      }
      var actual := Min(newLength, storage.descriptor.expansionLimit);
      if storage.descriptor.expansionLimit < newLength {
        storage.truncated := storage.truncated + 1;
      }
      if actual <= count {
        return Ok(count);
      }
      if t in builders && builders[t].current.Some? {
        return Err("row in progress");
      }
      var leaves := if field.Elements? then field.leaves else [("", elementType)];
      AddArrayColumns(t, path, count, actual, leaves, field.Elements?);
      storage.expansionCounts := storage.expansionCounts[path := actual];
      return Ok(actual);
    }

    method AddArrayColumns(t: TopicId, path: string, from: nat, to: nat, leaves: Leaves, bySchema: bool)
      requires Valid() && t in engine.topics && from <= to
      requires LeavesOk(leaves) && (!bySchema ==> |leaves| == 1 && leaves[0].0 == "")
      modifies this`builders, this`pending, this`layouts, engine`nextChunkId, StorageOf(t)`columns
      ensures Valid() && State() == ShutForLayout(old(State()), t)
      ensures var columns := engine.topics[t].columns;
              && layouts == old(layouts)[t := columns] && old(NextLayout(t)) <= columns
              && (LayoutOk(old(NextLayout(t))) ==> LayoutOk(columns))
              && (leaves != [] ==> forall index | from <= index < to :: ElementIn(columns, path, index))
    {
      var columns := AddElements(NextLayout(t), path, from, to, leaves, bySchema);
      ChangeLayout(t, columns);
    }
  }
}
