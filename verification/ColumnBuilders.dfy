/** One column of a chunk builder: its buffer and its statistics, kept in step. */
module ColumnBuilders {
  import opened Samples
  import opened WireFormat
  import opened BitVectors
  import opened ColumnBuffers
  import opened ColumnStats
  import opened SealedColumns
  import opened SealedContent

  /** The rows of a block: its slots, null where the span says so. */
  function BlockRows(raws: seq<Bytes>, validity: Option<BitSpan>): (rows: seq<Item>)
    requires validity.Some? ==> validity.value.Ok() && validity.value.length == |raws|
    ensures |rows| == |raws|
  {
    seq(|raws|, i requires 0 <= i < |raws| => Item(raws[i], validity.Some? && !validity.value.Test(i)))
  }

  lemma FlaggedBlock(items: seq<Item>, raws: seq<Bytes>, span: BitSpan)
    requires span.Ok() && span.length == |raws|
    ensures WithNulls(items + Present(raws), span) == items + BlockRows(raws, Some(span))
  {
  }

  lemma MissingEntry(kind: Kind, history: seq<Entry>)
    ensures ItemsOf(kind, history + [Missing]) == ItemsOf(kind, history) + [Item(FixedBytes(0, SizeOf(kind)), true)]
    ensures StatsOf(kind, history + [Missing]) == StatsOf(kind, history)
  {
    OneEntry(kind, history, Missing);
  }

  class ColumnBuilder {
    const buffer: TypedColumnBuffer
    var stats: Stats
    ghost var history: seq<Entry>

    ghost predicate Valid()
      reads this, buffer, buffer.validity
    {
      && buffer.Valid() && buffer.items == ItemsOf(buffer.kind, history)
      && (Measured(buffer.kind) ==> stats == StatsOf(buffer.kind, history))
    }

    constructor (kind: Kind)
      ensures Valid() && buffer.kind == kind && history == [] && fresh(buffer) && fresh(buffer.validity)
    {
      buffer := new TypedColumnBuffer(kind);
      stats, history := Fresh, [];
    }

    method SetFixed(bits: nat)
      requires Valid() && buffer.kind != String
      modifies this, buffer, buffer.validity
      ensures Valid() && history == old(history) + [One(FixedBytes(bits, SizeOf(buffer.kind)))]
    {
      var raw := FixedBytes(bits, SizeOf(buffer.kind));
      OneEntry(buffer.kind, history, One(raw));
      buffer.AppendFixed(bits);
      if Measured(buffer.kind) {
        stats := AfterValue(stats, buffer.rowCount - 1, Key(buffer.kind, raw));
      }
      history := history + [One(raw)];
    }

    method SetText(text: Bytes)
      requires Valid() && buffer.kind == String
      modifies this, buffer, buffer.validity
      ensures Valid() && history == old(history) + [One(text)]
    {
      OneEntry(buffer.kind, history, One(text));
      buffer.AppendString(text);
      history := history + [One(text)];
    }

    method SetNull()
      requires Valid()
      modifies this, buffer, buffer.validity
      ensures Valid() && history == old(history) + [Missing]
    {
      MissingEntry(buffer.kind, history);
      buffer.AppendNull();
      history := history + [Missing];
    }

    /** A block of values with its null flags, then the statistics over the rows just appended. */
    method AppendBlock(raws: seq<Bytes>, validity: Option<BitSpan>)
      requires Valid() && buffer.kind != String && (forall i | 0 <= i < |raws| :: |raws[i]| == SizeOf(buffer.kind))
      requires validity.Some? ==> validity.value.Ok() && validity.value.length == |raws|
      modifies this, buffer, buffer.validity
      ensures Valid() && history == old(history) + [Block(BlockRows(raws, validity))]
    {
      buffer.AppendFixedBulk(raws);
      FinishBlock(raws, |raws|, validity);
    }

    /** A block of strings with its null flags. */
    method AppendTextBlock(offs: seq<nat>, data: Bytes, validity: Option<BitSpan>)
      requires Valid() && buffer.kind == String && TextsOk(offs, data)
      requires validity.Some? ==> validity.value.Ok() && validity.value.length == |offs| - 1
      modifies this, buffer, buffer.validity
      ensures Valid() && history == old(history) + [Block(BlockRows(Texts(offs, data), validity))]
    {
      buffer.AppendStringsBulk(offs, data);
      FinishBlock(Texts(offs, data), |offs| - 1, validity);
    }

    method FinishBlock(ghost raws: seq<Bytes>, count: nat, validity: Option<BitSpan>)
      requires buffer.Valid() && buffer.items == ItemsOf(buffer.kind, history) + Present(raws) && count == |raws|
      requires Measured(buffer.kind) ==> stats == StatsOf(buffer.kind, history)
      requires validity.Some? ==> validity.value.Ok() && validity.value.length == count
      modifies this, buffer, buffer.validity
      ensures Valid() && history == old(history) + [Block(BlockRows(raws, validity))]
    {
      ghost var block := Block(BlockRows(raws, validity));
      OneEntry(buffer.kind, history, block);
      FlagBlock(buffer, ItemsOf(buffer.kind, history), raws, count, validity);
      stats := BlockStats(buffer, stats, count, ItemsOf(buffer.kind, history), BlockRows(raws, validity));
      history := history + [block];
    }

    /** Seals the column; what is read back is what the history says, except where one value stands for all. */
    method Seal() returns (col: SealedColumn)
      requires Valid() && |buffer.values| < TWO32 && buffer.rowCount < TWO32
      ensures Shows(col, buffer.kind, ItemsOf(buffer.kind, history), StatsOf(buffer.kind, history).isConstant)
    {
      col := SealColumn(buffer, stats.isConstant);
      if !Measured(buffer.kind) {
        OtherFlag(col, buffer.kind, buffer.items, stats.isConstant, StatsOf(buffer.kind, history).isConstant);
      }
    }
  }

  lemma OtherFlag(col: SealedColumn, kind: Kind, items: seq<Item>, constant: bool, constant': bool)
    requires Shows(col, kind, items, constant) && !Measured(kind)
    ensures Shows(col, kind, items, constant')
  {
    forall row | 0 <= row < |items| ensures ShowsValue(kind, col.data, items, constant', row) {
      assert ShowsValue(kind, col.data, items, constant, row);
    }
  }

  /** The null flags of the block just appended. */
  method FlagBlock(buffer: TypedColumnBuffer, ghost before: seq<Item>, ghost raws: seq<Bytes>, count: nat,
                   validity: Option<BitSpan>)
    requires buffer.Valid() && buffer.items == before + Present(raws) && count == |raws|
    requires validity.Some? ==> validity.value.Ok() && validity.value.length == count
    modifies buffer, buffer.validity
    ensures buffer.Valid() && buffer.items == before + BlockRows(raws, validity)
  {
    if validity.Some? {
      FlaggedBlock(before, raws, validity.value);
      buffer.AppendValidityBulk(validity.value);
    } else {
      assert BlockRows(raws, None) == Present(raws);
    }
  }

  /** The statistics after a block, measured on the buffers, for the kinds that need them. */
  method BlockStats(buffer: TypedColumnBuffer, st: Stats, count: nat, ghost before: seq<Item>, ghost block: seq<Item>)
    returns (st': Stats)
    requires buffer.Valid() && buffer.items == before + block && count == |block|
    ensures Measured(buffer.kind) ==> st' == AfterBlock(buffer.kind, st, block)
  {
    st' := st;
    if Measured(buffer.kind) {
      var rows := LastRows(buffer, count);
      assert rows == block;
      st' := ComputeBulk(buffer.kind, st, rows);
    }
  }

  /** The last rows of a column, read from its buffers. */
  method LastRows(buffer: TypedColumnBuffer, count: nat) returns (rows: seq<Item>)
    requires buffer.Valid() && buffer.kind != String && count <= buffer.rowCount
    ensures rows == buffer.items[buffer.rowCount - count..]
  {
    var first := buffer.rowCount - count;
    rows := [];
    for row := first to buffer.rowCount
      invariant rows == buffer.items[first..row]
    {
      rows := rows + [Item(buffer.ReadFixed(row), buffer.IsNull(row))];
    }
  }
}
