/** What sealing preserves, for every history of a column, and exactly when the constant encoding preserves it. */
module SealedContent {
  import opened Samples
  import opened WireFormat
  import opened ColumnBuffers
  import opened ColumnStats
  import opened SealedColumns

  /** Every value that is not null reads back as it was appended. */
  ghost predicate Preserved(kind: Kind, items: seq<Item>, constant: bool) {
    forall row | 0 <= row < |items| && !items[row].isNull ::
        Shown(kind, items, constant, row) == Meaning(kind, items[row].raw)
  }

  /** Every value that is not null reads back as an equal one: identical, or equal as doubles. */
  ghost predicate PreservedAsDoubles(kind: Kind, items: seq<Item>, constant: bool) {
    forall row | 0 <= row < |items| && !items[row].isNull ::
      Agree(kind, items[if Measured(kind) && constant then 0 else row].raw, items[row].raw)
  }

  // ---------------------------------------------------------------- exactly when

  /**
   * Some value differs, as a double, from the one it is compared with, or every value means what the first slot means.
   */
  ghost predicate NothingBlurred(kind: Kind, history: seq<Entry>) {
    var items := ItemsOf(kind, history);
    !(AllZero(kind, Late(kind, history)) && OneRun(kind, Running(kind, history))) ||
    forall row | 0 <= row < |items| && !items[row].isNull ::
        Meaning(kind, items[row].raw) == Meaning(kind, items[0].raw)
  }

  /** Integers and strings always survive. The other kinds survive if and only if some value differs, as a double, from
      the one before it (from 0.0 for values set by themselves after nothing but nulls), or all values mean the same as
      the raw slot of row 0, which is copied even if row 0 is null. */
  lemma PreservedExactly(kind: Kind, history: seq<Entry>)
    ensures Preserved(kind, ItemsOf(kind, history), StatsOf(kind, history).isConstant)
            <==> !Measured(kind) || NothingBlurred(kind, history)
  {
    ConstantExactly(kind, history);
  }

  // ---------------------------------------------------------------- row 0 has a value

  lemma {:induction false} ValuesHasFirst(items: seq<Item>)
    requires items != [] && !items[0].isNull
    ensures Values(items) != [] && Values(items)[0] == items[0].raw
  {
    if |items| == 1 {
      assert items[..0] == [];
      assert Values([]) == [];
    } else {
      ValuesHasFirst(items[..|items| - 1]);
    }
  }

  lemma {:induction false} ValueIsListed(items: seq<Item>, row: nat) returns (j: nat)
    requires row < |items| && !items[row].isNull
    ensures j < |Values(items)| && Values(items)[j] == items[row].raw
  {
    var n := |items| - 1;
    if row < n {
      j := ValueIsListed(items[..n], row);
    } else {
      j := |Values(items[..n])|;
    }
  }

  /** Once row 0 has a value, no value comes late. */
  lemma {:induction false} NothingLate(kind: Kind, history: seq<Entry>)
    requires ItemsOf(kind, history) == [] || !ItemsOf(kind, history)[0].isNull
    ensures Late(kind, history) == [] && Running(kind, history) == Values(ItemsOf(kind, history))
  {
    if history != [] {
      var front := history[..|history| - 1];
      assert ItemsOf(kind, front) != [] ==> ItemsOf(kind, front)[0] == ItemsOf(kind, history)[0];
      NothingLate(kind, front);
      if ItemsOf(kind, front) != [] {
        ValuesHasFirst(ItemsOf(kind, front));
      }
    }
    ConstantExactly(kind, history);
  }

  /** If row 0 has a value, every value reads back as an equal one, whatever mix of calls made the column. */
  lemma FirstRowSetPreserves(kind: Kind, history: seq<Entry>)
    requires var items := ItemsOf(kind, history); items != [] && !items[0].isNull
    ensures PreservedAsDoubles(kind, ItemsOf(kind, history), StatsOf(kind, history).isConstant)
  {
    var items := ItemsOf(kind, history);
    NothingLate(kind, history);
    ConstantExactly(kind, history);
    ValuesHasFirst(items);
    if StatsOf(kind, history).isConstant {
      forall row | 0 <= row < |items| && !items[row].isNull ensures Agree(kind, items[0].raw, items[row].raw) {
        var j := ValueIsListed(items, row);
        OneRunAgrees(kind, Values(items), 0, j);
      }
    }
  }

  /** For booleans, and for unsigned integers up to 2^53, values that are equal as doubles are the same. */
  lemma EqualIsSame(kind: Kind, a: Bytes, b: Bytes)
    requires kind == Bool || (kind == Uint64 && Word(a) <= TWO53 && Word(b) <= TWO53)
    requires Agree(kind, a, b)
    ensures Meaning(kind, a) == Meaning(kind, b)
  {
    if kind == Uint64 {
      SmallIsExact(Word(a));
      SmallIsExact(Word(b));
    }
  }

  /** Hence booleans survive exactly, and unsigned integers do up to 2^53, if row 0 has a value. */
  lemma SmallValuesPreserved(kind: Kind, history: seq<Entry>)
    requires var items := ItemsOf(kind, history); items != [] && !items[0].isNull
    requires kind == Bool || (kind == Uint64 && forall row | 0 <= row < |ItemsOf(kind, history)| ::
                                                  Word(ItemsOf(kind, history)[row].raw) <= TWO53)
    ensures Preserved(kind, ItemsOf(kind, history), StatsOf(kind, history).isConstant)
  {
    var items, constant := ItemsOf(kind, history), StatsOf(kind, history).isConstant;
    FirstRowSetPreserves(kind, history);
    forall row | 0 <= row < |items| && !items[row].isNull
      ensures Shown(kind, items, constant, row) == Meaning(kind, items[row].raw)
    {
      EqualIsSame(kind, items[if constant then 0 else row].raw, items[row].raw);
    }
  }

  // ---------------------------------------------------------------- rows only

  predicate RowsOnly(history: seq<Entry>) {
    forall i | 0 <= i < |history| :: !history[i].Block?
  }

  lemma {:induction false} ZeroWord(n: nat)
    ensures Word(FixedBytes(0, n)) == 0
  {
    if n > 0 {
      ZeroWord(n - 1);
      assert FixedBytes(0, n)[1..] == FixedBytes(0, n - 1);
    }
  }

  /** The zero slot of a null row counts as 0.0. */
  lemma ZeroKey(kind: Kind)
    requires Measured(kind)
    ensures Key(kind, FixedBytes(0, SizeOf(kind))) == Some(0)
  {
    ZeroWord(SizeOf(kind));
    SmallIsExact(0);
  }

  /** A column filled row by row, its row 0 null: while it counts as constant, all values are zeros. */
  lemma {:induction false} LateStartIsZero(kind: Kind, history: seq<Entry>)
    requires RowsOnly(history) && Measured(kind)
    requires var items := ItemsOf(kind, history); items == [] || items[0] == Item(FixedBytes(0, SizeOf(kind)), true)
    ensures var items, st := ItemsOf(kind, history), StatsOf(kind, history);
            st.isConstant ==> st.last == Some(0)
                              && forall row | 0 <= row < |items| && !items[row].isNull ::
                                  Key(kind, items[row].raw) == Some(0)
  {
    if history != [] {
      var front := history[..|history| - 1];
      assert ItemsOf(kind, front) != [] ==> ItemsOf(kind, front)[0] == ItemsOf(kind, history)[0];
      LateStartIsZero(kind, front);
    }
  }

  lemma {:induction false} FirstOfRows(kind: Kind, history: seq<Entry>)
    requires RowsOnly(history) && ItemsOf(kind, history) != [] && ItemsOf(kind, history)[0].isNull
    ensures ItemsOf(kind, history)[0] == Item(FixedBytes(0, SizeOf(kind)), true)
  {
    var front := history[..|history| - 1];
    if ItemsOf(kind, front) != [] {
      assert ItemsOf(kind, front)[0] == ItemsOf(kind, history)[0];
      FirstOfRows(kind, front);
    }
  }

  /** A column filled only row by row always reads back equal values, whether or not row 0 is null. */
  lemma RowsOnlyPreserves(kind: Kind, history: seq<Entry>)
    requires RowsOnly(history)
    ensures PreservedAsDoubles(kind, ItemsOf(kind, history), StatsOf(kind, history).isConstant)
  {
    var items := ItemsOf(kind, history);
    if items == [] || !Measured(kind) {
    } else if !items[0].isNull {
      FirstRowSetPreserves(kind, history);
    } else {
      FirstOfRows(kind, history);
      LateStartIsZero(kind, history);
      ZeroKey(kind);
    }
  }

  // ---------------------------------------------------------------- blocks refine rows

  /** The rows of a block, one by one. */
  function ByRow(block: seq<Item>): (entries: seq<Entry>)
    ensures |entries| == |block|
  {
    seq(|block|, i requires 0 <= i < |block| => if block[i].isNull then Missing else One(block[i].raw))
  }

  /** The same null flags, and the same values where there are any. */
  ghost predicate SameRows(a: seq<Item>, b: seq<Item>) {
    |a| == |b| && forall i | 0 <= i < |a| :: a[i].isNull == b[i].isNull && (!a[i].isNull ==> a[i] == b[i])
  }

  /** No run has started: nothing but nulls so far, and zeros set by themselves after a null. */
  predicate NoRunYet(kind: Kind, history: seq<Entry>) {
    StatsOf(kind, history).runCount == 0
  }

  /** The block's first value will not be in row 0, and no run has started before it. */
  predicate StartsLate(kind: Kind, history: seq<Entry>, block: seq<Item>) {
    NoRunYet(kind, history) && block != [] && (ItemsOf(kind, history) != [] || block[0].isNull)
  }

  /** The statistics after the block, and after its rows one at a time, disagree on whether the column is constant. */
  predicate FlagsDiffer(kind: Kind, history: seq<Entry>, block: seq<Item>) {
    StatsOf(kind, history + [Block(block)]).isConstant != StatsOf(kind, history + ByRow(block)).isConstant
  }

  /**
   * A block always leaves the same rows as its rows one at a time. The constant flags differ if and only if the column
   * has no run yet, the block's first value is not in row 0, and all its values are equal, but not to 0.0: the block
   * compares them with each other, the rows with 0.0.
   */
  lemma BlockRefinesRows(kind: Kind, history: seq<Entry>, block: seq<Item>)
    ensures SameRows(ItemsOf(kind, history + [Block(block)]), ItemsOf(kind, history + ByRow(block)))
    ensures !StartsLate(kind, history, block) ==>
              StatsOf(kind, history + [Block(block)]) == StatsOf(kind, history + ByRow(block))
    ensures FlagsDiffer(kind, history, block) <==>
              StartsLate(kind, history, block) && OneRun(kind, Values(block)) && !AllZero(kind, Values(block))
  {
    SameRowsLeft(kind, history, block);
    if !StartsLate(kind, history, block) {
      SameStats(kind, history, block);
    } else {
      NoRunIsFresh(kind, history);
      BlockFlag(kind, history, block);
      RowsFlag(kind, history, block);
      if AllZero(kind, Values(block)) {
        ZerosAreOneRun(kind, Values(block));
      }
    }
  }

  lemma BlockEntry(kind: Kind, history: seq<Entry>, block: seq<Item>)
    ensures ItemsOf(kind, history + [Block(block)]) == ItemsOf(kind, history) + block
    ensures StatsOf(kind, history + [Block(block)]) == AfterBlock(kind, StatsOf(kind, history), block)
  {
    assert (history + [Block(block)])[..|history|] == history;
  }

  lemma {:induction false} SameRowsLeft(kind: Kind, history: seq<Entry>, block: seq<Item>)
    ensures SameRows(ItemsOf(kind, history + [Block(block)]), ItemsOf(kind, history + ByRow(block)))
  {
    BlockEntry(kind, history, block);
    if block == [] {
      assert history + ByRow(block) == history;
    } else {
      var n := |block| - 1;
      BlockEntry(kind, history, block[..n]);
      SameRowsLeft(kind, history, block[..n]);
      ByRowLast(history, block);
      RowEntry(kind, history + ByRow(block[..n]), block[n]);
      ItemsLast(ItemsOf(kind, history), block);
      SameRowsMore(ItemsOf(kind, history) + block[..n], ItemsOf(kind, history + ByRow(block[..n])), block[n],
                   NewItems(kind, RowEntryOf(block[n]))[0]);
    }
  }

  /** The statistics after the rows of a block one at a time, on a column of `rows` rows. */
  function AfterRows(kind: Kind, st: Stats, rows: nat, block: seq<Item>): Stats {
    if block == [] then st
    else
      var n := |block| - 1;
      var before := AfterRows(kind, st, rows, block[..n]);
      if block[n].isNull then before else AfterValue(before, rows + n, Key(kind, block[n].raw))
  }

  lemma {:induction false} RowsFold(kind: Kind, history: seq<Entry>, block: seq<Item>)
    ensures StatsOf(kind, history + ByRow(block))
            == AfterRows(kind, StatsOf(kind, history), |ItemsOf(kind, history)|, block)
    ensures |ItemsOf(kind, history + ByRow(block))| == |ItemsOf(kind, history)| + |block|
  {
    if block == [] {
      assert history + ByRow(block) == history;
    } else {
      var n := |block| - 1;
      RowsFold(kind, history, block[..n]);
      ByRowLast(history, block);
      RowEntry(kind, history + ByRow(block[..n]), block[n]);
    }
  }

  /** Once a run has started, or if row 0 starts it now, both compare the same values. */
  lemma {:induction false} SameFold(kind: Kind, st: Stats, rows: nat, block: seq<Item>)
    requires if rows == 0 then st.runCount == 0 && block != [] && !block[0].isNull else st.runCount > 0
    ensures AfterBlock(kind, st, block) == AfterRows(kind, st, rows, block)
    ensures block != [] ==> AfterBlock(kind, st, block).runCount > 0
  {
    if block != [] {
      var n := |block| - 1;
      if n > 0 {
        SameFold(kind, st, rows, block[..n]);
      } else {
        assert block[..n] == [];
      }
    }
  }

  lemma SameStats(kind: Kind, history: seq<Entry>, block: seq<Item>)
    requires !StartsLate(kind, history, block)
    ensures StatsOf(kind, history + [Block(block)]) == StatsOf(kind, history + ByRow(block))
  {
    BlockEntry(kind, history, block);
    RowsFold(kind, history, block);
    RunHasRows(kind, history);
    if block != [] {
      SameFold(kind, StatsOf(kind, history), |ItemsOf(kind, history)|, block);
    }
  }

  /** There is a row once a run has started. */
  lemma RunHasRows(kind: Kind, history: seq<Entry>)
    ensures !NoRunYet(kind, history) ==> ItemsOf(kind, history) != []
  {
    ConstantExactly(kind, history);
  }

  lemma {:induction false} BlockStartsRun(kind: Kind, st: Stats, block: seq<Item>)
    requires Values(block) != []
    ensures AfterBlock(kind, st, block).runCount > 0
  {
    var n := |block| - 1;
    if block[n].isNull {
      BlockStartsRun(kind, st, block[..n]);
    }
  }

  /** Without a run the statistics are as at the start: values that came late were zeros. */
  lemma {:induction false} NoRunIsFresh(kind: Kind, history: seq<Entry>)
    requires NoRunYet(kind, history)
    ensures StatsOf(kind, history) == Fresh
  {
    if history != [] {
      var front, e := history[..|history| - 1], history[|history| - 1];
      if e.Block? {
        if Values(e.rows) != [] {
          BlockStartsRun(kind, StatsOf(kind, front), e.rows);
        }
        BlockKeepsLast(kind, StatsOf(kind, front), e.rows);
      }
      NoRunIsFresh(kind, front);
    }
  }

  /** What a caller can tell: no value came in row 0 or in a block, and those that came late were zeros. */
  lemma NoRunMeaning(kind: Kind, history: seq<Entry>)
    ensures NoRunYet(kind, history) <==> Running(kind, history) == [] && AllZero(kind, Late(kind, history))
  {
    ConstantExactly(kind, history);
    if NoRunYet(kind, history) {
      NoRunIsFresh(kind, history);
    }
  }

  lemma BlockFlag(kind: Kind, history: seq<Entry>, block: seq<Item>)
    requires StatsOf(kind, history) == Fresh
    ensures StatsOf(kind, history + [Block(block)]).isConstant == OneRun(kind, Values(block))
  {
    BlockEntry(kind, history, block);
    ExactBlock(kind, Fresh, [], block);
    assert [] + Values(block) == Values(block);
  }

  lemma RowsFlag(kind: Kind, history: seq<Entry>, block: seq<Item>)
    requires StatsOf(kind, history) == Fresh && block != [] && (ItemsOf(kind, history) != [] || block[0].isNull)
    ensures StatsOf(kind, history + ByRow(block)).isConstant == AllZero(kind, Values(block))
  {
    RowsFold(kind, history, block);
    LateFold(kind, |ItemsOf(kind, history)|, block);
  }

  /** After nothing but nulls and zeros, values in rows by themselves are each compared with 0.0. */
  lemma {:induction false} LateFold(kind: Kind, rows: nat, block: seq<Item>)
    requires rows > 0 || (block != [] && block[0].isNull)
    ensures var st := AfterRows(kind, Fresh, rows, block);
            if AllZero(kind, Values(block)) then st == Fresh else !st.isConstant
  {
    if block != [] {
      var n := |block| - 1;
      if n > 0 || rows > 0 {
        LateFold(kind, rows, block[..n]);
        ZeroPush(kind, Values(block[..n]), block[n]);
      } else {
        assert block[..n] == [] && Values([]) == [];
      }
    }
  }

  lemma ZeroPush(kind: Kind, values: seq<Bytes>, x: Item)
    ensures AllZero(kind, values + if x.isNull then [] else [x.raw])
            <==> AllZero(kind, values) && (x.isNull || Key(kind, x.raw) == Some(0))
  {
    var all := values + if x.isNull then [] else [x.raw];
    assert forall i | 0 <= i < |values| :: all[i] == values[i];
    assert !x.isNull ==> all[|values|] == x.raw;
  }

  lemma {:induction false} ZerosAreOneRun(kind: Kind, values: seq<Bytes>)
    requires AllZero(kind, values)
    ensures OneRun(kind, values)
  {
    if |values| > 1 {
      ZerosAreOneRun(kind, values[..|values| - 1]);
    }
  }

  function RowEntryOf(x: Item): Entry {
    if x.isNull then Missing else One(x.raw)
  }

  lemma ByRowLast(history: seq<Entry>, block: seq<Item>)
    requires block != []
    ensures history + ByRow(block) == history + ByRow(block[..|block| - 1]) + [RowEntryOf(block[|block| - 1])]
  {
  }

  lemma ItemsLast(items: seq<Item>, block: seq<Item>)
    requires block != []
    ensures items + block == items + block[..|block| - 1] + [block[|block| - 1]]
  {
  }

  lemma RowEntry(kind: Kind, rows: seq<Entry>, x: Item)
    ensures ItemsOf(kind, rows + [RowEntryOf(x)]) == ItemsOf(kind, rows) + [NewItems(kind, RowEntryOf(x))[0]]
    ensures StatsOf(kind, rows + [RowEntryOf(x)])
            == if x.isNull then StatsOf(kind, rows)
               else AfterValue(StatsOf(kind, rows), |ItemsOf(kind, rows)|, Key(kind, x.raw))
  {
    assert (rows + [RowEntryOf(x)])[..|rows|] == rows;
  }

  lemma SameRowsMore(a: seq<Item>, b: seq<Item>, x: Item, y: Item)
    requires SameRows(a, b) && x.isNull == y.isNull && (!x.isNull ==> x == y)
    ensures SameRows(a + [x], b + [y])
  {
  }

  // ---------------------------------------------------------------- where a value is lost

  function F64(bits: nat): Bytes {
    FixedBytes(bits, 8)
  }

  const FIVE: nat := 0x4014_0000_0000_0000
  const SEVEN: nat := 0x401C_0000_0000_0000

  lemma SlotWord(bits: nat)
    requires bits < TWO64
    ensures Word(F64(bits)) == bits
  {
    WordSizes();
    FixedRoundTrip(bits, 8);
  }

  lemma OneEntry(kind: Kind, front: seq<Entry>, e: Entry)
    ensures ItemsOf(kind, front + [e]) == ItemsOf(kind, front) + NewItems(kind, e)
    ensures StatsOf(kind, front + [e]) == StatsAfter(kind, StatsOf(kind, front), |ItemsOf(kind, front)|, e)
  {
    assert (front + [e])[..|front|] == front;
  }

  lemma OneInBlock(kind: Kind, st: Stats, x: Item)
    requires !x.isNull
    ensures AfterBlock(kind, st, [x]) == AfterBlockValue(st, Key(kind, x.raw))
  {
    assert [x][..0] == [] && AfterBlock(kind, st, []) == st;
  }

  lemma NullInBlock(kind: Kind, st: Stats, block: seq<Item>, x: Item)
    ensures AfterBlock(kind, st, block + [x])
            == if x.isNull then AfterBlock(kind, st, block)
                else AfterBlockValue(AfterBlock(kind, st, block), Key(kind, x.raw))
  {
    assert (block + [x])[..|block|] == block;
  }

  /** A block of doubles whose row 0 is null over a 7, and whose other rows are 5: it is sealed as the constant 7. */
  lemma NullFirstRowIsRead()
    ensures var items := [] + [Item(F64(SEVEN), true)] + [Item(F64(FIVE), false)] + [Item(F64(FIVE), false)];
            var history := [] + [Block(items)];
            && ItemsOf(Float64, history) == items && StatsOf(Float64, history).isConstant
            && Shown(Float64, items, true, 1) == Bits(F64(SEVEN)) != Meaning(Float64, items[1].raw)
  {
    FiveAndSeven();
    var a, b := Item(F64(SEVEN), true), Item(F64(FIVE), false);
    NullFirstStats(Float64, a, b);
    OneBlock(Float64, [] + [a] + [b] + [b]);
  }

  /**
   * The block [null, 5, 5] and its rows one at a time: the block is sealed as constant and reads back as what is under
   * the null, the rows are not and read back as 5.
   */
  lemma BlockAndRowsDiffer()
    ensures var a, b := Item(F64(SEVEN), true), Item(F64(FIVE), false);
            var block := [] + [a] + [b] + [b];
            var whole, rows := [] + [Block(block)], [] + ByRow(block);
            var items, single := ItemsOf(Float64, whole), ItemsOf(Float64, rows);
            && StatsOf(Float64, whole).isConstant && !StatsOf(Float64, rows).isConstant
            && SameRows(items, single) && |items| == 3
            && Shown(Float64, items, true, 1) == Bits(F64(SEVEN)) && Shown(Float64, single, false, 1) == Bits(F64(FIVE))
  {
    var a, b := Item(F64(SEVEN), true), Item(F64(FIVE), false);
    var block := [] + [a] + [b] + [b];
    FiveAndSeven();
    OneBlock(Float64, block);
    NullFirstStats(Float64, a, b);
    BlockRefinesRows(Float64, [], block);
    NotZeros(Float64, a, b);
    RowsFlag(Float64, [], block);
    assert ItemsOf(Float64, [] + ByRow(block))[1] == b;
  }

  lemma NotZeros(kind: Kind, a: Item, b: Item)
    requires a.isNull && !b.isNull && Key(kind, b.raw) != Some(0)
    ensures !AllZero(kind, Values([] + [a] + [b] + [b]))
  {
    ValuesConcat([] + [a] + [b], [b]);
    OneValue(b.raw);
    assert b == Item(b.raw, false);
    var values := Values([] + [a] + [b] + [b]);
    assert values[|values| - 1] == b.raw;
  }

  lemma FiveAndSeven()
    ensures Key(Float64, F64(FIVE)).Some? && Key(Float64, F64(FIVE)) != Some(0)
    ensures Meaning(Float64, F64(SEVEN)) == Bits(F64(SEVEN))
    ensures F64(SEVEN) != F64(FIVE) && Meaning(Float64, F64(FIVE)) == Bits(F64(FIVE))
  {
    SlotWord(FIVE);
    SlotWord(SEVEN);
  }

  lemma OneBlock(kind: Kind, block: seq<Item>)
    ensures ItemsOf(kind, [] + [Block(block)]) == block
              && StatsOf(kind, [] + [Block(block)]) == AfterBlock(kind, Fresh, block)
  {
    OneEntry(kind, [], Block(block));
  }

  /** A block whose row 0 is null and whose other two rows are the same counts as constant. */
  lemma NullFirstStats(kind: Kind, a: Item, b: Item)
    requires a.isNull && !b.isNull && Key(kind, b.raw).Some?
    ensures AfterBlock(kind, Fresh, [] + [a] + [b] + [b]).isConstant
  {
    NullInBlock(kind, Fresh, [], a);
    NullInBlock(kind, Fresh, [] + [a], b);
    NullInBlock(kind, Fresh, [] + [a] + [b], b);
  }

  /**
   * A null, then 0.0 in a row by itself, then a block with a 5: the 5 is compared with nothing, and reads back as 0.
   */
  lemma LateStartLosesAValue()
    ensures var history := [] + [Missing] + [One(F64(0))] + [Block([Item(F64(FIVE), false)])];
            var items := ItemsOf(Float64, history);
            && |items| == 3 && items[2] == Item(F64(FIVE), false) && StatsOf(Float64, history).isConstant
            && Shown(Float64, items, true, 2) == Bits(F64(0)) != Meaning(Float64, items[2].raw)
  {
    var x := Item(F64(FIVE), false);
    SlotWord(FIVE);
    SlotWord(0);
    OneEntry(Float64, [], Missing);
    OneEntry(Float64, [] + [Missing], One(F64(0)));
    OneEntry(Float64, [] + [Missing] + [One(F64(0))], Block([x]));
    OneInBlock(Float64, Fresh, x);
    assert F64(0) != F64(FIVE);
  }

  lemma TiesToEven()
    ensures Rounded(TWO53 + 1) == TWO53 == Rounded(TWO53)
  {
    SmallIsExact(TWO53);
    assert Dropped(TWO53 + 1) == 1 + Dropped((TWO53 + 1) / 2);
    assert Dropped(TWO53 + 1) == 1 && Pow2(1) == 2 * Pow2(0);
  }

  /** Beyond 2^53, two different unsigned integers can be the same double: the second reads back as the first. */
  lemma LargeIntegerIsLost()
    ensures var history := [] + [One(F64(TWO53))] + [One(F64(TWO53 + 1))];
            var items := ItemsOf(Uint64, history);
            && |items| == 2 && !items[0].isNull && StatsOf(Uint64, history).isConstant
            && Shown(Uint64, items, true, 1) == Whole(TWO53) != Meaning(Uint64, items[1].raw)
  {
    BlurredKeys();
    EqualKeysAreConstant(F64(TWO53), F64(TWO53 + 1));
    SlotWord(TWO53);
    SlotWord(TWO53 + 1);
  }

  /** Two rows with equal keys seal as the first of them. */
  lemma EqualKeysAreConstant(a: Bytes, b: Bytes)
    requires Key(Uint64, a).Some? && Key(Uint64, a) == Key(Uint64, b)
    ensures var history := [] + [One(a)] + [One(b)];
            var items := ItemsOf(Uint64, history);
            && items == [Item(a, false), Item(b, false)] && StatsOf(Uint64, history).isConstant
            && Shown(Uint64, items, true, 1) == Meaning(Uint64, a)
  {
    OneEntry(Uint64, [], One(a));
    OneEntry(Uint64, [] + [One(a)], One(b));
  }

  lemma BlurredKeys()
    ensures Key(Uint64, F64(TWO53)) == Key(Uint64, F64(TWO53 + 1)) == Some(TWO53)
  {
    SlotWord(TWO53);
    SlotWord(TWO53 + 1);
    TiesToEven();
  }
}
