/** The statistics that decide whether a column is sealed as one repeated value. */
module ColumnStats {
  import opened Samples
  import opened WireFormat
  import opened ColumnBuffers

  // ---------------------------------------------------------------- values as doubles

  const TWO31: nat := 0x8000_0000
  const TWO53: nat := 0x20_0000_0000_0000
  const TWO63: nat := 0x8000_0000_0000_0000

  function Pow2(n: nat): (p: nat)
    ensures p > 0
  {
    if n == 0 then 1 else 2 * Pow2(n - 1)
  }

  /** How many low bits of an integer a double has no room for. */
  function Dropped(u: nat): nat {
    if u < TWO53 then 0 else 1 + Dropped(u / 2)
  }

  /** An unsigned integer converted to a double: rounded to 53 bits, ties to even. */
  function Rounded(u: nat): nat {
    var unit := Pow2(Dropped(u));
    var q, r := u / unit, u % unit;
    if 2 * r > unit || (2 * r == unit && q % 2 == 1) then (q + 1) * unit else q * unit
  }

  /** Integers up to 2^53 are doubles. */
  lemma SmallIsExact(u: nat)
    requires u <= TWO53
    ensures Rounded(u) == u
  {
    if u == TWO53 {
      assert Dropped(TWO53) == 1 + Dropped(TWO53 / 2);
      assert Dropped(u) == 1 && Pow2(1) == 2;
    } else {
      assert Dropped(u) == 0 && Pow2(0) == 1;
    }
  }

  /** What `==` on doubles compares: None is not a number, and both zeros are the same. */
  function Key(kind: Kind, raw: Bytes): Option<nat> {
    var bits := Word(raw);
    match kind
    case Float32 => FloatKey(bits, TWO31, 0x7F80_0000)
    case Float64 => FloatKey(bits, TWO63, 0x7FF0_0000_0000_0000)
    case Uint64 => Some(Rounded(bits))
    case Bool => Some(if bits != 0 then 1 else 0)
    case _ => Some(bits)
  }

  /** The bits of a float, its sign on top; anything above infinity is not a number. */
  function FloatKey(bits: nat, sign: nat, infinity: nat): Option<nat>
    requires sign > 0
  {
    var magnitude := bits % sign;
    if magnitude > infinity then None else if magnitude == 0 then Some(0) else Some(bits)
  }

  predicate Equal(a: Option<nat>, b: Option<nat>) {
    a.Some? && a == b
  }

  /** Identical, or equal as doubles. */
  predicate Agree(kind: Kind, a: Bytes, b: Bytes) {
    a == b || Equal(Key(kind, a), Key(kind, b))
  }

  /** The kinds whose encoding depends on these statistics; integers are measured again when the chunk is sealed. */
  predicate Measured(kind: Kind) {
    kind == Float32 || kind == Float64 || kind == Uint64 || kind == Bool
  }

  // ---------------------------------------------------------------- the statistics

  /** `last` is the last value seen, 0.0 before there is one. */
  datatype Stats = Stats(isConstant: bool, runCount: nat, last: Option<nat>)

  const Fresh := Stats(true, 0, Some(0))

  /** A value in a row by itself: row 0 of the column starts the first run, whatever came before. */
  function AfterValue(st: Stats, row: nat, key: Option<nat>): Stats {
    if row == 0 then Stats(st.isConstant, 1, key)
    else if !Equal(key, st.last) then Stats(false, st.runCount + 1, key)
    else st.(last := key)
  }

  /** A value of a block: the first value starts the first run, unless a run was counted before. */
  function AfterBlockValue(st: Stats, key: Option<nat>): Stats {
    if st.runCount == 0 then Stats(st.isConstant, 1, key)
    else if !Equal(key, st.last) then Stats(false, st.runCount + 1, key)
    else st.(last := key)
  }

  function AfterBlock(kind: Kind, st: Stats, block: seq<Item>): Stats {
    if block == [] then st
    else
      var before, x := AfterBlock(kind, st, block[..|block| - 1]), block[|block| - 1];
      if x.isNull then before else AfterBlockValue(before, Key(kind, x.raw))
  }

  /** The loop over the rows of a block, null rows skipped. */
  method ComputeBulk(kind: Kind, st: Stats, block: seq<Item>) returns (st': Stats)
    ensures st' == AfterBlock(kind, st, block)
  {
    var constant, runs, prev := st.isConstant, st.runCount, st.last;
    var hadValid := st.runCount > 0;
    for i := 0 to |block|
      invariant Stats(constant, runs, prev) == AfterBlock(kind, st, block[..i]) && hadValid == (runs > 0)
    {
      assert block[..i + 1][..i] == block[..i];
      if block[i].isNull {
        continue;
      }
      var v := Key(kind, block[i].raw);
      if !hadValid {
        runs := 1;
        hadValid := true;
      } else if !Equal(v, prev) {
        constant := false;
        runs := runs + 1;
      }
      prev := v;
    }
    assert block[..|block|] == block;
    st' := Stats(constant, runs, prev);
  }

  // ---------------------------------------------------------------- histories

  /** One call on a column: a value, a null, or a block of rows. */
  datatype Entry = One(raw: Bytes) | Missing | Block(rows: seq<Item>)

  function ItemsOf(kind: Kind, history: seq<Entry>): seq<Item> {
    if history == [] then []
    else ItemsOf(kind, history[..|history| - 1]) + NewItems(kind, history[|history| - 1])
  }

  function NewItems(kind: Kind, e: Entry): seq<Item> {
    match e
    case One(raw) => [Item(raw, false)]
    case Missing => [Item(FixedBytes(0, SizeOf(kind)), true)]
    case Block(rows) => rows
  }

  /** The statistics after one more call, on a column of `rows` rows. */
  function StatsAfter(kind: Kind, st: Stats, rows: nat, e: Entry): Stats {
    match e
    case One(raw) => AfterValue(st, rows, Key(kind, raw))
    case Missing => st
    case Block(block) => AfterBlock(kind, st, block)
  }

  function StatsOf(kind: Kind, history: seq<Entry>): Stats {
    if history == [] then Fresh
    else
      var front := history[..|history| - 1];
      StatsAfter(kind, StatsOf(kind, front), |ItemsOf(kind, front)|, history[|history| - 1])
  }

  /** The values of the rows that are not null. */
  function Values(items: seq<Item>): seq<Bytes> {
    if items == [] then []
    else Values(items[..|items| - 1]) + if items[|items| - 1].isNull then [] else [items[|items| - 1].raw]
  }

  /** Every value equals the one before it, as a double. */
  predicate OneRun(kind: Kind, values: seq<Bytes>) {
    |values| <= 1 ||
    var n := |values| - 1;
    Equal(Key(kind, values[n]), Key(kind, values[n - 1])) && OneRun(kind, values[..n])
  }

  /** The statistics when every value was compared with the one before it. */
  predicate Exactly(kind: Kind, st: Stats, values: seq<Bytes>) {
    && st.isConstant == OneRun(kind, values)
    && (values == [] <==> st.runCount == 0)
    && (values != [] ==> st.last == Key(kind, values[|values| - 1]))
  }

  lemma {:induction false} ValuesConcat(a: seq<Item>, b: seq<Item>)
    ensures Values(a + b) == Values(a) + Values(b)
  {
    if b == [] {
      assert a + b == a;
    } else {
      var n := |b| - 1;
      ValuesConcat(a, b[..n]);
      ConcatFront(a, b);
      Assoc(Values(a), Values(b[..n]), if b[n].isNull then [] else [b[n].raw]);
    }
  }

  lemma ExactValue(kind: Kind, st: Stats, values: seq<Bytes>, raw: Bytes)
    requires Exactly(kind, st, values)
    ensures Exactly(kind, AfterBlockValue(st, Key(kind, raw)), values + [raw])
    ensures values != [] ==>
              forall row: nat | row > 0 :: Exactly(kind, AfterValue(st, row, Key(kind, raw)), values + [raw])
    ensures values == [] ==> Exactly(kind, AfterValue(st, 0, Key(kind, raw)), values + [raw])
  {
    assert (values + [raw])[..|values|] == values;
  }

  lemma {:induction false} ExactBlock(kind: Kind, st: Stats, values: seq<Bytes>, block: seq<Item>)
    requires Exactly(kind, st, values)
    ensures Exactly(kind, AfterBlock(kind, st, block), values + Values(block))
  {
    if block == [] {
      assert values + Values(block) == values;
    } else {
      var n := |block| - 1;
      ExactBlock(kind, st, values, block[..n]);
      if block[n].isNull {
        assert Values(block) == Values(block[..n]) + [] == Values(block[..n]);
      } else {
        ExactValue(kind, AfterBlock(kind, st, block[..n]), values + Values(block[..n]), block[n].raw);
        assert Values(block) == Values(block[..n]) + [block[n].raw];
        Assoc(values, Values(block[..n]), [block[n].raw]);
      }
    }
  }

  /** Values set in rows by themselves after nothing but nulls: no run has started, and each is compared with 0.0. */
  function Late(kind: Kind, history: seq<Entry>): seq<Bytes> {
    if history == [] then []
    else
      var front, e := history[..|history| - 1], history[|history| - 1];
      if e.One? && Running(kind, front) == [] && ItemsOf(kind, front) != [] then Late(kind, front) + [e.raw]
          else Late(kind, front)
  }

  /** The values from the start of the first run on: from row 0, or from the first value of a block. */
  function Running(kind: Kind, history: seq<Entry>): seq<Bytes> {
    if history == [] then []
    else
      var front, e := history[..|history| - 1], history[|history| - 1];
      match e
      case One(raw) => if Running(kind, front) == [] && ItemsOf(kind, front) != [] then []
          else Running(kind, front) + [raw]
      case Missing => Running(kind, front)
      case Block(rows) => Running(kind, front) + Values(rows)
  }

  /** All values are zeros, as doubles. */
  predicate AllZero(kind: Kind, values: seq<Bytes>) {
    forall i | 0 <= i < |values| :: Key(kind, values[i]) == Some(0)
  }

  /** The statistics, given the values that came late and those of the runs. */
  predicate Describes(kind: Kind, st: Stats, late: seq<Bytes>, running: seq<Bytes>) {
    && st.isConstant == (AllZero(kind, late) && OneRun(kind, running))
    && (AllZero(kind, late) ==> Exactly(kind, st, running) && (running == [] ==> st.last == Some(0)))
  }

  lemma DescribesLate(kind: Kind, st: Stats, late: seq<Bytes>, raw: Bytes, row: nat)
    requires Describes(kind, st, late, []) && row > 0
    ensures Describes(kind, AfterValue(st, row, Key(kind, raw)), late + [raw], [])
  {
    assert (late + [raw])[|late|] == raw;
    assert forall i | 0 <= i < |late| :: (late + [raw])[i] == late[i];
  }

  lemma DescribesValue(kind: Kind, st: Stats, late: seq<Bytes>, running: seq<Bytes>, raw: Bytes, row: nat)
    requires Describes(kind, st, late, running) && (running == [] ==> row == 0 && late == [])
               && (running != [] ==> row > 0)
    ensures Describes(kind, AfterValue(st, row, Key(kind, raw)), late, running + [raw])
  {
    assert (running + [raw])[..|running|] == running;
    if AllZero(kind, late) {
      ExactValue(kind, st, running, raw);
    }
  }

  lemma {:induction false} DescribesBlock(kind: Kind, st: Stats, late: seq<Bytes>, running: seq<Bytes>,
                                          block: seq<Item>)
    requires Describes(kind, st, late, running)
    ensures Describes(kind, AfterBlock(kind, st, block), late, running + Values(block))
  {
    if AllZero(kind, late) {
      ExactBlock(kind, st, running, block);
      if Values(block) == [] {
        BlockKeepsLast(kind, st, block);
      }
    } else {
      StaysVaried(kind, st, block);
    }
  }

  lemma {:induction false} BlockKeepsLast(kind: Kind, st: Stats, block: seq<Item>)
    requires Values(block) == []
    ensures AfterBlock(kind, st, block) == st
  {
    if block != [] {
      BlockKeepsLast(kind, st, block[..|block| - 1]);
    }
  }

  lemma {:induction false} StaysVaried(kind: Kind, st: Stats, block: seq<Item>)
    requires !st.isConstant
    ensures !AfterBlock(kind, st, block).isConstant
  {
    if block != [] {
      StaysVaried(kind, st, block[..|block| - 1]);
    }
  }

  /** A column counts as constant exactly if its late values are zeros and each later value equals the one before it. */
  lemma {:induction false} ConstantExactly(kind: Kind, history: seq<Entry>)
    ensures Describes(kind, StatsOf(kind, history), Late(kind, history), Running(kind, history))
    ensures Values(ItemsOf(kind, history)) == Late(kind, history) + Running(kind, history)
    ensures ItemsOf(kind, history) == [] ==> Late(kind, history) == Running(kind, history) == []
  {
    if history == [] {
    } else {
      FrontAndLast(history);
      var front := history[..|history| - 1];
      ConstantExactly(kind, front);
      NextEntry(kind, front, history[|history| - 1]);
    }
  }

  lemma NextEntry(kind: Kind, front: seq<Entry>, e: Entry)
    requires Describes(kind, StatsOf(kind, front), Late(kind, front), Running(kind, front))
    requires Values(ItemsOf(kind, front)) == Late(kind, front) + Running(kind, front)
    requires ItemsOf(kind, front) == [] ==> Late(kind, front) == Running(kind, front) == []
    ensures var history := front + [e];
            && Describes(kind, StatsOf(kind, history), Late(kind, history), Running(kind, history))
            && Values(ItemsOf(kind, history)) == Late(kind, history) + Running(kind, history)
            && (ItemsOf(kind, history) == [] ==> Late(kind, history) == Running(kind, history) == [])
  {
    assert (front + [e])[..|front|] == front;
    var items, st, late, running := ItemsOf(kind, front), StatsOf(kind, front), Late(kind, front), Running(kind, front);
    ValuesConcat(items, NewItems(kind, e));
    match e
    case One(raw) => {
      OneValue(raw);
      NextOne(kind, st, late, running, raw, |items|);
      Assoc(late, running, [raw]);
    }
    case Missing => {
      OneNull(FixedBytes(0, SizeOf(kind)));
      assert Values(items) + [] == Values(items);
    }
    case Block(rows) => {
      DescribesBlock(kind, st, late, running, rows);
      Assoc(late, running, Values(rows));
      NoItems();
    }
  }

  /** A value in a row by itself: late, or one more of the runs. */
  lemma NextOne(kind: Kind, st: Stats, late: seq<Bytes>, running: seq<Bytes>, raw: Bytes, row: nat)
    requires Describes(kind, st, late, running) && (row == 0 ==> late == [] && running == [])
    ensures running == [] && row > 0 ==>
              Describes(kind, AfterValue(st, row, Key(kind, raw)), late + [raw], [])
                  && late + running + [raw] == late + [raw] + []
    ensures !(running == [] && row > 0) ==> Describes(kind, AfterValue(st, row, Key(kind, raw)), late, running + [raw])
  {
    if running == [] && row > 0 {
      DescribesLate(kind, st, late, raw, row);
      assert late + [] == late;
    } else {
      DescribesValue(kind, st, late, running, raw, row);
    }
  }

  lemma NoItems()
    ensures Values([]) == []
  {
  }

  lemma OneValue(raw: Bytes)
    ensures Values([Item(raw, false)]) == [raw]
  {
    assert [Item(raw, false)][..0] == [];
    assert Values([]) == [];
  }

  lemma OneNull(raw: Bytes)
    ensures Values([Item(raw, true)]) == []
  {
    assert [Item(raw, true)][..0] == [];
    assert Values([]) == [];
  }

  /** In one run all values agree with each other. */
  lemma {:induction false} OneRunAgrees(kind: Kind, values: seq<Bytes>, i: nat, j: nat)
    requires OneRun(kind, values) && i <= j < |values|
    ensures Agree(kind, values[j], values[i])
  {
    var n := |values| - 1;
    if i < j {
      if j < n {
        OneRunAgrees(kind, values[..n], i, j);
      } else {
        OneRunAgrees(kind, values[..n], i, n - 1);
      }
    }
  }
}
