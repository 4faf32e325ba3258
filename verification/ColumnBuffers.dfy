/**
 * A column under construction: its values back to back, offsets for strings, and a validity bitmap made only when
 * needed.
 */
module ColumnBuffers {
  import opened Folding
  import opened Samples
  import opened WireFormat
  import opened Slots
  import opened BitVectors

  datatype Kind = Float32 | Float64 | Int32 | Int64 | Uint64 | Bool | String

  /** Bytes per value; strings have no fixed size. */
  function SizeOf(kind: Kind): nat {
    match kind
    case Float32 => 4
    case Int32 => 4
    case Bool => 1
    case String => 0
    case _ => 8
  }

  /** What one row holds: the raw bytes of its slot, which a null row has too, and whether it is null. */
  datatype Item = Item(raw: Bytes, isNull: bool)

  function Raws(items: seq<Item>): (raws: seq<Bytes>)
    ensures |raws| == |items| && forall i | 0 <= i < |items| :: raws[i] == items[i].raw
  {
    seq(|items|, i requires 0 <= i < |items| => items[i].raw)
  }

  /** Rows with a value. */
  function Present(raws: seq<Bytes>): (items: seq<Item>)
    ensures |items| == |raws| && forall i | 0 <= i < |raws| :: items[i] == Item(raws[i], false)
  {
    seq(|raws|, i requires 0 <= i < |raws| => Item(raws[i], false))
  }

  function NullsIn(items: seq<Item>): nat {
    if items == [] then 0 else NullsIn(items[..|items| - 1]) + if items[|items| - 1].isNull then 1 else 0
  }

  lemma NullsMore(items: seq<Item>, x: Item)
    ensures NullsIn(items + [x]) == NullsIn(items) + if x.isNull then 1 else 0
  {
    assert (items + [x])[..|items|] == items;
  }

  lemma {:induction false} NullsOfPresent(items: seq<Item>, raws: seq<Bytes>)
    ensures NullsIn(items + Present(raws)) == NullsIn(items)
  {
    if raws == [] {
      assert items + Present(raws) == items;
    } else {
      var n := |raws| - 1;
      NullsOfPresent(items, raws[..n]);
      assert items + Present(raws) == items + Present(raws[..n]) + [Item(raws[n], false)];
      NullsMore(items + Present(raws[..n]), Item(raws[n], false));
    }
  }

  /** No row is null exactly if the count is zero. */
  lemma {:induction false} NoNulls(items: seq<Item>)
    ensures NullsIn(items) == 0 <==> forall i | 0 <= i < |items| :: !items[i].isNull
  {
    if items != [] {
      NoNulls(items[..|items| - 1]);
      assert forall i | 0 <= i < |items| - 1 :: items[..|items| - 1][i] == items[i];
    }
  }

  /**
   * String offsets: 0 in front of the first row, and the end of every row, as 32-bit words; none if there is no row.
   */
  function OffsetsOf(raws: seq<Bytes>): (offsets: seq<nat>)
    ensures |offsets| == if raws == [] then 0 else |raws| + 1
    decreases |raws|, 0
  {
    if raws == [] then [] else OffsetsFront(raws[..|raws| - 1]) + [Word32(|Concat(raws)|)]
  }

  function Word32(n: nat): nat {
    n % TWO32
  }

  function OffsetsFront(raws: seq<Bytes>): (offsets: seq<nat>)
    ensures |offsets| == |raws| + 1
    decreases |raws|, 1
  {
    if raws == [] then [0] else OffsetsOf(raws)
  }

  /** One more string: the offset 0 in front of the first, and the end of the new one. */
  lemma OffsetsMore(raws: seq<Bytes>, x: Bytes)
    ensures OffsetsOf(raws + [x]) == OffsetsFront(raws) + [Word32(|Concat(raws)| + |x|)]
  {
    assert (raws + [x])[..|raws|] == raws;
    ConcatMore(raws, x);
    var end := |Concat(raws + [x])|;
    assert end == |Concat(raws)| + |x|;
    assert OffsetsOf(raws + [x]) == OffsetsFront(raws) + [Word32(end)];
  }

  /** The offset in front of row `k` is where it starts. */
  lemma {:induction false} OffsetAt(raws: seq<Bytes>, k: nat)
    requires k <= |raws|
    ensures OffsetsFront(raws)[k] == Word32(StartOf(raws, k))
  {
    if k == |raws| {
      assert raws[..k] == raws;
    } else {
      var front := raws[..|raws| - 1];
      OffsetAt(front, k);
      assert front[..k] == raws[..k];
    }
  }

  /** The buffers that hold the given slots. */
  ghost predicate Holds(kind: Kind, raws: seq<Bytes>, values: Bytes, offsets: seq<nat>) {
    && values == Concat(raws)
    && if kind == String then offsets == OffsetsOf(raws) else offsets == [] && AllOfSize(raws, SizeOf(kind))
  }

  lemma HoldsMore(kind: Kind, raws: seq<Bytes>, values: Bytes, offsets: seq<nat>, raw: Bytes)
    requires Holds(kind, raws, values, offsets) && (kind == String || |raw| == SizeOf(kind))
    ensures kind == String ==>
              Holds(kind, raws + [raw], values + raw, OffsetsFront(raws) + [Word32(|values| + |raw|)])
    ensures kind != String ==> Holds(kind, raws + [raw], values + raw, offsets)
  {
    ConcatMore(raws, raw);
    OffsetsMore(raws, raw);
  }

  lemma StringSlice(raws: seq<Bytes>, row: nat)
    requires row < |raws| && |Concat(raws)| < TWO32
    ensures OffsetsOf(raws)[row] <= OffsetsOf(raws)[row + 1] <= |Concat(raws)|
    ensures Concat(raws)[OffsetsOf(raws)[row]..OffsetsOf(raws)[row + 1]] == raws[row]
  {
    ItemSlice(raws, row);
    OffsetAt(raws, row);
    OffsetAt(raws, row + 1);
    SmallWord(StartOf(raws, row));
    SmallWord(StartOf(raws, row + 1));
  }

  lemma SmallWord(n: nat)
    requires n < TWO32
    ensures Word32(n) == n
  {
  }

  lemma HoldsAppend(kind: Kind, raws: seq<Bytes>, values: Bytes, more: seq<Bytes>)
    requires kind != String && Holds(kind, raws, values, []) && AllOfSize(more, SizeOf(kind))
    ensures Holds(kind, raws + more, values + Concat(more), [])
  {
    ConcatAppend(raws, more);
  }

  /** The strings described by offsets into shared bytes. */
  function Texts(offs: seq<nat>, data: Bytes): (texts: seq<Bytes>)
    requires TextsOk(offs, data)
    ensures |texts| == |offs| - 1 && forall i | 0 <= i < |texts| :: texts[i] == data[offs[i]..offs[i + 1]]
  {
    seq(|offs| - 1, i requires 0 <= i < |offs| - 1 => data[offs[i]..offs[i + 1]])
  }

  predicate TextsOk(offs: seq<nat>, data: Bytes) {
    && |offs| > 0 && offs[|offs| - 1] <= |data| && |data| < TWO32
    && forall i, j | 0 <= i <= j < |offs| :: offs[i] <= offs[j]
  }

  /** Consecutive strings fill the bytes between their offsets. */
  lemma {:induction false} TextsConcat(offs: seq<nat>, data: Bytes, i: nat)
    requires TextsOk(offs, data) && i < |offs|
    ensures Concat(Texts(offs, data)[..i]) == data[offs[0]..offs[i]]
  {
    var texts := Texts(offs, data);
    if i > 0 {
      TextsConcat(offs, data, i - 1);
      PrefixNext(texts, i - 1);
      ConcatMore(texts[..i - 1], texts[i - 1]);
      Slices(data, offs[0], offs[i - 1], offs[i]);
    }
  }

  lemma Slices(data: Bytes, a: nat, b: nat, c: nat)
    requires a <= b <= c <= |data|
    ensures data[a..c] == data[a..b] + data[b..c]
  {
  }

  /** A 32-bit sum does not depend on narrowing its first part before. */
  lemma Rebased(a: nat, b: nat)
    ensures Word32(Word32(a) + b) == Word32(a + b)
  {
  }

  /** The offsets once the first `i` of the new strings are counted in. */
  function OffsetsUpTo(raws: seq<Bytes>, offs: seq<nat>, data: Bytes, i: nat): seq<nat>
    requires TextsOk(offs, data) && i < |offs|
  {
    OffsetsFront(raws + Texts(offs, data)[..i])
  }

  /** The next rebased offset: where the next string ends behind what is already there. */
  lemma NextOffset(raws: seq<Bytes>, offs: seq<nat>, data: Bytes, i: nat)
    requires TextsOk(offs, data) && i < |offs| - 1
    ensures offs[0] <= offs[i + 1]
    ensures OffsetsUpTo(raws, offs, data, i + 1)
            == OffsetsUpTo(raws, offs, data, i) + [Word32(Word32(|Concat(raws)|) + (offs[i + 1] - offs[0]))]
  {
    var texts := Texts(offs, data);
    assert raws + texts[..i + 1] == raws + texts[..i] + [texts[i]];
    OffsetsMore(raws + texts[..i], texts[i]);
    ConcatAppend(raws, texts[..i]);
    TextsConcat(offs, data, i);
    Rebased(|Concat(raws)|, offs[i + 1] - offs[0]);
  }

  /** `offsets` count in the first `i` of the new strings; kept folded (see Folding). */
  ghost predicate CountedIn(offsets: seq<nat>, raws: seq<Bytes>, offs: seq<nat>, data: Bytes, i: nat) {
    forall n: nat {:trigger UnfoldAt(n)} | n == i ::
      TextsOk(offs, data) && n < |offs| && offsets == OffsetsUpTo(raws, offs, data, n)
  }

  lemma CountedMeaning(offsets: seq<nat>, raws: seq<Bytes>, offs: seq<nat>, data: Bytes, i: nat)
    ensures CountedIn(offsets, raws, offs, data, i)
            <==> TextsOk(offs, data) && i < |offs| && offsets == OffsetsUpTo(raws, offs, data, i)
  {
    assert UnfoldAt(i);
  }

  lemma CountedNext(offsets: seq<nat>, raws: seq<Bytes>, offs: seq<nat>, data: Bytes, i: nat, base: nat)
    requires CountedIn(offsets, raws, offs, data, i) && i + 1 < |offs| && base == Word32(|Concat(raws)|)
    ensures offs[0] <= offs[i + 1]
    ensures CountedIn(offsets + [Word32(base + (offs[i + 1] - offs[0]))], raws, offs, data, i + 1)
  {
    CountedMeaning(offsets, raws, offs, data, i);
    NextOffset(raws, offs, data, i);
    CountedMeaning(offsets + [Word32(base + (offs[i + 1] - offs[0]))], raws, offs, data, i + 1);
  }

  /** The offsets of the new strings, relative to where their bytes will stand. */
  method RebaseOffsets(offsets: seq<nat>, base: nat, offs: seq<nat>, ghost data: Bytes, ghost raws: seq<Bytes>)
    returns (rebased: seq<nat>)
    requires CountedIn(offsets, raws, offs, data, 0) && |offs| > 0 && base == Word32(|Concat(raws)|)
    ensures CountedIn(rebased, raws, offs, data, |offs| - 1)
  {
    rebased := offsets;
    for i := 1 to |offs|
      invariant CountedIn(rebased, raws, offs, data, i - 1)
    {
      CountedNext(rebased, raws, offs, data, i - 1, base);
      rebased := rebased + [Word32(base + (offs[i] - offs[0]))];
    }
  }

  lemma CountedNone(offsets: seq<nat>, raws: seq<Bytes>, offs: seq<nat>, data: Bytes)
    requires TextsOk(offs, data)
    ensures CountedIn(offsets, raws, offs, data, 0) <==> offsets == OffsetsFront(raws)
  {
    CountedMeaning(offsets, raws, offs, data, 0);
    assert raws + Texts(offs, data)[..0] == raws;
  }

  lemma CountedAll(offsets: seq<nat>, raws: seq<Bytes>, offs: seq<nat>, data: Bytes)
    requires TextsOk(offs, data)
    ensures CountedIn(offsets, raws, offs, data, |offs| - 1) <==> offsets == OffsetsFront(raws + Texts(offs, data))
  {
    CountedMeaning(offsets, raws, offs, data, |offs| - 1);
    assert Texts(offs, data)[..|offs| - 1] == Texts(offs, data);
  }

  /** The buffers after a block of strings. */
  lemma HoldsTexts(raws: seq<Bytes>, values: Bytes, offsets: seq<nat>, offs: seq<nat>, data: Bytes)
    requires Holds(String, raws, values, offsets) && TextsOk(offs, data) && |offs| > 1
    ensures Holds(String, raws + Texts(offs, data), values + data[offs[0]..offs[|offs| - 1]],
              OffsetsFront(raws + Texts(offs, data)))
  {
    var texts := Texts(offs, data);
    ConcatAppend(raws, texts);
    TextsConcat(offs, data, |texts|);
    assert texts[..|texts|] == texts && raws + texts != [];
  }

  lemma {:induction false} NullsUpdate(items: seq<Item>, k: nat, x: Item)
    requires k < |items| && !items[k].isNull
    ensures NullsIn(items[k := x]) == NullsIn(items) + if x.isNull then 1 else 0
  {
    var n := |items| - 1;
    if k < n {
      NullsUpdate(items[..n], k, x);
      assert items[k := x][..n] == items[..n][k := x];
    } else {
      assert items[k := x][..n] == items[..n];
    }
  }

  lemma RawsAppend(items: seq<Item>, raws: seq<Bytes>)
    ensures Raws(items + Present(raws)) == Raws(items) + raws
  {
  }

  lemma RawsMore(items: seq<Item>, x: Item)
    ensures Raws(items + [x]) == Raws(items) + [x.raw]
  {
  }

  /** The bitmap says which rows are null; kept folded (see Folding). */
  ghost predicate Tells(bytes: seq<Byte8>, items: seq<Item>) {
    forall n: nat {:trigger UnfoldAt(n)} | n == |items| ::
      n <= 8 * |bytes| && forall i | 0 <= i < n :: BitAt(bytes, i) == !items[i].isNull
  }

  lemma TellsMeaning(bytes: seq<Byte8>, items: seq<Item>)
    ensures Tells(bytes, items)
            <==> |items| <= 8 * |bytes| && forall i | 0 <= i < |items| :: BitAt(bytes, i) == !items[i].isNull
  {
    assert UnfoldAt(|items|);
  }

  /** Rows that are not null, whatever they hold. */
  function Blank(count: nat): (items: seq<Item>)
    ensures |items| == count && forall i | 0 <= i < count :: items[i] == Item([], false)
  {
    seq(count, i => Item([], false))
  }

  lemma TellsMore(bytes: seq<Byte8>, items: seq<Item>, x: Item)
    requires Tells(bytes, items) && |items| < 8 * |bytes|
    ensures Tells(if x.isNull then WithoutBit(bytes, |items|) else WithBit(bytes, |items|), items + [x])
  {
    TellsMeaning(bytes, items);
    TellsMeaning(if x.isNull then WithoutBit(bytes, |items|) else WithBit(bytes, |items|), items + [x]);
  }

  lemma TellsGrown(bytes: seq<Byte8>, bytes': seq<Byte8>, items: seq<Item>)
    requires Tells(bytes, items) && |bytes| <= |bytes'|
    requires forall i | 0 <= i < 8 * |bytes| :: BitAt(bytes', i) == BitAt(bytes, i)
    ensures Tells(bytes', items) && |items| <= 8 * |bytes|
  {
    TellsMeaning(bytes, items);
    TellsMeaning(bytes', items);
  }

  lemma TellsUpdate(bytes: seq<Byte8>, items: seq<Item>, k: nat, x: Item)
    requires Tells(bytes, items) && k < |items|
    ensures |items| <= 8 * |bytes| && Tells(if x.isNull then WithoutBit(bytes, k) else WithBit(bytes, k), items[k := x])
  {
    TellsMeaning(bytes, items);
    TellsMeaning(if x.isNull then WithoutBit(bytes, k) else WithBit(bytes, k), items[k := x]);
  }

  lemma TellsFlags(bytes: seq<Byte8>, items: seq<Item>, items': seq<Item>)
    requires Tells(bytes, items) && |items'| == |items|
    requires forall i | 0 <= i < |items| :: items'[i].isNull == items[i].isNull
    ensures Tells(bytes, items')
  {
    TellsMeaning(bytes, items);
    TellsMeaning(bytes, items');
  }

  class TypedColumnBuffer {
    const kind: Kind
    const validity: BitVector
    var values: Bytes
    var offsets: seq<nat>
    var validityInitialized: bool
    var rowCount: nat
    var nullCount: nat
    ghost var items: seq<Item>

    ghost predicate Valid()
      reads this, validity
    {
      && rowCount == |items| && nullCount == NullsIn(items) && ValuesOk() && ValidityOk()
    }

    ghost predicate ValuesOk()
      reads this
    {
      Holds(kind, Raws(items), values, offsets)
    }

    ghost predicate ValidityOk()
      reads this, validity
    {
      if validityInitialized then validity.Valid() && |items| <= validity.bitCount && Tells(validity.bytes, items)
      else NullsIn(items) == 0
    }

    constructor (kind: Kind)
      ensures Valid() && this.kind == kind && items == [] && fresh(validity)
    {
      this.kind := kind;
      validity := new BitVector();
      values, offsets, validityInitialized, rowCount, nullCount, items := [], [], false, 0, 0, [];
    }

    predicate HasNulls()
      reads this
    {
      nullCount > 0
    }

    predicate IsNull(row: nat)
      reads this, validity
      requires Valid() && row < rowCount
      ensures IsNull(row) == items[row].isNull
    {
      NoNulls(items);
      TellsMeaning(validity.bytes, items);
      validityInitialized && !validity.IsValid(row)
    }

    /** The bytes of a fixed-size value. */
    function ReadFixed(row: nat): (raw: Bytes)
      reads this, validity
      requires Valid() && row < rowCount && kind != String
      ensures raw == items[row].raw
    {
      FixedSlice(Raws(items), SizeOf(kind), row);
      values[row * SizeOf(kind)..row * SizeOf(kind) + SizeOf(kind)]
    }

    /** A string, found through its two offsets. */
    function ReadString(row: nat): (raw: Bytes)
      reads this, validity
      requires Valid() && row < rowCount && kind == String && |values| < TWO32
      ensures raw == items[row].raw
    {
      StringSlice(Raws(items), row);
      values[offsets[row]..offsets[row + 1]]
    }

    /** The first null makes the bitmap; all rows so far are valid. */
    method EnsureValidityInitialized()
      requires Valid()
      modifies this`validityInitialized, validity
      ensures Valid() && validityInitialized
    {
      if validityInitialized {
        return;
      }
      NoNulls(items);
      validity.InitValid(rowCount);
      TellsMeaning(validity.bytes, items);
      validityInitialized := true;
    }

    /** Makes room in the bitmap, if there is one, and marks the next `count` rows valid. */
    method MarkNext(count: nat)
      requires rowCount == |items| && ValidityOk()
      modifies validity
      ensures if validityInitialized then validity.Valid() && rowCount + count <= validity.bitCount
                                       && Tells(validity.bytes, items + Blank(count))
              else NullsIn(items) == 0
    {
      if validityInitialized {
        ghost var before := validity.bytes;
        validity.EnsureSize(rowCount + count);
        TellsGrown(before, validity.bytes, items);
        assert items + Blank(0) == items;
        for i := rowCount to rowCount + count
          invariant validity.Valid() && rowCount + count <= validity.bitCount
          invariant Tells(validity.bytes, items + Blank(i - rowCount))
        {
          TellsMore(validity.bytes, items + Blank(i - rowCount), Item([], false));
          assert items + Blank(i - rowCount) + [Item([], false)] == items + Blank(i + 1 - rowCount);
          validity.SetValid(i);
        }
      }
    }

    /** Marks the next row null, making the bitmap if there is none. */
    method MarkNull()
      requires Valid()
      modifies this`validityInitialized, validity
      ensures validityInitialized && validity.Valid() && rowCount < validity.bitCount
      ensures Tells(validity.bytes, items + [Item([], true)])
    {
      EnsureValidityInitialized();
      ghost var before := validity.bytes;
      validity.EnsureSize(rowCount + 1);
      TellsGrown(before, validity.bytes, items);
      TellsMore(validity.bytes, items, Item([], true));
      validity.SetNull(rowCount);
    }

    /** The slot of one more row. */
    method AppendSlot(raw: Bytes)
      requires rowCount == |items| && ValuesOk() && (kind == String || |raw| == SizeOf(kind))
      modifies this`values, this`offsets
      ensures Holds(kind, Raws(items) + [raw], values, offsets)
    {
      HoldsMore(kind, Raws(items), values, offsets, raw);
      values := values + raw;
      if kind == String {
        if rowCount == 0 {
          offsets := offsets + [0];
        }
        offsets := offsets + [Word32(|values|)];
      }
    }

    method AppendPresent(raw: Bytes)
      requires Valid() && (kind == String || |raw| == SizeOf(kind))
      modifies this, validity
      ensures Valid() && items == old(items) + [Item(raw, false)]
    {
      NullsMore(items, Item(raw, false));
      RawsMore(items, Item(raw, false));
      MarkNext(1);
      if validityInitialized {
        TellsFlags(validity.bytes, items + Blank(1), items + [Item(raw, false)]);
      }
      AppendSlot(raw);
      rowCount := rowCount + 1;
      items := items + [Item(raw, false)];
    }

    method AppendFixed(bits: nat)
      requires Valid() && kind != String
      modifies this, validity
      ensures Valid() && items == old(items) + [Item(FixedBytes(bits, SizeOf(kind)), false)]
    {
      AppendPresent(FixedBytes(bits, SizeOf(kind)));
    }

    method AppendString(text: Bytes)
      requires Valid() && kind == String
      modifies this, validity
      ensures Valid() && items == old(items) + [Item(text, false)]
    {
      AppendPresent(text);
    }

    /** A null row still gets a slot: zeros, or an empty string. */
    method AppendNull()
      requires Valid()
      modifies this, validity
      ensures Valid() && items == old(items) + [Item(FixedBytes(0, SizeOf(kind)), true)]
    {
      var raw := FixedBytes(0, SizeOf(kind));
      MarkNull();
      TellsFlags(validity.bytes, items + [Item([], true)], items + [Item(raw, true)]);
      NullsMore(items, Item(raw, true));
      RawsMore(items, Item(raw, true));
      AppendSlot(raw);
      rowCount, nullCount := rowCount + 1, nullCount + 1;
      items := items + [Item(raw, true)];
    }

    /** Many fixed-size values at once. */
    method AppendFixedBulk(raws: seq<Bytes>)
      requires Valid() && kind != String && AllOfSize(raws, SizeOf(kind))
      modifies this, validity
      ensures Valid() && items == old(items) + Present(raws)
    {
      if |raws| == 0 {
        assert items + Present(raws) == items;
        return;
      }
      HoldsAppend(kind, Raws(items), values, raws);
      values := values + Concat(raws);
      CountRows(raws, |raws|);
    }

    /** The bitmap and the row count, once the slots of new rows stand. */
    method CountRows(ghost raws: seq<Bytes>, count: nat)
      requires rowCount == |items| && nullCount == NullsIn(items) && ValidityOk() && count == |raws|
      requires Holds(kind, Raws(items) + raws, values, offsets)
      modifies this`rowCount, this`items, validity
      ensures Valid() && items == old(items) + Present(raws)
    {
      MarkNext(count);
      if validityInitialized {
        TellsFlags(validity.bytes, items + Blank(count), items + Present(raws));
      }
      NullsOfPresent(items, raws);
      RawsAppend(items, raws);
      rowCount := rowCount + count;
      items := items + Present(raws);
    }

    /** Many strings at once: their bytes move over as one block, and their offsets are rebased behind what is there. */
    method AppendStringsBulk(offs: seq<nat>, data: Bytes)
      requires Valid() && kind == String && (offs == [] || TextsOk(offs, data))
      modifies this, validity
      ensures Valid() && items == old(items) + if offs == [] then [] else Present(Texts(offs, data))
    {
      if |offs| == 0 || |offs| - 1 == 0 {
        assert items == items + if offs == [] then [] else Present(Texts(offs, data));
        return;
      }
      HoldsTexts(Raws(items), values, offsets, offs, data);
      AddStrings(offs, data);
      CountRows(Texts(offs, data), |offs| - 1);
    }

    /** The slots of a block of strings. */
    method AddStrings(offs: seq<nat>, data: Bytes)
      requires rowCount == |items| && kind == String && ValuesOk() && TextsOk(offs, data)
      modifies this`values, this`offsets
      ensures values == old(values) + data[offs[0]..offs[|offs| - 1]]
      ensures offsets == OffsetsFront(Raws(items) + Texts(offs, data))
    {
      var base := Word32(|values|);
      var front := if rowCount == 0 then offsets + [0] else offsets;
      values := values + data[offs[0]..offs[|offs| - 1]];
      CountedNone(front, Raws(items), offs, data);
      offsets := RebaseOffsets(front, base, offs, data, Raws(items));
      CountedAll(offsets, Raws(items), offs, data);
    }

    /** Null flags for the rows just appended. */
    method AppendValidityBulk(span: BitSpan)
      requires Valid() && span.Ok() && span.length <= rowCount
      requires forall i | rowCount - span.length <= i < rowCount :: !items[i].isNull
      modifies this, validity
      ensures Valid() && items == WithNulls(old(items), span)
    {
      var count := span.length;
      if count == 0 {
        return;
      }
      EnsureValidityInitialized();
      ghost var before := validity.bytes;
      validity.EnsureSize(rowCount);
      TellsGrown(before, validity.bytes, items);
      SetFlags(span);
    }

    method SetFlags(span: BitSpan)
      requires Valid() && validityInitialized && span.Ok() && span.length <= rowCount
      requires forall i | rowCount - span.length <= i < rowCount :: !items[i].isNull
      modifies this`nullCount, this`items, validity
      ensures Valid() && items == WithNulls(old(items), span)
    {
      var start := rowCount - span.length;
      FlagsStart(items, span);
      for i := 0 to span.length
        invariant Valid() && items == WithFlags(old(items), span, i)
      {
        NextFlag(old(items), span, i);
        SetFlag(start + i, span.Test(i));
      }
    }

    /** The null flag of one row that has none yet. */
    method SetFlag(row: nat, valid: bool)
      requires Valid() && validityInitialized && row < rowCount && !items[row].isNull
      modifies this`nullCount, this`items, validity
      ensures Valid() && items == old(items)[row := Item(old(items)[row].raw, !valid)]
    {
      ghost var x := Item(items[row].raw, !valid);
      TellsUpdate(validity.bytes, items, row, x);
      NullsUpdate(items, row, x);
      if valid {
        validity.SetValid(row);
      } else {
        validity.SetNull(row);
        nullCount := nullCount + 1;
      }
      assert Raws(items[row := x]) == Raws(items);
      items := items[row := x];
    }
  }

  /** The last rows with the first `n` flags of the span. */
  function WithFlags(items: seq<Item>, span: BitSpan, n: nat): (flagged: seq<Item>)
    requires span.Ok() && n <= span.length <= |items|
    ensures |flagged| == |items|
  {
    var start := |items| - span.length;
    seq(|items|, i requires 0 <= i < |items| =>
      if start <= i < start + n then Item(items[i].raw, !span.Test(i - start)) else items[i])
  }

  function WithNulls(items: seq<Item>, span: BitSpan): (flagged: seq<Item>)
    requires span.Ok() && span.length <= |items|
    ensures |flagged| == |items|
  {
    WithFlags(items, span, span.length)
  }

  lemma FlagsStart(items: seq<Item>, span: BitSpan)
    requires span.Ok() && span.length <= |items|
    ensures WithFlags(items, span, 0) == items
  {
  }

  lemma NextFlag(items: seq<Item>, span: BitSpan, n: nat)
    requires span.Ok() && n < span.length <= |items|
    ensures var row := |items| - span.length + n;
            && WithFlags(items, span, n)[row] == items[row]
            && WithFlags(items, span, n + 1) == WithFlags(items, span, n)[row := Item(items[row].raw, !span.Test(n))]
  {
  }
}
