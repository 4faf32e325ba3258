/** Sealing a column: which encoding it gets, and what is read back from it. */
module SealedColumns {
  import opened Samples
  import opened WireFormat
  import opened GeometryCodec
  import opened Slots
  import opened BitVectors
  import opened ColumnBuffers
  import opened ColumnStats
  import opened Encodings

  datatype Encoded =
    | RawValues(buffer: Bytes)
    | Constant(value: Bytes, count: nat)
    | Frame(frame: FrameOfReference)
    | Dict(dict: Dictionary)
    | Packed(packed: PackedBools)

  datatype Bitmap = Bitmap(bytes: seq<Byte8>, bits: nat)

  /** A column of a sealed chunk; the bitmap is there only if some row is null. */
  datatype SealedColumn = SealedColumn(kind: Kind, data: Encoded, bitmap: Option<Bitmap>)

  // ---------------------------------------------------------------- what a value means

  /** A value as its reader returns it: an integer, the bits of a float, a truth value or a text. */
  datatype Reading = Whole(n: int) | Bits(raw: Bytes) | Truth(b: bool) | Chars(text: Bytes)

  function Meaning(kind: Kind, raw: Bytes): Reading {
    match kind
    case Int32 => Whole(Signed(Word(raw), TWO32))
    case Int64 => Whole(Signed(Word(raw), TWO64))
    case Uint64 => Whole(Word(raw))
    case Bool => Truth(Word(raw) != 0)
    case String => Chars(raw)
    case _ => Bits(raw)
  }

  /** The integer in a slot of an integer column. */
  function IntAt(kind: Kind, raw: Bytes): int
    requires kind == Int32 || kind == Int64
  {
    if kind == Int32 then Signed(Word(raw), TWO32) else Signed(Word(raw), TWO64)
  }

  // ---------------------------------------------------------------- readers

  predicate Readable(col: SealedColumn, row: nat) {
    match col.data
    case RawValues(buffer) => col.kind != String
        && 0 <= row * SizeOf(col.kind) <= row * SizeOf(col.kind) + SizeOf(col.kind) <= |buffer|
    case Constant(value, count) => col.kind != String && row < count
    case Frame(frame) => (col.kind == Int32 || col.kind == Int64) && ForReadable(frame, row)
    case Dict(dict) => col.kind == String && DictionaryReadable(dict, row)
    case Packed(packed) => col.kind == Bool && row < 8 * |packed.bits|
  }

  function ReadValue(col: SealedColumn, row: nat): Reading
    requires Readable(col, row)
  {
    match col.data
    case RawValues(buffer) => Meaning(col.kind,
        buffer[row * SizeOf(col.kind)..row * SizeOf(col.kind) + SizeOf(col.kind)])
    case Constant(value, _) => Meaning(col.kind, value)
    case Frame(frame) => Whole(ForDecode(frame, row))
    case Dict(dict) => Chars(DictionaryLookup(dict, row))
    case Packed(packed) => Truth(UnpackBool(packed, row))
  }

  predicate IsNullAt(col: SealedColumn, row: nat)
    requires col.bitmap.Some? && col.bitmap.value.bits > 0 ==> row < 8 * |col.bitmap.value.bytes|
  {
    col.bitmap.Some? && col.bitmap.value.bits > 0 && !BitAt(col.bitmap.value.bytes, row)
  }

  // ---------------------------------------------------------------- what sealing keeps

  /** What every row reads as. */
  function Shown(kind: Kind, items: seq<Item>, constant: bool, row: nat): Reading
    requires row < |items|
  {
    Meaning(kind, items[if Measured(kind) && constant then 0 else row].raw)
  }

  /** The data of a column reads as it should, row by row. */
  ghost predicate ShowsValues(kind: Kind, data: Encoded, items: seq<Item>, constant: bool) {
    forall row | 0 <= row < |items| :: ShowsValue(kind, data, items, constant, row)
  }

  ghost predicate ShowsValue(kind: Kind, data: Encoded, items: seq<Item>, constant: bool, row: nat)
    requires row < |items|
  {
    var col := SealedColumn(kind, data, None);
    Readable(col, row) && ReadValue(col, row) == Shown(kind, items, constant, row)
  }

  /** Every null flag is as it was. */
  ghost predicate ShowsNulls(bitmap: Option<Bitmap>, items: seq<Item>) {
    forall row | 0 <= row < |items| :: ShowsNull(bitmap, items, row)
  }

  ghost predicate ShowsNull(bitmap: Option<Bitmap>, items: seq<Item>, row: nat)
    requires row < |items|
  {
    var col := SealedColumn(Bool, RawValues([]), bitmap);
    && (bitmap.Some? && bitmap.value.bits > 0 ==> row < 8 * |bitmap.value.bytes|)
    && IsNullAt(col, row) == items[row].isNull
  }

  ghost predicate Shows(col: SealedColumn, kind: Kind, items: seq<Item>, constant: bool) {
    col.kind == kind && ShowsValues(kind, col.data, items, constant) && ShowsNulls(col.bitmap, items)
  }

  // ---------------------------------------------------------------- the encodings, kind by kind

  /** All slots as they are. */
  lemma RawShows(kind: Kind, items: seq<Item>, row: nat)
    requires kind != String && AllOfSize(Raws(items), SizeOf(kind)) && row < |items|
    ensures var col := SealedColumn(kind, RawValues(Concat(Raws(items))), None);
            Readable(col, row) && ReadValue(col, row) == Meaning(kind, items[row].raw)
  {
    FixedSlice(Raws(items), SizeOf(kind), row);
  }

  /** The first slot of a column. */
  method FirstSlot(kind: Kind, values: Bytes, ghost items: seq<Item>) returns (raw: Bytes)
    requires kind != String && items != [] && AllOfSize(Raws(items), SizeOf(kind)) && values == Concat(Raws(items))
    ensures raw == items[0].raw
  {
    FixedSlice(Raws(items), SizeOf(kind), 0);
    raw := values[..SizeOf(kind)];
    assert raw == values[0 * SizeOf(kind)..0 * SizeOf(kind) + SizeOf(kind)];
  }

  /** Bytes of booleans, one each. */
  lemma BoolBytes(items: seq<Item>, i: nat)
    requires AllOfSize(Raws(items), 1) && i < |items|
    ensures i < |Concat(Raws(items))| && (Concat(Raws(items))[i] != 0) == (Word(items[i].raw) != 0)
  {
    FixedSlice(Raws(items), 1, i);
    assert items[i].raw == Concat(Raws(items))[i..i + 1];
    assert items[i].raw[1..] == [];
  }

  /** The integers of a column. */
  function Ints(kind: Kind, items: seq<Item>): (ints: seq<int>)
    requires kind == Int32 || kind == Int64
    ensures |ints| == |items| && forall i | 0 <= i < |items| :: ints[i] == IntAt(kind, items[i].raw)
  {
    seq(|items|, i requires 0 <= i < |items| => IntAt(kind, items[i].raw))
  }

  /** Exact bounds of the slots, measured on integers: a double would round them. */
  method Measure(ints: seq<int>) returns (low: int, high: int, same: bool)
    requires forall i | 0 <= i < |ints| :: INT64_MIN <= ints[i] <= INT64_MAX
    ensures ints != [] ==>
              INT64_MIN <= low <= high <= INT64_MAX && InRange(ints, low, high) && low in ints && high in ints
    ensures same <==> forall i | 0 <= i < |ints| :: ints[i] == ints[0]
  {
    low, high, same := INT64_MAX, INT64_MIN, true;
    for r := 0 to |ints|
      invariant r > 0 ==> INT64_MIN <= low <= high <= INT64_MAX && low in ints && high in ints
      invariant r == 0 ==> low == INT64_MAX && high == INT64_MIN
      invariant forall i | 0 <= i < r :: low <= ints[i] <= high
      invariant same <==> forall i | 0 <= i < r :: ints[i] == ints[0]
    {
      if r > 0 && ints[r] != ints[0] {
        same := false;
      }
      low := if ints[r] < low then ints[r] else low;
      high := if ints[r] > high then ints[r] else high;
    }
  }

  method ReadInts(kind: Kind, values: Bytes, count: nat, ghost items: seq<Item>) returns (ints: seq<int>)
    requires kind == Int32 || kind == Int64
    requires count == |items| && AllOfSize(Raws(items), SizeOf(kind)) && values == Concat(Raws(items))
    ensures ints == Ints(kind, items)
  {
    ints := [];
    for r := 0 to count
      invariant ints == Ints(kind, items)[..r]
    {
      FixedSlice(Raws(items), SizeOf(kind), r);
      ints := ints + [IntAt(kind, values[r * SizeOf(kind)..r * SizeOf(kind) + SizeOf(kind)])];
    }
  }

  /** Integers: one value, narrowed offsets from the smallest, or as they are. */
  method SealInts(kind: Kind, values: Bytes, count: nat, ghost items: seq<Item>) returns (data: Encoded)
    requires kind == Int32 || kind == Int64
    requires count == |items| && AllOfSize(Raws(items), SizeOf(kind)) && values == Concat(Raws(items))
    ensures ShowsValues(kind, data, items, false)
  {
    if count == 0 {
      return RawValues(values);
    }
    var ints := ReadInts(kind, values, count, items);
    var low, high, same := Measure(ints);
    if same {
      var first := FirstSlot(kind, values, items);
      ConstantInts(kind, items);
      return Constant(first, count);
    }
    var size := OffsetBytesFor(Unsigned(high - low, TWO64));
    if size < SizeOf(kind) {
      var frame := ForEncode(ints, low, high);
      FrameShows(kind, items, low, high);
      return Frame(frame);
    }
    RawValuesShow(kind, items, false);
    return RawValues(values);
  }

  lemma ConstantInts(kind: Kind, items: seq<Item>)
    requires (kind == Int32 || kind == Int64) && items != []
    requires forall i | 0 <= i < |items| :: Ints(kind, items)[i] == Ints(kind, items)[0]
    ensures ShowsValues(kind, Constant(items[0].raw, |items|), items, false)
  {
    forall row | 0 <= row < |items| ensures ShowsValue(kind, Constant(items[0].raw, |items|), items, false, row) {
      assert Ints(kind, items)[row] == Ints(kind, items)[0];
    }
  }

  lemma FrameShows(kind: Kind, items: seq<Item>, low: int, high: int)
    requires (kind == Int32 || kind == Int64) && INT64_MIN <= low <= high <= INT64_MAX
    requires InRange(Ints(kind, items), low, high) && OffsetBytesFor(Unsigned(high - low, TWO64)) < 8
    ensures ShowsValues(kind, Frame(ForEncoded(Ints(kind, items), low, high)), items, false)
  {
    var frame := ForEncoded(Ints(kind, items), low, high);
    forall row | 0 <= row < |items| ensures ShowsValue(kind, Frame(frame), items, false, row) {
      ForRoundTrip(Ints(kind, items), low, high, row);
    }
  }

  lemma RawValuesShow(kind: Kind, items: seq<Item>, constant: bool)
    requires kind != String && AllOfSize(Raws(items), SizeOf(kind)) && (Measured(kind) ==> !constant)
    ensures ShowsValues(kind, RawValues(Concat(Raws(items))), items, constant)
  {
    forall row | 0 <= row < |items| ensures ShowsValue(kind, RawValues(Concat(Raws(items))), items, constant, row) {
      RawShows(kind, items, row);
    }
  }

  /** Floats, unsigned integers and booleans: the first slot alone if the statistics call the column constant. */
  method SealMeasured(kind: Kind, values: Bytes, count: nat, constant: bool, ghost items: seq<Item>)
      returns (data: Encoded)
    requires Measured(kind)
    requires count == |items| && AllOfSize(Raws(items), SizeOf(kind)) && values == Concat(Raws(items))
    ensures ShowsValues(kind, data, items, constant)
  {
    if constant && count > 0 {
      var first := FirstSlot(kind, values, items);
      return Constant(first, count);
    }
    if kind == Bool {
      FixedLength(Raws(items), 1);
      var packed := PackBools(values[..count]);
      PackedShows(items, packed, constant);
      return Packed(packed);
    }
    if count > 0 {
      RawValuesShow(kind, items, constant);
    }
    return RawValues(values);
  }

  lemma PackedShows(items: seq<Item>, packed: PackedBools, constant: bool)
    requires AllOfSize(Raws(items), 1) && |Concat(Raws(items))| == |items| && (constant ==> items == [])
    requires |packed.bits| == BytesForBits(|items|)
    requires forall i | 0 <= i < |items| :: UnpackBool(packed, i) == (Concat(Raws(items))[i] != 0)
    ensures ShowsValues(Bool, Packed(packed), items, constant)
  {
    forall row | 0 <= row < |items| ensures ShowsValue(Bool, Packed(packed), items, constant, row) {
      BoolBytes(items, row);
    }
  }

  /** Strings: always a dictionary. */
  method SealStrings(buffer: TypedColumnBuffer) returns (data: Encoded)
    requires buffer.Valid() && buffer.kind == String && |buffer.values| < TWO32 && buffer.rowCount < TWO32
    ensures ShowsValues(String, data, buffer.items, false)
  {
    var texts := [];
    for row := 0 to buffer.rowCount
      invariant texts == Raws(buffer.items)[..row]
    {
      texts := texts + [buffer.ReadString(row)];
    }
    var dict := DictionaryEncode(texts);
    data := Dict(dict);
    forall row | 0 <= row < |buffer.items| ensures ShowsValue(String, data, buffer.items, false, row) {
      assert texts[row] == buffer.items[row].raw;
    }
  }

  /** The bitmap goes along only if some row is null. */
  method SealBitmap(buffer: TypedColumnBuffer) returns (bitmap: Option<Bitmap>)
    requires buffer.Valid()
    ensures ShowsNulls(bitmap, buffer.items)
  {
    NoNulls(buffer.items);
    TellsMeaning(buffer.validity.bytes, buffer.items);
    if buffer.HasNulls() {
      assert buffer.items != [];
      bitmap := Some(Bitmap(buffer.validity.bytes, buffer.validity.bitCount));
    } else {
      bitmap := None;
    }
  }

  lemma UnmeasuredShows(kind: Kind, data: Encoded, items: seq<Item>, constant: bool)
    requires ShowsValues(kind, data, items, if Measured(kind) then constant else false)
    ensures ShowsValues(kind, data, items, constant)
  {
    forall row | 0 <= row < |items| ensures ShowsValue(kind, data, items, constant, row) {
      assert ShowsValue(kind, data, items, if Measured(kind) then constant else false, row);
    }
  }

  method SealColumn(buffer: TypedColumnBuffer, constant: bool) returns (col: SealedColumn)
    requires buffer.Valid() && |buffer.values| < TWO32 && buffer.rowCount < TWO32
    ensures Shows(col, buffer.kind, buffer.items, constant)
  {
    var data;
    if buffer.kind == String {
      data := SealStrings(buffer);
    } else if buffer.kind == Int32 || buffer.kind == Int64 {
      data := SealInts(buffer.kind, buffer.values, buffer.rowCount, buffer.items);
    } else {
      data := SealMeasured(buffer.kind, buffer.values, buffer.rowCount, constant, buffer.items);
    }
    UnmeasuredShows(buffer.kind, data, buffer.items, constant);
    var bitmap := SealBitmap(buffer);
    col := SealedColumn(buffer.kind, data, bitmap);
  }
}
