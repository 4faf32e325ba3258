/** The column encodings: frame of reference, dictionary and packed booleans. */
module Encodings {
  import opened Orders
  import opened Samples
  import opened WireFormat
  import opened GeometryCodec
  import opened Slots
  import opened BitVectors

  const INT64_MIN: int := -0x8000_0000_0000_0000
  const INT64_MAX: int := 0x7FFF_FFFF_FFFF_FFFF

  // ---------------------------------------------------------------- widths

  /** Bytes per dictionary index. */
  function IndexBytesFor(size: nat): (n: nat)
    ensures n == 1 || n == 2 || n == 4
    ensures size <= TWO32 ==> size <= Pow256(n)
  {
    WordSizes();
    SmallPowers();
    if size <= 256 then 1 else if size <= 65536 then 2 else 4
  }

  /** Bytes per offset; 8 means that the column stays as it is. */
  function OffsetBytesFor(range: nat): (n: nat)
    ensures n == 1 || n == 2 || n == 4 || n == 8
    ensures n < 8 ==> range < Pow256(n)
    ensures n == 8 <==> range >= TWO32
  {
    WordSizes();
    SmallPowers();
    if range < 256 then 1 else if range < 65536 then 2 else if range < TWO32 then 4 else 8
  }

  lemma SmallPowers()
    ensures Pow256(1) == 256 && Pow256(2) == 65536
  {
    assert Pow256(0) == 1;
    assert Pow256(1) == 256 * Pow256(0);
  }

  /** The word stored at a row of a buffer of `size`-byte words. */
  function WordAt(buffer: Bytes, row: nat, size: nat): nat
    requires 0 <= row * size <= row * size + size <= |buffer|
  {
    Word(buffer[row * size..row * size + size])
  }

  function Words(values: seq<nat>, size: nat): (items: seq<Bytes>)
    ensures |items| == |values| && AllOfSize(items, size)
    ensures forall i | 0 <= i < |values| :: items[i] == FixedBytes(values[i], size)
  {
    seq(|values|, i requires 0 <= i < |values| => FixedBytes(values[i], size))
  }

  /** Words narrowed to `size` bytes read back if they fit. */
  lemma WordReadsBack(values: seq<nat>, size: nat, row: nat)
    requires row < |values| && values[row] < Pow256(size)
    ensures 0 <= row * size <= row * size + size <= |Concat(Words(values, size))|
    ensures WordAt(Concat(Words(values, size)), row, size) == values[row]
  {
    FixedSlice(Words(values, size), size, row);
    FixedRoundTrip(values[row], size);
  }

  /** Appends a word in the given width. */
  function Narrowed(buffer: Bytes, v: nat, size: nat): Bytes {
    buffer + FixedBytes(v, size)
  }

  lemma WordsMore(values: seq<nat>, v: nat, size: nat)
    ensures Concat(Words(values + [v], size)) == Narrowed(Concat(Words(values, size)), v, size)
  {
    assert Words(values + [v], size) == Words(values, size) + [FixedBytes(v, size)];
    ConcatMore(Words(values, size), FixedBytes(v, size));
  }

  // ---------------------------------------------------------------- frame of reference

  datatype FrameOfReference = FrameOfReference(reference: int, offsetBytes: nat, offsets: Bytes, count: nat)

  predicate InRange(values: seq<int>, low: int, high: int) {
    forall i | 0 <= i < |values| :: low <= values[i] <= high
  }

  /** Offsets as unsigned 64-bit differences: the subtraction may overflow a signed word, the result never does. */
  function OffsetsFrom(values: seq<int>, low: int): (offsets: seq<nat>)
    ensures |offsets| == |values| && forall i | 0 <= i < |values| :: offsets[i] == Unsigned(values[i] - low, TWO64)
  {
    seq(|values|, i requires 0 <= i < |values| => Unsigned(values[i] - low, TWO64))
  }

  method ForEncode(values: seq<int>, low: int, high: int) returns (enc: FrameOfReference)
    requires INT64_MIN <= low <= high <= INT64_MAX
    ensures enc == ForEncoded(values, low, high)
  {
    var size := OffsetBytesFor(Unsigned(high - low, TWO64));
    var offsets := [];
    for i := 0 to |values|
      invariant offsets == Concat(Words(OffsetsFrom(values[..i], low), StoredBytes(size)))
    {
      assert OffsetsFrom(values[..i + 1], low) == OffsetsFrom(values[..i], low) + [Unsigned(values[i] - low, TWO64)];
      WordsMore(OffsetsFrom(values[..i], low), Unsigned(values[i] - low, TWO64), StoredBytes(size));
      offsets := Narrowed(offsets, Unsigned(values[i] - low, TWO64), StoredBytes(size));
    }
    assert values[..|values|] == values;
    enc := FrameOfReference(low, size, offsets, |values|);
  }

  /** Every width but 1 and 2 is stored in four bytes. */
  function StoredBytes(size: nat): nat {
    if size == 1 then 1 else if size == 2 then 2 else 4
  }

  function ForEncoded(values: seq<int>, low: int, high: int): FrameOfReference {
    var size := OffsetBytesFor(Unsigned(high - low, TWO64));
    FrameOfReference(low, size, Concat(Words(OffsetsFrom(values, low), StoredBytes(size))), |values|)
  }

  predicate ForReadable(enc: FrameOfReference, row: nat) {
    var size := StoredBytes(enc.offsetBytes);
    0 <= row * size <= row * size + size <= |enc.offsets|
  }

  function ForDecode(enc: FrameOfReference, row: nat): int
    requires ForReadable(enc, row)
  {
    enc.reference + WordAt(enc.offsets, row, StoredBytes(enc.offsetBytes))
  }

  /** A narrowed column decodes exactly, over the whole 64-bit range of values. */
  lemma ForRoundTrip(values: seq<int>, low: int, high: int, row: nat)
    requires INT64_MIN <= low <= high <= INT64_MAX && InRange(values, low, high) && row < |values|
    requires OffsetBytesFor(Unsigned(high - low, TWO64)) < 8
    ensures ForReadable(ForEncoded(values, low, high), row)
    ensures ForDecode(ForEncoded(values, low, high), row) == values[row]
  {
    var size := OffsetBytesFor(Unsigned(high - low, TWO64));
    NoWrap(values[row], low, high);
    WordReadsBack(OffsetsFrom(values, low), StoredBytes(size), row);
  }

  lemma NoWrap(v: int, low: int, high: int)
    requires INT64_MIN <= low <= v <= high <= INT64_MAX
    ensures Unsigned(v - low, TWO64) == v - low <= high - low == Unsigned(high - low, TWO64)
  {
  }

  // ---------------------------------------------------------------- dictionary

  datatype Dictionary = Dictionary(words: seq<Bytes>, indices: Bytes, indexBytes: nat, count: nat)

  /** The words of a column, each where it first appears, with the index of every row. */
  function FirstSeen(texts: seq<Bytes>): (words: seq<Bytes>) {
    if texts == [] then []
    else
      var front, last := FirstSeen(texts[..|texts| - 1]), texts[|texts| - 1];
      if last in front then front else front + [last]
  }

  /** Each row's index points at its text. */
  predicate Points(texts: seq<Bytes>, words: seq<Bytes>, indices: seq<nat>) {
    |indices| == |texts| && forall i | 0 <= i < |texts| :: indices[i] < |words| && words[indices[i]] == texts[i]
  }

  /** The table of the words seen so far. */
  predicate TableOk(table: map<Bytes, nat>, words: seq<Bytes>) {
    && (forall w | w in table :: table[w] < |words| && words[table[w]] == w)
    && (forall k | 0 <= k < |words| :: words[k] in table)
  }

  method BuildDictionary(texts: seq<Bytes>) returns (words: seq<Bytes>, indices: seq<nat>)
    ensures words == FirstSeen(texts) && Distinct(words) && |words| <= |texts| && Points(texts, words, indices)
  {
    words, indices := [], [];
    var table: map<Bytes, nat> := map[];
    for row := 0 to |texts|
      invariant words == FirstSeen(texts[..row])
      invariant Points(texts[..row], words, indices) && TableOk(table, words)
    {
      var key := texts[row];
      FirstSeenMore(texts, row);
      if key in table {
        PointsMore(texts, row, words, indices, words, table[key]);
        indices := indices + [table[key]];
      } else {
        TableMore(table, words, key);
        PointsMore(texts, row, words, indices, words + [key], |words|);
        indices := indices + [|words|];
        table := table[key := |words|];
        words := words + [key];
      }
    }
    assert texts[..|texts|] == texts;
    FirstSeenDistinct(texts);
  }

  lemma {:induction false} FirstSeenDistinct(texts: seq<Bytes>)
    ensures Distinct(FirstSeen(texts)) && |FirstSeen(texts)| <= |texts|
  {
    if texts != [] {
      FirstSeenDistinct(texts[..|texts| - 1]);
    }
  }

  lemma FirstSeenMore(texts: seq<Bytes>, row: nat)
    requires row < |texts|
    ensures var words := FirstSeen(texts[..row]);
            FirstSeen(texts[..row + 1]) == if texts[row] in words then words else words + [texts[row]]
  {
    assert texts[..row + 1][..row] == texts[..row];
  }

  lemma PointsMore(texts: seq<Bytes>, row: nat, words: seq<Bytes>, indices: seq<nat>, words': seq<Bytes>, index: nat)
    requires row < |texts| && Points(texts[..row], words, indices) && words <= words'
    requires index < |words'| && words'[index] == texts[row]
    ensures Points(texts[..row + 1], words', indices + [index])
  {
  }

  lemma TableMore(table: map<Bytes, nat>, words: seq<Bytes>, key: Bytes)
    requires TableOk(table, words) && key !in table
    ensures TableOk(table[key := |words|], words + [key]) && key !in words
  {
    assert forall k | 0 <= k < |words| :: words[k] in table;
  }

  method DictionaryEncode(texts: seq<Bytes>) returns (enc: Dictionary)
    requires |texts| < TWO32
    ensures enc.words == FirstSeen(texts) && enc.count == |texts| && Distinct(enc.words)
    ensures forall w :: w in enc.words <==> w in texts
    ensures forall row | 0 <= row < |texts| :: DictionaryReadable(enc, row) && DictionaryLookup(enc, row) == texts[row]
  {
    if |texts| == 0 {
      return Dictionary([], [], 1, 0);
    }
    var words, indices := BuildDictionary(texts);
    var size := IndexBytesFor(|words|);
    var buffer := [];
    for i := 0 to |indices|
      invariant buffer == Concat(Words(indices[..i], size))
    {
      assert indices[..i + 1] == indices[..i] + [indices[i]];
      WordsMore(indices[..i], indices[i], size);
      buffer := Narrowed(buffer, indices[i], size);
    }
    assert indices[..|indices|] == indices;
    enc := Dictionary(words, buffer, size, |texts|);
    forall w ensures w in enc.words <==> w in texts {
      FirstSeenIsAll(texts, w);
    }
    forall row | 0 <= row < |texts| ensures DictionaryReadable(enc, row) && DictionaryLookup(enc, row) == texts[row] {
      WordReadsBack(indices, size, row);
    }
  }

  predicate DictionaryReadable(enc: Dictionary, row: nat) {
    0 <= row * enc.indexBytes <= row * enc.indexBytes + enc.indexBytes <= |enc.indices|
  }

  function DictionaryLookup(enc: Dictionary, row: nat): Bytes
    requires DictionaryReadable(enc, row)
  {
    var index := WordAt(enc.indices, row, enc.indexBytes);
    if index >= |enc.words| then [] else enc.words[index]
  }

  /** The dictionary is the set of the column's texts. */
  lemma {:induction false} FirstSeenIsAll(texts: seq<Bytes>, w: Bytes)
    ensures w in FirstSeen(texts) <==> w in texts
  {
    if texts != [] {
      FirstSeenIsAll(texts[..|texts| - 1], w);
      FirstSeenIsAll(texts[..|texts| - 1], texts[|texts| - 1]);
      FrontAndLast(texts);
      assert w in texts <==> w in texts[..|texts| - 1] || w == texts[|texts| - 1];
    }
  }

  // ---------------------------------------------------------------- packed booleans

  datatype PackedBools = PackedBools(bits: seq<Byte8>, count: nat)

  method PackBools(values: seq<Byte>) returns (enc: PackedBools)
    ensures enc.count == |values| && |enc.bits| == BytesForBits(|values|)
    ensures forall i | 0 <= i < |values| :: UnpackBool(enc, i) == (values[i] != 0)
  {
    if |values| == 0 {
      return PackedBools([], 0);
    }
    var bits := new Byte8[BytesForBits(|values|)](i => ZERO);
    for i := 0 to |values|
      invariant PackedUpTo(bits[..], values, i)
    {
      ghost var was := bits[..];
      if values[i] != 0 {
        bits[i / 8] := bits[i / 8][i % 8 := true];
        assert bits[..] == WithBit(was, i);
      }
      PackedOneMore(was, values, i);
    }
    enc := PackedBools(bits[..], |values|);
  }

  /** The first `n` values have their bits, and no other bit is set. */
  predicate PackedUpTo(bits: seq<Byte8>, values: seq<Byte>, n: nat)
    requires n <= |values|
  {
    && |bits| == BytesForBits(|values|)
    && forall j | 0 <= j < 8 * |bits| :: BitAt(bits, j) == (j < n && values[j] != 0)
  }

  lemma PackedOneMore(bits: seq<Byte8>, values: seq<Byte>, n: nat)
    requires n < |values| && PackedUpTo(bits, values, n)
    ensures PackedUpTo(if values[n] != 0 then WithBit(bits, n) else bits, values, n + 1)
  {
  }

  predicate UnpackBool(enc: PackedBools, i: nat)
    requires i < 8 * |enc.bits|
  {
    BitAt(enc.bits, i)
  }
}
