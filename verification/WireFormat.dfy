/** The protobuf wire format: what the writer appends and what the reader makes of any byte string. */
module WireFormat {
  import opened Samples

  type Byte = b: int | 0 <= b < 256

  type Bytes = seq<Byte>

  const VARINT: nat := 0
  const FIXED64: nat := 1
  const LENGTH_DELIMITED: nat := 2
  const FIXED32: nat := 5

  const TWO32: nat := 0x1_0000_0000
  const TWO64: nat := 0x1_0000_0000_0000_0000

  datatype Tag = Tag(field: nat, wire: nat)

  /** One read: whether it succeeded, what it got, and where the reader stands afterwards, even if it failed. */
  datatype Read<+T> = Read(ok: bool, value: T, rest: Bytes)

  // ---------------------------------------------------------------- base 128 varints

  function Varint(v: nat): Bytes {
    if v < 128 then [v] else [v % 128 + 128] + Varint(v / 128)
  }

  /** A varint whose first byte is the `i`-th of at most ten; the tenth may only be 0 or 1. */
  function ReadVarintAt(s: Bytes, i: nat): (r: Read<nat>)
    requires i <= 10
    ensures |r.rest| <= |s| && (r.ok ==> |r.rest| < |s|)
    decreases 10 - i
  {
    if s == [] || i == 10 then Read(false, 0, s)
    else
      var payload: nat := s[0] % 128;
      if i == 9 && payload > 1 then Read(false, 0, s[1..])
      else if s[0] < 128 then Read(true, payload, s[1..])
      else
        var r := ReadVarintAt(s[1..], i + 1);
        r.(value := payload + 128 * r.value)
  }

  function ReadVarint(s: Bytes): (r: Read<nat>)
    ensures |r.rest| <= |s| && (r.ok ==> |r.rest| < |s|)
  {
    ReadVarintAt(s, 0)
  }

  /** Values whose varint still fits when `i` bytes are used up. */
  function Limit(i: nat): (limit: nat)
    requires i <= 9
    ensures limit >= 2
    decreases 9 - i
  {
    if i == 9 then 2 else 128 * Limit(i + 1)
  }

  lemma {:induction false} VarintRoundTripAt(v: nat, i: nat, suffix: Bytes)
    requires i <= 9 && v < Limit(i)
    ensures ReadVarintAt(Varint(v) + suffix, i) == Read(true, v, suffix)
    decreases 9 - i
  {
    if v < 128 {
      assert ([v] + suffix)[1..] == suffix;
    } else {
      var low, high := SplitLow(v, i);
      VarintRoundTripAt(high, i + 1, suffix);
      ContinuationByte(low, high, Varint(high) + suffix, i, suffix);
      Assoc([low + 128], Varint(high), suffix);
    }
  }

  /** A byte with the continuation bit contributes its low bits and passes on. */
  lemma ContinuationByte(low: nat, high: nat, s: Bytes, i: nat, suffix: Bytes)
    requires low < 128 && i < 9 && ReadVarintAt(s, i + 1) == Read(true, high, suffix)
    ensures ReadVarintAt([low + 128] + s, i) == Read(true, low + 128 * high, suffix)
  {
    var all: Bytes := [low + 128] + s;
    assert all[1..] == s && all[0] % 128 == low;
  }

  /** The low seven bits and the rest of a value that needs more than one byte. */
  lemma SplitLow(v: nat, i: nat) returns (low: nat, high: nat)
    requires i <= 9 && 128 <= v < Limit(i)
    ensures v == low + 128 * high && low < 128 && high < v
    ensures i < 9 && high < Limit(i + 1)
    ensures Varint(v) == [low + 128] + Varint(high)
  {
    low, high := v % 128, v / 128;
  }

  lemma {:induction false} VarintLength(v: nat, i: nat)
    requires i <= 9 && v < Limit(i)
    ensures 1 <= |Varint(v)| <= 10 - i
    decreases 9 - i
  {
    if v >= 128 {
      var low, high := SplitLow(v, i);
      VarintLength(high, i + 1);
    }
  }

  /** Every 64-bit value reads back exactly, in at most ten bytes, and leaves what follows. */
  lemma VarintRoundTrip(v: nat, suffix: Bytes)
    requires v < TWO64
    ensures ReadVarint(Varint(v) + suffix) == Read(true, v, suffix)
    ensures 1 <= |Varint(v)| <= 10
  {
    LimitIs64Bits();
    VarintRoundTripAt(v, 0, suffix);
    VarintLength(v, 0);
  }

  lemma LimitIs64Bits()
    ensures Limit(0) == TWO64
  {
    assert Limit(9) == 2;
    assert Limit(8) == 128 * Limit(9);
    assert Limit(7) == 128 * Limit(8);
    assert Limit(6) == 128 * Limit(7);
    assert Limit(5) == 128 * Limit(6);
    assert Limit(4) == 128 * Limit(5);
    assert Limit(3) == 128 * Limit(4);
    assert Limit(2) == 128 * Limit(3);
    assert Limit(1) == 128 * Limit(2);
    assert Limit(0) == 128 * Limit(1);
  }

  /** A successful read stays below 2^64: no bit is lost in the accumulator. */
  lemma {:induction false} VarintBoundedAt(s: Bytes, i: nat)
    requires i <= 9
    ensures ReadVarintAt(s, i).ok ==> ReadVarintAt(s, i).value < Limit(i)
    decreases 9 - i
  {
    if s != [] && i < 9 {
      assert Limit(i) == 128 * Limit(i + 1);
      if s[0] >= 128 {
        VarintBoundedAt(s[1..], i + 1);
      }
    }
  }

  /** What a varint can be, whatever the bytes: it fits 64 bits. */
  lemma VarintBounded(s: Bytes)
    ensures ReadVarint(s).ok ==> ReadVarint(s).value < TWO64
  {
    VarintBoundedAt(s, 0);
    LimitIs64Bits();
  }

  /** What is read does not depend on what follows. */
  lemma {:induction false} VarintLocalAt(s: Bytes, i: nat, suffix: Bytes)
    requires i <= 10 && ReadVarintAt(s, i).ok
    ensures ReadVarintAt(s + suffix, i) == ReadVarintAt(s, i).(rest := ReadVarintAt(s, i).rest + suffix)
    decreases 10 - i
  {
    var longer := s + suffix;
    assert longer[0] == s[0] && longer[1..] == s[1..] + suffix;
    if s[0] >= 128 {
      VarintLocalAt(s[1..], i + 1, suffix);
    }
  }

  // ---------------------------------------------------------------- little-endian words

  function FixedBytes(v: nat, size: nat): (s: Bytes)
    ensures |s| == size
  {
    if size == 0 then [] else [v % 256] + FixedBytes(v / 256, size - 1)
  }

  function Word(s: Bytes): nat {
    if s == [] then 0 else s[0] + 256 * Word(s[1..])
  }

  function Pow256(n: nat): nat {
    if n == 0 then 1 else 256 * Pow256(n - 1)
  }

  lemma {:induction false} FixedRoundTrip(v: nat, size: nat)
    requires v < Pow256(size)
    ensures Word(FixedBytes(v, size)) == v
  {
    if size > 0 {
      FixedRoundTrip(v / 256, size - 1);
      assert FixedBytes(v, size)[1..] == FixedBytes(v / 256, size - 1);
    }
  }

  lemma WordSizes()
    ensures Pow256(4) == TWO32 && Pow256(8) == TWO64
  {
    assert Pow256(1) == 256 * Pow256(0);
    assert Pow256(2) == 256 * Pow256(1);
    assert Pow256(3) == 256 * Pow256(2);
    assert Pow256(4) == 256 * Pow256(3);
    assert Pow256(5) == 256 * Pow256(4);
    assert Pow256(6) == 256 * Pow256(5);
    assert Pow256(7) == 256 * Pow256(6);
  }

  lemma {:induction false} WordBound(s: Bytes)
    ensures Word(s) < Pow256(|s|)
  {
    if s != [] {
      WordBound(s[1..]);
    }
  }

  function ReadFixed(s: Bytes, size: nat): (r: Read<nat>)
    ensures |r.rest| <= |s|
  {
    if |s| < size then Read(false, 0, s) else Read(true, Word(s[..size]), s[size..])
  }

  lemma FixedReadsBack(v: nat, size: nat, suffix: Bytes)
    requires v < Pow256(size)
    ensures ReadFixed(FixedBytes(v, size) + suffix, size) == Read(true, v, suffix)
  {
    FixedRoundTrip(v, size);
    var s := FixedBytes(v, size) + suffix;
    assert s[..size] == FixedBytes(v, size) && s[size..] == suffix;
  }

  // ---------------------------------------------------------------- tags, payloads, skipping

  function TagBytes(field: nat, wire: nat): Bytes {
    Varint(field * 8 + wire)
  }

  /** A tag; zero, and field numbers that vanish in 32 bits, are refused. */
  function ReadTag(s: Bytes): (r: Read<Tag>)
    ensures |r.rest| <= |s| && (r.ok ==> |r.rest| < |s|)
  {
    var raw := ReadVarint(s);
    if !raw.ok || raw.value == 0 then Read(false, Tag(0, 0), raw.rest)
    else
      var tag := Tag(raw.value / 8 % TWO32, raw.value % 8);
      Read(tag.field != 0, tag, raw.rest)
  }

  lemma TagParts(field: nat, wire: nat)
    requires wire < 8
    ensures (field * 8 + wire) / 8 == field && (field * 8 + wire) % 8 == wire
  {
  }

  lemma TagOf(s: Bytes, field: nat, wire: nat, suffix: Bytes)
    requires 0 < field < TWO32 && wire < 8 && ReadVarint(s) == Read(true, field * 8 + wire, suffix)
    ensures ReadTag(s) == Read(true, Tag(field, wire), suffix)
  {
    TagParts(field, wire);
    assert field % TWO32 == field;
  }

  lemma TagRoundTrip(field: nat, wire: nat, suffix: Bytes)
    requires 0 < field < TWO32 && wire < 8
    ensures ReadTag(TagBytes(field, wire) + suffix) == Read(true, Tag(field, wire), suffix)
  {
    VarintRoundTrip(field * 8 + wire, suffix);
    TagOf(TagBytes(field, wire) + suffix, field, wire, suffix);
  }

  function LengthDelimited(body: Bytes): Bytes {
    Varint(|body|) + body
  }

  function ReadBytes(s: Bytes): (r: Read<Bytes>)
    ensures |r.rest| <= |s|
  {
    var len := ReadVarint(s);
    if !len.ok || len.value > |len.rest| then Read(false, [], len.rest)
    else Read(true, len.rest[..len.value], len.rest[len.value..])
  }

  lemma BytesRoundTrip(body: Bytes, suffix: Bytes)
    requires |body| < TWO64
    ensures ReadBytes(LengthDelimited(body) + suffix) == Read(true, body, suffix)
  {
    VarintRoundTrip(|body|, body + suffix);
    assert LengthDelimited(body) + suffix == Varint(|body|) + (body + suffix);
    assert (body + suffix)[..|body|] == body && (body + suffix)[|body|..] == suffix;
  }

  /** Skipping a field of the given wire type; unknown wire types cannot be skipped. */
  function Skip(wire: nat, s: Bytes): (r: Read<()>)
    ensures |r.rest| <= |s|
  {
    if wire == VARINT then var r := ReadVarint(s); Read(r.ok, (), r.rest)
    else if wire == FIXED64 then var r := ReadFixed(s, 8); Read(r.ok, (), r.rest)
    else if wire == LENGTH_DELIMITED then var r := ReadBytes(s); Read(r.ok, (), r.rest)
    else if wire == FIXED32 then var r := ReadFixed(s, 4); Read(r.ok, (), r.rest)
    else Read(false, (), s)
  }

  lemma BytesLocal(s: Bytes, suffix: Bytes)
    requires ReadBytes(s).ok
    ensures ReadBytes(s + suffix) == ReadBytes(s).(rest := ReadBytes(s).rest + suffix)
  {
    VarintLocalAt(s, 0, suffix);
    var len := ReadVarint(s);
    assert (len.rest + suffix)[..len.value] == len.rest[..len.value];
    assert (len.rest + suffix)[len.value..] == len.rest[len.value..] + suffix;
  }

  lemma FixedLocal(s: Bytes, size: nat, suffix: Bytes)
    requires ReadFixed(s, size).ok
    ensures ReadFixed(s + suffix, size) == ReadFixed(s, size).(rest := ReadFixed(s, size).rest + suffix)
  {
    assert (s + suffix)[..size] == s[..size] && (s + suffix)[size..] == s[size..] + suffix;
  }

  lemma SkipLocal(wire: nat, s: Bytes, suffix: Bytes)
    requires Skip(wire, s).ok
    ensures Skip(wire, s + suffix) == Skip(wire, s).(rest := Skip(wire, s).rest + suffix)
  {
    if wire == VARINT {
      VarintLocalAt(s, 0, suffix);
    } else if wire == FIXED64 {
      FixedLocal(s, 8, suffix);
    } else if wire == LENGTH_DELIMITED {
      BytesLocal(s, suffix);
    } else {
      FixedLocal(s, 4, suffix);
    }
  }

  lemma TagLocal(s: Bytes, suffix: Bytes)
    requires ReadTag(s).ok
    ensures ReadTag(s + suffix) == ReadTag(s).(rest := ReadTag(s).rest + suffix)
  {
    VarintLocalAt(s, 0, suffix);
  }

  // ---------------------------------------------------------------- packed fixed32

  function PackedBody(values: seq<nat>): Bytes {
    if values == [] then [] else PackedBody(values[..|values| - 1]) + FixedBytes(values[|values| - 1], 4)
  }

  function Unpack(s: Bytes): (values: seq<nat>)
    requires |s| % 4 == 0
  {
    if s == [] then [] else [Word(s[..4])] + Unpack(s[4..])
  }

  /** A packed list: its length must be a multiple of four. */
  function ReadPacked(s: Bytes): (r: Read<seq<nat>>) {
    var body := ReadBytes(s);
    if !body.ok || |body.value| % 4 != 0 then Read(false, [], body.rest) else Read(true, Unpack(body.value), body.rest)
  }

  lemma {:induction false} UnpackConcat(a: Bytes, b: Bytes)
    requires |a| % 4 == 0 && |b| % 4 == 0
    ensures |a + b| % 4 == 0 && Unpack(a + b) == Unpack(a) + Unpack(b)
  {
    if a == [] {
      assert a + b == b;
    } else {
      UnpackConcat(a[4..], b);
      assert (a + b)[..4] == a[..4] && (a + b)[4..] == a[4..] + b;
    }
  }

  lemma {:induction false} UnpackBody(values: seq<nat>)
    requires forall i | 0 <= i < |values| :: values[i] < TWO32
    ensures |PackedBody(values)| == 4 * |values| && |PackedBody(values)| % 4 == 0
              && Unpack(PackedBody(values)) == values
  {
    if values != [] {
      var front, last := values[..|values| - 1], values[|values| - 1];
      UnpackBody(front);
      WordSizes();
      FixedRoundTrip(last, 4);
      UnpackConcat(PackedBody(front), FixedBytes(last, 4));
      UnpackOne(last);
    }
  }

  lemma UnpackOne(value: nat)
    requires value < TWO32
    ensures Unpack(FixedBytes(value, 4)) == [value]
  {
    WordSizes();
    FixedRoundTrip(value, 4);
    UnpackWord(FixedBytes(value, 4));
  }

  lemma UnpackWord(s: Bytes)
    requires |s| == 4
    ensures Unpack(s) == [Word(s)]
  {
    assert s[..4] == s && s[4..] == [];
  }

  /** Packed 32-bit lists read back exactly and leave what follows. */
  lemma PackedRoundTrip(values: seq<nat>, suffix: Bytes)
    requires (forall i | 0 <= i < |values| :: values[i] < TWO32) && 4 * |values| < TWO64
    ensures ReadPacked(LengthDelimited(PackedBody(values)) + suffix) == Read(true, values, suffix)
  {
    UnpackBody(values);
    var body := PackedBody(values);
    BytesRoundTrip(body, suffix);
    PackedFrom(LengthDelimited(body) + suffix, body, suffix);
  }

  lemma PackedFrom(s: Bytes, body: Bytes, suffix: Bytes)
    requires ReadBytes(s) == Read(true, body, suffix) && |body| % 4 == 0
    ensures ReadPacked(s) == Read(true, Unpack(body), suffix)
  {
  }
}
