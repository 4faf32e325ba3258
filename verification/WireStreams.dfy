/** The byte writer, which appends to a buffer in place, and the reader, which moves through one. */
module WireStreams {
  import opened Folding
  import opened Samples
  import opened WireFormat

  /** A word shifted right by `i` bytes. */
  function Shifted(v: nat, i: nat): nat {
    PowPositive(i);
    var quotient := v / Pow256(i);
    NotNegative(v, Pow256(i), quotient);
    quotient
  }

  lemma NotNegative(v: nat, d: nat, quotient: int)
    requires d > 0 && quotient == v / d
    ensures quotient >= 0
  {
  }

  lemma NextDigit(v: nat, i: nat)
    ensures Shifted(v, i) / 256 == Shifted(v, i + 1)
  {
    PowPositive(i);
    DivTwice(v, Pow256(i));
  }

  lemma {:induction false} PowPositive(i: nat)
    ensures Pow256(i) > 0
  {
    if i > 0 {
      PowPositive(i - 1);
    }
  }

  lemma DivTwice(v: nat, b: nat)
    requires b > 0
    ensures v / b / 256 == v / (256 * b)
  {
    var q, r := v / b, v % b;
    TwoDigits(v, b, q, r, q / 256, q % 256);
    Quotient(v, 256 * b, q / 256, b * (q % 256) + r);
  }

  lemma TwoDigits(v: nat, b: nat, q: nat, r: nat, high: nat, low: nat)
    requires v == b * q + r && r < b && q == 256 * high + low && low < 256
    ensures v == (256 * b) * high + (b * low + r) && b * low + r < 256 * b
  {
    assert b * q == b * (256 * high) + b * low;
    assert b * (256 * high) == (256 * b) * high;
    assert b * low <= b * 255;
  }

  lemma Quotient(v: nat, d: nat, q: nat, r: nat)
    requires d > 0 && v == d * q + r && r < d
    ensures v / d == q
  {
    var p := v / d;
    assert v == d * p + v % d;
    assert p < q ==> d * (p + 1) <= d * q;
    assert p > q ==> d * (q + 1) <= d * p;
  }

  class Writer {
    var out: Bytes

    constructor ()
      ensures out == []
    {
      out := [];
    }

    method AppendVarint(v: nat)
      modifies this
      ensures out == old(out) + Varint(v)
    {
      var value := v;
      while value >= 128
        invariant out + Varint(value) == old(out) + Varint(v)
      {
        var high: Byte := value % 128 + 128;
        Assoc(out, [high], Varint(value / 128));
        out := out + [high];
        value := value / 128;
      }
      out := out + [value];
    }

    /** The little-endian bytes of a word of four or eight bytes. */
    method AppendFixed(v: nat, size: nat)
      modifies this
      ensures out == old(out) + FixedBytes(v, size)
    {
      var i := 0;
      while i < size
        invariant 0 <= i <= size
        invariant out + FixedBytes(Shifted(v, i), size - i) == old(out) + FixedBytes(v, size)
      {
        NextDigit(v, i);
        var digit: Byte := Shifted(v, i) % 256;
        Assoc(out, [digit], FixedBytes(Shifted(v, i + 1), size - i - 1));
        out := out + [digit];
        i := i + 1;
      }
      assert out + [] == out;
    }

    method AppendTag(field: nat, wire: nat)
      modifies this
      ensures out == old(out) + TagBytes(field, wire)
    {
      AppendVarint(field * 8 + wire);
    }

    method VarintField(field: nat, v: nat)
      modifies this
      ensures out == old(out) + (TagBytes(field, VARINT) + Varint(v))
    {
      AppendTag(field, VARINT);
      AppendVarint(v);
    }

    method Fixed64Field(field: nat, v: nat)
      modifies this
      ensures out == old(out) + (TagBytes(field, FIXED64) + FixedBytes(v, 8))
    {
      AppendTag(field, FIXED64);
      AppendFixed(v, 8);
    }

    method BytesField(field: nat, body: Bytes)
      modifies this
      ensures out == old(out) + (TagBytes(field, LENGTH_DELIMITED) + LengthDelimited(body))
    {
      AppendTag(field, LENGTH_DELIMITED);
      AppendVarint(|body|);
      if |body| != 0 {
        out := out + body;
      }
    }

    /** A packed list of 32-bit words; an empty list writes no field at all. */
    method PackedFixed32Field(field: nat, values: seq<nat>)
      modifies this
      ensures out == old(out) + if values == [] then []
                                else TagBytes(field, LENGTH_DELIMITED) + (Varint(4 * |values|) + PackedBody(values))
    {
      if |values| == 0 {
        return;
      }
      AppendTag(field, LENGTH_DELIMITED);
      AppendVarint(4 * |values|);
      ghost var head := out;
      var i := 0;
      while i < |values|
        invariant 0 <= i <= |values|
        invariant out == head + PackedBody(values[..i])
      {
        assert values[..i + 1][..i] == values[..i];
        AppendFixed(values[i], 4);
        i := i + 1;
      }
      assert values[..i] == values;
    }
  }

  // ---------------------------------------------------------------- reading

  lemma Product(a: nat, b: nat)
    ensures a * b >= 0
  {
  }

  lemma Weighted(acc: nat, weight: nat, payload: nat, rest: nat)
    ensures acc + weight * (payload + 128 * rest) == acc + weight * payload + weight * 128 * rest
  {
    assert weight * (payload + 128 * rest) == weight * payload + weight * (128 * rest);
    assert weight * (128 * rest) == weight * 128 * rest;
  }

  /** One byte of a varint: a dead end, the last byte, or seven bits and a continuation. */
  /**
   * What is left to read at digit `i`, on top of what was read so far, is the whole number; kept folded (see Folding).
   */
  ghost predicate ReadsOn(whole: Read<nat>, s: Bytes, i: nat, acc: nat, weight: nat) {
    forall n: nat {:trigger UnfoldAt(n)} | n == i :: n <= 10 &&
      var r := ReadVarintAt(s, n);
      whole.ok == r.ok && whole.rest == r.rest && (r.ok ==> whole.value == acc + weight * r.value)
  }

  lemma ReadsFromStart(s: Bytes)
    ensures ReadsOn(WireFormat.ReadVarint(s), s, 0, 0, 1)
  {
  }

  /** Nothing is left, or too much was read. */
  lemma ReadsNothing(whole: Read<nat>, s: Bytes, i: nat, acc: nat, weight: nat)
    requires ReadsOn(whole, s, i, acc, weight) && (s == [] || i >= 10)
    ensures !whole.ok && whole.rest == s
  {
    assert UnfoldAt(i);
  }

  lemma VarintByte(whole: Read<nat>, s: Bytes, i: nat, acc: nat, weight: nat, payload: nat)
    requires s != [] && i < 10 && ReadsOn(whole, s, i, acc, weight) && payload == s[0] % 128
    ensures weight * payload >= 0
    ensures if i == 9 && payload > 1 then !whole.ok && whole.rest == s[1..]
            else if s[0] < 128 then whole == Read(true, acc + weight * payload, s[1..])
            else ReadsOn(whole, s[1..], i + 1, acc + weight * payload, weight * 128)
  {
    assert UnfoldAt(i);
    Product(weight, payload);
    if s[0] >= 128 && !(i == 9 && payload > 1) {
      NextReads(whole, ReadVarintAt(s, i), s[1..], i + 1, acc, weight, payload);
    }
  }

  /** One digit more; the digit in the tenth place must be at most one. */
  method AddDigit(acc: nat, weight: nat, payload: nat, ghost whole: Read<nat>, ghost s: Bytes, ghost i: nat)
      returns (sum: nat)
    requires s != [] && i < 10 && ReadsOn(whole, s, i, acc, weight) && payload == s[0] % 128
    ensures if i == 9 && payload > 1 then !whole.ok && whole.rest == s[1..]
            else if s[0] < 128 then whole == Read(true, sum, s[1..])
            else ReadsOn(whole, s[1..], i + 1, sum, weight * 128)
  {
    VarintByte(whole, s, i, acc, weight, payload);
    sum := acc + weight * payload;
  }

  lemma NextReads(whole: Read<nat>, r: Read<nat>, s: Bytes, i: nat, acc: nat, weight: nat, payload: nat)
    requires i <= 10 && weight * payload >= 0 && whole.ok == r.ok && whole.rest == r.rest
    requires r == ReadVarintAt(s, i).(value := payload + 128 * ReadVarintAt(s, i).value)
    requires r.ok ==> whole.value == acc + weight * r.value
    ensures ReadsOn(whole, s, i, acc + weight * payload, weight * 128)
  {
    Weighted(acc, weight, payload, ReadVarintAt(s, i).value);
  }

  lemma FourBytes(s: Bytes)
    requires |s| % 4 == 0 && s != []
    ensures WireFormat.ReadFixed(s, 4) == Read(true, Word(s[..4]), s[4..]) && |s[4..]| % 4 == 0
    ensures Unpack(s) == [Word(s[..4])] + Unpack(s[4..])
  {
  }

  lemma NextWord(s: Bytes, i: nat, size: nat, acc: nat)
    requires i < size <= |s|
    ensures acc + Pow256(i) * Word(s[i..size]) == acc + Pow256(i) * s[i] + Pow256(i + 1) * Word(s[i + 1..size])
    ensures Pow256(i) * s[i] >= 0
  {
    Product(Pow256(i), s[i]);
    var word, w := s[i..size], Word(s[i + 1..size]);
    assert word[1..] == s[i + 1..size];
    assert Pow256(i) * (s[i] + 256 * w) == Pow256(i) * s[i] + Pow256(i) * (256 * w);
    assert Pow256(i) * (256 * w) == 256 * Pow256(i) * w;
  }

  class Reader {
    const data: Bytes
    var pos: nat

    ghost predicate Valid()
      reads this
    {
      pos <= |data|
    }

    /** The bytes still to be read. */
    ghost function Rest(): Bytes
      reads this
      requires Valid()
    {
      data[pos..]
    }

    constructor (bytes: Bytes)
      ensures Valid() && Rest() == bytes && data == bytes
    {
      data := bytes;
      pos := 0;
    }

    predicate AtEnd()
      reads this
      requires Valid()
      ensures AtEnd() <==> Rest() == []
    {
      pos >= |data|
    }

    /** Seven bits per byte, lowest first; at most ten bytes, and one bit from the tenth. */
    method ReadVarint() returns (ok: bool, value: nat)
      requires Valid()
      modifies this
      ensures Valid()
      ensures var r := WireFormat.ReadVarint(old(Rest())); ok == r.ok && Rest() == r.rest && (ok ==> value == r.value)
      ensures ok ==> value < TWO64
    {
      VarintBounded(Rest());
      value := 0;
      var weight: nat := 1;
      var i := 0;
      ghost var whole := WireFormat.ReadVarint(Rest());
      ReadsFromStart(Rest());
      while pos < |data| && i < 10
        invariant Valid() && 0 <= i <= 10 && weight > 0 && ReadsOn(whole, Rest(), i, value, weight)
        decreases 10 - i
      {
        var b := data[pos];
        ghost var rest := Rest();
        var payload: nat := b % 128;
        var sum := AddDigit(value, weight, payload, whole, rest, i);
        pos := pos + 1;
        assert rest[1..] == Rest();
        if i == 9 && payload > 1 {
          return false, value;
        }
        value := sum;
        if b < 128 {
          return true, value;
        }
        weight := weight * 128;
        i := i + 1;
      }
      ReadsNothing(whole, Rest(), i, value, weight);
      ok := false;
    }

    method ReadFixed(size: nat) returns (ok: bool, value: nat)
      requires Valid()
      modifies this
      ensures Valid()
      ensures var r := WireFormat.ReadFixed(old(Rest()), size);
              ok == r.ok && Rest() == r.rest && (ok ==> value == r.value)
    {
      value := 0;
      if |data| - pos < size {
        return false, value;
      }
      ok := true;
      var i := 0;
      ghost var s := Rest();
      assert s[0..size] == s[..size];
      while i < size
        invariant 0 <= i <= size <= |s| && pos == old(pos) && s == Rest()
        invariant value + Pow256(i) * Word(s[i..size]) == Word(s[..size])
      {
        assert data[pos + i] == s[i];
        NextWord(s, i, size, value);
        value := value + Pow256(i) * data[pos + i];
        i := i + 1;
      }
      assert s[size..size] == [];
      pos := pos + size;
      assert Rest() == s[size..];
    }

    method ReadBytes() returns (ok: bool, body: Bytes)
      requires Valid()
      modifies this
      ensures Valid()
      ensures WireFormat.ReadBytes(old(Rest())) == Read(ok, body, Rest())
    {
      var read, len := ReadVarint();
      if !read || len > |data| - pos {
        return false, [];
      }
      ghost var s := Rest();
      body := data[pos..pos + len];
      assert body == s[..len];
      pos := pos + len;
      assert Rest() == s[len..];
      ok := true;
    }

    method ReadTag() returns (ok: bool, tag: Tag)
      requires Valid()
      modifies this
      ensures Valid()
      ensures WireFormat.ReadTag(old(Rest())) == Read(ok, tag, Rest())
    {
      var read, raw := ReadVarint();
      if !read || raw == 0 {
        return false, Tag(0, 0);
      }
      tag := Tag(raw / 8 % TWO32, raw % 8);
      ok := tag.field != 0;
    }

    method Skip(wire: nat) returns (ok: bool)
      requires Valid()
      modifies this
      ensures Valid()
      ensures WireFormat.Skip(wire, old(Rest())) == Read(ok, (), Rest())
    {
      if wire == VARINT {
        var read, ignored := ReadVarint();
        ok := read;
      } else if wire == FIXED64 {
        var read, ignored := ReadFixed(8);
        ok := read;
      } else if wire == LENGTH_DELIMITED {
        var read, ignored := ReadBytes();
        ok := read;
      } else if wire == FIXED32 {
        var read, ignored := ReadFixed(4);
        ok := read;
      } else {
        ok := false;
      }
    }

    /** A packed list of 32-bit words. */
    method ReadPackedFixed32() returns (ok: bool, values: seq<nat>)
      requires Valid()
      modifies this
      ensures Valid()
      ensures ReadPacked(old(Rest())) == Read(ok, values, Rest())
    {
      values := [];
      var read, body := ReadBytes();
      if !read || |body| % 4 != 0 {
        return false, [];
      }
      var sub := new Reader(body);
      while !sub.AtEnd()
        invariant sub.Valid() && fresh(sub) && Valid() && Rest() == WireFormat.ReadBytes(old(Rest())).rest
        invariant |sub.Rest()| % 4 == 0 && values + Unpack(sub.Rest()) == Unpack(body)
        decreases |sub.Rest()|
        modifies sub
      {
        ghost var s := sub.Rest();
        var read4, v := sub.ReadFixed(4);
        FourBytes(s);
        Assoc(values, [v], Unpack(sub.Rest()));
        values := values + [v];
      }
      assert values + Unpack([]) == values;
      ok := true;
    }
  }
}
