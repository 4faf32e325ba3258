/** Timestamps and fields of newer writers: the handler reads every varint before it looks at the field number,
    so an unknown varint field makes the field loop swallow the bytes that follow it. */
module TimestampUnknowns {
  import opened Samples
  import opened WireFormat
  import opened MessageFields
  import opened GeometryCodec

  const START := TimeParts(0, 0)

  function FieldBytes(u: Unknown): Bytes {
    TagBytes(u.field, u.wire) + u.payload
  }

  /** A timestamp's bytes with one more field in front of the seconds, between the two fields, or at the end. */
  function Inserted(t: Timestamp, place: nat, u: Unknown): Bytes
    requires place < 3
  {
    var p := SplitTimestamp(t);
    var seconds, nanos := VarintField(1, Unsigned(p.seconds, TWO64)), VarintField(2, Unsigned(p.nanos, TWO32));
    if place == 0 then FieldBytes(u) + (seconds + nanos)
    else if place == 1 then seconds + (FieldBytes(u) + nanos)
    else seconds + (nanos + FieldBytes(u))
  }

  /** An unknown varint field: the handler has read its value, and the loop skips one more varint. */
  lemma Swallows(u: Unknown, rest: Bytes, st: TimeParts)
    requires WellFormed(u) && u.wire == VARINT && u.field != 1 && u.field != 2 && Forward(TimestampField)
    ensures ParseFields(TimestampField, FieldBytes(u) + rest, st)
            == if ReadVarint(rest).ok then ParseFields(TimestampField, ReadVarint(rest).rest, st) else Parsed(false, st)
  {
    PayloadSkips(VARINT, u.payload, rest);
    TagRoundTrip(u.field, VARINT, u.payload + rest);
    assert FieldBytes(u) + rest == TagBytes(u.field, VARINT) + (u.payload + rest);
    assert ReadVarint(u.payload + rest).ok && ReadVarint(u.payload + rest).rest == rest;
  }

  /** A varint on its own is a tag without a payload. */
  lemma LoneVarint(v: nat, st: TimeParts)
    requires v < TWO64 && Forward(TimestampField)
    ensures !ParseFields(TimestampField, Varint(v), st).ok
  {
    VarintRoundTrip(v, []);
    assert Varint(v) + [] == Varint(v);
    var tag := ReadTag(Varint(v));
    if tag.ok {
      assert tag.rest == [];
      assert !Skip(tag.value.wire, []).ok;
    }
  }

  lemma NanosTag(n: nat)
    requires n < TWO64
    ensures VarintField(2, n) == [16] + Varint(n)
    ensures ReadVarint(VarintField(2, n)) == Read(true, 16, Varint(n))
  {
    assert ([16] + Varint(n))[1..] == Varint(n);
  }

  lemma SecondsTag(s: nat, rest: Bytes)
    requires s < TWO64
    ensures ReadVarint(VarintField(1, s) + rest) == Read(true, 8, Varint(s) + rest)
  {
    VarintRoundTrip(8, Varint(s) + rest);
    Assoc(TagBytes(1, VARINT), Varint(s), rest);
  }

  /** What is left of a varint after some of its bytes is again a varint. */
  lemma {:induction false} VarintTail(v: nat, k: nat) returns (w: nat)
    requires k < |Varint(v)|
    ensures w <= v && Varint(v)[k..] == Varint(w)
  {
    if k == 0 {
      w := v;
    } else {
      w := VarintTail(v / 128, k - 1);
      assert Varint(v)[k..] == Varint(v / 128)[k - 1..];
    }
  }

  lemma NanosAreShort(n: nat)
    requires n < SECOND
    ensures |Varint(n)| <= 5
  {
    var a, b, c, d := n / 128, n / 128 / 128, n / 128 / 128 / 128, n / 128 / 128 / 128 / 128;
    assert |Varint(d)| == 1;
    assert |Varint(c)| <= 2;
    assert |Varint(b)| <= 3;
    assert |Varint(a)| <= 4;
  }

  /** The seconds, taken for a tag in front of the nanoseconds. */
  lemma SecondsAsTag(s: nat, n: nat)
    requires s < TWO64 && n < SECOND && Forward(TimestampField)
    ensures var p := ParseFields(TimestampField, Varint(s) + VarintField(2, n), START);
            p.ok ==> s != 0 && p.state == START
  {
    var rest := VarintField(2, n);
    VarintRoundTrip(s, rest);
    NanosTag(n);
    NanosAreShort(n);
    VarintRoundTrip(n, []);
    assert Varint(n) + [] == Varint(n);
    var tag := ReadTag(Varint(s) + rest);
    if tag.ok && tag.value.wire == VARINT {
      if tag.value.field == 1 {
        LoneVarint(n, TimeParts(16, 0));
      } else if tag.value.field == 2 {
        LoneVarint(n, TimeParts(0, 16));
      }
    } else if tag.ok && tag.value.wire == FIXED32 && |Varint(n)| > 3 {
      var w := VarintTail(n, 3);
      LoneVarint(w, START);
      assert rest[4..] == Varint(n)[3..];
    } else if tag.ok && tag.value.wire == FIXED32 {
      assert Skip(FIXED32, rest).ok ==> Skip(FIXED32, rest).rest == [];
    }
  }

  /** A representable timestamp still reads back after an unknown field is inserted, at any boundary, exactly if the
      field is not a varint. */
  lemma UnknownTolerated(t: Timestamp, place: nat, u: Unknown)
    requires FIRST_REPRESENTABLE <= t <= MAX_TIMESTAMP && place < 3
    requires WellFormed(u) && (u.wire == VARINT ==> u.field != 1 && u.field != 2)
    ensures DecodeTimestamp(Inserted(t, place, u)) == Some(t) <==> u.wire != VARINT
  {
    TimestampFieldOk();
    if u.wire != VARINT {
      Tolerated(t, place, u);
    } else if place == 0 {
      BreaksInFront(t, u);
    } else {
      BreaksLater(t, place, u);
    }
  }

  lemma Tolerated(t: Timestamp, place: nat, u: Unknown)
    requires FIRST_REPRESENTABLE <= t <= MAX_TIMESTAMP && place < 3 && WellFormed(u) && u.wire != VARINT
    ensures DecodeTimestamp(Inserted(t, place, u)) == Some(t)
  {
    var p := SplitTimestamp(t);
    var a, b := VarintField(1, Unsigned(p.seconds, TWO64)), VarintField(2, Unsigned(p.nanos, TWO32));
    var one := UnknownBytes([u]);
    OneUnknown(u);
    if place == 0 {
      NoisyTimestampReads(t, [u], [], []);
      Blank(one, a, [], b, []);
    } else if place == 1 {
      NoisyTimestampReads(t, [], [u], []);
      Blank([], a, one, b, []);
    } else {
      NoisyTimestampReads(t, [], [], [u]);
      Blank([], a, [], b, one);
    }
  }

  lemma OneUnknown(u: Unknown)
    ensures UnknownBytes([u]) == FieldBytes(u) && UnknownBytes([]) == []
  {
    assert UnknownBytes([u]) == FieldBytes(u) + UnknownBytes([]);
  }

  lemma Blank(x: Bytes, a: Bytes, y: Bytes, b: Bytes, z: Bytes)
    ensures y == z == [] ==> x + (a + (y + (b + z))) == x + (a + b)
    ensures x == z == [] ==> x + (a + (y + (b + z))) == a + (y + b)
    ensures x == y == [] ==> x + (a + (y + (b + z))) == a + (b + z)
  {
  }

  lemma BreaksInFront(t: Timestamp, u: Unknown)
    requires FIRST_REPRESENTABLE <= t <= MAX_TIMESTAMP && Forward(TimestampField)
    requires WellFormed(u) && u.wire == VARINT && u.field != 1 && u.field != 2
    ensures DecodeTimestamp(Inserted(t, 0, u)) != Some(t)
  {
    SplitMeaning(t);
    var p := SplitTimestamp(t);
    var s, n := Unsigned(p.seconds, TWO64), Unsigned(p.nanos, TWO32);
    InRange(p.seconds, p.nanos);
    var seconds, nanos := VarintField(1, s), VarintField(2, n);
    Swallows(u, seconds + nanos, START);
    SecondsTag(s, nanos);
    SecondsAsTag(s, n);
    ZeroHasNoSeconds();
    assert CombineTimestamp(START) == Some(0);
  }

  lemma InRange(seconds: int, nanos: int)
    requires 0 <= nanos < SECOND
    ensures Unsigned(seconds, TWO64) < TWO64 && Unsigned(nanos, TWO32) == nanos
  {
  }

  lemma ZeroHasNoSeconds()
    ensures Unsigned(SplitTimestamp(0).seconds, TWO64) == 0
  {
  }

  lemma BreaksLater(t: Timestamp, place: nat, u: Unknown)
    requires FIRST_REPRESENTABLE <= t <= MAX_TIMESTAMP && 0 < place < 3 && Forward(TimestampField)
    requires WellFormed(u) && u.wire == VARINT && u.field != 1 && u.field != 2
    ensures DecodeTimestamp(Inserted(t, place, u)) == None
  {
    SplitMeaning(t);
    var p := SplitTimestamp(t);
    var n := Unsigned(p.nanos, TWO32);
    var nanos := VarintField(2, n);
    if place == 1 {
      SecondsParse(p, FieldBytes(u) + nanos, START);
      Swallows(u, nanos, TimeParts(p.seconds, 0));
      NanosTag(n);
      LoneVarint(n, TimeParts(p.seconds, 0));
    } else {
      SecondsParse(p, nanos + FieldBytes(u), START);
      NanosParse(p, FieldBytes(u), TimeParts(p.seconds, 0));
      Swallows(u, [], p);
      assert FieldBytes(u) + [] == FieldBytes(u);
    }
  }
}
