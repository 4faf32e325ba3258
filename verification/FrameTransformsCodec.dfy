/** Lists of frame transforms: nested messages on the wire. */
module FrameTransformsCodec {
  import opened Samples
  import opened WireFormat
  import opened MessageFields
  import opened GeometryCodec

  /** Three and four doubles. */
  type Vector3 = v: seq<Double> | |v| == 3 witness [0, 0, 0]
  type Quaternion = q: seq<Double> | |q| == 4 witness [0, 0, 0, 0]

  /** The bits of 1.0. */
  const ONE: Double := 0x3FF0_0000_0000_0000

  datatype FrameTransform = FrameTransform(timestamp: Timestamp, parent: Bytes, child: Bytes,
                                           translation: Vector3, rotation: Quaternion)

  const DefaultFrame := FrameTransform(0, [], [], [0, 0, 0], [0, 0, 0, ONE])

  function MessageField(field: nat, body: Bytes): Bytes {
    TagBytes(field, LENGTH_DELIMITED) + LengthDelimited(body)
  }

  function FrameBytes(x: FrameTransform): Bytes {
    MessageField(1, TimestampBytes(x.timestamp)) + (MessageField(2, x.parent) + (MessageField(3, x.child)
    + (MessageField(4, DoublesBytes(x.translation)) + MessageField(5, DoublesBytes(x.rotation)))))
  }

  /** One field of a transform. A nested message that does not decode leaves the reader behind it, and a vector
      or quaternion keeps the components read before the failure. */
  function FrameField(tag: Tag, s: Bytes, st: FrameTransform): Handled<FrameTransform> {
    if tag.wire != LENGTH_DELIMITED || tag.field < 1 || tag.field > 5 then Handled(false, st, s)
    else
      var b := ReadBytes(s);
      if !b.ok then Handled(false, st, b.rest)
      else if tag.field == 1 then
        var t := DecodeTimestamp(b.value);
        if t.Some? then Handled(true, st.(timestamp := t.value), b.rest) else Handled(false, st, b.rest)
      else if tag.field == 2 then Handled(true, st.(parent := b.value), b.rest)
      else if tag.field == 3 then Handled(true, st.(child := b.value), b.rest)
      else if tag.field == 4 then
        var v := ParseDoubles(b.value, st.translation);
        Handled(v.ok, st.(translation := v.state), b.rest)
      else
        var q := ParseDoubles(b.value, st.rotation);
        Handled(q.ok, st.(rotation := q.state), b.rest)
  }

  lemma FrameFieldOk()
    ensures Forward(FrameField) && Local(FrameField)
  {
    forall tag, s, st, suffix ensures LocalAt(FrameField, tag, s, st, suffix) {
      if tag.wire == LENGTH_DELIMITED && ReadBytes(s).ok {
        BytesLocal(s, suffix);
      }
    }
  }

  function DecodeFrame(s: Bytes): Option<FrameTransform> {
    FrameFieldOk();
    var p := ParseFields(FrameField, s, DefaultFrame);
    if p.ok then Some(p.state) else None
  }

  // ---------------------------------------------------------------- one transform, with fields of newer writers

  /** Unknown fields at every boundary of a transform and of its nested messages. */
  datatype FrameNoise = FrameNoise(around: seq<seq<Unknown>>, stamp: seq<seq<Unknown>>,
                                   vector: seq<seq<Unknown>>, quaternion: seq<seq<Unknown>>)

  predicate Shaped(n: FrameNoise) {
    |n.around| == 6 && |n.stamp| == 3 && |n.vector| == 4 && |n.quaternion| == 5
  }

  ghost predicate NoiseOk(n: FrameNoise) {
    && Shaped(n)
    && (forall i | 0 <= i < 6 :: NotFrameFields(n.around[i]))
    && (forall i | 0 <= i < 3 :: NotVarints(n.stamp[i]))
    && (forall i | 0 <= i < 4 :: NotComponents(n.vector[i], 3))
    && (forall i | 0 <= i < 5 :: NotComponents(n.quaternion[i], 4))
  }

  ghost predicate NotFrameFields(us: seq<Unknown>) {
    forall i | 0 <= i < |us| :: WellFormed(us[i]) && (us[i].wire != LENGTH_DELIMITED || us[i].field > 5)
  }

  function StampOf(x: FrameTransform, n: FrameNoise): Bytes
    requires |n.stamp| == 3
  {
    NoisyTimestamp(x.timestamp, n.stamp[0], n.stamp[1], n.stamp[2])
  }

  function NoisyFrame(x: FrameTransform, n: FrameNoise): Bytes
    requires Shaped(n)
  {
    UnknownBytes(n.around[0]) + (MessageField(1, StampOf(x, n))
    + (UnknownBytes(n.around[1]) + (MessageField(2, x.parent)
    + (UnknownBytes(n.around[2]) + (MessageField(3, x.child)
    + (UnknownBytes(n.around[3]) + (MessageField(4, NoisyDoubles(x.translation, n.vector))
    + (UnknownBytes(n.around[4]) + (MessageField(5, NoisyDoubles(x.rotation, n.quaternion))
    + UnknownBytes(n.around[5]))))))))))
  }

  /** What a transform needs to be written: a representable timestamp, and parts whose lengths fit 64 bits. */
  ghost predicate Writable(x: FrameTransform, n: FrameNoise) {
    && FIRST_REPRESENTABLE <= x.timestamp <= MAX_TIMESTAMP
    && NoiseOk(n) && |NoisyFrame(x, n)| < TWO64
  }

  lemma PartsFit(x: FrameTransform, n: FrameNoise)
    requires Writable(x, n)
    ensures |StampOf(x, n)| < TWO64 && |x.parent| < TWO64 && |x.child| < TWO64
    ensures |NoisyDoubles(x.translation, n.vector)| < TWO64 && |NoisyDoubles(x.rotation, n.quaternion)| < TWO64
  {
  }

  lemma FieldParse(field: nat, body: Bytes, rest: Bytes, st: FrameTransform, st': FrameTransform)
    requires 1 <= field <= 5 && |body| < TWO64 && Forward(FrameField)
    requires FrameField(Tag(field, LENGTH_DELIMITED), LengthDelimited(body) + rest, st) == Handled(true, st', rest)
    ensures ParseFields(FrameField, MessageField(field, body) + rest, st) == ParseFields(FrameField, rest, st')
  {
    ParseTaken(FrameField, field, LENGTH_DELIMITED, LengthDelimited(body), rest, st, st');
  }

  lemma StampParse(x: FrameTransform, n: FrameNoise, rest: Bytes, st: FrameTransform)
    requires Writable(x, n) && Forward(FrameField)
    ensures ParseFields(FrameField, MessageField(1, StampOf(x, n)) + rest, st)
            == ParseFields(FrameField, rest, st.(timestamp := x.timestamp))
  {
    PartsFit(x, n);
    BytesRoundTrip(StampOf(x, n), rest);
    NoisyTimestampReads(x.timestamp, n.stamp[0], n.stamp[1], n.stamp[2]);
    FieldParse(1, StampOf(x, n), rest, st, st.(timestamp := x.timestamp));
  }

  lemma NameParse(field: nat, name: Bytes, rest: Bytes, st: FrameTransform)
    requires 2 <= field <= 3 && |name| < TWO64 && Forward(FrameField)
    ensures ParseFields(FrameField, MessageField(field, name) + rest, st)
            == ParseFields(FrameField, rest, if field == 2 then st.(parent := name) else st.(child := name))
  {
    BytesRoundTrip(name, rest);
    FieldParse(field, name, rest, st, if field == 2 then st.(parent := name) else st.(child := name));
  }

  lemma TranslationParse(v: Vector3, noise: seq<seq<Unknown>>, rest: Bytes, st: FrameTransform)
    requires |noise| == 4 && (forall i | 0 <= i < 4 :: NotComponents(noise[i], 3)) && Forward(FrameField)
    requires |NoisyDoubles(v, noise)| < TWO64
    ensures ParseFields(FrameField, MessageField(4, NoisyDoubles(v, noise)) + rest, st)
            == ParseFields(FrameField, rest, st.(translation := v))
  {
    BytesRoundTrip(NoisyDoubles(v, noise), rest);
    NoisyDoublesRead(v, noise, st.translation);
    FieldParse(4, NoisyDoubles(v, noise), rest, st, st.(translation := v));
  }

  lemma RotationParse(q: Quaternion, noise: seq<seq<Unknown>>, rest: Bytes, st: FrameTransform)
    requires |noise| == 5 && (forall i | 0 <= i < 5 :: NotComponents(noise[i], 4)) && Forward(FrameField)
    requires |NoisyDoubles(q, noise)| < TWO64
    ensures ParseFields(FrameField, MessageField(5, NoisyDoubles(q, noise)) + rest, st)
            == ParseFields(FrameField, rest, st.(rotation := q))
  {
    BytesRoundTrip(NoisyDoubles(q, noise), rest);
    NoisyDoublesRead(q, noise, st.rotation);
    FieldParse(5, NoisyDoubles(q, noise), rest, st, st.(rotation := q));
  }

  /** A transform reads back from its own bytes, whatever newer fields were written in between, at any depth. */
  lemma NoisyFrameReads(x: FrameTransform, n: FrameNoise)
    requires Writable(x, n)
    ensures DecodeFrame(NoisyFrame(x, n)) == Some(x)
  {
    FrameFieldOk();
    PartsFit(x, n);
    var end := UnknownBytes(n.around[5]);
    var from5 := MessageField(5, NoisyDoubles(x.rotation, n.quaternion)) + end;
    var from4 := MessageField(4, NoisyDoubles(x.translation, n.vector)) + (UnknownBytes(n.around[4]) + from5);
    var from3 := MessageField(3, x.child) + (UnknownBytes(n.around[3]) + from4);
    var from2 := MessageField(2, x.parent) + (UnknownBytes(n.around[2]) + from3);
    var from1 := MessageField(1, StampOf(x, n)) + (UnknownBytes(n.around[1]) + from2);
    var st1 := DefaultFrame.(timestamp := x.timestamp);
    var st2 := st1.(parent := x.parent);
    var st3 := st2.(child := x.child);
    var st4 := st3.(translation := x.translation);
    Around(n.around[0], from1, DefaultFrame);
    StampParse(x, n, UnknownBytes(n.around[1]) + from2, DefaultFrame);
    Around(n.around[1], from2, st1);
    NameParse(2, x.parent, UnknownBytes(n.around[2]) + from3, st1);
    Around(n.around[2], from3, st2);
    NameParse(3, x.child, UnknownBytes(n.around[3]) + from4, st2);
    Around(n.around[3], from4, st3);
    TranslationParse(x.translation, n.vector, UnknownBytes(n.around[4]) + from5, st3);
    Around(n.around[4], from5, st4);
    RotationParse(x.rotation, n.quaternion, end, st4);
    Around(n.around[5], [], x);
    assert end + [] == end;
  }

  lemma Around(us: seq<Unknown>, rest: Bytes, st: FrameTransform)
    requires NotFrameFields(us) && Forward(FrameField)
    ensures ParseFields(FrameField, UnknownBytes(us) + rest, st) == ParseFields(FrameField, rest, st)
  {
    NoiseSkipped(FrameField, us, rest, st);
  }

  const Silence := FrameNoise(Quiet(6), Quiet(3), Quiet(4), Quiet(5))

  function Silent(n: nat): (noise: seq<FrameNoise>)
    ensures |noise| == n && forall i | 0 <= i < n :: noise[i] == Silence
  {
    seq(n, i => Silence)
  }

  lemma QuietFrame(x: FrameTransform)
    ensures NoisyFrame(x, Silence) == FrameBytes(x)
  {
    QuietDoubles(x.translation);
    QuietDoubles(x.rotation);
    QuietTimestamp(x.timestamp);
    var m1, m2, m3 := MessageField(1, TimestampBytes(x.timestamp)), MessageField(2, x.parent), MessageField(3, x.child);
    var m4, m5 := MessageField(4, DoublesBytes(x.translation)), MessageField(5, DoublesBytes(x.rotation));
    QuietParts(m1, m2, m3, m4, m5);
  }

  lemma QuietParts(m1: Bytes, m2: Bytes, m3: Bytes, m4: Bytes, m5: Bytes)
    ensures [] + (m1 + ([] + (m2 + ([] + (m3 + ([] + (m4 + ([] + (m5 + [])))))))))
            == m1 + (m2 + (m3 + (m4 + m5)))
  {
    assert [] + (m5 + []) == m5;
    assert [] + (m4 + m5) == m4 + m5;
    assert [] + (m3 + (m4 + m5)) == m3 + (m4 + m5);
    assert [] + (m2 + (m3 + (m4 + m5))) == m2 + (m3 + (m4 + m5));
  }

  // ---------------------------------------------------------------- the list

  function ListBytes(xs: seq<FrameTransform>): Bytes {
    if xs == [] then [] else ListBytes(xs[..|xs| - 1]) + MessageField(1, FrameBytes(xs[|xs| - 1]))
  }

  /** The top-level loop: any length-delimited field is read, and field 1 is a transform. */
  function DecodeFrom(s: Bytes, acc: seq<FrameTransform>): Option<seq<FrameTransform>>
    decreases |s|
  {
    if s == [] then Some(acc)
    else
      var tag := ReadTag(s);
      if !tag.ok then None
      else if tag.value.wire != LENGTH_DELIMITED then
        var skipped := Skip(tag.value.wire, tag.rest);
        if skipped.ok then DecodeFrom(skipped.rest, acc) else None
      else
        var b := ReadBytes(tag.rest);
        if !b.ok then None
        else if tag.value.field != 1 then DecodeFrom(b.rest, acc)
        else
          var x := DecodeFrame(b.value);
          if x.Some? then DecodeFrom(b.rest, acc + [x.value]) else None
  }

  function Deserialize(s: Bytes): Option<seq<FrameTransform>> {
    if s == [] then None else DecodeFrom(s, [])
  }

  /** A decodable buffer followed by anything: the rest is decoded as if the buffer were not there. */
  lemma {:induction false} DecodePrefix(a: Bytes, b: Bytes, acc: seq<FrameTransform>)
    requires DecodeFrom(a, acc).Some?
    ensures DecodeFrom(a + b, acc) == DecodeFrom(b, DecodeFrom(a, acc).value)
    decreases |a|
  {
    if a == [] {
      assert a + b == b;
    } else {
      TagLocal(a, b);
      var tag := ReadTag(a);
      if tag.value.wire != LENGTH_DELIMITED {
        SkipLocal(tag.value.wire, tag.rest, b);
        DecodePrefix(Skip(tag.value.wire, tag.rest).rest, b, acc);
      } else {
        BytesLocal(tag.rest, b);
        var body := ReadBytes(tag.rest);
        DecodePrefix(body.rest, b, if tag.value.field == 1 then acc + [DecodeFrame(body.value).value] else acc);
      }
    }
  }

  /** Transforms already decoded only stand in front. */
  lemma {:induction false} DecodeAfter(s: Bytes, acc: seq<FrameTransform>, more: seq<FrameTransform>)
    ensures DecodeFrom(s, acc).None? == DecodeFrom(s, more + acc).None?
    ensures DecodeFrom(s, acc).Some? ==> DecodeFrom(s, more + acc).value == more + DecodeFrom(s, acc).value
    decreases |s|
  {
    if s != [] && ReadTag(s).ok {
      var tag := ReadTag(s);
      if tag.value.wire != LENGTH_DELIMITED {
        DecodeAfter(Skip(tag.value.wire, tag.rest).rest, acc, more);
      } else {
        var body := ReadBytes(tag.rest);
        if body.ok {
          if tag.value.field != 1 {
            DecodeAfter(body.rest, acc, more);
          } else if DecodeFrame(body.value).Some? {
            var x := DecodeFrame(body.value).value;
            DecodeAfter(body.rest, acc + [x], more);
            assert more + (acc + [x]) == more + acc + [x];
          }
        }
      }
    }
  }

  /** Concatenating two decodable buffers concatenates the lists. */
  lemma Concatenation(a: Bytes, b: Bytes)
    requires Deserialize(a).Some? && Deserialize(b).Some?
    ensures Deserialize(a + b) == Some(Deserialize(a).value + Deserialize(b).value)
  {
    DecodePrefix(a, b, []);
    var xs := DecodeFrom(a, []).value;
    DecodeAfter(b, [], xs);
    assert xs + [] == xs;
  }

  ghost predicate NotTransforms(us: seq<Unknown>) {
    forall i | 0 <= i < |us| :: WellFormed(us[i]) && (us[i].wire != LENGTH_DELIMITED || us[i].field != 1)
  }

  /** Newer fields between the transforms are passed over. */
  lemma {:induction false} SkipsUnknown(us: seq<Unknown>, rest: Bytes, acc: seq<FrameTransform>)
    requires NotTransforms(us)
    ensures DecodeFrom(UnknownBytes(us) + rest, acc) == DecodeFrom(rest, acc)
  {
    if us == [] {
      assert UnknownBytes(us) + rest == rest;
    } else {
      var u, after := us[0], UnknownBytes(us[1..]) + rest;
      SkipsUnknown(us[1..], rest, acc);
      Assoc(TagBytes(u.field, u.wire) + u.payload, UnknownBytes(us[1..]), rest);
      Assoc(TagBytes(u.field, u.wire), u.payload, after);
      SkipsOne(u, after, acc);
    }
  }

  lemma SkipsOne(u: Unknown, rest: Bytes, acc: seq<FrameTransform>)
    requires WellFormed(u) && (u.wire != LENGTH_DELIMITED || u.field != 1)
    ensures DecodeFrom(TagBytes(u.field, u.wire) + (u.payload + rest), acc) == DecodeFrom(rest, acc)
  {
    PayloadSkips(u.wire, u.payload, rest);
    TagRoundTrip(u.field, u.wire, u.payload + rest);
  }

  /** A list with newer fields between its transforms and at every boundary inside them. */
  function NoisyList(xs: seq<FrameTransform>, inside: seq<FrameNoise>, between: seq<seq<Unknown>>): Bytes
    requires |inside| == |xs| && |between| == |xs| + 1 && forall i | 0 <= i < |xs| :: Shaped(inside[i])
  {
    if xs == [] then UnknownBytes(between[0])
    else
      var n := |xs|;
      NoisyList(xs[..n - 1], inside[..n - 1], between[..n])
      + (MessageField(1, NoisyFrame(xs[n - 1], inside[n - 1])) + UnknownBytes(between[n]))
  }

  ghost predicate ListOk(xs: seq<FrameTransform>, inside: seq<FrameNoise>, between: seq<seq<Unknown>>) {
    && |inside| == |xs| && |between| == |xs| + 1
    && (forall i | 0 <= i < |xs| :: Writable(xs[i], inside[i]))
    && (forall i | 0 <= i <= |xs| :: NotTransforms(between[i]))
  }

  /** Every list of writable transforms reads back exactly, whatever newer fields stand at whatever boundary. */
  lemma {:induction false} NoisyListReads(xs: seq<FrameTransform>, inside: seq<FrameNoise>, between: seq<seq<Unknown>>)
    requires ListOk(xs, inside, between)
    ensures DecodeFrom(NoisyList(xs, inside, between), []) == Some(xs)
  {
    if xs == [] {
      assert NotTransforms(between[0]);
      SkipsUnknown(between[0], [], []);
      assert UnknownBytes(between[0]) + [] == UnknownBytes(between[0]);
    } else {
      var n := |xs|;
      FrontAndLast(xs);
      FrontOk(xs, inside, between);
      NoisyListReads(xs[..n - 1], inside[..n - 1], between[..n]);
      OneMoreAfter(NoisyList(xs[..n - 1], inside[..n - 1], between[..n]), xs[..n - 1], xs[n - 1], inside[n - 1],
          between[n]);
    }
  }

  lemma OneMoreAfter(front: Bytes, xs: seq<FrameTransform>, x: FrameTransform, n: FrameNoise, us: seq<Unknown>)
    requires DecodeFrom(front, []) == Some(xs) && Writable(x, n) && NotTransforms(us)
    ensures DecodeFrom(front + (MessageField(1, NoisyFrame(x, n)) + UnknownBytes(us)), []) == Some(xs + [x])
  {
    DecodePrefix(front, MessageField(1, NoisyFrame(x, n)) + UnknownBytes(us), []);
    OneMore(x, n, us, xs);
  }

  lemma FrontOk(xs: seq<FrameTransform>, inside: seq<FrameNoise>, between: seq<seq<Unknown>>)
    requires ListOk(xs, inside, between) && xs != []
    ensures ListOk(xs[..|xs| - 1], inside[..|xs| - 1], between[..|xs|])
    ensures Writable(xs[|xs| - 1], inside[|xs| - 1]) && NotTransforms(between[|xs|])
  {
  }

  lemma OneMore(x: FrameTransform, n: FrameNoise, us: seq<Unknown>, acc: seq<FrameTransform>)
    requires Writable(x, n) && NotTransforms(us)
    ensures DecodeFrom(MessageField(1, NoisyFrame(x, n)) + UnknownBytes(us), acc) == Some(acc + [x])
  {
    var body, rest := NoisyFrame(x, n), UnknownBytes(us);
    NoisyFrameReads(x, n);
    Assoc(TagBytes(1, LENGTH_DELIMITED), LengthDelimited(body), rest);
    TagRoundTrip(1, LENGTH_DELIMITED, LengthDelimited(body) + rest);
    BytesRoundTrip(body, rest);
    SkipsUnknown(us, [], acc + [x]);
    assert rest + [] == rest;
  }

  /** What can be written: representable timestamps and messages whose lengths fit 64 bits. */
  ghost predicate Representable(x: FrameTransform) {
    FIRST_REPRESENTABLE <= x.timestamp <= MAX_TIMESTAMP && |FrameBytes(x)| < TWO64
  }

  lemma SilentlyWritable(x: FrameTransform)
    requires Representable(x)
    ensures Writable(x, Silence)
  {
    QuietFrame(x);
  }

  lemma {:induction false} QuietList(xs: seq<FrameTransform>)
    ensures NoisyList(xs, Silent(|xs|), Quiet(|xs| + 1)) == ListBytes(xs)
  {
    if xs != [] {
      var n := |xs|;
      QuietList(xs[..n - 1]);
      QuietFrame(xs[n - 1]);
      QuietPrefix(n);
      assert Silent(n)[..n - 1] == Silent(n - 1);
      var m := MessageField(1, FrameBytes(xs[n - 1]));
      assert m + UnknownBytes([]) == m;
    }
  }

  lemma SilentList(xs: seq<FrameTransform>)
    requires forall i | 0 <= i < |xs| :: Representable(xs[i])
    ensures ListOk(xs, Silent(|xs|), Quiet(|xs| + 1))
  {
    forall i | 0 <= i < |xs| ensures Writable(xs[i], Silence) {
      SilentlyWritable(xs[i]);
    }
  }

  /**
   * Decoding undoes encoding for every non-empty list; the empty list is written as the empty buffer, which is refused.
   */
  lemma RoundTrip(xs: seq<FrameTransform>)
    requires forall i | 0 <= i < |xs| :: Representable(xs[i])
    ensures Deserialize(ListBytes(xs)) == if xs == [] then None else Some(xs)
  {
    if xs != [] {
      SilentList(xs);
      QuietList(xs);
      NoisyListReads(xs, Silent(|xs|), Quiet(|xs| + 1));
    }
  }
}
