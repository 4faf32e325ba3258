/** The codec as it runs: writers that append to buffers, and field loops that move a reader. */
module FrameTransformsIo {
  import opened Samples
  import opened WireFormat
  import opened MessageFields
  import opened GeometryCodec
  import opened FrameTransformsCodec
  import opened WireStreams

  // ---------------------------------------------------------------- writing

  method WriteTimestamp(w: Writer, t: Timestamp)
    modifies w
    ensures w.out == old(w.out) + TimestampBytes(t)
  {
    var p := SplitTimestamp(t);
    w.VarintField(1, Unsigned(p.seconds, TWO64));
    w.VarintField(2, Unsigned(p.nanos, TWO32));
  }

  lemma DoublesAppend(values: seq<Double>, d: Double)
    ensures DoublesBytes(values + [d]) == DoublesBytes(values) + DoubleField(|values| + 1, d)
  {
    assert (values + [d])[..|values|] == values;
  }

  lemma VectorBytes(v: seq<Double>)
    requires |v| == 3
    ensures DoublesBytes(v) == DoubleField(1, v[0]) + DoubleField(2, v[1]) + DoubleField(3, v[2])
  {
    DoublesAppend([], v[0]);
    DoublesAppend([v[0]], v[1]);
    DoublesAppend([v[0], v[1]], v[2]);
    assert [] + [v[0]] == [v[0]] && [v[0]] + [v[1]] == [v[0], v[1]] && [v[0], v[1]] + [v[2]] == v;
  }

  lemma QuaternionBytes(q: seq<Double>)
    requires |q| == 4
    ensures DoublesBytes(q) == DoubleField(1, q[0]) + DoubleField(2, q[1]) + DoubleField(3, q[2]) + DoubleField(4, q[3])
  {
    VectorBytes(q[..3]);
    DoublesAppend(q[..3], q[3]);
    assert q[..3] + [q[3]] == q;
  }

  method WriteVector3(w: Writer, v: Vector3)
    modifies w
    ensures w.out == old(w.out) + DoublesBytes(v)
  {
    w.Fixed64Field(1, v[0]);
    w.Fixed64Field(2, v[1]);
    w.Fixed64Field(3, v[2]);
    VectorBytes(v);
    Regroup3(old(w.out), DoubleField(1, v[0]), DoubleField(2, v[1]), DoubleField(3, v[2]));
  }

  lemma Regroup3(o: Bytes, a: Bytes, b: Bytes, c: Bytes)
    ensures o + a + b + c == o + (a + b + c)
  {
  }

  method WriteQuaternion(w: Writer, q: Quaternion)
    modifies w
    ensures w.out == old(w.out) + DoublesBytes(q)
  {
    w.Fixed64Field(1, q[0]);
    w.Fixed64Field(2, q[1]);
    w.Fixed64Field(3, q[2]);
    w.Fixed64Field(4, q[3]);
    QuaternionBytes(q);
    Regroup3(old(w.out), DoubleField(1, q[0]), DoubleField(2, q[1]), DoubleField(3, q[2]));
    Assoc(old(w.out), DoubleField(1, q[0]) + DoubleField(2, q[1]) + DoubleField(3, q[2]), DoubleField(4, q[3]));
  }

  lemma Regroup5(o: Bytes, a: Bytes, b: Bytes, c: Bytes, d: Bytes, e: Bytes)
    ensures o + a + b + c + d + e == o + (a + (b + (c + (d + e))))
  {
  }

  method NestedTimestamp(w: Writer, field: nat, t: Timestamp)
    modifies w
    ensures w.out == old(w.out) + MessageField(field, TimestampBytes(t))
  {
    var nested := new Writer();
    WriteTimestamp(nested, t);
    assert nested.out == TimestampBytes(t);
    w.BytesField(field, nested.out);
  }

  method NestedVector3(w: Writer, field: nat, v: Vector3)
    modifies w
    ensures w.out == old(w.out) + MessageField(field, DoublesBytes(v))
  {
    var nested := new Writer();
    WriteVector3(nested, v);
    assert nested.out == DoublesBytes(v);
    w.BytesField(field, nested.out);
  }

  method NestedQuaternion(w: Writer, field: nat, q: Quaternion)
    modifies w
    ensures w.out == old(w.out) + MessageField(field, DoublesBytes(q))
  {
    var nested := new Writer();
    WriteQuaternion(nested, q);
    assert nested.out == DoublesBytes(q);
    w.BytesField(field, nested.out);
  }

  method WriteFrame(w: Writer, x: FrameTransform)
    modifies w
    ensures w.out == old(w.out) + FrameBytes(x)
  {
    NestedTimestamp(w, 1, x.timestamp);
    w.BytesField(2, x.parent);
    w.BytesField(3, x.child);
    NestedVector3(w, 4, x.translation);
    NestedQuaternion(w, 5, x.rotation);
    Regroup5(old(w.out), MessageField(1, TimestampBytes(x.timestamp)), MessageField(2, x.parent),
        MessageField(3, x.child),
             MessageField(4, DoublesBytes(x.translation)), MessageField(5, DoublesBytes(x.rotation)));
  }

  lemma ListAppend(xs: seq<FrameTransform>, x: FrameTransform)
    ensures ListBytes(xs + [x]) == ListBytes(xs) + MessageField(1, FrameBytes(x))
  {
    assert (xs + [x])[..|xs|] == xs;
  }

  method SerializeFrameTransforms(xs: seq<FrameTransform>) returns (out: Bytes)
    ensures out == ListBytes(xs)
  {
    var w := new Writer();
    for i := 0 to |xs|
      invariant fresh(w) && w.out == ListBytes(xs[..i])
    {
      assert xs[..i + 1] == xs[..i] + [xs[i]];
      ListAppend(xs[..i], xs[i]);
      var nested := new Writer();
      WriteFrame(nested, xs[i]);
      assert nested.out == FrameBytes(xs[i]);
      w.BytesField(1, nested.out);
    }
    assert xs[..|xs|] == xs;
    out := w.out;
  }

  // ---------------------------------------------------------------- reading

  method TakeTimestampField(tag: Tag, r: Reader, parts: TimeParts) returns (ok: bool, parts': TimeParts)
    requires r.Valid()
    modifies r
    ensures r.Valid() && Handled(ok, parts', r.Rest()) == TimestampField(tag, old(r.Rest()), parts)
  {
    if tag.wire != VARINT {
      return false, parts;
    }
    var read, value := r.ReadVarint();
    if !read {
      return false, parts;
    }
    if tag.field == 1 {
      return true, parts.(seconds := Signed(value, TWO64));
    }
    if tag.field == 2 {
      return true, parts.(nanos := Signed(value, TWO32));
    }
    return false, parts;
  }

  method ReadTimestamp(body: Bytes) returns (t: Option<Timestamp>)
    ensures t == DecodeTimestamp(body)
  {
    TimestampFieldOk();
    var r := new Reader(body);
    var parts := TimeParts(0, 0);
    while !r.AtEnd()
      invariant fresh(r) && r.Valid()
      invariant ParseFields(TimestampField, body, TimeParts(0, 0)) == ParseFields(TimestampField, r.Rest(), parts)
      decreases |r.Rest()|
    {
      StepForward(TimestampField, r.Rest(), parts);
      var read, tag := r.ReadTag();
      if !read {
        return None;
      }
      var taken;
      taken, parts := TakeTimestampField(tag, r, parts);
      if !taken {
        var skipped := r.Skip(tag.wire);
        if !skipped {
          return None;
        }
      }
    }
    return CombineTimestamp(parts);
  }

  method TakeComponent(tag: Tag, r: Reader, values: seq<Double>) returns (ok: bool, values': seq<Double>)
    requires r.Valid()
    modifies r
    ensures r.Valid() && Handled(ok, values', r.Rest()) == DoublesField(tag, old(r.Rest()), values)
  {
    if tag.wire != FIXED64 || tag.field < 1 || tag.field > |values| {
      return false, values;
    }
    ghost var s := r.Rest();
    var read, bits := r.ReadFixed(8);
    if !read {
      return false, values;
    }
    WordBound(s[..8]);
    WordSizes();
    return true, values[tag.field - 1 := bits];
  }

  /** A vector or quaternion: the components found overwrite the given ones, also when the message turns out bad. */
  method ReadDoubles(body: Bytes, init: seq<Double>) returns (ok: bool, values: seq<Double>)
    ensures ParseDoubles(body, init) == Parsed(ok, values)
  {
    DoublesFieldOk();
    var r := new Reader(body);
    values := init;
    while !r.AtEnd()
      invariant fresh(r) && r.Valid()
      invariant ParseFields(DoublesField, body, init) == ParseFields(DoublesField, r.Rest(), values)
      decreases |r.Rest()|
    {
      StepForward(DoublesField, r.Rest(), values);
      var read, tag := r.ReadTag();
      if !read {
        return false, values;
      }
      var taken;
      taken, values := TakeComponent(tag, r, values);
      if !taken {
        var skipped := r.Skip(tag.wire);
        if !skipped {
          return false, values;
        }
      }
    }
    ok := true;
  }

  method TakeFrameField(tag: Tag, r: Reader, x: FrameTransform) returns (ok: bool, x': FrameTransform)
    requires r.Valid()
    modifies r
    ensures r.Valid() && Handled(ok, x', r.Rest()) == FrameField(tag, old(r.Rest()), x)
  {
    if tag.wire != LENGTH_DELIMITED || tag.field < 1 || tag.field > 5 {
      return false, x;
    }
    var read, body := r.ReadBytes();
    if !read {
      return false, x;
    }
    if tag.field == 1 {
      var t := ReadTimestamp(body);
      if t.Some? {
        return true, x.(timestamp := t.value);
      }
      return false, x;
    } else if tag.field == 2 {
      return true, x.(parent := body);
    } else if tag.field == 3 {
      return true, x.(child := body);
    } else if tag.field == 4 {
      var v;
      ok, v := ReadDoubles(body, x.translation);
      return ok, x.(translation := v);
    } else {
      var q;
      ok, q := ReadDoubles(body, x.rotation);
      return ok, x.(rotation := q);
    }
  }

  method ReadFrame(body: Bytes) returns (x: Option<FrameTransform>)
    ensures x == DecodeFrame(body)
  {
    FrameFieldOk();
    var r := new Reader(body);
    var frame := DefaultFrame;
    while !r.AtEnd()
      invariant fresh(r) && r.Valid()
      invariant ParseFields(FrameField, body, DefaultFrame) == ParseFields(FrameField, r.Rest(), frame)
      decreases |r.Rest()|
    {
      StepForward(FrameField, r.Rest(), frame);
      var read, tag := r.ReadTag();
      if !read {
        return None;
      }
      var taken;
      taken, frame := TakeFrameField(tag, r, frame);
      if !taken {
        var skipped := r.Skip(tag.wire);
        if !skipped {
          return None;
        }
      }
    }
    return Some(frame);
  }

  method DeserializeFrameTransforms(s: Bytes) returns (xs: Option<seq<FrameTransform>>)
    ensures xs == Deserialize(s)
  {
    if |s| == 0 {
      return None;
    }
    var r := new Reader(s);
    var list := [];
    while !r.AtEnd()
      invariant fresh(r) && r.Valid()
      invariant DecodeFrom(s, []) == DecodeFrom(r.Rest(), list)
      decreases |r.Rest()|
    {
      var read, tag := r.ReadTag();
      if !read {
        return None;
      }
      if tag.wire != LENGTH_DELIMITED {
        var skipped := r.Skip(tag.wire);
        if !skipped {
          return None;
        }
      } else {
        var nested, body := r.ReadBytes();
        if !nested {
          return None;
        }
        if tag.field == 1 {
          var x := ReadFrame(body);
          if x.None? {
            return None;
          }
          list := list + [x.value];
        }
      }
    }
    return Some(list);
  }
}
