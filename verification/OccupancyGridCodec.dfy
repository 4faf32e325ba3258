/** Updates of an occupancy grid: signed 32-bit offsets travel as zero-extended varints. */
module OccupancyGridCodec {
  import opened Samples
  import opened WireFormat
  import opened MessageFields
  import opened GeometryCodec

  datatype GridUpdate = GridUpdate(timestamp: Timestamp, frame: Bytes, x: int, y: int, width: nat, height: nat,
      data: Bytes)

  const EmptyUpdate := GridUpdate(0, [], 0, 0, 0, 0, [])

  function BytesField(field: nat, body: Bytes): Bytes {
    TagBytes(field, LENGTH_DELIMITED) + LengthDelimited(body)
  }

  function SizeBytes(u: GridUpdate): Bytes {
    VarintField(3, Unsigned(u.x, TWO32)) + (VarintField(4, Unsigned(u.y, TWO32))
    + (VarintField(5, u.width) + (VarintField(6, u.height) + BytesField(7, u.data))))
  }

  function UpdateBytes(u: GridUpdate): Bytes {
    BytesField(1, TimestampBytes(u.timestamp)) + (BytesField(2, u.frame) + SizeBytes(u))
  }

  function GridField(tag: Tag, s: Bytes, st: GridUpdate): Handled<GridUpdate> {
    if tag.field == 1 || tag.field == 2 || tag.field == 7 then
      if tag.wire != LENGTH_DELIMITED then Handled(false, st, s)
      else
        var b := ReadBytes(s);
        if !b.ok then Handled(false, st, b.rest)
        else if tag.field == 2 then Handled(true, st.(frame := b.value), b.rest)
        else if tag.field == 7 then Handled(true, st.(data := b.value), b.rest)
        else
          var t := DecodeTimestamp(b.value);
          if t.Some? then Handled(true, st.(timestamp := t.value), b.rest) else Handled(false, st, b.rest)
    else if 3 <= tag.field <= 6 then
      if tag.wire != VARINT then Handled(false, st, s)
      else
        var v := ReadVarint(s);
        if !v.ok then Handled(false, st, v.rest)
        else if tag.field == 3 then Handled(true, st.(x := Signed(v.value, TWO32)), v.rest)
        else if tag.field == 4 then Handled(true, st.(y := Signed(v.value, TWO32)), v.rest)
        else if tag.field == 5 then Handled(true, st.(width := v.value % TWO32), v.rest)
        else Handled(true, st.(height := v.value % TWO32), v.rest)
    else Handled(false, st, s)
  }

  lemma GridFieldForward()
    ensures Forward(GridField)
  {
  }

  function Decode(s: Bytes): Option<GridUpdate> {
    GridFieldForward();
    if s == [] then None
    else
      var p := ParseFields(GridField, s, EmptyUpdate);
      if p.ok then Some(p.state) else None
  }

  /** What the C++ types can hold, with a timestamp the wire can carry. */
  ghost predicate Representable(u: GridUpdate) {
    && FIRST_REPRESENTABLE <= u.timestamp <= MAX_TIMESTAMP
    && -0x8000_0000 <= u.x < 0x8000_0000 && -0x8000_0000 <= u.y < 0x8000_0000
    && u.width < TWO32 && u.height < TWO32 && |UpdateBytes(u)| < TWO64
  }

  lemma BytesParse(field: nat, body: Bytes, rest: Bytes, st: GridUpdate, st': GridUpdate)
    requires 0 < field < 8 && |body| < TWO64 && Forward(GridField)
    requires GridField(Tag(field, LENGTH_DELIMITED), LengthDelimited(body) + rest, st) == Handled(true, st', rest)
    ensures ParseFields(GridField, BytesField(field, body) + rest, st) == ParseFields(GridField, rest, st')
  {
    ParseTaken(GridField, field, LENGTH_DELIMITED, LengthDelimited(body), rest, st, st');
  }

  lemma VarintParse(field: nat, v: nat, rest: Bytes, st: GridUpdate, st': GridUpdate)
    requires 3 <= field <= 6 && v < TWO64 && Forward(GridField)
    requires GridField(Tag(field, VARINT), Varint(v) + rest, st) == Handled(true, st', rest)
    ensures ParseFields(GridField, VarintField(field, v) + rest, st) == ParseFields(GridField, rest, st')
  {
    ParseTaken(GridField, field, VARINT, Varint(v), rest, st, st');
  }

  lemma OffsetParse(field: nat, offset: int, rest: Bytes, st: GridUpdate)
    requires 3 <= field <= 4 && -0x8000_0000 <= offset < 0x8000_0000 && Forward(GridField)
    ensures ParseFields(GridField, VarintField(field, Unsigned(offset, TWO32)) + rest, st)
            == ParseFields(GridField, rest, if field == 3 then st.(x := offset) else st.(y := offset))
  {
    var v := Unsigned(offset, TWO32);
    Signed32(offset);
    VarintRoundTrip(v, rest);
    VarintParse(field, v, rest, st, if field == 3 then st.(x := offset) else st.(y := offset));
  }

  lemma ExtentParse(field: nat, extent: nat, rest: Bytes, st: GridUpdate)
    requires 5 <= field <= 6 && extent < TWO32 && Forward(GridField)
    ensures ParseFields(GridField, VarintField(field, extent) + rest, st)
            == ParseFields(GridField, rest, if field == 5 then st.(width := extent) else st.(height := extent))
  {
    VarintRoundTrip(extent, rest);
    assert extent % TWO32 == extent;
    VarintParse(field, extent, rest, st, if field == 5 then st.(width := extent) else st.(height := extent));
  }

  lemma SizeParse(u: GridUpdate, st: GridUpdate)
    requires Representable(u) && Forward(GridField)
    ensures ParseFields(GridField, SizeBytes(u), st)
            == Parsed(true, st.(x := u.x, y := u.y, width := u.width, height := u.height, data := u.data))
  {
    var from7 := BytesField(7, u.data);
    var from6 := VarintField(6, u.height) + from7;
    var from5 := VarintField(5, u.width) + from6;
    OffsetParse(3, u.x, VarintField(4, Unsigned(u.y, TWO32)) + from5, st);
    OffsetParse(4, u.y, from5, st.(x := u.x));
    ExtentParse(5, u.width, from6, st.(x := u.x, y := u.y));
    ExtentParse(6, u.height, from7, st.(x := u.x, y := u.y, width := u.width));
    var sized := st.(x := u.x, y := u.y, width := u.width, height := u.height);
    BytesRoundTrip(u.data, []);
    BytesParse(7, u.data, [], sized, sized.(data := u.data));
    assert from7 + [] == from7;
  }

  lemma PartsFit(u: GridUpdate)
    requires Representable(u)
    ensures |TimestampBytes(u.timestamp)| < TWO64 && |u.frame| < TWO64 && |u.data| < TWO64
  {
  }

  /** Every update reads back exactly, with the full range of signed offsets. */
  lemma RoundTrip(u: GridUpdate)
    requires Representable(u)
    ensures Decode(UpdateBytes(u)) == Some(u)
  {
    GridFieldForward();
    PartsFit(u);
    var from2 := BytesField(2, u.frame) + SizeBytes(u);
    TimestampRoundTrip(u.timestamp);
    BytesRoundTrip(TimestampBytes(u.timestamp), from2);
    var stamped := EmptyUpdate.(timestamp := u.timestamp);
    BytesParse(1, TimestampBytes(u.timestamp), from2, EmptyUpdate, stamped);
    BytesRoundTrip(u.frame, SizeBytes(u));
    BytesParse(2, u.frame, SizeBytes(u), stamped, stamped.(frame := u.frame));
    SizeParse(u, stamped.(frame := u.frame));
  }
}
