/** Timestamps, vectors and quaternions on the wire. */
module GeometryCodec {
  import opened Samples
  import opened WireFormat
  import opened MessageFields

  // ---------------------------------------------------------------- machine integers

  /** A signed value as the unsigned word of the given modulus. */
  function Unsigned(x: int, modulus: nat): nat
    requires 0 < modulus
  {
    x % (modulus as int)
  }

  /** An unsigned value narrowed to a word and read as two's complement. */
  function Signed(v: nat, modulus: nat): int
    requires 0 < modulus
  {
    var w := v % modulus;
    if 2 * w < modulus then w else w - modulus
  }

  /** Signed 64-bit values survive the trip through an unsigned word. */
  lemma Signed64(x: int)
    requires -0x8000_0000_0000_0000 <= x < 0x8000_0000_0000_0000
    ensures Unsigned(x, TWO64) < TWO64 && Signed(Unsigned(x, TWO64), TWO64) == x
  {
  }

  /** So do signed 32-bit values, also when the word is zero-extended to 64 bits on the way. */
  lemma Signed32(x: int)
    requires -0x8000_0000 <= x < 0x8000_0000
    ensures Unsigned(x, TWO32) < TWO32 && Signed(Unsigned(x, TWO32), TWO32) == x
  {
  }

  // ---------------------------------------------------------------- timestamps

  const SECOND: nat := 1_000_000_000

  datatype TimeParts = TimeParts(seconds: int, nanos: int)

  /** Division that rounds toward zero. */
  function TruncDiv(a: int, b: nat): int
    requires 0 < b
  {
    if a >= 0 then a / b else -((-a) / b)
  }

  function TruncMod(a: int, b: nat): int
    requires 0 < b
  {
    a - TruncDiv(a, b) * b
  }

  function SplitTimestamp(t: Timestamp): TimeParts {
    var seconds, nanos := TruncDiv(t, SECOND), TruncMod(t, SECOND);
    if nanos < 0 then TimeParts(seconds - 1, nanos + SECOND) else TimeParts(seconds, nanos)
  }

  function CombineTimestamp(parts: TimeParts): Option<Timestamp> {
    if parts.nanos < 0 || parts.nanos >= SECOND then None
    else if parts.seconds > TruncDiv(MAX_TIMESTAMP, SECOND) || parts.seconds < TruncDiv(MIN_TIMESTAMP, SECOND) then None
    else if parts.seconds * SECOND > MAX_TIMESTAMP - parts.nanos then None
    else Some(parts.seconds * SECOND + parts.nanos)
  }

  /** Splitting rounds the seconds down and leaves nanoseconds in [0, 10^9). */
  lemma SplitMeaning(t: Timestamp)
    ensures var p := SplitTimestamp(t); t == p.seconds * SECOND + p.nanos && 0 <= p.nanos < SECOND
  {
  }

  lemma WholeSeconds()
    ensures TruncDiv(MAX_TIMESTAMP, SECOND) == 9_223_372_036 && TruncDiv(MIN_TIMESTAMP, SECOND) == -9_223_372_036
  {
  }

  /** The smallest timestamp that survives: the range check on seconds rounds toward zero, the split rounds down. */
  const FIRST_REPRESENTABLE: Timestamp := -9_223_372_036 * SECOND

  /** Combining undoes splitting exactly for the timestamps from -9223372036 whole seconds on, and fails below. */
  lemma CombineSplit(t: Timestamp)
    requires MIN_TIMESTAMP <= t <= MAX_TIMESTAMP
    ensures CombineTimestamp(SplitTimestamp(t)) == if t >= FIRST_REPRESENTABLE then Some(t) else None
  {
    SplitMeaning(t);
    WholeSeconds();
    var p := SplitTimestamp(t);
    if t >= FIRST_REPRESENTABLE {
      assert p.seconds >= -9_223_372_036;
      assert p.seconds <= 9_223_372_036;
    } else {
      assert p.seconds < -9_223_372_036;
    }
  }

  function VarintField(field: nat, v: nat): Bytes {
    TagBytes(field, VARINT) + Varint(v)
  }

  function TimestampBytes(t: Timestamp): Bytes {
    var p := SplitTimestamp(t);
    VarintField(1, Unsigned(p.seconds, TWO64)) + VarintField(2, Unsigned(p.nanos, TWO32))
  }

  /** Reads the varint first and looks at the field number afterwards. */
  function TimestampField(tag: Tag, s: Bytes, st: TimeParts): Handled<TimeParts> {
    if tag.wire != VARINT then Handled(false, st, s)
    else
      var r := ReadVarint(s);
      if !r.ok then Handled(false, st, r.rest)
      else if tag.field == 1 then Handled(true, st.(seconds := Signed(r.value, TWO64)), r.rest)
      else if tag.field == 2 then Handled(true, st.(nanos := Signed(r.value, TWO32)), r.rest)
      else Handled(false, st, r.rest)
  }

  lemma TimestampFieldOk()
    ensures Forward(TimestampField) && Local(TimestampField)
  {
    forall tag, s, st, suffix ensures LocalAt(TimestampField, tag, s, st, suffix) {
      if tag.wire == VARINT && ReadVarint(s).ok {
        VarintLocalAt(s, 0, suffix);
      }
    }
  }

  function DecodeTimestamp(s: Bytes): Option<Timestamp> {
    TimestampFieldOk();
    var p := ParseFields(TimestampField, s, TimeParts(0, 0));
    if p.ok then CombineTimestamp(p.state) else None
  }

  /** Fields of newer writers around the two of a timestamp. */
  function NoisyTimestamp(t: Timestamp, a: seq<Unknown>, b: seq<Unknown>, c: seq<Unknown>): Bytes {
    var p := SplitTimestamp(t);
    UnknownBytes(a) + (VarintField(1, Unsigned(p.seconds, TWO64))
    + (UnknownBytes(b) + (VarintField(2, Unsigned(p.nanos, TWO32)) + UnknownBytes(c))))
  }

  /** Well-formed fields that are not varints. */
  ghost predicate NotVarints(us: seq<Unknown>) {
    forall i | 0 <= i < |us| :: WellFormed(us[i]) && us[i].wire != VARINT
  }

  /**
   * Every representable timestamp reads back, whatever fields other than varints surround it; the others are refused.
   */
  lemma NoisyTimestampReads(t: Timestamp, a: seq<Unknown>, b: seq<Unknown>, c: seq<Unknown>)
    requires MIN_TIMESTAMP <= t <= MAX_TIMESTAMP && NotVarints(a) && NotVarints(b) && NotVarints(c)
    ensures DecodeTimestamp(NoisyTimestamp(t, a, b, c)) == if t >= FIRST_REPRESENTABLE then Some(t) else None
  {
    TimestampFieldOk();
    SplitMeaning(t);
    CombineSplit(t);
    var p := SplitTimestamp(t);
    var last := VarintField(2, Unsigned(p.nanos, TWO32)) + UnknownBytes(c);
    NoiseSkipped(TimestampField, a, VarintField(1, Unsigned(p.seconds, TWO64)) + (UnknownBytes(b) + last),
        TimeParts(0, 0));
    SecondsParse(p, UnknownBytes(b) + last, TimeParts(0, 0));
    NoiseSkipped(TimestampField, b, last, TimeParts(p.seconds, 0));
    NanosParse(p, UnknownBytes(c), TimeParts(p.seconds, 0));
    NoiseSkipped(TimestampField, c, [], p);
    assert UnknownBytes(c) + [] == UnknownBytes(c);
  }

  lemma QuietTimestamp(t: Timestamp)
    ensures NoisyTimestamp(t, [], [], []) == TimestampBytes(t)
  {
    var p := SplitTimestamp(t);
    var a, b := VarintField(1, Unsigned(p.seconds, TWO64)), VarintField(2, Unsigned(p.nanos, TWO32));
    assert [] + (a + ([] + (b + []))) == a + b;
  }

  lemma TimestampRoundTrip(t: Timestamp)
    requires MIN_TIMESTAMP <= t <= MAX_TIMESTAMP
    ensures DecodeTimestamp(TimestampBytes(t)) == if t >= FIRST_REPRESENTABLE then Some(t) else None
  {
    NoisyTimestampReads(t, [], [], []);
    QuietTimestamp(t);
  }

  lemma SecondsParse(p: TimeParts, rest: Bytes, st: TimeParts)
    requires MIN_TIMESTAMP <= p.seconds <= MAX_TIMESTAMP && Forward(TimestampField)
    ensures ParseFields(TimestampField, VarintField(1, Unsigned(p.seconds, TWO64)) + rest, st)
            == ParseFields(TimestampField, rest, st.(seconds := p.seconds))
  {
    var v := Unsigned(p.seconds, TWO64);
    Signed64(p.seconds);
    VarintRoundTrip(v, rest);
    ParseTaken(TimestampField, 1, VARINT, Varint(v), rest, st, st.(seconds := p.seconds));
  }

  lemma NanosParse(p: TimeParts, rest: Bytes, st: TimeParts)
    requires 0 <= p.nanos < SECOND && Forward(TimestampField)
    ensures ParseFields(TimestampField, VarintField(2, Unsigned(p.nanos, TWO32)) + rest, st)
            == ParseFields(TimestampField, rest, st.(nanos := p.nanos))
  {
    var v := Unsigned(p.nanos, TWO32);
    Signed32(p.nanos);
    VarintRoundTrip(v, rest);
    ParseTaken(TimestampField, 2, VARINT, Varint(v), rest, st, st.(nanos := p.nanos));
  }

  // ---------------------------------------------------------------- messages of doubles

  /** A double, as its 64 bits. */
  type Double = d: nat | d < 0x1_0000_0000_0000_0000

  function ReadDouble(s: Bytes): (r: Read<Double>)
    ensures |r.rest| <= |s|
  {
    if |s| < 8 then Read(false, 0, s)
    else
      WordBound(s[..8]);
      WordSizes();
      Read(true, Word(s[..8]), s[8..])
  }

  function DoubleField(field: nat, d: Double): Bytes {
    TagBytes(field, FIXED64) + FixedBytes(d, 8)
  }

  /** Fields 1, 2, 3, ... hold the components in order. */
  function DoublesBytes(values: seq<Double>): Bytes {
    if values == [] then []
    else DoublesBytes(values[..|values| - 1]) + DoubleField(|values|, values[|values| - 1])
  }

  function DoublesField(tag: Tag, s: Bytes, st: seq<Double>): Handled<seq<Double>> {
    if tag.wire != FIXED64 || tag.field < 1 || tag.field > |st| then Handled(false, st, s)
    else
      var r := ReadDouble(s);
      if r.ok then Handled(true, st[tag.field - 1 := r.value], r.rest) else Handled(false, st, s)
  }

  lemma DoublesFieldOk()
    ensures Forward(DoublesField) && Local(DoublesField)
  {
    forall tag, s, st, suffix ensures LocalAt(DoublesField, tag, s, st, suffix) {
      if tag.wire == FIXED64 && |s| >= 8 {
        assert (s + suffix)[..8] == s[..8] && (s + suffix)[8..] == s[8..] + suffix;
      }
    }
  }

  lemma {:induction false} DoublesKeepLength(s: Bytes, st: seq<Double>)
    requires Forward(DoublesField)
    ensures |ParseFields(DoublesField, s, st).state| == |st|
    decreases |s|
  {
    if s != [] && Step(DoublesField, s, st).ok {
      StepForward(DoublesField, s, st);
      DoublesKeepLength(Step(DoublesField, s, st).rest, Step(DoublesField, s, st).state);
    }
  }

  function ParseDoubles(s: Bytes, init: seq<Double>): (r: Parsed<seq<Double>>)
    ensures |r.state| == |init|
  {
    DoublesFieldOk();
    DoublesKeepLength(s, init);
    ParseFields(DoublesField, s, init)
  }

  lemma DoubleReadsBack(d: Double, rest: Bytes)
    ensures ReadDouble(FixedBytes(d, 8) + rest) == Read(true, d, rest)
  {
    WordSizes();
    FixedReadsBack(d, 8, rest);
  }

  lemma DoubleParse(field: nat, d: Double, rest: Bytes, st: seq<Double>)
    requires 1 <= field <= |st| && field < TWO32 && Forward(DoublesField)
    ensures ParseFields(DoublesField, DoubleField(field, d) + rest, st)
              == ParseFields(DoublesField, rest, st[field - 1 := d])
  {
    DoubleReadsBack(d, rest);
    ParseTaken(DoublesField, field, FIXED64, FixedBytes(d, 8), rest, st, st[field - 1 := d]);
  }

  /** Fields of newer writers around the components. */
  function NoisyDoubles(values: seq<Double>, noise: seq<seq<Unknown>>): Bytes
    requires |noise| == |values| + 1
  {
    if values == [] then UnknownBytes(noise[0])
    else
      var n := |values|;
      NoisyDoubles(values[..n - 1], noise[..n]) + (DoubleField(n, values[n - 1]) + UnknownBytes(noise[n]))
  }

  /** Well-formed fields that are none of the first `n` fixed64 fields. */
  ghost predicate NotComponents(us: seq<Unknown>, n: nat) {
    forall i | 0 <= i < |us| :: WellFormed(us[i]) && (us[i].wire != FIXED64 || us[i].field > n)
  }

  /** The components written overwrite those of the initial value, in place, and nothing else matters. */
  lemma {:induction false} NoisyDoublesParse(values: seq<Double>, noise: seq<seq<Unknown>>, rest: Bytes,
                                             st: seq<Double>)
    requires |values| <= |st| < TWO32 && Forward(DoublesField)
    requires |noise| == |values| + 1 && forall i | 0 <= i < |noise| :: NotComponents(noise[i], |st|)
    ensures ParseFields(DoublesField, NoisyDoubles(values, noise) + rest, st)
            == ParseFields(DoublesField, rest, values + st[|values|..])
  {
    if values == [] {
      NoiseSkipped(DoublesField, noise[0], rest, st);
      assert values + st[0..] == st;
    } else {
      var n := |values|;
      var front, last := values[..n - 1], values[n - 1];
      FrontAndLast(values);
      var after := UnknownBytes(noise[n]) + rest;
      Assoc(NoisyDoubles(front, noise[..n]), DoubleField(n, last) + UnknownBytes(noise[n]), rest);
      Assoc(DoubleField(n, last), UnknownBytes(noise[n]), rest);
      NoisyDoublesParse(front, noise[..n], DoubleField(n, last) + after, st);
      NextComponent(front, last, noise[n], rest, st);
    }
  }

  lemma LastComponent(front: seq<Double>, last: Double, st: seq<Double>)
    requires |front| < |st|
    ensures |front + st[|front|..]| == |st|
    ensures (front + st[|front|..])[|front| := last] == front + [last] + st[|front| + 1..]
  {
  }

  lemma NextComponent(front: seq<Double>, last: Double, us: seq<Unknown>, rest: Bytes, st: seq<Double>)
    requires |front| < |st| < TWO32 && Forward(DoublesField) && NotComponents(us, |st|)
    ensures ParseFields(DoublesField, DoubleField(|front| + 1, last) + (UnknownBytes(us) + rest), front + st[|front|..])
            == ParseFields(DoublesField, rest, front + [last] + st[|front| + 1..])
  {
    LastComponent(front, last, st);
    DoubleParse(|front| + 1, last, UnknownBytes(us) + rest, front + st[|front|..]);
    ComponentsIgnore(us, front + [last] + st[|front| + 1..]);
    NoiseSkipped(DoublesField, us, rest, front + [last] + st[|front| + 1..]);
  }

  lemma ComponentsIgnore(us: seq<Unknown>, st: seq<Double>)
    requires NotComponents(us, |st|)
    ensures Noise(DoublesField, us, st)
  {
  }

  /** Vectors (three components) and quaternions (four) read back exactly, bit for bit, whatever surrounds them. */
  lemma NoisyDoublesRead(values: seq<Double>, noise: seq<seq<Unknown>>, init: seq<Double>)
    requires |values| == |init| < TWO32
    requires |noise| == |values| + 1 && forall i | 0 <= i < |noise| :: NotComponents(noise[i], |init|)
    ensures ParseDoubles(NoisyDoubles(values, noise), init) == Parsed(true, values)
  {
    DoublesFieldOk();
    NoisyDoublesParse(values, noise, [], init);
    assert NoisyDoubles(values, noise) + [] == NoisyDoubles(values, noise);
    assert values + init[|values|..] == values;
  }

  function Quiet(n: nat): (noise: seq<seq<Unknown>>)
    ensures |noise| == n && forall i | 0 <= i < n :: noise[i] == []
  {
    seq(n, i => [])
  }

  lemma QuietPrefix(n: nat)
    ensures Quiet(n + 1)[..n] == Quiet(n)
  {
  }

  lemma {:induction false} QuietDoubles(values: seq<Double>)
    ensures NoisyDoubles(values, Quiet(|values| + 1)) == DoublesBytes(values)
  {
    if values != [] {
      var n := |values|;
      QuietDoubles(values[..n - 1]);
      QuietPrefix(n);
      assert DoubleField(n, values[n - 1]) + UnknownBytes([]) == DoubleField(n, values[n - 1]);
    }
  }
}
