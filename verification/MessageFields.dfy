/** The field loop shared by all message decoders. */
module MessageFields {
  import opened Samples
  import opened WireFormat

  /** What a field handler did: whether it took the field, the new state, and where it left the reader. */
  datatype Handled<+S> = Handled(ok: bool, state: S, rest: Bytes)

  datatype Parsed<+S> = Parsed(ok: bool, state: S)

  type Handler<!S> = (Tag, Bytes, S) -> Handled<S>

  /** Handlers only ever move the reader forwards. */
  ghost predicate Forward<S(!new)>(h: Handler<S>) {
    forall tag, s, state {:trigger h(tag, s, state)} :: |h(tag, s, state).rest| <= |s|
  }

  /** One field: the handler takes it, or it is skipped from wherever the handler left the reader. */
  function Step<S>(h: Handler<S>, s: Bytes, state: S): Handled<S> {
    var tag := ReadTag(s);
    if !tag.ok then Handled(false, state, tag.rest)
    else
      var r := h(tag.value, tag.rest, state);
      if r.ok then r
      else
        var skipped := Skip(tag.value.wire, r.rest);
        Handled(skipped.ok, r.state, skipped.rest)
  }

  lemma StepForward<S(!new)>(h: Handler<S>, s: Bytes, state: S)
    requires Forward(h)
    ensures Step(h, s, state).ok ==> |Step(h, s, state).rest| < |s|
  {
    var tag := ReadTag(s);
    if tag.ok {
      assert |h(tag.value, tag.rest, state).rest| <= |tag.rest|;
    }
  }

  function ParseFields<S(!new)>(h: Handler<S>, s: Bytes, state: S): Parsed<S>
    requires Forward(h)
    decreases |s|
  {
    if s == [] then Parsed(true, state)
    else
      var r := Step(h, s, state);
      StepForward(h, s, state);
      if r.ok then ParseFields(h, r.rest, r.state) else Parsed(false, r.state)
  }

  /** A complete field is handled the same way whatever follows it. */
  ghost predicate Local<S(!new)>(h: Handler<S>) {
    forall tag, s, state, suffix {:trigger h(tag, s + suffix, state)} :: LocalAt(h, tag, s, state, suffix)
  }

  ghost predicate LocalAt<S>(h: Handler<S>, tag: Tag, s: Bytes, state: S, suffix: Bytes) {
    Skip(tag.wire, s).ok ==> h(tag, s + suffix, state) == h(tag, s, state).(rest := h(tag, s, state).rest + suffix)
  }

  /** The handler takes exactly the field, or leaves it alone altogether. */
  ghost predicate CleanStep<S>(h: Handler<S>, s: Bytes, state: S) {
    var tag := ReadTag(s);
    && tag.ok && Skip(tag.value.wire, tag.rest).ok
    && var r := h(tag.value, tag.rest, state);
       r.rest == if r.ok then Skip(tag.value.wire, tag.rest).rest else tag.rest
  }

  /** A sequence of complete fields, none of which makes the handler lose its place. */
  ghost predicate Clean<S(!new)>(h: Handler<S>, s: Bytes, state: S)
    requires Forward(h)
    decreases |s|
  {
    s == [] ||
    (CleanStep(h, s, state) &&
     var r := Step(h, s, state);
     StepForward(h, s, state);
     r.ok && Clean(h, r.rest, r.state))
  }

  lemma StepLocal<S(!new)>(h: Handler<S>, s: Bytes, state: S, suffix: Bytes)
    requires Local(h) && CleanStep(h, s, state) && Step(h, s, state).ok
    ensures Step(h, s + suffix, state) == Step(h, s, state).(rest := Step(h, s, state).rest + suffix)
  {
    TagLocal(s, suffix);
    var tag := ReadTag(s);
    var r := h(tag.value, tag.rest, state);
    assert h(tag.value, tag.rest + suffix, state) == r.(rest := r.rest + suffix) by {
      assert LocalAt(h, tag.value, tag.rest, state, suffix);
    }
    if !r.ok {
      SkipLocal(tag.value.wire, r.rest, suffix);
    }
  }

  /** Messages may be cut at any field boundary: the second part continues from the state the first part left. */
  lemma {:induction false} ParseConcat<S(!new)>(h: Handler<S>, a: Bytes, b: Bytes, state: S)
    requires Forward(h) && Local(h) && Clean(h, a, state)
    ensures ParseFields(h, a, state).ok
    ensures ParseFields(h, a + b, state) == ParseFields(h, b, ParseFields(h, a, state).state)
    decreases |a|
  {
    if a == [] {
      assert a + b == b;
    } else {
      var r := Step(h, a, state);
      StepForward(h, a, state);
      StepLocal(h, a, state, b);
      ParseConcat(h, r.rest, b, r.state);
    }
  }

  /** The tag in front of a field is read, and the payload comes next. */
  lemma TagComesFirst(field: nat, wire: nat, payload: Bytes, rest: Bytes)
    requires 0 < field < TWO32 && wire < 8
    ensures ReadTag(TagBytes(field, wire) + payload + rest) == Read(true, Tag(field, wire), payload + rest)
    ensures TagBytes(field, wire) + payload + rest != []
  {
    assert TagBytes(field, wire) + payload + rest == TagBytes(field, wire) + (payload + rest);
    TagRoundTrip(field, wire, payload + rest);
  }

  /** A field that the handler takes. */
  lemma ParseTaken<S(!new)>(h: Handler<S>, field: nat, wire: nat, payload: Bytes, rest: Bytes, state: S, state': S)
    requires Forward(h) && 0 < field < TWO32 && wire < 8
    requires h(Tag(field, wire), payload + rest, state) == Handled(true, state', rest)
    ensures ParseFields(h, TagBytes(field, wire) + payload + rest, state) == ParseFields(h, rest, state')
  {
    TagComesFirst(field, wire, payload, rest);
  }

  lemma StepSkips<S(!new)>(h: Handler<S>, s: Bytes, tag: Tag, after: Bytes, rest: Bytes, state: S)
    requires ReadTag(s) == Read(true, tag, after) && h(tag, after, state) == Handled(false, state, after)
    requires Skip(tag.wire, after) == Read(true, (), rest)
    ensures Step(h, s, state) == Handled(true, state, rest)
  {
  }

  /** A field that the handler leaves alone, without moving the reader, has no effect. */
  lemma ParseSkipped<S(!new)>(h: Handler<S>, field: nat, wire: nat, payload: Bytes, rest: Bytes, state: S)
    requires Forward(h) && 0 < field < TWO32 && wire < 8
    requires h(Tag(field, wire), payload + rest, state) == Handled(false, state, payload + rest)
    requires Skip(wire, payload + rest) == Read(true, (), rest)
    ensures ParseFields(h, TagBytes(field, wire) + payload + rest, state) == ParseFields(h, rest, state)
  {
    TagComesFirst(field, wire, payload, rest);
    StepSkips(h, TagBytes(field, wire) + payload + rest, Tag(field, wire), payload + rest, rest, state);
  }

  /** A well-formed payload of the given wire type: skipping it leaves exactly what follows. */
  ghost predicate Payload(wire: nat, payload: Bytes) {
    Skip(wire, payload) == Read(true, (), [])
  }

  lemma PayloadSkips(wire: nat, payload: Bytes, rest: Bytes)
    requires Payload(wire, payload)
    ensures Skip(wire, payload + rest) == Read(true, (), rest)
  {
    SkipLocal(wire, payload, rest);
    assert [] + rest == rest;
  }

  /** A field unknown to a handler may be inserted at any field boundary without changing what is decoded. */
  lemma InsertUnknown<S(!new)>(h: Handler<S>, a: Bytes, field: nat, wire: nat, payload: Bytes, b: Bytes, state: S)
    requires Forward(h) && Local(h) && Clean(h, a, state)
    requires 0 < field < TWO32 && wire < 8 && Payload(wire, payload)
    requires var st := ParseFields(h, a, state).state;
             h(Tag(field, wire), payload + b, st) == Handled(false, st, payload + b)
    ensures ParseFields(h, a + (TagBytes(field, wire) + payload + b), state) == ParseFields(h, a + b, state)
  {
    var state' := ParseFields(h, a, state).state;
    ParseConcat(h, a, TagBytes(field, wire) + payload + b, state);
    ParseConcat(h, a, b, state);
    PayloadSkips(wire, payload, b);
    ParseSkipped(h, field, wire, payload, b, state');
  }

  // ---------------------------------------------------------------- fields from newer writers

  /** A field as it stands on the wire. */
  datatype Unknown = Unknown(field: nat, wire: nat, payload: Bytes)

  ghost predicate WellFormed(u: Unknown) {
    0 < u.field < TWO32 && u.wire < 8 && Payload(u.wire, u.payload)
  }

  function UnknownBytes(us: seq<Unknown>): Bytes {
    if us == [] then []
    else TagBytes(us[0].field, us[0].wire) + us[0].payload + UnknownBytes(us[1..])
  }

  /** In this state the handler neither takes the field nor moves the reader. */
  ghost predicate Ignores<S(!new)>(h: Handler<S>, u: Unknown, state: S) {
    forall s {:trigger h(Tag(u.field, u.wire), s, state)} ::
        h(Tag(u.field, u.wire), s, state) == Handled(false, state, s)
  }

  ghost predicate Noise<S(!new)>(h: Handler<S>, us: seq<Unknown>, state: S) {
    forall i | 0 <= i < |us| :: WellFormed(us[i]) && Ignores(h, us[i], state)
  }

  /** Any number of ignored fields in front of a message has no effect. */
  lemma {:induction false} NoiseSkipped<S(!new)>(h: Handler<S>, us: seq<Unknown>, rest: Bytes, state: S)
    requires Forward(h) && Noise(h, us, state)
    ensures ParseFields(h, UnknownBytes(us) + rest, state) == ParseFields(h, rest, state)
  {
    if us == [] {
      assert UnknownBytes(us) + rest == rest;
    } else {
      var u, after := us[0], UnknownBytes(us[1..]) + rest;
      assert WellFormed(u) && Ignores(h, u, state);
      NoiseSkipped(h, us[1..], rest, state);
      PayloadSkips(u.wire, u.payload, after);
      assert h(Tag(u.field, u.wire), u.payload + after, state) == Handled(false, state, u.payload + after);
      ParseSkipped(h, u.field, u.wire, u.payload, after, state);
      Assoc(TagBytes(u.field, u.wire) + u.payload, UnknownBytes(us[1..]), rest);
    }
  }
}
