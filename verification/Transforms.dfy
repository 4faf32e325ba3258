/** Stateful stream operators, and the one fold that gives them meaning. */
module Transforms {
  import opened Samples

  /** The member variables of an operator. */
  type Memory = seq<Cell>

  /** One call's input, or one emitted output: a time and a value per input (or output) topic. */
  datatype Event = Event(ts: Timestamp, values: seq<Cell>)

  datatype StepResult = StepResult(memory: Memory, emit: Option<Event>)

  /** A deterministic operator: `init` is its memory after reset, `step` is one call of calculate. */
  datatype Transform = Transform(init: Memory, step: (Memory, Event) -> StepResult)

  datatype Outcome = Outcome(memory: Memory, emits: seq<Event>)

  /** The operator folded over a whole input history, starting from `memory`. */
  function Fold(op: Transform, memory: Memory, events: seq<Event>): Outcome {
    if events == [] then Outcome(memory, [])
    else
      var before := Fold(op, memory, events[..|events| - 1]);
      var result := op.step(before.memory, events[|events| - 1]);
      Outcome(result.memory,
              if result.emit.Some? then before.emits + [result.emit.value] else before.emits)
  }

  /** Cutting the input anywhere and carrying the memory over gives the same memory and outputs. */
  lemma {:induction false} FoldSplit(op: Transform, memory: Memory, first: seq<Event>, second: seq<Event>)
    ensures var a := Fold(op, memory, first);
            var b := Fold(op, a.memory, second);
            Fold(op, memory, first + second) == Outcome(b.memory, a.emits + b.emits)
  {
    if second == [] {
      assert first + second == first;
    } else {
      var front := second[..|second| - 1];
      FoldSplit(op, memory, first, front);
      ConcatFront(first, second);
    }
  }

  ghost predicate Ascending(events: seq<Event>) {
    forall i, j | 0 <= i < j < |events| :: events[i].ts <= events[j].ts
  }

  ghost predicate StrictlyAscending(events: seq<Event>) {
    forall i, j | 0 <= i < j < |events| :: events[i].ts < events[j].ts
  }

  /** The order in which an operator is called: a join calls it with strictly rising times. */
  ghost predicate InCallOrder(joined: bool, events: seq<Event>) {
    if joined then StrictlyAscending(events) else Ascending(events)
  }

  /** The sequential contract: when called in order, emitted times never go back. */
  ghost predicate Obeys(op: Transform, joined: bool) {
    forall events: seq<Event> {:trigger InCallOrder(joined, events)} ::
      InCallOrder(joined, events) ==> Ascending(Fold(op, op.init, events).emits)
  }

  /** The event a single-input operator is called with for one row. */
  function RowEvent(row: Row): Event {
    Event(row.ts, [FirstCell(row)])
  }

  function RowEvents(rows: seq<Row>): seq<Event> {
    if rows == [] then [] else RowEvents(rows[..|rows| - 1]) + [RowEvent(rows[|rows| - 1])]
  }

  /** The row written to output topic `k` for one emitted event. */
  function EmitRow(emit: Event, k: nat): Row {
    Row(emit.ts, [if k < |emit.values| then emit.values[k] else Null])
  }

  function EmitRows(emits: seq<Event>, k: nat): seq<Row> {
    if emits == [] then [] else EmitRows(emits[..|emits| - 1], k) + [EmitRow(emits[|emits| - 1], k)]
  }

  lemma {:induction false} EmitRowsAt(emits: seq<Event>, k: nat)
    ensures |EmitRows(emits, k)| == |emits|
    ensures forall i | 0 <= i < |emits| :: EmitRows(emits, k)[i] == EmitRow(emits[i], k)
  {
    if emits != [] { EmitRowsAt(emits[..|emits| - 1], k); }
  }

  lemma {:induction false} RowEventsAt(rows: seq<Row>)
    ensures |RowEvents(rows)| == |rows|
    ensures forall i | 0 <= i < |rows| :: RowEvents(rows)[i] == RowEvent(rows[i])
  {
    if rows != [] { RowEventsAt(rows[..|rows| - 1]); }
  }

  lemma {:induction false} EmitRowsConcat(a: seq<Event>, b: seq<Event>, k: nat)
    ensures EmitRows(a + b, k) == EmitRows(a, k) + EmitRows(b, k)
  {
    if b == [] {
      assert a + b == a;
    } else {
      EmitRowsConcat(a, b[..|b| - 1], k);
      ConcatFront(a, b);
      Assoc(EmitRows(a, k), EmitRows(b[..|b| - 1], k), [EmitRow(b[|b| - 1], k)]);
    }
  }

  lemma {:induction false} RowEventsConcat(a: seq<Row>, b: seq<Row>)
    ensures RowEvents(a + b) == RowEvents(a) + RowEvents(b)
  {
    if b == [] {
      assert a + b == a;
    } else {
      RowEventsConcat(a, b[..|b| - 1]);
      ConcatFront(a, b);
      Assoc(RowEvents(a), RowEvents(b[..|b| - 1]), [RowEvent(b[|b| - 1])]);
    }
  }
}
