/** What is stored is never wrong, only late: every topic holds the beginning of what it will hold in the end. */
module Prefixes {
  import opened Samples
  import opened Transforms
  import opened Join
  import opened World
  import opened NodeRuns
  import opened Scheduling
  import opened Denotation
  import opened Runs
  import opened LazyScheduling

  /** The inputs of every joining node will be strictly ordered in the end. */
  ghost predicate StrictInTheEnd(w: World) {
    forall n <- w.nodes | w.nodes[n].joined ::
      AllStrict(Meanings(Shapes(w.nodes), Sources(w), n, w.nodes[n].inputs))
  }

  /** All calls a node will have had in the end. */
  ghost function FullEvents(w: World, id: NodeId): seq<Event>
    requires id in w.nodes && w.nodes[id].inputs != []
  {
    EventsOf(w.nodes[id].joined, Meanings(Shapes(w.nodes), Sources(w), id, w.nodes[id].inputs))
  }

  lemma RowEventsGrow(a: seq<Row>, b: seq<Row>)
    requires a <= b
    ensures RowEvents(a) <= RowEvents(b)
  {
    assert b == a + b[|a|..];
    RowEventsConcat(a, b[|a|..]);
  }

  lemma EmitRowsGrow(op: Transform, a: seq<Event>, b: seq<Event>, k: nat)
    requires a <= b
    ensures EmitRows(Fold(op, op.init, a).emits, k) <= EmitRows(Fold(op, op.init, b).emits, k)
  {
    var rest := b[|a|..];
    assert b == a + rest;
    FoldSplit(op, op.init, a, rest);
    EmitRowsConcat(Fold(op, op.init, a).emits, Fold(op, Fold(op, op.init, a).memory, rest).emits, k);
  }

  /** What was processed is the beginning of all calls, once the inputs are the beginning of the full inputs. */
  lemma ProcessedIsPrefix(n: Node, store: Store, full: seq<seq<Row>>)
    requires n.inputs != [] && StoreOk(store) && MarksOk(n, store)
    requires Extends(Histories(store, n.inputs), full) && (n.joined ==> AllStrict(full))
    ensures Processed(n, store) <= EventsOf(n.joined, full)
  {
    var now := Histories(store, n.inputs);
    HistoriesSorted(store, n.inputs);
    if n.joined {
      StrictIsSorted(full);
      JoinStable(now, full, MIN_TIMESTAMP, n.timeMark);
      JoinSplit(full, MIN_TIMESTAMP, n.timeMark);
    } else {
      NodeSplit(n, store);
      RowEventsGrow(now[0], full[0]);
    }
  }

  /** The topic exists, and whatever writes it is older than `bound`. */
  ghost predicate Below(w: World, bound: NodeId, t: TopicId) {
    t in w.store && forall m | m in w.nodes && t in w.nodes[m].outputs :: m < bound
  }

  lemma ProducersBelow(w: World, n: NodeId)
    requires GraphOk(w) && n in w.nodes
    ensures forall t <- w.nodes[n].inputs :: Below(w, n, t)
  {
    assert TopicsKnown(w.nodes[n], w.store);
    forall t <- w.nodes[n].inputs, m | m in w.nodes && t in w.nodes[m].outputs ensures m < n {
      assert Feeds(w.nodes[m], w.nodes[n]);
    }
  }

  /** Every topic holds a prefix of its meaning, whatever is dirty. */
  lemma {:induction false} StoredIsPrefix(w: World, bound: NodeId, t: TopicId)
    requires Inv(w) && StrictInTheEnd(w) && Below(w, bound, t)
    ensures History(w.store, t) <= Meaning(Shapes(w.nodes), Sources(w), bound, t)
    decreases bound, 0, 0
  {
    var graph := Shapes(w.nodes);
    if Produced(w.nodes, t) {
      var n :| n in w.nodes && t in w.nodes[n].outputs;
      assert NodeShape(w.nodes[n]) && Produces(graph, n, t);
      ProducersBelow(w, n);
      StoredArePrefixes(w, n, w.nodes[n].inputs);
      OutputIsPrefix(w, bound, n, t);
    } else {
      assert !exists n: NodeId :: n < bound && Produces(graph, n, t);
    }
  }

  lemma {:induction false} StoredArePrefixes(w: World, bound: NodeId, topics: seq<TopicId>)
    requires Inv(w) && StrictInTheEnd(w) && forall t <- topics :: Below(w, bound, t)
    ensures Extends(Histories(w.store, topics), Meanings(Shapes(w.nodes), Sources(w), bound, topics))
    decreases bound, 1, |topics|
  {
    if topics != [] {
      var front, t := topics[..|topics| - 1], topics[|topics| - 1];
      StoredArePrefixes(w, bound, front);
      StoredIsPrefix(w, bound, t);
      ExtendsLast(w.store, Shapes(w.nodes), Sources(w), bound, topics);
    }
  }

  lemma ExtendsLast(store: Store, graph: map<NodeId, Shape>, sources: map<TopicId, seq<Row>>, bound: NodeId,
                    topics: seq<TopicId>)
    requires topics != []
    requires Extends(Histories(store, topics[..|topics| - 1]), Meanings(graph, sources, bound, topics[..|topics| - 1]))
    requires History(store, topics[|topics| - 1]) <= Meaning(graph, sources, bound, topics[|topics| - 1])
    ensures Extends(Histories(store, topics), Meanings(graph, sources, bound, topics))
  {
    HistoriesLast(store, topics);
  }

  lemma OutputIsPrefix(w: World, bound: NodeId, n: NodeId, t: TopicId)
    requires GraphOk(w) && StoreOk(w.store) && n in w.nodes && n < bound && Produces(Shapes(w.nodes), n, t)
    requires w.nodes[n].inputs != [] && NodeOk(w.nodes[n], w.store) && StrictInTheEnd(w)
    requires Extends(Histories(w.store, w.nodes[n].inputs),
                     Meanings(Shapes(w.nodes), Sources(w), n, w.nodes[n].inputs))
    ensures History(w.store, t) <= Meaning(Shapes(w.nodes), Sources(w), bound, t)
  {
    var s := w.nodes[n];
    var full := Meanings(Shapes(w.nodes), Sources(w), n, s.inputs);
    OnlyProducer(w, bound, n, t);
    ProcessedIsPrefix(s, w.store, full);
    EmitRowsGrow(s.op, Processed(s, w.store), EventsOf(s.joined, full), IndexOf(s.outputs, t));
  }

  /** At every point of every run, whatever subsets were scheduled, each topic holds a prefix of its meaning. */
  lemma NothingIsWrong(ws: seq<World>, actions: seq<Action>, i: nat, t: TopicId)
    requires Run(ws, actions) && i <= |actions| && t in ws[i].store && StrictInTheEnd(ws[i])
    ensures History(ws[i].store, t) <= Meaning(Shapes(ws[i].nodes), Sources(ws[i]), ws[i].nextNode, t)
  {
    RunSound(ws, actions, i);
    StoredIsPrefix(ws[i], ws[i].nextNode, t);
  }

  // ---------------------------------------------------------------- removals, whatever is unsettled upstream

  /** What a node owes: the calls it will still get, those for rows that its producers still owe included. */
  ghost function Owed(w: World, id: NodeId): seq<Event>
    requires id in w.nodes && w.nodes[id].inputs != []
  {
    var all, done := FullEvents(w, id), Processed(w.nodes[id], w.store);
    if done <= all then all[|done|..] else []
  }

  lemma OwedComesNext(w: World, id: NodeId)
    requires Inv(w) && StrictInTheEnd(w) && id in w.nodes
    ensures w.nodes[id].inputs != [] && FullEvents(w, id) == Processed(w.nodes[id], w.store) + Owed(w, id)
  {
    var n := w.nodes[id];
    assert NodeShape(n) && TopicsKnown(n, w.store) && NodeOk(n, w.store);
    ProducersBelow(w, id);
    StoredArePrefixes(w, id, n.inputs);
    ProcessedIsPrefix(n, w.store, Meanings(Shapes(w.nodes), Sources(w), id, n.inputs));
  }

  /** In the end an output holds what the operator emits for all its calls. */
  lemma FullOutputs(w: World, id: NodeId, t: TopicId)
    requires GraphOk(w) && id in w.nodes && t in w.nodes[id].outputs
    ensures var n := w.nodes[id];
            && n.inputs != []
            && Meaning(Shapes(w.nodes), Sources(w), w.nextNode, t)
               == EmitRows(Fold(n.op, n.op.init, FullEvents(w, id)).emits, IndexOf(n.outputs, t))
  {
    assert NodeShape(w.nodes[id]) && Produces(Shapes(w.nodes), id, t);
    OnlyProducer(w, w.nextNode, id, t);
  }

  lemma EmitsInParts(op: Transform, done: seq<Event>, owed: seq<Event>, k: nat)
    ensures var before := Fold(op, op.init, done);
            EmitRows(Fold(op, op.init, done + owed).emits, k)
            == EmitRows(before.emits, k) + EmitRows(Fold(op, before.memory, owed).emits, k)
  {
    FoldSplit(op, op.init, done, owed);
    EmitRowsConcat(Fold(op, op.init, done).emits, Fold(op, Fold(op, op.init, done).memory, owed).emits, k);
  }

  /** What an output still lacks is what the operator emits for the calls it is owed. */
  lemma LackingRows(w: World, id: NodeId, t: TopicId)
    requires Inv(w) && StrictInTheEnd(w) && id in w.nodes && t in w.nodes[id].outputs
    ensures var n := w.nodes[id];
            && n.inputs != []
            && Meaning(Shapes(w.nodes), Sources(w), w.nextNode, t)
               == History(w.store, t) + EmitRows(Fold(n.op, n.memory, Owed(w, id)).emits, IndexOf(n.outputs, t))
  {
    var n := w.nodes[id];
    OwedComesNext(w, id);
    FullOutputs(w, id, t);
    assert NodeShape(n) && NodeOk(n, w.store);
    EmitsInParts(n.op, Processed(n, w.store), Owed(w, id), IndexOf(n.outputs, t));
  }

  /**
   * A removal is harmless if and only if the operator would emit nothing for the calls it is owed, whatever is settled
   * upstream.
   */
  lemma RemovalAlwaysExact(w: World, id: NodeId)
    requires Inv(w) && StrictInTheEnd(w) && id in w.nodes
    ensures w.nodes[id].inputs != []
    ensures FrozenComplete(w, id) <==> Fold(w.nodes[id].op, w.nodes[id].memory, Owed(w, id)).emits == []
  {
    var n := w.nodes[id];
    assert NodeShape(n);
    var emits := Fold(n.op, n.memory, Owed(w, id)).emits;
    forall t <- n.outputs
      ensures History(w.store, t) == Meaning(Shapes(w.nodes), Sources(w), w.nextNode, t) <==> emits == []
    {
      LackingRows(w, id, t);
      EmitRowsAt(emits, IndexOf(n.outputs, t));
      NothingAdded(History(w.store, t), EmitRows(emits, IndexOf(n.outputs, t)));
    }
    assert n.outputs[0] in n.outputs;
  }

  lemma NothingAdded(rows: seq<Row>, more: seq<Row>)
    ensures rows == rows + more <==> more == []
  {
    assert |rows + more| == |rows| + |more|;
    assert rows + [] == rows;
  }
}
