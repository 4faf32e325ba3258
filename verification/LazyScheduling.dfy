/** Lazy scheduling: what it brings up to date, and why it cannot be told from eager scheduling. */
module LazyScheduling {
  import opened Orders
  import opened Samples
  import opened Transforms
  import opened World
  import opened NodeRuns
  import opened Scheduling
  import opened Denotation
  import opened Runs

  /** After a pass, everything upstream of the active nodes is settled; with no active set, everything is. */
  lemma ScheduleSettles(w: World, active: set<NodeId>, w': World) returns (f: set<NodeId>)
    requires Inv(w) && Schedules(w, active, w') && StrictInputs(w'.nodes, w'.store)
    ensures Inv(w') && SameFrame(w, w') && Settled(w', f)
    ensures if active == {} then f == w.nodes.Keys else UpstreamClosure(w.nodes, active, f)
  {
    var filter, order, ws :| ScheduledBy(w, active, w', filter, order, ws);
    PassSettles(active, filter, order, ws);
    PassFrame(active, filter, order, ws, |order|);
    f := SettledBy(w, active, w', filter);
  }

  lemma SettledBy(w: World, active: set<NodeId>, w': World, filter: set<NodeId>) returns (f: set<NodeId>)
    requires SameGraph(w.nodes, w'.nodes) && UpstreamClosure(w.nodes, active, filter)
    requires forall n <- w'.nodes | Chosen(active, filter, n) :: !w'.nodes[n].dirty
    ensures Settled(w', f)
    ensures if active == {} then f == w.nodes.Keys else UpstreamClosure(w.nodes, active, f)
  {
    f := if active == {} then w.nodes.Keys else filter;
    SameClosed(w.nodes, w'.nodes, f);
  }

  lemma SameClosed(a: map<NodeId, Node>, b: map<NodeId, Node>, f: set<NodeId>)
    requires SameGraph(a, b) && f <= a.Keys && UpstreamClosed(a, f)
    ensures UpstreamClosed(b, f)
  {
    forall m, n | m in b && n in b && n in f && Feeds(b[m], b[n]) ensures m in f {
      assert SameShape(a[m], b[m]) && SameShape(a[n], b[n]);
      assert Feeds(a[m], a[n]);
    }
  }

  /** Scheduling everything leaves no dirty node, and every output is its operator over its whole input history. */
  lemma ScheduleAllCompletes(w: World, w': World)
    requires Inv(w) && Schedules(w, {}, w') && StrictInputs(w'.nodes, w'.store)
    ensures forall n <- w'.nodes :: !w'.nodes[n].dirty
    ensures forall n, k | n in w'.nodes && 0 <= k < |w'.nodes[n].outputs| ::
              var s := w'.nodes[n];
              s.inputs != [] &&
              History(w'.store, s.outputs[k]) == EmitRows(Fold(s.op, s.op.init, AllEvents(s, w'.store)).emits, k)
  {
    var f := ScheduleSettles(w, {}, w');
    forall n, k | n in w'.nodes && 0 <= k < |w'.nodes[n].outputs|
      ensures var s := w'.nodes[n];
              s.inputs != [] &&
              History(w'.store, s.outputs[k]) == EmitRows(Fold(s.op, s.op.init, AllEvents(s, w'.store)).emits, k)
    {
      assert NodeShape(w'.nodes[n]);
      CleanIsComplete(w'.nodes[n], w'.store, k);
    }
  }

  /** What is visible is right: outputs of active nodes equal their meaning over the source histories. */
  lemma ActiveOutputsAreExact(w: World, active: set<NodeId>, w': World, n: NodeId, t: TopicId)
    requires Inv(w) && Schedules(w, active, w') && StrictInputs(w'.nodes, w'.store)
    requires n in w.nodes && (active == {} || n in active) && t in w.nodes[n].outputs
    ensures History(w'.store, t) == Meaning(Shapes(w'.nodes), Sources(w'), w'.nextNode, t)
  {
    var f := ScheduleSettles(w, active, w');
    assert n in active * w.nodes.Keys || active == {};
    SettledOutput(w', f, n, t);
  }

  lemma SettledOutput(w: World, f: set<NodeId>, n: NodeId, t: TopicId)
    requires Inv(w) && Settled(w, f) && n in f && n in w.nodes && t in w.nodes[n].outputs
    ensures History(w.store, t) == Meaning(Shapes(w.nodes), Sources(w), w.nextNode, t)
  {
    assert TopicsKnown(w.nodes[n], w.store);
    forall m | m in w.nodes && t in w.nodes[m].outputs ensures m in f && m < w.nextNode {
      assert m != n ==> Disjoint(w.nodes[m].outputs, w.nodes[n].outputs);
    }
    SettledMeaning(w, f, w.nextNode, t);
  }

  /** A lazy pass runs nothing outside the upstream closure and leaves those nodes' outputs and watermarks alone. */
  lemma LazyPassIsLocal(w: World, active: set<NodeId>, w': World, n: NodeId)
    requires Inv(w) && Schedules(w, active, w') && active != {} && n in w.nodes
    requires forall f | UpstreamClosure(w.nodes, active, f) :: n !in f
    ensures n in w'.nodes && w'.nodes[n] == w.nodes[n].(dirty := w'.nodes[n].dirty)
    ensures w.nodes[n].dirty ==> w'.nodes[n].dirty
    ensures forall t <- w.nodes[n].outputs :: t in w.store && t in w'.store && w'.store[t] == w.store[t]
  {
    var filter, order, ws :| ScheduledBy(w, active, w', filter, order, ws);
    assert TopicsKnown(w.nodes[n], w.store);
    PassLeavesOthers(active, filter, order, ws, |order|, n);
  }

  // ---------------------------------------------------------------- what scheduling cannot touch

  /** The graph, the source histories and the counters: all that a caller's own calls determine. */
  datatype Outside = Outside(graph: map<NodeId, Shape>, sources: map<TopicId, seq<Row>>,
                             topics: set<TopicId>, nextNode: NodeId, nextTopic: TopicId)

  ghost function OutsideOf(w: World): Outside {
    Outside(Shapes(w.nodes), Sources(w), w.store.Keys, w.nextNode, w.nextTopic)
  }

  ghost function AddSource(sources: map<TopicId, seq<Row>>, t: TopicId): map<TopicId, seq<Row>> {
    sources[t := []]
  }

  ghost function Extended(sources: map<TopicId, seq<Row>>, rows: map<TopicId, seq<Row>>): map<TopicId, seq<Row>> {
    map t | t in sources :: if t in rows then sources[t] + rows[t] else sources[t]
  }

  ghost function Frozen(o: Outside, outputs: seq<TopicId>): map<TopicId, seq<Row>> {
    map t | t in o.sources.Keys + ToSet(outputs) ::
      if t in outputs then Meaning(o.graph, o.sources, o.nextNode, t) else o.sources[t]
  }

  /** What each call does to the outside state; a removed node leaves its outputs' full meaning behind. */
  ghost function After(o: Outside, a: Action): Outside {
    match a
    case NewTopic =>
      o.(sources := AddSource(o.sources, o.nextTopic), topics := o.topics + {o.nextTopic}, nextTopic := o.nextTopic + 1)
    case AddNode(joined, inputs, count, op) =>
      var outputs := FreshTopics(o.nextTopic, count);
      o.(graph := o.graph[o.nextNode := Shape(joined, inputs, outputs, op)],
         topics := o.topics + ToSet(outputs), nextNode := o.nextNode + 1, nextTopic := o.nextTopic + count)
    case RemoveNode(id) =>
      if id in o.graph then o.(graph := o.graph - {id}, sources := Frozen(o, o.graph[id].outputs)) else o
    case Commit(rows) => o.(sources := Extended(o.sources, rows))
    case Schedule(_) => o
  }

  lemma SourceOf(w: World, t: TopicId)
    ensures t in Sources(w) <==> t in w.store && !Produced(w.nodes, t)
    ensures t in Sources(w) ==> Sources(w)[t] == History(w.store, t)
  {
  }

  lemma SameGraphSameShapes(a: map<NodeId, Node>, b: map<NodeId, Node>)
    requires SameGraph(a, b)
    ensures Shapes(a) == Shapes(b)
    ensures forall t :: Produced(a, t) <==> Produced(b, t)
  {
    forall n <- a ensures ShapeOf(a[n]) == ShapeOf(b[n]) {
      assert SameShape(a[n], b[n]);
    }
    forall t ensures Produced(a, t) <==> Produced(b, t) {
      forall n | n in a ensures a[n].outputs == b[n].outputs {
        assert SameShape(a[n], b[n]);
      }
    }
  }

  lemma {:induction false} PassKeepsSources(
      active: set<NodeId>, filter: set<NodeId>, order: seq<NodeId>, ws: seq<World>, done: nat, t: TopicId)
    requires Pass(active, filter, order, ws) && done <= |order|
    requires t in ws[0].store && !Produced(ws[0].nodes, t)
    ensures t in ws[done].store && ws[done].store[t] == ws[0].store[t]
  {
    if done > 0 {
      PassKeepsSources(active, filter, order, ws, done - 1, t);
      PassFrame(active, filter, order, ws, done - 1);
      SameGraphSameShapes(ws[0].nodes, ws[done - 1].nodes);
      assert VisitsAt(active, filter, order, ws, done - 1);
    }
  }

  /** Scheduling changes nothing outside. */
  lemma ScheduleOutside(w: World, active: set<NodeId>, w': World)
    requires Schedules(w, active, w')
    ensures OutsideOf(w') == OutsideOf(w)
  {
    var filter, order, ws :| ScheduledBy(w, active, w', filter, order, ws);
    PassFrame(active, filter, order, ws, |order|);
    SameGraphSameShapes(w.nodes, w'.nodes);
    forall t | t in w.store && !Produced(w.nodes, t) ensures w'.store[t] == w.store[t] {
      PassKeepsSources(active, filter, order, ws, |order|, t);
    }
    SourcesKept(w, w');
  }

  lemma SourcesKept(w: World, w': World)
    requires w'.store.Keys == w.store.Keys
    requires forall t :: Produced(w.nodes, t) <==> Produced(w'.nodes, t)
    requires forall t | t in w.store && !Produced(w.nodes, t) :: w'.store[t] == w.store[t]
    ensures Sources(w') == Sources(w)
  {
  }

  lemma CommitOutside(w: World, rows: map<TopicId, seq<Row>>, w': World)
    requires Commits(w, rows, w')
    ensures Shapes(w'.nodes) == Shapes(w.nodes)
    ensures Sources(w') == Extended(Sources(w), rows)
  {
    CommitShapes(w, rows, w');
    SameGraphSameShapes(w.nodes, w'.nodes);
    CommitSources(w, rows, w');
  }

  lemma CommitSources(w: World, rows: map<TopicId, seq<Row>>, w': World)
    requires CommitsRows(w.nodes, w.store, rows, w'.store)
    requires forall t :: Produced(w'.nodes, t) <==> Produced(w.nodes, t)
    ensures Sources(w') == Extended(Sources(w), rows)
  {
    var a, b := Sources(w'), Extended(Sources(w), rows);
    forall t ensures t in a <==> t in b {
      CommitSource(w, rows, w', t);
    }
    forall t <- a ensures a[t] == b[t] {
      CommitSource(w, rows, w', t);
    }
    SameMap(a, b);
  }

  lemma SameMap(a: map<TopicId, seq<Row>>, b: map<TopicId, seq<Row>>)
    requires forall t :: t in a <==> t in b
    requires forall t <- a :: a[t] == b[t]
    ensures a == b
  {
  }

  lemma CommitSource(w: World, rows: map<TopicId, seq<Row>>, w': World, t: TopicId)
    requires CommitsRows(w.nodes, w.store, rows, w'.store) && (Produced(w'.nodes, t) <==> Produced(w.nodes, t))
    ensures t in Sources(w') <==> t in Sources(w)
    ensures t in Sources(w) ==> Sources(w')[t] == if t in rows then Sources(w)[t] + rows[t] else Sources(w)[t]
  {
    SourceOf(w, t);
    SourceOf(w', t);
  }

  lemma CommitShapes(w: World, rows: map<TopicId, seq<Row>>, w': World)
    requires Commits(w, rows, w')
    ensures SameGraph(w.nodes, w'.nodes)
  {
    forall n <- w.nodes ensures SameShape(w.nodes[n], w'.nodes[n]) {
    }
  }

  lemma AddOutside(w: World, a: Action, w': World)
    requires a.AddNode? && Adds(w, a, w') && GraphOk(w)
    ensures Sources(w') == Sources(w)
  {
    forall t ensures t in Sources(w') <==> t in Sources(w) {
      AddedProducers(w, a, w', t);
      SourceOf(w, t);
      SourceOf(w', t);
    }
    forall t <- Sources(w) ensures Sources(w')[t] == Sources(w)[t] {
      AddedProducers(w, a, w', t);
      SourceOf(w, t);
      SourceOf(w', t);
    }
  }

  lemma AddShapes(w: World, a: Action, w': World)
    requires a.AddNode? && Adds(w, a, w')
    ensures Shapes(w'.nodes) == Shapes(w.nodes)[w.nextNode :=
              Shape(a.joined, a.inputs, FreshTopics(w.nextTopic, a.outputCount), a.op)]
    ensures w'.store.Keys == w.store.Keys + ToSet(FreshTopics(w.nextTopic, a.outputCount))
  {
  }

  lemma AddedProducers(w: World, a: Action, w': World, t: TopicId)
    requires a.AddNode? && Adds(w, a, w') && GraphOk(w)
    ensures Produced(w'.nodes, t) <==> Produced(w.nodes, t) || t in EmptyTopics(w.nextTopic, a.outputCount)
    ensures t in w.store ==> t !in EmptyTopics(w.nextTopic, a.outputCount)
  {
    var id := w.nextNode;
    assert w'.nodes[id].outputs == FreshTopics(w.nextTopic, a.outputCount);
    assert t in w'.nodes[id].outputs <==> t in EmptyTopics(w.nextTopic, a.outputCount);
    if Produced(w.nodes, t) {
      var n :| n in w.nodes && t in w.nodes[n].outputs;
      assert n in w'.nodes && t in w'.nodes[n].outputs;
    }
  }

  /** The outputs that a removal leaves behind hold their full meaning. */
  ghost predicate FrozenComplete(w: World, id: NodeId) {
    id in w.nodes
    && forall t <- w.nodes[id].outputs :: History(w.store, t) == Meaning(Shapes(w.nodes), Sources(w), w.nextNode, t)
  }

  /**
   * Removing a node turns its outputs into sources; they hold what the outside state says exactly if they are complete.
   */
  lemma RemoveOutside(w: World, id: NodeId, w': World)
    requires Inv(w) && Removes(w, id, w')
    ensures OutsideOf(w') == After(OutsideOf(w), RemoveNode(id)) <==> FrozenComplete(w, id)
  {
    RemoveShapes(w, id, w');
    if FrozenComplete(w, id) {
      FrozenIsSources(w, id, w');
    } else {
      FrozenIsNotSources(w, id, w');
    }
  }

  lemma FrozenIsSources(w: World, id: NodeId, w': World)
    requires Inv(w) && Removes(w, id, w') && FrozenComplete(w, id)
    ensures Sources(w') == Frozen(OutsideOf(w), w.nodes[id].outputs)
  {
    var frozen := Frozen(OutsideOf(w), w.nodes[id].outputs);
    forall t ensures t in Sources(w') <==> t in frozen {
      RemoveSource(w, id, w', t);
    }
    forall t <- frozen ensures Sources(w')[t] == frozen[t] {
      RemoveSource(w, id, w', t);
    }
    SameMap(Sources(w'), frozen);
  }

  lemma FrozenIsNotSources(w: World, id: NodeId, w': World)
    requires Inv(w) && Removes(w, id, w') && !FrozenComplete(w, id)
    ensures Sources(w') != Frozen(OutsideOf(w), w.nodes[id].outputs)
  {
    var t :| t in w.nodes[id].outputs && History(w.store, t) != Meaning(Shapes(w.nodes), Sources(w), w.nextNode, t);
    RemoveSource(w, id, w', t);
    assert t in Frozen(OutsideOf(w), w.nodes[id].outputs);
  }

  lemma RemoveSource(w: World, id: NodeId, w': World, t: TopicId)
    requires Inv(w) && Removes(w, id, w')
    ensures t in Sources(w') <==> t in Sources(w) || t in w.nodes[id].outputs
    ensures t in Sources(w') ==> Sources(w')[t] == History(w.store, t)
    ensures t in Sources(w) ==> t !in w.nodes[id].outputs && Sources(w)[t] == History(w.store, t)
  {
    assert TopicsKnown(w.nodes[id], w.store);
    RemovedProducers(w, id, w', t);
    SourceOf(w, t);
    SourceOf(w', t);
  }

  lemma RemovedProducers(w: World, id: NodeId, w': World, t: TopicId)
    requires GraphOk(w) && Removes(w, id, w')
    ensures Produced(w'.nodes, t) <==> Produced(w.nodes, t) && t !in w.nodes[id].outputs
  {
    if Produced(w.nodes, t) && t !in w.nodes[id].outputs {
      var n :| n in w.nodes && t in w.nodes[n].outputs;
      assert n in w'.nodes;
    }
    if Produced(w'.nodes, t) {
      var n :| n in w'.nodes && t in w'.nodes[n].outputs;
      assert Disjoint(w.nodes[n].outputs, w.nodes[id].outputs);
    }
  }

  lemma RemoveShapes(w: World, id: NodeId, w': World)
    requires Removes(w, id, w')
    ensures Shapes(w'.nodes) == Shapes(w.nodes) - {id}
  {
  }

  lemma NewTopicOutside(w: World, w': World)
    requires Inv(w) && Next(w, NewTopic, w')
    ensures Sources(w') == AddSource(Sources(w), w.nextTopic)
  {
    assert !Produced(w.nodes, w.nextTopic) by {
      forall n <- w.nodes ensures w.nextTopic !in w.nodes[n].outputs {
        assert TopicsKnown(w.nodes[n], w.store);
      }
    }
    forall t ensures t in Sources(w') <==> t in Sources(w) || t == w.nextTopic {
      SourceOf(w, t);
      SourceOf(w', t);
    }
    forall t <- Sources(w') ensures Sources(w')[t] == AddSource(Sources(w), w.nextTopic)[t] {
      SourceOf(w, t);
      SourceOf(w', t);
    }
  }

  /** A removal is harmless if the outputs it leaves behind are complete. */
  ghost predicate Harmless(w: World, a: Action) {
    a.RemoveNode? ==> FrozenComplete(w, a.id)
  }

  /** A node that is settled, with everything upstream of it, is removed harmlessly. */
  lemma SettledIsHarmless(w: World, f: set<NodeId>, id: NodeId)
    requires Inv(w) && Settled(w, f) && id in f
    ensures FrozenComplete(w, id)
  {
    forall t <- w.nodes[id].outputs ensures History(w.store, t) == Meaning(Shapes(w.nodes), Sources(w), w.nextNode, t) {
      SettledOutput(w, f, id, t);
    }
  }

  /** The caller's rule: scheduling a node directly before removing it makes the removal harmless. */
  lemma ScheduledIsHarmless(w: World, active: set<NodeId>, w': World, id: NodeId)
    requires Inv(w) && Schedules(w, active, w') && StrictInputs(w'.nodes, w'.store)
    requires id in w.nodes && (active == {} || id in active)
    ensures FrozenComplete(w', id)
  {
    var f := ScheduleSettles(w, active, w');
    assert id in active * w.nodes.Keys || active == {};
    SettledIsHarmless(w', f, id);
  }

  /** The outside state after a step depends on nothing but the outside state before it, exactly if it is harmless. */
  lemma StepOutside(w: World, a: Action, w': World)
    requires Inv(w) && Next(w, a, w')
    ensures OutsideOf(w') == After(OutsideOf(w), a) <==> Harmless(w, a)
  {
    match a
    case NewTopic => NewTopicOutside(w, w');
    case AddNode(_, _, _, _) =>
      AddOutside(w, a, w');
      AddShapes(w, a, w');
    case RemoveNode(id) => RemoveOutside(w, id, w');
    case Commit(rows) => CommitOutside(w, rows, w');
    case Schedule(active) => ScheduleOutside(w, active, w');
  }

  // ---------------------------------------------------------------- lazy equals eager

  /** The calls of a run other than its scheduling calls. */
  function External(actions: seq<Action>): seq<Action> {
    if actions == [] then []
    else
      var front := External(actions[..|actions| - 1]);
      if actions[|actions| - 1].Schedule? then front else front + [actions[|actions| - 1]]
  }

  ghost function AfterAll(calls: seq<Action>): Outside {
    if calls == [] then Outside(map[], map[], {}, 1, 1)
    else After(AfterAll(calls[..|calls| - 1]), calls[|calls| - 1])
  }

  /** All removals among the first `n` steps are harmless. */
  ghost predicate HarmlessUpTo(ws: seq<World>, actions: seq<Action>, n: nat)
    requires n <= |actions| && |ws| == |actions| + 1
  {
    forall i | 0 <= i < n :: Harmless(ws[i], actions[i])
  }

  ghost predicate HarmlessRemovals(ws: seq<World>, actions: seq<Action>)
    requires |ws| == |actions| + 1
  {
    HarmlessUpTo(ws, actions, |actions|)
  }

  /** The outside state of a run is a function of its external calls alone. */
  lemma {:induction false} RunOutside(ws: seq<World>, actions: seq<Action>, n: nat)
    requires Run(ws, actions) && n <= |actions| && HarmlessUpTo(ws, actions, n)
    ensures OutsideOf(ws[n]) == AfterAll(External(actions[..n]))
  {
    if n == 0 {
      assert OutsideOf(Initial) == Outside(map[], map[], {}, 1, 1);
    } else {
      RunOutside(ws, actions, n - 1);
      RunSound(ws, actions, n - 1);
      assert StepAt(ws, actions, n - 1) && Harmless(ws[n - 1], actions[n - 1]);
      StepOutside(ws[n - 1], actions[n - 1], ws[n]);
      assert actions[..n][..n - 1] == actions[..n - 1];
    }
  }

  /**
   * Lazy scheduling is invisible. Whatever subsets a run schedules, once it has scheduled a set that is empty
   * or holds node `n`, the outputs of `n` are a function of the external calls alone.
   */
  lemma ActiveOutputsDependOnCallsOnly(ws: seq<World>, actions: seq<Action>, n: NodeId, t: TopicId)
    requires Run(ws, actions) && HarmlessRemovals(ws, actions)
    requires actions != [] && actions[|actions| - 1].Schedule?
    requires actions[|actions| - 1].active == {} || n in actions[|actions| - 1].active
    requires n in ws[|actions|].nodes && t in ws[|actions|].nodes[n].outputs
    ensures var o := AfterAll(External(actions));
            History(ws[|actions|].store, t) == Meaning(o.graph, o.sources, o.nextNode, t)
  {
    var k := |actions|;
    assert actions[..k] == actions;
    RunOutside(ws, actions, k);
    RunSound(ws, actions, k - 1);
    assert StepAt(ws, actions, k - 1);
    var f := ScheduleSettles(ws[k - 1], actions[k - 1].active, ws[k]);
    RunSound(ws, actions, k);
    SettledOutput(ws[k], f, n, t);
  }

  /** Two runs with the same external calls that both end by scheduling everything hold the same rows everywhere. */
  lemma LazyEqualsEager(ws1: seq<World>, a1: seq<Action>, ws2: seq<World>, a2: seq<Action>, t: TopicId)
    requires Run(ws1, a1) && Run(ws2, a2) && External(a1) == External(a2)
    requires HarmlessRemovals(ws1, a1) && HarmlessRemovals(ws2, a2)
    requires a1 != [] && a1[|a1| - 1] == Schedule({})
    requires a2 != [] && a2[|a2| - 1] == Schedule({})
    ensures History(ws1[|a1|].store, t) == History(ws2[|a2|].store, t)
  {
    FullRun(ws1, a1, t);
    FullRun(ws2, a2, t);
  }

  lemma FullRun(ws: seq<World>, actions: seq<Action>, t: TopicId)
    requires Run(ws, actions) && HarmlessRemovals(ws, actions)
    requires actions != [] && actions[|actions| - 1] == Schedule({})
    ensures var o := AfterAll(External(actions));
            History(ws[|actions|].store, t) == if t in o.topics then Meaning(o.graph, o.sources, o.nextNode, t) else []
  {
    var k := |actions|;
    assert actions[..k] == actions;
    RunOutside(ws, actions, k);
    RunSound(ws, actions, k - 1);
    assert StepAt(ws, actions, k - 1);
    var f := ScheduleSettles(ws[k - 1], {}, ws[k]);
    RunSound(ws, actions, k);
    if t in ws[k].store {
      SettledMeaning(ws[k], f, ws[k].nextNode, t);
    }
  }
}
