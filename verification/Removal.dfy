/** Removing a node freezes its outputs: exactly when that is harmless, and what happens when it is not. */
module Removal {
  import opened Samples
  import opened Transforms
  import opened Join
  import opened World
  import opened NodeRuns
  import opened Scheduling
  import opened Denotation
  import opened Runs
  import opened LazyScheduling

  /** Everything the node reads from is settled; the node itself may have work pending. While a node upstream is not
      settled, what the inputs will still receive is not in the store, so no condition on the node's own pending calls
      decides the matter; scheduling the node first does (LazyScheduling.ScheduledIsHarmless). */
  ghost predicate UpstreamSettled(w: World, f: set<NodeId>, id: NodeId) {
    Settled(w, f) && id in w.nodes && forall m | m in w.nodes && Feeds(w.nodes[m], w.nodes[id]) :: m in f
  }

  lemma InputsSettled(w: World, f: set<NodeId>, id: NodeId)
    requires Inv(w) && UpstreamSettled(w, f, id)
    ensures Histories(w.store, w.nodes[id].inputs) == Meanings(Shapes(w.nodes), Sources(w), id, w.nodes[id].inputs)
  {
    var n := w.nodes[id];
    assert TopicsKnown(n, w.store);
    forall t <- n.inputs ensures Reached(w, f, id, t) {
      forall m | m in w.nodes && t in w.nodes[m].outputs ensures m in f && m < id {
        assert Feeds(w.nodes[m], n);
      }
    }
    SettledMeanings(w, f, id, n.inputs);
  }

  lemma FrozenOutput(w: World, f: set<NodeId>, id: NodeId, t: TopicId)
    requires Inv(w) && UpstreamSettled(w, f, id) && t in w.nodes[id].outputs
    ensures var n := w.nodes[id];
            n.inputs != [] &&
            Meaning(Shapes(w.nodes), Sources(w), w.nextNode, t)
            == History(w.store, t) + EmitRows(Work(n, w.store).emits, IndexOf(n.outputs, t))
  {
    var n := w.nodes[id];
    assert NodeShape(n) && NodeOk(n, w.store);
    InputsSettled(w, f, id);
    FullOutput(w, id, t);
    WorkCompletes(n, w.store);
  }

  /** What an output should hold is the operator over what the inputs hold, if they are complete. */
  lemma FullOutput(w: World, id: NodeId, t: TopicId)
    requires GraphOk(w) && id in w.nodes && t in w.nodes[id].outputs && NodeShape(w.nodes[id])
    requires Histories(w.store, w.nodes[id].inputs) == Meanings(Shapes(w.nodes), Sources(w), id, w.nodes[id].inputs)
    ensures var n := w.nodes[id];
            Meaning(Shapes(w.nodes), Sources(w), w.nextNode, t)
            == EmitRows(Fold(n.op, n.op.init, AllEvents(n, w.store)).emits, IndexOf(n.outputs, t))
  {
    assert Produces(Shapes(w.nodes), id, t);
    OnlyProducer(w, w.nextNode, id, t);
  }

  /** Removal is harmless exactly when the pending work of the node would emit nothing. */
  lemma RemovalExact(w: World, f: set<NodeId>, id: NodeId)
    requires Inv(w) && UpstreamSettled(w, f, id)
    ensures w.nodes[id].inputs != []
    ensures FrozenComplete(w, id) <==> Work(w.nodes[id], w.store).emits == []
  {
    var n := w.nodes[id];
    assert NodeShape(n);
    var emits := Work(n, w.store).emits;
    forall t <- n.outputs
      ensures History(w.store, t) == Meaning(Shapes(w.nodes), Sources(w), w.nextNode, t) <==> emits == []
    {
      FrozenOutput(w, f, id, t);
      EmitRowsAt(emits, IndexOf(n.outputs, t));
      var h := History(w.store, t);
      assert emits != [] ==> |h + EmitRows(emits, IndexOf(n.outputs, t))| > |h|;
      assert emits == [] ==> h + EmitRows(emits, IndexOf(n.outputs, t)) == h;
    }
    assert n.outputs[0] in n.outputs;
  }

  // ---------------------------------------------------------------- a removal that loses work

  /** An operator that passes every sample on. */
  const Echo := Transform([], (m: Memory, e: Event) => StepResult(m, Some(e)))

  lemma {:induction false} EchoEmits(events: seq<Event>)
    ensures Fold(Echo, Echo.init, events) == Outcome([], events)
  {
    if events != [] {
      EchoEmits(events[..|events| - 1]);
    }
  }

  lemma EchoObeys()
    ensures Obeys(Echo, false)
  {
    forall events: seq<Event> | InCallOrder(false, events) ensures Ascending(Fold(Echo, Echo.init, events).emits) {
      EchoEmits(events);
    }
  }

  const Sample := Row(7, [Fixed(1)])
  const SourceChunk := Chunk(1, [], [Sample])
  const CopyChunk := Chunk(2, [], [Sample])

  const EchoNode := Node(false, [1], [2], Echo, true, 0, MIN_TIMESTAMP, [])

  const Fresh1 := World(map[], map[1 := []], 1, 2)
  const Added := World(map[1 := EchoNode], map[1 := [], 2 := []], 2, 3)
  const Committed1 := World(map[1 := EchoNode], map[1 := [SourceChunk], 2 := []], 2, 3)
  const Ran := World(map[1 := EchoNode.(dirty := false, chunkMark := 1)], map[1 := [SourceChunk], 2 := [CopyChunk]],
      2, 3)
  const GoneLate := World(map[], map[1 := [SourceChunk], 2 := [CopyChunk]], 2, 3)
  const GoneEarly := World(map[], map[1 := [SourceChunk], 2 := []], 2, 3)

  lemma TopicStep()
    ensures Next(Initial, NewTopic, Fresh1)
  {
  }

  lemma AddStep()
    ensures Next(Fresh1, AddNode(false, [1], 1, Echo), Added)
  {
    EchoObeys();
    AddRegisters();
  }

  lemma AddRegisters()
    ensures Registers(Fresh1, AddNode(false, [1], 1, Echo), Added)
  {
    assert FreshTopics(2, 1) == [2];
    assert EmptyTopics(2, 1) == map[2 := []];
    assert FreshNode(false, [1], 2, 1, Echo) == EchoNode;
  }

  lemma OneRow(c: Chunk)
    requires c.rows == [Sample] && 0 < c.id
    ensures Flatten([c]) == [Sample] && Ordered([c]) && Rising([c]) && Ordered([]) && Rising([])
  {
    assert [c][..0] == [];
    assert Flatten([c]) == Flatten([]) + c.rows;
    SortedMeaning([Sample]);
    RisingMeaning([c]);
    RisingMeaning([]);
  }

  lemma CommitStep()
    ensures Next(Added, Commit(map[1 := [Sample]]), Committed1)
  {
    OneRow(SourceChunk);
    assert forall n | n in Added.nodes :: n == 1;
    assert ReadsAny(EchoNode, {1}) by { assert 1 in EchoNode.inputs && 1 in {1}; }
    assert map[1 := [Sample]].Keys == {1};
  }

  lemma EchoWork()
    ensures Work(EchoNode, Committed1.store) == Outcome([], [Event(7, [Fixed(1)])])
    ensures EmitRows([Event(7, [Fixed(1)])], 0) == [Sample]
  {
    assert [SourceChunk][..0] == [];
    assert ChunksAfter([SourceChunk], 0) == ChunksAfter([], 0) + [SourceChunk];
    OneRow(SourceChunk);
    assert [Sample][..0] == [];
    assert RowEvents([Sample]) == RowEvents([]) + [RowEvent(Sample)];
    EchoEmits([Event(7, [Fixed(1)])]);
    assert EmitRows([Event(7, [Fixed(1)])], 0) == EmitRows([], 0) + [EmitRow(Event(7, [Fixed(1)]), 0)];
  }

  lemma OneNodeGraph(w: World)
    requires w.nodes.Keys == {1} && w.nodes[1].inputs == [1] && w.nodes[1].outputs == [2] && !w.nodes[1].joined
    requires w.store.Keys == {1, 2} && w.nextNode == 2 && w.nextTopic == 3
    ensures GraphOk(w) && !Feeds(w.nodes[1], w.nodes[1])
  {
  }

  lemma RanStore()
    ensures SameOutside(Committed1.store, Ran.store, [2]) && Grows(Committed1.store, Ran.store) && StoreOk(Ran.store)
    ensures History(Committed1.store, 2) == [] && History(Ran.store, 2) == [Sample]
  {
    OneRow(SourceChunk);
    OneRow(CopyChunk);
  }

  lemma RunStep()
    ensures RunsNode(Committed1, 1, Ran)
  {
    OneNodeGraph(Committed1);
    RanStore();
    RanNode();
    OneNodeRuns(Committed1, Ran);
  }

  lemma OneNodeRuns(w: World, w': World)
    requires GraphOk(w) && w.nodes.Keys == {1} && w.nodes[1].outputs == [2] && w.nodes[1].inputs != []
    requires w'.nodes == map[1 := Advanced(w.nodes[1], w.store)]
    requires w'.nextNode == w.nextNode && w'.nextTopic == w.nextTopic
    requires SameOutside(w.store, w'.store, [2]) && Grows(w.store, w'.store) && StoreOk(w'.store)
    requires History(w'.store, 2) == History(w.store, 2) + EmitRows(Work(w.nodes[1], w.store).emits, 0)
    ensures RunsNode(w, 1, w')
  {
  }

  lemma RanNode()
    ensures Ran.nodes[1] == Advanced(EchoNode, Committed1.store)
    ensures EmitRows(Work(EchoNode, Committed1.store).emits, 0) == [Sample]
  {
    EchoWork();
  }

  lemma NothingChosen(nodes: map<NodeId, Node>)
    ensures UpstreamClosure(nodes, {}, {})
  {
  }

  /** Scheduling everything in a graph of one dirty node runs that node. */
  lemma OneNodeSchedules(w: World, id: NodeId, w': World)
    requires GraphOk(w) && w.nodes.Keys == {id} && w.nodes[id].dirty && !Feeds(w.nodes[id], w.nodes[id])
    requires RunsNode(w, id, w')
    ensures Schedules(w, {}, w')
  {
    NothingChosen(w.nodes);
    OneVisit(w, id, w');
    OneNodeOrder(w.nodes, id);
    ScheduledByPass(w, w', [id], [w, w']);
  }

  lemma ScheduledByPass(w: World, w': World, order: seq<NodeId>, ws: seq<World>)
    requires UpstreamClosure(w.nodes, {}, {}) && TopologicalOrder(w.nodes, order) && Pass({}, {}, order, ws)
    requires ws[0] == w && ws[|order|] == w'
    ensures Schedules(w, {}, w')
  {
    assert ScheduledBy(w, {}, w', {}, order, ws);
  }

  lemma OneVisit(w: World, id: NodeId, w': World)
    requires GraphOk(w) && id in w.nodes && w.nodes[id].dirty && RunsNode(w, id, w')
    ensures Pass({}, {}, [id], [w, w'])
  {
    assert VisitsAt({}, {}, [id], [w, w'], 0);
  }

  lemma OneNodeOrder(nodes: map<NodeId, Node>, id: NodeId)
    requires nodes.Keys == {id} && !Feeds(nodes[id], nodes[id])
    ensures TopologicalOrder(nodes, [id])
  {
  }

  lemma ScheduleStep()
    ensures Next(Committed1, Schedule({}), Ran)
  {
    OneNodeGraph(Committed1);
    RunStep();
    OneNodeSchedules(Committed1, 1, Ran);
  }

  lemma IdleStep(w: World)
    requires w.nodes == map[]
    ensures Next(w, Schedule({}), w)
  {
    NothingChosen(w.nodes);
    assert ScheduledBy(w, {}, w, {}, [], [w]);
  }

  const Begin: seq<Action> := [NewTopic, AddNode(false, [1], 1, Echo), Commit(map[1 := [Sample]])]
  const LazyCalls: seq<Action> := Begin + [RemoveNode(1), Schedule({})]
  const EagerCalls: seq<Action> := Begin + [Schedule({}), RemoveNode(1), Schedule({})]
  const LazyStates: seq<World> := [Initial, Fresh1, Added, Committed1, GoneEarly, GoneEarly]
  const EagerStates: seq<World> := [Initial, Fresh1, Added, Committed1, Ran, GoneLate, GoneLate]

  lemma RunStarts()
    ensures Run([Initial], [])
  {
  }

  lemma RunExtends(ws: seq<World>, actions: seq<Action>, a: Action, w: World)
    requires Run(ws, actions) && Next(ws[|actions|], a, w) && StrictInputs(w.nodes, w.store)
    ensures Run(ws + [w], actions + [a])
  {
    var ws', actions' := ws + [w], actions + [a];
    forall i | 0 <= i < |actions'| ensures StepAt(ws', actions', i) {
      if i < |actions| {
        assert StepAt(ws, actions, i);
      }
    }
  }

  lemma BeginRun()
    ensures Run([Initial, Fresh1, Added, Committed1], Begin)
  {
    TopicStep();
    AddStep();
    CommitStep();
    ThreeSteps(NewTopic, Fresh1, AddNode(false, [1], 1, Echo), Added, Commit(map[1 := [Sample]]), Committed1);
  }

  lemma ThreeSteps(a1: Action, w1: World, a2: Action, w2: World, a3: Action, w3: World)
    requires Next(Initial, a1, w1) && Next(w1, a2, w2) && Next(w2, a3, w3)
    requires StrictInputs(w1.nodes, w1.store) && StrictInputs(w2.nodes, w2.store) && StrictInputs(w3.nodes, w3.store)
    ensures Run([Initial, w1, w2, w3], [a1, a2, a3])
  {
    RunStarts();
    RunExtends([Initial], [], a1, w1);
    RunExtends([Initial] + [w1], [] + [a1], a2, w2);
    RunExtends([Initial] + [w1] + [w2], [] + [a1] + [a2], a3, w3);
    assert [Initial, w1, w2, w3] == [Initial] + [w1] + [w2] + [w3];
    assert [a1, a2, a3] == [] + [a1] + [a2] + [a3];
  }

  lemma LazyRun()
    ensures Run(LazyStates, LazyCalls)
  {
    BeginRun();
    IdleStep(GoneEarly);
    assert Removes(Committed1, 1, GoneEarly);
    var ws := [Initial, Fresh1, Added, Committed1];
    RunExtends(ws, Begin, RemoveNode(1), GoneEarly);
    RunExtends(ws + [GoneEarly], Begin + [RemoveNode(1)], Schedule({}), GoneEarly);
    assert LazyStates == ws + [GoneEarly] + [GoneEarly];
    assert LazyCalls == Begin + [RemoveNode(1)] + [Schedule({})];
  }

  lemma EagerRun()
    ensures Run(EagerStates, EagerCalls)
  {
    BeginRun();
    ScheduleStep();
    IdleStep(GoneLate);
    assert Removes(Ran, 1, GoneLate);
    var ws := [Initial, Fresh1, Added, Committed1];
    RunExtends(ws, Begin, Schedule({}), Ran);
    RunExtends(ws + [Ran], Begin + [Schedule({})], RemoveNode(1), GoneLate);
    RunExtends(ws + [Ran] + [GoneLate], Begin + [Schedule({})] + [RemoveNode(1)], Schedule({}), GoneLate);
    assert EagerStates == ws + [Ran] + [GoneLate] + [GoneLate];
    assert EagerCalls == Begin + [Schedule({})] + [RemoveNode(1)] + [Schedule({})];
  }

  /**
   * Without the condition on removals the two runs differ: the same calls, both ending by scheduling everything,
   * but the lazy run removed the node before its first sample was copied.
   */
  lemma UnsettledRemovalIsVisible()
    ensures Run(LazyStates, LazyCalls) && Run(EagerStates, EagerCalls)
    ensures External(LazyCalls) == External(EagerCalls)
    ensures LazyCalls[4] == Schedule({}) && EagerCalls[5] == Schedule({})
    ensures History(LazyStates[5].store, 2) == [] && History(EagerStates[6].store, 2) == [Sample]
  {
    LazyRun();
    EagerRun();
    OneRow(CopyChunk);
    SameExternal(Begin, RemoveNode(1));
  }

  /** Scheduling in between leaves the external calls the same. */
  lemma SameExternal(front: seq<Action>, a: Action)
    requires !a.Schedule?
    ensures External(front + [a, Schedule({})]) == External(front + [Schedule({}), a, Schedule({})])
  {
    var idle := Schedule({});
    TwoMore(front, a, idle);
    ExternalPush(front, a);
    ExternalPush(front + [a], idle);
    TwoMore(front + [idle], a, idle);
    assert front + [idle, a, idle] == front + [idle] + [a, idle];
    ExternalPush(front, idle);
    ExternalPush(front + [idle], a);
    ExternalPush(front + [idle] + [a], idle);
  }

  lemma TwoMore(front: seq<Action>, a: Action, b: Action)
    ensures front + [a, b] == front + [a] + [b]
  {
  }

  lemma ExternalPush(actions: seq<Action>, a: Action)
    ensures External(actions + [a]) == if a.Schedule? then External(actions) else External(actions) + [a]
  {
    assert (actions + [a])[..|actions|] == actions;
  }
}
