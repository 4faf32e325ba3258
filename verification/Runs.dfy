/** Whole runs of the derived engine: what always holds, and why lazy scheduling is invisible. */
module Runs {
  import opened Samples
  import opened Transforms
  import opened Join
  import opened World
  import opened NodeRuns
  import opened Scheduling
  import opened Denotation

  datatype Action =
    | NewTopic
    | AddNode(joined: bool, inputs: seq<TopicId>, outputCount: nat, op: Transform)
    | RemoveNode(id: NodeId)
    | Commit(rows: map<TopicId, seq<Row>>)
    | Schedule(active: set<NodeId>)

  function FreshTopics(first: TopicId, count: nat): (topics: seq<TopicId>)
    ensures |topics| == count
    ensures forall i | 0 <= i < count :: topics[i] == first + i
  {
    if count == 0 then [] else FreshTopics(first, count - 1) + [first + count - 1]
  }

  /** The node an add call registers: dirty, with nothing processed. */
  function FreshNode(joined: bool, inputs: seq<TopicId>, first: TopicId, count: nat, op: Transform): Node {
    Node(joined, inputs, FreshTopics(first, count), op, true, 0, MIN_TIMESTAMP, op.init)
  }

  function EmptyTopics(first: TopicId, count: nat): (store: Store)
    ensures forall t :: t in store <==> t in FreshTopics(first, count)
    ensures forall t <- store :: store[t] == []
  {
    if count == 0 then map[] else EmptyTopics(first, count - 1)[first + count - 1 := []]
  }

  ghost predicate Adds(w: World, a: Action, w': World)
    requires a.AddNode?
  {
    Obeys(a.op, a.joined) && Registers(w, a, w')
  }

  /** A new node over existing topics, with fresh output topics. */
  ghost predicate Registers(w: World, a: Action, w': World)
    requires a.AddNode?
  {
    && a.inputs != [] && 1 <= a.outputCount
    && (!a.joined ==> |a.inputs| == 1 && a.outputCount == 1)
    && (forall t <- a.inputs :: t in w.store)
    && w' == World(w.nodes[w.nextNode := FreshNode(a.joined, a.inputs, w.nextTopic, a.outputCount, a.op)],
                   w.store + EmptyTopics(w.nextTopic, a.outputCount),
                   w.nextNode + 1, w.nextTopic + a.outputCount)
  }

  ghost predicate Removes(w: World, id: NodeId, w': World) {
    id in w.nodes && w' == w.(nodes := w.nodes - {id})
  }

  ghost predicate ReadsAny(n: Node, topics: set<TopicId>) {
    exists t :: t in n.inputs && t in topics
  }

  /** New rows reach source topics. */
  ghost predicate CommitsRows(nodes: map<NodeId, Node>, before: Store, rows: map<TopicId, seq<Row>>, after: Store) {
    && (forall t <- rows :: t in before && !Produced(nodes, t))
    && after.Keys == before.Keys
    && (forall t <- before | t !in rows :: after[t] == before[t])
    && Grows(before, after)
    && StoreOk(after)
    && (forall t <- rows :: History(after, t) == History(before, t) + rows[t])
  }

  /** The nodes that read a changed topic become dirty. */
  ghost predicate Notified(before: map<NodeId, Node>, changed: set<TopicId>, after: map<NodeId, Node>) {
    && after.Keys == before.Keys
    && (forall n <- before ::
          after[n] == if ReadsAny(before[n], changed) then before[n].(dirty := true) else before[n])
  }

  ghost predicate Commits(w: World, rows: map<TopicId, seq<Row>>, w': World) {
    && CommitsRows(w.nodes, w.store, rows, w'.store)
    && Notified(w.nodes, rows.Keys, w'.nodes)
    && w'.nextNode == w.nextNode && w'.nextTopic == w.nextTopic
  }

  ghost predicate ScheduledBy(w: World, active: set<NodeId>, w': World,
                              filter: set<NodeId>, order: seq<NodeId>, ws: seq<World>) {
    && UpstreamClosure(w.nodes, active, filter)
    && TopologicalOrder(w.nodes, order)
    && Pass(active, filter, order, ws)
    && ws[0] == w && ws[|order|] == w'
  }

  ghost predicate Schedules(w: World, active: set<NodeId>, w': World) {
    exists filter, order, ws :: ScheduledBy(w, active, w', filter, order, ws)
  }

  ghost predicate Next(w: World, a: Action, w': World) {
    match a
    case NewTopic => w' == w.(store := w.store[w.nextTopic := []], nextTopic := w.nextTopic + 1)
    case AddNode(_, _, _, _) => Adds(w, a, w')
    case RemoveNode(id) => Removes(w, id, w')
    case Commit(rows) => Commits(w, rows, w')
    case Schedule(active) => Schedules(w, active, w')
  }

  const Initial := World(map[], map[], 1, 1)

  /** A run: every step is legal, and the join inputs always have strictly rising times. */
  ghost predicate Run(ws: seq<World>, actions: seq<Action>) {
    && |ws| == |actions| + 1
    && ws[0] == Initial
    && (forall i | 0 <= i < |actions| :: StepAt(ws, actions, i))
  }

  ghost predicate StepAt(ws: seq<World>, actions: seq<Action>, i: nat)
    requires i < |actions| && |ws| == |actions| + 1
  {
    Next(ws[i], actions[i], ws[i + 1]) && StrictInputs(ws[i + 1].nodes, ws[i + 1].store)
  }

  // ---------------------------------------------------------------- every step keeps the invariant

  lemma NewTopicKeepsInv(w: World, w': World)
    requires Inv(w) && Next(w, NewTopic, w')
    ensures Inv(w')
  {
    assert w.nextTopic !in w.store;
    forall n <- w'.nodes ensures NodeOk(w'.nodes[n], w'.store) && TopicsKnown(w'.nodes[n], w'.store) {
      StoreKept(w.nodes[n], w.store, w'.store);
    }
  }

  /** Growing the topic table does not concern a node. */
  lemma StoreKept(n: Node, store: Store, store': Store)
    requires n.inputs != [] && NodeOk(n, store) && TopicsKnown(n, store)
    requires forall t <- store :: t in store' && store'[t] == store[t]
    ensures NodeOk(n, store') && TopicsKnown(n, store')
  {
    SameInputs(n, store, store');
    forall k | 0 <= k < |n.outputs| ensures History(store', n.outputs[k]) == History(store, n.outputs[k]) {
      assert n.outputs[k] in n.outputs;
    }
  }

  lemma {:induction false} NothingProcessed(chunks: seq<Chunk>)
    requires Rising(chunks)
    ensures ChunksUpTo(chunks, 0) == []
  {
    if chunks != [] {
      RisingMeaning(chunks);
      RisingFront(chunks);
      NothingProcessed(chunks[..|chunks| - 1]);
    }
  }

  lemma FreshNodeOk(n: Node, store: Store)
    requires n.inputs != [] && StoreOk(store) && Obeys(n.op, n.joined)
    requires n.dirty && n.chunkMark == 0 && n.timeMark == MIN_TIMESTAMP && n.memory == n.op.init
    requires forall k | 0 <= k < |n.outputs| :: History(store, n.outputs[k]) == []
    ensures NodeOk(n, store)
  {
    if n.joined {
      var hs := Histories(store, n.inputs);
      HistoriesSorted(store, n.inputs);
      JoinMeaning(hs, MIN_TIMESTAMP);
      UpToMeaning(JoinEvents(hs, MIN_TIMESTAMP), MIN_TIMESTAMP);
      SameMembers(UpTo(JoinEvents(hs, MIN_TIMESTAMP), MIN_TIMESTAMP), []);
    } else {
      NothingProcessed(ChunksOf(store, n.inputs[0]));
    }
  }

  lemma AddKeepsInv(w: World, a: Action, w': World)
    requires a.AddNode? && Inv(w) && Adds(w, a, w')
    ensures Inv(w')
  {
    AddKeepsGraph(w, a, w');
    AddKeepsStore(w, a, w');
    AddedNodeOk(w, a, w');
    forall m <- w.nodes ensures NodeOk(w'.nodes[m], w'.store) {
      StoreKept(w.nodes[m], w.store, w'.store);
    }
  }

  lemma AddKeepsStore(w: World, a: Action, w': World)
    requires a.AddNode? && GraphOk(w) && StoreOk(w.store) && Adds(w, a, w')
    ensures StoreOk(w'.store)
    ensures forall t <- w.store :: t in w'.store && w'.store[t] == w.store[t]
    ensures forall m <- w.nodes :: m in w'.nodes && w'.nodes[m] == w.nodes[m]
  {
  }

  lemma AddedNodeOk(w: World, a: Action, w': World)
    requires a.AddNode? && GraphOk(w) && StoreOk(w.store) && StoreOk(w'.store) && Adds(w, a, w')
    ensures NodeOk(w'.nodes[w.nextNode], w'.store)
  {
    var n := w'.nodes[w.nextNode];
    forall k | 0 <= k < |n.outputs| ensures History(w'.store, n.outputs[k]) == [] {
      assert n.outputs[k] in EmptyTopics(w.nextTopic, a.outputCount);
    }
    FreshNodeOk(n, w'.store);
  }

  lemma AddKeepsGraph(w: World, a: Action, w': World)
    requires a.AddNode? && GraphOk(w) && Registers(w, a, w')
    ensures GraphOk(w')
  {
    var n := w'.nodes[w.nextNode];
    AddKeepsProducers(w, n);
    forall m <- w'.nodes ensures m < w'.nextNode && NodeShape(w'.nodes[m]) && TopicsKnown(w'.nodes[m], w'.store) {
      assert m != w.nextNode ==> TopicsKnown(w.nodes[m], w.store);
    }
  }

  lemma AddKeepsProducers(w: World, n: Node)
    requires GraphOk(w) && (forall t <- n.inputs :: t in w.store) && (forall t <- n.outputs :: t !in w.store)
    ensures ProducersOk(w.nodes[w.nextNode := n])
  {
    var nodes := w.nodes[w.nextNode := n];
    forall i, j | i in nodes && j in nodes && i != j ensures Disjoint(nodes[i].outputs, nodes[j].outputs) {
      assert i in w.nodes ==> TopicsKnown(w.nodes[i], w.store);
      assert j in w.nodes ==> TopicsKnown(w.nodes[j], w.store);
      if i in w.nodes && j in w.nodes {
        assert Disjoint(w.nodes[i].outputs, w.nodes[j].outputs);
      }
    }
    forall i, j | i in nodes && j in nodes && Feeds(nodes[i], nodes[j]) ensures i < j {
      assert i in w.nodes ==> TopicsKnown(w.nodes[i], w.store);
      assert j in w.nodes ==> TopicsKnown(w.nodes[j], w.store);
      if i in w.nodes && j in w.nodes {
        assert Feeds(w.nodes[i], w.nodes[j]);
      }
    }
  }

  lemma RemoveKeepsInv(w: World, id: NodeId, w': World)
    requires Inv(w) && Removes(w, id, w')
    ensures Inv(w')
  {
    RemoveKeepsGraph(w, id, w');
  }

  lemma RemoveKeepsGraph(w: World, id: NodeId, w': World)
    requires GraphOk(w) && Removes(w, id, w')
    ensures GraphOk(w')
  {
    forall m, n | m in w'.nodes && n in w'.nodes && m != n ensures Disjoint(w'.nodes[m].outputs, w'.nodes[n].outputs) {
      assert Disjoint(w.nodes[m].outputs, w.nodes[n].outputs);
    }
    forall m, n | m in w'.nodes && n in w'.nodes && Feeds(w'.nodes[m], w'.nodes[n]) ensures m < n {
      assert Feeds(w.nodes[m], w.nodes[n]);
    }
  }

  lemma CommitKeepsInv(w: World, rows: map<TopicId, seq<Row>>, w': World)
    requires Inv(w) && Commits(w, rows, w') && StrictInputs(w'.nodes, w'.store)
    ensures Inv(w')
  {
    CommitKeepsGraph(w, rows, w');
    forall n <- w.nodes ensures NodeOk(w'.nodes[n], w'.store) {
      CommitNode(w, rows, w', n);
    }
  }

  lemma CommitKeepsGraph(w: World, rows: map<TopicId, seq<Row>>, w': World)
    requires GraphOk(w) && Commits(w, rows, w')
    ensures SameGraph(w.nodes, w'.nodes) && GraphOk(w')
  {
    forall n <- w.nodes ensures SameShape(w.nodes[n], w'.nodes[n]) {
    }
    SameGraphOk(w, w');
  }

  lemma CommitNode(w: World, rows: map<TopicId, seq<Row>>, w': World, n: NodeId)
    requires Inv(w) && Commits(w, rows, w') && StrictInputs(w'.nodes, w'.store) && n in w.nodes
    ensures NodeOk(w'.nodes[n], w'.store)
  {
    var b := w.nodes[n];
    assert TopicsKnown(b, w.store);
    assert b.joined ==> AllStrict(Histories(w'.store, w'.nodes[n].inputs));
    CommitSpares(w, rows, w', n);
    Untouched(b, w.store, w'.store);
    if !ReadsAny(b, rows.Keys) {
      SameInputs(b, w.store, w'.store);
    }
  }

  lemma CommitSpares(w: World, rows: map<TopicId, seq<Row>>, w': World, n: NodeId)
    requires Commits(w, rows, w') && n in w.nodes && TopicsKnown(w.nodes[n], w.store)
    ensures forall t <- w.nodes[n].outputs :: w'.store[t] == w.store[t]
    ensures !ReadsAny(w.nodes[n], rows.Keys) ==> forall t <- w.nodes[n].inputs :: w'.store[t] == w.store[t]
  {
    assert forall t <- w.nodes[n].outputs :: Produced(w.nodes, t);
  }

  lemma ScheduleKeepsInv(w: World, active: set<NodeId>, w': World)
    requires Inv(w) && Schedules(w, active, w') && StrictInputs(w'.nodes, w'.store)
    ensures Inv(w')
  {
    var filter, order, ws :| ScheduledBy(w, active, w', filter, order, ws);
    PassKeepsInv(active, filter, order, ws, |order|);
  }

  lemma StepKeepsInv(w: World, a: Action, w': World)
    requires Inv(w) && Next(w, a, w') && StrictInputs(w'.nodes, w'.store)
    ensures Inv(w')
  {
    match a
    case NewTopic => NewTopicKeepsInv(w, w');
    case AddNode(_, _, _, _) => AddKeepsInv(w, a, w');
    case RemoveNode(id) => RemoveKeepsInv(w, id, w');
    case Commit(rows) => CommitKeepsInv(w, rows, w');
    case Schedule(active) => ScheduleKeepsInv(w, active, w');
  }

  /** Dirty-flag soundness: at every point of every run, a clean node is caught up with its inputs. */
  lemma {:induction false} RunSound(ws: seq<World>, actions: seq<Action>, i: nat)
    requires Run(ws, actions) && i <= |actions|
    ensures Inv(ws[i])
  {
    if i > 0 {
      RunSound(ws, actions, i - 1);
      assert StepAt(ws, actions, i - 1);
      StepKeepsInv(ws[i - 1], actions[i - 1], ws[i]);
    }
  }
}
