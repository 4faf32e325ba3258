/** The derived engine as a transition system over its node set and the committed history. */
module World {
  import opened Orders
  import opened Samples
  import opened Transforms
  import opened Join

  type NodeId = nat

  /** One derived node: what it is (kind, inputs, outputs, operator) and how far it got. */
  datatype Node = Node(
    joined: bool,
    inputs: seq<TopicId>,
    outputs: seq<TopicId>,
    op: Transform,
    dirty: bool,
    chunkMark: nat,
    timeMark: Timestamp,
    memory: Memory)

  datatype World = World(nodes: map<NodeId, Node>, store: Store, nextNode: NodeId, nextTopic: TopicId)

  function Histories(store: Store, topics: seq<TopicId>): (r: seq<seq<Row>>)
    ensures |r| == |topics| && forall i | 0 <= i < |r| :: r[i] == History(store, topics[i])
  {
    seq(|topics|, i requires 0 <= i < |topics| => History(store, topics[i]))
  }

  // ---------------------------------------------------------------- what a node has seen

  function ChunksUpTo(chunks: seq<Chunk>, mark: nat): seq<Chunk> {
    if chunks == [] then []
    else
      var front := ChunksUpTo(chunks[..|chunks| - 1], mark);
      if chunks[|chunks| - 1].id <= mark then front + [chunks[|chunks| - 1]] else front
  }

  function ChunksAfter(chunks: seq<Chunk>, mark: nat): seq<Chunk> {
    if chunks == [] then []
    else
      var front := ChunksAfter(chunks[..|chunks| - 1], mark);
      if chunks[|chunks| - 1].id <= mark then front else front + [chunks[|chunks| - 1]]
  }

  /** Every call an operator owes to given input histories. */
  function EventsOf(joined: bool, histories: seq<seq<Row>>): seq<Event>
    requires histories != []
  {
    if joined then JoinEvents(histories, MIN_TIMESTAMP) else RowEvents(histories[0])
  }

  function AllEvents(n: Node, store: Store): seq<Event>
    requires n.inputs != []
  {
    EventsOf(n.joined, Histories(store, n.inputs))
  }

  /** The calls at or below the node's watermark. */
  function Processed(n: Node, store: Store): seq<Event>
    requires n.inputs != []
  {
    if n.joined then UpTo(JoinEvents(Histories(store, n.inputs), MIN_TIMESTAMP), n.timeMark)
    else RowEvents(Flatten(ChunksUpTo(ChunksOf(store, n.inputs[0]), n.chunkMark)))
  }

  /** The calls an incremental run makes now. */
  function Pending(n: Node, store: Store): seq<Event>
    requires n.inputs != []
  {
    if n.joined then JoinEvents(Histories(store, n.inputs), n.timeMark)
    else RowEvents(Flatten(ChunksAfter(ChunksOf(store, n.inputs[0]), n.chunkMark)))
  }

  // ---------------------------------------------------------------- invariants

  ghost predicate Feeds(a: Node, b: Node) {
    exists t :: t in a.outputs && t in b.inputs
  }

  ghost predicate NodeShape(n: Node) {
    && n.inputs != []
    && n.outputs != []
    && Distinct(n.outputs)
    && (!n.joined ==> |n.inputs| == 1 && |n.outputs| == 1)
  }

  ghost predicate TopicsKnown(n: Node, store: Store) {
    && (forall t <- n.inputs :: t in store)
    && (forall t <- n.outputs :: t in store)
  }

  ghost predicate Disjoint(a: seq<TopicId>, b: seq<TopicId>) {
    forall t <- a :: t !in b
  }

  /** No topic has two producers, and every producer is older than its consumers: the graph is acyclic. */
  ghost predicate ProducersOk(nodes: map<NodeId, Node>) {
    && (forall m, n {:trigger Disjoint(nodes[m].outputs, nodes[n].outputs)} | m in nodes && n in nodes && m != n ::
          Disjoint(nodes[m].outputs, nodes[n].outputs))
    && (forall m, n {:trigger Feeds(nodes[m], nodes[n])} | m in nodes && n in nodes && Feeds(nodes[m], nodes[n]) ::
        m < n)
  }

  ghost predicate GraphOk(w: World) {
    && (forall n <- w.nodes :: n < w.nextNode && NodeShape(w.nodes[n]) && TopicsKnown(w.nodes[n], w.store))
    && (forall t <- w.store :: t < w.nextTopic)
    && ProducersOk(w.nodes)
  }

  ghost predicate StoreOk(store: Store) {
    forall t <- store :: Ordered(store[t]) && Rising(store[t])
  }

  /** Watermarks name data that exists. */
  ghost predicate MarksOk(n: Node, store: Store)
    requires n.inputs != []
  {
    && n.chunkMark <= LastId(ChunksOf(store, n.inputs[0]))
    && MIN_TIMESTAMP <= n.timeMark
    && (n.joined && n.timeMark != MIN_TIMESTAMP ==> InAll(Histories(store, n.inputs), n.timeMark))
  }

  /** Memory and outputs are the operator folded over what lies below the watermark. */
  ghost predicate FoldOk(n: Node, store: Store)
    requires n.inputs != []
  {
    var done := Fold(n.op, n.op.init, Processed(n, store));
    && n.memory == done.memory
    && (forall k | 0 <= k < |n.outputs| :: History(store, n.outputs[k]) == EmitRows(done.emits, k))
  }

  ghost predicate NodeOk(n: Node, store: Store)
    requires n.inputs != []
  {
    && MarksOk(n, store)
    && FoldOk(n, store)
    && Obeys(n.op, n.joined)
    && (!n.dirty ==> Pending(n, store) == [])
  }

  /** The data condition of a join: the times of each of its input topics strictly rise. */
  ghost predicate StrictInputs(nodes: map<NodeId, Node>, store: Store) {
    forall n <- nodes | nodes[n].joined :: AllStrict(Histories(store, nodes[n].inputs))
  }

  ghost predicate Inv(w: World) {
    && GraphOk(w)
    && StoreOk(w.store)
    && forall n <- w.nodes :: NodeOk(w.nodes[n], w.store)
  }

  // ---------------------------------------------------------------- one node, one growing store

  lemma {:induction false} ChunkSplit(chunks: seq<Chunk>, mark: nat)
    requires Rising(chunks)
    ensures chunks == ChunksUpTo(chunks, mark) + ChunksAfter(chunks, mark)
    ensures LastId(chunks) <= mark ==> ChunksAfter(chunks, mark) == []
  {
    if chunks != [] {
      var front, last := chunks[..|chunks| - 1], chunks[|chunks| - 1];
      RisingFront(chunks);
      ChunkSplit(front, mark);
      assert chunks == front + [last];
    }
  }

  lemma {:induction false} ChunksUpToStable(chunks: seq<Chunk>, added: seq<Chunk>, mark: nat)
    requires forall i | 0 <= i < |added| :: mark < added[i].id
    ensures ChunksUpTo(chunks + added, mark) == ChunksUpTo(chunks, mark)
  {
    if added == [] {
      assert chunks + added == chunks;
    } else {
      var front := added[..|added| - 1];
      ChunksUpToStable(chunks, front, mark);
      ConcatFront(chunks, added);
    }
  }

  lemma HistoriesSorted(store: Store, topics: seq<TopicId>)
    requires StoreOk(store)
    ensures AllSorted(Histories(store, topics))
  {
    forall i | 0 <= i < |topics| ensures Sorted(History(store, topics[i])) {
      if topics[i] in store {
        OrderedSorted(store[topics[i]]);
      }
    }
  }

  /** What an operator still owes is exactly what lies beyond the watermark. */
  lemma NodeSplit(n: Node, store: Store)
    requires n.inputs != [] && StoreOk(store) && MarksOk(n, store)
    ensures AllEvents(n, store) == Processed(n, store) + Pending(n, store)
  {
    if n.joined {
      HistoriesSorted(store, n.inputs);
      JoinSplit(Histories(store, n.inputs), MIN_TIMESTAMP, n.timeMark);
    } else {
      var chunks := ChunksOf(store, n.inputs[0]);
      var done, rest := ChunksUpTo(chunks, n.chunkMark), ChunksAfter(chunks, n.chunkMark);
      ChunkSplit(chunks, n.chunkMark);
      FlattenConcat(done, rest);
      RowEventsConcat(Flatten(done), Flatten(rest));
    }
  }

  /** Chunks are only ever appended, topic by topic. */
  ghost predicate Grows(before: Store, after: Store) {
    before.Keys <= after.Keys && forall t <- before :: before[t] <= after[t]
  }

  lemma GrowsTransitive(a: Store, b: Store, c: Store)
    requires Grows(a, b) && Grows(b, c)
    ensures Grows(a, c)
  {
    forall t <- a ensures a[t] <= c[t] {
      assert a[t] <= b[t] <= c[t];
    }
  }

  lemma HistoryGrows(before: Store, after: Store, t: TopicId)
    requires Grows(before, after) && t in before
    ensures History(before, t) <= History(after, t)
  {
    var added := after[t][|before[t]|..];
    assert after[t] == before[t] + added;
    FlattenConcat(before[t], added);
  }

  lemma HistoriesGrow(before: Store, after: Store, topics: seq<TopicId>)
    requires Grows(before, after) && forall t <- topics :: t in before
    ensures Extends(Histories(before, topics), Histories(after, topics))
  {
    forall i | 0 <= i < |topics| ensures History(before, topics[i]) <= History(after, topics[i]) {
      HistoryGrows(before, after, topics[i]);
    }
  }

  lemma StrictBefore(nodes: map<NodeId, Node>, before: Store, after: Store)
    requires Grows(before, after) && StrictInputs(nodes, after)
    requires forall n <- nodes, t <- nodes[n].inputs :: t in before
    ensures StrictInputs(nodes, before)
  {
    forall n <- nodes | nodes[n].joined ensures AllStrict(Histories(before, nodes[n].inputs)) {
      var a, b := Histories(before, nodes[n].inputs), Histories(after, nodes[n].inputs);
      HistoriesGrow(before, after, nodes[n].inputs);
      forall i | 0 <= i < |a| ensures StrictlySorted(a[i]) {
        assert a[i] <= b[i] && StrictlySorted(b[i]);
      }
    }
  }

  /** Growth never changes what a node has already processed. */
  lemma ProcessedStable(n: Node, before: Store, after: Store)
    requires n.inputs != [] && (forall t <- n.inputs :: t in before)
    requires StoreOk(before) && StoreOk(after) && Grows(before, after)
    requires MarksOk(n, before)
    requires n.joined ==> AllStrict(Histories(after, n.inputs))
    ensures Processed(n, after) == Processed(n, before)
    ensures MarksOk(n, after)
  {
    var t := n.inputs[0];
    var prior, grown := before[t], after[t];
    var added := grown[|prior|..];
    assert grown == prior + added;
    RisingAbove(prior, added);
    if n.joined {
      var hs, hs' := Histories(before, n.inputs), Histories(after, n.inputs);
      HistoriesGrow(before, after, n.inputs);
      HistoriesSorted(before, n.inputs);
      JoinStable(hs, hs', MIN_TIMESTAMP, n.timeMark);
      if n.timeMark != MIN_TIMESTAMP {
        JoinedBeforeIsFinal(hs, hs', n.timeMark, n.timeMark);
      }
    } else {
      ChunksUpToStable(prior, added, n.chunkMark);
    }
  }
}
