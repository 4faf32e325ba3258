/** What a topic means: the reference definition that knows nothing of chunks, watermarks or dirty flags. */
module Denotation {
  import opened Samples
  import opened Transforms
  import opened Join
  import opened World
  import opened NodeRuns
  import opened Scheduling

  /** The part of a node that never changes. */
  datatype Shape = Shape(joined: bool, inputs: seq<TopicId>, outputs: seq<TopicId>, op: Transform)

  function ShapeOf(n: Node): Shape {
    Shape(n.joined, n.inputs, n.outputs, n.op)
  }

  function Shapes(nodes: map<NodeId, Node>): map<NodeId, Shape> {
    map n | n in nodes :: ShapeOf(nodes[n])
  }

  ghost predicate Produces(graph: map<NodeId, Shape>, n: NodeId, t: TopicId) {
    n in graph && t in graph[n].outputs && graph[n].inputs != []
  }

  ghost function ProducerBelow(graph: map<NodeId, Shape>, bound: NodeId, t: TopicId): (n: NodeId)
    requires exists n: NodeId :: n < bound && Produces(graph, n, t)
    ensures n < bound && Produces(graph, n, t)
  {
    var n: NodeId :| n < bound && Produces(graph, n, t); n
  }

  ghost function IndexOf(s: seq<TopicId>, t: TopicId): (k: nat)
    requires t in s
    ensures k < |s| && s[k] == t
  {
    var k: nat :| k < |s| && s[k] == t; k
  }

  /**
   * The full history of topic `t`: a source topic is what was committed to it, a derived topic is its
   * operator folded over the full histories of its inputs. Only producers older than `bound` count.
   */
  ghost function Meaning(graph: map<NodeId, Shape>, sources: map<TopicId, seq<Row>>, bound: NodeId,
                         t: TopicId): seq<Row>
    decreases bound, 0, 0
  {
    if exists n: NodeId :: n < bound && Produces(graph, n, t) then
      var n := ProducerBelow(graph, bound, t);
      var s := graph[n];
      var events := EventsOf(s.joined, Meanings(graph, sources, n, s.inputs));
      EmitRows(Fold(s.op, s.op.init, events).emits, IndexOf(s.outputs, t))
    else if t in sources then sources[t] else []
  }

  ghost function Meanings(graph: map<NodeId, Shape>, sources: map<TopicId, seq<Row>>, bound: NodeId,
                          topics: seq<TopicId>)
      : (r: seq<seq<Row>>)
    ensures |r| == |topics|
    decreases bound, 1, |topics|
  {
    if topics == [] then []
    else
      var front, last := topics[..|topics| - 1], topics[|topics| - 1];
      Meanings(graph, sources, bound, front) + [Meaning(graph, sources, bound, last)]
  }

  ghost predicate Produced(nodes: map<NodeId, Node>, t: TopicId) {
    exists n :: n in nodes && t in nodes[n].outputs
  }

  /** The committed history of every topic that no node produces. */
  ghost function Sources(w: World): map<TopicId, seq<Row>> {
    map t | t in w.store && !Produced(w.nodes, t) :: History(w.store, t)
  }

  ghost predicate Settled(w: World, f: set<NodeId>) {
    && f <= w.nodes.Keys
    && UpstreamClosed(w.nodes, f)
    && forall n <- f :: !w.nodes[n].dirty
  }

  /** A clean node's outputs are its operator folded over the whole stored history of its inputs. */
  lemma CleanIsComplete(n: Node, store: Store, k: nat)
    requires n.inputs != [] && StoreOk(store) && NodeOk(n, store) && !n.dirty && k < |n.outputs|
    ensures History(store, n.outputs[k]) == EmitRows(Fold(n.op, n.op.init, AllEvents(n, store)).emits, k)
  {
    NodeSplit(n, store);
    assert Processed(n, store) + [] == Processed(n, store);
  }

  /** `t` is a source, or is produced by a settled node older than `bound`. */
  ghost predicate Reached(w: World, f: set<NodeId>, bound: NodeId, t: TopicId) {
    t in w.store && forall n | n in w.nodes && t in w.nodes[n].outputs :: n in f && n < bound
  }

  /** Every topic that settled nodes read or write holds its full meaning. */
  lemma {:induction false} SettledMeaning(w: World, f: set<NodeId>, bound: NodeId, t: TopicId)
    requires Inv(w) && Settled(w, f) && Reached(w, f, bound, t)
    ensures History(w.store, t) == Meaning(Shapes(w.nodes), Sources(w), bound, t)
    decreases bound, 0, 0
  {
    var graph := Shapes(w.nodes);
    if Produced(w.nodes, t) {
      var n :| n in w.nodes && t in w.nodes[n].outputs;
      assert NodeShape(w.nodes[n]) && Produces(graph, n, t);
      InputsReached(w, f, n);
      SettledMeanings(w, f, n, w.nodes[n].inputs);
      ProducedMeaning(w, bound, n, t);
    } else {
      assert !exists n: NodeId :: n < bound && Produces(graph, n, t);
    }
  }

  lemma ProducedMeaning(w: World, bound: NodeId, n: NodeId, t: TopicId)
    requires GraphOk(w) && n in w.nodes && n < bound && Produces(Shapes(w.nodes), n, t)
    requires StoreOk(w.store) && NodeOk(w.nodes[n], w.store) && !w.nodes[n].dirty
    requires Histories(w.store, w.nodes[n].inputs) == Meanings(Shapes(w.nodes), Sources(w), n, w.nodes[n].inputs)
    ensures History(w.store, t) == Meaning(Shapes(w.nodes), Sources(w), bound, t)
  {
    OnlyProducer(w, bound, n, t);
    CleanIsComplete(w.nodes[n], w.store, IndexOf(w.nodes[n].outputs, t));
  }

  lemma {:induction false} SettledMeanings(w: World, f: set<NodeId>, bound: NodeId, topics: seq<TopicId>)
    requires Inv(w) && Settled(w, f) && forall t <- topics :: Reached(w, f, bound, t)
    ensures Histories(w.store, topics) == Meanings(Shapes(w.nodes), Sources(w), bound, topics)
    decreases bound, 1, |topics|
  {
    if topics != [] {
      var front, t := topics[..|topics| - 1], topics[|topics| - 1];
      SettledMeanings(w, f, bound, front);
      SettledMeaning(w, f, bound, t);
      HistoriesLast(w.store, topics);
    }
  }

  lemma HistoriesLast(store: Store, topics: seq<TopicId>)
    requires topics != []
    ensures Histories(store, topics)
            == Histories(store, topics[..|topics| - 1]) + [History(store, topics[|topics| - 1])]
  {
  }

  lemma InputsReached(w: World, f: set<NodeId>, n: NodeId)
    requires GraphOk(w) && n in f && Settled(w, f)
    ensures forall t <- w.nodes[n].inputs :: Reached(w, f, n, t)
  {
    forall t <- w.nodes[n].inputs ensures Reached(w, f, n, t) {
      assert TopicsKnown(w.nodes[n], w.store);
      forall m | m in w.nodes && t in w.nodes[m].outputs ensures m in f && m < n {
        assert Feeds(w.nodes[m], w.nodes[n]);
      }
    }
  }

  lemma OnlyProducer(w: World, bound: NodeId, n: NodeId, t: TopicId)
    requires GraphOk(w) && n in w.nodes && n < bound && Produces(Shapes(w.nodes), n, t)
    ensures ProducerBelow(Shapes(w.nodes), bound, t) == n
  {
    var m := ProducerBelow(Shapes(w.nodes), bound, t);
    assert m != n ==> Disjoint(w.nodes[m].outputs, w.nodes[n].outputs);
  }
}
