/** The lookup tables kept beside the node set, and the updates that keep them exact. */
module NodeIndexes {
  import opened Orders
  import opened Samples
  import opened World
  import opened Denotation

  /** The nodes that consume an output of each node. */
  type Edges = map<NodeId, seq<NodeId>>

  /** The nodes that read each topic. */
  type Readers = map<TopicId, seq<NodeId>>

  /** The node that writes each derived topic. */
  type Producers = map<TopicId, NodeId>

  predicate Edge(edges: Edges, m: NodeId, n: NodeId) {
    m in edges && n in edges[m]
  }

  predicate Reads(readers: Readers, t: TopicId, n: NodeId) {
    t in readers && n in readers[t]
  }

  predicate Writes(producers: Producers, t: TopicId, n: NodeId) {
    t in producers && producers[t] == n
  }

  /** `downstream_of` is the feeding relation, each consumer listed once. */
  ghost predicate EdgesExact(nodes: map<NodeId, Node>, edges: Edges) {
    && (forall m, n {:trigger Edge(edges, m, n)} ::
          Edge(edges, m, n) <==> m in nodes && n in nodes && Feeds(nodes[m], nodes[n]))
    && (forall m <- edges :: Distinct(edges[m]))
  }

  ghost predicate ReadersExact(nodes: map<NodeId, Node>, readers: Readers) {
    forall t, n {:trigger Reads(readers, t, n)} :: Reads(readers, t, n) <==> n in nodes && t in nodes[n].inputs
  }

  ghost predicate ProducersExact(nodes: map<NodeId, Node>, producers: Producers) {
    forall t, n {:trigger Writes(producers, t, n)} :: Writes(producers, t, n) <==> n in nodes && t in nodes[n].outputs
  }

  /** Consumers found by topic are the nodes fed: producers are unique. */
  lemma FeedsByTopic(nodes: map<NodeId, Node>, producers: Producers, m: NodeId, b: Node)
    requires ProducersExact(nodes, producers) && m in nodes
    ensures Feeds(nodes[m], b) <==> exists t <- b.inputs :: Writes(producers, t, m)
  {
    if Feeds(nodes[m], b) {
      var t :| t in nodes[m].outputs && t in b.inputs;
      assert Writes(producers, t, m);
    }
    if exists t <- b.inputs :: Writes(producers, t, m) {
      var t :| t in b.inputs && Writes(producers, t, m);
      assert t in nodes[m].outputs;
    }
  }

  lemma PrefixHas<T>(s: seq<T>, i: nat)
    requires i < |s|
    ensures forall x :: x in s[..i + 1] <==> x in s[..i] || x == s[i]
  {
    assert s[..i + 1] == s[..i] + [s[i]];
  }

  // ---------------------------------------------------------------- adding a node

  function WithReader(readers: Readers, t: TopicId, id: NodeId): Readers {
    readers[t := (if t in readers then readers[t] else []) + [id]]
  }

  lemma AddedReader(readers: Readers, t: TopicId, id: NodeId)
    ensures forall u, n :: Reads(WithReader(readers, t, id), u, n) <==> Reads(readers, u, n) || (n == id && u == t)
  {
  }

  method AddReader(readers: Readers, inputs: seq<TopicId>, id: NodeId) returns (after: Readers)
    ensures forall t, n :: Reads(after, t, n) <==> Reads(readers, t, n) || (n == id && t in inputs)
  {
    after := readers;
    for i := 0 to |inputs|
      invariant forall t, n :: Reads(after, t, n) <==> Reads(readers, t, n) || (n == id && t in inputs[..i])
    {
      PrefixHas(inputs, i);
      AddedReader(after, inputs[i], id);
      after := WithReader(after, inputs[i], id);
    }
  }

  method AddProducer(producers: Producers, outputs: seq<TopicId>, id: NodeId) returns (after: Producers)
    ensures forall t, n :: Writes(after, t, n) <==> if t in outputs then n == id else Writes(producers, t, n)
  {
    after := producers;
    for i := 0 to |outputs|
      invariant forall t, n :: Writes(after, t, n) <==> if t in outputs[..i] then n == id else Writes(producers, t, n)
    {
      PrefixHas(outputs, i);
      ghost var before := after;
      after := after[outputs[i] := id];
      assert forall t, n :: Writes(after, t, n) <==> if t == outputs[i] then n == id else Writes(before, t, n);
    }
  }

  method AddEdges(edges: Edges, producers: Producers, inputs: seq<TopicId>, id: NodeId) returns (after: Edges)
    requires forall m <- edges :: Distinct(edges[m])
    ensures forall m <- after :: Distinct(after[m])
    ensures forall m, n :: Edge(after, m, n) <==>
              Edge(edges, m, n) || (n == id && exists t <- inputs :: Writes(producers, t, m))
  {
    after := edges;
    for i := 0 to |inputs|
      invariant forall m <- after :: Distinct(after[m])
      invariant forall m, n :: Edge(after, m, n) <==>
                  Edge(edges, m, n) || (n == id && exists t <- inputs[..i] :: Writes(producers, t, m))
    {
      var t := inputs[i];
      ghost var before := after;
      assert inputs[..i + 1] == inputs[..i] + [t];
      if t in producers {
        var m := producers[t];
        var list := if m in after then after[m] else [];
        if id !in list {
          after := after[m := list + [id]];
        }
        assert Edge(after, m, id);
      }
      forall m, n
        ensures Edge(after, m, n) <==>
                Edge(edges, m, n) || (n == id && exists u <- inputs[..i + 1] :: Writes(producers, u, m))
      {
        assert Edge(after, m, n) <==> Edge(before, m, n) || (n == id && Writes(producers, t, m));
      }
    }
  }

  lemma AddKeepsEdges(nodes: map<NodeId, Node>, id: NodeId, b: Node, edges: Edges, after: Edges,
                      producers: Producers, producers': Producers)
    requires id !in nodes && EdgesExact(nodes, edges) && ProducersExact(nodes, producers)
    requires forall t, n :: Writes(producers', t, n) <==> if t in b.outputs then n == id else Writes(producers, t, n)
    requires forall t <- b.inputs :: t !in b.outputs
    requires forall n <- nodes :: !Feeds(b, nodes[n])
    requires forall m <- after :: Distinct(after[m])
    requires forall m, n :: Edge(after, m, n) <==>
               Edge(edges, m, n) || (n == id && exists t <- b.inputs :: Writes(producers', t, m))
    ensures EdgesExact(nodes[id := b], after)
  {
    var nodes' := nodes[id := b];
    forall m, n ensures Edge(after, m, n) <==> m in nodes' && n in nodes' && Feeds(nodes'[m], nodes'[n]) {
      assert Edge(edges, m, n) ==> m in nodes && n in nodes;
      if n == id && m in nodes {
        FeedsByTopic(nodes, producers, m, b);
      }
      forall t <- b.inputs ensures Writes(producers', t, m) <==> Writes(producers, t, m) {
      }
    }
  }

  // ---------------------------------------------------------------- removing a node

  /** The list without `id`. */
  function Without(list: seq<NodeId>, id: NodeId): (r: seq<NodeId>)
    ensures forall n :: n in r <==> n in list && n != id
  {
    if list == [] then []
    else
      var front, last := Without(list[..|list| - 1], id), list[|list| - 1];
      if last == id then front else front + [last]
  }

  lemma {:induction false} WithoutDistinct(list: seq<NodeId>, id: NodeId)
    requires Distinct(list)
    ensures Distinct(Without(list, id))
  {
    if list != [] {
      var front, last := list[..|list| - 1], list[|list| - 1];
      WithoutDistinct(front, id);
      assert last !in front;
    }
  }

  method DropReader(readers: Readers, inputs: seq<TopicId>, id: NodeId) returns (after: Readers)
    ensures forall t, n :: Reads(after, t, n) <==> Reads(readers, t, n) && !(n == id && t in inputs)
  {
    after := readers;
    for i := 0 to |inputs|
      invariant forall t, n :: Reads(after, t, n) <==> Reads(readers, t, n) && !(n == id && t in inputs[..i])
    {
      var t := inputs[i];
      PrefixHas(inputs, i);
      ghost var before := after;
      after := after[t := Without(if t in after then after[t] else [], id)];
      assert forall u, n :: Reads(after, u, n) <==> Reads(before, u, n) && !(n == id && u == t);
    }
  }

  method DropProducer(producers: Producers, outputs: seq<TopicId>) returns (after: Producers)
    ensures forall t, n :: Writes(after, t, n) <==> Writes(producers, t, n) && t !in outputs
  {
    after := producers;
    for i := 0 to |outputs|
      invariant forall t, n :: Writes(after, t, n) <==> Writes(producers, t, n) && t !in outputs[..i]
    {
      PrefixHas(outputs, i);
      after := after - {outputs[i]};
    }
  }

  method DropEdges(edges: Edges, id: NodeId) returns (after: Edges)
    requires forall m <- edges :: Distinct(edges[m])
    ensures forall m <- after :: Distinct(after[m])
    ensures forall m, n :: Edge(after, m, n) <==> Edge(edges, m, n) && m != id && n != id
  {
    after := edges - {id};
    var left := after.Keys;
    while left != {}
      invariant left <= after.Keys == edges.Keys - {id}
      invariant forall m <- after :: Distinct(after[m])
      invariant forall m, n :: Edge(after, m, n) <==> Edge(edges, m, n) && m != id && (n != id || m in left)
      decreases |left|
    {
      var m :| m in left;
      WithoutDistinct(after[m], id);
      after := after[m := Without(after[m], id)];
      left := left - {m};
    }
  }

  lemma DropKeepsEdges(nodes: map<NodeId, Node>, id: NodeId, edges: Edges, after: Edges)
    requires EdgesExact(nodes, edges)
    requires forall m <- after :: Distinct(after[m])
    requires forall m, n :: Edge(after, m, n) <==> Edge(edges, m, n) && m != id && n != id
    ensures EdgesExact(nodes - {id}, after)
  {
    var nodes' := nodes - {id};
    forall m, n ensures Edge(after, m, n) <==> m in nodes' && n in nodes' && Feeds(nodes'[m], nodes'[n]) {
      assert Edge(edges, m, n) <==> m in nodes && n in nodes && Feeds(nodes[m], nodes[n]);
    }
  }
}
