/** The breadth-first search that finds everything the active nodes depend on. */
module UpstreamFilter {
  import opened Samples
  import opened World
  import opened Scheduling
  import opened NodeIndexes

  /** A set that must contain the filter. */
  ghost predicate Bounds(nodes: map<NodeId, Node>, active: set<NodeId>, g: set<NodeId>) {
    active * nodes.Keys <= g && UpstreamClosed(nodes, g)
  }

  /** Members whose feeders may be missing are still in the queue. */
  ghost predicate FeedersIn(nodes: map<NodeId, Node>, filter: set<NodeId>, queue: seq<NodeId>) {
    forall m, n {:trigger Feeds(nodes[m], nodes[n])} |
      m in nodes && n in nodes && n in filter && Feeds(nodes[m], nodes[n]) :: m in filter || n in queue
  }

  ghost predicate Least(nodes: map<NodeId, Node>, active: set<NodeId>, filter: set<NodeId>) {
    forall g: set<NodeId> | Bounds(nodes, active, g) :: filter <= g
  }

  /** The least upstream-closed set that holds the active nodes. */
  method Filter(nodes: map<NodeId, Node>, producers: Producers, active: set<NodeId>) returns (filter: set<NodeId>)
    requires ProducersExact(nodes, producers)
    ensures UpstreamClosure(nodes, active, filter)
  {
    var queue := Known(nodes, active);
    filter := set n | n in queue;
    assert filter == active * nodes.Keys;
    while queue != []
      invariant filter <= nodes.Keys && active * nodes.Keys <= filter
      invariant forall n <- queue :: n in filter
      invariant FeedersIn(nodes, filter, queue) && Least(nodes, active, filter)
      decreases nodes.Keys - filter, |queue|
    {
      filter, queue := Expand(nodes, producers, active, filter, queue);
    }
    forall g: set<NodeId> | active * nodes.Keys <= g && UpstreamClosed(nodes, g) ensures filter <= g {
      assert Bounds(nodes, active, g);
    }
  }

  method Known(nodes: map<NodeId, Node>, active: set<NodeId>) returns (queue: seq<NodeId>)
    ensures forall n :: n in queue <==> n in active && n in nodes
  {
    queue := [];
    var left := active;
    while left != {}
      invariant left <= active
      invariant forall n :: n in queue <==> n in active && n !in left && n in nodes
      decreases left
    {
      var n :| n in left;
      left := left - {n};
      if n in nodes {
        queue := queue + [n];
      }
    }
  }

  /** Takes the first queued node and admits its producers. */
  method Expand(nodes: map<NodeId, Node>, producers: Producers, active: set<NodeId>, filter: set<NodeId>,
                queue: seq<NodeId>)
      returns (wider: set<NodeId>, rest: seq<NodeId>)
    requires ProducersExact(nodes, producers) && queue != []
    requires filter <= nodes.Keys && (forall n <- queue :: n in filter)
    requires FeedersIn(nodes, filter, queue) && Least(nodes, active, filter)
    ensures filter <= wider <= nodes.Keys && (forall n <- rest :: n in wider)
    ensures FeedersIn(nodes, wider, rest) && Least(nodes, active, wider)
    ensures wider == filter ==> |rest| < |queue|
  {
    var curr := queue[0];
    var inputs := nodes[curr].inputs;
    wider, rest := filter, queue[1..];
    for i := 0 to |inputs|
      invariant filter <= wider <= nodes.Keys && (wider == filter ==> rest == queue[1..])
      invariant forall n <- rest :: n in wider
      invariant forall n <- queue :: n == curr || n in rest
      invariant forall n <- wider :: n in filter || (n in rest && Feeds(nodes[n], nodes[curr]))
      invariant forall t <- inputs[..i] | t in producers :: producers[t] in wider
    {
      PrefixHas(inputs, i);
      if inputs[i] in producers {
        var prod := producers[inputs[i]];
        assert Writes(producers, inputs[i], prod);
        if prod !in wider {
          assert Feeds(nodes[prod], nodes[curr]);
          wider, rest := wider + {prod}, rest + [prod];
        }
      }
    }
    ExpandCovers(nodes, producers, filter, queue, wider, rest);
    ExpandIsLeast(nodes, active, filter, curr, wider);
  }

  lemma ExpandCovers(nodes: map<NodeId, Node>, producers: Producers, filter: set<NodeId>, queue: seq<NodeId>,
                     wider: set<NodeId>, rest: seq<NodeId>)
    requires ProducersExact(nodes, producers) && queue != [] && queue[0] in nodes
    requires FeedersIn(nodes, filter, queue) && filter <= wider <= nodes.Keys
    requires forall n <- queue :: n == queue[0] || n in rest
    requires forall n <- wider :: n in filter || n in rest
    requires forall t <- nodes[queue[0]].inputs | t in producers :: producers[t] in wider
    ensures FeedersIn(nodes, wider, rest)
  {
    forall m, n | m in nodes && n in nodes && n in wider && Feeds(nodes[m], nodes[n]) ensures m in wider || n in rest {
      if n == queue[0] {
        var t :| t in nodes[m].outputs && t in nodes[n].inputs;
        assert Writes(producers, t, m);
      }
    }
  }

  lemma ExpandIsLeast(nodes: map<NodeId, Node>, active: set<NodeId>, filter: set<NodeId>, curr: NodeId,
                      wider: set<NodeId>)
    requires Least(nodes, active, filter) && curr in filter && filter <= wider <= nodes.Keys
    requires forall n <- wider :: n in filter || Feeds(nodes[n], nodes[curr])
    ensures Least(nodes, active, wider)
  {
    forall g: set<NodeId> | Bounds(nodes, active, g) ensures wider <= g {
      assert filter <= g;
      forall n <- wider ensures n in g {
        assert n !in filter ==> Feeds(nodes[n], nodes[curr]);
      }
    }
  }
}
