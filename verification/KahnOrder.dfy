/** Kahn's algorithm over the downstream table. */
module KahnOrder {
  import opened Folding
  import opened Orders
  import opened Samples
  import opened World
  import opened Scheduling
  import opened NodeIndexes
  import opened SortedIds

  /** The nodes of `from` that feed node `n`. */
  function PredsIn(edges: Edges, from: set<NodeId>, n: NodeId): set<NodeId> {
    set m | m in from && Edge(edges, m, n)
  }

  type Degrees = map<NodeId, int>

  ghost predicate CountsPreds(nodes: map<NodeId, Node>, edges: Edges, from: set<NodeId>, degrees: Degrees) {
    degrees.Keys == nodes.Keys && forall n <- nodes :: Counts(edges, from, n, degrees[n])
  }

  ghost predicate Counts(edges: Edges, from: set<NodeId>, n: NodeId, count: int) {
    count == |PredsIn(edges, from, n)|
  }

  lemma OneMore(edges: Edges, from: set<NodeId>, m: NodeId, n: NodeId)
    requires m !in from
    ensures |PredsIn(edges, from + {m}, n)| == |PredsIn(edges, from, n)| + if Edge(edges, m, n) then 1 else 0
  {
    assert PredsIn(edges, from + {m}, n) == PredsIn(edges, from, n) + if Edge(edges, m, n) then {m} else {};
  }

  lemma OneLess(edges: Edges, from: set<NodeId>, m: NodeId, n: NodeId)
    requires m in from
    ensures |PredsIn(edges, from - {m}, n)| == |PredsIn(edges, from, n)| - if Edge(edges, m, n) then 1 else 0
  {
    OneMore(edges, from - {m}, m, n);
    assert from - {m} + {m} == from;
  }

  lemma RaiseCounts(nodes: map<NodeId, Node>, edges: Edges, seen: set<NodeId>, degrees: Degrees, m: NodeId,
                    after: Degrees)
    requires CountsPreds(nodes, edges, seen, degrees) && m in edges && m !in seen && after.Keys == nodes.Keys
    requires forall n <- nodes :: after[n] == degrees[n] + if n in edges[m] then 1 else 0
    ensures CountsPreds(nodes, edges, seen + {m}, after)
  {
    forall n <- nodes ensures Counts(edges, seen + {m}, n, after[n]) {
      assert Counts(edges, seen, n, degrees[n]);
      OneMore(edges, seen, m, n);
    }
  }

  /** In-degree of every node. */
  method CountInputs(nodes: map<NodeId, Node>, edges: Edges) returns (degrees: Degrees)
    requires forall m <- edges :: Distinct(edges[m])
    ensures CountsPreds(nodes, edges, edges.Keys, degrees)
  {
    degrees := map n | n in nodes :: 0;
    var left := edges.Keys;
    forall n <- nodes ensures Counts(edges, edges.Keys - left, n, 0) {
      assert PredsIn(edges, edges.Keys - left, n) == {};
    }
    while left != {}
      invariant left <= edges.Keys && CountsPreds(nodes, edges, edges.Keys - left, degrees)
      decreases left
    {
      var m :| m in left;
      var after := Raise(nodes, degrees, edges[m]);
      RaiseCounts(nodes, edges, edges.Keys - left, degrees, m, after);
      assert edges.Keys - (left - {m}) == (edges.Keys - left) + {m};
      left, degrees := left - {m}, after;
    }
    assert edges.Keys - left == edges.Keys;
  }

  method Raise(nodes: map<NodeId, Node>, degrees: Degrees, list: seq<NodeId>) returns (after: Degrees)
    requires degrees.Keys == nodes.Keys && Distinct(list)
    ensures after.Keys == nodes.Keys
    ensures forall n <- nodes :: after[n] == degrees[n] + if n in list then 1 else 0
  {
    after := degrees;
    for i := 0 to |list|
      invariant after.Keys == nodes.Keys
      invariant forall n <- nodes :: after[n] == degrees[n] + if n in list[..i] then 1 else 0
    {
      PrefixHas(list, i);
      assert list[i] !in list[..i];
      if list[i] in nodes {
        after := after[list[i] := after[list[i]] + 1];
      }
    }
    assert list[..|list|] == list;
  }

  /** One predecessor of the listed nodes is done; the nodes that have none left become ready. */
  method Lower(nodes: map<NodeId, Node>, degrees: Degrees, list: seq<NodeId>)
      returns (after: Degrees, ready: seq<NodeId>)
    requires degrees.Keys == nodes.Keys && Distinct(list)
    ensures after.Keys == nodes.Keys
    ensures forall n <- nodes :: after[n] == degrees[n] - if n in list then 1 else 0
    ensures Distinct(ready)
    ensures forall n :: n in ready <==> n in list && n in nodes && after[n] == 0
  {
    after, ready := degrees, [];
    for i := 0 to |list|
      invariant after.Keys == nodes.Keys && Distinct(ready)
      invariant forall n <- nodes :: after[n] == degrees[n] - if n in list[..i] then 1 else 0
      invariant forall n :: n in ready <==> n in list[..i] && n in nodes && after[n] == 0
    {
      PrefixHas(list, i);
      assert list[i] !in list[..i];
      if list[i] in nodes {
        after := after[list[i] := after[list[i]] - 1];
        if after[list[i]] == 0 {
          ready := ready + [list[i]];
        }
      }
    }
    assert list[..|list|] == list;
  }

  method Seeds(degrees: Degrees) returns (ready: seq<NodeId>)
    ensures Distinct(ready) && forall n :: n in ready <==> n in degrees && degrees[n] == 0
  {
    ready := [];
    var left := degrees.Keys;
    while left != {}
      invariant left <= degrees.Keys && Distinct(ready)
      invariant forall n :: n in ready <==> n in degrees && n !in left && degrees[n] == 0
      decreases left
    {
      var n :| n in left;
      left := left - {n};
      if degrees[n] == 0 {
        ready := ready + [n];
      }
    }
  }

  lemma SortKeepsDistinct(s: seq<nat>)
    requires Distinct(s)
    ensures Distinct(Sort(s)) && forall n :: n in Sort(s) <==> n in s
  {
    SortMeaning(s);
    var r := Sort(s);
    forall n | n in s ensures multiset(s)[n] == 1 {
      DistinctCount(s, n);
    }
    forall i, j | 0 <= i < j < |r| ensures r[i] != r[j] {
      if r[i] == r[j] {
        assert r[i] in s;
        TwiceCount(r, i, j);
      }
    }
  }

  lemma {:induction false} DistinctCount(s: seq<nat>, n: nat)
    requires Distinct(s)
    ensures multiset(s)[n] == if n in s then 1 else 0
  {
    if s != [] {
      var front, last := s[..|s| - 1], s[|s| - 1];
      DistinctCount(front, n);
      assert s == front + [last];
    }
  }

  lemma TwiceCount(s: seq<nat>, i: nat, j: nat)
    requires i < j < |s| && s[i] == s[j]
    ensures multiset(s)[s[i]] >= 2
  {
    assert s == s[..j] + [s[j]] + s[j + 1..];
    assert s[i] in s[..j];
  }

  /** Every feeder of the i-th ready node was taken before, and lies before it. */
  ghost predicate FeedersFirst(edges: Edges, ready: seq<NodeId>, head: nat)
    requires head <= |ready|
  {
    forall i, m {:trigger Edge(edges, m, ready[i])} | 0 <= i < |ready| && Edge(edges, m, ready[i]) ::
      m in ready[..i] && m in ready[..head]
  }

  /** When producers are older than consumers, no node can wait for ever. */
  lemma {:induction false} AllReady(nodes: map<NodeId, Node>, edges: Edges, order: seq<NodeId>, n: NodeId)
    requires EdgesExact(nodes, edges) && ProducersOk(nodes) && n in nodes
    requires forall m <- nodes | m !in order :: PredsIn(edges, nodes.Keys - ToSet(order), m) != {}
    ensures n in order
    decreases n
  {
    if n !in order {
      var m :| m in PredsIn(edges, nodes.Keys - ToSet(order), n);
      assert Edge(edges, m, n) && Feeds(nodes[m], nodes[n]);
      AllReady(nodes, edges, order, m);
    }
  }

  ghost predicate KahnState(nodes: map<NodeId, Node>, edges: Edges, degrees: Degrees, ready: seq<NodeId>, head: nat) {
    && head <= |ready|
    && Distinct(ready)
    && CountsPreds(nodes, edges, nodes.Keys - ToSet(ready[..head]), degrees)
    && (forall n :: n in ready <==> n in nodes && degrees[n] == 0)
    && FeedersFirst(edges, ready, head)
  }

  /** The same, folded. */
  ghost predicate Kahn(nodes: map<NodeId, Node>, edges: Edges, degrees: Degrees, ready: seq<NodeId>, head: nat) {
    forall n: nat {:trigger UnfoldAt(n)} | n == head :: KahnState(nodes, edges, degrees, ready, n)
  }

  lemma KahnMeaning(nodes: map<NodeId, Node>, edges: Edges, degrees: Degrees, ready: seq<NodeId>, head: nat)
    ensures Kahn(nodes, edges, degrees, ready, head) <==> KahnState(nodes, edges, degrees, ready, head)
  {
    assert UnfoldAt(head);
  }

  /** Terminates with every node once, every producer before its consumers. */
  method KahnSort(nodes: map<NodeId, Node>, edges: Edges) returns (order: seq<NodeId>)
    requires EdgesExact(nodes, edges) && ProducersOk(nodes)
    ensures TopologicalOrder(nodes, order)
  {
    var degrees, ready := Start(nodes, edges);
    order := [];
    var head := 0;
    while head < |ready|
      invariant head <= |ready| && Kahn(nodes, edges, degrees, ready, head) && order == ready[..head]
      decreases |nodes| - head
    {
      HeadBound(nodes, edges, degrees, ready, head);
      var queue;
      degrees, queue := TakeHead(nodes, edges, degrees, ready, head);
      TakesNext(ready, queue, head);
      head, order, ready := head + 1, order + [ready[head]], queue;
    }
    Ends(nodes, edges, degrees, ready, head);
  }

  /** The queue starts with the nodes that have no producer, in id order. */
  method Start(nodes: map<NodeId, Node>, edges: Edges) returns (degrees: Degrees, ready: seq<NodeId>)
    requires EdgesExact(nodes, edges)
    ensures Kahn(nodes, edges, degrees, ready, 0)
  {
    degrees := CountInputs(nodes, edges);
    ready := Seeds(degrees);
    SortKeepsDistinct(ready);
    ready := Sort(ready);
    Starts(nodes, edges, degrees, ready);
    KahnMeaning(nodes, edges, degrees, ready, 0);
  }

  /** Takes one ready node: its consumers lose a predecessor, and those that have none left join the queue. */
  method TakeHead(nodes: map<NodeId, Node>, edges: Edges, degrees: Degrees, ready: seq<NodeId>, head: nat)
      returns (after: Degrees, queue: seq<NodeId>)
    requires EdgesExact(nodes, edges) && Kahn(nodes, edges, degrees, ready, head) && head < |ready|
    ensures Kahn(nodes, edges, after, queue, head + 1) && ready <= queue
  {
    var n := ready[head];
    KahnMeaning(nodes, edges, degrees, ready, head);
    after, queue := degrees, ready;
    var newly: seq<NodeId> := [];
    if n in edges {
      after, newly := Lower(nodes, degrees, edges[n]);
      SortKeepsDistinct(newly);
      newly := Sort(newly);
    }
    Takes(nodes, edges, degrees, ready, head, after, newly);
    queue := ready + newly;
    KahnMeaning(nodes, edges, after, queue, head + 1);
  }

  lemma TakesNext(ready: seq<NodeId>, queue: seq<NodeId>, head: nat)
    requires head < |ready| && ready <= queue
    ensures ready[..head] + [ready[head]] == queue[..head + 1]
  {
  }

  lemma HeadBound(nodes: map<NodeId, Node>, edges: Edges, degrees: Degrees, ready: seq<NodeId>, head: nat)
    requires head < |ready| && Kahn(nodes, edges, degrees, ready, head)
    ensures head < |nodes|
  {
    KahnMeaning(nodes, edges, degrees, ready, head);
    DistinctSize(ready);
    assert ToSet(ready) <= nodes.Keys;
    SubsetSize(ToSet(ready), nodes.Keys);
  }

  lemma SubsetSize(a: set<NodeId>, b: set<NodeId>)
    requires a <= b
    ensures |a| <= |b|
  {
    assert b == a + (b - a);
  }

  lemma {:induction false} DistinctSize(s: seq<NodeId>)
    requires Distinct(s)
    ensures |ToSet(s)| == |s|
  {
    if s != [] {
      var front, last := s[..|s| - 1], s[|s| - 1];
      DistinctSize(front);
      assert s == front + [last];
      assert ToSet(s) == ToSet(front) + {last};
    }
  }

  lemma Starts(nodes: map<NodeId, Node>, edges: Edges, degrees: Degrees, ready: seq<NodeId>)
    requires EdgesExact(nodes, edges) && CountsPreds(nodes, edges, edges.Keys, degrees)
    requires Distinct(ready) && forall n :: n in ready <==> n in degrees && degrees[n] == 0
    ensures KahnState(nodes, edges, degrees, ready, 0)
  {
    forall n <- nodes ensures PredsIn(edges, nodes.Keys - ToSet(ready[..0]), n) == PredsIn(edges, edges.Keys, n) {
    }
    forall i, m | 0 <= i < |ready| ensures !Edge(edges, m, ready[i]) {
      assert ready[i] in ready;
      assert m !in PredsIn(edges, edges.Keys, ready[i]);
    }
  }

  /** Taking the head node keeps the state. */
  lemma Takes(nodes: map<NodeId, Node>, edges: Edges, degrees: Degrees, ready: seq<NodeId>, head: nat,
              after: Degrees, newly: seq<NodeId>)
    requires EdgesExact(nodes, edges) && KahnState(nodes, edges, degrees, ready, head) && head < |ready|
    requires after.Keys == nodes.Keys && Distinct(newly)
    requires forall n <- nodes :: after[n] == degrees[n] - if Edge(edges, ready[head], n) then 1 else 0
    requires forall n :: n in newly <==> Edge(edges, ready[head], n) && n in nodes && after[n] == 0
    ensures KahnState(nodes, edges, after, ready + newly, head + 1)
  {
    var ready' := ready + newly;
    TakesCounts(nodes, edges, degrees, ready, head, after);
    assert ready'[..head + 1] == ready[..head + 1];
    TakesMembers(nodes, edges, degrees, ready, head, after, newly);
    TakesDistinct(nodes, degrees, ready, newly);
    TakesFeeders(nodes, edges, ready, head, after, newly);
  }

  lemma TakesMembers(nodes: map<NodeId, Node>, edges: Edges, degrees: Degrees, ready: seq<NodeId>, head: nat,
                     after: Degrees, newly: seq<NodeId>)
    requires KahnState(nodes, edges, degrees, ready, head) && head < |ready|
    requires CountsPreds(nodes, edges, nodes.Keys - ToSet(ready[..head + 1]), after)
    requires forall n <- nodes :: after[n] == degrees[n] - if Edge(edges, ready[head], n) then 1 else 0
    requires forall n :: n in newly <==> Edge(edges, ready[head], n) && n in nodes && after[n] == 0
    ensures forall m :: m in ready + newly <==> m in nodes && after[m] == 0
  {
    forall m ensures m in ready + newly <==> m in nodes && after[m] == 0 {
      assert m in nodes ==> after[m] >= 0;
    }
  }

  lemma TakesFeeders(nodes: map<NodeId, Node>, edges: Edges, ready: seq<NodeId>, head: nat, after: Degrees,
                     newly: seq<NodeId>)
    requires head < |ready| && FeedersFirst(edges, ready, head)
    requires CountsPreds(nodes, edges, nodes.Keys - ToSet(ready[..head + 1]), after)
    requires forall n <- newly :: n in nodes && after[n] == 0
    requires EdgesExact(nodes, edges)
    ensures FeedersFirst(edges, ready + newly, head + 1)
  {
    var ready' := ready + newly;
    assert ready'[..head + 1] == ready[..head + 1];
    forall i, m | 0 <= i < |ready'| && Edge(edges, m, ready'[i])
      ensures m in ready'[..i] && m in ready'[..head + 1]
    {
      if i < |ready| {
        assert m in ready[..i] && m in ready[..head];
        PrefixGrows(ready, newly, i, i, m);
        PrefixGrows(ready, newly, head, head + 1, m);
      } else {
        assert ready'[i] in newly;
        NoneLeft(edges, nodes.Keys - ToSet(ready[..head + 1]), ready'[i], m);
        PrefixGrows(ready, newly, head + 1, i, m);
      }
    }
  }

  lemma NoneLeft(edges: Edges, rest: set<NodeId>, n: NodeId, m: NodeId)
    requires Counts(edges, rest, n, 0) && Edge(edges, m, n)
    ensures m !in rest
  {
    assert m in rest ==> m in PredsIn(edges, rest, n);
  }

  lemma PrefixGrows(a: seq<NodeId>, b: seq<NodeId>, i: nat, j: nat, x: NodeId)
    requires i <= |a| && i <= j <= |a + b| && x in a[..i]
    ensures x in (a + b)[..j]
  {
    var k :| 0 <= k < i && a[k] == x;
    assert (a + b)[..j][k] == x;
  }

  lemma TakesDistinct(nodes: map<NodeId, Node>, degrees: Degrees, ready: seq<NodeId>, newly: seq<NodeId>)
    requires degrees.Keys == nodes.Keys && Distinct(ready) && Distinct(newly)
    requires forall n :: n in ready ==> n in nodes && degrees[n] == 0
    requires forall n :: n in newly ==> n in nodes && degrees[n] == 1
    ensures Distinct(ready + newly)
  {
    forall i, j | 0 <= i < |ready| && 0 <= j < |newly| ensures ready[i] != newly[j] {
      assert ready[i] in ready && newly[j] in newly;
    }
  }

  lemma TakesCounts(nodes: map<NodeId, Node>, edges: Edges, degrees: Degrees, ready: seq<NodeId>, head: nat,
                    after: Degrees)
    requires KahnState(nodes, edges, degrees, ready, head) && head < |ready| && after.Keys == nodes.Keys
    requires forall n <- nodes :: after[n] == degrees[n] - if Edge(edges, ready[head], n) then 1 else 0
    ensures CountsPreds(nodes, edges, nodes.Keys - ToSet(ready[..head + 1]), after)
  {
    var rest, n := nodes.Keys - ToSet(ready[..head]), ready[head];
    assert n !in ready[..head] && n in ready;
    PrefixHas(ready, head);
    assert nodes.Keys - ToSet(ready[..head + 1]) == rest - {n};
    forall m <- nodes ensures Counts(edges, rest - {n}, m, after[m]) {
      assert Counts(edges, rest, m, degrees[m]);
      OneLess(edges, rest, n, m);
    }
  }

  lemma Ends(nodes: map<NodeId, Node>, edges: Edges, degrees: Degrees, ready: seq<NodeId>, head: nat)
    requires EdgesExact(nodes, edges) && ProducersOk(nodes)
    requires Kahn(nodes, edges, degrees, ready, head) && |ready| <= head
    ensures TopologicalOrder(nodes, ready)
  {
    KahnMeaning(nodes, edges, degrees, ready, head);
    assert ready[..head] == ready;
    forall n <- nodes ensures n in ready {
      AllReady(nodes, edges, ready, n);
    }
    forall i, j | 0 <= i < |ready| && 0 <= j < |ready| && Feeds(nodes[ready[i]], nodes[ready[j]]) ensures i < j {
      assert ready[i] in ready && ready[j] in ready;
      assert Edge(edges, ready[i], ready[j]);
      var k :| 0 <= k < j && ready[k] == ready[i];
    }
  }
}
