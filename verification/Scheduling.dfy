/** A scheduling pass over the graph: which nodes run, in which order, and what the pass achieves. */
module Scheduling {
  import opened Orders
  import opened Samples
  import opened Transforms
  import opened Join
  import opened World
  import opened NodeRuns

  /** Every node once, every producer before its consumers. */
  ghost predicate TopologicalOrder(nodes: map<NodeId, Node>, order: seq<NodeId>) {
    && Distinct(order)
    && (forall n :: n in order <==> n in nodes)
    && (forall i, j {:trigger Feeds(nodes[order[i]], nodes[order[j]])} |
          0 <= i < |order| && 0 <= j < |order| && Feeds(nodes[order[i]], nodes[order[j]]) :: i < j)
  }

  ghost predicate UpstreamClosed(nodes: map<NodeId, Node>, f: set<NodeId>) {
    forall m, n {:trigger Feeds(nodes[m], nodes[n])} |
      m in nodes && n in nodes && n in f && Feeds(nodes[m], nodes[n]) :: m in f
  }

  /** `f` is the least set that holds the active nodes and every producer of its members. */
  ghost predicate UpstreamClosure(nodes: map<NodeId, Node>, active: set<NodeId>, f: set<NodeId>) {
    && f <= nodes.Keys
    && active * nodes.Keys <= f
    && UpstreamClosed(nodes, f)
    && forall g: set<NodeId> | active * nodes.Keys <= g && UpstreamClosed(nodes, g) :: f <= g
  }

  /** An empty active set stands for all nodes. */
  predicate Chosen(active: set<NodeId>, filter: set<NodeId>, id: NodeId) {
    active == {} || id in filter
  }

  /** The pass reaches node `id`: it runs if chosen and dirty, otherwise nothing happens. */
  ghost predicate Visits(w: World, id: NodeId, chosen: bool, w': World) {
    && GraphOk(w)
    && id in w.nodes
    && if chosen && w.nodes[id].dirty then RunsNode(w, id, w') else w' == w
  }

  ghost predicate VisitsAt(active: set<NodeId>, filter: set<NodeId>, order: seq<NodeId>, ws: seq<World>, i: nat)
    requires i < |order| && |ws| == |order| + 1
  {
    Visits(ws[i], order[i], Chosen(active, filter, order[i]), ws[i + 1])
  }

  /** `ws` are the states of one pass over `order`, one visit between each two. */
  ghost predicate Pass(active: set<NodeId>, filter: set<NodeId>, order: seq<NodeId>, ws: seq<World>) {
    && |ws| == |order| + 1
    && forall i | 0 <= i < |order| :: VisitsAt(active, filter, order, ws, i)
  }

  ghost predicate SameFrame(w: World, w': World) {
    && SameGraph(w.nodes, w'.nodes) && Grows(w.store, w'.store) && w'.store.Keys == w.store.Keys
    && w'.nextNode == w.nextNode && w'.nextTopic == w.nextTopic
  }

  lemma VisitFrame(active: set<NodeId>, filter: set<NodeId>, order: seq<NodeId>, ws: seq<World>, i: nat)
    requires Pass(active, filter, order, ws) && i < |order|
    ensures SameFrame(ws[i], ws[i + 1]) && GraphOk(ws[i])
  {
    assert VisitsAt(active, filter, order, ws, i);
    if ws[i + 1] != ws[i] {
      RunKeepsGraph(ws[i], order[i], ws[i + 1]);
    }
  }

  lemma StrictEarlier(w: World, w': World)
    requires GraphOk(w) && SameFrame(w, w') && StrictInputs(w'.nodes, w'.store)
    ensures StrictInputs(w.nodes, w.store)
  {
    forall n <- w.nodes | w.nodes[n].joined
      ensures AllStrict(Histories(w'.store, w.nodes[n].inputs))
    {
      assert SameShape(w.nodes[n], w'.nodes[n]);
      assert AllStrict(Histories(w'.store, w'.nodes[n].inputs));
    }
    forall n <- w.nodes, t <- w.nodes[n].inputs ensures t in w.store {
      assert TopicsKnown(w.nodes[n], w.store);
    }
    StrictBefore(w.nodes, w.store, w'.store);
  }

  /** Every chosen node among the first `done` of the order is clean. */
  ghost predicate CleanSoFar(nodes: map<NodeId, Node>, active: set<NodeId>, filter: set<NodeId>,
                             order: seq<NodeId>, done: nat)
    requires done <= |order|
  {
    forall j | 0 <= j < done && Chosen(active, filter, order[j]) :: order[j] in nodes && !nodes[order[j]].dirty
  }

  /** What a pass cannot change, whatever it runs. */
  lemma {:induction false} PassFrame(
      active: set<NodeId>, filter: set<NodeId>, order: seq<NodeId>, ws: seq<World>, done: nat)
    requires Pass(active, filter, order, ws) && done <= |order|
    ensures SameFrame(ws[0], ws[done])
  {
    if done > 0 {
      PassFrame(active, filter, order, ws, done - 1);
      VisitFrame(active, filter, order, ws, done - 1);
      GrowsTransitive(ws[0].store, ws[done - 1].store, ws[done].store);
    }
  }

  lemma SameOrder(a: map<NodeId, Node>, b: map<NodeId, Node>, order: seq<NodeId>)
    requires SameGraph(a, b) && TopologicalOrder(a, order)
    ensures TopologicalOrder(b, order)
  {
    forall i, j | 0 <= i < |order| && 0 <= j < |order| && Feeds(b[order[i]], b[order[j]]) ensures i < j {
      var m, n := order[i], order[j];
      assert SameShape(a[m], b[m]) && SameShape(a[n], b[n]);
      assert Feeds(a[m], a[n]);
    }
  }

  lemma VisitKeepsInv(active: set<NodeId>, filter: set<NodeId>, order: seq<NodeId>, ws: seq<World>, i: nat)
    requires Pass(active, filter, order, ws) && i < |order|
    requires Inv(ws[i]) && StrictInputs(ws[i + 1].nodes, ws[i + 1].store)
    ensures Inv(ws[i + 1])
  {
    assert VisitsAt(active, filter, order, ws, i);
    if ws[i + 1] != ws[i] {
      RunKeepsInv(ws[i], order[i], ws[i + 1]);
    }
  }

  lemma VisitStrict(active: set<NodeId>, filter: set<NodeId>, order: seq<NodeId>, ws: seq<World>, i: nat)
    requires Pass(active, filter, order, ws) && i < |order| && StrictInputs(ws[i + 1].nodes, ws[i + 1].store)
    ensures StrictInputs(ws[i].nodes, ws[i].store)
  {
    VisitFrame(active, filter, order, ws, i);
    StrictEarlier(ws[i], ws[i + 1]);
  }

  lemma {:induction false} PassKeepsInv(
      active: set<NodeId>, filter: set<NodeId>, order: seq<NodeId>, ws: seq<World>, done: nat)
    requires Pass(active, filter, order, ws) && done <= |order|
    requires Inv(ws[0]) && StrictInputs(ws[done].nodes, ws[done].store)
    ensures Inv(ws[done])
  {
    if done > 0 {
      VisitStrict(active, filter, order, ws, done - 1);
      PassKeepsInv(active, filter, order, ws, done - 1);
      VisitKeepsInv(active, filter, order, ws, done - 1);
    }
  }

  lemma {:induction false} PassCleans(
      active: set<NodeId>, filter: set<NodeId>, order: seq<NodeId>, ws: seq<World>, done: nat)
    requires Pass(active, filter, order, ws) && done <= |order|
    requires TopologicalOrder(ws[0].nodes, order)
    ensures CleanSoFar(ws[done].nodes, active, filter, order, done)
  {
    if done > 0 {
      PassCleans(active, filter, order, ws, done - 1);
      PassFrame(active, filter, order, ws, done - 1);
      SameOrder(ws[0].nodes, ws[done - 1].nodes, order);
      CleanStep(active, filter, order, ws, done - 1);
    }
  }

  /** A visit cleans the visited node if chosen, and can only dirty nodes later in the order. */
  lemma CleanStep(active: set<NodeId>, filter: set<NodeId>, order: seq<NodeId>, ws: seq<World>, at: nat)
    requires Pass(active, filter, order, ws)
    requires at < |order| && TopologicalOrder(ws[at].nodes, order)
    requires CleanSoFar(ws[at].nodes, active, filter, order, at)
    ensures CleanSoFar(ws[at + 1].nodes, active, filter, order, at + 1)
  {
    assert VisitsAt(active, filter, order, ws, at);
    var w, w' := ws[at], ws[at + 1];
    var id := order[at];
    forall j | 0 <= j <= at && Chosen(active, filter, order[j])
      ensures order[j] in w'.nodes && !w'.nodes[order[j]].dirty
    {
      if j < at && w' != w {
        assert !Feeds(w.nodes[id], w.nodes[order[j]]);
      }
    }
  }

  /** What a whole pass achieves: the invariant holds, and every chosen node is clean. */
  lemma PassSettles(active: set<NodeId>, filter: set<NodeId>, order: seq<NodeId>, ws: seq<World>)
    requires Pass(active, filter, order, ws)
    requires Inv(ws[0]) && TopologicalOrder(ws[0].nodes, order)
    requires StrictInputs(ws[|order|].nodes, ws[|order|].store)
    ensures var w := ws[|order|];
            && Inv(w) && SameGraph(ws[0].nodes, w.nodes) && Grows(ws[0].store, w.store)
            && forall n <- w.nodes | Chosen(active, filter, n) :: !w.nodes[n].dirty
  {
    PassFrame(active, filter, order, ws, |order|);
    PassKeepsInv(active, filter, order, ws, |order|);
    PassCleans(active, filter, order, ws, |order|);
    var w := ws[|order|];
    forall n <- w.nodes | Chosen(active, filter, n) ensures !w.nodes[n].dirty {
      assert n in order;
      var j :| 0 <= j < |order| && order[j] == n;
    }
  }

  /** A pass leaves every node it does not choose as it was, apart from its dirty flag, and its outputs untouched. */
  lemma {:induction false} PassLeavesOthers(
      active: set<NodeId>, filter: set<NodeId>, order: seq<NodeId>, ws: seq<World>, done: nat, n: NodeId)
    requires Pass(active, filter, order, ws) && done <= |order|
    requires n in ws[0].nodes && !Chosen(active, filter, n)
    ensures n in ws[done].nodes
    ensures ws[done].nodes[n] == ws[0].nodes[n].(dirty := ws[done].nodes[n].dirty)
    ensures ws[0].nodes[n].dirty ==> ws[done].nodes[n].dirty
    ensures forall t <- ws[0].nodes[n].outputs | t in ws[0].store ::
              t in ws[done].store && ws[done].store[t] == ws[0].store[t]
  {
    if done > 0 {
      var w, w', id := ws[done - 1], ws[done], order[done - 1];
      PassLeavesOthers(active, filter, order, ws, done - 1, n);
      assert VisitsAt(active, filter, order, ws, done - 1);
      if w' != w {
        assert id != n;
        forall t <- w.nodes[n].outputs ensures t !in w.nodes[id].outputs {
          assert Disjoint(w.nodes[n].outputs, w.nodes[id].outputs);
        }
      }
    }
  }
}
