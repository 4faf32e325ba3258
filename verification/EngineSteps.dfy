/** The steps of the derived engine on its node set, and how they make up whole passes. */
module EngineSteps {
  import opened Samples
  import opened Transforms
  import opened World
  import opened NodeRuns
  import opened Scheduling
  import opened Denotation
  import opened Runs
  import opened NodeIndexes
  import opened NodeRunner

  /** Sets the dirty flag of the listed nodes; nodes that are gone are skipped. */
  method MarkDirty(nodes: map<NodeId, Node>, list: seq<NodeId>) returns (after: map<NodeId, Node>)
    ensures after.Keys == nodes.Keys
    ensures forall n <- nodes :: after[n] == if n in list then nodes[n].(dirty := true) else nodes[n]
  {
    after := nodes;
    for i := 0 to |list|
      invariant after.Keys == nodes.Keys
      invariant forall n <- nodes :: after[n] == if n in list[..i] then nodes[n].(dirty := true) else nodes[n]
    {
      PrefixHas(list, i);
      if list[i] in after {
        after := after[list[i] := after[list[i]].(dirty := true)];
      }
    }
    assert list[..|list|] == list;
  }

  function Changed(topics: seq<TopicId>): set<TopicId> {
    set t | t in topics
  }

  /** Marks exactly the nodes that read a changed topic. */
  method Notify(nodes: map<NodeId, Node>, readers: Readers, changed: seq<TopicId>) returns (after: map<NodeId, Node>)
    requires ReadersExact(nodes, readers)
    ensures Notified(nodes, Changed(changed), after)
  {
    after := nodes;
    for i := 0 to |changed|
      invariant Notified(nodes, Changed(changed[..i]), after)
    {
      PrefixHas(changed, i);
      ghost var before := after;
      if changed[i] in readers {
        after := MarkDirty(after, readers[changed[i]]);
      }
      NotifiedNext(nodes, readers, changed, i, before, after);
    }
    assert changed[..|changed|] == changed;
  }

  lemma NotifiedNext(nodes: map<NodeId, Node>, readers: Readers, changed: seq<TopicId>, i: nat,
                     before: map<NodeId, Node>, after: map<NodeId, Node>)
    requires ReadersExact(nodes, readers) && i < |changed|
    requires Notified(nodes, Changed(changed[..i]), before) && after.Keys == before.Keys
    requires forall n <- before ::
               after[n] == if Reads(readers, changed[i], n) then before[n].(dirty := true) else before[n]
    ensures Notified(nodes, Changed(changed[..i + 1]), after)
  {
    var t := changed[i];
    PrefixHas(changed, i);
    assert Changed(changed[..i + 1]) == Changed(changed[..i]) + {t};
    forall n <- nodes
      ensures after[n] == if ReadsAny(nodes[n], Changed(changed[..i + 1])) then nodes[n].(dirty := true) else nodes[n]
    {
      assert Reads(readers, t, n) <==> t in nodes[n].inputs;
      if ReadsAny(nodes[n], Changed(changed[..i + 1])) {
        var u :| u in nodes[n].inputs && u in Changed(changed[..i + 1]);
        assert u in Changed(changed[..i]) || u == t;
      }
    }
  }

  // ---------------------------------------------------------------- one visit

  /** What a visit does in general, and what it does when the engine's invariant holds. */
  ghost predicate Visited(w: World, id: NodeId, chosen: bool, ok: bool, w': World) {
    && GraphOk(w) && id in w.nodes && SameFrame(w, w')
    && if chosen && w.nodes[id].dirty then (Inv(w) ==> ok && RunsNode(w, id, w')) else ok && w' == w
  }

  lemma InvContinues(w: World, id: NodeId)
    requires Inv(w) && id in w.nodes
    ensures var n := w.nodes[id];
            n.inputs != [] && EmitsContinue(w.store, n.outputs, Work(n, w.store).emits)
  {
    var n := w.nodes[id];
    assert NodeShape(n) && NodeOk(n, w.store);
    forall k | 0 <= k < |n.outputs|
      ensures Sorted(History(w.store, n.outputs[k]) + EmitRows(Work(n, w.store).emits, k))
    {
      EmitsFit(n, w.store, k);
    }
  }

  /** The node set after a finished run: the node advanced and clean, its consumers dirty. */
  ghost predicate AfterRun(nodes: map<NodeId, Node>, id: NodeId, n': Node, after: map<NodeId, Node>) {
    && id in nodes && after.Keys == nodes.Keys && after[id] == n'.(dirty := false)
    && forall m <- nodes | m != id ::
         after[m] == if Feeds(nodes[id], nodes[m]) then nodes[m].(dirty := true) else nodes[m]
  }

  /** Replaces the node and marks the consumers listed for it. */
  method FinishRun(nodes: map<NodeId, Node>, edges: Edges, id: NodeId, n': Node) returns (after: map<NodeId, Node>)
    requires EdgesExact(nodes, edges) && id in nodes && !Feeds(nodes[id], nodes[id])
    ensures AfterRun(nodes, id, n', after)
  {
    after := nodes[id := n'.(dirty := false)];
    if id in edges {
      assert !Edge(edges, id, id);
      after := MarkDirty(after, edges[id]);
    }
    forall m <- nodes | m != id
      ensures after[m] == if Feeds(nodes[id], nodes[m]) then nodes[m].(dirty := true) else nodes[m]
    {
      assert Edge(edges, id, m) <==> Feeds(nodes[id], nodes[m]);
    }
  }

  lemma FinishedFrame(w: World, id: NodeId, store: Store, n': Node, nodes: map<NodeId, Node>)
    requires id in w.nodes && Grows(w.store, store) && store.Keys == w.store.Keys && SameShape(w.nodes[id], n')
    requires AfterRun(w.nodes, id, n', nodes) || nodes == w.nodes[id := n']
    ensures SameFrame(w, w.(nodes := nodes, store := store))
  {
    forall m <- w.nodes ensures m in nodes && SameShape(w.nodes[m], nodes[m]) {
      if m != id && AfterRun(w.nodes, id, n', nodes) {
        assert nodes[m] == if Feeds(w.nodes[id], w.nodes[m]) then w.nodes[m].(dirty := true) else w.nodes[m];
      }
    }
  }

  lemma FinishedRuns(w: World, id: NodeId, store: Store, n': Node, nodes: map<NodeId, Node>)
    requires GraphOk(w) && id in w.nodes && w.nodes[id].inputs != []
    requires RanWell(w.nodes[id], w.store, store, n') && AfterRun(w.nodes, id, n', nodes)
    ensures RunsNode(w, id, w.(nodes := nodes, store := store))
  {
    assert nodes[id] == Advanced(w.nodes[id], w.store);
  }

  lemma FinishedVisit(w: World, id: NodeId, store: Store, ok: bool, n': Node, nodes: map<NodeId, Node>)
    requires GraphOk(w) && id in w.nodes && w.nodes[id].dirty && w.nodes[id].inputs != []
    requires RanSomehow(w.nodes[id], w.store, store, ok, n')
    requires if ok then AfterRun(w.nodes, id, n', nodes) else nodes == w.nodes[id := n']
    ensures Visited(w, id, true, ok, w.(nodes := nodes, store := store))
  {
    FinishedFrame(w, id, store, n', nodes);
    if Inv(w) {
      InvContinues(w, id);
      assert StoreOk(w.store);
      FinishedRuns(w, id, store, n', nodes);
    }
  }

  // ---------------------------------------------------------------- a pass, visit by visit

  /** The first `i` visits of a pass have been made; the states between them are `ws`. */
  ghost predicate PassTo(active: set<NodeId>, filter: set<NodeId>, order: seq<NodeId>, ws: seq<World>, i: nat) {
    && i <= |order| && |ws| == i + 1
    && forall j {:trigger VisitsIn(active, filter, order, ws, j)} | 0 <= j < i :: VisitsIn(active, filter, order, ws, j)
  }

  ghost predicate VisitsIn(active: set<NodeId>, filter: set<NodeId>, order: seq<NodeId>, ws: seq<World>, j: nat) {
    j < |order| && j + 1 < |ws| && Visits(ws[j], order[j], Chosen(active, filter, order[j]), ws[j + 1])
  }

  /** Where a pass stands: sound so far if it started sound and the joins' inputs are strict now. */
  ghost predicate Progress(active: set<NodeId>, filter: set<NodeId>, order: seq<NodeId>, ws: seq<World>, i: nat) {
    && i <= |order| && |ws| == i + 1 && SameFrame(ws[0], ws[i])
    && (Inv(ws[0]) && StrictInputs(ws[i].nodes, ws[i].store) ==> PassTo(active, filter, order, ws, i) && Inv(ws[i]))
  }

  lemma FrameTwice(a: World, b: World, c: World)
    requires SameFrame(a, b) && SameFrame(b, c)
    ensures SameFrame(a, c)
  {
    GrowsTransitive(a.store, b.store, c.store);
    forall n <- a.nodes ensures SameShape(a.nodes[n], c.nodes[n]) {
      assert SameShape(a.nodes[n], b.nodes[n]) && SameShape(b.nodes[n], c.nodes[n]);
    }
  }

  /** After a visit of a sound pass the pass is sound; and such a visit cannot fail. */
  lemma ProgressNext(active: set<NodeId>, filter: set<NodeId>, order: seq<NodeId>, ws: seq<World>, i: nat,
                     ok: bool, w': World)
    requires Progress(active, filter, order, ws, i) && i < |order|
    requires Visited(ws[i], order[i], Chosen(active, filter, order[i]), ok, w')
    ensures SameFrame(ws[0], w')
    ensures ok ==> Progress(active, filter, order, ws + [w'], i + 1)
    ensures Inv(ws[0]) && StrictInputs(w'.nodes, w'.store) ==> ok
  {
    FrameTwice(ws[0], ws[i], w');
    if Inv(ws[0]) && StrictInputs(w'.nodes, w'.store) {
      StrictEarlier(ws[i], w');
      VisitSound(ws[i], order[i], Chosen(active, filter, order[i]), ok, w');
      PassExtends(active, filter, order, ws, i, w');
    }
  }

  lemma VisitSound(w: World, id: NodeId, chosen: bool, ok: bool, w': World)
    requires Visited(w, id, chosen, ok, w') && Inv(w) && StrictInputs(w'.nodes, w'.store)
    ensures ok && Visits(w, id, chosen, w') && Inv(w')
  {
    if chosen && w.nodes[id].dirty {
      RunKeepsInv(w, id, w');
    }
  }

  lemma PassExtends(active: set<NodeId>, filter: set<NodeId>, order: seq<NodeId>, ws: seq<World>, i: nat, w': World)
    requires PassTo(active, filter, order, ws, i) && i < |order|
    requires Visits(ws[i], order[i], Chosen(active, filter, order[i]), w')
    ensures PassTo(active, filter, order, ws + [w'], i + 1)
  {
    var longer := ws + [w'];
    assert longer[i] == ws[i] && longer[i + 1] == w';
    forall j | 0 <= j < i + 1 ensures VisitsIn(active, filter, order, longer, j) {
      if j < i {
        assert VisitsIn(active, filter, order, ws, j);
        assert longer[j] == ws[j] && longer[j + 1] == ws[j + 1];
      }
    }
  }

  /** A finished pass is one schedule step. */
  lemma PassSchedules(active: set<NodeId>, filter: set<NodeId>, order: seq<NodeId>, ws: seq<World>)
    requires PassTo(active, filter, order, ws, |order|)
    requires UpstreamClosure(ws[0].nodes, active, filter) && TopologicalOrder(ws[0].nodes, order)
    ensures Schedules(ws[0], active, ws[|order|])
  {
    forall i | 0 <= i < |order| ensures VisitsAt(active, filter, order, ws, i) {
      assert VisitsIn(active, filter, order, ws, i);
    }
    assert ScheduledBy(ws[0], active, ws[|order|], filter, order, ws);
  }
}
