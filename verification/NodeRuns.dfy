/** One incremental run of one node, and what it keeps. */
module NodeRuns {
  import opened Samples
  import opened Transforms
  import opened Join
  import opened World

  /** What the operator of node `n` does with everything it has not processed yet. */
  function Work(n: Node, store: Store): Outcome
    requires n.inputs != []
  {
    Fold(n.op, n.memory, Pending(n, store))
  }

  /** The node after a successful run: caught up and clean. */
  function Advanced(n: Node, store: Store): Node
    requires n.inputs != []
  {
    var events := Pending(n, store);
    var last := LastId(ChunksOf(store, n.inputs[0]));
    n.(dirty := false,
       memory := Work(n, store).memory,
       chunkMark := if !n.joined && n.chunkMark < last then last else n.chunkMark,
       timeMark := if n.joined && events != [] then events[|events| - 1].ts else n.timeMark)
  }

  ghost predicate SameOutside(before: Store, after: Store, topics: seq<TopicId>) {
    before.Keys == after.Keys && forall t <- before | t !in topics :: after[t] == before[t]
  }

  /** Node `id` runs: it advances, its outputs gain the emitted rows, its consumers become dirty. */
  ghost predicate RunsNode(w: World, id: NodeId, w': World)
    requires GraphOk(w) && id in w.nodes
  {
    var n := w.nodes[id];
    && w'.nextNode == w.nextNode && w'.nextTopic == w.nextTopic
    && SameOutside(w.store, w'.store, n.outputs)
    && Grows(w.store, w'.store)
    && StoreOk(w'.store)
    && (forall k | 0 <= k < |n.outputs| ::
          History(w'.store, n.outputs[k]) == History(w.store, n.outputs[k]) + EmitRows(Work(n, w.store).emits, k))
    && w'.nodes.Keys == w.nodes.Keys
    && w'.nodes[id] == Advanced(n, w.store)
    && (forall m <- w.nodes | m != id ::
          w'.nodes[m] == if Feeds(n, w.nodes[m]) then w.nodes[m].(dirty := true) else w.nodes[m])
  }

  lemma RunKeepsGraph(w: World, id: NodeId, w': World)
    requires GraphOk(w) && id in w.nodes && RunsNode(w, id, w')
    ensures SameGraph(w.nodes, w'.nodes) && GraphOk(w')
  {
    forall m <- w'.nodes ensures SameShape(w.nodes[m], w'.nodes[m]) {
    }
    SameGraphOk(w, w');
  }

  ghost predicate SameShape(a: Node, b: Node) {
    a.joined == b.joined && a.inputs == b.inputs && a.outputs == b.outputs && a.op == b.op
  }

  ghost predicate SameGraph(a: map<NodeId, Node>, b: map<NodeId, Node>) {
    a.Keys == b.Keys && forall n <- a :: SameShape(a[n], b[n])
  }

  lemma SameGraphOk(w: World, w': World)
    requires GraphOk(w) && SameGraph(w.nodes, w'.nodes) && w'.store.Keys == w.store.Keys
    requires w'.nextNode == w.nextNode && w'.nextTopic == w.nextTopic
    ensures GraphOk(w')
  {
    forall m, n | m in w'.nodes && n in w'.nodes && Feeds(w'.nodes[m], w'.nodes[n]) ensures m < n {
      assert SameShape(w.nodes[m], w'.nodes[m]) && SameShape(w.nodes[n], w'.nodes[n]);
      assert Feeds(w.nodes[m], w.nodes[n]);
    }
    forall m, n | m in w'.nodes && n in w'.nodes && m != n ensures Disjoint(w'.nodes[m].outputs, w'.nodes[n].outputs) {
      assert SameShape(w.nodes[m], w'.nodes[m]) && SameShape(w.nodes[n], w'.nodes[n]);
      assert Disjoint(w.nodes[m].outputs, w.nodes[n].outputs);
    }
  }

  /** A node's calls come in the order its operator was promised. */
  lemma CallOrder(n: Node, store: Store)
    requires n.inputs != [] && StoreOk(store)
    ensures InCallOrder(n.joined, AllEvents(n, store))
  {
    HistoriesSorted(store, n.inputs);
    if n.joined {
      JoinMeaning(Histories(store, n.inputs), MIN_TIMESTAMP);
    } else {
      assert Sorted(Histories(store, n.inputs)[0]);
      SortedMeaning(Histories(store, n.inputs)[0]);
      RowEventsAt(Histories(store, n.inputs)[0]);
    }
  }

  /** Running the pending calls completes the fold over the whole history. */
  lemma WorkCompletes(n: Node, store: Store)
    requires n.inputs != [] && StoreOk(store) && MarksOk(n, store) && FoldOk(n, store)
    ensures var whole := Fold(n.op, n.op.init, AllEvents(n, store));
            && Work(n, store).memory == whole.memory
            && forall k | 0 <= k < |n.outputs| ::
                 History(store, n.outputs[k]) + EmitRows(Work(n, store).emits, k) == EmitRows(whole.emits, k)
  {
    NodeSplit(n, store);
    FoldSplit(n.op, n.op.init, Processed(n, store), Pending(n, store));
    forall k | 0 <= k < |n.outputs| {
      EmitRowsConcat(Fold(n.op, n.op.init, Processed(n, store)).emits, Work(n, store).emits, k);
    }
  }

  /** Under the operator contract, the emitted rows continue every output topic in time order. */
  lemma EmitsFit(n: Node, store: Store, k: nat)
    requires n.inputs != [] && StoreOk(store) && NodeOk(n, store) && k < |n.outputs|
    ensures Sorted(History(store, n.outputs[k]) + EmitRows(Work(n, store).emits, k))
  {
    WorkCompletes(n, store);
    CallOrder(n, store);
    assert Ascending(Fold(n.op, n.op.init, AllEvents(n, store)).emits);
    EmitRowsAt(Fold(n.op, n.op.init, AllEvents(n, store)).emits, k);
    SortedMeaning(EmitRows(Fold(n.op, n.op.init, AllEvents(n, store)).emits, k));
  }

  /** Beyond the last joined time nothing is left to join. */
  lemma JoinExhausted(histories: seq<seq<Row>>, mark: Timestamp)
    requires histories != [] && AllSorted(histories)
    requires JoinEvents(histories, mark) != []
    ensures var events := JoinEvents(histories, mark);
            var last := events[|events| - 1].ts;
            mark < last && InAll(histories, last) && JoinEvents(histories, last) == []
  {
    var events := JoinEvents(histories, mark);
    var last := events[|events| - 1];
    JoinMeaning(histories, mark);
    JoinMeaning(histories, last.ts);
    assert last in events;
    var rest := JoinEvents(histories, last.ts);
    forall e ensures e !in rest {
      assert e in rest ==> e in events;
    }
    SameMembers(rest, []);
  }

  /** After a run the watermark covers the whole input. */
  lemma AdvancedCaughtUp(n: Node, store: Store)
    requires n.inputs != [] && StoreOk(store) && MarksOk(n, store)
    ensures MarksOk(Advanced(n, store), store)
    ensures Pending(Advanced(n, store), store) == []
    ensures Processed(Advanced(n, store), store) == AllEvents(n, store)
  {
    var n' := Advanced(n, store);
    if n.joined {
      JoinedAdvance(n, store);
    } else {
      ChunkSplit(ChunksOf(store, n.inputs[0]), n'.chunkMark);
    }
    NodeSplit(n', store);
  }

  lemma JoinedAdvance(n: Node, store: Store)
    requires n.inputs != [] && n.joined && StoreOk(store) && MarksOk(n, store)
    ensures MarksOk(Advanced(n, store), store)
    ensures Pending(Advanced(n, store), store) == []
  {
    HistoriesSorted(store, n.inputs);
    if Pending(n, store) != [] {
      JoinExhausted(Histories(store, n.inputs), n.timeMark);
    }
  }

  /** A node looks only at its input topics. */
  lemma SameInputs(n: Node, store: Store, store': Store)
    requires n.inputs != []
    requires forall t <- n.inputs :: t in store && t in store' && store'[t] == store[t]
    ensures Processed(n, store') == Processed(n, store)
    ensures Pending(n, store') == Pending(n, store)
    ensures AllEvents(n, store') == AllEvents(n, store)
    ensures MarksOk(n, store') <==> MarksOk(n, store)
  {
    assert Histories(store', n.inputs) == Histories(store, n.inputs);
    assert n.inputs[0] in n.inputs;
    assert ChunksOf(store', n.inputs[0]) == ChunksOf(store, n.inputs[0]);
    assert History(store', n.inputs[0]) == History(store, n.inputs[0]);
  }

  /** A run of one node keeps the invariant: that node is caught up, its consumers know they are not. */
  lemma RunKeepsInv(w: World, id: NodeId, w': World)
    requires Inv(w) && id in w.nodes && RunsNode(w, id, w')
    requires StrictInputs(w'.nodes, w'.store)
    ensures Inv(w')
  {
    RunKeepsGraph(w, id, w');
    forall m <- w'.nodes ensures NodeOk(w'.nodes[m], w'.store) {
      if m == id {
        RunnerOk(w, id, w');
      } else {
        BystanderOk(w, id, w', m);
      }
    }
  }

  lemma RunnerOk(w: World, id: NodeId, w': World)
    requires Inv(w) && id in w.nodes && RunsNode(w, id, w')
    ensures NodeOk(w'.nodes[id], w'.store)
  {
    var n, n' := w.nodes[id], w'.nodes[id];
    assert TopicsKnown(n, w.store);
    forall t <- n.inputs ensures t in w.store && t in w'.store && w'.store[t] == w.store[t] {
      assert t in n.outputs ==> Feeds(n, n);
    }
    SameInputs(n', w.store, w'.store);
    AdvancedCaughtUp(n, w.store);
    FoldContinues(n, w.store, n', w'.store);
  }

  lemma FoldContinues(n: Node, store: Store, n': Node, store': Store)
    requires n.inputs != [] && n'.inputs == n.inputs && n'.outputs == n.outputs && n'.op == n.op
    requires StoreOk(store) && MarksOk(n, store) && FoldOk(n, store)
    requires Processed(n', store') == AllEvents(n, store)
    requires n'.memory == Work(n, store).memory
    requires forall k | 0 <= k < |n.outputs| ::
               History(store', n.outputs[k]) == History(store, n.outputs[k]) + EmitRows(Work(n, store).emits, k)
    ensures FoldOk(n', store')
  {
    WorkCompletes(n, store);
  }

  lemma BystanderOk(w: World, id: NodeId, w': World, m: NodeId)
    requires Inv(w) && id in w.nodes && RunsNode(w, id, w')
    requires StrictInputs(w'.nodes, w'.store)
    requires m in w.nodes && m != id
    ensures NodeOk(w'.nodes[m], w'.store)
  {
    var n, b := w.nodes[id], w.nodes[m];
    RunKeepsGraph(w, id, w');
    assert TopicsKnown(b, w.store);
    assert b.joined ==> AllStrict(Histories(w'.store, w'.nodes[m].inputs));
    assert Disjoint(b.outputs, n.outputs);
    Untouched(b, w.store, w'.store);
    if !Feeds(n, b) {
      forall t <- b.inputs ensures t in w.store && t in w'.store && w'.store[t] == w.store[t] {
        assert t in n.outputs ==> Feeds(n, b);
      }
      SameInputs(b, w.store, w'.store);
    }
  }

  /** A node whose outputs are not written keeps a correct fold while its inputs grow. */
  lemma Untouched(n: Node, store: Store, store': Store)
    requires n.inputs != [] && TopicsKnown(n, store) && NodeOk(n, store)
    requires StoreOk(store) && StoreOk(store') && Grows(store, store')
    requires n.joined ==> AllStrict(Histories(store', n.inputs))
    requires forall t <- n.outputs :: store'[t] == store[t]
    ensures MarksOk(n, store') && FoldOk(n, store')
  {
    ProcessedStable(n, store, store');
    forall k | 0 <= k < |n.outputs| ensures History(store', n.outputs[k]) == History(store, n.outputs[k]) {
      assert n.outputs[k] in n.outputs;
    }
  }
}
