/** When the calls of a single-input operator have strictly rising times, as its documentation promises. */
module StrictCalls {
  import opened Samples
  import opened Transforms
  import opened World
  import opened NodeRuns
  import opened Denotation
  import opened Runs
  import opened LazyScheduling
  import opened LazyExactness
  import opened Removal

  /** The calls of a single-input node rise strictly exactly if no two rows of its input have the same time. */
  lemma StrictCallsExactly(n: Node, store: Store)
    requires n.inputs != [] && !n.joined
    ensures StrictlyAscending(AllEvents(n, store)) <==> StrictlySorted(History(store, n.inputs[0]))
  {
    var rows := History(store, n.inputs[0]);
    RowEventsAt(rows);
    var events := AllEvents(n, store);
    assert forall i | 0 <= i < |rows| :: events[i].ts == rows[i].ts;
  }

  /** Each of the new rows is after the one before it, and the first is after the newest row there. */
  predicate StrictlyLater(history: seq<Row>, rows: seq<Row>) {
    && (forall i, j | 0 <= i < j < |rows| :: rows[i].ts < rows[j].ts)
    && (history != [] && rows != [] ==> history[|history| - 1].ts < rows[0].ts)
  }

  lemma StrictGrows(history: seq<Row>, rows: seq<Row>)
    ensures StrictlySorted(history + rows) <==> StrictlySorted(history) && StrictlyLater(history, rows)
  {
    var all := history + rows;
    if StrictlySorted(all) {
      forall i, j | 0 <= i < j < |history| ensures history[i].ts < history[j].ts {
        assert all[i].ts < all[j].ts;
      }
      forall i, j | 0 <= i < j < |rows| ensures rows[i].ts < rows[j].ts {
        assert all[|history| + i].ts < all[|history| + j].ts;
      }
      if history != [] && rows != [] {
        assert all[|history| - 1].ts < all[|history|].ts;
      }
    }
    if StrictlySorted(history) && StrictlyLater(history, rows) {
      StrictJoins(history, rows);
    }
  }

  lemma StrictJoins(history: seq<Row>, rows: seq<Row>)
    requires StrictlySorted(history) && StrictlyLater(history, rows)
    ensures StrictlySorted(history + rows)
  {
    forall i, j | 0 <= i < |history| && 0 <= j < |rows| ensures history[i].ts < rows[j].ts {
      assert history[i].ts <= history[|history| - 1].ts < rows[0].ts <= rows[j].ts;
    }
  }

  /** Every commit to topic `t` in the steps from `i` on brings rows strictly after the newest one there. */
  ghost predicate CommitsLater(ws: seq<World>, actions: seq<Action>, i: nat, n: nat, t: TopicId)
    requires i <= n <= |actions| && |ws| == |actions| + 1
  {
    forall k {:trigger LaterAt(ws, actions, k, t)} | i <= k < n :: LaterAt(ws, actions, k, t)
  }

  ghost predicate LaterAt(ws: seq<World>, actions: seq<Action>, k: nat, t: TopicId)
    requires k < |actions| && |ws| == |actions| + 1
  {
    StrictlyLater(History(ws[k].store, t), RowsTo(actions[k], t))
  }

  /** Over any run a source topic stays strictly ordered exactly if each committed row is after the newest one. */
  lemma {:induction false} StrictOverRun(ws: seq<World>, actions: seq<Action>, i: nat, n: nat, t: TopicId)
    requires Run(ws, actions) && i <= n <= |actions| && t in Sources(ws[i])
    ensures t in Sources(ws[n])
    ensures StrictlySorted(History(ws[n].store, t))
            <==> StrictlySorted(History(ws[i].store, t)) && CommitsLater(ws, actions, i, n, t)
  {
    if i < n {
      StrictOverRun(ws, actions, i, n - 1, t);
      StrictStep(ws, actions, n - 1, t);
      LaterLast(ws, actions, i, n, t);
    }
  }

  lemma LaterLast(ws: seq<World>, actions: seq<Action>, i: nat, n: nat, t: TopicId)
    requires i < n <= |actions| && |ws| == |actions| + 1
    ensures CommitsLater(ws, actions, i, n, t)
            <==> CommitsLater(ws, actions, i, n - 1, t) && LaterAt(ws, actions, n - 1, t)
  {
    if CommitsLater(ws, actions, i, n, t) {
      assert LaterAt(ws, actions, n - 1, t);
    }
  }

  lemma StrictStep(ws: seq<World>, actions: seq<Action>, k: nat, t: TopicId)
    requires Run(ws, actions) && k < |actions| && t in Sources(ws[k])
    ensures t in Sources(ws[k + 1])
    ensures StrictlySorted(History(ws[k + 1].store, t))
            <==> StrictlySorted(History(ws[k].store, t)) && LaterAt(ws, actions, k, t)
  {
    SourceStepAt(ws, actions, k, t);
    SourceOf(ws[k], t);
    SourceOf(ws[k + 1], t);
    StrictGrows(History(ws[k].store, t), RowsTo(actions[k], t));
  }

  lemma NewTopicIsEmpty(ws: seq<World>, actions: seq<Action>, i: nat)
    requires Run(ws, actions) && i < |actions| && actions[i].NewTopic?
    ensures ws[i].nextTopic in Sources(ws[i + 1]) && History(ws[i + 1].store, ws[i].nextTopic) == []
  {
    RunSound(ws, actions, i);
    assert StepAt(ws, actions, i);
    NewTopicOutside(ws[i], ws[i + 1]);
    SourceOf(ws[i + 1], ws[i].nextTopic);
  }

  /**
   * A caller's rule that is also necessary: the calls of a single-input node on a source topic rise strictly, at any
   * point of any run, if and only if every row ever committed to the topic was after the newest row there.
   */
  lemma StrictCallsOverRun(ws: seq<World>, actions: seq<Action>, i: nat, n: nat, id: NodeId)
    requires Run(ws, actions) && i < n <= |actions| && actions[i].NewTopic?
    requires id in ws[n].nodes && !ws[n].nodes[id].joined && ws[n].nodes[id].inputs == [ws[i].nextTopic]
    ensures StrictlyAscending(AllEvents(ws[n].nodes[id], ws[n].store))
            <==> CommitsLater(ws, actions, i + 1, n, ws[i].nextTopic)
  {
    NewTopicIsEmpty(ws, actions, i);
    StrictOverRun(ws, actions, i + 1, n, ws[i].nextTopic);
    StrictCallsExactly(ws[n].nodes[id], ws[n].store);
  }

  // ---------------------------------------------------------------- two calls at one time

  const Again := Row(7, [Fixed(2)])
  const TwiceChunk := Chunk(1, [], [Sample, Again])
  const Committed2 := World(map[1 := EchoNode], map[1 := [TwiceChunk], 2 := []], 2, 3)
  const TwiceCalls: seq<Action> := [NewTopic, AddNode(false, [1], 1, Echo), Commit(map[1 := [Sample, Again]])]
  const TwiceStates: seq<World> := [Initial, Fresh1, Added, Committed2]

  lemma TwoRows()
    ensures Flatten([TwiceChunk]) == [Sample, Again] && Ordered([TwiceChunk]) && Rising([TwiceChunk])
    ensures Ordered([]) && Rising([])
  {
    assert [TwiceChunk][..0] == [];
    assert Flatten([TwiceChunk]) == Flatten([]) + TwiceChunk.rows;
    SortedMeaning([Sample, Again]);
    RisingMeaning([TwiceChunk]);
    RisingMeaning([]);
  }

  lemma CommitTwice()
    ensures Next(Added, Commit(map[1 := [Sample, Again]]), Committed2)
  {
    TwoRows();
    assert forall n | n in Added.nodes :: n == 1;
    assert ReadsAny(EchoNode, {1}) by { assert 1 in EchoNode.inputs && 1 in {1}; }
    assert map[1 := [Sample, Again]].Keys == {1};
  }

  lemma TwoEvents()
    ensures RowEvents([Sample, Again]) == [Event(7, [Fixed(1)]), Event(7, [Fixed(2)])]
  {
    assert [Sample, Again][..1] == [Sample] && [Sample][..0] == [];
    assert RowEvents([Sample]) == RowEvents([]) + [RowEvent(Sample)];
  }

  lemma TwiceRuns()
    ensures Run(TwiceStates, TwiceCalls)
  {
    TopicStep();
    AddStep();
    CommitTwice();
    ThreeSteps(NewTopic, Fresh1, AddNode(false, [1], 1, Echo), Added, Commit(map[1 := [Sample, Again]]), Committed2);
  }

  lemma TwicePending()
    ensures Pending(EchoNode, Committed2.store) == [Event(7, [Fixed(1)]), Event(7, [Fixed(2)])]
    ensures AllEvents(EchoNode, Committed2.store) == [Event(7, [Fixed(1)]), Event(7, [Fixed(2)])]
  {
    TwoRows();
    TwoEvents();
    assert [TwiceChunk][..0] == [];
    assert ChunksAfter([TwiceChunk], 0) == ChunksAfter([], 0) + [TwiceChunk];
  }

  lemma SameTimeTwice(a: Event, b: Event)
    requires a.ts == b.ts
    ensures !StrictlyAscending([a, b])
  {
    var events := [a, b];
    assert events[0].ts == events[1].ts;
  }

  /** Two rows of one time in a legal run: the node is about to be called twice with that time. */
  lemma EqualTimesAreCalled()
    ensures Run(TwiceStates, TwiceCalls)
    ensures Pending(EchoNode, Committed2.store) == [Event(7, [Fixed(1)]), Event(7, [Fixed(2)])]
    ensures AllEvents(EchoNode, Committed2.store) == Pending(EchoNode, Committed2.store)
    ensures !StrictlyAscending(AllEvents(EchoNode, Committed2.store))
  {
    TwiceRuns();
    TwicePending();
    SameTimeTwice(Event(7, [Fixed(1)]), Event(7, [Fixed(2)]));
  }
}
