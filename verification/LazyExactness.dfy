/** Exactly when lazy scheduling cannot be told from eager scheduling. */
module LazyExactness {
  import opened Samples
  import opened World
  import opened NodeRuns
  import opened Scheduling
  import opened Denotation
  import opened Runs
  import opened LazyScheduling

  /** The rows that a call brings to a source topic. */
  function RowsTo(a: Action, t: TopicId): seq<Row> {
    if a.Commit? && t in a.rows then a.rows[t] else []
  }

  function Arrived(actions: seq<Action>, t: TopicId): seq<Row> {
    if actions == [] then [] else Arrived(actions[..|actions| - 1], t) + RowsTo(actions[|actions| - 1], t)
  }

  /** A call that commits nothing leaves every source topic as it is. */
  lemma SourceStays(w: World, a: Action, w': World, t: TopicId)
    requires Inv(w) && Next(w, a, w') && t in Sources(w) && !a.Commit?
    ensures t in Sources(w') && Sources(w')[t] == Sources(w)[t]
  {
    match a
    case NewTopic => NewTopicOutside(w, w'); SourceOf(w, t);
    case AddNode(_, _, _, _) => AddOutside(w, a, w');
    case RemoveNode(id) => RemoveSource(w, id, w', t);
    case Schedule(active) => ScheduleOutside(w, active, w');
  }

  lemma SourceGains(w: World, rows: map<TopicId, seq<Row>>, w': World, t: TopicId)
    requires Commits(w, rows, w') && t in Sources(w)
    ensures t in Sources(w') && Sources(w')[t] == if t in rows then Sources(w)[t] + rows[t] else Sources(w)[t]
  {
    CommitOutside(w, rows, w');
    assert Sources(w')[t] == Extended(Sources(w), rows)[t];
  }

  lemma AddNothing(rows: seq<Row>)
    ensures rows + [] == rows
  {
  }

  /** A source topic stays one, and gains what is committed to it, whatever the calls. */
  lemma SourceStep(w: World, a: Action, w': World, t: TopicId)
    requires Inv(w) && Next(w, a, w') && t in Sources(w)
    ensures t in Sources(w') && Sources(w')[t] == Sources(w)[t] + RowsTo(a, t)
  {
    AddNothing(Sources(w)[t]);
    if a.Commit? {
      SourceGains(w, a.rows, w', t);
    } else {
      SourceStays(w, a, w', t);
    }
  }

  lemma SourceStepAt(ws: seq<World>, actions: seq<Action>, i: nat, t: TopicId)
    requires Run(ws, actions) && i < |actions| && t in Sources(ws[i])
    ensures t in Sources(ws[i + 1]) && Sources(ws[i + 1])[t] == Sources(ws[i])[t] + RowsTo(actions[i], t)
  {
    RunSound(ws, actions, i);
    assert StepAt(ws, actions, i);
    SourceStep(ws[i], actions[i], ws[i + 1], t);
  }

  lemma {:induction false} SourceRun(ws: seq<World>, actions: seq<Action>, i: nat, n: nat, t: TopicId)
    requires Run(ws, actions) && i <= n <= |actions| && t in Sources(ws[i])
    ensures t in Sources(ws[n]) && Sources(ws[n])[t] == Sources(ws[i])[t] + Arrived(actions[i..n], t)
  {
    if i == n {
      assert Sources(ws[i])[t] + [] == Sources(ws[i])[t];
    } else {
      SourceRun(ws, actions, i, n - 1, t);
      SourceStepAt(ws, actions, n - 1, t);
      ArrivedNext(actions, i, n, t);
      Chained(Sources(ws[i])[t], Sources(ws[n - 1])[t], Sources(ws[n])[t], Arrived(actions[i..n - 1], t),
              RowsTo(actions[n - 1], t), Arrived(actions[i..n], t));
    }
  }

  lemma Chained(start: seq<Row>, middle: seq<Row>, end: seq<Row>, first: seq<Row>, last: seq<Row>, both: seq<Row>)
    requires middle == start + first && end == middle + last && both == first + last
    ensures end == start + both
  {
  }

  lemma ArrivedNext(actions: seq<Action>, i: nat, n: nat, t: TopicId)
    requires i < n <= |actions|
    ensures Arrived(actions[i..n], t) == Arrived(actions[i..n - 1], t) + RowsTo(actions[n - 1], t)
  {
    assert actions[i..n][..n - 1 - i] == actions[i..n - 1];
  }

  lemma {:induction false} ArrivedExternal(actions: seq<Action>, t: TopicId)
    ensures Arrived(External(actions), t) == Arrived(actions, t)
  {
    if actions != [] {
      var front := actions[..|actions| - 1];
      ArrivedExternal(front, t);
      assert Arrived(front, t) + [] == Arrived(front, t);
      if !actions[|actions| - 1].Schedule? {
        assert External(actions)[..|External(front)|] == External(front);
      }
    }
  }

  lemma {:induction false} ExternalConcat(a: seq<Action>, b: seq<Action>)
    ensures External(a + b) == External(a) + External(b)
  {
    if b == [] {
      assert a + b == a;
    } else {
      ExternalConcat(a, b[..|b| - 1]);
      ConcatFront(a, b);
    }
  }

  lemma ExternalSplit(actions: seq<Action>, i: nat)
    requires i < |actions| && !actions[i].Schedule?
    ensures External(actions) == External(actions[..i]) + ([actions[i]] + External(actions[i + 1..]))
  {
    var front, a, back := actions[..i], [actions[i]], actions[i + 1..];
    Parts(actions, i);
    ExternalConcat(front, a + back);
    ExternalConcat(a, back);
    OneExternal(actions[i]);
  }

  lemma Parts(actions: seq<Action>, i: nat)
    requires i < |actions|
    ensures actions == actions[..i] + ([actions[i]] + actions[i + 1..])
  {
  }

  lemma OneExternal(a: Action)
    requires !a.Schedule?
    ensures External([a]) == [a]
  {
    assert [a][..0] == [];
    assert External([a]) == External([]) + [a];
  }

  /** Where the `p`-th external call of a run stands. */
  lemma {:induction false} Locate(actions: seq<Action>, p: nat) returns (j: nat)
    requires p < |External(actions)|
    ensures j < |actions| && !actions[j].Schedule? && |External(actions[..j])| == p
  {
    var n := |actions| - 1;
    if p < |External(actions[..n])| {
      j := Locate(actions[..n], p);
      assert actions[..n][..j] == actions[..j];
    } else {
      j := n;
    }
  }

  /** The same call in another run with the same external calls. */
  lemma Aligned(a1: seq<Action>, a2: seq<Action>, i: nat) returns (j: nat)
    requires External(a1) == External(a2) && i < |a1| && !a1[i].Schedule?
    ensures j < |a2| && a2[j] == a1[i]
    ensures External(a2[..j]) == External(a1[..i]) && External(a2[j + 1..]) == External(a1[i + 1..])
  {
    ExternalSplit(a1, i);
    var p := |External(a1[..i])|;
    j := Locate(a2, p);
    ExternalSplit(a2, j);
    SamePosition(External(a1[..i]), [a1[i]] + External(a1[i + 1..]), External(a2[..j]),
        [a2[j]] + External(a2[j + 1..]));
    assert ([a1[i]] + External(a1[i + 1..]))[1..] == External(a1[i + 1..]);
    assert ([a2[j]] + External(a2[j + 1..]))[1..] == External(a2[j + 1..]);
    assert ([a1[i]] + External(a1[i + 1..]))[0] == a1[i] && ([a2[j]] + External(a2[j + 1..]))[0] == a2[j];
  }

  lemma SamePosition(a: seq<Action>, b: seq<Action>, c: seq<Action>, d: seq<Action>)
    requires a + b == c + d && |a| == |c|
    ensures a == c && b == d
  {
    assert a == (a + b)[..|a|] == (c + d)[..|c|] == c;
    assert b == (a + b)[|a|..] == (c + d)[|c|..] == d;
  }

  lemma {:induction false} FirstHarmful(ws: seq<World>, actions: seq<Action>, n: nat) returns (i: nat)
    requires n <= |actions| && |ws| == |actions| + 1 && !HarmlessUpTo(ws, actions, n)
    ensures i < n && HarmlessUpTo(ws, actions, i) && !Harmless(ws[i], actions[i])
  {
    if HarmlessUpTo(ws, actions, n - 1) {
      i := n - 1;
    } else {
      i := FirstHarmful(ws, actions, n - 1);
    }
  }

  /** A topic left behind incomplete stays different from the same topic left behind complete. */
  lemma HarmIsVisible(ws1: seq<World>, a1: seq<Action>, ws2: seq<World>, a2: seq<Action>) returns (t: TopicId)
    requires Run(ws1, a1) && Run(ws2, a2) && External(a1) == External(a2)
    requires !HarmlessRemovals(ws1, a1) && HarmlessRemovals(ws2, a2)
    ensures History(ws1[|a1|].store, t) != History(ws2[|a2|].store, t)
  {
    var i := FirstHarmful(ws1, a1, |a1|);
    var j := Aligned(a1, a2, i);
    var id := a1[i].id;
    RunOutside(ws1, a1, i);
    RunOutside(ws2, a2, j);
    RunSound(ws1, a1, i);
    RunSound(ws2, a2, j);
    assert StepAt(ws1, a1, i) && StepAt(ws2, a2, j) && Harmless(ws2[j], a2[j]);
    t := Incomplete(ws1[i], ws2[j], id);
    LeftBehind(ws1, a1, i, t);
    LeftBehind(ws2, a2, j, t);
    ArrivedExternal(a1[i + 1..], t);
    ArrivedExternal(a2[j + 1..], t);
    StaysDifferent(History(ws1[i].store, t), History(ws2[j].store, t), Arrived(a1[i + 1..], t));
  }

  lemma StaysDifferent(a: seq<Row>, b: seq<Row>, more: seq<Row>)
    requires a != b
    ensures a + more != b + more
  {
    if |a| == |b| {
      assert a == (a + more)[..|a|] && b == (b + more)[..|b|];
    }
  }

  /**
   * Two states that look the same from outside, in one of which the node's outputs are complete and in the other not.
   */
  lemma Incomplete(w1: World, w2: World, id: NodeId) returns (t: TopicId)
    requires OutsideOf(w1) == OutsideOf(w2) && id in w1.nodes && !FrozenComplete(w1, id) && FrozenComplete(w2, id)
    ensures t in w1.nodes[id].outputs && id in w2.nodes && t in w2.nodes[id].outputs
    ensures History(w1.store, t) != History(w2.store, t)
  {
    t :| t in w1.nodes[id].outputs && History(w1.store, t) != Meaning(Shapes(w1.nodes), Sources(w1), w1.nextNode, t);
    assert Shapes(w1.nodes)[id] == Shapes(w2.nodes)[id];
  }

  lemma BecomesSource(ws: seq<World>, actions: seq<Action>, i: nat, t: TopicId)
    requires Run(ws, actions) && i < |actions| && actions[i].RemoveNode?
    requires actions[i].id in ws[i].nodes && t in ws[i].nodes[actions[i].id].outputs
    ensures t in Sources(ws[i + 1]) && Sources(ws[i + 1])[t] == History(ws[i].store, t)
  {
    RunSound(ws, actions, i);
    assert StepAt(ws, actions, i);
    RemoveSource(ws[i], actions[i].id, ws[i + 1], t);
  }

  /** An output left behind by a removal ends up with what it had, and what was committed to it afterwards. */
  lemma LeftBehind(ws: seq<World>, actions: seq<Action>, i: nat, t: TopicId)
    requires Run(ws, actions) && i < |actions| && actions[i].RemoveNode?
    requires actions[i].id in ws[i].nodes && t in ws[i].nodes[actions[i].id].outputs
    ensures History(ws[|actions|].store, t) == History(ws[i].store, t) + Arrived(actions[i + 1..], t)
  {
    BecomesSource(ws, actions, i, t);
    SourceRun(ws, actions, i + 1, |actions|, t);
    assert actions[i + 1..|actions|] == actions[i + 1..];
    SourceOf(ws[|actions|], t);
  }

  /**
   * Exactly when lazy scheduling cannot be told from a run whose removals are all harmless: the same external calls,
   * both ending by scheduling everything, leave the same rows everywhere if and only if all its removals are harmless.
   */
  lemma LazyEqualsEagerExactly(ws1: seq<World>, a1: seq<Action>, ws2: seq<World>, a2: seq<Action>)
    requires Run(ws1, a1) && Run(ws2, a2) && External(a1) == External(a2) && HarmlessRemovals(ws2, a2)
    requires a1 != [] && a1[|a1| - 1] == Schedule({})
    requires a2 != [] && a2[|a2| - 1] == Schedule({})
    ensures (forall t :: History(ws1[|a1|].store, t) == History(ws2[|a2|].store, t)) <==> HarmlessRemovals(ws1, a1)
  {
    if HarmlessRemovals(ws1, a1) {
      forall t ensures History(ws1[|a1|].store, t) == History(ws2[|a2|].store, t) {
        LazyEqualsEager(ws1, a1, ws2, a2, t);
      }
    } else {
      var t := HarmIsVisible(ws1, a1, ws2, a2);
    }
  }

  /** Every removal comes directly after scheduling the node that it removes. */
  predicate ScheduledFirst(actions: seq<Action>, i: nat)
    requires i < |actions|
  {
    actions[i].RemoveNode? ==>
      i > 0 && actions[i - 1].Schedule? && (actions[i - 1].active == {} || actions[i].id in actions[i - 1].active)
  }

  /** A caller who schedules a node directly before removing it never loses anything. */
  lemma ScheduledFirstIsHarmless(ws: seq<World>, actions: seq<Action>)
    requires Run(ws, actions) && forall i | 0 <= i < |actions| :: ScheduledFirst(actions, i)
    ensures HarmlessRemovals(ws, actions)
  {
    forall i | 0 <= i < |actions| ensures Harmless(ws[i], actions[i]) {
      assert ScheduledFirst(actions, i);
      if actions[i].RemoveNode? {
        PairIsHarmless(ws, actions, i);
      }
    }
  }

  lemma ScheduleAt(ws: seq<World>, actions: seq<Action>, i: nat)
    requires Run(ws, actions) && i < |actions| && actions[i].Schedule?
    ensures Inv(ws[i]) && Schedules(ws[i], actions[i].active, ws[i + 1])
    ensures StrictInputs(ws[i + 1].nodes, ws[i + 1].store)
  {
    RunSound(ws, actions, i);
    assert StepAt(ws, actions, i);
  }

  lemma NodesStay(w: World, active: set<NodeId>, w': World)
    requires Schedules(w, active, w')
    ensures w'.nodes.Keys == w.nodes.Keys
  {
    ScheduleOutside(w, active, w');
    SameKeys(w.nodes, w'.nodes);
  }

  lemma SameKeys(a: map<NodeId, Node>, b: map<NodeId, Node>)
    requires Shapes(a) == Shapes(b)
    ensures a.Keys == b.Keys
  {
    assert a.Keys == Shapes(a).Keys && b.Keys == Shapes(b).Keys;
  }

  lemma RemovedIsThere(ws: seq<World>, actions: seq<Action>, i: nat)
    requires Run(ws, actions) && i < |actions| && actions[i].RemoveNode?
    ensures actions[i].id in ws[i].nodes
  {
    assert StepAt(ws, actions, i);
  }

  lemma PairIsHarmless(ws: seq<World>, actions: seq<Action>, i: nat)
    requires Run(ws, actions) && 0 < i < |actions| && actions[i].RemoveNode? && ScheduledFirst(actions, i)
    ensures FrozenComplete(ws[i], actions[i].id)
  {
    var active, id := actions[i - 1].active, actions[i].id;
    ScheduleAt(ws, actions, i - 1);
    NodesStay(ws[i - 1], active, ws[i]);
    RemovedIsThere(ws, actions, i);
    ScheduledIsHarmless(ws[i - 1], active, ws[i], id);
  }
}
