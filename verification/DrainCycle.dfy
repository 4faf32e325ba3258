/** Draining into the engine that a derived engine works on, and telling it. */
module DrainCycle {
  import opened Samples
  import opened World
  import opened Denotation
  import opened Runs
  import opened TopicStorages
  import opened DataEngines
  import opened EngineSteps
  import opened OutputNames
  import opened DerivedEngines
  import opened CommitCycle
  import opened EngineDrain
  import opened DrainNumbers

  ghost predicate Injective(plan: Plan) {
    forall t, u {:trigger plan[t], plan[u]} | t in plan && u in plan && t != u :: plan[t] != plan[u]
  }

  /** The rows that a drain brings to each destination. */
  ghost function DrainedRows(plan: Plan, src: Store): map<TopicId, seq<Row>>
    requires Injective(plan) && plan.Keys <= src.Keys
  {
    map t | t in plan :: plan[t] := Flatten(src[t])
  }

  lemma PlanIsInjective(src: Topics, src0: Store, dst: Topics, dst0: Store, plan: Plan)
    requires PlanOk(src, src0, dst, dst0, plan) && DistinctKeys(src)
    ensures Injective(plan) && plan.Keys <= src0.Keys
  {
    forall t, u | t in plan && u in plan && t != u ensures plan[t] != plan[u] {
      PlanInjective(src, src0, dst, dst0, plan, t, u);
    }
    forall t <- plan ensures t in src0 {
      assert PlannedTopic(src, src0, dst, dst0, t, plan[t]);
    }
  }

  /** The chunks that move into the destination of `t` run on, and no node writes that topic. */
  ghost predicate Joins(nodes: map<NodeId, Node>, src: Store, dst: Store, plan: Plan, t: TopicId) {
    t in plan && RunsOnAt(src, dst, plan, t) && !Produced(nodes, plan[t])
  }

  /** What a destination holds after the drain. */
  lemma DrainedTopic(src: Topics, src0: Store, src1: Store, dst: Topics, dst0: Store, dst1: Store, plan: Plan,
                     t: TopicId)
    requires PlanOk(src, src0, dst, dst0, plan) && DistinctKeys(src) && Moved(src0, src1, dst0, dst1, plan, plan.Keys)
    requires t in plan
    ensures t in src0 && plan[t] in dst0 && plan[t] in dst1 && dst1[plan[t]] == dst0[plan[t]] + src0[t]
    ensures History(dst1, plan[t]) == History(dst0, plan[t]) + Flatten(src0[t])
  {
    MovedMeaning(src0, src1, dst0, dst1, plan, plan.Keys);
    assert PlannedTopic(src, src0, dst, dst0, t, plan[t]);
    FlattenConcat(dst0[plan[t]], src0[t]);
  }

  /**
   * A drain of well-kept engines brings exactly those rows, exactly if all chunks run on into topics no node writes.
   */
  lemma DrainCommitsRows(nodes: map<NodeId, Node>, src: Topics, src0: Store, src1: Store, dst: Topics, dst0: Store,
                         dst1: Store, plan: Plan)
    requires PlanOk(src, src0, dst, dst0, plan) && DistinctKeys(src) && Moved(src0, src1, dst0, dst1, plan, plan.Keys)
    requires StoreOk(src0) && StoreOk(dst0) && forall u <- dst1 :: Ordered(dst1[u])
    ensures Injective(plan) && plan.Keys <= src0.Keys
    ensures CommitsRows(nodes, dst0, DrainedRows(plan, src0), dst1)
            <==> forall t <- plan :: Joins(nodes, src0, dst0, plan, t)
  {
    PlanIsInjective(src, src0, dst, dst0, plan);
    MovedMeaning(src0, src1, dst0, dst1, plan, plan.Keys);
    var rows := DrainedRows(plan, src0);
    assert rows.Keys == Targets(plan, plan.Keys);
    if CommitsRows(nodes, dst0, rows, dst1) {
      forall t <- plan ensures Joins(nodes, src0, dst0, plan, t) {
        DrainedTopic(src, src0, src1, dst, dst0, dst1, plan, t);
        assert plan[t] in rows;
        RisesExactly(dst0[plan[t]], src0[t]);
      }
    }
    if forall t <- plan :: Joins(nodes, src0, dst0, plan, t) {
      DrainRisesExactly(src, src0, src1, dst, dst0, dst1, plan);
      forall t <- plan ensures RunsOnAt(src0, dst0, plan, t) {
        assert Joins(nodes, src0, dst0, plan, t);
      }
      DrainBrings(nodes, src, src0, src1, dst, dst0, dst1, plan);
    }
  }

  /** What a commit must bring to one topic. */
  ghost predicate BringsAt(nodes: map<NodeId, Node>, before: Store, rows: map<TopicId, seq<Row>>, after: Store,
                           u: TopicId)
  {
    && u in rows && u in before && u in after && !Produced(nodes, u) && before[u] <= after[u]
    && History(after, u) == History(before, u) + rows[u]
  }

  lemma CommitsTopicwise(nodes: map<NodeId, Node>, before: Store, rows: map<TopicId, seq<Row>>, after: Store)
    requires after.Keys == before.Keys && StoreOk(after)
    requires forall u <- rows :: BringsAt(nodes, before, rows, after, u)
    requires forall u <- before | u !in rows :: after[u] == before[u]
    ensures CommitsRows(nodes, before, rows, after)
  {
    forall u <- before ensures before[u] <= after[u] {
      assert u in rows ==> BringsAt(nodes, before, rows, after, u);
    }
    forall u <- rows ensures u in before && !Produced(nodes, u) && History(after, u) == History(before, u) + rows[u] {
      assert BringsAt(nodes, before, rows, after, u);
    }
  }

  lemma DrainBringsTo(nodes: map<NodeId, Node>, src: Topics, src0: Store, src1: Store, dst: Topics, dst0: Store,
                      dst1: Store, plan: Plan, t: TopicId)
    requires PlanOk(src, src0, dst, dst0, plan) && DistinctKeys(src) && Moved(src0, src1, dst0, dst1, plan, plan.Keys)
    requires Injective(plan) && plan.Keys <= src0.Keys && Joins(nodes, src0, dst0, plan, t)
    ensures BringsAt(nodes, dst0, DrainedRows(plan, src0), dst1, plan[t])
  {
    DrainedTopic(src, src0, src1, dst, dst0, dst1, plan, t);
    assert DrainedRows(plan, src0)[plan[t]] == Flatten(src0[t]);
  }

  lemma DrainBrings(nodes: map<NodeId, Node>, src: Topics, src0: Store, src1: Store, dst: Topics, dst0: Store,
                    dst1: Store, plan: Plan)
    requires PlanOk(src, src0, dst, dst0, plan) && DistinctKeys(src) && Moved(src0, src1, dst0, dst1, plan, plan.Keys)
    requires StoreOk(dst1) && Injective(plan) && plan.Keys <= src0.Keys
    requires forall t <- plan :: Joins(nodes, src0, dst0, plan, t)
    ensures CommitsRows(nodes, dst0, DrainedRows(plan, src0), dst1)
  {
    var rows := DrainedRows(plan, src0);
    forall u <- rows ensures BringsAt(nodes, dst0, rows, dst1, u) {
      var t :| t in plan && plan[t] == u;
      DrainBringsTo(nodes, src, src0, src1, dst, dst0, dst1, plan, t);
    }
    MovedMeaning(src0, src1, dst0, dst1, plan, plan.Keys);
    assert rows.Keys == Targets(plan, plan.Keys);
    CommitsTopicwise(nodes, dst0, rows, dst1);
  }

  /** What is stored in two engines that a drain may go between, and what is numbered by one counter. */
  ghost predicate DrainReady(src: DataEngine, derived: DerivedEngine)
    reads src`topics, src`store, src`nextTopicId, src.topics.Values`sealedChunks
    reads derived, derived.engine`topics, derived.engine`store, derived.engine`nextTopicId,
          derived.engine`nextChunkId, derived.engine.topics.Values`sealedChunks, derived.engine.topics.Values`columns
  {
    && derived.Valid() && TwoEngines(src, derived.engine)
    && StoreNumbered(src.store, derived.engine.nextChunkId)
  }

  /** From well-kept stores, with the destinations notified: one commit step exactly if the chunks join. */
  ghost predicate CommitsIfJoined(w: World, src0: Store, plan: Plan, changed: seq<TopicId>, w': World) {
    Changed(changed) == Targets(plan, plan.Keys) && StoreOk(src0) && StoreOk(w.store) ==>
      && Injective(plan) && plan.Keys <= src0.Keys
      && (Commits(w, DrainedRows(plan, src0), w') <==> forall t <- plan :: Joins(w.nodes, src0, w.store, plan, t))
  }

  /** The drained stores, as far as they matter for the commit step. */
  ghost predicate DrainedWell(w: World, src0: Store, plan: Plan, dst1: Store) {
    StoreOk(src0) && StoreOk(w.store) ==>
      && Injective(plan) && plan.Keys <= src0.Keys
      && (CommitsRows(w.nodes, w.store, DrainedRows(plan, src0), dst1)
          <==> forall t <- plan :: Joins(w.nodes, src0, w.store, plan, t))
  }

  lemma DrainOutcome(w: World, src: DataEngine, src0: Store, derived: DerivedEngine, plan: Plan)
    requires derived.engine.Valid() && DistinctKeys(src.topics)
    requires PlanOk(src.topics, src0, derived.engine.topics, w.store, plan)
    requires Moved(src0, src.store, w.store, derived.engine.store, plan, plan.Keys)
    ensures DrainedWell(w, src0, plan, derived.engine.store)
  {
    if StoreOk(src0) && StoreOk(w.store) {
      forall u <- derived.engine.store ensures Ordered(derived.engine.store[u]) {
        assert OrderedTopic(derived.engine.store[u], u, derived.engine.nextTopicId);
      }
      DrainCommitsRows(w.nodes, src.topics, src0, src.store, derived.engine.topics, w.store, derived.engine.store,
          plan);
    }
  }

  lemma NotifyOutcome(w: World, src0: Store, plan: Plan, changed: seq<TopicId>, drained: World, w': World)
    requires DrainedWell(w, src0, plan, drained.store) && drained == w.(store := drained.store)
    requires w' == drained.(nodes := w'.nodes) && Notified(w.nodes, Changed(changed), w'.nodes)
    ensures CommitsIfJoined(w, src0, plan, changed, w')
  {
    if Changed(changed) == Targets(plan, plan.Keys) && StoreOk(src0) && StoreOk(w.store) {
      assert DrainedRows(plan, src0).Keys == Targets(plan, plan.Keys);
    }
  }

  /**
   * What a caller does: drain, and tell the derived engine which topics it drained into. The derived engine stays
   * valid; and if those topics are the destinations, the two calls are one commit step exactly if the chunks join.
   */
  method DrainAndNotify(src: DataEngine, derived: DerivedEngine, changed: seq<TopicId>)
      returns (ok: bool, ghost plan: Plan)
    requires DrainReady(src, derived)
    modifies src`store, src.topics.Values`sealedChunks,
             derived`impl, derived.engine`store, derived.engine.topics.Values`sealedChunks
    ensures derived.Valid()
    ensures !ok ==> derived.View() == old(derived.View()) && src.store == old(src.store)
    ensures ok ==> CommitsIfJoined(old(derived.View()), old(src.store), plan, changed, derived.View())
  {
    ghost var w, src0 := derived.View(), src.store;
    ok, plan := DrainInto(src, derived);
    if ok {
      DrainOutcome(w, src, src0, derived, plan);
      ghost var drained := derived.View();
      derived.OnSourceCommitted(changed);
      NotifyOutcome(w, src0, plan, changed, drained, derived.View());
    }
  }

  /** The drain alone leaves the derived engine valid. */
  method DrainInto(src: DataEngine, derived: DerivedEngine) returns (ok: bool, ghost plan: Plan)
    requires DrainReady(src, derived)
    modifies src`store, src.topics.Values`sealedChunks, derived.engine`store, derived.engine.topics.Values`sealedChunks
    ensures derived.Valid() && derived.View() == old(derived.View()).(store := derived.engine.store)
    ensures !ok ==> src.store == old(src.store) && derived.engine.store == old(derived.engine.store)
    ensures ok ==> PlanOk(src.topics, old(src.store), derived.engine.topics, old(derived.engine.store), plan)
    ensures ok ==> Moved(old(src.store), src.store, old(derived.engine.store), derived.engine.store, plan, plan.Keys)
    ensures derived.engine.Valid() && DistinctKeys(src.topics)
  {
    ghost var w := derived.View();
    ok, plan := FlushNumbered(src, derived.engine);
    SoundAfterCommit(w, derived.engine.store, derived.impl, derived.labels);
  }
}
