/** Retention over all topics, and draining one engine into another. */
module EngineDrain {
  import opened Samples
  import opened TopicStorages
  import opened DataEngines

  // ---------------------------------------------------------------- retention

  /** A topic cut back to a window before its newest row, whole chunks at a time. */
  function Retained(chunks: seq<Chunk>, window: int): seq<Chunk> {
    if chunks == [] then [] else Evicted(chunks, EndOf(chunks) - window)
  }

  /** Retention drops a prefix of the rows, none of them within the window. */
  lemma RetainedKeepsWindow(chunks: seq<Chunk>, window: int) returns (lost: seq<Row>)
    requires Ordered(chunks)
    ensures Flatten(chunks) == lost + Flatten(Retained(chunks, window)) && Ordered(Retained(chunks, window))
    ensures forall row <- lost :: chunks != [] && row.ts < EndOf(chunks) - window
  {
    if chunks == [] {
      lost := [];
    } else {
      lost := EvictedKeepsRecent(chunks, EndOf(chunks) - window);
      var n := EvictedIsSuffix(chunks, EndOf(chunks) - window);
    }
  }

  /** With a window of at least zero a topic never becomes empty. */
  lemma RetainedKeepsNewest(chunks: seq<Chunk>, window: nat)
    requires Ordered(chunks) && chunks != []
    ensures Retained(chunks, window) != [] && EndOf(Retained(chunks, window)) == EndOf(chunks)
  {
    var n := EvictedIsSuffix(chunks, EndOf(chunks) - window);
    assert n > 0 ==> TMax(chunks[n - 1]) < EndOf(chunks) - window;
  }

  /** The topics of `done` have been cut back. */
  ghost predicate CutBack(before: Store, now: Store, window: int, done: set<TopicId>) {
    && now.Keys == before.Keys
    && forall t <- before :: now[t] == if t in done then Retained(before[t], window) else before[t]
  }

  lemma CutKeepsOrdered(store: Store, t: TopicId, window: int, nextTopic: TopicId)
    requires StoreOrdered(store, nextTopic) && t in store
    ensures StoreOrdered(store[t := Retained(store[t], window)], nextTopic)
  {
    assert OrderedTopic(store[t], t, nextTopic);
    var lost := RetainedKeepsWindow(store[t], window);
    forall u | u in store ensures OrderedTopic(store[t := Retained(store[t], window)][u], u, nextTopic) {
      assert OrderedTopic(store[u], u, nextTopic);
    }
  }

  method EnforceRetention(engine: DataEngine, window: int)
    requires engine.Valid()
    modifies engine`store, engine.topics.Values`sealedChunks
    ensures engine.Valid() && CutBack(old(engine.store), engine.store, window, engine.topics.Keys)
  {
    var left := engine.topics.Keys;
    ghost var done: set<TopicId> := {};
    while left != {}
      invariant engine.Valid() && left + done == engine.topics.Keys && left !! done
      invariant CutBack(old(engine.store), engine.store, window, done)
      decreases left
    {
      var t :| t in left;
      CutTopic(engine, t, window);
      left, done := left - {t}, done + {t};
    }
  }

  method CutTopic(engine: DataEngine, t: TopicId, window: int)
    requires engine.Valid() && t in engine.topics
    modifies engine`store, engine.topics.Values`sealedChunks
    ensures engine.Valid() && engine.store == old(engine.store)[t := Retained(old(engine.store)[t], window)]
  {
    CutKeepsOrdered(engine.store, t, window, engine.nextTopicId);
    assert OrderedTopic(engine.store[t], t, engine.nextTopicId);
    var chunks := engine.topics[t].sealedChunks;
    if chunks != [] {
      engine.topics[t].EvictBefore(EndOf(chunks) - window);
    }
    engine.store := engine.store[t := Retained(engine.store[t], window)];
  }

  // ---------------------------------------------------------------- draining into another engine

  function Key(storage: TopicStorage): (nat, string) {
    (storage.descriptor.datasetId, storage.descriptor.name)
  }

  type Topics = map<TopicId, TopicStorage>

  /** No two topics share dataset and name. */
  ghost predicate DistinctKeys(topics: Topics) {
    forall t, u {:trigger SameKey(topics[t], topics[u])} | t in topics && u in topics && t != u ::
      !SameKey(topics[t], topics[u])
  }

  predicate SameKey(a: TopicStorage, b: TopicStorage) {
    Key(a) == Key(b)
  }

  /** The chunks of a source topic may follow those of a destination topic. */
  predicate Follows(dst: seq<Chunk>, src: seq<Chunk>)
    requires src != []
  {
    dst == [] || EndOf(dst) <= TMin(src[0])
  }

  /** Which destination topic each non-empty source topic goes to. */
  type Plan = map<TopicId, TopicId>

  ghost predicate PlannedTopic(src: Topics, srcStore: Store, dst: Topics, dstStore: Store, t: TopicId, u: TopicId) {
    && t in src && t in srcStore && srcStore[t] != []
    && u in dst && u in dstStore && Key(dst[u]) == Key(src[t]) && Follows(dstStore[u], srcStore[t])
  }

  /** A complete plan: every non-empty source topic has a destination of its own key that it may follow. */
  ghost predicate PlanOk(src: Topics, srcStore: Store, dst: Topics, dstStore: Store, plan: Plan) {
    && (forall t {:trigger PlannedTopic(src, srcStore, dst, dstStore, t, plan[t])} | t in plan ::
          PlannedTopic(src, srcStore, dst, dstStore, t, plan[t]))
    && (forall t <- srcStore | srcStore[t] != [] :: t in plan)
  }

  /** The plan sends two source topics to two destinations. */
  lemma PlanInjective(src: Topics, srcStore: Store, dst: Topics, dstStore: Store, plan: Plan, t: TopicId, u: TopicId)
    requires PlanOk(src, srcStore, dst, dstStore, plan) && DistinctKeys(src) && t in plan && u in plan && t != u
    ensures plan[t] != plan[u]
  {
    assert PlannedTopic(src, srcStore, dst, dstStore, t, plan[t]);
    assert PlannedTopic(src, srcStore, dst, dstStore, u, plan[u]);
    assert !SameKey(src[t], src[u]);
  }

  lemma {:induction false} FollowsKeepsOrdered(a: seq<Chunk>, b: seq<Chunk>)
    requires Ordered(a) && Ordered(b) && (b != [] ==> Follows(a, b))
    ensures Ordered(a + b)
  {
    if b == [] {
      assert a + b == a;
    } else {
      var front := b[..|b| - 1];
      assert front != [] ==> front[0] == b[0];
      FollowsKeepsOrdered(a, front);
      ConcatFront(a, b);
      assert (a + front) != [] ==> EndOf(a + front) == if front == [] then EndOf(a) else EndOf(front);
    }
  }

  /**
   * The source topics of `done` have moved, nothing else changed; kept folded (see Folding), unfolded by the targets.
   */
  ghost predicate Moved(src0: Store, src: Store, dst0: Store, dst: Store, plan: Plan, done: set<TopicId>) {
    && src.Keys == src0.Keys && dst.Keys == dst0.Keys
    && forall gone {:trigger Targets(plan, gone)} | gone == done :: MovedExactly(src0, src, dst0, dst, plan, gone)
  }

  ghost predicate MovedExactly(src0: Store, src: Store, dst0: Store, dst: Store, plan: Plan, done: set<TopicId>) {
    && src.Keys == src0.Keys && dst.Keys == dst0.Keys
    && (forall t <- src0 :: src[t] == if t in done then [] else src0[t])
    && (forall t <- plan | t in done :: plan[t] in dst0 && t in src0 && dst[plan[t]] == dst0[plan[t]] + src0[t])
    && (forall u <- dst0 | u !in Targets(plan, done) :: dst[u] == dst0[u])
  }

  lemma MovedMeaning(src0: Store, src: Store, dst0: Store, dst: Store, plan: Plan, done: set<TopicId>)
    ensures Moved(src0, src, dst0, dst, plan, done) <==> MovedExactly(src0, src, dst0, dst, plan, done)
  {
    var targets := Targets(plan, done);
  }

  function Targets(plan: Plan, done: set<TopicId>): set<TopicId> {
    set t | t in plan && t in done :: plan[t]
  }

  lemma TargetsNext(plan: Plan, done: set<TopicId>, t: TopicId)
    requires t in plan && t !in done && forall u <- plan | u != t :: plan[u] != plan[t]
    ensures plan[t] !in Targets(plan, done) && Targets(plan, done + {t}) == Targets(plan, done) + {plan[t]}
  {
  }

  lemma MovedNext(src0: Store, src: Store, dst0: Store, dst: Store, plan: Plan, done: set<TopicId>, t: TopicId)
    requires Moved(src0, src, dst0, dst, plan, done) && t in plan && t !in done && t in src0 && plan[t] in dst0
    requires forall u <- plan | u != t :: plan[u] != plan[t]
    ensures Moved(src0, src[t := []], dst0, dst[plan[t] := dst[plan[t]] + src[t]], plan, done + {t})
  {
    MovedMeaning(src0, src, dst0, dst, plan, done);
    TargetsNext(plan, done, t);
    var src', dst' := src[t := []], dst[plan[t] := dst[plan[t]] + src[t]];
    forall u <- plan | u in done + {t}
      ensures plan[u] in dst0 && u in src0 && dst'[plan[u]] == dst0[plan[u]] + src0[u]
    {
    }
    forall u <- dst0 | u !in Targets(plan, done + {t}) ensures dst'[u] == dst0[u] {
    }
    MovedMeaning(src0, src', dst0, dst', plan, done + {t});
  }

  /** Both engines are in order and share no topic object. */
  ghost predicate TwoEngines(src: DataEngine, dst: DataEngine)
    reads src`topics, src`store, src`nextTopicId, src.topics.Values`sealedChunks,
          dst`topics, dst`store, dst`nextTopicId, dst.topics.Values`sealedChunks
  {
    BothValid(src, dst) && DistinctKeys(src.topics)
  }

  method FindTarget(topics: Topics, key: (nat, string)) returns (found: Option<TopicId>)
    ensures found.Some? ==> found.value in topics && Key(topics[found.value]) == key
    ensures found.None? ==> forall u <- topics :: Key(topics[u]) != key
  {
    var left := topics.Keys;
    while left != {}
      invariant left <= topics.Keys && forall u <- topics | u !in left :: Key(topics[u]) != key
      decreases left
    {
      var u :| u in left;
      if Key(topics[u]) == key {
        return Some(u);
      }
      left := left - {u};
    }
    return None;
  }

  /** Why a drain is refused: a topic without a destination, or one that would step back in time. */
  ghost predicate Refused(src: Topics, srcStore: Store, dst: Topics, dstStore: Store, t: TopicId) {
    && t in src && t in srcStore && srcStore[t] != []
    && ((forall u <- dst :: Key(dst[u]) != Key(src[t]))
        || (exists u <- dst :: Key(dst[u]) == Key(src[t]) && u in dstStore && !Follows(dstStore[u], srcStore[t])))
  }

  /** The first phase: nothing is changed; either a complete plan or a topic that cannot move. */
  method MakePlan(src: DataEngine, dst: DataEngine) returns (plan: Option<Plan>)
    requires TwoEngines(src, dst)
    ensures plan.Some? ==> PlanOk(src.topics, src.store, dst.topics, dst.store, plan.value)
    ensures plan.None? ==> exists t :: Refused(src.topics, src.store, dst.topics, dst.store, t)
  {
    var made: Plan := map[];
    var left := src.topics.Keys;
    while left != {}
      invariant left <= src.topics.Keys && left !! made.Keys
      invariant forall t
                {:trigger PlannedTopic(src.topics, src.store, dst.topics, dst.store, t, made[t])} | t in made ::
                  PlannedTopic(src.topics, src.store, dst.topics, dst.store, t, made[t])
      invariant forall t <- src.store | src.store[t] != [] && t !in left :: t in made
      decreases left
    {
      var t :| t in left;
      left := left - {t};
      var chunks := src.topics[t].sealedChunks;
      if chunks != [] {
        var target := FindTarget(dst.topics, Key(src.topics[t]));
        if target.None? {
          assert Refused(src.topics, src.store, dst.topics, dst.store, t);
          return None;
        }
        if !Follows(dst.topics[target.value].sealedChunks, chunks) {
          assert Refused(src.topics, src.store, dst.topics, dst.store, t);
          return None;
        }
        assert PlannedTopic(src.topics, src.store, dst.topics, dst.store, t, target.value);
        made := made[t := target.value];
      }
    }
    return Some(made);
  }

  /** Both engines stay in order while one of them changes. */
  ghost predicate BothValid(src: DataEngine, dst: DataEngine)
    reads src`topics, src`store, src`nextTopicId, src.topics.Values`sealedChunks,
          dst`topics, dst`store, dst`nextTopicId, dst.topics.Values`sealedChunks
  {
    src != dst && src.Valid() && dst.Valid() && src.topics.Values !! dst.topics.Values
  }

  method TakeTopic(src: DataEngine, dst: DataEngine, t: TopicId) returns (chunks: seq<Chunk>)
    requires BothValid(src, dst) && t in src.topics
    modifies src`store, src.topics.Values`sealedChunks
    ensures BothValid(src, dst)
    ensures chunks == old(src.store)[t] && src.store == old(src.store)[t := []]
  {
    chunks := src.topics[t].sealedChunks;
    src.ClearTopic(t);
  }

  method GiveTopic(src: DataEngine, dst: DataEngine, u: TopicId, chunks: seq<Chunk>)
    requires BothValid(src, dst) && u in dst.topics && Ordered(dst.store[u] + chunks)
    modifies dst`store, dst.topics.Values`sealedChunks
    ensures BothValid(src, dst)
    ensures dst.store == old(dst.store)[u := old(dst.store)[u] + chunks]
  {
    dst.AppendChunks(u, chunks);
  }

  lemma AppendKeepsOrdered(src: Store, t: TopicId, srcNext: TopicId, dst: Store, u: TopicId, dstNext: TopicId)
    requires StoreOrdered(src, srcNext) && StoreOrdered(dst, dstNext) && t in src && u in dst
    requires src[t] != [] ==> Follows(dst[u], src[t])
    ensures Ordered(dst[u] + src[t])
  {
    assert OrderedTopic(src[t], t, srcNext) && OrderedTopic(dst[u], u, dstNext);
    FollowsKeepsOrdered(dst[u], src[t]);
  }

  /**
   * All or nothing: refused without any change, or every source topic is empty and its chunks follow the destination's.
   */
  method FlushTo(src: DataEngine, dst: DataEngine) returns (ok: bool, ghost plan: Plan)
    requires src.Valid() && dst.Valid() && (src != dst ==> TwoEngines(src, dst))
    modifies src`store, dst`store, src.topics.Values`sealedChunks, dst.topics.Values`sealedChunks
    ensures src.Valid() && dst.Valid()
    ensures !ok ==> src.store == old(src.store) && dst.store == old(dst.store)
    ensures !ok ==> src == dst || exists t :: Refused(src.topics, old(src.store), dst.topics, old(dst.store), t)
    ensures ok ==> src != dst && PlanOk(src.topics, old(src.store), dst.topics, old(dst.store), plan)
    ensures ok ==> Moved(old(src.store), src.store, old(dst.store), dst.store, plan, plan.Keys)
    ensures ok ==> forall t <- src.store :: src.store[t] == []
  {
    plan := map[];
    if src == dst {
      return false, plan;
    }
    var made := MakePlan(src, dst);
    if made.None? {
      return false, plan;
    }
    plan := made.value;
    Execute(src, dst, made.value);
    AllMoved(old(src.store), src.store, old(dst.store), dst.store, plan);
    ok := true;
  }

  lemma AllMoved(src0: Store, src: Store, dst0: Store, dst: Store, plan: Plan)
    requires Moved(src0, src, dst0, dst, plan, plan.Keys) && forall t <- src0 | src0[t] != [] :: t in plan
    ensures forall t <- src :: src[t] == []
  {
    MovedMeaning(src0, src, dst0, dst, plan, plan.Keys);
  }

  /** The second phase: every planned topic moves. */
  method Execute(src: DataEngine, dst: DataEngine, plan: Plan)
    requires BothValid(src, dst) && DistinctKeys(src.topics)
    requires PlanOk(src.topics, src.store, dst.topics, dst.store, plan)
    modifies src`store, dst`store, src.topics.Values`sealedChunks, dst.topics.Values`sealedChunks
    ensures BothValid(src, dst)
    ensures Moved(old(src.store), src.store, old(dst.store), dst.store, plan, plan.Keys)
  {
    ghost var src0, dst0 := src.store, dst.store;
    var done: set<TopicId> := {};
    MovedMeaning(src0, src0, dst0, dst0, plan, done);
    while plan.Keys - done != {}
      invariant done <= plan.Keys && BothValid(src, dst)
      invariant Moved(src0, src.store, dst0, dst.store, plan, done)
      decreases plan.Keys - done
    {
      var t :| t in plan.Keys - done;
      MoveTopic(src, dst, plan, t, src0, dst0, done);
      done := done + {t};
    }
    assert done == plan.Keys;
  }

  method MoveTopic(src: DataEngine, dst: DataEngine, plan: Plan, t: TopicId,
                   ghost src0: Store, ghost dst0: Store, ghost done: set<TopicId>)
    requires BothValid(src, dst) && DistinctKeys(src.topics) && t in plan && t !in done
    requires PlanOk(src.topics, src0, dst.topics, dst0, plan) && Moved(src0, src.store, dst0, dst.store, plan, done)
    modifies src`store, dst`store, src.topics.Values`sealedChunks, dst.topics.Values`sealedChunks
    ensures BothValid(src, dst) && Moved(src0, src.store, dst0, dst.store, plan, done + {t})
  {
    PlanStep(src.topics, src0, src.store, dst.topics, dst0, dst.store, plan, done, t);
    AppendKeepsOrdered(src.store, t, src.nextTopicId, dst.store, plan[t], dst.nextTopicId);
    var chunks := TakeTopic(src, dst, t);
    GiveTopic(src, dst, plan[t], chunks);
  }

  lemma PlanStep(src: Topics, src0: Store, srcNow: Store, dst: Topics, dst0: Store, dstNow: Store,
                 plan: Plan, done: set<TopicId>, t: TopicId)
    requires PlanOk(src, src0, dst, dst0, plan) && DistinctKeys(src) && t in plan && t !in done
    requires Moved(src0, srcNow, dst0, dstNow, plan, done)
    ensures t in src && plan[t] in dst && t in srcNow && plan[t] in dstNow && srcNow[t] == src0[t] != []
    ensures Follows(dstNow[plan[t]], srcNow[t])
    ensures Moved(src0, srcNow[t := []], dst0, dstNow[plan[t] := dstNow[plan[t]] + srcNow[t]], plan, done + {t})
  {
    MovedMeaning(src0, srcNow, dst0, dstNow, plan, done);
    assert PlannedTopic(src, src0, dst, dst0, t, plan[t]);
    forall u <- plan | u != t ensures plan[u] != plan[t] {
      PlanInjective(src, src0, dst, dst0, plan, t, u);
    }
    TargetsNext(plan, done, t);
    MovedNext(src0, srcNow, dst0, dstNow, plan, done, t);
  }
}
