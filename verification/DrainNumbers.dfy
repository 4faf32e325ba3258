/** What draining one engine into another does to chunk numbers, and to a node that reads the topic. */
module DrainNumbers {
  import opened Samples
  import opened TopicStorages
  import opened DataEngines
  import opened World
  import opened EngineDrain

  /** The numbers of the chunks that move in go on where the destination's stop. */
  predicate RunsOn(dst: seq<Chunk>, src: seq<Chunk>) {
    src != [] ==> LastId(dst) < src[0].id
  }

  /** A drained topic is numbered upwards exactly if the chunks that moved in run on. */
  lemma RisesExactly(dst: seq<Chunk>, src: seq<Chunk>)
    requires Rising(dst) && Rising(src)
    ensures Rising(dst + src) <==> RunsOn(dst, src)
  {
    if RunsOn(dst, src) {
      RisingConcat(dst, src);
    }
    if Rising(dst + src) && src != [] {
      RisingAbove(dst, src);
    }
  }

  lemma {:induction false} AfterConcat(dst: seq<Chunk>, src: seq<Chunk>, mark: nat)
    ensures ChunksAfter(dst + src, mark) == ChunksAfter(dst, mark) + ChunksAfter(src, mark)
  {
    if src == [] {
      assert dst + src == dst;
    } else {
      ConcatFront(dst, src);
      AfterConcat(dst, src[..|src| - 1], mark);
    }
  }

  lemma {:induction false} AllAfter(src: seq<Chunk>, mark: nat)
    requires Rising(src)
    ensures ChunksAfter(src, mark) == src <==> (src != [] ==> mark < src[0].id)
    ensures forall c <- ChunksAfter(src, mark) :: mark < c.id
  {
    if src != [] {
      var front, first := src[..|src| - 1], src[0];
      RisingFront(src);
      AllAfter(front, mark);
      FrontAndLast(src);
      if mark < src[0].id {
        RisingMeaning(src);
      } else {
        assert ChunksAfter(src, mark) == src ==> first in ChunksAfter(src, mark);
      }
    }
  }

  /**
   * A node that had read the whole destination topic sees every chunk that moved in, and nothing twice, exactly if they
   * run on; otherwise it never sees the first of them.
   */
  lemma ReaderSeesExactly(dst: seq<Chunk>, src: seq<Chunk>)
    requires Rising(dst) && Rising(src)
    ensures ChunksAfter(dst + src, LastId(dst)) == src <==> RunsOn(dst, src)
    ensures !RunsOn(dst, src) ==> src[0] !in ChunksAfter(dst + src, LastId(dst))
  {
    var mark := LastId(dst);
    AfterConcat(dst, src, mark);
    ChunkSplit(dst, mark);
    assert [] + ChunksAfter(src, mark) == ChunksAfter(src, mark);
    AllAfter(src, mark);
  }

  /** After a drain every topic is numbered upwards exactly if the chunks run on wherever any moved in. */
  lemma DrainRisesExactly(src: Topics, src0: Store, src1: Store, dst: Topics, dst0: Store, dst1: Store, plan: Plan)
    requires PlanOk(src, src0, dst, dst0, plan) && DistinctKeys(src) && Moved(src0, src1, dst0, dst1, plan, plan.Keys)
    requires (forall t <- src0 :: Rising(src0[t])) && (forall u <- dst0 :: Rising(dst0[u]))
    ensures (forall u <- dst1 :: Rising(dst1[u])) <==> forall t <- plan :: RunsOnAt(src0, dst0, plan, t)
  {
    MovedMeaning(src0, src1, dst0, dst1, plan, plan.Keys);
    forall t <- plan
        ensures t in src0 && plan[t] in dst1 && (Rising(dst1[plan[t]]) <==> RunsOnAt(src0, dst0, plan, t)) {
      assert PlannedTopic(src, src0, dst, dst0, t, plan[t]);
      RisesExactly(dst0[plan[t]], src0[t]);
    }
    forall u <- dst1 | u !in Targets(plan, plan.Keys) ensures Rising(dst1[u]) {
    }
  }

  ghost predicate RunsOnAt(src: Store, dst: Store, plan: Plan, t: TopicId) {
    t in plan && t in src && plan[t] in dst && RunsOn(dst[plan[t]], src[t])
  }

  /** After a drain the destination's chunks are below a counter exactly if its own and all that moved in were. */
  lemma DrainNumberedExactly(src: Topics, src0: Store, src1: Store, dst: Topics, dst0: Store, dst1: Store, plan: Plan,
                             counter: nat)
    requires PlanOk(src, src0, dst, dst0, plan) && DistinctKeys(src) && Moved(src0, src1, dst0, dst1, plan, plan.Keys)
    ensures StoreNumbered(dst1, counter) <==> StoreNumbered(dst0, counter) && StoreNumbered(src0, counter)
  {
    MovedMeaning(src0, src1, dst0, dst1, plan, plan.Keys);
    forall t <- plan
      ensures t in src0 && plan[t] in dst1 && plan[t] in dst0
      ensures IdsBelow(dst1[plan[t]], counter) <==> IdsBelow(dst0[plan[t]], counter) && IdsBelow(src0[t], counter)
    {
      assert PlannedTopic(src, src0, dst, dst0, t, plan[t]);
      BelowConcat(dst0[plan[t]], src0[t], counter);
    }
    if StoreNumbered(dst1, counter) {
      forall u | u in dst0 ensures IdsBelow(dst0[u], counter) {
        assert IdsBelow(dst1[u], counter);
      }
      forall t | t in src0 ensures IdsBelow(src0[t], counter) {
        assert t in plan ==> IdsBelow(dst1[plan[t]], counter);
      }
    }
    if StoreNumbered(dst0, counter) && StoreNumbered(src0, counter) {
      forall u | u in dst1 ensures IdsBelow(dst1[u], counter) {
        assert IdsBelow(dst0[u], counter);
      }
    }
  }

  lemma BelowConcat(a: seq<Chunk>, b: seq<Chunk>, counter: nat)
    ensures IdsBelow(a + b, counter) <==> IdsBelow(a, counter) && IdsBelow(b, counter)
  {
    if IdsBelow(a + b, counter) {
      forall i | 0 <= i < |b| ensures 0 < b[i].id < counter {
        assert (a + b)[|a| + i] == b[i];
      }
      forall i | 0 <= i < |a| ensures 0 < a[i].id < counter {
        assert (a + b)[i] == a[i];
      }
    }
  }

  /**
   * A drain after which the destination can be used like before: all ids are below its counter, so that a derived
   * engine's calls may follow.
   */
  method FlushNumbered(src: DataEngine, dst: DataEngine) returns (ok: bool, ghost plan: Plan)
    requires src.Valid() && dst.Valid() && dst.AllNumbered() && (src != dst ==> TwoEngines(src, dst))
    requires StoreNumbered(src.store, dst.nextChunkId)
    modifies src`store, dst`store, src.topics.Values`sealedChunks, dst.topics.Values`sealedChunks
    ensures src.Valid() && dst.Valid() && dst.AllNumbered()
    ensures ok ==> PlanOk(src.topics, old(src.store), dst.topics, old(dst.store), plan)
    ensures ok ==> Moved(old(src.store), src.store, old(dst.store), dst.store, plan, plan.Keys)
    ensures !ok ==> src.store == old(src.store) && dst.store == old(dst.store)
    ensures dst.store.Keys == old(dst.store).Keys
  {
    ok, plan := FlushTo(src, dst);
    if ok {
      DrainNumberedExactly(src.topics, old(src.store), src.store, dst.topics, old(dst.store), dst.store, plan,
                           dst.nextChunkId);
    }
  }

  /** An older chunk with newer rows, as a second engine may hold: drained, it is never read. */
  const Early := Chunk(2, [], [Row(0, [])])
  const LateMade := Chunk(1, [], [Row(5, [])])

  lemma OlderChunkIsMissed()
    ensures Ordered([Early]) && Ordered([LateMade]) && Follows([Early], [LateMade])
    ensures Ordered([Early] + [LateMade]) && !Rising([Early] + [LateMade])
    ensures ChunksAfter([Early] + [LateMade], LastId([Early])) == []
  {
    assert Sorted(Early.rows) && Sorted(LateMade.rows);
    assert [Early][..0] == [] && [LateMade][..0] == [];
    assert Ordered([Early]) && Ordered([LateMade]);
    FollowsKeepsOrdered([Early], [LateMade]);
    RisingMeaning([Early]);
    RisingMeaning([LateMade]);
    RisesExactly([Early], [LateMade]);
    ReaderSeesExactly([Early], [LateMade]);
    AfterConcat([Early], [LateMade], 2);
    assert ChunksAfter([LateMade], 2) == ChunksAfter([], 2);
    assert ChunksAfter([Early], 2) == ChunksAfter([], 2);
  }

  // ---------------------------------------------------------------- source topics of one name

  /** Source topics of one dataset and name all move into the same destination, in the order in which they are met. */
  function MovedIn(dst: seq<Chunk>, sources: seq<seq<Chunk>>): seq<Chunk> {
    if sources == [] then dst else MovedIn(dst, sources[..|sources| - 1]) + sources[|sources| - 1]
  }

  /** What the first phase checks of each of them: that it may follow what the destination holds before the move. */
  ghost predicate EachFollows(dst: seq<Chunk>, sources: seq<seq<Chunk>>) {
    forall i | 0 <= i < |sources| :: sources[i] != [] && Ordered(sources[i]) && Follows(dst, sources[i])
  }

  /** Each of them starts where the one before it ends, or later. */
  ghost predicate InTurn(sources: seq<seq<Chunk>>)
    requires forall i | 0 <= i < |sources| :: sources[i] != []
  {
    forall i | 0 < i < |sources| :: EndOf(sources[i - 1]) <= TMin(sources[i][0])
  }

  lemma FollowsExactly(a: seq<Chunk>, b: seq<Chunk>)
    requires Ordered(a) && Ordered(b) && b != []
    ensures Ordered(a + b) <==> Follows(a, b)
  {
    if Follows(a, b) {
      FollowsKeepsOrdered(a, b);
    }
    if Ordered(a + b) {
      OrderedTwice(a, b);
    }
  }

  lemma {:induction false} OrderedTwice(a: seq<Chunk>, b: seq<Chunk>)
    requires Ordered(a + b) && b != []
    ensures Ordered(a) && Follows(a, b)
  {
    ConcatFront(a, b);
    var front := b[..|b| - 1];
    if front == [] {
      assert a + front == a;
    } else {
      OrderedTwice(a, front);
      assert front[0] == b[0];
    }
  }

  lemma MovedInEnds(dst: seq<Chunk>, sources: seq<seq<Chunk>>)
    requires sources != [] && sources[|sources| - 1] != []
    ensures MovedIn(dst, sources) != [] && EndOf(MovedIn(dst, sources)) == EndOf(sources[|sources| - 1])
  {
  }

  /**
   * Though the first phase passes, the destination stays in time order if and only if the source topics of one name
   * follow each other in the order in which they are met.
   */
  lemma {:induction false} SharedNameExactly(dst: seq<Chunk>, sources: seq<seq<Chunk>>)
    requires Ordered(dst) && EachFollows(dst, sources)
    ensures Ordered(MovedIn(dst, sources)) <==> InTurn(sources)
  {
    if sources != [] {
      var n := |sources| - 1;
      SharedNameExactly(dst, sources[..n]);
      LastMovesIn(dst, sources);
      InTurnLast(sources);
    }
  }

  lemma LastMovesIn(dst: seq<Chunk>, sources: seq<seq<Chunk>>)
    requires EachFollows(dst, sources) && sources != []
    ensures var n := |sources| - 1;
            Ordered(MovedIn(dst, sources)) <==>
              Ordered(MovedIn(dst, sources[..n])) && (n > 0 ==> EndOf(sources[n - 1]) <= TMin(sources[n][0]))
  {
    var n := |sources| - 1;
    var moved, last := MovedIn(dst, sources[..n]), sources[n];
    if n > 0 {
      MovedInEnds(dst, sources[..n]);
    }
    if Ordered(moved) {
      FollowsExactly(moved, last);
    } else if Ordered(moved + last) {
      OrderedTwice(moved, last);
    }
  }

  lemma InTurnLast(sources: seq<seq<Chunk>>)
    requires sources != [] && forall i | 0 <= i < |sources| :: sources[i] != []
    ensures var n := |sources| - 1;
            InTurn(sources) <==> InTurn(sources[..n]) && (n > 0 ==> EndOf(sources[n - 1]) <= TMin(sources[n][0]))
  {
    var front := sources[..|sources| - 1];
    assert forall i | 0 <= i < |front| :: front[i] == sources[i];
    if InTurn(sources) {
      forall i | 0 < i < |front| ensures EndOf(front[i - 1]) <= TMin(front[i][0]) {
        assert EndOf(sources[i - 1]) <= TMin(sources[i][0]);
      }
    }
  }

  /** Two source topics of one name that both pass, and leave the destination out of order. */
  lemma SharedNameStepsBack()
    ensures EachFollows([], [[LateMade], [Early]]) && !Ordered(MovedIn([], [[LateMade], [Early]]))
  {
    assert Sorted(Early.rows) && Sorted(LateMade.rows);
    assert [Early][..0] == [] && [LateMade][..0] == [];
    var sources := [[LateMade], [Early]];
    assert Ordered([Early]) && Ordered([LateMade]);
    forall i | 0 <= i < |sources| ensures sources[i] != [] && Ordered(sources[i]) && Follows([], sources[i]) {
      assert sources[i] == if i == 0 then [LateMade] else [Early];
    }
    SharedNameExactly([], sources);
    assert EndOf(sources[0]) > TMin(sources[1][0]);
  }
}
