/** The upstream search that guards new nodes against cycles. */
module CycleCheck {
  import opened Samples
  import opened World
  import opened NodeIndexes

  /** From a derived topic one step upstream: to the inputs of the node that produces it. */
  ghost predicate Upstream(nodes: map<NodeId, Node>, producers: Producers, t: TopicId, u: TopicId) {
    t in producers && producers[t] in nodes && u in nodes[producers[t]].inputs
  }

  /** A walk upstream that starts at one of the given topics. */
  ghost predicate Walk(nodes: map<NodeId, Node>, producers: Producers, from: seq<TopicId>, p: seq<TopicId>) {
    p != [] &&
    if |p| == 1 then p[0] in from
    else Upstream(nodes, producers, p[|p| - 2], p[|p| - 1]) && Walk(nodes, producers, from, p[..|p| - 1])
  }

  ghost predicate Reachable(nodes: map<NodeId, Node>, producers: Producers, from: seq<TopicId>, t: TopicId) {
    exists p :: Walk(nodes, producers, from, p) && p[|p| - 1] == t
  }

  lemma ReachesInput(nodes: map<NodeId, Node>, producers: Producers, from: seq<TopicId>, t: TopicId)
    requires t in from
    ensures Reachable(nodes, producers, from, t)
  {
    assert Walk(nodes, producers, from, [t]);
  }

  lemma ReachesFurther(nodes: map<NodeId, Node>, producers: Producers, from: seq<TopicId>, t: TopicId, u: TopicId)
    requires Reachable(nodes, producers, from, t) && Upstream(nodes, producers, t, u)
    ensures Reachable(nodes, producers, from, u)
  {
    var p :| Walk(nodes, producers, from, p) && p[|p| - 1] == t;
    assert (p + [u])[..|p|] == p;
    assert Walk(nodes, producers, from, p + [u]);
  }

  /** A set that holds the start and is closed under steps holds everything reachable. */
  lemma {:induction false} ClosedHoldsWalk(nodes: map<NodeId, Node>, producers: Producers, from: seq<TopicId>,
                                           seen: set<TopicId>, p: seq<TopicId>)
    requires forall t <- from :: t in seen
    requires forall t, u | t in seen && Upstream(nodes, producers, t, u) :: u in seen
    requires Walk(nodes, producers, from, p)
    ensures p[|p| - 1] in seen
  {
    if |p| > 1 {
      ClosedHoldsWalk(nodes, producers, from, seen, p[..|p| - 1]);
    }
  }

  ghost function AllInputs(nodes: map<NodeId, Node>, from: seq<TopicId>): set<TopicId> {
    (set t | t in from) + (set n, t | n in nodes && t in nodes[n].inputs :: t)
  }

  /** Seen topics have all their steps seen or waiting. */
  ghost predicate Covered(nodes: map<NodeId, Node>, producers: Producers, seen: set<TopicId>, stack: seq<TopicId>) {
    forall t, u {:trigger Upstream(nodes, producers, t, u)} |
      t in seen && Upstream(nodes, producers, t, u) :: u in seen || u in stack
  }

  /** Terminates on any graph, cyclic ones included, and reports exactly a given output reachable from the inputs. */
  method CheckCycle(nodes: map<NodeId, Node>, producers: Producers, inputs: seq<TopicId>, outputs: seq<TopicId>)
      returns (cycle: bool)
    ensures cycle <==> exists t <- outputs :: Reachable(nodes, producers, inputs, t)
  {
    var stack := inputs;
    var seen: set<TopicId> := {};
    ghost var all := AllInputs(nodes, inputs);
    forall t <- inputs ensures Reachable(nodes, producers, inputs, t) {
      ReachesInput(nodes, producers, inputs, t);
    }
    while stack != []
      invariant forall t <- stack :: t in all && Reachable(nodes, producers, inputs, t)
      invariant forall t <- seen :: t in all && t !in outputs
      invariant forall t <- inputs :: t in seen || t in stack
      invariant Covered(nodes, producers, seen, stack)
      decreases all - seen, |stack|
    {
      var t := stack[|stack| - 1];
      ghost var waiting := stack;
      stack := stack[..|stack| - 1];
      assert forall u <- waiting :: u in stack || u == t;
      if t !in seen {
        if t in outputs {
          return true;
        }
        ghost var before := seen;
        seen := seen + {t};
        if t in producers && producers[t] in nodes {
          stack := PushUnseen(stack, seen, nodes[producers[t]].inputs);
          forall u <- nodes[producers[t]].inputs ensures Reachable(nodes, producers, inputs, u) {
            ReachesFurther(nodes, producers, inputs, t, u);
          }
        }
        assert all - seen < all - before by { assert t in all - before; }
      }
    }
    forall t <- outputs ensures !Reachable(nodes, producers, inputs, t) {
      if Reachable(nodes, producers, inputs, t) {
        var p :| Walk(nodes, producers, inputs, p) && p[|p| - 1] == t;
        ClosedHoldsWalk(nodes, producers, inputs, seen, p);
      }
    }
    return false;
  }

  method PushUnseen(stack: seq<TopicId>, seen: set<TopicId>, inputs: seq<TopicId>) returns (after: seq<TopicId>)
    ensures forall u :: u in after <==> u in stack || (u in inputs && u !in seen)
  {
    after := stack;
    for i := 0 to |inputs|
      invariant forall u :: u in after <==> u in stack || (u in inputs[..i] && u !in seen)
    {
      PrefixHas(inputs, i);
      if inputs[i] !in seen {
        after := after + [inputs[i]];
      }
    }
  }
}
