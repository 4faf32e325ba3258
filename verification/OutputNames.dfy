/** The table of registered output names: one entry per dataset and name, naming the topic that holds it. */
module OutputNames {
  import opened Orders
  import opened Samples
  import opened World

  /** A dataset and a topic name. */
  type Label = (nat, string)

  type Labels = map<TopicId, Label>

  predicate Entry(names: map<Label, TopicId>, k: Label, t: TopicId) {
    k in names && names[k] == t
  }

  /** `t` is the last output of one call registered under `k`. */
  predicate Named(outputs: seq<TopicId>, labels: Labels, k: Label, t: TopicId) {
    outputs != [] &&
    var front, last := outputs[..|outputs| - 1], outputs[|outputs| - 1];
    if last in labels && labels[last] == k then t == last else Named(front, labels, k, t)
  }

  ghost predicate SomeNamed(nodes: map<NodeId, Node>, labels: Labels, k: Label, t: TopicId) {
    exists n: NodeId :: n in nodes && Named(nodes[n].outputs, labels, k, t)
  }

  ghost predicate NamesExact(nodes: map<NodeId, Node>, labels: Labels, names: map<Label, TopicId>) {
    forall k, t {:trigger Entry(names, k, t)} :: Entry(names, k, t) <==> SomeNamed(nodes, labels, k, t)
  }

  lemma {:induction false} NamedIsOutput(outputs: seq<TopicId>, labels: Labels, k: Label, t: TopicId)
    requires Named(outputs, labels, k, t)
    ensures t in outputs && t in labels && labels[t] == k
  {
    var front, last := outputs[..|outputs| - 1], outputs[|outputs| - 1];
    if !(last in labels && labels[last] == k) {
      NamedIsOutput(front, labels, k, t);
    }
  }

  /** No output behind position `j` has the name of the one there. */
  ghost predicate LastOfItsName(outputs: seq<TopicId>, labels: Labels, j: nat)
    requires j < |outputs| && forall t <- outputs :: t in labels
  {
    forall i | j < i < |outputs| :: labels[outputs[i]] != labels[outputs[j]]
  }

  /** An output of a call is named by it exactly if no later output of the call takes its name. */
  lemma {:induction false} NamedExactly(outputs: seq<TopicId>, labels: Labels, j: nat)
    requires j < |outputs| && Distinct(outputs) && forall t <- outputs :: t in labels
    ensures Named(outputs, labels, labels[outputs[j]], outputs[j]) <==> LastOfItsName(outputs, labels, j)
  {
    var n := |outputs| - 1;
    if j < n {
      assert outputs[n] in outputs && outputs[n] != outputs[j];
      NamedExactly(outputs[..n], labels, j);
    }
  }

  /** In an exact table an output is found under its own name exactly if no later output of its call took the name. */
  lemma FoundByName(nodes: map<NodeId, Node>, labels: Labels, names: map<Label, TopicId>, id: NodeId, j: nat)
    requires NamesExact(nodes, labels, names) && id in nodes && j < |nodes[id].outputs| && Distinct(nodes[id].outputs)
    requires forall t <- nodes[id].outputs :: t in labels
    requires forall n <- nodes | n != id :: Disjoint(nodes[n].outputs, nodes[id].outputs)
    ensures var t := nodes[id].outputs[j];
            Entry(names, labels[t], t) <==> LastOfItsName(nodes[id].outputs, labels, j)
  {
    var t := nodes[id].outputs[j];
    assert t in nodes[id].outputs;
    NamedExactly(nodes[id].outputs, labels, j);
    if Entry(names, labels[t], t) {
      var n :| n in nodes && Named(nodes[n].outputs, labels, labels[t], t);
      NamedIsOutput(nodes[n].outputs, labels, labels[t], t);
    }
  }

  /** Names depend on nothing but the labels of the outputs. */
  lemma {:induction false} NamedFrame(outputs: seq<TopicId>, labels: Labels, labels': Labels, k: Label, t: TopicId)
    requires forall u <- outputs :: u in labels && u in labels' && labels'[u] == labels[u]
    ensures Named(outputs, labels', k, t) <==> Named(outputs, labels, k, t)
  {
    if outputs != [] {
      NamedFrame(outputs[..|outputs| - 1], labels, labels', k, t);
    }
  }

  /** Registering the outputs of a new node, in call order. */
  method AddNames(names: map<Label, TopicId>, dataset: nat, texts: seq<string>, outputs: seq<TopicId>,
                  ghost labels: Labels)
      returns (after: map<Label, TopicId>)
    requires |texts| == |outputs|
    requires forall i | 0 <= i < |outputs| :: outputs[i] in labels && labels[outputs[i]] == (dataset, texts[i])
    requires forall i | 0 <= i < |texts| :: (dataset, texts[i]) !in names
    ensures forall k, t :: Entry(after, k, t) <==> Entry(names, k, t) || Named(outputs, labels, k, t)
  {
    after := names;
    for i := 0 to |outputs|
      invariant forall k, t :: Entry(after, k, t) <==> Entry(names, k, t) || Named(outputs[..i], labels, k, t)
    {
      var key := (dataset, texts[i]);
      ghost var before := after;
      assert outputs[..i + 1][..i] == outputs[..i];
      after := after[key := outputs[i]];
      forall k, t ensures Entry(after, k, t) <==> Entry(names, k, t) || Named(outputs[..i + 1], labels, k, t) {
        assert k != key ==> (Entry(after, k, t) <==> Entry(before, k, t));
      }
    }
    assert outputs[..|outputs|] == outputs;
  }

  /** Unregistering a node: for each output, the entry that holds it, if any, is erased. */
  method DropNames(names: map<Label, TopicId>, outputs: seq<TopicId>) returns (after: map<Label, TopicId>)
    requires forall k, l | k in names && l in names && names[k] == names[l] :: k == l
    ensures forall k, t :: Entry(after, k, t) <==> Entry(names, k, t) && t !in outputs
  {
    after := names;
    for i := 0 to |outputs|
      invariant forall k, t :: Entry(after, k, t) <==> Entry(names, k, t) && t !in outputs[..i]
    {
      ghost var before := after;
      if key :| key in after && after[key] == outputs[i] {
        assert Entry(before, key, outputs[i]) && Entry(names, key, outputs[i]);
        after := after - {key};
      }
      assert outputs[..i + 1] == outputs[..i] + [outputs[i]];
      forall k, t ensures Entry(after, k, t) <==> Entry(names, k, t) && t !in outputs[..i + 1] {
        assert Entry(after, k, t) <==> Entry(before, k, t) && t != outputs[i];
      }
    }
  }

  lemma AddKeepsNames(nodes: map<NodeId, Node>, id: NodeId, b: Node, labels: Labels, labels': Labels,
                      names: map<Label, TopicId>, after: map<Label, TopicId>)
    requires id !in nodes && NamesExact(nodes, labels, names)
    requires forall n <- nodes, t <- nodes[n].outputs :: t in labels && t in labels' && labels'[t] == labels[t]
    requires forall k, t :: Entry(after, k, t) <==> Entry(names, k, t) || Named(b.outputs, labels', k, t)
    ensures NamesExact(nodes[id := b], labels', after)
  {
    var nodes' := nodes[id := b];
    forall k, t ensures Entry(after, k, t) <==> SomeNamed(nodes', labels', k, t) {
      forall n <- nodes ensures Named(nodes[n].outputs, labels', k, t) <==> Named(nodes[n].outputs, labels, k, t) {
        NamedFrame(nodes[n].outputs, labels, labels', k, t);
      }
      if Entry(names, k, t) {
        var n: NodeId :| n in nodes && Named(nodes[n].outputs, labels, k, t);
        assert n in nodes' && Named(nodes'[n].outputs, labels', k, t);
      }
      if Named(b.outputs, labels', k, t) {
        assert id in nodes' && Named(nodes'[id].outputs, labels', k, t);
      }
    }
  }

  lemma DropKeepsNames(nodes: map<NodeId, Node>, id: NodeId, labels: Labels,
                       names: map<Label, TopicId>, after: map<Label, TopicId>)
    requires id in nodes && NamesExact(nodes, labels, names)
    requires forall n <- nodes | n != id :: Disjoint(nodes[n].outputs, nodes[id].outputs)
    requires forall k, t :: Entry(after, k, t) <==> Entry(names, k, t) && t !in nodes[id].outputs
    ensures NamesExact(nodes - {id}, labels, after)
  {
    var nodes' := nodes - {id};
    forall k, t ensures Entry(after, k, t) <==> SomeNamed(nodes', labels, k, t) {
      forall n <- nodes | Named(nodes[n].outputs, labels, k, t) ensures n == id <==> t in nodes[id].outputs {
        NamedIsOutput(nodes[n].outputs, labels, k, t);
      }
      if Entry(after, k, t) {
        var n: NodeId :| n in nodes && Named(nodes[n].outputs, labels, k, t);
        assert n in nodes' && Named(nodes'[n].outputs, labels, k, t);
      }
    }
  }

  /** No topic is registered twice. */
  lemma EntriesDistinct(nodes: map<NodeId, Node>, labels: Labels, names: map<Label, TopicId>)
    requires NamesExact(nodes, labels, names)
    ensures forall k, l | k in names && l in names && names[k] == names[l] :: k == l
  {
    forall k | k in names ensures names[k] in labels && labels[names[k]] == k {
      assert Entry(names, k, names[k]);
      var n: NodeId :| n in nodes && Named(nodes[n].outputs, labels, k, names[k]);
      NamedIsOutput(nodes[n].outputs, labels, k, names[k]);
    }
  }
}
