/** The derived engine: the node set, its tables, and the calls that change them. */
module DerivedEngines {
  import opened Orders
  import opened Folding
  import opened Samples
  import opened Transforms
  import opened World
  import opened NodeRuns
  import opened Scheduling
  import opened Denotation
  import opened Runs
  import opened TopicStorages
  import opened DataEngines
  import opened DataWriters
  import opened NodeIndexes
  import opened OutputNames
  import opened CycleCheck
  import opened KahnOrder
  import opened UpstreamFilter
  import opened NodeRunner
  import opened EngineSteps
  import opened Recompute

  const DEFAULT_CHUNK_ROWS: nat := 1024
  const DEFAULT_EXPANSION_LIMIT: nat := 64

  /** How many columns an input topic has: the schema decides, else the stored layout, else the first chunk. */
  function InputColumns(storage: TopicStorage): nat
    reads storage`columns, storage`sealedChunks
  {
    if storage.descriptor.schemaColumns != [] then |storage.descriptor.schemaColumns|
    else if storage.columns != [] then |storage.columns|
    else if storage.sealedChunks != [] then |storage.sealedChunks[0].columns|
    else 0
  }

  function OutputDescriptor(dataset: nat, name: string, kind: nat): Descriptor {
    Descriptor(dataset, name, DEFAULT_CHUNK_ROWS, DEFAULT_EXPANSION_LIMIT, [Column(0, "value", kind)])
  }

  /** All lookup tables say exactly what the node set implies. */
  ghost predicate TablesExact(nodes: map<NodeId, Node>, edges: Edges, readers: Readers, producers: Producers) {
    EdgesExact(nodes, edges) && ReadersExact(nodes, readers) && ProducersExact(nodes, producers)
  }

  lemma RegisterKeepsTables(w: World, a: Action, w': World,
                            edges: Edges, readers: Readers, producers: Producers,
                            edges': Edges, readers': Readers, producers': Producers)
    requires a.AddNode? && GraphOk(w) && Registers(w, a, w')
    requires TablesExact(w.nodes, edges, readers, producers)
    requires var b := w'.nodes[w.nextNode];
             && (forall t, n :: Reads(readers', t, n) <==> Reads(readers, t, n) || (n == w.nextNode && t in b.inputs))
             && (forall t, n :: Writes(producers', t, n) <==>
                   if t in b.outputs then n == w.nextNode else Writes(producers, t, n))
             && (forall m <- edges' :: Distinct(edges'[m]))
             && (forall m, n :: Edge(edges', m, n) <==>
                   Edge(edges, m, n) || (n == w.nextNode && exists t <- b.inputs :: Writes(producers', t, m)))
    ensures TablesExact(w'.nodes, edges', readers', producers')
  {
    var b := w'.nodes[w.nextNode];
    assert w'.nodes == w.nodes[w.nextNode := b] && w.nextNode !in w.nodes;
    forall t <- b.outputs ensures t !in w.store {
      assert t >= w.nextTopic;
    }
    forall n <- w.nodes ensures !Feeds(b, w.nodes[n]) {
      assert TopicsKnown(w.nodes[n], w.store);
    }
    AddKeepsEdges(w.nodes, w.nextNode, b, edges, edges', producers, producers');
    RegisterKeepsProducers(w, b, producers, producers');
  }

  lemma RegisterKeepsProducers(w: World, b: Node, producers: Producers, producers': Producers)
    requires GraphOk(w) && w.nextNode !in w.nodes && ProducersExact(w.nodes, producers)
    requires forall t <- b.outputs :: t !in w.store
    requires forall t, n :: Writes(producers', t, n) <==> if t in b.outputs then n == w.nextNode
               else Writes(producers, t, n)
    ensures ProducersExact(w.nodes[w.nextNode := b], producers')
  {
    var nodes := w.nodes[w.nextNode := b];
    forall t, n ensures Writes(producers', t, n) <==> n in nodes && t in nodes[n].outputs {
      if n in w.nodes {
        assert TopicsKnown(w.nodes[n], w.store);
      }
    }
  }

  // ---------------------------------------------------------------- output topics

  /**
   * The store has gained `k` empty topics numbered from `first`; kept folded (see Folding), unfolded by naming them.
   */
  ghost predicate GrownBy(store: Store, first: TopicId, k: nat, now: Store) {
    forall m: nat {:trigger EmptyTopics(first, m)} | m == k :: now == store + EmptyTopics(first, m)
  }

  lemma UpdateLast(a: Store, b: Store, t: TopicId)
    ensures (a + b)[t := []] == a + b[t := []]
  {
  }

  lemma GrownNext(store: Store, first: TopicId, k: nat, now: Store, next: Store, t: TopicId)
    requires GrownBy(store, first, k, now) && t == first + k && next == now[t := []]
    ensures GrownBy(store, first, k + 1, next)
  {
    var before := EmptyTopics(first, k);
    assert now == store + before;
    OneMoreTopic(first, k);
    UpdateLast(store, before, t);
  }

  lemma OneMoreTopic(first: TopicId, k: nat)
    ensures EmptyTopics(first, k + 1) == EmptyTopics(first, k)[first + k := []]
  {
  }

  /** The outputs carry the given names; earlier labels are kept. */
  ghost predicate LabelsGrow(labels: Labels, labels': Labels, outputs: seq<TopicId>, dataset: nat, texts: seq<string>) {
    && |outputs| <= |texts|
    && (forall t <- labels :: t in labels' && labels'[t] == labels[t])
    && (forall i | 0 <= i < |outputs| :: outputs[i] in labels' && labels'[outputs[i]] == (dataset, texts[i]))
  }

  /** Creates one fresh single-column topic per output; fails exactly when the dataset is unknown. */
  method CreateOutputs(engine: DataEngine, dataset: nat, texts: seq<string>, kinds: seq<nat>, ghost known: Labels)
      returns (r: Result<seq<TopicId>>, ghost labels: Labels)
    requires engine.Valid() && engine.AllNumbered() && engine.AllMade(known) && texts != [] && |kinds| == |texts|
    modifies engine`topics, engine`store, engine`nextTopicId
    ensures engine.Valid() && engine.AllNumbered() && engine.AllMade(labels)
    ensures r.Ok? <==> dataset in engine.datasets
    ensures r.Err? ==>
              engine.store == old(engine.store) && engine.nextTopicId == old(engine.nextTopicId) && labels == known
    ensures r.Ok? ==>
              && r.value == FreshTopics(old(engine.nextTopicId), |texts|)
              && GrownBy(old(engine.store), old(engine.nextTopicId), |texts|, engine.store)
              && engine.nextTopicId == old(engine.nextTopicId) + |texts|
              && LabelsGrow(known, labels, r.value, dataset, texts)
  {
    ghost var first, store := engine.nextTopicId, engine.store;
    var outputs: seq<TopicId> := [];
    labels := known;
    for k := 0 to |texts|
      invariant engine.Valid() && engine.AllNumbered() && engine.AllMade(labels)
      invariant k > 0 ==> dataset in engine.datasets
      invariant k == 0 ==> engine.store == store && labels == known
      invariant |outputs| == k && engine.nextTopicId == first + k
      invariant forall i | 0 <= i < k :: outputs[i] == first + i
      invariant GrownBy(store, first, k, engine.store)
      invariant LabelsGrow(known, labels, outputs, dataset, texts)
    {
      ghost var before, named := engine.store, labels;
      var created;
      created, labels := CreateOutput(engine, dataset, texts[k], kinds[k], named);
      if created.Err? {
        return Err(created.message), labels;
      }
      GrownNext(store, first, k, before, engine.store, created.value);
      LabelsGrowNext(known, named, labels, outputs, created.value, dataset, texts);
      outputs := outputs + [created.value];
    }
    assert outputs == FreshTopics(first, |texts|);
    return Ok(outputs), labels;
  }

  lemma LabelsGrowNext(known: Labels, named: Labels, labels: Labels, outputs: seq<TopicId>, t: TopicId,
                       dataset: nat, texts: seq<string>)
    requires LabelsGrow(known, named, outputs, dataset, texts) && |outputs| < |texts| && t !in named
    requires labels == named[t := (dataset, texts[|outputs|])]
    ensures LabelsGrow(known, labels, outputs + [t], dataset, texts)
  {
    forall u <- known ensures u in labels && labels[u] == known[u] {
      assert u in named;
    }
    var longer := outputs + [t];
    forall i | 0 <= i < |longer| ensures longer[i] in labels && labels[longer[i]] == (dataset, texts[i]) {
      if i < |outputs| {
        assert longer[i] == outputs[i];
        assert outputs[i] in named && named[outputs[i]] == (dataset, texts[i]);
      }
    }
  }

  method CreateOutput(engine: DataEngine, dataset: nat, text: string, kind: nat, ghost known: Labels)
      returns (r: Result<TopicId>, ghost labels: Labels)
    requires engine.Valid() && engine.AllMade(known)
    modifies engine`topics, engine`store, engine`nextTopicId
    ensures engine.Valid() && engine.AllMade(labels) && (old(engine.AllNumbered()) ==> engine.AllNumbered())
    ensures r.Ok? <==> dataset in engine.datasets
    ensures r.Err? ==>
              engine.store == old(engine.store) && engine.nextTopicId == old(engine.nextTopicId) && labels == known
    ensures r.Ok? ==>
              && r.value == old(engine.nextTopicId) && engine.nextTopicId == r.value + 1
              && engine.store == old(engine.store)[r.value := []]
              && r.value !in known && labels == known[r.value := (dataset, text)]
  {
    ghost var next := engine.nextTopicId;
    assert next in known ==> engine.MadeAs(next, known[next]);
    r := engine.CreateTopic(OutputDescriptor(dataset, text, kind));
    labels := if r.Ok? then known[r.value := (dataset, text)] else known;
    forall t | t in labels ensures engine.MadeAs(t, labels[t]) {
      assert t in known ==> old(engine.MadeAs(t, known[t]));
    }
  }

  /** What all input topics of a new node must satisfy. */
  ghost predicate InputsFit(engine: DataEngine, inputs: seq<TopicId>)
    reads engine`topics, engine.topics.Values`columns, engine.topics.Values`sealedChunks
  {
    forall t <- inputs :: t in engine.topics && InputColumns(engine.topics[t]) == 1
  }

  method CheckInputs(engine: DataEngine, inputs: seq<TopicId>) returns (ok: bool)
    ensures ok <==> InputsFit(engine, inputs)
  {
    for i := 0 to |inputs|
      invariant forall j | 0 <= j < i :: inputs[j] in engine.topics && InputColumns(engine.topics[inputs[j]]) == 1
    {
      if inputs[i] !in engine.topics || InputColumns(engine.topics[inputs[i]]) != 1 {
        return false;
      }
    }
    return true;
  }

  ghost predicate NamesFree(names: map<Label, TopicId>, dataset: nat, texts: seq<string>) {
    forall i | 0 <= i < |texts| :: (dataset, texts[i]) !in names
  }

  method CheckNames(names: map<Label, TopicId>, dataset: nat, texts: seq<string>) returns (ok: bool)
    ensures ok <==> NamesFree(names, dataset, texts)
  {
    for i := 0 to |texts|
      invariant forall j | 0 <= j < i :: (dataset, texts[j]) !in names
    {
      if (dataset, texts[i]) in names {
        return false;
      }
    }
    return true;
  }

  /** The node set and the tables kept beside it. */
  datatype Impl = Impl(nodes: map<NodeId, Node>, edges: Edges, readers: Readers, producers: Producers,
                       names: map<Label, TopicId>)

  const NoNodes := Impl(map[], map[], map[], map[], map[])

  /** Every output of the node has a label. */
  ghost predicate Labelled(n: Node, labels: Labels) {
    forall t <- n.outputs :: t in labels
  }

  /** All lookup tables say exactly what the node set implies. */
  ghost predicate ImplExact(impl: Impl, labels: Labels) {
    && TablesExact(impl.nodes, impl.edges, impl.readers, impl.producers)
    && NamesExact(impl.nodes, labels, impl.names)
    && (forall n {:trigger Labelled(impl.nodes[n], labels)} | n in impl.nodes :: Labelled(impl.nodes[n], labels))
  }

  /** The tables match the nodes of `w`, and its graph is well formed; kept folded (see Folding). */
  ghost predicate Sound(w: World, impl: Impl, labels: Labels) {
    forall u {:trigger Unfold(u)} | u == w :: GraphOk(u) && impl.nodes == u.nodes && ImplExact(impl, labels)
  }

  lemma SoundMeaning(w: World, impl: Impl, labels: Labels)
    ensures Sound(w, impl, labels) <==> GraphOk(w) && impl.nodes == w.nodes && ImplExact(impl, labels)
  {
    assert Unfold(w);
  }

  /** Node `n` is what an add call registers. */
  ghost predicate RegistersNode(w: World, n: Node, w': World) {
    Registers(w, AddNode(n.joined, n.inputs, |n.outputs|, n.op), w') && w'.nodes == w.nodes[w.nextNode := n]
  }

  /** Enters a node whose output topics have just been created into the node set and all tables. */
  method Register(impl: Impl, n: Node, id: NodeId, dataset: nat, texts: seq<string>,
                  ghost w: World, ghost w': World, ghost labels: Labels, ghost labels': Labels) returns (impl': Impl)
    requires Sound(w, impl, labels) && id == w.nextNode && RegistersNode(w, n, w')
    requires NamesFree(impl.names, dataset, texts)
    requires |texts| == |n.outputs| && LabelsGrow(labels, labels', n.outputs, dataset, texts)
    ensures impl'.nodes == w'.nodes && Sound(w', impl', labels')
  {
    SoundMeaning(w, impl, labels);
    ghost var a := AddNode(n.joined, n.inputs, |n.outputs|, n.op);
    var readers := AddReader(impl.readers, n.inputs, id);
    var producers := AddProducer(impl.producers, n.outputs, id);
    var edges := AddEdges(impl.edges, producers, n.inputs, id);
    var names := AddNames(impl.names, dataset, texts, n.outputs, labels');
    RegisterKeepsTables(w, a, w', impl.edges, impl.readers, impl.producers, edges, readers, producers);
    RegisterKeepsNames(impl.nodes, id, n, labels, labels', impl.names, names);
    AddKeepsGraph(w, a, w');
    impl' := Impl(impl.nodes[id := n], edges, readers, producers, names);
    SoundMeaning(w', impl', labels');
  }

  lemma StoredBelow(store: Store, nextTopic: TopicId)
    requires StoreOrdered(store, nextTopic)
    ensures forall t <- store :: t < nextTopic
  {
    forall t <- store ensures t < nextTopic {
      assert OrderedTopic(store[t], t, nextTopic);
    }
  }

  lemma RegisterKeepsNames(nodes: map<NodeId, Node>, id: NodeId, n: Node, labels: Labels, labels': Labels,
                           names: map<Label, TopicId>, names': map<Label, TopicId>)
    requires id !in nodes && NamesExact(nodes, labels, names)
    requires forall m {:trigger Labelled(nodes[m], labels)} | m in nodes :: Labelled(nodes[m], labels)
    requires (forall t <- labels :: t in labels' && labels'[t] == labels[t]) && Labelled(n, labels')
    requires forall k, t :: Entry(names', k, t) <==> Entry(names, k, t) || Named(n.outputs, labels', k, t)
    ensures NamesExact(nodes[id := n], labels', names')
    ensures forall m {:trigger Labelled(nodes[id := n][m], labels')} | m in nodes[id := n] ::
              Labelled(nodes[id := n][m], labels')
  {
    forall m <- nodes ensures Labelled(nodes[m], labels') {
      assert Labelled(nodes[m], labels);
    }
    forall m <- nodes, t <- nodes[m].outputs ensures t in labels && t in labels' && labels'[t] == labels[t] {
      assert Labelled(nodes[m], labels);
    }
    AddKeepsNames(nodes, id, n, labels, labels', names, names');
  }

  /** Creating the topics and entering the node together are one add step. */
  lemma InstallRegisters(w: World, n: Node, store: Store, nextTopic: TopicId)
    requires n.inputs != [] && n.outputs != [] && (!n.joined ==> |n.inputs| == 1 && |n.outputs| == 1)
    requires forall t <- n.inputs :: t in w.store
    requires n == FreshNode(n.joined, n.inputs, w.nextTopic, |n.outputs|, n.op)
    requires GrownBy(w.store, w.nextTopic, |n.outputs|, store) && nextTopic == w.nextTopic + |n.outputs|
    ensures RegistersNode(w, n, World(w.nodes[w.nextNode := n], store, w.nextNode + 1, nextTopic))
  {
    assert store == w.store + EmptyTopics(w.nextTopic, |n.outputs|);
  }

  class DerivedEngine {
    const engine: DataEngine
    var impl: Impl
    var nextNodeId: NodeId
    /** The dataset and name every output topic was created under. */
    ghost var labels: Labels

    ghost function View(): World
      reads this`impl, this`nextNodeId, engine`store, engine`nextTopicId
    {
      World(impl.nodes, engine.store, nextNodeId, engine.nextTopicId)
    }

    ghost predicate Valid()
      reads this, engine`topics, engine`store, engine`nextTopicId, engine`nextChunkId,
            engine.topics.Values`sealedChunks, engine.topics.Values`columns
    {
      engine.Valid() && engine.AllNumbered() && engine.AllMade(labels) && Sound(View(), impl, labels)
    }

    constructor (engine: DataEngine)
      requires engine.Valid() && engine.AllNumbered()
      ensures Valid() && this.engine == engine && impl == NoNodes && nextNodeId == 1
    {
      this.engine := engine;
      impl, nextNodeId, labels := NoNodes, 1, map[];
      StoredBelow(engine.store, engine.nextTopicId);
      new;
      SoundMeaning(View(), impl, labels);
    }

    /** Creates the output topics and registers the node; fails exactly when the dataset is unknown. */
    method Install(joined: bool, inputs: seq<TopicId>, dataset: nat, texts: seq<string>, kinds: seq<nat>, op: Transform)
        returns (r: Result<NodeId>)
      requires Valid() && texts != [] && |kinds| == |texts| && NamesFree(impl.names, dataset, texts)
      requires inputs != [] && (!joined ==> |inputs| == 1 && |texts| == 1) && forall t <- inputs :: t in engine.topics
      modifies this, engine`topics, engine`store, engine`nextTopicId
      ensures Valid()
      ensures r.Ok? <==> dataset in engine.datasets
      ensures r.Err? ==> View() == old(View()) && impl == old(impl)
      ensures r.Ok? ==> r.value == old(nextNodeId)
                        && Registers(old(View()), AddNode(joined, inputs, |texts|, op), View())
    {
      var prepared;
      ghost var named;
      prepared, named := Prepare(joined, inputs, dataset, texts, kinds, op);
      if prepared.Err? {
        return Err(prepared.message);
      }
      Enter(prepared.value, named);
      return Ok(nextNodeId - 1);
    }

    /** Makes prepared tables the current ones, under the next id. */
    method Enter(entered: Impl, ghost named: Labels)
      requires engine.Valid() && engine.AllNumbered() && engine.AllMade(named)
      requires Sound(World(entered.nodes, engine.store, nextNodeId + 1, engine.nextTopicId), entered, named)
      modifies this
      ensures Valid() && impl == entered && nextNodeId == old(nextNodeId) + 1
    {
      impl, nextNodeId, labels := entered, nextNodeId + 1, named;
    }

    /** Creates the output topics and computes the tables that hold the new node. */
    method Prepare(joined: bool, inputs: seq<TopicId>, dataset: nat, texts: seq<string>, kinds: seq<nat>, op: Transform)
        returns (r: Result<Impl>, ghost named: Labels)
      requires Valid() && texts != [] && |kinds| == |texts| && NamesFree(impl.names, dataset, texts)
      requires inputs != [] && (!joined ==> |inputs| == 1 && |texts| == 1) && forall t <- inputs :: t in engine.topics
      modifies engine`topics, engine`store, engine`nextTopicId
      ensures engine.Valid() && engine.AllNumbered() && engine.AllMade(named)
      ensures r.Ok? <==> dataset in engine.datasets
      ensures r.Err? ==> View() == old(View()) && named == labels
      ensures r.Ok? ==>
                var w' := World(r.value.nodes, engine.store, nextNodeId + 1, engine.nextTopicId);
                Sound(w', r.value, named) && Registers(old(View()), AddNode(joined, inputs, |texts|, op), w')
    {
      ghost var w := View();
      var created;
      created, named := CreateOutputs(engine, dataset, texts, kinds, labels);
      if created.Err? {
        return Err(created.message), named;
      }
      var n := Node(joined, inputs, created.value, op, true, 0, MIN_TIMESTAMP, op.init);
      ghost var w' := World(w.nodes[w.nextNode := n], engine.store, w.nextNode + 1, engine.nextTopicId);
      InstallRegisters(w, n, engine.store, engine.nextTopicId);
      var entered := Register(impl, n, nextNodeId, dataset, texts, w, w', labels, named);
      return Ok(entered), named;
    }

    /** What every add call checks before it creates anything. */
    ghost predicate Admissible(inputs: seq<TopicId>, texts: seq<string>, dataset: nat, kinds: seq<nat>)
      reads this, engine`topics, engine.topics.Values`columns, engine.topics.Values`sealedChunks
    {
      && inputs != [] && texts != [] && |kinds| == |texts|
      && InputsFit(engine, inputs) && NamesFree(impl.names, dataset, texts)
    }

    method CheckAdd(inputs: seq<TopicId>, texts: seq<string>, dataset: nat, kinds: seq<nat>)
        returns (refusal: Option<string>)
      ensures refusal.None? <==> Admissible(inputs, texts, dataset, kinds)
    {
      if inputs == [] || texts == [] {
        return Some("needs at least one input and one output");
      }
      var fit := CheckInputs(engine, inputs);
      if !fit {
        return Some("an input topic is missing or not single-column");
      }
      var free := CheckNames(impl.names, dataset, texts);
      if !free {
        return Some("an output topic is already registered");
      }
      var cycle := CheckCycle(impl.nodes, impl.producers, inputs, []);
      if cycle {
        return Some("cycle detected");
      }
      if |kinds| != |texts| {
        return Some("wrong number of output kinds");
      }
      return None;
    }

    /** Adds a single-input transform. */
    method AddSiso(input: TopicId, text: string, dataset: nat, kind: nat, op: Transform) returns (r: Result<NodeId>)
      requires Valid()
      modifies this, engine`topics, engine`store, engine`nextTopicId
      ensures Valid()
      ensures r.Ok? <==> old(Admissible([input], [text], dataset, [kind])) && dataset in engine.datasets
      ensures r.Err? ==> View() == old(View()) && impl == old(impl)
      ensures r.Ok? ==> r.value == old(nextNodeId) && Registers(old(View()), AddNode(false, [input], 1, op), View())
    {
      var refusal := CheckAdd([input], [text], dataset, [kind]);
      if refusal.Some? {
        return Err(refusal.value);
      }
      r := Install(false, [input], dataset, [text], [kind], op);
    }

    /** Adds a multi-input transform; `kinds` are the output kinds the operator announces. */
    method AddMimo(inputs: seq<TopicId>, texts: seq<string>, dataset: nat, kinds: seq<nat>, op: Transform)
        returns (r: Result<NodeId>)
      requires Valid()
      modifies this, engine`topics, engine`store, engine`nextTopicId
      ensures Valid()
      ensures r.Ok? <==> old(Admissible(inputs, texts, dataset, kinds)) && dataset in engine.datasets
      ensures r.Err? ==> impl == old(impl) && old(nextNodeId) <= nextNodeId
                         && View() == old(View()).(nextNode := nextNodeId)
      ensures r.Ok? ==> r.value == old(nextNodeId) && Registers(old(View()), AddNode(true, inputs, |texts|, op), View())
    {
      var refusal := CheckAdd(inputs, texts, dataset, kinds);
      if refusal.Some? {
        return Err(refusal.value);
      }
      r := Install(true, inputs, dataset, texts, kinds, op);
      if r.Err? {
        SkipId(View(), impl, labels);
        nextNodeId := nextNodeId + 1;
      }
    }

    /** Removes a node and every trace of it in the tables; its output topics keep their rows. */
    method RemoveNode(id: NodeId) returns (ok: bool)
      requires Valid()
      modifies this`impl
      ensures Valid()
      ensures ok <==> id in old(impl.nodes)
      ensures !ok ==> impl == old(impl)
      ensures ok ==> Removes(old(View()), id, View())
    {
      if id !in impl.nodes {
        return false;
      }
      impl := Unregister(impl, id, View(), labels);
      return true;
    }

    /** Producers before consumers, every node once. */
    method NodeOrder() returns (order: seq<NodeId>)
      requires Valid()
      ensures TopologicalOrder(impl.nodes, order)
    {
      SoundMeaning(View(), impl, labels);
      order := KahnSort(impl.nodes, impl.edges);
    }

    /** Marks exactly the nodes that read a changed topic. */
    method OnSourceCommitted(changed: seq<TopicId>)
      requires Valid()
      modifies this`impl
      ensures Valid()
      ensures Notified(old(impl.nodes), Changed(changed), impl.nodes)
      ensures impl == old(impl).(nodes := impl.nodes)
    {
      SoundMeaning(View(), impl, labels);
      var nodes := Notify(impl.nodes, impl.readers, changed);
      NotifiedSound(View(), impl, labels, Changed(changed), nodes);
      impl := impl.(nodes := nodes);
    }

    /**
     * Clears the outputs of one node, resets it and replays its whole input. Its consumers are not marked dirty,
     * so only the node itself is described.
     */
    method RecomputeBatch(id: NodeId) returns (ok: bool)
      requires Valid()
      modifies this`impl, engine`nextChunkId, engine`store, engine.topics.Values`sealedChunks
      ensures Valid()
      ensures id !in old(impl.nodes) ==> !ok && impl == old(impl) && engine.store == old(engine.store)
      ensures id in old(impl.nodes) ==>
                var n := old(impl.nodes[id]);
                && id in impl.nodes && impl == old(impl).(nodes := old(impl.nodes)[id := impl.nodes[id]])
                    && NodeShape(n)
                && BatchResult(n, old(engine.store), engine.store, ok, impl.nodes[id])
    {
      if id !in impl.nodes {
        return false;
      }
      var n';
      ok, n' := Replay(id);
      impl := impl.(nodes := impl.nodes[id := n']);
    }

    /** The cleared outputs, refilled from the whole input. */
    method Replay(id: NodeId) returns (ok: bool, n': Node)
      requires Valid() && id in impl.nodes
      modifies engine`nextChunkId, engine`store, engine.topics.Values`sealedChunks
      ensures engine.Valid() && engine.AllNumbered() && engine.store.Keys == old(engine.store.Keys)
      ensures NodeShape(impl.nodes[id]) && engine.AllMade(labels)
      ensures Sound(old(View()).(nodes := impl.nodes[id := n'], store := engine.store),
                    impl.(nodes := impl.nodes[id := n']), labels)
      ensures BatchResult(impl.nodes[id], old(engine.store), engine.store, ok, n')
    {
      KnownNode(engine, View(), impl, labels, id);
      ok, n' := ReplayNode(engine, impl.nodes[id]);
      SetNodeSound(old(View()), impl, labels, id, n', engine.store);
    }

    /** Runs everything that is dirty. */
    method ScheduleAll() returns (ok: bool)
      requires Valid()
      modifies this`impl, engine`nextChunkId, engine`store, engine.topics.Values`sealedChunks
      ensures Valid() && Scheduled(old(View()), {}, ok, View())
    {
      ok := ScheduleActive({});
    }

    /** Runs the dirty nodes that the active nodes depend on, producers first; stops at the first failure. */
    method ScheduleActive(active: set<NodeId>) returns (ok: bool)
      requires Valid()
      modifies this`impl, engine`nextChunkId, engine`store, engine.topics.Values`sealedChunks
      ensures Valid() && Scheduled(old(View()), active, ok, View())
    {
      var order := NodeOrder();
      var filter := ActiveFilter(active);
      ghost var ws := [View()];
      StartsPass(active, filter, order, View());
      for i := 0 to |order|
        invariant Valid() && Progress(active, filter, order, ws, i)
        invariant ws[0] == old(View()) && ws[i] == View()
      {
        ok := Visit(active, filter, order[i]);
        ProgressNext(active, filter, order, ws, i, ok, View());
        if !ok {
          return;
        }
        ws := ws + [View()];
      }
      PassIsScheduled(active, filter, order, ws);
      ok := true;
    }

    /** The nodes that the active ones depend on. */
    method ActiveFilter(active: set<NodeId>) returns (filter: set<NodeId>)
      requires Valid()
      ensures UpstreamClosure(impl.nodes, active, filter)
    {
      SoundMeaning(View(), impl, labels);
      filter := Filter(impl.nodes, impl.producers, active);
    }

    /** One stop of the scheduling loop: the node runs if it is chosen and dirty. */
    method Visit(active: set<NodeId>, filter: set<NodeId>, id: NodeId) returns (ok: bool)
      requires Valid() && id in impl.nodes
      modifies this`impl, engine`nextChunkId, engine`store, engine.topics.Values`sealedChunks
      ensures Valid() && Visited(old(View()), id, Chosen(active, filter, id), ok, View())
    {
      SoundMeaning(View(), impl, labels);
      if active != {} && id !in filter {
        return true;
      }
      if !impl.nodes[id].dirty {
        return true;
      }
      ghost var w := View();
      ok := RunNode(id);
      assert Unfold(w);
    }

    /** Runs one dirty node incrementally, marks it clean and its consumers dirty; a failed run stays dirty. */
    method RunNode(id: NodeId) returns (ok: bool)
      requires Valid() && id in impl.nodes && impl.nodes[id].dirty
      modifies this`impl, engine`nextChunkId, engine`store, engine.topics.Values`sealedChunks
      ensures Valid() && RanNode(old(View()), id, ok, View())
    {
      ghost var w := View();
      var nodes;
      ok, nodes := RunAndMark(engine, impl, id, w, labels);
      impl := impl.(nodes := nodes);
      assert View() == w.(nodes := nodes, store := engine.store);
    }
  }

  /** `Visited` for a node that runs, kept folded (see Folding). */
  ghost predicate RanNode(w: World, id: NodeId, ok: bool, w': World) {
    forall u {:trigger Unfold(u)} | u == w :: Visited(u, id, true, ok, w')
  }

  /** The run of one dirty node, up to the new node set. */
  method RunAndMark(engine: DataEngine, impl: Impl, id: NodeId, ghost w: World, ghost labels: Labels)
      returns (ok: bool, nodes: map<NodeId, Node>)
    requires engine.Valid() && engine.AllNumbered() && engine.AllMade(labels)
    requires w.store == engine.store && Sound(w, impl, labels) && id in impl.nodes && impl.nodes[id].dirty
    modifies engine`nextChunkId, engine`store, engine.topics.Values`sealedChunks
    ensures engine.Valid() && engine.AllNumbered() && engine.AllMade(labels)
    ensures var w' := w.(nodes := nodes, store := engine.store);
            RanNode(w, id, ok, w') && Sound(w', impl.(nodes := nodes), labels)
  {
    KnownNode(engine, w, impl, labels, id);
    var n';
    ok, n' := RunKnown(engine, impl.nodes[id], labels);
    nodes := Marked(impl, id, ok, n');
    RunIsVisit(w, impl, labels, id, engine.store, ok, n', nodes);
  }

  lemma RunIsVisit(w: World, impl: Impl, labels: Labels, id: NodeId, store: Store, ok: bool, n': Node,
                   nodes: map<NodeId, Node>)
    requires Sound(w, impl, labels) && GraphOk(w) && w.nodes == impl.nodes
    requires id in w.nodes && w.nodes[id].dirty && w.nodes[id].inputs != []
    requires RanSomehow(w.nodes[id], w.store, store, ok, n')
    requires if ok then AfterRun(w.nodes, id, n', nodes) else nodes == w.nodes[id := n']
    ensures var w' := w.(nodes := nodes, store := store);
            RanNode(w, id, ok, w') && Sound(w', impl.(nodes := nodes), labels)
  {
    FinishedVisit(w, id, store, ok, n', nodes);
    SameGraphSound(w, impl, labels, nodes, store);
  }

  /** One run of a node; topics stay what they were made as. */
  method RunKnown(engine: DataEngine, n: Node, ghost labels: Labels) returns (ok: bool, n': Node)
    requires NodeKnown(engine, n) && engine.AllNumbered() && engine.AllMade(labels)
    modifies engine`nextChunkId, engine`store, engine.topics.Values`sealedChunks
    ensures engine.Valid() && engine.AllNumbered() && engine.AllMade(labels)
    ensures RanSomehow(n, old(engine.store), engine.store, ok, n')
  {
    ok, n' := RunIncremental(engine, n);
  }

  /** A scheduling call: it always keeps the graph and only grows topics; and it is one schedule step. */
  ghost predicate Scheduled(w: World, active: set<NodeId>, ok: bool, w': World) {
    && SameFrame(w, w')
    && (Inv(w) && StrictInputs(w'.nodes, w'.store) ==> ok && Schedules(w, active, w') && Inv(w'))
  }

  lemma PassIsScheduled(active: set<NodeId>, filter: set<NodeId>, order: seq<NodeId>, ws: seq<World>)
    requires Progress(active, filter, order, ws, |order|)
    requires UpstreamClosure(ws[0].nodes, active, filter) && TopologicalOrder(ws[0].nodes, order)
    ensures Scheduled(ws[0], active, true, ws[|order|])
  {
    if Inv(ws[0]) && StrictInputs(ws[|order|].nodes, ws[|order|].store) {
      PassSchedules(active, filter, order, ws);
    }
  }

  lemma StartsPass(active: set<NodeId>, filter: set<NodeId>, order: seq<NodeId>, w: World)
    ensures Progress(active, filter, order, [w], 0)
  {
  }

  method Marked(impl: Impl, id: NodeId, ok: bool, n': Node) returns (nodes: map<NodeId, Node>)
    requires EdgesExact(impl.nodes, impl.edges) && id in impl.nodes && !Feeds(impl.nodes[id], impl.nodes[id])
    ensures if ok then AfterRun(impl.nodes, id, n', nodes) else nodes == impl.nodes[id := n']
  {
    if ok {
      nodes := FinishRun(impl.nodes, impl.edges, id, n');
    } else {
      nodes := impl.nodes[id := n'];
    }
  }

  /** What a run may rely on. */
  lemma KnownNode(engine: DataEngine, w: World, impl: Impl, labels: Labels, id: NodeId)
    requires engine.Valid() && engine.AllMade(labels)
    requires w.store == engine.store && Sound(w, impl, labels) && id in impl.nodes
    ensures NodeKnown(engine, impl.nodes[id]) && GraphOk(w) && w.nodes == impl.nodes
    ensures TopicsKnown(impl.nodes[id], engine.store)
    ensures EdgesExact(impl.nodes, impl.edges) && !Feeds(impl.nodes[id], impl.nodes[id])
  {
    SoundMeaning(w, impl, labels);
    var n := impl.nodes[id];
    assert NodeShape(n) && TopicsKnown(n, w.store) && Labelled(n, labels);
    forall t <- n.outputs ensures t in engine.topics && OneColumn(engine.topics[t]) {
      assert engine.MadeAs(t, labels[t]);
    }
  }

  /** A node id can be skipped. */
  lemma SkipId(w: World, impl: Impl, labels: Labels)
    requires Sound(w, impl, labels)
    ensures Sound(w.(nextNode := w.nextNode + 1), impl, labels)
  {
    SoundMeaning(w, impl, labels);
    SoundMeaning(w.(nextNode := w.nextNode + 1), impl, labels);
  }

  // ---------------------------------------------------------------- removing a node

  method Unregister(impl: Impl, id: NodeId, ghost w: World, ghost labels: Labels) returns (impl': Impl)
    requires Sound(w, impl, labels) && id in impl.nodes
    ensures Sound(w.(nodes := w.nodes - {id}), impl', labels) && impl'.nodes == impl.nodes - {id}
  {
    SoundMeaning(w, impl, labels);
    var n := impl.nodes[id];
    var readers := DropReader(impl.readers, n.inputs, id);
    var producers := DropProducer(impl.producers, n.outputs);
    EntriesDistinct(impl.nodes, labels, impl.names);
    var names := DropNames(impl.names, n.outputs);
    var edges := DropEdges(impl.edges, id);
    DropKeepsEdges(impl.nodes, id, impl.edges, edges);
    OutputsApart(w, id);
    DropKeepsNames(impl.nodes, id, labels, impl.names, names);
    RemoveKeepsGraph(w, id, w.(nodes := w.nodes - {id}));
    impl' := Impl(impl.nodes - {id}, edges, readers, producers, names);
    DropKeepsTables(impl, id, readers, producers);
    SoundMeaning(w.(nodes := w.nodes - {id}), impl', labels);
  }

  lemma OutputsApart(w: World, id: NodeId)
    requires GraphOk(w) && id in w.nodes
    ensures forall n <- w.nodes | n != id :: Disjoint(w.nodes[n].outputs, w.nodes[id].outputs)
  {
  }

  lemma DropKeepsTables(impl: Impl, id: NodeId, readers: Readers, producers: Producers)
    requires id in impl.nodes && ReadersExact(impl.nodes, impl.readers) && ProducersExact(impl.nodes, impl.producers)
    requires forall t, n :: Reads(readers, t, n)
               <==> Reads(impl.readers, t, n) && !(n == id && t in impl.nodes[id].inputs)
    requires forall t, n :: Writes(producers, t, n) <==> Writes(impl.producers, t, n) && t !in impl.nodes[id].outputs
    requires forall n <- impl.nodes | n != id :: Disjoint(impl.nodes[n].outputs, impl.nodes[id].outputs)
    ensures ReadersExact(impl.nodes - {id}, readers) && ProducersExact(impl.nodes - {id}, producers)
  {
    forall t, n ensures Writes(producers, t, n) <==> n in impl.nodes - {id} && t in (impl.nodes - {id})[n].outputs {
      assert Writes(impl.producers, t, n) <==> n in impl.nodes && t in impl.nodes[n].outputs;
    }
  }

  // ---------------------------------------------------------------- steps that keep the graph

  lemma SameGraphTables(impl: Impl, nodes: map<NodeId, Node>, labels: Labels)
    requires ImplExact(impl, labels) && SameGraph(impl.nodes, nodes)
    ensures ImplExact(impl.(nodes := nodes), labels)
  {
    var before := impl.nodes;
    forall m, n ensures Edge(impl.edges, m, n) <==> m in nodes && n in nodes && Feeds(nodes[m], nodes[n]) {
      assert Edge(impl.edges, m, n) <==> m in before && n in before && Feeds(before[m], before[n]);
      assert m in before ==> SameShape(before[m], nodes[m]);
      assert n in before ==> SameShape(before[n], nodes[n]);
    }
    SameGraphNames(before, nodes, labels, impl.names);
    forall n <- nodes ensures Labelled(nodes[n], labels) {
      assert SameShape(before[n], nodes[n]) && Labelled(before[n], labels);
    }
  }

  lemma SameGraphNames(before: map<NodeId, Node>, nodes: map<NodeId, Node>, labels: Labels, names: map<Label, TopicId>)
    requires NamesExact(before, labels, names) && SameGraph(before, nodes)
    ensures NamesExact(nodes, labels, names)
  {
    forall k, t ensures Entry(names, k, t) <==> SomeNamed(nodes, labels, k, t) {
      forall n <- before ensures Named(before[n].outputs, labels, k, t) <==> Named(nodes[n].outputs, labels, k, t) {
        assert SameShape(before[n], nodes[n]);
      }
      assert Entry(names, k, t) <==> SomeNamed(before, labels, k, t);
    }
  }

  lemma SameGraphSound(w: World, impl: Impl, labels: Labels, nodes: map<NodeId, Node>, store: Store)
    requires Sound(w, impl, labels) && SameFrame(w, w.(nodes := nodes, store := store))
    ensures Sound(w.(nodes := nodes, store := store), impl.(nodes := nodes), labels)
  {
    SoundMeaning(w, impl, labels);
    SameGraphOk(w, w.(nodes := nodes, store := store));
    SameGraphTables(impl, nodes, labels);
    SoundMeaning(w.(nodes := nodes, store := store), impl.(nodes := nodes), labels);
  }

  /** Replacing one node by one of the same shape, over the same topics. */
  lemma SetNodeSound(w: World, impl: Impl, labels: Labels, id: NodeId, n': Node, store: Store)
    requires Sound(w, impl, labels) && id in impl.nodes && SameShape(impl.nodes[id], n') && store.Keys == w.store.Keys
    ensures Sound(w.(nodes := impl.nodes[id := n'], store := store), impl.(nodes := impl.nodes[id := n']), labels)
  {
    SoundMeaning(w, impl, labels);
    var w', impl' := w.(nodes := impl.nodes[id := n'], store := store), impl.(nodes := impl.nodes[id := n']);
    SameGraphOk(w, w');
    SameGraphTables(impl, impl'.nodes, labels);
    SoundMeaning(w', impl', labels);
  }

  lemma NotifiedSound(w: World, impl: Impl, labels: Labels, changed: set<TopicId>, nodes: map<NodeId, Node>)
    requires Sound(w, impl, labels) && Notified(impl.nodes, changed, nodes)
    ensures Sound(w.(nodes := nodes), impl.(nodes := nodes), labels) && SameGraph(impl.nodes, nodes)
  {
    SoundMeaning(w, impl, labels);
    forall n <- impl.nodes ensures SameShape(impl.nodes[n], nodes[n]) {
    }
    SameGraphSound(w, impl, labels, nodes, w.store);
  }
}
