/** Creating a source topic beside a derived engine that is in use. */
module SourceTopics {
  import opened Folding
  import opened Samples
  import opened World
  import opened Runs
  import opened TopicStorages
  import opened DataEngines
  import opened OutputNames
  import opened DerivedEngines

  lemma NewTopicKeepsGraph(w: World, w': World)
    requires GraphOk(w) && w' == w.(store := w.store[w.nextTopic := []], nextTopic := w.nextTopic + 1)
    ensures GraphOk(w')
  {
    forall n <- w'.nodes ensures n < w'.nextNode && NodeShape(w'.nodes[n]) && TopicsKnown(w'.nodes[n], w'.store) {
      assert TopicsKnown(w.nodes[n], w.store);
    }
  }

  lemma NewTopicKeepsSound(w: World, w': World, impl: Impl, labels: Labels)
    requires Sound(w, impl, labels)
    requires w' == w.(store := w.store[w.nextTopic := []], nextTopic := w.nextTopic + 1)
    ensures Sound(w', impl, labels)
  {
    SoundMeaning(w, impl, labels);
    NewTopicKeepsGraph(w, w');
    SoundMeaning(w', impl, labels);
  }

  /** Topics that were made for outputs stay what they are. */
  method CreateBeside(engine: DataEngine, d: Descriptor, ghost labels: Labels) returns (r: Result<TopicId>)
    requires engine.Valid() && engine.AllNumbered() && engine.AllMade(labels)
    modifies engine`topics, engine`store, engine`nextTopicId
    ensures engine.Valid() && engine.AllNumbered() && engine.AllMade(labels)
    ensures r.Ok? <==> d.datasetId in engine.datasets
    ensures r.Err? ==> engine.store == old(engine.store) && engine.nextTopicId == old(engine.nextTopicId)
    ensures r.Ok? ==>
              && r.value == old(engine.nextTopicId) && engine.nextTopicId == r.value + 1
              && engine.store == old(engine.store)[r.value := []]
  {
    r := engine.CreateTopic(d);
    forall t | t in labels ensures engine.MadeAs(t, labels[t]) {
      assert old(engine.MadeAs(t, labels[t]));
    }
  }

  /** A new source topic: the engine's tables stay exact, and it is the step of the transition system. */
  method CreateSource(derived: DerivedEngine, d: Descriptor) returns (r: Result<TopicId>)
    requires derived.Valid()
    modifies derived.engine`topics, derived.engine`store, derived.engine`nextTopicId
    ensures derived.Valid()
    ensures r.Ok? <==> d.datasetId in derived.engine.datasets
    ensures r.Err? ==> derived.View() == old(derived.View())
    ensures r.Ok? ==> r.value == old(derived.engine.nextTopicId) && Next(old(derived.View()), NewTopic, derived.View())
  {
    ghost var w := derived.View();
    r := CreateBeside(derived.engine, d, derived.labels);
    if r.Ok? {
      NewTopicKeepsSound(w, derived.View(), derived.impl, derived.labels);
    }
  }
}
