/** The numbers of the chunks that a writer hands over in a whole run. */
module WriterNumbers {
  import opened Samples
  import opened DataEngines
  import opened WriterStates
  import opened BulkAppend
  import opened Flushes
  import opened DataWriters
  import opened WriterRuns

  /** All chunks handed over for a topic, in order. */
  function HandedChunks(calls: seq<Made>, t: TopicId): seq<Chunk> {
    if calls == [] then [] else HandedChunks(calls[..|calls| - 1], t) + ChunksFor(calls[|calls| - 1].given, t)
  }

  /** Numbers go up along `chunks` and are below the counter. */
  ghost predicate RiseBelow(chunks: seq<Chunk>, counter: nat) {
    Rising(chunks) && IdsBelow(chunks, counter)
  }

  /** Numbers go up along what was handed over and what is pending. */
  ghost predicate NumbersRise(handed: seq<Chunk>, h: Held, t: TopicId) {
    0 < h.counter && RiseBelow(handed + PendingOf(h, t), h.counter)
  }

  lemma MoreNumbers(chunks: seq<Chunk>, added: seq<Chunk>, counter: nat, counter': nat)
    requires RiseBelow(chunks, counter) && Rising(added) && 0 < counter <= counter'
    requires forall i | 0 <= i < |added| :: counter <= added[i].id < counter'
    ensures RiseBelow(chunks + added, counter')
  {
    if chunks != [] {
      assert LastId(chunks) < counter;
    }
    assert added != [] ==> LastId(chunks) < added[0].id;
    RisingConcat(chunks, added);
    RisingMeaning(chunks + added);
  }

  /** A builder that is sealed gets the next number. */
  lemma ShutNumbers(handed: seq<Chunk>, h: Held, u: TopicId, t: TopicId)
    requires NumbersRise(handed, h, t) && u in h.builders
    ensures NumbersRise(handed, Shut(h, u), t)
  {
    if u == t {
      var c := NewChunk(h, t);
      RisingMeaning([c]);
      MoreNumbers(handed + PendingOf(h, t), [c], h.counter, h.counter + 1);
      Assoc(handed, PendingOf(h, t), [c]);
    } else {
      assert PendingOf(Shut(h, u), t) == PendingOf(h, t);
    }
  }

  lemma PutNumbers(handed: seq<Chunk>, h: Held, u: TopicId, columns: seq<Column>, max: nat, p: Put, t: TopicId)
    requires NumbersRise(handed, h, t)
    ensures NumbersRise(handed, PutRow(h, u, columns, max, p), t)
  {
    var began := Began(Opened(h, u, columns, max), u, p.ts);
    WithCellsSets(began, u, p.cells);
    var done := Completed(WithCells(began, u, p.cells), u);
    assert done.pending == h.pending && done.counter == h.counter;
    if ShutIfFull(done, u) != done {
      ShutNumbers(handed, done, u, t);
    }
  }

  lemma {:induction false} PutsNumbers(handed: seq<Chunk>, h: Held, u: TopicId, columns: seq<Column>, max: nat,
                                       puts: seq<Put>, t: TopicId)
    requires NumbersRise(handed, h, t)
    ensures NumbersRise(handed, PutRows(h, u, columns, max, puts), t)
  {
    if puts != [] {
      var front := puts[..|puts| - 1];
      PutsNumbers(handed, h, u, columns, max, front, t);
      PutNumbers(handed, PutRows(h, u, columns, max, front), u, columns, max, puts[|puts| - 1], t);
    }
  }

  /** Handing over pending chunks changes no numbers. */
  lemma FlushNumbers(handed: seq<Chunk>, h: Held, u: TopicId, given: seq<(TopicId, Chunk)>, t: TopicId)
    requires NumbersRise(handed, h, t)
    requires forall w :: ChunksFor(given, w) == if w == u then PendingOf(AllShut(h, u), u) else []
    ensures NumbersRise(handed + ChunksFor(given, t), Taken(AllShut(h, u), u), t)
  {
    var s := AllShut(h, u);
    if s != h {
      ShutNumbers(handed, h, u, t);
    }
    assert ChunksFor(given, t) + PendingOf(Taken(s, u), t) == PendingOf(s, t);
    Assoc(handed, ChunksFor(given, t), PendingOf(Taken(s, u), t));
  }

  lemma FlushAllNumbers(handed: seq<Chunk>, h: Held, h': Held, given: seq<Chunk>, t: TopicId)
    requires NumbersRise(handed, h, t) && Continues(PendingOf(h, t), given, h.counter, h'.counter)
    requires h.counter <= h'.counter && h'.pending == map[]
    ensures NumbersRise(handed + given, h', t)
  {
    var pending := PendingOf(h, t);
    var sealed := given[|pending|..];
    forall i | 0 <= i < |sealed| ensures h.counter <= sealed[i].id < h'.counter {
      assert MadeBetween(sealed[i], h.counter, h'.counter);
    }
    MoreNumbers(handed + pending, sealed, h.counter, h'.counter);
    assert handed + given + [] == handed + pending + sealed;
  }

  lemma LaterNumbers(handed: seq<Chunk>, h: Held, h': Held, t: TopicId)
    requires NumbersRise(handed, h, t) && h' == h.(counter := h'.counter) && h.counter <= h'.counter
    ensures NumbersRise(handed, h', t)
  {
    assert PendingOf(h', t) == PendingOf(h, t);
  }

  lemma LayoutNumbers(handed: seq<Chunk>, h: Held, u: TopicId, t: TopicId)
    requires NumbersRise(handed, h, t)
    ensures NumbersRise(handed, ShutForLayout(h, u), t)
  {
    if u in h.builders && h.builders[u].rows != [] {
      ShutNumbers(handed, h, u, t);
    }
  }

  /** Every call keeps the numbers rising. */
  lemma StepNumbers(v: View, m: Made, v': View, first: nat, handed: seq<Chunk>, t: TopicId)
    requires Stepped(v, m, v', first) && NumbersRise(handed, v.held, t)
    ensures NumbersRise(handed + ChunksFor(m.given, t), v'.held, t)
  {
    if m.call.Flush? {
      FlushNumbers(handed, v.held, m.call.t, m.given, t);
    } else if m.call.FlushAll? {
      assert Continues(PendingOf(v.held, t), ChunksFor(m.given, t), v.held.counter, v'.held.counter);
      FlushAllNumbers(handed, v.held, v'.held, ChunksFor(m.given, t), t);
    } else {
      assert handed + ChunksFor(m.given, t) == handed;
      KeepsNumbers(v, m, v', first, handed, t);
    }
  }

  lemma KeepsNumbers(v: View, m: Made, v': View, first: nat, handed: seq<Chunk>, t: TopicId)
    requires Stepped(v, m, v', first) && NumbersRise(handed, v.held, t) && !m.call.Flush? && !m.call.FlushAll?
    ensures NumbersRise(handed, v'.held, t)
  {
    if m.call.Elsewhere? {
      LaterNumbers(handed, v.held, v'.held, t);
      return;
    }
    var u := m.call.t;
    if m.call.FinishRow? && m.ok {
      if Finished(v.held, u) != Completed(v.held, u) {
        ShutNumbers(handed, Completed(v.held, u), u, t);
      }
    } else if m.call.AppendColumns? && m.ok {
      PutsNumbers(handed, v.held, u, LayoutFor(v, u), v.topics[u].maxRows, BulkPuts(m.call.times, m.call.data), t);
    } else if m.call.EnsureColumn? || m.call.ExpandArray? {
      LayoutNumbers(handed, v.held, u, t);
    }
  }

  /**
   * Over any run the chunks handed over for a topic, and after them those still pending, are numbered upwards: a
   * consumer that remembers the last number it saw misses none of them.
   */
  lemma {:induction false} RunNumbersRise(states: seq<View>, calls: seq<Made>, first: nat, i: nat, t: TopicId)
    requires Run(states, calls, first) && i < |states|
    ensures NumbersRise(HandedChunks(calls[..i], t), states[i].held, t)
  {
    if i == 0 {
      RisingMeaning([]);
      assert HandedChunks(calls[..0], t) + PendingOf(states[0].held, t) == [];
    } else {
      var k := i - 1;
      RunNumbersRise(states, calls, first, k, t);
      StepNumbers(states[k], calls[k], states[i], first, HandedChunks(calls[..k], t), t);
      assert calls[..i][..k] == calls[..k];
    }
  }
}
