/** One object topic: payloads in time order, their timestamps beside them, and the bytes they own. */
module ObjectSeriesStates {
  import opened Orders
  import opened Samples
  import opened Searching

  /** Bytes the store owns, or a callback that fetches them on every read. */
  datatype Payload = Owned(bytes: seq<nat>) | Fetched(callback: nat)

  datatype Entry = Entry(ts: Timestamp, payload: Payload)

  /** Zero switches a limit off. */
  datatype Budget = Budget(window: int, maxBytes: nat)

  datatype Key = Key(dataset: nat, name: string)

  datatype Series = Series(key: Key, entries: seq<Entry>, stamps: seq<Timestamp>, budget: Budget, memory: int)

  function OwnedSize(e: Entry): nat {
    match e.payload
    case Owned(bytes) => |bytes|
    case Fetched(_) => 0
  }

  function OwnedSizes(entries: seq<Entry>): nat {
    if entries == [] then 0 else OwnedSize(entries[0]) + OwnedSizes(entries[1..])
  }

  lemma {:induction false} SizesConcat(a: seq<Entry>, b: seq<Entry>)
    ensures OwnedSizes(a + b) == OwnedSizes(a) + OwnedSizes(b)
  {
    if a == [] {
      assert a + b == b;
    } else {
      SizesConcat(a[1..], b);
      assert (a + b)[1..] == a[1..] + b;
    }
  }

  function Stamps(entries: seq<Entry>): (stamps: seq<Timestamp>)
    ensures |stamps| == |entries| && forall i | 0 <= i < |entries| :: stamps[i] == entries[i].ts
  {
    if entries == [] then [] else [entries[0].ts] + Stamps(entries[1..])
  }

  /** Timestamps aligned with entries and in order; memory is the sum of the owned sizes. */
  ghost predicate SeriesOk(s: Series) {
    s.stamps == Stamps(s.entries) && InOrder(s.stamps) && s.memory == OwnedSizes(s.entries)
  }

  function EvictFront(s: Series): Series {
    if s.entries == [] || s.stamps == [] then s
    else s.(entries := s.entries[1..], stamps := s.stamps[1..], memory := s.memory - OwnedSize(s.entries[0]))
  }

  lemma EvictKeeps(s: Series)
    requires SeriesOk(s)
    ensures SeriesOk(EvictFront(s))
  {
    if s.entries != [] {
      var s' := EvictFront(s);
      forall i, j | 0 <= i < j < |s'.stamps| ensures s'.stamps[i] <= s'.stamps[j] {
        assert s'.stamps[i] == s.stamps[i + 1] && s'.stamps[j] == s.stamps[j + 1];
      }
    }
  }

  /** Both limits are met: the oldest entry is inside the window, and the owned bytes fit. */
  predicate Fits(entries: seq<Entry>, budget: Budget, newest: Timestamp) {
    && (budget.window > 0 && entries != [] ==> newest - budget.window <= entries[0].ts)
    && (budget.maxBytes > 0 && entries != [] ==> OwnedSizes(entries) <= budget.maxBytes)
  }

  /** What retention keeps: entries go from the front until both limits are met. */
  function Kept(entries: seq<Entry>, budget: Budget, newest: Timestamp): seq<Entry> {
    if entries == [] || Fits(entries, budget, newest) then entries else Kept(entries[1..], budget, newest)
  }

  /** Retention drops the shortest prefix after which both limits are met. */
  lemma {:induction false} KeptIsShortest(entries: seq<Entry>, budget: Budget, newest: Timestamp) returns (k: nat)
    ensures k <= |entries| && Kept(entries, budget, newest) == entries[k..] && Fits(entries[k..], budget, newest)
    ensures forall j | 0 <= j < k :: !Fits(entries[j..], budget, newest)
  {
    if entries == [] || Fits(entries, budget, newest) {
      k := 0;
    } else {
      var rest := entries[1..];
      var k' := KeptIsShortest(rest, budget, newest);
      k := k' + 1;
      assert rest[k'..] == entries[k..];
      forall j | 0 <= j < k ensures !Fits(entries[j..], budget, newest) {
        if j > 0 {
          assert rest[j - 1..] == entries[j..];
        }
      }
    }
  }

  /** An entry inside the window survives unless the byte limit forces it out. */
  lemma {:induction false} WindowSurvives(entries: seq<Entry>, budget: Budget, newest: Timestamp, i: nat)
    requires i < |entries| && InOrder(Stamps(entries))
    requires budget.maxBytes == 0 && (budget.window > 0 ==> newest - budget.window <= entries[i].ts)
    ensures entries[i] in Kept(entries, budget, newest)
  {
    if !Fits(entries, budget, newest) {
      assert i > 0;
      TailInOrder(entries);
      WindowSurvives(entries[1..], budget, newest, i - 1);
      assert entries[1..][i - 1] == entries[i];
    }
  }

  lemma TailInOrder(entries: seq<Entry>)
    requires entries != [] && InOrder(Stamps(entries))
    ensures InOrder(Stamps(entries[1..]))
  {
    var a, b := Stamps(entries), Stamps(entries[1..]);
    forall i, j | 0 <= i < j < |b| ensures b[i] <= b[j] {
      assert b[i] == a[i + 1] && b[j] == a[j + 1];
    }
  }

  function Retained(s: Series, newest: Timestamp): Series {
    var kept := Kept(s.entries, s.budget, newest);
    s.(entries := kept, stamps := Stamps(kept), memory := OwnedSizes(kept))
  }

  /** Two loops, first the window and then the bytes, evicting one entry at a time. */
  method ApplyRetention(s: Series, newest: Timestamp) returns (r: Series)
    requires SeriesOk(s)
    ensures r == Retained(s, newest) && SeriesOk(r)
  {
    r := s;
    if s.budget.window > 0 {
      var threshold := newest - s.budget.window;
      while r.entries != [] && r.stamps[0] < threshold
        invariant SeriesOk(r) && r.key == s.key && r.budget == s.budget
        invariant Kept(r.entries, s.budget, newest) == Kept(s.entries, s.budget, newest)
        decreases |r.entries|
      {
        EvictKeeps(r);
        r := EvictFront(r);
      }
    }
    if s.budget.maxBytes > 0 {
      while r.entries != [] && r.memory > s.budget.maxBytes
        invariant SeriesOk(r) && r.key == s.key && r.budget == s.budget
        invariant Kept(r.entries, s.budget, newest) == Kept(s.entries, s.budget, newest)
        invariant s.budget.window > 0 && r.entries != [] ==> newest - s.budget.window <= r.entries[0].ts
        decreases |r.entries|
      {
        EvictKeeps(r);
        assert |r.stamps| > 1 ==> r.stamps[0] <= r.stamps[1];
        r := EvictFront(r);
      }
    }
  }

  /** Entries before the threshold go. */
  function From(entries: seq<Entry>, threshold: Timestamp): seq<Entry> {
    if entries == [] || entries[0].ts >= threshold then entries else From(entries[1..], threshold)
  }

  function Since(s: Series, threshold: Timestamp): Series {
    var kept := From(s.entries, threshold);
    s.(entries := kept, stamps := Stamps(kept), memory := OwnedSizes(kept))
  }

  lemma {:induction false} FromIsExact(entries: seq<Entry>, threshold: Timestamp) returns (k: nat)
    requires InOrder(Stamps(entries))
    ensures k <= |entries| && From(entries, threshold) == entries[k..]
    ensures forall i | 0 <= i < |entries| :: entries[i].ts < threshold <==> i < k
  {
    if entries == [] || entries[0].ts >= threshold {
      k := 0;
      forall i | 0 <= i < |entries| ensures entries[i].ts >= threshold {
        assert i > 0 ==> Stamps(entries)[0] <= Stamps(entries)[i];
      }
    } else {
      TailInOrder(entries);
      var k' := FromIsExact(entries[1..], threshold);
      k := k' + 1;
      assert entries[1..][k'..] == entries[k..];
      forall i | 0 <= i < |entries| ensures entries[i].ts < threshold <==> i < k {
        assert i > 0 ==> entries[1..][i - 1] == entries[i];
      }
    }
  }

  method EvictBefore(s: Series, threshold: Timestamp) returns (r: Series)
    requires SeriesOk(s)
    ensures r == Since(s, threshold) && SeriesOk(r)
  {
    r := s;
    while r.entries != [] && r.stamps[0] < threshold
      invariant SeriesOk(r) && r.key == s.key && r.budget == s.budget
      invariant From(r.entries, threshold) == From(s.entries, threshold)
      decreases |r.entries|
    {
      EvictKeeps(r);
      r := EvictFront(r);
    }
  }

  /** One series' entries moved behind another's. */
  function Joined(d: Series, s: Series): Series {
    d.(entries := d.entries + s.entries, stamps := d.stamps + s.stamps, memory := d.memory + s.memory)
  }

  function Emptied(s: Series): Series {
    s.(entries := [], stamps := [], memory := 0)
  }

  /** Moving `s` behind `d` keeps the order. */
  predicate Follows(d: Series, s: Series) {
    d.stamps == [] || s.stamps == [] || d.stamps[|d.stamps| - 1] <= s.stamps[0]
  }

  lemma StampsConcat(a: seq<Entry>, b: seq<Entry>)
    ensures Stamps(a + b) == Stamps(a) + Stamps(b)
  {
    var both := Stamps(a) + Stamps(b);
    forall i | 0 <= i < |both| ensures Stamps(a + b)[i] == both[i] {
      assert (a + b)[i] == if i < |a| then a[i] else b[i - |a|];
    }
  }

  lemma JoinedOk(d: Series, s: Series)
    requires SeriesOk(d) && SeriesOk(s) && Follows(d, s)
    ensures SeriesOk(Joined(d, s))
  {
    StampsConcat(d.entries, s.entries);
    SizesConcat(d.entries, s.entries);
    var stamps := d.stamps + s.stamps;
    forall i, j | 0 <= i < j < |stamps| ensures stamps[i] <= stamps[j] {
      if i < |d.stamps| <= j {
        assert d.stamps[i] <= d.stamps[|d.stamps| - 1] <= s.stamps[0] <= s.stamps[j - |d.stamps|];
      }
    }
  }

  /** One more entry at the end. */
  function Pushed(s: Series, e: Entry): Series {
    s.(entries := s.entries + [e], stamps := s.stamps + [e.ts], memory := s.memory + OwnedSize(e))
  }

  lemma PushedOk(s: Series, e: Entry)
    requires SeriesOk(s) && (s.stamps == [] || s.stamps[|s.stamps| - 1] <= e.ts)
    ensures SeriesOk(Pushed(s, e))
  {
    var one := Series(s.key, [e], [e.ts], s.budget, OwnedSize(e));
    assert Stamps([e]) == [e.ts] && OwnedSizes([e]) == OwnedSize(e);
    JoinedOk(s, one);
    assert Joined(s, one) == Pushed(s, e);
  }
}
