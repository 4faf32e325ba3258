/** Threads that flush between object stores, push and evict: who waits for whom, and why somebody can always go on. */
module LockOrder {
  import opened Samples

  /** A store's lock, the store named by its place in address order; and the lock of one of its series. */
  datatype Lock = StoreLock(store: nat) | SeriesLock(store: nat, topic: nat)

  datatype Mode = Shared | Exclusive

  datatype Op = Acquire(what: Lock, mode: Mode) | Release(what: Lock)

  /** What a thread still has to do and the locks it holds. */
  datatype Thread = Thread(held: map<Lock, Mode>, todo: seq<Op>)

  type ThreadId = int

  type State = seq<Thread>

  // ---------------------------------------------------------------- what the operations lock

  datatype Call =
    | Flush(source: nat, target: nat)
    | OnSeries(store: nat, topic: nat, mode: Mode)
    | OnAllSeries(store: nat, topics: seq<nat>)
    | OnStore(store: nat, mode: Mode)

  /** Both store locks exclusively, the lower address first; a flush of a store to itself is refused before locking. */
  function FlushOps(a: nat, b: nat): seq<Op> {
    if a == b then []
    else
      var first, second := if a < b then a else b, if a < b then b else a;
      [Acquire(StoreLock(first), Exclusive), Acquire(StoreLock(second), Exclusive),
       Release(StoreLock(second)), Release(StoreLock(first))]
  }

  function SeriesOps(store: nat, topics: seq<nat>, mode: Mode): seq<Op> {
    if topics == [] then []
    else
      [Acquire(SeriesLock(store, topics[0]), mode), Release(SeriesLock(store, topics[0]))]
          + SeriesOps(store, topics[1..], mode)
  }

  /** Pushes, reads and evictions share the store's lock and take series locks one at a time; registration,
      removal and clearing take the store's lock exclusively. */
  function Ops(c: Call): seq<Op> {
    match c
    case Flush(a, b) => FlushOps(a, b)
    case OnSeries(a, k, mode) => [Acquire(StoreLock(a), Shared)] + (SeriesOps(a, [k], mode) + [Release(StoreLock(a))])
    case OnAllSeries(a, ks) => [Acquire(StoreLock(a), Shared)] + (SeriesOps(a, ks, Exclusive) + [Release(StoreLock(a))])
    case OnStore(a, mode) => [Acquire(StoreLock(a), mode), Release(StoreLock(a))]
  }

  function Program(calls: seq<Call>): seq<Op> {
    if calls == [] then [] else Ops(calls[0]) + Program(calls[1..])
  }

  // ---------------------------------------------------------------- steps

  ghost predicate Holds(s: State, t: ThreadId, l: Lock) {
    0 <= t < |s| && l in s[t].held
  }

  ghost predicate Wants(s: State, t: ThreadId, l: Lock, mode: Mode) {
    0 <= t < |s| && s[t].todo != [] && s[t].todo[0] == Acquire(l, mode)
  }

  /** A shared request waits for an exclusive holder, and also behind an exclusive request. */
  ghost predicate CanStep(s: State, t: ThreadId) {
    && 0 <= t < |s| && s[t].todo != []
    && match s[t].todo[0]
       case Release(l) => l in s[t].held
       case Acquire(l, Exclusive) => forall u :: !Holds(s, u, l)
       case Acquire(l, Shared) =>
         && (forall u | Holds(s, u, l) :: s[u].held[l] == Shared)
         && (forall u :: !Wants(s, u, l, Exclusive))
  }

  function After(th: Thread): Thread
    requires th.todo != []
  {
    match th.todo[0]
    case Acquire(l, mode) => Thread(th.held[l := mode], th.todo[1..])
    case Release(l) => Thread(th.held - {l}, th.todo[1..])
  }

  ghost predicate Step(s: State, s': State) {
    exists t {:trigger CanStep(s, t)} :: CanStep(s, t) && s' == s[t := After(s[t])]
  }

  ghost predicate Start(s: State, calls: seq<seq<Call>>) {
    |s| == |calls| && forall t | 0 <= t < |s| :: s[t] == Thread(map[], Program(calls[t]))
  }

  /** A run: it starts with nobody holding anything, and each state follows from the one before. */
  ghost predicate Run(states: seq<State>, calls: seq<seq<Call>>) {
    && states != [] && Start(states[0], calls)
    && forall i | 0 < i < |states| :: Step(states[i - 1], states[i])
  }

  // ---------------------------------------------------------------- the discipline

  /** Stores by address, and series after all stores. */
  predicate Before(l: Lock, m: Lock) {
    l.StoreLock? && (m.SeriesLock? || l.store < m.store)
  }

  /** From here on the thread only ever asks for locks beyond those it holds, and gives everything back. */
  ghost predicate Disciplined(held: set<Lock>, todo: seq<Op>)
    decreases |todo|
  {
    if todo == [] then held == {}
    else
      match todo[0]
      case Acquire(l, mode) => (forall h | h in held :: Before(h, l)) && Disciplined(held + {l}, todo[1..])
      case Release(l) => l in held && Disciplined(held - {l}, todo[1..])
  }

  lemma {:induction false} DisciplinedThen(held: set<Lock>, a: seq<Op>, b: seq<Op>)
    requires Disciplined(held, a) && Disciplined({}, b)
    ensures Disciplined(held, a + b)
    decreases |a|
  {
    if a == [] {
      assert a + b == b;
    } else {
      assert (a + b)[0] == a[0] && (a + b)[1..] == a[1..] + b;
      match a[0]
      case Acquire(l, mode) => DisciplinedThen(held + {l}, a[1..], b);
      case Release(l) => DisciplinedThen(held - {l}, a[1..], b);
    }
  }

  lemma {:induction false} SeriesDisciplined(store: nat, topics: seq<nat>, mode: Mode)
    ensures Disciplined({StoreLock(store)}, SeriesOps(store, topics, mode) + [Release(StoreLock(store))])
  {
    var last := [Release(StoreLock(store))];
    if topics == [] {
      assert SeriesOps(store, topics, mode) + last == last;
      assert {StoreLock(store)} - {StoreLock(store)} == {};
    } else {
      var l := SeriesLock(store, topics[0]);
      SeriesDisciplined(store, topics[1..], mode);
      var rest := SeriesOps(store, topics[1..], mode) + last;
      var todo := SeriesOps(store, topics, mode) + last;
      assert todo == [Acquire(l, mode), Release(l)] + rest;
      assert todo[1..] == [Release(l)] + rest && todo[1..][1..] == rest;
      assert {StoreLock(store)} + {l} - {l} == {StoreLock(store)};
    }
  }

  lemma CallDisciplined(c: Call)
    ensures Disciplined({}, Ops(c))
  {
    match c
    case Flush(a, b) => if a != b { FlushDisciplined(a, b); }
    case OnSeries(a, k, mode) =>
      SharedThen(a, SeriesOps(a, [k], mode) + [Release(StoreLock(a))]) by { SeriesDisciplined(a, [k], mode); }
    case OnAllSeries(a, ks) =>
      SharedThen(a, SeriesOps(a, ks, Exclusive) + [Release(StoreLock(a))]) by { SeriesDisciplined(a, ks, Exclusive); }
    case OnStore(a, mode) => OneLock(StoreLock(a), mode);
  }

  lemma OneLock(l: Lock, mode: Mode)
    ensures Disciplined({}, [Acquire(l, mode), Release(l)])
  {
    var todo := [Acquire(l, mode), Release(l)];
    assert todo[1..] == [Release(l)] && todo[1..][1..] == [];
    assert {} + {l} - {l} == {};
  }

  lemma SharedThen(a: nat, rest: seq<Op>)
    requires Disciplined({StoreLock(a)}, rest)
    ensures Disciplined({}, [Acquire(StoreLock(a), Shared)] + rest)
  {
    assert ([Acquire(StoreLock(a), Shared)] + rest)[1..] == rest;
    assert {} + {StoreLock(a)} == {StoreLock(a)};
  }

  lemma FlushDisciplined(a: nat, b: nat)
    requires a != b
    ensures Disciplined({}, FlushOps(a, b))
  {
    var x, y := StoreLock(if a < b then a else b), StoreLock(if a < b then b else a);
    LastRelease(x);
    ReleaseThen({x, y}, y, [Release(x)]);
    AcquireThen({x}, y, [Release(y), Release(x)]);
    AcquireThen({}, x, [Acquire(y, Exclusive), Release(y), Release(x)]);
  }

  lemma LastRelease(l: Lock)
    ensures Disciplined({l}, [Release(l)])
  {
    assert {l} - {l} == {} && [Release(l)][1..] == [];
  }

  lemma ReleaseThen(held: set<Lock>, l: Lock, rest: seq<Op>)
    requires l in held && Disciplined(held - {l}, rest)
    ensures Disciplined(held, [Release(l)] + rest)
  {
    assert ([Release(l)] + rest)[1..] == rest;
  }

  lemma AcquireThen(held: set<Lock>, l: Lock, rest: seq<Op>)
    requires (forall h | h in held :: Before(h, l)) && Disciplined(held + {l}, rest)
    ensures Disciplined(held, [Acquire(l, Exclusive)] + rest)
  {
    assert ([Acquire(l, Exclusive)] + rest)[1..] == rest;
  }

  lemma {:induction false} ProgramDisciplined(calls: seq<Call>)
    ensures Disciplined({}, Program(calls))
  {
    if calls != [] {
      CallDisciplined(calls[0]);
      ProgramDisciplined(calls[1..]);
      DisciplinedThen({}, Ops(calls[0]), Program(calls[1..]));
    }
  }

  // ---------------------------------------------------------------- what every run keeps

  ghost predicate AllDisciplined(s: State) {
    forall t | 0 <= t < |s| :: Disciplined(s[t].held.Keys, s[t].todo)
  }

  /** An exclusive holder is the only holder. */
  ghost predicate Exclusion(s: State) {
    forall t, u, l | Holds(s, t, l) && Holds(s, u, l) && s[t].held[l] == Exclusive :: t == u
  }

  lemma StepKeeps(s: State, s': State)
    requires AllDisciplined(s) && Exclusion(s) && Step(s, s')
    ensures AllDisciplined(s') && Exclusion(s')
  {
    var t :| CanStep(s, t) && s' == s[t := After(s[t])];
    var th := s[t];
    assert Disciplined(th.held.Keys, th.todo);
    match th.todo[0]
    case Acquire(l, mode) => {
      assert th.held[l := mode].Keys == th.held.Keys + {l};
      forall u, v, m | Holds(s', u, m) && Holds(s', v, m) && s'[u].held[m] == Exclusive ensures u == v {
        if m == l {
          assert Holds(s', t, l);
          assert u != t ==> Holds(s, u, l);
          assert v != t ==> Holds(s, v, l);
        } else {
          assert Holds(s, u, m) && Holds(s, v, m) && s[u].held[m] == Exclusive;
        }
      }
    }
    case Release(l) => {
      assert (th.held - {l}).Keys == th.held.Keys - {l};
      forall u, v, m | Holds(s', u, m) && Holds(s', v, m) && s'[u].held[m] == Exclusive ensures u == v {
        assert Holds(s, u, m) && Holds(s, v, m) && s[u].held[m] == Exclusive;
      }
    }
  }

  lemma {:induction false} RunKeeps(states: seq<State>, calls: seq<seq<Call>>, i: nat)
    requires Run(states, calls) && i < |states|
    ensures AllDisciplined(states[i]) && Exclusion(states[i])
  {
    if i == 0 {
      forall t | 0 <= t < |states[0]| ensures Disciplined(states[0][t].held.Keys, states[0][t].todo) {
        ProgramDisciplined(calls[t]);
        assert states[0][t].held.Keys == {};
      }
    } else {
      RunKeeps(states, calls, i - 1);
      StepKeeps(states[i - 1], states[i]);
    }
  }

  // ---------------------------------------------------------------- nobody waits forever

  ghost predicate BelowTop(s: State, top: nat) {
    forall u | 0 <= u < |s| && s[u].todo != [] && s[u].todo[0].Acquire? :: s[u].todo[0].what.store <= top
  }

  lemma {:induction false} SomeTop(s: State) returns (top: nat)
    ensures BelowTop(s, top)
  {
    if s == [] {
      top := 0;
    } else {
      var last := s[|s| - 1];
      top := SomeTop(s[..|s| - 1]);
      if last.todo != [] && last.todo[0].Acquire? && last.todo[0].what.store > top {
        top := last.todo[0].what.store;
      }
      forall u | 0 <= u < |s| && s[u].todo != [] && s[u].todo[0].Acquire? ensures s[u].todo[0].what.store <= top {
        assert u < |s| - 1 ==> s[..|s| - 1][u] == s[u];
      }
    }
  }

  /** How much further along the lock order a waiting thread can lead. */
  function Distance(op: Op, top: nat): nat {
    match op
    case Release(_) => 0
    case Acquire(l, _) => if l.SeriesLock? then 1 else if l.store <= top then 2 + top - l.store else 2
  }

  /** Someone waiting for a lock leads to a thread that can step: either the lock is free, or whoever holds it is not
      waiting, or waits for a lock further on. */
  lemma {:induction false} SomeoneGoes(s: State, t: ThreadId, top: nat) returns (go: ThreadId)
    requires AllDisciplined(s) && 0 <= t < |s| && s[t].todo != [] && BelowTop(s, top)
    ensures CanStep(s, go)
    decreases Distance(s[t].todo[0], top)
  {
    assert Disciplined(s[t].held.Keys, s[t].todo);
    match s[t].todo[0]
    case Release(l) => go := t;
    case Acquire(l, mode) => {
      assert Wants(s, t, l, mode);
      if u :| Holds(s, u, l) {
        HolderIsFurther(s, u, l);
        go := SomeoneGoes(s, u, top);
      } else if w :| Wants(s, w, l, Exclusive) {
        go := w;
      } else {
        go := t;
      }
    }
  }

  /** A holder is not finished, and if it waits, then for a lock beyond the one it holds. */
  lemma HolderIsFurther(s: State, u: ThreadId, l: Lock)
    requires AllDisciplined(s) && Holds(s, u, l)
    ensures s[u].todo != []
    ensures s[u].todo[0].Acquire? ==> Before(l, s[u].todo[0].what) && Wants(s, u, s[u].todo[0].what, s[u].todo[0].mode)
  {
    assert Disciplined(s[u].held.Keys, s[u].todo);
    assert l in s[u].held.Keys;
  }

  /** Deadlock freedom: in every state of every run, while some thread is unfinished, some thread can step. */
  lemma NobodyWaitsForever(states: seq<State>, calls: seq<seq<Call>>, i: nat, t: ThreadId)
    requires Run(states, calls) && i < |states| && 0 <= t < |states[i]| && states[i][t].todo != []
    ensures exists go :: CanStep(states[i], go)
  {
    RunKeeps(states, calls, i);
    var top := SomeTop(states[i]);
    var go := SomeoneGoes(states[i], t, top);
  }

  // ---------------------------------------------------------------- every run ends

  function Work(s: State): nat {
    if s == [] then 0 else Work(s[..|s| - 1]) + |s[|s| - 1].todo|
  }

  lemma {:induction false} WorkDone(s: State, t: ThreadId, th: Thread)
    requires 0 <= t < |s| && |th.todo| == |s[t].todo| - 1
    ensures Work(s[t := th]) == Work(s) - 1
  {
    var s' := s[t := th];
    if t == |s| - 1 {
      assert s'[..|s| - 1] == s[..|s| - 1];
    } else {
      WorkDone(s[..|s| - 1], t, th);
      assert s'[..|s| - 1] == s[..|s| - 1][t := th];
    }
  }

  /** Every step uses up one operation, so a run that cannot be continued has finished all its threads. */
  lemma {:induction false} RunsEnd(states: seq<State>, calls: seq<seq<Call>>, i: nat)
    requires Run(states, calls) && i < |states|
    ensures Work(states[i]) + i == Work(states[0])
    ensures Work(states[i]) == 0 <==> !exists go :: CanStep(states[i], go)
  {
    if i > 0 {
      RunsEnd(states, calls, i - 1);
      assert Step(states[i - 1], states[i]);
      var t :| CanStep(states[i - 1], t) && states[i] == states[i - 1][t := After(states[i - 1][t])];
      WorkDone(states[i - 1], t, After(states[i - 1][t]));
    }
    if Work(states[i]) > 0 {
      var t := Unfinished(states[i]);
      NobodyWaitsForever(states, calls, i, t);
    } else {
      forall go ensures !CanStep(states[i], go) {
        NothingLeft(states[i], go);
      }
    }
  }

  lemma {:induction false} Unfinished(s: State) returns (t: ThreadId)
    requires Work(s) > 0
    ensures 0 <= t < |s| && s[t].todo != []
  {
    if s[|s| - 1].todo != [] {
      t := |s| - 1;
    } else {
      t := Unfinished(s[..|s| - 1]);
    }
  }

  lemma {:induction false} NothingLeft(s: State, t: ThreadId)
    requires Work(s) == 0
    ensures 0 <= t < |s| ==> s[t].todo == []
  {
    if s != [] && 0 <= t < |s| - 1 {
      NothingLeft(s[..|s| - 1], t);
    }
  }

  // ---------------------------------------------------------------- why the address order matters

  /** Flushing in argument order instead: source first, then target. */
  function NaiveFlush(a: nat, b: nat): seq<Op> {
    [Acquire(StoreLock(a), Exclusive), Acquire(StoreLock(b), Exclusive), Release(StoreLock(b)), Release(StoreLock(a))]
  }

  /** Two threads flushing two stores into each other that way can block each other for good. */
  lemma NaiveDeadlock() returns (s0: State, s1: State, s2: State)
    ensures s0 == [Thread(map[], NaiveFlush(0, 1)), Thread(map[], NaiveFlush(1, 0))]
    ensures Step(s0, s1) && Step(s1, s2)
    ensures Work(s2) > 0 && forall t :: !CanStep(s2, t)
  {
    var p, q := NaiveFlush(0, 1), NaiveFlush(1, 0);
    s0 := [Thread(map[], p), Thread(map[], q)];
    assert CanStep(s0, 0);
    s1 := s0[0 := After(s0[0])];
    assert CanStep(s1, 1);
    s2 := s1[1 := After(s1[1])];
    assert Holds(s2, 0, StoreLock(0)) && Holds(s2, 1, StoreLock(1));
    assert s2[0].todo[0] == p[1] && s2[1].todo[0] == q[1];
  }
}
