/** Sorting and deduplicating id lists, as the standard library does it. */
module SortedIds {
  import opened Orders

  function Insert(s: seq<nat>, x: nat): (r: seq<nat>)
    ensures |r| == |s| + 1
  {
    if s == [] || s[|s| - 1] <= x then s + [x] else Insert(s[..|s| - 1], x) + [s[|s| - 1]]
  }

  function Sort(s: seq<nat>): (r: seq<nat>)
    ensures |r| == |s|
  {
    if s == [] then [] else Insert(Sort(s[..|s| - 1]), s[|s| - 1])
  }

  /** A largest element goes last. */
  lemma InOrderPush(s: seq<nat>, last: nat)
    requires InOrder(s) && forall i | 0 <= i < |s| :: s[i] <= last
    ensures InOrder(s + [last]) && multiset(s + [last]) == multiset(s) + multiset{last}
  {
  }

  lemma MultisetPush(s: seq<nat>)
    requires s != []
    ensures multiset(s) == multiset(s[..|s| - 1]) + multiset{s[|s| - 1]}
  {
    assert s == s[..|s| - 1] + [s[|s| - 1]];
  }

  lemma StaysBelow(s: seq<nat>, x: nat, r: seq<nat>, last: nat)
    requires multiset(r) == multiset(s) + multiset{x} && x <= last && forall i | 0 <= i < |s| :: s[i] <= last
    ensures forall i | 0 <= i < |r| :: r[i] <= last
  {
    forall i | 0 <= i < |r| ensures r[i] <= last {
      assert r[i] in multiset(r);
      if r[i] != x {
        assert r[i] in s;
      }
    }
  }

  lemma {:induction false} InsertMeaning(s: seq<nat>, x: nat)
    requires InOrder(s)
    ensures InOrder(Insert(s, x)) && multiset(Insert(s, x)) == multiset(s) + multiset{x}
  {
    if s == [] || s[|s| - 1] <= x {
      InOrderPush(s, x);
    } else {
      var front, last := s[..|s| - 1], s[|s| - 1];
      InsertMeaning(front, x);
      StaysBelow(front, x, Insert(front, x), last);
      InOrderPush(Insert(front, x), last);
      MultisetPush(s);
    }
  }

  /** Sorting orders the list and keeps its contents. */
  lemma {:induction false} SortMeaning(s: seq<nat>)
    ensures InOrder(Sort(s)) && multiset(Sort(s)) == multiset(s)
    ensures forall x :: x in Sort(s) <==> x in s
  {
    if s != [] {
      var front, last := s[..|s| - 1], s[|s| - 1];
      SortMeaning(front);
      InsertMeaning(Sort(front), last);
      assert s == front + [last];
    }
    forall x ensures x in Sort(s) <==> x in s {
      assert x in Sort(s) <==> x in multiset(Sort(s));
      assert x in s <==> x in multiset(s);
    }
  }

  lemma UniqueIds(s: seq<nat>)
    ensures forall i | 0 <= i < |Unique(s)| :: 0 <= Unique(s)[i]
  {
    forall i | 0 <= i < |Unique(s)| ensures 0 <= Unique(s)[i] {
      var x := Unique(s)[i];
      assert x in Unique(s) && x in s;
    }
  }
}
