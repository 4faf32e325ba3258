/** Order and distinctness of lists, shared by every component. */
module Orders {

  predicate Distinct<T(==)>(s: seq<T>) {
    forall i, j | 0 <= i < j < |s| :: s[i] != s[j]
  }

  predicate InOrder(keys: seq<int>) {
    forall i, j | 0 <= i < j < |keys| :: keys[i] <= keys[j]
  }

  predicate StrictlyInOrder(keys: seq<int>) {
    forall i, j | 0 <= i < j < |keys| :: keys[i] < keys[j]
  }

  function ToSet<T>(s: seq<T>): set<T> {
    set x | x in s
  }

  /** Drops each element equal to its predecessor. */
  function Unique(s: seq<int>): (r: seq<int>)
    ensures forall x <- r :: x in s
  {
    if |s| < 2 then s
    else if s[|s| - 1] == s[|s| - 2] then Unique(s[..|s| - 1])
    else Unique(s[..|s| - 1]) + [s[|s| - 1]]
  }

  lemma {:induction false} UniqueMeaning(s: seq<int>)
    requires InOrder(s)
    ensures StrictlyInOrder(Unique(s))
    ensures forall x :: x in Unique(s) <==> x in s
  {
    if |s| >= 2 {
      var front, last := s[..|s| - 1], s[|s| - 1];
      UniqueMeaning(front);
      assert s == front + [last];
      UniqueBelow(front, Unique(front));
    }
  }

  lemma UniqueBelow(front: seq<int>, u: seq<int>)
    requires InOrder(front) && front != [] && forall x :: x in u <==> x in front
    ensures forall i | 0 <= i < |u| :: u[i] <= front[|front| - 1]
  {
    forall i | 0 <= i < |u| ensures u[i] <= front[|front| - 1] {
      var x := u[i];
      assert x in u && x in front;
      assert exists j | 0 <= j < |front| :: front[j] == x;
    }
  }
}
