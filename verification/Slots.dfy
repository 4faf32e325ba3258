/** Buffers that hold items back to back. */
module Slots {
  import opened Samples
  import opened WireFormat

  function Concat(items: seq<Bytes>): Bytes {
    if items == [] then [] else Concat(items[..|items| - 1]) + items[|items| - 1]
  }

  lemma ConcatMore(items: seq<Bytes>, x: Bytes)
    ensures Concat(items + [x]) == Concat(items) + x
  {
    assert (items + [x])[..|items|] == items;
  }

  lemma {:induction false} ConcatAppend(a: seq<Bytes>, b: seq<Bytes>)
    ensures Concat(a + b) == Concat(a) + Concat(b)
  {
    if b == [] {
      assert a + b == a;
    } else {
      ConcatAppend(a, b[..|b| - 1]);
      ConcatFront(a, b);
      Assoc(Concat(a), Concat(b[..|b| - 1]), b[|b| - 1]);
    }
  }

  /** Where item `k` starts. */
  function StartOf(items: seq<Bytes>, k: nat): nat
    requires k <= |items|
  {
    |Concat(items[..k])|
  }

  /** Item `k` is found between its start and the next. */
  lemma ItemSlice(items: seq<Bytes>, k: nat)
    requires k < |items|
    ensures StartOf(items, k + 1) == StartOf(items, k) + |items[k]| <= |Concat(items)|
    ensures Concat(items)[StartOf(items, k)..StartOf(items, k + 1)] == items[k]
  {
    var before, after := Concat(items[..k]), Concat(items[k + 1..]);
    Around(items, k);
    var all := Concat(items);
    assert all == before + (items[k] + after);
    assert all[|before|..|before| + |items[k]|] == items[k];
  }

  lemma SplitAt<T>(items: seq<T>, k: nat)
    requires k < |items|
    ensures items[..k + 1] == items[..k] + [items[k]] && items == items[..k + 1] + items[k + 1..]
  {
  }

  lemma Around(items: seq<Bytes>, k: nat)
    requires k < |items|
    ensures Concat(items[..k + 1]) == Concat(items[..k]) + items[k]
    ensures Concat(items) == Concat(items[..k]) + (items[k] + Concat(items[k + 1..]))
  {
    SplitAt(items, k);
    ConcatMore(items[..k], items[k]);
    ConcatAppend(items[..k + 1], items[k + 1..]);
    Assoc(Concat(items[..k]), items[k], Concat(items[k + 1..]));
  }

  predicate AllOfSize(items: seq<Bytes>, size: nat) {
    forall i | 0 <= i < |items| :: |items[i]| == size
  }

  lemma {:induction false} FixedStart(items: seq<Bytes>, size: nat, k: nat)
    requires AllOfSize(items, size) && k <= |items|
    ensures StartOf(items, k) == k * size
  {
    if k > 0 {
      FixedStart(items, size, k - 1);
      Around(items, k - 1);
      NextMultiple(k - 1, size);
    }
  }

  lemma NextMultiple(k: nat, size: nat)
    ensures (k + 1) * size == k * size + size && k * size >= 0
  {
  }

  /** Items of one size are found at multiples of it. */
  lemma FixedSlice(items: seq<Bytes>, size: nat, k: nat)
    requires AllOfSize(items, size) && k < |items|
    ensures 0 <= k * size <= k * size + size <= |Concat(items)|
    ensures Concat(items)[k * size..k * size + size] == items[k]
  {
    ItemSlice(items, k);
    FixedStart(items, size, k);
  }

  /** Whole buffers of items of one size. */
  lemma FixedLength(items: seq<Bytes>, size: nat)
    requires AllOfSize(items, size)
    ensures |Concat(items)| == |items| * size
  {
    FixedStart(items, size, |items|);
    assert items[..|items|] == items;
  }
}
