/** Binary search in time-ordered timestamps. */
module Searching {
  import opened Orders
  import opened Samples

  /** The first position whose key is not below `t`. */
  method LowerBound(keys: seq<Timestamp>, t: Timestamp) returns (k: nat)
    requires InOrder(keys)
    ensures k <= |keys|
    ensures forall i | 0 <= i < |keys| :: keys[i] < t <==> i < k
  {
    var lo, hi := 0, |keys|;
    while lo < hi
      invariant 0 <= lo <= hi <= |keys|
      invariant forall i | 0 <= i < lo :: keys[i] < t
      invariant forall i | hi <= i < |keys| :: t <= keys[i]
    {
      var mid := lo + (hi - lo) / 2;
      if keys[mid] < t {
        lo := mid + 1;
      } else {
        hi := mid;
      }
    }
    k := lo;
  }

  /** The first position whose key is above `t`. */
  method UpperBound(keys: seq<Timestamp>, t: Timestamp) returns (k: nat)
    requires InOrder(keys)
    ensures k <= |keys|
    ensures forall i | 0 <= i < |keys| :: keys[i] <= t <==> i < k
  {
    var lo, hi := 0, |keys|;
    while lo < hi
      invariant 0 <= lo <= hi <= |keys|
      invariant forall i | 0 <= i < lo :: keys[i] <= t
      invariant forall i | hi <= i < |keys| :: t < keys[i]
    {
      var mid := lo + (hi - lo) / 2;
      if t < keys[mid] {
        hi := mid;
      } else {
        lo := mid + 1;
      }
    }
    k := lo;
  }
}
