/** Validity bitmaps: one bit per row, lowest bit first. */
module BitVectors {

  /** A byte as its eight bits, lowest first: `|=`, `&=` and `&` with a mask act on each bit by itself. */
  type Byte8 = b: seq<bool> | |b| == 8 witness [false, false, false, false, false, false, false, false]

  predicate BitAt(bytes: seq<Byte8>, i: nat)
    requires i < 8 * |bytes|
  {
    bytes[i / 8][i % 8]
  }

  function BytesForBits(n: nat): nat {
    (n + 7) / 8
  }

  /** One bit set, as by `|= 1 << (i % 8)`. */
  function WithBit(bytes: seq<Byte8>, i: nat): (bytes': seq<Byte8>)
    requires i < 8 * |bytes|
    ensures |bytes'| == |bytes| && forall j | 0 <= j < 8 * |bytes| :: BitAt(bytes', j) == (j == i || BitAt(bytes, j))
  {
    bytes[i / 8 := bytes[i / 8][i % 8 := true]]
  }

  /** One bit cleared, as by `&= ~(1 << (i % 8))`. */
  function WithoutBit(bytes: seq<Byte8>, i: nat): (bytes': seq<Byte8>)
    requires i < 8 * |bytes|
    ensures |bytes'| == |bytes| && forall j | 0 <= j < 8 * |bytes| :: BitAt(bytes', j) == (j != i && BitAt(bytes, j))
  {
    bytes[i / 8 := bytes[i / 8][i % 8 := false]]
  }

  function PopCount(bits: seq<bool>): (ones: nat)
    ensures ones <= |bits|
  {
    if bits == [] then 0 else PopCount(bits[..|bits| - 1]) + if bits[|bits| - 1] then 1 else 0
  }

  /** The lowest `r` bits, as by `& ((1 << r) - 1)`. */
  function Masked(b: Byte8, r: nat): (masked: Byte8)
    requires r <= 8
    ensures forall k | 0 <= k < 8 :: masked[k] == (k < r && b[k])
  {
    seq(8, k requires 0 <= k < 8 => k < r && b[k])
  }

  lemma {:induction false} PopCountMasked(b: Byte8, r: nat, k: nat)
    requires r <= k <= 8
    ensures PopCount(Masked(b, r)[..k]) == PopCount(b[..r])
    decreases k
  {
    var masked := Masked(b, r);
    if k > r {
      PopCountMasked(b, r, k - 1);
      assert masked[..k][..k - 1] == masked[..k - 1];
    } else {
      assert masked[..r] == b[..r];
    }
  }

  /** How many of the first `n` bits are set. */
  function Ones(bytes: seq<Byte8>, n: nat): (ones: nat)
    requires n <= 8 * |bytes|
    ensures ones <= n
  {
    if n == 0 then 0 else Ones(bytes, n - 1) + if BitAt(bytes, n - 1) then 1 else 0
  }

  lemma {:induction false} OnesInByte(bytes: seq<Byte8>, i: nat, r: nat)
    requires i < |bytes| && r <= 8
    ensures Ones(bytes, 8 * i + r) == Ones(bytes, 8 * i) + PopCount(bytes[i][..r])
    decreases r
  {
    if r > 0 {
      OnesInByte(bytes, i, r - 1);
      PlaceInByte(i, r - 1);
      assert bytes[i][..r][..r - 1] == bytes[i][..r - 1];
    }
  }

  lemma PlaceInByte(i: nat, k: nat)
    requires k < 8
    ensures (8 * i + k) / 8 == i && (8 * i + k) % 8 == k
  {
  }

  const ZERO: Byte8 := [false, false, false, false, false, false, false, false]
  const ALL: Byte8 := [true, true, true, true, true, true, true, true]

  function Zeros(n: nat): (bytes: seq<Byte8>)
    ensures |bytes| == n && forall i | 0 <= i < n :: bytes[i] == ZERO
  {
    seq(n, i => ZERO)
  }

  function Full(n: nat): (bytes: seq<Byte8>)
    ensures |bytes| == n && forall i | 0 <= i < 8 * n :: BitAt(bytes, i)
  {
    seq(n, i => ALL)
  }

  class BitVector {
    var bytes: seq<Byte8>
    var bitCount: nat

    ghost predicate Valid()
      reads this
    {
      bitCount <= 8 * |bytes|
    }

    constructor ()
      ensures Valid() && bytes == [] && bitCount == 0
    {
      bytes, bitCount := [], 0;
    }

    /** All rows valid; the spare bits of the last byte are set too. */
    method InitValid(n: nat)
      modifies this
      ensures Valid() && bitCount == n && |bytes| == BytesForBits(n)
      ensures forall i | 0 <= i < 8 * |bytes| :: BitAt(bytes, i)
    {
      bitCount := n;
      bytes := Full(BytesForBits(n));
    }

    /** Room for `n` bits; the bits there stay as they are. */
    method EnsureSize(n: nat)
      requires Valid()
      modifies this
      ensures Valid() && bitCount == (if n > old(bitCount) then n else old(bitCount)) && |bytes| >= |old(bytes)|
      ensures forall i | 0 <= i < 8 * |old(bytes)| :: BitAt(bytes, i) == BitAt(old(bytes), i)
    {
      if n > bitCount {
        bitCount := n;
      }
      var needed := BytesForBits(n);
      if |bytes| < needed {
        bytes := bytes + Zeros(needed - |bytes|);
      }
    }

    method SetValid(i: nat)
      requires i < 8 * |bytes|
      modifies this`bytes
      ensures bytes == WithBit(old(bytes), i)
    {
      bytes := WithBit(bytes, i);
    }

    method SetNull(i: nat)
      requires i < 8 * |bytes|
      modifies this`bytes
      ensures bytes == WithoutBit(old(bytes), i)
    {
      bytes := WithoutBit(bytes, i);
    }

    predicate IsValid(i: nat)
      reads this
      requires i < 8 * |bytes|
    {
      BitAt(bytes, i)
    }

    /** The unset ones among the first `n` bits: whole bytes first, then the rest of the last byte behind a mask. */
    method CountNulls(n: nat) returns (nulls: nat)
      requires n <= 8 * |bytes|
      ensures nulls == n - Ones(bytes, n)
    {
      var ones := 0;
      var full := n / 8;
      for i := 0 to full
        invariant ones == Ones(bytes, 8 * i)
      {
        OnesInByte(bytes, i, 8);
        assert bytes[i][..8] == bytes[i];
        ones := ones + PopCount(bytes[i]);
      }
      var rest := n % 8;
      if rest > 0 {
        OnesInByte(bytes, full, rest);
        PopCountMasked(bytes[full], rest, 8);
        assert Masked(bytes[full], rest)[..8] == Masked(bytes[full], rest);
        ones := ones + PopCount(Masked(bytes[full], rest));
      }
      nulls := n - ones;
    }
  }

  // ---------------------------------------------------------------- views

  /** A range of bits of a byte buffer. */
  datatype BitSpan = BitSpan(bytes: seq<Byte8>, offset: nat, length: nat) {
    predicate Ok() {
      offset + length <= 8 * |bytes|
    }

    predicate Test(i: nat)
      requires Ok() && i < length
    {
      BitAt(bytes, offset + i)
    }

    function Subspan(from: nat, count: nat): (sub: BitSpan)
      requires Ok() && from + count <= length
      ensures sub.Ok() && sub.length == count && forall i | 0 <= i < count :: sub.Test(i) == Test(from + i)
    {
      BitSpan(bytes, offset + from, count)
    }
  }
}
