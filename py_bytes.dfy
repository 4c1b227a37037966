/**
 * The two pieces of Python byte semantics the TFTP helpers rely on:
 * slicing a `bytes` object (which clamps its bounds instead of failing)
 * and `int.from_bytes(..., byteorder='big')` (which reads any number of
 * bytes, including none, as an unsigned big-endian integer).
 */
module PyBytes {

  /** One octet of a datagram. */
  type Byte = b: int | 0 <= b < 256

  /** 256 to the power k: one more than the largest k-byte unsigned value. */
  function Pow256(k: nat): (p: nat)
    ensures p >= 1
  {
    if k == 0 then 1 else 256 * Pow256(k - 1)
  }

  function Min(a: int, b: int): int
  {
    if a <= b then a else b
  }

  /**
   * Python's `s[lo:hi]` for non-negative bounds: both bounds are clamped to
   * the length, and a slice whose start passes its end is empty.
   */
  function Slice(s: seq<Byte>, lo: nat, hi: nat): (r: seq<Byte>)
    ensures |r| == if Min(hi, |s|) <= lo then 0 else Min(hi, |s|) - lo
    ensures forall i :: 0 <= i < |r| ==> r[i] == s[lo + i]
  {
    var l := Min(lo, |s|);
    var h := Min(hi, |s|);
    if h <= l then [] else s[l..h]
  }

  /** `int.from_bytes(s, byteorder='big')`: the empty sequence reads as 0. */
  function FromBytesBig(s: seq<Byte>): (n: nat)
    decreases |s|
  {
    if |s| == 0 then 0 else FromBytesBig(s[..|s| - 1]) * 256 + s[|s| - 1]
  }

  /** `n.to_bytes(k, byteorder='big')` for an `n` that fits in k bytes. */
  function ToBytesBig(n: nat, k: nat): (s: seq<Byte>)
    ensures |s| == k
  {
    if k == 0 then [] else ToBytesBig(n / 256, k - 1) + [n % 256]
  }

  /** A k-byte big-endian value is below 256^k. */
  lemma {:induction false} FromBytesBound(s: seq<Byte>)
    ensures FromBytesBig(s) < Pow256(|s|)
  {
    if |s| > 0 {
      var init := s[..|s| - 1];
      FromBytesBound(init);
      assert FromBytesBig(init) + 1 <= Pow256(|init|);
      assert (FromBytesBig(init) + 1) * 256 <= Pow256(|init|) * 256;
    }
  }

  /** Closed forms of `int.from_bytes` on at most two bytes. */
  lemma FromBytesShort(s: seq<Byte>)
    requires |s| <= 2
    ensures FromBytesBig(s) == (if |s| == 2 then s[0] as int * 256 + s[1] as int else if |s| == 1 then s[0] as int else 0)
  {
  }

  /** Decoding what was encoded gives the number back. */
  lemma {:induction false} FromToBytes(n: nat, k: nat)
    requires n < Pow256(k)
    ensures FromBytesBig(ToBytesBig(n, k)) == n
  {
    if k > 0 {
      var s := ToBytesBig(n, k);
      assert s[..|s| - 1] == ToBytesBig(n / 256, k - 1);
      FromToBytes(n / 256, k - 1);
    }
  }

  /** Encoding what was decoded, at the same width, gives the bytes back. */
  lemma {:induction false} ToFromBytes(s: seq<Byte>)
    ensures ToBytesBig(FromBytesBig(s), |s|) == s
  {
    if |s| > 0 {
      var init := s[..|s| - 1];
      var n := FromBytesBig(s);
      assert n / 256 == FromBytesBig(init) && n % 256 == s[|s| - 1];
      ToFromBytes(init);
      assert s == init + [s[|s| - 1]];
    }
  }
}
