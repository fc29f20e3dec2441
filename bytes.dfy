/** Byte sequences as the source sees them: Python slicing and `int.from_bytes`. */
module Bytes {

  newtype byte = x: int | 0 <= x < 0x100

  function Min(a: int, b: int): int { if a < b then a else b }

  /** Python's `s[lo:hi]` for non-negative bounds: the slice is clamped to the
      sequence and is empty when `lo >= hi` or `lo` lies past the end. */
  function Slice(s: seq<byte>, lo: nat, hi: nat): (r: seq<byte>)
    ensures |r| == if hi <= lo || |s| <= lo then 0 else Min(hi, |s|) - lo
    ensures forall i :: 0 <= i < |r| ==> r[i] == s[lo + i]
  {
    if hi <= lo || |s| <= lo then [] else s[lo..Min(hi, |s|)]
  }

  /** `int.from_bytes(b)` with its default byte order, big-endian
      (Python 3.11 and later); the empty sequence gives 0. */
  function FromBytesBE(b: seq<byte>): nat
  {
    if b == [] then 0 else FromBytesBE(b[..|b| - 1]) * 0x100 + b[|b| - 1] as nat
  }

  /** Reading one or two bytes big-endian gives the value a branch target is
      computed from. */
  lemma FromBytesBEShort(b: seq<byte>)
    requires |b| <= 2
    ensures FromBytesBE(b) == if |b| == 0 then 0
                              else if |b| == 1 then b[0] as nat
                              else b[0] as nat * 0x100 + b[1] as nat
  {
    if |b| == 2 {
      assert b[..1] == [b[0]];
      assert b[..1][..0] == [];
    } else if |b| == 1 {
      assert b[..0] == [];
    }
  }
}
