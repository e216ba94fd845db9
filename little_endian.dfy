/**
 * Little-endian byte conversions: `to_le_bytes` and `from_le_bytes` of Rust's
 * unsigned integers, for any width, with the u16 and u32 instances the memory
 * accessor uses.
 */
module LittleEndian {
  import opened Ints

  /** The number of values that n bytes can hold. */
  function Pow256(n: nat): (r: nat)
    ensures r >= 1
  {
    if n == 0 then 1 else 256 * Pow256(n - 1)
  }

  /** The n low-order bytes of v, least significant first. */
  function ToLe(v: nat, n: nat): (r: seq<u8>)
    ensures |r| == n
  {
    if n == 0 then [] else [v % 256] + ToLe(v / 256, n - 1)
  }

  /** The number whose little-endian representation is b. */
  function FromLe(b: seq<u8>): (r: nat)
    ensures r < Pow256(|b|)
  {
    if b == [] then 0
    else
      var rest := FromLe(b[1..]);
      assert b[0] + 256 * rest <= 255 + 256 * (Pow256(|b| - 1) - 1);
      b[0] + 256 * rest
  }

  /** Decoding the encoding of a value that fits in n bytes gives the value back. */
  lemma {:induction false} FromLeToLe(v: nat, n: nat)
    requires v < Pow256(n)
    ensures FromLe(ToLe(v, n)) == v
  {
    if n > 0 {
      FromLeToLe(v / 256, n - 1);
      assert ToLe(v, n)[1..] == ToLe(v / 256, n - 1);
    }
  }

  /** Encoding the decoding of n bytes gives the same n bytes back. */
  lemma {:induction false} ToLeFromLe(b: seq<u8>)
    ensures ToLe(FromLe(b), |b|) == b
  {
    if b != [] {
      var rest := FromLe(b[1..]);
      assert FromLe(b) == b[0] + 256 * rest;
      assert FromLe(b) % 256 == b[0];
      assert FromLe(b) / 256 == rest;
      ToLeFromLe(b[1..]);
    }
  }

  /** Two values that fit in n bytes have the same encoding only if they are equal. */
  lemma ToLeInjective(v: nat, w: nat, n: nat)
    requires v < Pow256(n) && w < Pow256(n)
    requires ToLe(v, n) == ToLe(w, n)
    ensures v == w
  {
    FromLeToLe(v, n);
    FromLeToLe(w, n);
  }

  /** `u16::to_le_bytes`. */
  function EncodeU16(v: u16): (r: seq<u8>)
    ensures |r| == 2 && FromLe(r) == v
  {
    FromLeToLe(v, 2);
    ToLe(v, 2)
  }

  /** `u16::from_le_bytes`. */
  function DecodeU16(b: seq<u8>): (r: u16)
    requires |b| == 2
    ensures ToLe(r, 2) == b
  {
    ToLeFromLe(b);
    FromLe(b)
  }

  /** `u32::to_le_bytes`. */
  function EncodeU32(v: u32): (r: seq<u8>)
    ensures |r| == 4 && FromLe(r) == v
  {
    FromLeToLe(v, 4);
    ToLe(v, 4)
  }

  /** `u32::from_le_bytes`. */
  function DecodeU32(b: seq<u8>): (r: u32)
    requires |b| == 4
    ensures ToLe(r, 4) == b
  {
    ToLeFromLe(b);
    FromLe(b)
  }

  lemma DecodeEncodeU16(v: u16)
    ensures DecodeU16(EncodeU16(v)) == v
  {
  }

  lemma EncodeDecodeU16(b: seq<u8>)
    requires |b| == 2
    ensures EncodeU16(DecodeU16(b)) == b
  {
  }

  lemma DecodeEncodeU32(v: u32)
    ensures DecodeU32(EncodeU32(v)) == v
  {
  }

  lemma EncodeDecodeU32(b: seq<u8>)
    requires |b| == 4
    ensures EncodeU32(DecodeU32(b)) == b
  {
  }

  /** The least significant byte comes first. */
  lemma EncodeU32Example()
    ensures EncodeU32(0x0A0B_0C0D) == [0x0D, 0x0C, 0x0B, 0x0A]
  {
  }
}
