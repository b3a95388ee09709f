/** Bytes and the little-endian layout of unsigned integers. */
module Bytes {
  newtype byte = x: int | 0 <= x < 256

  /** 256 to the power `n`: the number of values `n` bytes can hold. */
  function Pow256(n: nat): (p: nat)
    ensures p >= 1
  {
    if n == 0 then 1 else 256 * Pow256(n - 1)
  }

  /** `to_le_bytes`: `width` bytes, least significant first. */
  function LE(v: nat, width: nat): (bs: seq<byte>)
    requires v < Pow256(width)
    ensures |bs| == width
  {
    if width == 0 then [] else [(v % 256) as byte] + LE(v / 256, width - 1)
  }

  /** `from_le`: the unsigned value of bytes stored least significant first. */
  function FromLE(bs: seq<byte>): (v: nat)
    ensures v < Pow256(|bs|)
  {
    if bs == [] then 0 else bs[0] as nat + 256 * FromLE(bs[1..])
  }

  /** Reading back what was written gives the value. */
  lemma {:induction false} FromLEOfLE(v: nat, width: nat)
    requires v < Pow256(width)
    ensures FromLE(LE(v, width)) == v
    decreases width
  {
    if width > 0 {
      FromLEOfLE(v / 256, width - 1);
      assert LE(v, width)[1..] == LE(v / 256, width - 1);
    }
  }

  /** Writing back what was read gives the bytes: the layout is a bijection. */
  lemma {:induction false} LEOfFromLE(bs: seq<byte>)
    ensures LE(FromLE(bs), |bs|) == bs
    decreases |bs|
  {
    if bs != [] {
      LEOfFromLE(bs[1..]);
      var v := FromLE(bs);
      assert v % 256 == bs[0] as nat && v / 256 == FromLE(bs[1..]);
    }
  }

  /** Single bytes are written as themselves. */
  lemma OneByteLE(b: byte)
    ensures LE(b as nat, 1) == [b]
  {
  }

  /** The unsigned value of a u32 that holds an i32: two's complement, as `as u32` does. */
  function I32ToU32(v: int): (u: nat)
    requires -0x8000_0000 <= v < 0x8000_0000
    ensures u < 0x1_0000_0000
    ensures 0 <= v ==> u == v
    ensures v < 0 ==> u == v + 0x1_0000_0000
  {
    v % 0x1_0000_0000
  }

  /** The i32 a u32 holds, as `as i32` does. */
  function U32ToI32(u: nat): (v: int)
    requires u < 0x1_0000_0000
    ensures -0x8000_0000 <= v < 0x8000_0000
  {
    if u < 0x8000_0000 then u else u - 0x1_0000_0000
  }

  /** Casting an i32 to u32 and back restores it. */
  lemma I32RoundTrip(v: int)
    requires -0x8000_0000 <= v < 0x8000_0000
    ensures U32ToI32(I32ToU32(v)) == v
  {
  }

  /** Casting a u32 to i32 and back restores it: no bit is lost either way. */
  lemma U32RoundTrip(u: nat)
    requires u < 0x1_0000_0000
    ensures I32ToU32(U32ToI32(u)) == u
  {
  }

  /** The UTF-8 bytes of an ASCII string, one byte per character. */
  function Ascii(s: string): (bs: seq<byte>)
    requires forall i :: 0 <= i < |s| ==> s[i] < 128 as char
    ensures |bs| == |s|
    ensures forall i :: 0 <= i < |s| ==> bs[i] as int == s[i] as int
  {
    if s == [] then [] else [s[0] as int as byte] + Ascii(s[1..])
  }
}
