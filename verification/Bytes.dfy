/** Fixed-width unsigned integers and their big-endian byte strings. */
module Bytes {

  type u8 = x: int | 0 <= x < 0x100
  type u16 = x: int | 0 <= x < 0x1_0000
  type u32 = x: int | 0 <= x < 0x1_0000_0000
  type u64 = x: int | 0 <= x < 0x1_0000_0000_0000_0000

  const U64_MAX: u64 := 0xFFFF_FFFF_FFFF_FFFF

  datatype Option<+T> = None | Some(value: T)

  function Pow256(n: nat): (p: nat)
    ensures p > 0
  {
    if n == 0 then 1 else 256 * Pow256(n - 1)
  }

  /** The n low-order bytes of v, most significant first. */
  function ToBytes(v: nat, n: nat): (bs: seq<u8>)
    ensures |bs| == n
  {
    if n == 0 then [] else ToBytes(v / 256, n - 1) + [v % 256]
  }

  /** The number a most-significant-first byte string denotes. */
  function FromBytes(bs: seq<u8>): (v: nat)
    ensures v < Pow256(|bs|)
  {
    if bs == [] then 0 else FromBytes(bs[..|bs| - 1]) * 256 + bs[|bs| - 1]
  }

  lemma {:induction false} FromToBytes(v: nat, n: nat)
    requires v < Pow256(n)
    ensures FromBytes(ToBytes(v, n)) == v
  {
    if n > 0 {
      FromToBytes(v / 256, n - 1);
      assert ToBytes(v, n)[..n - 1] == ToBytes(v / 256, n - 1);
    }
  }

  lemma {:induction false} ToFromBytes(bs: seq<u8>)
    ensures ToBytes(FromBytes(bs), |bs|) == bs
  {
    if bs != [] {
      var front := bs[..|bs| - 1];
      ToFromBytes(front);
      assert FromBytes(bs) / 256 == FromBytes(front);
    }
  }

  /** Byte i of the encoding is the value shifted right by the bytes that follow it, masked to
      eight bits, which is how the encoders compute it. */
  lemma {:induction false} ByteAt(v: nat, n: nat, i: nat)
    requires i < n
    ensures ToBytes(v, n)[i] == (v / Pow256(n - 1 - i)) % 256
  {
    if i < n - 1 {
      ByteAt(v / 256, n - 1, i);
      DivDiv(v, Pow256(n - 2 - i));
    }
  }

  lemma DivDiv(v: nat, p: nat)
    requires p > 0
    ensures (v / 256) / p == v / (256 * p)
  {
    var q, r := v / (256 * p), v % (256 * p);
    assert v == 256 * (p * q) + r;
    assert v / 256 == p * q + r / 256;
    assert r / 256 < p;
    DivUnique(v / 256, p, q, r / 256);
  }

  lemma DivUnique(a: nat, p: nat, q: nat, r: nat)
    requires p > 0 && a == p * q + r && r < p
    ensures a / p == q
  {
    var d: int := a / p - q;
    assert p * d + a % p == r by {
      assert a == p * (a / p) + a % p;
      assert p * (a / p) == p * q + p * d;
    }
    SmallMultiple(p, d);
  }

  lemma SmallMultiple(p: nat, d: int)
    requires p > 0
    ensures d >= 1 ==> p * d >= p
    ensures d <= -1 ==> p * d <= 0 - p
  {
  }

  lemma {:induction false} WidthBounds()
    ensures Pow256(1) == 0x100 && Pow256(2) == 0x1_0000 && Pow256(4) == 0x1_0000_0000
    ensures Pow256(8) == 0x1_0000_0000_0000_0000
  {
    assert Pow256(3) == 0x100_0000;
    assert Pow256(5) == 0x100_0000_0000;
    assert Pow256(6) == 0x1_0000_0000_0000;
    assert Pow256(7) == 0x100_0000_0000_0000;
  }

  lemma {:induction false} Pow256Monotone(m: nat, n: nat)
    requires m <= n
    ensures Pow256(m) <= Pow256(n)
    decreases n - m
  {
    if m < n {
      Pow256Monotone(m + 1, n);
    }
  }

  /** detail::write_be64: eight shift-and-mask stores at out + offset. */
  method WriteBe64(out: array<u8>, offset: nat, value: u64)
    requires offset + 8 <= out.Length
    modifies out
    ensures out[..] == old(out[..offset]) + ToBytes(value, 8) + old(out[offset + 8..])
  {
    for i := 0 to 8
      invariant forall k :: 0 <= k < i ==> out[offset + k] == ToBytes(value, 8)[k]
      invariant forall k :: 0 <= k < out.Length && !(offset <= k < offset + i) ==> out[k] == old(out[k])
    {
      ByteAt(value, 8, i);
      out[offset + i] := (value / Pow256(7 - i)) % 256;
    }
    forall k | offset <= k < offset + 8
      ensures out[k] == ToBytes(value, 8)[k - offset]
    {
      assert out[offset + (k - offset)] == ToBytes(value, 8)[k - offset];
    }
  }

  /** detail::write_be32. */
  method WriteBe32(out: array<u8>, offset: nat, value: u32)
    requires offset + 4 <= out.Length
    modifies out
    ensures out[..] == old(out[..offset]) + ToBytes(value, 4) + old(out[offset + 4..])
  {
    WidthBounds();
    ByteAt(value, 4, 0);
    ByteAt(value, 4, 1);
    ByteAt(value, 4, 2);
    ByteAt(value, 4, 3);
    assert Pow256(3) == 0x100_0000;
    hide ToBytes, Pow256;
    out[offset] := (value / 0x100_0000) % 256;
    out[offset + 1] := (value / 0x1_0000) % 256;
    out[offset + 2] := (value / 0x100) % 256;
    out[offset + 3] := value % 256;
  }

  /** detail::write_be16. */
  method WriteBe16(out: array<u8>, offset: nat, value: u16)
    requires offset + 2 <= out.Length
    modifies out
    ensures out[..] == old(out[..offset]) + ToBytes(value, 2) + old(out[offset + 2..])
  {
    WidthBounds();
    ByteAt(value, 2, 0);
    ByteAt(value, 2, 1);
    out[offset] := (value / 0x100) % 256;
    out[offset + 1] := value % 256;
  }

  /** detail::read_be64: shift left by eight, drop what leaves the 64-bit word, or in a byte. No bit
      is ever dropped, because only eight bytes are read. */
  method ReadBe64(bytes: seq<u8>, offset: nat) returns (value: u64)
    requires offset + 8 <= |bytes|
    ensures value == FromBytes(bytes[offset..offset + 8])
  {
    WidthBounds();
    value := 0;
    for i := 0 to 8
      invariant value == FromBytes(bytes[offset..offset + i])
    {
      var read := bytes[offset..offset + i + 1];
      assert read[..i] == bytes[offset..offset + i];
      Pow256Monotone(i + 1, 8);
      assert FromBytes(read) == value * 256 + bytes[offset + i];
      value := (value * 256) % 0x1_0000_0000_0000_0000 + bytes[offset + i];
    }
  }

  /** detail::read_be32. */
  function ReadBe32(bytes: seq<u8>, offset: nat): (value: u32)
    requires offset + 4 <= |bytes|
    ensures value == FromBytes(bytes[offset..offset + 4])
  {
    var word := bytes[offset..offset + 4];
    var b0, b1, b2, b3: int := word[0], word[1], word[2], word[3];
    assert word[..3][..2][..1][..0] == [];
    assert FromBytes(word[..3][..2][..1]) == b0;
    assert FromBytes(word[..3][..2]) == b0 * 0x100 + b1;
    assert FromBytes(word[..3]) == b0 * 0x1_0000 + b1 * 0x100 + b2;
    b0 * 0x100_0000 + b1 * 0x1_0000 + b2 * 0x100 + b3
  }

  /** detail::read_be16. */
  function ReadBe16(bytes: seq<u8>, offset: nat): (value: u16)
    requires offset + 2 <= |bytes|
    ensures value == FromBytes(bytes[offset..offset + 2])
  {
    var word := bytes[offset..offset + 2];
    var b0, b1: int := word[0], word[1];
    assert word[..1][..0] == [] && FromBytes(word[..1]) == b0;
    b0 * 0x100 + b1
  }
}
