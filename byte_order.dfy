/**
 * Big-endian byte images of machine words: the single place where a host value
 * becomes accelerator byte order (`cpu_to_be32`, `cpu_to_be64`, `iowrite32be`)
 * and where it is read back (`be32_to_cpu`, `ioread32be`).
 */
module ByteOrder {
  import opened Common

  type byte = x: int | 0 <= x < 256

  /** 256^n: the number of values an n-byte field can hold. */
  function Pow256(n: nat): (p: nat)
    ensures p >= 1
  {
    if n == 0 then 1 else 256 * Pow256(n - 1)
  }

  /** The n-byte big-endian image of x (most significant byte first). */
  function ToBigEndian(x: nat, n: nat): (b: seq<byte>)
    requires x < Pow256(n)
    ensures |b| == n
    decreases n
  {
    if n == 0 then []
    else
      assert x / 256 < Pow256(n - 1) by { DivBound(x, Pow256(n - 1)); }
      ToBigEndian(x / 256, n - 1) + [x % 256]
  }

  /** The value a big-endian byte string denotes. */
  function FromBigEndian(b: seq<byte>): (x: nat)
    ensures x < Pow256(|b|)
  {
    if b == [] then 0
    else
      var hi := FromBigEndian(b[..|b| - 1]);
      assert hi * 256 + b[|b| - 1] < Pow256(|b|) by { MulBound(hi, Pow256(|b| - 1), b[|b| - 1]); }
      hi * 256 + b[|b| - 1]
  }

  lemma DivBound(x: nat, p: nat)
    requires x < 256 * p
    ensures x / 256 < p
  {
  }

  lemma MulBound(hi: nat, p: nat, lo: byte)
    requires hi < p
    ensures hi * 256 + lo < 256 * p
  {
  }

  /** Reading back a big-endian image yields the original value. */
  lemma {:induction false} DecodeEncode(x: nat, n: nat)
    requires x < Pow256(n)
    ensures FromBigEndian(ToBigEndian(x, n)) == x
    decreases n
  {
    if n > 0 {
      DivBound(x, Pow256(n - 1));
      var b := ToBigEndian(x, n);
      assert b[..n - 1] == ToBigEndian(x / 256, n - 1);
      DecodeEncode(x / 256, n - 1);
    }
  }

  /** Writing back a value read from a byte string reproduces the bytes. */
  lemma {:induction false} EncodeDecode(b: seq<byte>)
    ensures ToBigEndian(FromBigEndian(b), |b|) == b
  {
    if b != [] {
      var n := |b|;
      var hi := FromBigEndian(b[..n - 1]);
      var x := FromBigEndian(b);
      assert x / 256 == hi && x % 256 == b[n - 1];
      EncodeDecode(b[..n - 1]);
      assert b == b[..n - 1] + [b[n - 1]];
    }
  }

  /** Two values have the same image only if they are equal. */
  lemma EncodeInjective(x: nat, y: nat, n: nat)
    requires x < Pow256(n) && y < Pow256(n)
    requires ToBigEndian(x, n) == ToBigEndian(y, n)
    ensures x == y
  {
    DecodeEncode(x, n);
    DecodeEncode(y, n);
  }

  /** `cpu_to_be32` / `iowrite32be`: the four bytes a 32-bit word occupies in device memory. */
  function Be32(x: u32): (b: seq<byte>)
    ensures |b| == 4 && FromBigEndian(b) == x
  {
    assert Pow256(4) == TWO_32;
    DecodeEncode(x, 4);
    ToBigEndian(x, 4)
  }

  /** `cpu_to_be64`: the eight bytes a 64-bit address occupies in device memory. */
  function Be64(x: u64): (b: seq<byte>)
    ensures |b| == 8 && FromBigEndian(b) == x
  {
    assert Pow256(8) == TWO_64;
    DecodeEncode(x, 8);
    ToBigEndian(x, 8)
  }

  /** `ioread32be`: the 32-bit word the four bytes at `off` denote. */
  function ReadBe32(mem: seq<byte>, off: nat): (x: u32)
    requires off + 4 <= |mem|
    ensures Be32(x) == mem[off..off + 4]
  {
    var b := mem[off..off + 4];
    assert Pow256(4) == TWO_32;
    EncodeDecode(b);
    FromBigEndian(b)
  }
}
