/** Bytes, fixed-width big-endian integers, and the error type every layer shares. */
module Bytes {

  type byte = x: int | 0 <= x < 256
  type u16 = x: int | 0 <= x < 0x1_0000
  type u32 = x: int | 0 <= x < 0x1_0000_0000
  type u64 = x: int | 0 <= x < 0x1_0000_0000_0000_0000

  datatype Option<+T> = None | Some(value: T)

  /** The error classes of the engine; the explanatory text of each is dropped. */
  datatype Error =
    | BadVersion
    | BadPacket
    | Encoding
    | NoCommonAlgorithm
    | KexFailed
    | Integrity
    | Protocol

  datatype Result<+T> = Ok(value: T) | Err(error: Error) {
    predicate IsFailure() { Err? }
    function PropagateFailure<U>(): Result<U> requires Err? { Err(error) }
    function Extract(): T requires Ok? { value }
  }

  function Pow256(n: nat): (p: nat)
    ensures p > 0
  {
    if n == 0 then 1 else 256 * Pow256(n - 1)
  }

  /** The low `width` bytes of `n`, most significant first. */
  function BigEndian(n: nat, width: nat): (b: seq<byte>)
    ensures |b| == width
  {
    if width == 0 then [] else BigEndian(n / 256, width - 1) + [n % 256]
  }

  /** Big-endian unsigned value. */
  function Value(s: seq<byte>): nat {
    if s == [] then 0 else 256 * Value(s[..|s| - 1]) + s[|s| - 1]
  }

  lemma {:induction false} ValueBelow(s: seq<byte>)
    ensures Value(s) < Pow256(|s|)
  {
    if s != [] {
      ValueBelow(s[..|s| - 1]);
    }
  }

  lemma {:induction false} BigEndianValue(n: nat, width: nat)
    requires n < Pow256(width)
    ensures Value(BigEndian(n, width)) == n
  {
    if width > 0 {
      BigEndianValue(n / 256, width - 1);
      var b := BigEndian(n, width);
      assert b[..width - 1] == BigEndian(n / 256, width - 1);
    }
  }

  /** Equal values in equal lengths are equal bytes. */
  lemma {:induction false} ValueInjective(a: seq<byte>, b: seq<byte>)
    requires |a| == |b| && Value(a) == Value(b)
    ensures a == b
  {
    if a != [] {
      var n := |a| - 1;
      ValueInjective(a[..n], b[..n]);
      assert a == a[..n] + [a[n]] && b == b[..n] + [b[n]];
    }
  }

  lemma Pow256Widths()
    ensures Pow256(4) == 0x1_0000_0000
    ensures Pow256(8) == 0x1_0000_0000_0000_0000
  {
    assert Pow256(2) == 0x1_0000;
    assert Pow256(4) == 0x1_0000_0000;
    assert Pow256(6) == 0x1_0000_0000_0000;
  }

  function Be32(n: u32): (b: seq<byte>)
    ensures |b| == 4
  {
    BigEndian(n, 4)
  }

  function FromBe32(b: seq<byte>): u32
    requires |b| == 4
  {
    ValueBelow(b);
    Pow256Widths();
    Value(b)
  }

  function Be64(n: u64): (b: seq<byte>)
    ensures |b| == 8
  {
    BigEndian(n, 8)
  }

  function FromBe64(b: seq<byte>): u64
    requires |b| == 8
  {
    ValueBelow(b);
    Pow256Widths();
    Value(b)
  }

  lemma Be32Inverse(n: u32)
    ensures FromBe32(Be32(n)) == n
  {
    Pow256Widths();
    BigEndianValue(n, 4);
  }

  lemma Be64Inverse(n: u64)
    ensures FromBe64(Be64(n)) == n
  {
    Pow256Widths();
    BigEndianValue(n, 8);
  }

  /** ASCII text as bytes: algorithm names, identification strings, escape sequences. */
  function Ascii(text: string): (b: seq<byte>)
    ensures |b| == |text|
    ensures forall i :: 0 <= i < |text| ==> b[i] == text[i] as int % 256
  {
    seq(|text|, i requires 0 <= i < |text| => text[i] as int % 256)
  }

  /** `n` bytes of a source indexed by position. */
  function Fill(n: nat, source: nat -> byte): (b: seq<byte>)
    ensures |b| == n
    ensures forall i :: 0 <= i < n ==> b[i] == source(i)
  {
    seq(n, i requires 0 <= i < n => source(i))
  }

  function Pow2(width: nat): (p: nat)
    ensures p > 0
  {
    if width == 0 then 1 else 2 * Pow2(width - 1)
  }

  /** Exclusive or of two numbers of `width` bits, bit by bit. */
  function XorBits(width: nat, a: nat, b: nat): (r: nat)
    ensures r < Pow2(width)
  {
    if width == 0 then 0
    else 2 * XorBits(width - 1, a / 2, b / 2) + (if a % 2 == b % 2 then 0 else 1)
  }

  lemma {:induction false} XorBitsTwice(width: nat, a: nat, k: nat)
    requires a < Pow2(width)
    ensures XorBits(width, XorBits(width, a, k), k) == a
  {
    if width > 0 {
      var low := if a % 2 == k % 2 then 0 else 1;
      var x := XorBits(width, a, k);
      assert x / 2 == XorBits(width - 1, a / 2, k / 2) && x % 2 == low;
      XorBitsTwice(width - 1, a / 2, k / 2);
    }
  }

  /** Exclusive or of two bytes, the way a stream cipher applies its keystream. */
  function Xor(a: byte, b: byte): byte {
    assert Pow2(8) == 256 by { assert Pow2(4) == 16; }
    XorBits(8, a, b)
  }

  lemma XorTwice(a: byte, k: byte)
    ensures Xor(Xor(a, k), k) == a
  {
    assert Pow2(8) == 256 by { assert Pow2(4) == 16; }
    XorBitsTwice(8, a, k);
  }
}
