/**
 Octets, 32-bit words and the fixed-width arithmetic shared by the gateware and
 the firmware.

 Every bus in the design carries 32-bit words that are only ever cut at octet
 boundaries, so a word is kept as its four octets: b0 is bits 7:0 and travels
 first on the wire, b3 is bits 31:24.
 */
module Bytes {

  type Byte = n: nat | n < 256

  type Word32 = n: nat | n < 0x1_0000_0000

  type Mac = s: seq<Byte> | |s| == 6 witness [0, 0, 0, 0, 0, 0]

  /** An EUI-64: a stream or entity identifier. */
  type Eui64 = s: seq<Byte> | |s| == 8 witness [0, 0, 0, 0, 0, 0, 0, 0]

  datatype Option<T> = None | Some(value: T)

  datatype Word = Word(b0: Byte, b1: Byte, b2: Byte, b3: Byte)

  /** One transfer of a LiteEth stream. */
  datatype Beat = Beat(data: Word, lastBe: nat, error: nat, last: bool)

  const ZERO_WORD := Word(0, 0, 0, 0)

  /** Truncation of an unsigned value to 32, 16 and 8 bits. */
  function U32(n: int): Word32 { n % 0x1_0000_0000 }

  function U16(n: int): (r: nat)
    ensures r < 0x1_0000
  {
    n % 0x1_0000
  }

  function U8(n: int): Byte { n % 256 }

  /** A value reinterpreted as a signed two's-complement integer of 32 or 64 bits. */
  function S32(n: int): (r: int)
    ensures -0x8000_0000 <= r < 0x8000_0000
  {
    var m := n % 0x1_0000_0000;
    if m < 0x8000_0000 then m else m - 0x1_0000_0000
  }

  function S64(n: int): (r: int)
    ensures -0x8000_0000_0000_0000 <= r < 0x8000_0000_0000_0000
  {
    var m := n % 0x1_0000_0000_0000_0000;
    if m < 0x8000_0000_0000_0000 then m else m - 0x1_0000_0000_0000_0000
  }

  /** Division in C: the quotient is truncated toward zero. */
  function TruncDiv(a: int, b: int): int
    requires b > 0
  {
    if a >= 0 then a / b else -((-a) / b)
  }

  function Abs(a: int): nat { if a < 0 then -a else a }

  function Min(a: int, b: int): int { if a < b then a else b }

  /** Octets of a value, most significant first. */
  function Be16(v: nat): (s: seq<Byte>)
    requires v < 0x1_0000
    ensures |s| == 2
  {
    [v / 256, v % 256]
  }

  function Be32(v: nat): (s: seq<Byte>)
    requires v < 0x1_0000_0000
    ensures |s| == 4
  {
    Be16(v / 0x1_0000) + Be16(v % 0x1_0000)
  }

  function FromBe16(s: seq<Byte>): (v: nat)
    requires |s| == 2
    ensures v < 0x1_0000
  {
    s[0] as int * 256 + s[1] as int
  }

  function FromBe32(s: seq<Byte>): (v: nat)
    requires |s| == 4
    ensures v < 0x1_0000_0000
  {
    FromBe16(s[..2]) * 0x1_0000 + FromBe16(s[2..])
  }

  lemma Be16RoundTrip(v: nat)
    requires v < 0x1_0000
    ensures FromBe16(Be16(v)) == v
  {
  }

  lemma Be32RoundTrip(v: nat)
    requires v < 0x1_0000_0000
    ensures FromBe32(Be32(v)) == v
  {
    var hi, lo := v / 0x1_0000, v % 0x1_0000;
    Be16RoundTrip(hi);
    Be16RoundTrip(lo);
    assert Be32(v)[..2] == Be16(hi) && Be32(v)[2..] == Be16(lo);
  }

  lemma Be16Inverse(s: seq<Byte>)
    requires |s| == 2
    ensures Be16(FromBe16(s)) == s
  {
  }

  lemma Be32Inverse(s: seq<Byte>)
    requires |s| == 4
    ensures Be32(FromBe32(s)) == s
  {
    var hi, lo := FromBe16(s[..2]), FromBe16(s[2..]);
    assert FromBe32(s) / 0x1_0000 == hi && FromBe32(s) % 0x1_0000 == lo;
    Be16Inverse(s[..2]);
    Be16Inverse(s[2..]);
  }

  /** A free-running counter and its truncation stay in step. */
  lemma Wrap32(n: nat)
    ensures U32(U32(n) + 1) == U32(n + 1)
  {
    var q, r := n / 0x1_0000_0000, n % 0x1_0000_0000;
    assert n == q * 0x1_0000_0000 + r;
    if r == 0xFFFF_FFFF {
      assert n + 1 == (q + 1) * 0x1_0000_0000;
    }
  }

  /** So does what is added to it. */
  lemma WrapAdd32(a: nat, b: nat)
    ensures U32(U32(a) + b) == U32(a + b)
  {
    var q := a / 0x1_0000_0000;
    assert a == q * 0x1_0000_0000 + U32(a);
  }

  lemma Wrap8(n: nat)
    ensures U8(U8(n) + 1) == U8(n + 1)
  {
    var q, r := n / 256, n % 256;
    assert n == q * 256 + r;
    if r == 255 {
      assert n + 1 == (q + 1) * 256;
    }
  }
}
