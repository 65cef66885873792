/**
 * The routing engine's tie-break hash: 32-bit FNV-1a over the UTF-8 bytes
 * of the payment-intent id's text, computed in Java `int` arithmetic
 * (wrap-around modulo 2^32), and the bucket `Math.floorMod(hash, 2)`.
 */
module Fnv {

  /** An unsigned byte. */
  newtype byte = x: int | 0 <= x < 256

  const FNV_OFFSET: bv32 := 0x811c9dc5
  const FNV_PRIME: bv32 := 0x01000193

  /** The UTF-8 encoding of one Unicode scalar value (RFC 3629, section 3). */
  function Utf8Char(c: char): (r: seq<byte>)
    ensures 1 <= |r| <= 4
    ensures (c as int < 0x80) <==> |r| == 1
  {
    var v := c as int;
    if v < 0x80 then [v as byte]
    else if v < 0x800 then [(0xC0 + v / 0x40) as byte, (0x80 + v % 0x40) as byte]
    else if v < 0x10000 then
      [(0xE0 + v / 0x1000) as byte, (0x80 + (v / 0x40) % 0x40) as byte, (0x80 + v % 0x40) as byte]
    else
      [(0xF0 + v / 0x40000) as byte, (0x80 + (v / 0x1000) % 0x40) as byte,
       (0x80 + (v / 0x40) % 0x40) as byte, (0x80 + v % 0x40) as byte]
  }

  /** `s.getBytes(StandardCharsets.UTF_8)` */
  function Utf8(s: string): (r: seq<byte>)
    ensures |r| >= |s|
  {
    if s == [] then [] else Utf8Char(s[0]) + Utf8(s[1..])
  }

  /** ASCII text (such as a UUID's canonical form) encodes one byte per character. */
  lemma {:induction false} Utf8Ascii(s: string)
    requires forall i :: 0 <= i < |s| ==> s[i] as int < 0x80
    ensures |Utf8(s)| == |s|
    ensures forall i :: 0 <= i < |s| ==> Utf8(s)[i] as int == s[i] as int
  {
    if s != [] {
      assert Utf8Char(s[0]) == [s[0] as int as byte];
      Utf8Ascii(s[1..]);
    }
  }

  /** One round of FNV-1a: XOR the byte in, then multiply by the prime (mod 2^32). */
  function Step(h: bv32, b: byte): bv32 {
    (h ^ (b as bv32)) * FNV_PRIME
  }

  /** FNV-1a-32 of a byte string, byte by byte from the first. */
  function Hash(bs: seq<byte>): bv32
    decreases |bs|
  {
    if bs == [] then FNV_OFFSET else Step(Hash(bs[..|bs| - 1]), bs[|bs| - 1])
  }

  /** The published FNV-1a-32 test vectors for "" and "a". */
  lemma KnownVectors()
    ensures Hash([]) == 0x811c9dc5
    ensures Hash(Utf8("a")) == 0xe40c292c
  {
    Utf8OfA();
    HashOfA();
  }

  lemma Utf8OfA()
    ensures Utf8("a") == [0x61]
  {
    assert "a"[1..] == [];
  }

  lemma HashOfA()
    ensures Hash([0x61]) == 0xe40c292c
  {
    assert [0x61 as byte][..0] == [];
    assert Hash([0x61]) == Step(FNV_OFFSET, 0x61);
  }

  /** Java's view of a 32-bit pattern as a signed `int`. */
  function ToSigned(h: bv32): (r: int)
    ensures -0x8000_0000 <= r < 0x8000_0000
    ensures r == h as int || r == h as int - 0x1_0000_0000
  {
    if h as int >= 0x8000_0000 then h as int - 0x1_0000_0000 else h as int
  }

  /** `fnv1a32(s)`: the loop over the UTF-8 bytes, returning a Java `int`. */
  method Fnv1a32(s: string) returns (hash: int)
    ensures hash == ToSigned(Hash(Utf8(s)))
  {
    var bytes := Utf8(s);
    var h: bv32 := FNV_OFFSET;
    var i := 0;
    while i < |bytes|
      invariant 0 <= i <= |bytes|
      invariant h == Hash(bytes[..i])
    {
      assert bytes[..i + 1][..i] == bytes[..i];
      h := Step(h, bytes[i]);
      i := i + 1;
    }
    assert bytes[..i] == bytes;
    hash := ToSigned(h);
  }

  /** `Math.floorMod(x, m)` for a positive divisor: the remainder with the
      sign of the divisor. */
  function FloorMod(x: int, m: int): (r: int)
    requires m > 0
    ensures 0 <= r < m
  {
    x % m
  }

  /** The tie-break bucket is the hash's lowest bit, whatever its sign. */
  lemma BucketIsLowBit(h: bv32)
    ensures FloorMod(ToSigned(h), 2) == (h as int) % 2
  {
    var u := h as int;
    if ToSigned(h) != u {
      assert ToSigned(h) == u - 0x1_0000_0000;
      ShiftKeepsParity(u);
    }
  }

  lemma ShiftKeepsParity(u: int)
    ensures (u - 0x1_0000_0000) % 2 == u % 2
  {
  }
}
