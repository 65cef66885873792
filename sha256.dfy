/**
 * The SHA-256 hex text used to store API-key hashes: each digest byte as two
 * lowercase hexadecimal digits, high nibble first. The digest itself is
 * FIPS 180-4 SHA-256 and is a parameter here: all that is used of it is that
 * it is 32 bytes long.
 */
module Sha256 {
  import opened Wrappers
  import opened Fnv
  import opened Queries

  /** `Character.forDigit(v, 16)`: '0'-'9' then 'a'-'f'. */
  function HexDigit(v: int): (c: char)
    requires 0 <= v < 16
    ensures ('0' <= c <= '9') || ('a' <= c <= 'f')
  {
    if v < 10 then ('0' as int + v) as char else ('a' as int + v - 10) as char
  }

  /** The value of a lowercase hex digit. */
  function HexValue(c: char): (r: Option<int>)
    ensures r.Some? ==> 0 <= r.value < 16 && HexDigit(r.value) == c
    ensures r.None? <==> !(('0' <= c <= '9') || ('a' <= c <= 'f'))
  {
    if '0' <= c <= '9' then Some(c as int - '0' as int)
    else if 'a' <= c <= 'f' then Some(c as int - 'a' as int + 10)
    else None
  }

  lemma HexDigitValue(v: int)
    requires 0 <= v < 16
    ensures HexValue(HexDigit(v)) == Some(v)
  {
  }

  /** The two digits of one byte. `(b >> 4) & 0xF` on Java's signed byte is
      the high nibble of the byte's unsigned value, and `b & 0xF` the low one. */
  function ByteHex(b: byte): (r: string)
    ensures |r| == 2
  {
    [HexDigit(b as int / 16), HexDigit(b as int % 16)]
  }

  /** The text the StringBuilder holds after the given bytes. */
  function HexText(bytes: seq<byte>): (s: string)
    ensures |s| == 2 * |bytes|
  {
    if bytes == [] then "" else HexText(bytes[..|bytes| - 1]) + ByteHex(bytes[|bytes| - 1])
  }

  /** Byte `k` becomes characters `2k` (its high nibble) and `2k + 1` (its low nibble). */
  lemma {:induction false} HexTextDigitOrder(bytes: seq<byte>, k: int)
    requires 0 <= k < |bytes|
    ensures HexText(bytes)[2 * k] == HexDigit(bytes[k] as int / 16)
    ensures HexText(bytes)[2 * k + 1] == HexDigit(bytes[k] as int % 16)
    decreases |bytes|
  {
    var n := |bytes| - 1;
    if k < n {
      HexTextDigitOrder(bytes[..n], k);
      assert bytes[..n][k] == bytes[k];
    }
  }

  /** Every character is a lowercase hex digit. */
  lemma HexTextDigits(bytes: seq<byte>)
    ensures forall i :: 0 <= i < |HexText(bytes)| ==> HexValue(HexText(bytes)[i]).Some?
  {
    var s := HexText(bytes);
    forall i | 0 <= i < |s| ensures HexValue(s[i]).Some? {
      var k := i / 2;
      HexTextDigitOrder(bytes, k);
      assert i == 2 * k || i == 2 * k + 1;
    }
  }

  /** Reading hex text back two digits at a time. */
  function Unhex(s: string): (r: Option<seq<byte>>)
    decreases |s|
  {
    if |s| == 0 then Some([])
    else if |s| == 1 then None
    else
      var n := |s| - 2;
      match (Unhex(s[..n]), HexValue(s[n]), HexValue(s[n + 1]))
      case (Some(prefix), Some(hi), Some(lo)) => Some(prefix + [(hi * 16 + lo) as byte])
      case _ => None
  }

  /** Appending the two digits of a byte appends that byte to what is read. */
  lemma UnhexSnoc(p: string, q: seq<byte>, b: byte)
    requires Unhex(p) == Some(q)
    ensures Unhex(p + ByteHex(b)) == Some(q + [b])
  {
    var s := p + ByteHex(b);
    var x := b as int;
    HexDigitValue(x / 16);
    HexDigitValue(x % 16);
    assert s[..|p|] == p;
    assert s[|p|] == HexDigit(x / 16) && s[|p| + 1] == HexDigit(x % 16);
  }

  /** `toHex` loses nothing: reading the text back gives the bytes. */
  lemma {:induction false} UnhexHexText(bytes: seq<byte>)
    ensures Unhex(HexText(bytes)) == Some(bytes)
    decreases |bytes|
  {
    if bytes != [] {
      var n := |bytes| - 1;
      UnhexHexText(bytes[..n]);
      SplitLast(bytes);
      assert HexText(bytes) == HexText(bytes[..n]) + ByteHex(bytes[n]);
      UnhexSnoc(HexText(bytes[..n]), bytes[..n], bytes[n]);
    }
  }

  /** Different bytes give different text. */
  lemma HexTextInjective(a: seq<byte>, b: seq<byte>)
    requires HexText(a) == HexText(b)
    ensures a == b
  {
    UnhexHexText(a);
    UnhexHexText(b);
  }

  /** `toHex`: one pass over the bytes appending two digits each. */
  method ToHex(bytes: seq<byte>) returns (s: string)
    ensures s == HexText(bytes)
  {
    s := "";
    var i := 0;
    while i < |bytes|
      invariant 0 <= i <= |bytes|
      invariant s == HexText(bytes[..i])
    {
      var b := bytes[i];
      s := s + [HexDigit(b as int / 16)];
      s := s + [HexDigit(b as int % 16)];
      assert bytes[..i + 1][..i] == bytes[..i];
      i := i + 1;
    }
    assert bytes[..i] == bytes;
  }

  /** A SHA-256 digest: 32 bytes. */
  type Digest = d: seq<byte> | |d| == 32 witness seq(32, _ => 0)

  /** `hex`: the digest of the UTF-8 bytes of the input, as 64 hex digits. */
  method Hex(input: string, digest: seq<byte> -> Digest) returns (h: string)
    ensures h == HexText(digest(Utf8(input)))
    ensures |h| == 64
  {
    var hashed := digest(Utf8(input));
    h := ToHex(hashed);
  }
}
