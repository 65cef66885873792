/**
 * Base64 as RFC 4648 defines it: the standard alphabet of section 4 and the
 * URL- and filename-safe alphabet of section 5, each with or without '='
 * padding. The JDK encoders and the unpadded URL-safe decoder used for
 * encryption tokens are modelled here; the Node.js decoder used by the dev
 * script is modelled by the length it produces.
 */
module Base64 {
  import opened Wrappers
  import opened Fnv

  datatype Alphabet = Standard | UrlSafe

  /** The character for a 6-bit value. */
  function SextetChar(a: Alphabet, v: int): (c: char)
    requires 0 <= v < 64
  {
    if v < 26 then ('A' as int + v) as char
    else if v < 52 then ('a' as int + v - 26) as char
    else if v < 62 then ('0' as int + v - 52) as char
    else if v == 62 then (if a == Standard then '+' else '-')
    else (if a == Standard then '/' else '_')
  }

  /** The 6-bit value of a character of the alphabet, if it is one. */
  function SextetValue(a: Alphabet, c: char): (r: Option<int>)
    ensures r.Some? ==> 0 <= r.value < 64 && SextetChar(a, r.value) == c
  {
    if 'A' <= c <= 'Z' then Some(c as int - 'A' as int)
    else if 'a' <= c <= 'z' then Some(c as int - 'a' as int + 26)
    else if '0' <= c <= '9' then Some(c as int - '0' as int + 52)
    else if c == (if a == Standard then '+' else '-') then Some(62)
    else if c == (if a == Standard then '/' else '_') then Some(63)
    else None
  }

  /** The alphabet is a bijection between 6-bit values and its characters. */
  lemma SextetRoundTrip(a: Alphabet, v: int)
    requires 0 <= v < 64
    ensures SextetValue(a, SextetChar(a, v)) == Some(v)
  {
  }

  predicate InAlphabet(a: Alphabet, c: char) {
    SextetValue(a, c).Some?
  }

  /** Neither alphabet contains ':' or '='. */
  lemma SeparatorsNotInAlphabet(a: Alphabet)
    ensures !InAlphabet(a, ':') && !InAlphabet(a, '=')
  {
  }

  /** Four characters per three bytes; without padding a final group of one
      or two bytes takes two or three characters. */
  function EncodedLength(n: nat, pad: bool): nat {
    if pad then 4 * ((n + 2) / 3) else (4 * n + 2) / 3
  }

  predicate AllInAlphabet(a: Alphabet, s: string) {
    forall k :: 0 <= k < |s| ==> InAlphabet(a, s[k])
  }

  /** Three bytes as four characters. */
  function Quad(a: Alphabet, x: byte, y: byte, z: byte): (q: string)
    ensures |q| == 4 && AllInAlphabet(a, q)
  {
    var c0 := SextetChar(a, x as int / 4);
    var c1 := SextetChar(a, (x as int % 4) * 16 + y as int / 16);
    var c2 := SextetChar(a, (y as int % 16) * 4 + z as int / 64);
    var c3 := SextetChar(a, z as int % 64);
    SextetRoundTrip(a, x as int / 4);
    SextetRoundTrip(a, (x as int % 4) * 16 + y as int / 16);
    SextetRoundTrip(a, (y as int % 16) * 4 + z as int / 64);
    SextetRoundTrip(a, z as int % 64);
    [c0, c1, c2, c3]
  }

  /** A final group of one or two bytes, as two or three characters. */
  function Tail(a: Alphabet, b: seq<byte>): (t: string)
    requires 1 <= |b| <= 2
    ensures |t| == |b| + 1 && AllInAlphabet(a, t)
  {
    var x := b[0] as int;
    var y := if |b| == 2 then b[1] as int else 0;
    var c0 := SextetChar(a, x / 4);
    var c1 := SextetChar(a, (x % 4) * 16 + y / 16);
    SextetRoundTrip(a, x / 4);
    SextetRoundTrip(a, (x % 4) * 16 + y / 16);
    if |b| == 1 then [c0, c1]
    else
      SextetRoundTrip(a, (y % 16) * 4);
      [c0, c1, SextetChar(a, (y % 16) * 4)]
  }

  /** The characters of the encoding, without padding. */
  function Unpadded(a: Alphabet, b: seq<byte>): (s: string)
    ensures |s| == (4 * |b| + 2) / 3 && AllInAlphabet(a, s)
    decreases |b|
  {
    if |b| == 0 then ""
    else if |b| <= 2 then Tail(a, b)
    else
      var q := Quad(a, b[0], b[1], b[2]);
      var rest := Unpadded(a, b[3..]);
      assert forall k :: 4 <= k < |q + rest| ==> (q + rest)[k] == rest[k - 4];
      q + rest
  }

  /** The '=' that complete the last group of four. */
  function PadFor(n: nat): (p: string)
    ensures forall k :: 0 <= k < |p| ==> p[k] == '='
  {
    if n % 3 == 1 then "==" else if n % 3 == 2 then "=" else ""
  }

  /** The padding makes up a whole number of groups of four; the unpadded
      length leaves 2 or 3 characters in the last group when there is padding. */
  lemma PaddedLength(n: nat)
    ensures (4 * n + 2) / 3 + |PadFor(n)| == 4 * ((n + 2) / 3)
    ensures |PadFor(n)| == 1 ==> ((4 * n + 2) / 3) % 4 == 3
    ensures |PadFor(n)| == 2 ==> ((4 * n + 2) / 3) % 4 == 2
  {
    var m, r := n / 3, n % 3;
    assert n == 3 * m + r;
    if r == 0 {
      assert 4 * n + 2 == 3 * (4 * m) + 2;
      assert n + 2 == 3 * m + 2;
    } else if r == 1 {
      assert 4 * n + 2 == 3 * (4 * m + 2);
      assert n + 2 == 3 * (m + 1);
    } else {
      assert 4 * n + 2 == 3 * (4 * m + 3) + 1;
      assert n + 2 == 3 * (m + 1) + 1;
    }
  }

  /** `Base64.getEncoder()` / `getUrlEncoder()`, optionally `withoutPadding()`. */
  function Encode(a: Alphabet, pad: bool, b: seq<byte>): (s: string)
    ensures |s| == EncodedLength(|b|, pad)
    ensures forall k :: 0 <= k < |s| ==> InAlphabet(a, s[k]) || (pad && s[k] == '=')
  {
    var u := Unpadded(a, b);
    var p := if pad then PadFor(|b|) else "";
    PaddedLength(|b|);
    assert forall k :: |u| <= k < |u + p| ==> (u + p)[k] == p[k - |u|];
    u + p
  }

  /** Decoding of unpadded text: four characters give three bytes, a final
      two or three give one or two, and a final single character or any
      character outside the alphabet is refused. */
  function Decode(a: Alphabet, s: string): (r: Option<seq<byte>>)
    ensures |s| % 4 == 1 ==> r.None?
    ensures r.Some? ==> |r.value| == 3 * |s| / 4
    decreases |s|
  {
    if |s| == 0 then Some([])
    else if |s| == 1 then None
    else
      var v0, v1 := SextetValue(a, s[0]), SextetValue(a, s[1]);
      if v0.None? || v1.None? then None
      else if |s| == 2 then Some([(v0.value * 4 + v1.value / 16) as byte])
      else
        var v2 := SextetValue(a, s[2]);
        if v2.None? then None
        else if |s| == 3 then
          Some([(v0.value * 4 + v1.value / 16) as byte, ((v1.value % 16) * 16 + v2.value / 4) as byte])
        else
          var v3 := SextetValue(a, s[3]);
          if v3.None? then None
          else match Decode(a, s[4..])
            case None => None
            case Some(rest) =>
              Some([(v0.value * 4 + v1.value / 16) as byte, ((v1.value % 16) * 16 + v2.value / 4) as byte,
                    ((v2.value % 4) * 64 + v3.value) as byte] + rest)
  }

  /** The four sextets of three bytes put the three bytes back together. */
  lemma QuadBytes(x: int, y: int, z: int)
    requires 0 <= x < 256 && 0 <= y < 256 && 0 <= z < 256
    ensures (x / 4) * 4 + ((x % 4) * 16 + y / 16) / 16 == x
    ensures (((x % 4) * 16 + y / 16) % 16) * 16 + ((y % 16) * 4 + z / 64) / 4 == y
    ensures (((y % 16) * 4 + z / 64) % 4) * 64 + z % 64 == z
  {
  }

  lemma DecodeQuad(a: Alphabet, x: byte, y: byte, z: byte, rest: string, r: seq<byte>)
    requires Decode(a, rest) == Some(r)
    ensures Decode(a, Quad(a, x, y, z) + rest) == Some([x, y, z] + r)
  {
    var q := Quad(a, x, y, z);
    var s := q + rest;
    QuadValues(a, x, y, z);
    assert s[0] == q[0] && s[1] == q[1] && s[2] == q[2] && s[3] == q[3];
    assert s[4..] == rest;
  }

  /** The four characters of three bytes are in the alphabet and their
      sextets give the three bytes back. */
  lemma QuadValues(a: Alphabet, x: byte, y: byte, z: byte)
    ensures var q := Quad(a, x, y, z);
            var v0, v1, v2, v3 := SextetValue(a, q[0]), SextetValue(a, q[1]), SextetValue(a, q[2]), SextetValue(a, q[3]);
            && v0.Some? && v1.Some? && v2.Some? && v3.Some?
            && (v0.value * 4 + v1.value / 16) as byte == x
            && ((v1.value % 16) * 16 + v2.value / 4) as byte == y
            && ((v2.value % 4) * 64 + v3.value) as byte == z
  {
    var xi, yi, zi := x as int, y as int, z as int;
    var v0, v1, v2, v3 := xi / 4, (xi % 4) * 16 + yi / 16, (yi % 16) * 4 + zi / 64, zi % 64;
    SextetRoundTrip(a, v0);
    SextetRoundTrip(a, v1);
    SextetRoundTrip(a, v2);
    SextetRoundTrip(a, v3);
    QuadBytes(xi, yi, zi);
    assert Quad(a, x, y, z) == [SextetChar(a, v0), SextetChar(a, v1), SextetChar(a, v2), SextetChar(a, v3)];
  }

  lemma DecodeTail(a: Alphabet, b: seq<byte>)
    requires 1 <= |b| <= 2
    ensures Decode(a, Tail(a, b)) == Some(b)
  {
    if |b| == 1 {
      assert [b[0]] == b;
      DecodeTailOne(a, b[0]);
    } else {
      assert [b[0], b[1]] == b;
      DecodeTailTwo(a, b[0], b[1]);
    }
  }

  lemma DecodeTailOne(a: Alphabet, x: byte)
    ensures Decode(a, Tail(a, [x])) == Some([x])
  {
    var xi := x as int;
    var v0, v1 := xi / 4, (xi % 4) * 16;
    SextetRoundTrip(a, v0);
    SextetRoundTrip(a, v1);
    QuadBytes(xi, 0, 0);
    assert (v0 * 4 + v1 / 16) as byte == x;
    assert Tail(a, [x]) == [SextetChar(a, v0), SextetChar(a, v1)];
  }

  lemma DecodeTailTwo(a: Alphabet, x: byte, y: byte)
    ensures Decode(a, Tail(a, [x, y])) == Some([x, y])
  {
    var xi, yi := x as int, y as int;
    var v0, v1, v2 := xi / 4, (xi % 4) * 16 + yi / 16, (yi % 16) * 4;
    SextetRoundTrip(a, v0);
    SextetRoundTrip(a, v1);
    SextetRoundTrip(a, v2);
    QuadBytes(xi, yi, 0);
    assert (v0 * 4 + v1 / 16) as byte == x;
    assert ((v1 % 16) * 16 + v2 / 4) as byte == y;
    assert Tail(a, [x, y]) == [SextetChar(a, v0), SextetChar(a, v1), SextetChar(a, v2)];
  }

  lemma {:induction false} DecodeUnpadded(a: Alphabet, b: seq<byte>)
    ensures Decode(a, Unpadded(a, b)) == Some(b)
    decreases |b|
  {
    if 1 <= |b| <= 2 {
      DecodeTail(a, b);
    } else if |b| > 2 {
      DecodeUnpadded(a, b[3..]);
      DecodeQuad(a, b[0], b[1], b[2], Unpadded(a, b[3..]), b[3..]);
      assert [b[0], b[1], b[2]] + b[3..] == b;
    }
  }

  /** Unpadded decoding inverts unpadded encoding. */
  lemma DecodeEncode(a: Alphabet, b: seq<byte>)
    ensures Decode(a, Encode(a, false, b)) == Some(b)
  {
    assert Encode(a, false, b) == Unpadded(a, b) + "";
    assert Unpadded(a, b) + "" == Unpadded(a, b);
    DecodeUnpadded(a, b);
  }

  /** The JDK decoder (`Base64.getDecoder()` / `getUrlDecoder()`): the text
      may end in the padding its last group needs ("==" after two
      characters, "=" after three), and is otherwise decoded as unpadded
      text; any other '=' is refused. */
  function JdkDecode(a: Alphabet, s: string): (r: Option<seq<byte>>)
    ensures r.Some? && s != [] && s[|s| - 1] == '=' ==> |s| % 4 == 0
    ensures r.Some? ==> |r.value| <= 3 * |s| / 4 <= |r.value| + 2
  {
    if |s| >= 2 && s[|s| - 1] == '=' && s[|s| - 2] == '=' then
      var t := s[..|s| - 2];
      QuarterBounds(|t|, 2);
      if |t| % 4 == 2 then Decode(a, t) else None
    else if |s| >= 1 && s[|s| - 1] == '=' then
      var t := s[..|s| - 1];
      QuarterBounds(|t|, 1);
      if |t| % 4 == 3 then Decode(a, t) else None
    else Decode(a, s)
  }

  /** Up to two more characters add at most two decoded bytes. */
  lemma QuarterBounds(n: nat, k: nat)
    requires k <= 2
    ensures 3 * n / 4 <= 3 * (n + k) / 4 <= 3 * n / 4 + 2
    ensures n % 4 + k == 4 ==> (n + k) % 4 == 0
  {
    var q, r := n / 4, n % 4;
    assert n == 4 * q + r;
    assert 3 * n == 4 * (3 * q) + 3 * r;
    assert 3 * (n + k) == 4 * (3 * q) + 3 * r + 3 * k;
  }

  /** On text without '=' the JDK decoder is the unpadded one. */
  lemma JdkDecodeUnpadded(a: Alphabet, s: string)
    requires '=' !in s
    ensures JdkDecode(a, s) == Decode(a, s)
  {
    if |s| >= 1 {
      assert s[|s| - 1] in s;
    }
  }

  lemma JdkDecodeNoPad(a: Alphabet, u: string)
    requires AllInAlphabet(a, u)
    ensures JdkDecode(a, u) == Decode(a, u)
  {
    SeparatorsNotInAlphabet(a);
    if |u| >= 1 {
      assert InAlphabet(a, u[|u| - 1]);
    }
  }

  lemma JdkDecodeOnePad(a: Alphabet, u: string)
    requires AllInAlphabet(a, u) && |u| % 4 == 3
    ensures JdkDecode(a, u + "=") == Decode(a, u)
  {
    var s := u + "=";
    SeparatorsNotInAlphabet(a);
    assert s[|s| - 2] == u[|u| - 1] && InAlphabet(a, u[|u| - 1]);
    assert s[..|s| - 1] == u;
  }

  lemma JdkDecodeTwoPads(a: Alphabet, u: string)
    requires |u| % 4 == 2
    ensures JdkDecode(a, u + "==") == Decode(a, u)
  {
    var s := u + "==";
    assert s[..|s| - 2] == u;
  }

  lemma JdkDecodePadded(a: Alphabet, u: string, p: string, b: seq<byte>)
    requires Decode(a, u) == Some(b) && AllInAlphabet(a, u)
    requires p == "" || (p == "=" && |u| % 4 == 3) || (p == "==" && |u| % 4 == 2)
    ensures JdkDecode(a, u + p) == Some(b)
  {
    if p == "" {
      assert u + p == u;
      JdkDecodeNoPad(a, u);
    } else if p == "=" {
      JdkDecodeOnePad(a, u);
    } else {
      JdkDecodeTwoPads(a, u);
    }
  }

  /** The JDK decoder inverts both padded and unpadded encoding. */
  lemma JdkDecodeEncode(a: Alphabet, pad: bool, b: seq<byte>)
    ensures JdkDecode(a, Encode(a, pad, b)) == Some(b)
  {
    var u := Unpadded(a, b);
    var p := if pad then PadFor(|b|) else "";
    assert Encode(a, pad, b) == u + p;
    DecodeUnpadded(a, b);
    PadForShape(|b|, |u|);
    JdkDecodePadded(a, u, p, b);
  }

  /** The padding after `len` unpadded characters of `n` bytes is one '='
      after a 3-character group and two after a 2-character group. */
  lemma PadForShape(n: nat, len: nat)
    requires len == (4 * n + 2) / 3
    ensures var p := PadFor(n); p == "" || (p == "=" && len % 4 == 3) || (p == "==" && len % 4 == 2)
  {
    PaddedLength(n);
  }

  /** The regular expression `^[A-Za-z0-9+/]+={0,2}$`: at least one
      character of the standard alphabet, then at most two '='. */
  predicate StandardShape(s: string) {
    exists n :: 1 <= n <= |s| && |s| - n <= 2 && StandardShapeAt(s, n)
  }

  predicate StandardShapeAt(s: string, n: int)
    requires 0 <= n <= |s|
  {
    (forall k :: 0 <= k < n ==> InAlphabet(Standard, s[k])) && (forall k :: n <= k < |s| ==> s[k] == '=')
  }

  /** The number of trailing '=' characters, at most two. */
  function Padding(s: string): (p: nat)
    ensures p <= 2 && p <= |s|
    ensures forall k :: |s| - p <= k < |s| ==> s[k] == '='
  {
    if |s| >= 2 && s[|s| - 1] == '=' && s[|s| - 2] == '=' then 2
    else if |s| >= 1 && s[|s| - 1] == '=' then 1
    else 0
  }

  /** The length of what Node's `Buffer.from(s, "base64")` decodes from
      well-formed padded text. */
  function NodeDecodedLength(s: string): int {
    3 * |s| / 4 - Padding(s)
  }

  /** A shaped text's padding is exactly its trailing '=' run. */
  lemma ShapePadding(s: string, n: int)
    requires 1 <= n <= |s| && |s| - n <= 2 && StandardShapeAt(s, n)
    ensures Padding(s) == |s| - n
  {
    SeparatorsNotInAlphabet(Standard);
    assert InAlphabet(Standard, s[n - 1]);
    if n >= 2 {
      assert InAlphabet(Standard, s[n - 2]);
    }
  }
}
