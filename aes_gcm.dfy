/**
 * `AesGcmCrypto`: the key-length guard and the text framing of encrypted
 * credentials, "v1:" + base64url(nonce) + ":" + base64url(ciphertext), both
 * unpadded (section 5 of RFC 4648). AES-GCM itself is the pair of functions
 * `seal` and `open`, each giving `None` where the JDK cipher throws.
 */
module AesGcm {
  import opened Wrappers
  import opened Domain
  import opened JavaString
  import opened Fnv
  import Base64

  const PREFIX: string := "v1"
  const NONCE_BYTES: nat := 12
  const TAG_BITS: nat := 128
  const KEY_BYTES: nat := 32

  /** The AES-GCM cipher under a key and a nonce; `None` is an exception. */
  type Cipher = (seq<byte>, seq<byte>, seq<byte>) -> Option<seq<byte>>

  datatype Crypto = Crypto(key: seq<byte>)

  /** The constructor: only a key of exactly 32 bytes is accepted. */
  function NewCrypto(rawKey32: Option<seq<byte>>): (r: Result<Crypto, Failure>)
    ensures r.Ok? <==> rawKey32.Some? && |rawKey32.value| == KEY_BYTES
    ensures r.Ok? ==> r.value.key == rawKey32.value
    ensures r.Err? ==> r.error == IllegalArgument("APP_ENCRYPTION_KEY_BASE64 must decode to 32 bytes")
  {
    if rawKey32.None? || |rawKey32.value| != KEY_BYTES then
      Err(IllegalArgument("APP_ENCRYPTION_KEY_BASE64 must decode to 32 bytes"))
    else Ok(Crypto(rawKey32.value))
  }

  function Encode(b: seq<byte>): string {
    Base64.Encode(Base64.UrlSafe, false, b)
  }

  /** The `String.join` of the three parts. */
  function Token(nonce: seq<byte>, ciphertext: seq<byte>): string {
    Join(":", [PREFIX, Encode(nonce), Encode(ciphertext)])
  }

  /** `encryptToString`, with the 12 random nonce bytes as an input: a
      cipher failure becomes "encrypt failed". */
  function EncryptToString(c: Crypto, plaintext: seq<byte>, nonce: seq<byte>, seal: Cipher): (r: Result<string, Failure>)
    requires |nonce| == NONCE_BYTES
    ensures r.Err? <==> seal(c.key, nonce, plaintext).None?
    ensures r.Err? ==> r.error == IllegalState("encrypt failed")
    ensures r.Ok? ==> r.value == Token(nonce, seal(c.key, nonce, plaintext).value)
  {
    match seal(c.key, nonce, plaintext)
    case None => Err(IllegalState("encrypt failed"))
    case Some(ciphertext) => Ok(Token(nonce, ciphertext))
  }

  /** Why `decryptToBytes` refuses a token before reaching the cipher. */
  datatype Rejection = NullToken | UnsupportedFormat | BadBase64

  /** The checks of `decryptToBytes` ahead of the cipher: a token, split on
      ':' the Java way, into exactly three parts of which the first is "v1"
      and the other two decode. */
  function TokenParts(token: Option<string>): (r: Result<(seq<byte>, seq<byte>), Rejection>)
    ensures token.None? ==> r == Err(NullToken)
    ensures token.Some? && (|JavaSplit(token.value, ':')| != 3 || JavaSplit(token.value, ':')[0] != PREFIX)
      ==> r == Err(UnsupportedFormat)
    ensures r.Ok? ==> var parts := JavaSplit(token.value, ':');
      && |parts| == 3 && parts[0] == PREFIX
      && Base64.JdkDecode(Base64.UrlSafe, parts[1]) == Some(r.value.0)
      && Base64.JdkDecode(Base64.UrlSafe, parts[2]) == Some(r.value.1)
  {
    if token.None? then Err(NullToken)
    else
      var parts := JavaSplit(token.value, ':');
      if |parts| != 3 || parts[0] != PREFIX then Err(UnsupportedFormat)
      else match (Base64.JdkDecode(Base64.UrlSafe, parts[1]), Base64.JdkDecode(Base64.UrlSafe, parts[2]))
        case (Some(nonce), Some(ciphertext)) => Ok((nonce, ciphertext))
        case _ => Err(BadBase64)
  }

  /** `decryptToBytes`: every failure, before or inside the cipher, becomes
      "decrypt failed". */
  function DecryptToBytes(c: Crypto, token: Option<string>, open: Cipher): (r: Result<seq<byte>, Failure>)
    ensures r.Err? ==> r.error == IllegalState("decrypt failed")
    ensures TokenParts(token).Err? ==> r.Err?
    ensures r.Ok? ==>
      TokenParts(token).Ok? && open(c.key, TokenParts(token).value.0, TokenParts(token).value.1) == Some(r.value)
  {
    match TokenParts(token)
    case Err(_) => Err(IllegalState("decrypt failed"))
    case Ok((nonce, ciphertext)) =>
      match open(c.key, nonce, ciphertext)
      case None => Err(IllegalState("decrypt failed"))
      case Some(plaintext) => Ok(plaintext)
  }

  lemma NoSeparatorInEncoding(b: seq<byte>)
    ensures ':' !in Encode(b)
  {
    Base64.SeparatorsNotInAlphabet(Base64.UrlSafe);
  }

  lemma TokenSplits(nonce: seq<byte>, ciphertext: seq<byte>)
    ensures SplitAll(Token(nonce, ciphertext), ':') == [PREFIX, Encode(nonce), Encode(ciphertext)]
    ensures ':' in Token(nonce, ciphertext)
  {
    var parts := [PREFIX, Encode(nonce), Encode(ciphertext)];
    NoSeparatorInEncoding(nonce);
    NoSeparatorInEncoding(ciphertext);
    assert ":" == [':'];
    assert forall k :: 0 <= k < |parts| ==> ':' !in parts[k];
    SplitAllJoin(parts, ':');
    JoinContainsSep(parts, ':');
  }

  /** A produced token is parsed back into its nonce and ciphertext, since
      the base64url alphabet has no ':'; the ciphertext must not be empty,
      which AES-GCM's 16-byte tag ensures. */
  lemma TokenRoundTrip(nonce: seq<byte>, ciphertext: seq<byte>)
    requires |ciphertext| > 0
    ensures TokenParts(Some(Token(nonce, ciphertext))) == Ok((nonce, ciphertext))
  {
    var t := Token(nonce, ciphertext);
    TokenSplits(nonce, ciphertext);
    assert |Encode(ciphertext)| > 0;
    assert JavaSplit(t, ':') == [PREFIX, Encode(nonce), Encode(ciphertext)];
    Base64.JdkDecodeEncode(Base64.UrlSafe, false, nonce);
    Base64.JdkDecodeEncode(Base64.UrlSafe, false, ciphertext);
  }

  /** An empty ciphertext would give an empty last part, which the Java split
      drops, so such a token is refused. */
  lemma EmptyCiphertextRefused(nonce: seq<byte>)
    requires |nonce| == NONCE_BYTES
    ensures TokenParts(Some(Token(nonce, []))) == Err(UnsupportedFormat)
  {
    var t := Token(nonce, []);
    TokenSplits(nonce, []);
    assert Encode([]) == "";
    assert |Encode(nonce)| == 16;
    var pieces := [PREFIX, Encode(nonce), Encode([])];
    assert DropTrailingEmpty(pieces) == DropTrailingEmpty(pieces[..2]);
    assert JavaSplit(t, ':') == pieces[..2];
  }

  /** Encrypting then decrypting gives the plaintext back, when the cipher's
      opening undoes its sealing. */
  lemma EncryptThenDecrypt(c: Crypto, plaintext: seq<byte>, nonce: seq<byte>, seal: Cipher, open: Cipher)
    requires |nonce| == NONCE_BYTES
    requires seal(c.key, nonce, plaintext).Some?
    requires |seal(c.key, nonce, plaintext).value| >= TAG_BITS / 8
    requires open(c.key, nonce, seal(c.key, nonce, plaintext).value) == Some(plaintext)
    ensures EncryptToString(c, plaintext, nonce, seal).Ok?
    ensures DecryptToBytes(c, Some(EncryptToString(c, plaintext, nonce, seal).value), open) == Ok(plaintext)
  {
    TokenRoundTrip(nonce, seal(c.key, nonce, plaintext).value);
  }
}
