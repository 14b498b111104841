/** The credential envelope of the API gateway: a provider key is sealed
    with AES-GCM under a fresh 12-byte IV and stored as
    `base64(iv) + ":" + base64(ciphertext)`. AES-GCM, key import and UTF-8
    coding are parameters (`Crypto`); the base64 conversions are modelled. */
module Encryption {
  import opened Wrappers
  import opened JsString
  import opened JsValue
  import opened Types
  import opened Base64

  /** The IV length in bytes. */
  const IvLength: nat := 12

  datatype CryptoKey = CryptoKey(raw: seq<uint8>)

  /** The WebCrypto and text-coding primitives: `importKey('raw', …)`,
      AES-GCM `encrypt`/`decrypt` under a key and IV, and UTF-8
      `TextEncoder`/`TextDecoder`. */
  datatype Crypto = Crypto(
    importKey: seq<uint8> -> Result<CryptoKey, Thrown>,
    seal: (CryptoKey, seq<uint8>, seq<uint8>) -> Result<seq<uint8>, Thrown>,
    open: (CryptoKey, seq<uint8>, seq<uint8>) -> Result<seq<uint8>, Thrown>,
    utf8Encode: string -> seq<uint8>,
    utf8Decode: seq<uint8> -> string)

  // ---------------------------------------------------------------------------
  // Byte arrays and base64

  /** `toBase64(bytes)`: the loop builds the binary string whose i-th
      character code is byte i, which `btoa` then encodes. */
  method ToBase64(bytes: seq<uint8>) returns (r: string)
    ensures r == Encode(bytes)
  {
    var binary := "";
    var i := 0;
    while i < |bytes|
      invariant 0 <= i <= |bytes|
      invariant binary == Binary(bytes[..i])
    {
      binary := binary + [bytes[i] as char];
      i := i + 1;
    }
    assert bytes[..i] == bytes;
    var encoded := Btoa(binary);
    assert Codes(binary) == bytes;
    r := encoded.value;
  }

  /** What `fromBase64(s)` returns: the char codes of `atob(s)`. */
  function FromBase64Spec(s: string): Result<seq<uint8>, Thrown> {
    var binary :- Atob(s);
    Ok(Codes(binary))
  }

  /** `fromBase64(s)`: `atob`, then a `Uint8Array` of the decoded length
      filled with one byte per character. */
  method FromBase64(s: string) returns (r: Result<seq<uint8>, Thrown>)
    ensures r == FromBase64Spec(s)
  {
    var decoded := Atob(s);
    if decoded.Err? {
      return Err(decoded.error);
    }
    var binary := decoded.value;
    var bytes := new uint8[|binary|];
    var i := 0;
    while i < |binary|
      invariant 0 <= i <= |binary|
      invariant forall k :: 0 <= k < i ==> bytes[k] == binary[k] as int
    {
      bytes[i] := binary[i] as int;
      i := i + 1;
    }
    assert bytes[..] == Codes(binary);
    r := Ok(bytes[..]);
  }

  /** Decoding what `toBase64` wrote gives the bytes back. */
  lemma FromBase64RoundTrip(bs: seq<uint8>)
    ensures FromBase64Spec(Encode(bs)) == Ok(bs)
  {
    AtobEncode(bs);
    assert Codes(Binary(bs)) == bs;
  }

  // ---------------------------------------------------------------------------
  // The envelope

  /** The ciphertext `encrypt` seals: the secret is decoded from base64 and
      imported as the key, and the UTF-8 plaintext is sealed under `iv`. */
  function Sealed(plaintext: string, secret: string, iv: seq<uint8>, c: Crypto): (r: Result<seq<uint8>, Thrown>)
    ensures FromBase64Spec(secret).Err? ==> r == Err(FromBase64Spec(secret).error)
    ensures FromBase64Spec(secret).Ok? && c.importKey(FromBase64Spec(secret).value).Err? ==>
      r == Err(c.importKey(FromBase64Spec(secret).value).error)
  {
    var keyBytes :- FromBase64Spec(secret);
    var key :- c.importKey(keyBytes);
    c.seal(key, iv, c.utf8Encode(plaintext))
  }

  /** `encrypt(plaintext, secret)` with `iv` the 12 random bytes it draws:
      the envelope splits at its one `:` into the base64 IV and the base64
      ciphertext, which `decrypt` accepts whenever the ciphertext is not
      empty. */
  function Encrypt(plaintext: string, secret: string, iv: seq<uint8>, c: Crypto): (r: Result<string, Thrown>)
    requires |iv| == IvLength
    ensures r.Err? <==> Sealed(plaintext, secret, iv, c).Err?
    ensures r.Err? ==> r.error == Sealed(plaintext, secret, iv, c).error
    ensures r.Ok? ==> Split(r.value, ':') == [Encode(iv), Encode(Sealed(plaintext, secret, iv, c).value)]
    ensures r.Ok? && |Sealed(plaintext, secret, iv, c).value| > 0 ==>
      EnvelopeParts(r.value) == Some((Encode(iv), Encode(Sealed(plaintext, secret, iv, c).value)))
  {
    var cipher :- Sealed(plaintext, secret, iv, c);
    EnvelopeSplit(iv, cipher);
    if |cipher| > 0 then EnvelopeSplits(iv, cipher); Ok(Encode(iv) + ":" + Encode(cipher))
    else Ok(Encode(iv) + ":" + Encode(cipher))
  }

  /** `const [ivPart, dataPart] = ciphertext.split(':')` and the format
      check: both parts must be present and non-empty. */
  function EnvelopeParts(ciphertext: string): (r: Option<(string, string)>)
    ensures var parts := Split(ciphertext, ':');
      r.None? <==> parts[0] == "" || |parts| < 2 || parts[1] == ""
    ensures r.Some? ==> r.value == (Split(ciphertext, ':')[0], Split(ciphertext, ':')[1])
  {
    var parts := Split(ciphertext, ':');
    if parts[0] == "" || |parts| < 2 || parts[1] == "" then None
    else Some((parts[0], parts[1]))
  }

  /** `decrypt(ciphertext, secret)`: the format check first, then the two
      base64 parts in order, then the key. */
  function Decrypt(ciphertext: string, secret: string, c: Crypto): (r: Result<string, Thrown>)
    ensures EnvelopeParts(ciphertext).None? ==> r == Err(Error("Invalid ciphertext format"))
    ensures EnvelopeParts(ciphertext).Some? && FromBase64Spec(EnvelopeParts(ciphertext).value.0).Err? ==>
      r == Err(FromBase64Spec(EnvelopeParts(ciphertext).value.0).error)
    ensures (EnvelopeParts(ciphertext).Some? && FromBase64Spec(EnvelopeParts(ciphertext).value.0).Ok? &&
             FromBase64Spec(EnvelopeParts(ciphertext).value.1).Err?) ==>
      r == Err(FromBase64Spec(EnvelopeParts(ciphertext).value.1).error)
    ensures r.Ok? ==>
      && EnvelopeParts(ciphertext).Some? && FromBase64Spec(secret).Ok?
      && FromBase64Spec(EnvelopeParts(ciphertext).value.0).Ok? && FromBase64Spec(EnvelopeParts(ciphertext).value.1).Ok?
  {
    match EnvelopeParts(ciphertext)
    case None => Err(Error("Invalid ciphertext format"))
    case Some((ivPart, dataPart)) =>
      var iv :- FromBase64Spec(ivPart);
      var data :- FromBase64Spec(dataPart);
      var keyBytes :- FromBase64Spec(secret);
      var key :- c.importKey(keyBytes);
      var plain :- c.open(key, iv, data);
      Ok(c.utf8Decode(plain))
  }

  // ---------------------------------------------------------------------------
  // Properties

  /** A text without `:` is rejected before anything is decoded. */
  lemma NoSeparatorRejected(s: string, secret: string, c: Crypto)
    requires ':' !in s
    ensures Decrypt(s, secret, c) == Err(Error("Invalid ciphertext format"))
  {
  }

  /** An empty IV part is rejected. */
  lemma EmptyIvRejected(b: string, secret: string, c: Crypto)
    ensures Decrypt(":" + b, secret, c) == Err(Error("Invalid ciphertext format"))
  {
    EmptyFirstPart(b);
    DecryptWithoutParts(":" + b, secret, c);
  }

  /** A missing data part is rejected. */
  lemma EmptyDataRejected(a: string, secret: string, c: Crypto)
    requires ':' !in a
    ensures Decrypt(a + ":", secret, c) == Err(Error("Invalid ciphertext format"))
  {
    EmptySecondPart(a, "");
    assert a + ":" + "" == a + ":";
    DecryptWithoutParts(a + ":", secret, c);
  }

  /** An empty data part between two separators is rejected. */
  lemma EmptyMiddleRejected(a: string, b: string, secret: string, c: Crypto)
    requires ':' !in a
    ensures Decrypt(a + "::" + b, secret, c) == Err(Error("Invalid ciphertext format"))
  {
    var s := a + "::" + b;
    EmptySecondPart(a, ":" + b);
    assert a + ":" + (":" + b) == s;
    DecryptWithoutParts(s, secret, c);
  }

  /** A text the format check refuses is rejected before anything is decoded. */
  lemma DecryptWithoutParts(s: string, secret: string, c: Crypto)
    requires EnvelopeParts(s).None?
    ensures Decrypt(s, secret, c) == Err(Error("Invalid ciphertext format"))
  {
  }

  /** Nothing before the first `:` leaves no IV part. */
  lemma EmptyFirstPart(b: string)
    ensures EnvelopeParts(":" + b).None?
  {
    SplitFirst("", ':', b);
    assert "" + [':'] + b == ":" + b;
  }

  /** Nothing between the first `:` and the next leaves no data part. */
  lemma EmptySecondPart(a: string, b: string)
    requires ':' !in a
    requires b == [] || b[0] == ':'
    ensures EnvelopeParts(a + ":" + b).None?
  {
    SplitFirst(a, ':', b);
    assert a + [':'] + b == a + ":" + b;
    if b != [] {
      SplitFirst("", ':', b[1..]);
      assert "" + [':'] + b[1..] == b;
    }
  }

  /** Whatever follows a second `:` is ignored. */
  lemma ExtraSegmentsIgnored(a: string, b: string, rest: string)
    requires ':' !in a && ':' !in b
    ensures EnvelopeParts(a + ":" + b + ":" + rest) == EnvelopeParts(a + ":" + b)
  {
    var x := a + ":" + b;
    var s := x + ":" + rest;
    SplitFirst(a, ':', b);
    assert a + [':'] + b == x;
    assert Split(b, ':') == [b];
    PartsOfTwo(x, a, b, []);
    SplitFirst(b, ':', rest);
    SplitFirst(a, ':', b + [':'] + rest);
    assert a + [':'] + (b + [':'] + rest) == s;
    assert Split(s, ':') == [a, b] + Split(rest, ':');
    PartsOfTwo(s, a, b, Split(rest, ':'));
  }

  /** A text that splits into `a`, `b` and more has the parts `a` and `b`
      when both are non-empty. */
  lemma PartsOfTwo(s: string, a: string, b: string, tail: seq<string>)
    requires Split(s, ':') == [a, b] + tail
    ensures EnvelopeParts(s) == if a == "" || b == "" then None else Some((a, b))
  {
  }

  /** The split recovers the two encodings `encrypt` joined, because the
      base64 alphabet has no `:`. */
  lemma EnvelopeSplits(iv: seq<uint8>, cipher: seq<uint8>)
    requires |iv| > 0 && |cipher| > 0
    ensures EnvelopeParts(Encode(iv) + ":" + Encode(cipher)) == Some((Encode(iv), Encode(cipher)))
  {
    EnvelopeSplit(iv, cipher);
  }

  /** An envelope has exactly two pieces, the two base64 texts, since
      base64 never writes `:`. */
  lemma EnvelopeSplit(iv: seq<uint8>, cipher: seq<uint8>)
    ensures Split(Encode(iv) + ":" + Encode(cipher), ':') == [Encode(iv), Encode(cipher)]
  {
    var a, b := Encode(iv), Encode(cipher);
    assert ':' !in a && ':' !in b by {
      forall k | 0 <= k < |a| ensures a[k] != ':' { }
      forall k | 0 <= k < |b| ensures b[k] != ':' { }
    }
    SplitFirst(a, ':', b);
    assert a + [':'] + b == a + ":" + b;
  }

  /** Decrypting an envelope gives the plaintext back, given that AES-GCM
      opens what it sealed and that its output is never empty (it always
      carries a tag), and that UTF-8 decoding undoes encoding. */
  lemma DecryptEncrypt(plaintext: string, secret: string, iv: seq<uint8>, c: Crypto)
    requires |iv| == IvLength
    requires Encrypt(plaintext, secret, iv, c).Ok?
    requires forall k, v, x :: c.seal(k, v, x).Ok? ==>
      |c.seal(k, v, x).value| > 0 && c.open(k, v, c.seal(k, v, x).value) == Ok(x)
    requires c.utf8Decode(c.utf8Encode(plaintext)) == plaintext
    ensures Decrypt(Encrypt(plaintext, secret, iv, c).value, secret, c) == Ok(plaintext)
  {
    var keyBytes := FromBase64Spec(secret).value;
    var key := c.importKey(keyBytes).value;
    var cipher := c.seal(key, iv, c.utf8Encode(plaintext)).value;
    EnvelopeSplits(iv, cipher);
    FromBase64RoundTrip(iv);
    FromBase64RoundTrip(cipher);
  }
}
