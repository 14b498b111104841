/** `btoa` and `atob`: base64 with the alphabet of section 4 of RFC 4648,
    padded on encoding, and decoded by the "forgiving-base64 decode" of the
    WHATWG Infra standard (ASCII white space dropped, padding optional). Both
    work on binary strings, whose characters are byte values. */
module Base64 {
  import opened Wrappers
  import opened Types
  import opened JsValue

  /** The character for a 6-bit value. */
  function Sym(v: nat): (c: char)
    requires v < 64
    ensures c != '=' && c != ':'
  {
    if v < 26 then ('A' as int + v) as char
    else if v < 52 then ('a' as int + v - 26) as char
    else if v < 62 then ('0' as int + v - 52) as char
    else if v == 62 then '+'
    else '/'
  }

  /** The 6-bit value of an alphabet character; 64 for any other character. */
  function SymValue(c: char): (v: nat)
    ensures v <= 64
  {
    if 'A' <= c <= 'Z' then c as int - 'A' as int
    else if 'a' <= c <= 'z' then c as int - 'a' as int + 26
    else if '0' <= c <= '9' then c as int - '0' as int + 52
    else if c == '+' then 62
    else if c == '/' then 63
    else 64
  }

  predicate IsSym(c: char) {
    SymValue(c) < 64
  }

  /** Reading a character back gives the value it was written for. */
  lemma SymRoundTrip(v: nat)
    requires v < 64
    ensures SymValue(Sym(v)) == v
  {
  }

  // The four 6-bit values of a group of three bytes.
  function V0(b0: uint8): nat { b0 / 4 }
  function V1(b0: uint8, b1: uint8): nat { b0 % 4 * 16 + b1 / 16 }
  function V2(b1: uint8, b2: uint8): nat { b1 % 16 * 4 + b2 / 64 }
  function V3(b2: uint8): nat { b2 % 64 }

  // The three bytes of a group of four 6-bit values.
  function Byte0(v0: nat, v1: nat): uint8 requires v0 < 64 && v1 < 64 { v0 * 4 + v1 / 16 }
  function Byte1(v1: nat, v2: nat): uint8 requires v1 < 64 && v2 < 64 { v1 % 16 * 16 + v2 / 4 }
  function Byte2(v2: nat, v3: nat): uint8 requires v2 < 64 && v3 < 64 { v2 % 4 * 64 + v3 }

  /** Splitting three bytes into four 6-bit values and joining them again
      gives the bytes back; a missing byte is taken as zero. */
  lemma GroupRoundTrip(b0: uint8, b1: uint8, b2: uint8)
    ensures V0(b0) < 64 && V1(b0, b1) < 64 && V2(b1, b2) < 64 && V3(b2) < 64
    ensures Byte0(V0(b0), V1(b0, b1)) == b0
    ensures Byte1(V1(b0, b1), V2(b1, b2)) == b1
    ensures Byte2(V2(b1, b2), V3(b2)) == b2
  {
    assert V1(b0, b1) % 16 == b1 / 16;
    assert V2(b1, b2) % 4 == b2 / 64;
  }

  /** The four characters of three bytes. */
  function Quad(b0: uint8, b1: uint8, b2: uint8): (r: string)
    ensures |r| == 4 && forall i :: 0 <= i < 4 ==> IsSym(r[i])
  {
    GroupRoundTrip(b0, b1, b2);
    SymRoundTrip(V0(b0));
    SymRoundTrip(V1(b0, b1));
    SymRoundTrip(V2(b1, b2));
    SymRoundTrip(V3(b2));
    [Sym(V0(b0)), Sym(V1(b0, b1)), Sym(V2(b1, b2)), Sym(V3(b2))]
  }

  /** The characters of whole and trailing groups, without padding: a last
      group of one or two bytes gives the first two or three characters of
      its quad, the missing bytes taken as zero. */
  function EncodeGroups(bs: seq<uint8>): (r: string)
    ensures |r| == GroupChars(|bs|)
    ensures forall i :: 0 <= i < |r| ==> IsSym(r[i])
  {
    if |bs| == 0 then ""
    else if |bs| == 1 then Quad(bs[0], 0, 0)[..2]
    else if |bs| == 2 then Quad(bs[0], bs[1], 0)[..3]
    else
      var q := Quad(bs[0], bs[1], bs[2]);
      var rest := EncodeGroups(bs[3..]);
      assert forall i :: 0 <= i < |q + rest| ==> IsSym((q + rest)[i]) by {
        forall i | 0 <= i < |q + rest| ensures IsSym((q + rest)[i]) {
          if i >= 4 { assert (q + rest)[i] == rest[i - 4]; }
        }
      }
      q + rest
  }

  /** The number of characters `EncodeGroups` gives for `n` bytes. */
  function GroupChars(n: nat): nat {
    if n == 0 then 0 else if n == 1 then 2 else if n == 2 then 3 else 4 + GroupChars(n - 3)
  }

  /** Each whole group gives four characters, a trailing group of one or
      two bytes two or three. */
  lemma {:induction false} GroupCharsLength(n: nat)
    ensures GroupChars(n) % 4 == (if n % 3 == 0 then 0 else n % 3 + 1)
    ensures GroupChars(n) == 0 <==> n == 0
  {
    if n >= 3 {
      GroupCharsLength(n - 3);
      ModStep(n - 3, GroupChars(n - 3));
    }
  }

  /** A whole group more leaves the remainders by three and by four as they were. */
  lemma ModStep(n: nat, m: nat)
    ensures (n + 3) % 3 == n % 3 && (m + 4) % 4 == m % 4
  {
  }

  /** The `=` padding that fills the last group to four characters. */
  function Padding(n: nat): string {
    if n % 3 == 1 then "==" else if n % 3 == 2 then "=" else ""
  }

  /** The base64 text of a byte sequence. */
  function Encode(bs: seq<uint8>): (r: string)
    ensures |r| % 4 == 0
    ensures forall i :: 0 <= i < |r| ==> r[i] != ':'
    ensures |r| == 0 <==> |bs| == 0
  {
    EncodeShape(EncodeGroups(bs), |bs|);
    EncodeGroups(bs) + Padding(|bs|)
  }

  /** Alphabet characters of the length `n` bytes give, then their padding,
      make whole groups of four without a `:`. */
  lemma EncodeShape(g: string, n: nat)
    requires |g| == GroupChars(n)
    requires forall i :: 0 <= i < |g| ==> IsSym(g[i])
    ensures var e := g + Padding(n);
      && |e| % 4 == 0
      && (forall i :: 0 <= i < |e| ==> e[i] != ':')
      && (|e| == 0 <==> n == 0)
  {
    var p := Padding(n);
    GroupCharsLength(n);
    if n % 3 == 1 {
      FillsGroup(|g|, 2);
    } else if n % 3 == 2 {
      FillsGroup(|g|, 1);
    }
    forall i | 0 <= i < |g + p| ensures (g + p)[i] != ':' {
      if i < |g| {
        assert (g + p)[i] == g[i] && IsSym(g[i]);
      } else {
        assert (g + p)[i] == p[i - |g|];
      }
    }
  }

  /** The character codes of a binary string. */
  function Codes(s: string): (r: seq<uint8>)
    requires forall i :: 0 <= i < |s| ==> s[i] as int < 256
    ensures |r| == |s| && forall i :: 0 <= i < |s| ==> r[i] == s[i] as int
  {
    seq(|s|, i requires 0 <= i < |s| => s[i] as int as uint8)
  }

  /** The binary string of a byte sequence. */
  function Binary(bs: seq<uint8>): (r: string)
    ensures |r| == |bs| && forall i :: 0 <= i < |bs| ==> r[i] as int == bs[i]
  {
    seq(|bs|, i requires 0 <= i < |bs| => bs[i] as char)
  }

  function InvalidCharacter(): Thrown {
    Thrown("InvalidCharacterError", "Invalid character")
  }

  /** `btoa(s)`: a character above `\xff` throws. */
  function Btoa(s: string): (r: Result<string, Thrown>)
    ensures r.Err? <==> exists i :: 0 <= i < |s| && s[i] as int >= 256
  {
    if forall i :: 0 <= i < |s| ==> s[i] as int < 256 then Ok(Encode(Codes(s)))
    else Err(InvalidCharacter())
  }

  /** ASCII white space as the forgiving decoder skips it. */
  predicate IsAsciiWhitespace(c: char) {
    c == '\t' || c == '\n' || c == '\U{C}' || c == '\r' || c == ' '
  }

  function StripWhitespace(s: string): (r: string)
    ensures forall i :: 0 <= i < |r| ==> !IsAsciiWhitespace(r[i])
  {
    if |s| == 0 then ""
    else if IsAsciiWhitespace(s[0]) then StripWhitespace(s[1..])
    else [s[0]] + StripWhitespace(s[1..])
  }

  /** One or two trailing `=` removed when the length is a multiple of four. */
  function StripPadding(d: string): (r: string)
    ensures |r| <= |d|
  {
    if |d| % 4 == 0 && |d| >= 2 && d[|d| - 2] == '=' && d[|d| - 1] == '=' then d[..|d| - 2]
    else if |d| % 4 == 0 && |d| >= 1 && d[|d| - 1] == '=' then d[..|d| - 1]
    else d
  }

  /** The bytes of alphabet characters, four characters to three bytes; a
      trailing group of two or three characters gives one or two bytes, and
      its leftover bits are dropped. A lone trailing character, which `Atob`
      rejects before decoding, gives nothing. */
  function DecodeGroups(d: string): (r: seq<uint8>)
    requires forall i :: 0 <= i < |d| ==> IsSym(d[i])
  {
    if |d| <= 1 then []
    else
      assert IsSym(d[0]) && IsSym(d[1]);
      if |d| == 2 then [Byte0(SymValue(d[0]), SymValue(d[1]))]
      else
        assert IsSym(d[2]);
        if |d| == 3 then [Byte0(SymValue(d[0]), SymValue(d[1])), Byte1(SymValue(d[1]), SymValue(d[2]))]
        else
          assert IsSym(d[3]);
          [Byte0(SymValue(d[0]), SymValue(d[1])), Byte1(SymValue(d[1]), SymValue(d[2])),
           Byte2(SymValue(d[2]), SymValue(d[3]))]
            + DecodeGroups(d[4..])
  }

  /** `atob(s)`: the decoded binary string, or the error thrown for text that
      is not base64. */
  function Atob(s: string): (r: Result<string, Thrown>)
    ensures r.Ok? ==> forall i :: 0 <= i < |r.value| ==> r.value[i] as int < 256
  {
    var d := StripPadding(StripWhitespace(s));
    if |d| % 4 == 1 || exists i :: 0 <= i < |d| && !IsSym(d[i]) then Err(InvalidCharacter())
    else Ok(Binary(DecodeGroups(d)))
  }

  // ---------------------------------------------------------------------------
  // Round trip

  /** The three bytes come back from their quad, ahead of what follows. */
  lemma DecodeQuad(b0: uint8, b1: uint8, b2: uint8, rest: string)
    requires forall i :: 0 <= i < |rest| ==> IsSym(rest[i])
    ensures var q := Quad(b0, b1, b2);
      (forall i :: 0 <= i < |q + rest| ==> IsSym((q + rest)[i]))
      && DecodeGroups(q + rest) == [b0, b1, b2] + DecodeGroups(rest)
  {
    var q := Quad(b0, b1, b2);
    QuadValues(b0, b1, b2);
    assert (q + rest)[4..] == rest;
  }

  /** The first two or three characters of a quad give its first one or
      two bytes. */
  lemma DecodeQuadPrefix(b0: uint8, b1: uint8, b2: uint8)
    ensures DecodeGroups(Quad(b0, b1, b2)[..2]) == [b0]
    ensures DecodeGroups(Quad(b0, b1, b2)[..3]) == [b0, b1]
  {
    QuadValues(b0, b1, b2);
  }

  /** The symbol values of a quad decode to its bytes. */
  lemma QuadValues(b0: uint8, b1: uint8, b2: uint8)
    ensures var q := Quad(b0, b1, b2);
      && Byte0(SymValue(q[0]), SymValue(q[1])) == b0
      && Byte1(SymValue(q[1]), SymValue(q[2])) == b1
      && Byte2(SymValue(q[2]), SymValue(q[3])) == b2
  {
    GroupRoundTrip(b0, b1, b2);
    SymRoundTrip(V0(b0));
    SymRoundTrip(V1(b0, b1));
    SymRoundTrip(V2(b1, b2));
    SymRoundTrip(V3(b2));
  }

  /** Each group of bytes comes back from its characters. */
  lemma {:induction false} DecodeEncodeGroups(bs: seq<uint8>)
    ensures DecodeGroups(EncodeGroups(bs)) == bs
  {
    if |bs| == 1 || |bs| == 2 {
      DecodeEncodeShort(bs);
    } else if |bs| >= 3 {
      DecodeEncodeGroups(bs[3..]);
      DecodeEncodeStep(bs);
    }
  }

  /** A lone trailing group of one or two bytes comes back. */
  lemma DecodeEncodeShort(bs: seq<uint8>)
    requires 1 <= |bs| <= 2
    ensures DecodeGroups(EncodeGroups(bs)) == bs
  {
    if |bs| == 1 {
      DecodeQuadPrefix(bs[0], 0, 0);
      assert EncodeGroups(bs) == Quad(bs[0], 0, 0)[..2];
    } else {
      DecodeQuadPrefix(bs[0], bs[1], 0);
      assert EncodeGroups(bs) == Quad(bs[0], bs[1], 0)[..3];
    }
  }

  /** A whole first group comes back ahead of the rest. */
  lemma DecodeEncodeStep(bs: seq<uint8>)
    requires |bs| >= 3 && DecodeGroups(EncodeGroups(bs[3..])) == bs[3..]
    ensures DecodeGroups(EncodeGroups(bs)) == bs
  {
    var tail := bs[3..];
    var rest := EncodeGroups(tail);
    var e := EncodeGroups(bs);
    assert e == Quad(bs[0], bs[1], bs[2]) + rest;
    DecodeQuad(bs[0], bs[1], bs[2], rest);
    assert DecodeGroups(e) == [bs[0], bs[1], bs[2]] + tail;
    FirstThree(bs);
  }

  lemma FirstThree(bs: seq<uint8>)
    requires |bs| >= 3
    ensures [bs[0], bs[1], bs[2]] + bs[3..] == bs
  {
  }


  /** Text without white space is left alone. */
  lemma {:induction false} StripWhitespaceNone(s: string)
    requires forall i :: 0 <= i < |s| ==> !IsAsciiWhitespace(s[i])
    ensures StripWhitespace(s) == s
  {
    if |s| > 0 {
      StripWhitespaceNone(s[1..]);
    }
  }

  /** Removing the padding of an encoding leaves its groups. */
  lemma StripPaddingOfEncode(bs: seq<uint8>)
    ensures StripPadding(Encode(bs)) == EncodeGroups(bs)
  {
    GroupCharsLength(|bs|);
    StripPaddingOfGroups(EncodeGroups(bs), |bs|);
  }

  /** The padding after alphabet characters of the length `n` bytes give
      comes off again. */
  lemma StripPaddingOfGroups(g: string, n: nat)
    requires forall i :: 0 <= i < |g| ==> IsSym(g[i])
    requires |g| % 4 == (if n % 3 == 0 then 0 else n % 3 + 1)
    requires |g| == 0 <==> n == 0
    ensures StripPadding(g + Padding(n)) == g
  {
    var e := g + Padding(n);
    if n % 3 == 1 {
      FillsGroup(|g|, 2);
      assert e[..|e| - 2] == g;
    } else if n % 3 == 2 {
      FillsGroup(|g|, 1);
      assert e[..|e| - 1] == g;
      assert IsSym(g[|g| - 1]);
    } else {
      assert e == g;
      if |g| > 0 {
        assert IsSym(g[|g| - 1]);
      }
    }
  }

  /** Padding up to the next group boundary gives a multiple of four. */
  lemma FillsGroup(m: nat, k: nat)
    requires m % 4 + k == 4
    ensures (m + k) % 4 == 0
  {
  }

  /** `atob(btoa(s))` is `s` for every binary string: base64 loses nothing. */
  lemma AtobEncode(bs: seq<uint8>)
    ensures Atob(Encode(bs)) == Ok(Binary(bs))
  {
    var e := Encode(bs);
    assert forall i :: 0 <= i < |e| ==> !IsAsciiWhitespace(e[i]) by {
      forall i | 0 <= i < |e| ensures !IsAsciiWhitespace(e[i]) {
        if i < |EncodeGroups(bs)| {
          assert e[i] == EncodeGroups(bs)[i];
        } else {
          assert e[i] == '=';
        }
      }
    }
    StripWhitespaceNone(e);
    StripPaddingOfEncode(bs);
    GroupCharsLength(|bs|);
    DecodeEncodeGroups(bs);
  }
}
