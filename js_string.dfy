/** The JavaScript string operations the workers rely on: the `\s` class and
    `trim`, `slice(0, n)`, literal search, `replace` with a string pattern
    (first occurrence) or a global literal pattern, ASCII case-insensitive
    comparison (the regular-expression `i` flag), `toUpperCase`, `join` and
    the decimal form of a non-negative integer.
    A string is a sequence of UTF-16 code units; code units outside the Basic
    Multilingual Plane (surrogates) are not representable here. */
module JsString {
  import opened Wrappers

  /** The characters of `\s`, which are also those `trim` removes
      (ECMAScript WhiteSpace and LineTerminator). */
  predicate IsSpace(c: char) {
    || c == '\t' || c == '\n' || c == '\U{B}' || c == '\U{C}' || c == '\r' || c == ' '
    || c == '\U{A0}' || c == '\U{1680}' || ('\U{2000}' <= c <= '\U{200A}')
    || c == '\U{2028}' || c == '\U{2029}' || c == '\U{202F}' || c == '\U{205F}'
    || c == '\U{3000}' || c == '\U{FEFF}'
  }

  /** No two adjacent characters of `s` are both white space. */
  predicate NoDoubleSpace(s: string) {
    forall i :: 0 <= i < |s| - 1 ==> !(IsSpace(s[i]) && IsSpace(s[i + 1]))
  }

  /** Leading white space removed (the first half of `trim`). */
  function TrimStart(s: string): (r: string)
    ensures |r| <= |s| && r == s[|s| - |r|..]
    ensures r == [] || !IsSpace(r[0])
    ensures forall i :: 0 <= i < |s| - |r| ==> IsSpace(s[i])
  {
    if |s| > 0 && IsSpace(s[0]) then TrimStart(s[1..]) else s
  }

  /** Trailing white space removed (the second half of `trim`). */
  function TrimEnd(s: string): (r: string)
    ensures |r| <= |s| && r == s[..|r|]
    ensures r == [] || !IsSpace(r[|r| - 1])
    ensures forall i :: |r| <= i < |s| ==> IsSpace(s[i])
  {
    if |s| > 0 && IsSpace(s[|s| - 1]) then TrimEnd(s[..|s| - 1]) else s
  }

  /** `s.trim()`. */
  function Trim(s: string): string {
    TrimEnd(TrimStart(s))
  }

  /** Trimming leaves nothing exactly when the text is all white space. */
  lemma TrimEmpty(s: string)
    ensures Trim(s) == [] <==> forall i :: 0 <= i < |s| ==> IsSpace(s[i])
  {
    var t := TrimStart(s);
    if t != [] {
      assert t[0] == s[|s| - |t|];
    }
  }

  /** `s.slice(0, n)` for a non-negative `n`. */
  function Prefix(s: string, n: nat): (r: string)
    ensures |r| <= n && |r| <= |s|
    ensures |s| <= n ==> r == s
    ensures |s| > n ==> |r| == n
    ensures r == s[..|r|]
  {
    if |s| <= n then s else s[..n]
  }

  /** ASCII upper case of one character: the canonicalisation the `i` flag
      applies when the pattern is ASCII (a non-ASCII character never
      canonicalises to an ASCII one). */
  function AsciiUpper(c: char): char {
    if 'a' <= c <= 'z' then (c as int - 32) as char else c
  }

  /** `pat` occurs in `s` at position `p`, compared exactly or ignoring ASCII case. */
  predicate MatchesAt(s: string, p: nat, pat: string, ignoreCase: bool) {
    && p + |pat| <= |s|
    && forall i :: 0 <= i < |pat| ==>
         if ignoreCase then AsciiUpper(s[p + i]) == AsciiUpper(pat[i]) else s[p + i] == pat[i]
  }

  /** The first position at or after `from` where `pat` occurs, if any. */
  function Find(s: string, pat: string, from: nat, ignoreCase: bool): (r: Option<nat>)
    decreases |s| - from
    ensures r.Some? ==> from <= r.value && MatchesAt(s, r.value, pat, ignoreCase)
    ensures r.Some? ==> forall j :: from <= j < r.value ==> !MatchesAt(s, j, pat, ignoreCase)
    ensures r.None? ==> forall j :: from <= j ==> !MatchesAt(s, j, pat, ignoreCase)
  {
    if from + |pat| > |s| then None
    else if MatchesAt(s, from, pat, ignoreCase) then Some(from)
    else Find(s, pat, from + 1, ignoreCase)
  }

  /** `s.replace(pat, rep)` with a string pattern: only the first occurrence
      is replaced. (`$` patterns in `rep` are not interpreted here.) */
  function ReplaceFirst(s: string, pat: string, rep: string): string {
    match Find(s, pat, 0, false)
    case None => s
    case Some(i) => s[..i] + rep + s[i + |pat|..]
  }

  /** `s.replace(/pat/g, rep)` for a non-empty literal pattern: scanning left
      to right, every non-overlapping occurrence is replaced. */
  function ReplaceAll(s: string, pat: string, rep: string): string
    requires |pat| > 0
  {
    if |s| < |pat| then s
    else if s[..|pat|] == pat then rep + ReplaceAll(s[|pat|..], pat, rep)
    else [s[0]] + ReplaceAll(s[1..], pat, rep)
  }

  /** `s.replace(/\s+/g, ' ')`: every maximal run of white space becomes one space. */
  function CollapseSpaces(s: string): (r: string)
    decreases |s|
    ensures |r| <= |s|
    ensures |s| > 0 ==> |r| > 0 && (IsSpace(r[0]) <==> IsSpace(s[0]))
    ensures NoDoubleSpace(r)
    ensures forall i :: 0 <= i < |r| && IsSpace(r[i]) ==> r[i] == ' '
  {
    if |s| == 0 then ""
    else if IsSpace(s[0]) then " " + CollapseSpaces(TrimStart(s[1..]))
    else [s[0]] + CollapseSpaces(s[1..])
  }

  /** Upper-case form of one character under `toUpperCase`. ASCII letters and
      every character whose upper-case form consists of ASCII letters only are
      listed; any other character keeps its value here, which cannot make an
      ASCII word appear or disappear. */
  function UpperOf(c: char): string {
    if 'a' <= c <= 'z' then [AsciiUpper(c)]
    else if c == '\U{DF}' then "SS"
    else if c == '\U{131}' then "I"
    else if c == '\U{17F}' then "S"
    else if c == '\U{FB00}' then "FF"
    else if c == '\U{FB01}' then "FI"
    else if c == '\U{FB02}' then "FL"
    else if c == '\U{FB03}' then "FFI"
    else if c == '\U{FB04}' then "FFL"
    else if c == '\U{FB05}' || c == '\U{FB06}' then "ST"
    else [c]
  }

  /** `s.toUpperCase()`. */
  function ToUpperCase(s: string): string {
    if s == [] then "" else UpperOf(s[0]) + ToUpperCase(s[1..])
  }

  /** `parts.join(sep)`. */
  function Join(parts: seq<string>, sep: string): string {
    if |parts| == 0 then ""
    else if |parts| == 1 then parts[0]
    else parts[0] + sep + Join(parts[1..], sep)
  }

  function DigitChar(d: nat): char
    requires d < 10
  {
    ('0' as int + d) as char
  }

  /** The decimal form of `n` (what template literals print for an integer). */
  function NatToString(n: nat): (r: string)
    ensures |r| > 0
    ensures forall i :: 0 <= i < |r| ==> '0' <= r[i] <= '9'
  {
    if n < 10 then [DigitChar(n)] else NatToString(n / 10) + [DigitChar(n % 10)]
  }

  // ---------------------------------------------------------------------------
  // Lemmas

  /** A pattern whose first character does not occur in `a` is first found
      in `a + b` where it is first found in `b`. */
  lemma FindSkip(a: string, b: string, pat: string)
    requires |pat| > 0 && pat[0] !in a
    ensures Find(a + b, pat, 0, false) == (match Find(b, pat, 0, false) case Some(i) => Some(|a| + i) case None => None)
  {
    var s := a + b;
    forall p | 0 <= p < |a| ensures !MatchesAt(s, p, pat, false) {
      assert s[p + 0] == a[p];
    }
    forall j | 0 <= j ensures MatchesAt(s, |a| + j, pat, false) <==> MatchesAt(b, j, pat, false) {
    }
    forall p | 0 <= p ensures MatchesAt(s, p, pat, false) ==> p >= |a| && MatchesAt(b, p - |a|, pat, false) {
      if p >= |a| {
        assert MatchesAt(s, |a| + (p - |a|), pat, false) <==> MatchesAt(b, p - |a|, pat, false);
      }
    }
    match Find(b, pat, 0, false)
    case Some(i) =>
      assert MatchesAt(s, |a| + i, pat, false);
      var f := Find(s, pat, 0, false).value;
      assert f >= |a| && MatchesAt(b, f - |a|, pat, false);
      assert f - |a| >= i;
      assert f <= |a| + i;
    case None =>
      forall p | 0 <= p ensures !MatchesAt(s, p, pat, false) {
        if p >= |a| {
          assert !MatchesAt(b, p - |a|, pat, false);
        }
      }
  }

  /** Replacing a pattern whose first character does not occur in `a`
      leaves `a` in front. */
  lemma ReplaceFirstKeepsHead(a: string, b: string, pat: string, rep: string)
    requires |pat| > 0 && pat[0] !in a
    ensures ReplaceFirst(a + b, pat, rep) == a + ReplaceFirst(b, pat, rep)
  {
    FindSkip(a, b, pat);
    var f := Find(b, pat, 0, false);
    if f.Some? {
      KeepsHeadFound(a, b, pat, rep, f.value);
    } else {
      ReplaceFirstAbsent(a + b, pat, rep);
      ReplaceFirstAbsent(b, pat, rep);
    }
  }

  /** The occurrence in `b` is the one replaced in `a + b`. */
  lemma KeepsHeadFound(a: string, b: string, pat: string, rep: string, i: nat)
    requires Find(a + b, pat, 0, false) == Some(|a| + i) && Find(b, pat, 0, false) == Some(i)
    ensures ReplaceFirst(a + b, pat, rep) == a + ReplaceFirst(b, pat, rep)
  {
    ReplaceFirstFound(a + b, pat, rep, |a| + i);
    ReplaceFirstFound(b, pat, rep, i);
    Splice(a, b, rep, i, i + |pat|);
  }

  /** `replace` without an occurrence changes nothing. */
  lemma ReplaceFirstAbsent(s: string, pat: string, rep: string)
    requires Find(s, pat, 0, false) == None
    ensures ReplaceFirst(s, pat, rep) == s
  {}

  /** `replace` at the first occurrence found. */
  lemma ReplaceFirstFound(s: string, pat: string, rep: string, i: nat)
    requires Find(s, pat, 0, false) == Some(i)
    ensures i + |pat| <= |s|
    ensures ReplaceFirst(s, pat, rep) == s[..i] + rep + s[i + |pat|..]
  {
  }

  /** Replacing a slice of `b` inside `a + b` keeps `a` in front. */
  lemma Splice(a: string, b: string, rep: string, i: nat, k: nat)
    requires i <= k <= |b|
    ensures (a + b)[..|a| + i] + rep + (a + b)[|a| + k..] == a + (b[..i] + rep + b[k..])
  {
    assert (a + b)[..|a| + i] == a + b[..i];
    assert (a + b)[|a| + k..] == b[k..];
  }

  /** Replacing the first occurrence of a pattern that follows a text in
      which its first character does not occur. */
  lemma ReplaceFirstAfter(a: string, pat: string, c: string, rep: string)
    requires |pat| > 0 && pat[0] !in a
    ensures ReplaceFirst(a + pat + c, pat, rep) == a + rep + c
  {
    FindSkip(a, pat + c, pat);
    assert MatchesAt(pat + c, 0, pat, false);
    var s := a + pat + c;
    assert a + (pat + c) == s;
    assert s[..|a|] == a;
    assert s[|a| + |pat|..] == c;
  }

  /** Only ASCII characters. */
  predicate IsAscii(s: string) {
    forall i :: 0 <= i < |s| ==> s[i] < '\U{80}'
  }

  /** The ASCII upper-case form of each character. */
  function AsciiUpperString(s: string): (r: string)
    ensures |r| == |s|
    ensures forall i :: 0 <= i < |s| ==> r[i] == AsciiUpper(s[i])
  {
    if s == [] then "" else [AsciiUpper(s[0])] + AsciiUpperString(s[1..])
  }

  /** On ASCII text `toUpperCase` is the ASCII upper case. */
  lemma {:induction false} ToUpperCaseAscii(s: string)
    requires IsAscii(s)
    ensures ToUpperCase(s) == AsciiUpperString(s)
  {
    if s != [] {
      assert s[0] < '\U{80}';
      ToUpperCaseAscii(s[1..]);
    }
  }

  /** Upper-case ASCII text is its own upper case. */
  lemma {:induction false} UpperCaseFixed(s: string)
    requires forall i :: 0 <= i < |s| ==> 'A' <= s[i] <= 'Z'
    ensures ToUpperCase(s) == s
  {
    if s != [] {
      UpperCaseFixed(s[1..]);
    }
  }

  /** `s.split(sep)` for a one-character separator: the pieces between
      separators, in order; joining them with the separator gives `s` back. */
  function Split(s: string, sep: char): (r: seq<string>)
    ensures |r| >= 1
    ensures forall k :: 0 <= k < |r| ==> sep !in r[k]
    ensures Join(r, [sep]) == s
  {
    if sep !in s then [s]
    else
      var i := FirstOf(s, sep);
      var rest := Split(s[i + 1..], sep);
      assert s == s[..i] + [sep] + s[i + 1..];
      assert sep !in s[..i] by {
        forall k | 0 <= k < i ensures s[..i][k] != sep { }
      }
      [s[..i]] + rest
  }

  /** The position of the first `c` in a text that has one. */
  function FirstOf(s: string, c: char): (i: nat)
    requires c in s
    ensures i < |s| && s[i] == c && forall k :: 0 <= k < i ==> s[k] != c
  {
    if s[0] == c then 0
    else
      assert c in s[1..] by {
        var k :| 0 <= k < |s| && s[k] == c;
        assert s[1..][k - 1] == c;
      }
      FirstOf(s[1..], c) + 1
  }

  /** The pieces of `a + [sep] + b` when `a` has no separator: `a`, then the
      pieces of `b`. */
  lemma SplitFirst(a: string, sep: char, b: string)
    requires sep !in a
    ensures Split(a + [sep] + b, sep) == [a] + Split(b, sep)
  {
    var s := a + [sep] + b;
    assert s[|a|] == sep;
    forall k | 0 <= k < |a| ensures s[k] != sep {
      assert s[k] == a[k] && a[k] in a;
    }
    assert FirstOf(s, sep) == |a|;
    assert s[..|a|] == a && s[|a| + 1..] == b;
  }
}
