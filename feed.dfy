/** The text transforms of the processor worker: finding `<item>` blocks
    and the first `<title>`/`<link>` of each (parseRSS, extractTag), removing
    CDATA markers and decoding three entities (cleanCDATA), turning a page into
    plain text (extractText) and writing a digest in hex. */
module Feed {
  import opened Wrappers
  import opened JsString
  import JsValue
  import opened Types

  // ---------------------------------------------------------------------------
  // Elements

  /** The pattern `<name[^>]*>([\s\S]*?)</name>` with the `i` flag, tried at
      position `p` of `s`: the name, then everything up to the first `>`, then
      the shortest run up to the first closing tag. (`<item[\s\S]*?>` selects
      the same first `>`.) The result is the span of the captured inner text. */
  function ElementAt(s: string, p: nat, name: string): (r: Option<(nat, nat)>)
    ensures r.Some? ==> p + |name| + 2 <= r.value.0 <= r.value.1 && r.value.1 + |name| + 3 <= |s|
    ensures r.Some? ==> MatchesAt(s, p, "<" + name, true) && s[r.value.0 - 1] == '>'
    ensures r.Some? ==> MatchesAt(s, r.value.1, "</" + name + ">", true)
    ensures r.Some? ==> ElementMatch(s, p, name, r.value.0, r.value.1)
    ensures r.None? ==> forall a, b :: !ElementMatch(s, p, name, a, b)
  {
    if !MatchesAt(s, p, "<" + name, true) then None
    else match Find(s, ">", p + |name| + 1, false)
      case None =>
        NoGtNoMatch(s, p, name);
        None
      case Some(q) =>
        NoGtBefore(s, p + |name| + 1, q);
        assert s[q + 0] == ">"[0];
        match Find(s, "</" + name + ">", q + 1, true)
        case None =>
          NoCloseNoMatch(s, p, name, q);
          None
        case Some(e) =>
          Some((q + 1, e))
  }

  /** The regular expression matches at `p` with its capture at `s[a..b]`:
      `<name`, no `>` until the one just before `a`, and the first closing tag
      from `a` on starts at `b`. At most one pair `(a, b)` satisfies this
      (ElementMatchUnique). */
  predicate ElementMatch(s: string, p: nat, name: string, a: nat, b: nat) {
    && MatchesAt(s, p, "<" + name, true)
    && p + |name| + 2 <= a <= b
    && MatchesAt(s, b, "</" + name + ">", true)
    && s[a - 1] == '>'
    && (forall k :: p + |name| + 1 <= k < a - 1 ==> s[k] != '>')
    && (forall k :: a <= k < b ==> !MatchesAt(s, k, "</" + name + ">", true))
  }

  /** The `>` ending the opening tag and the closing tag after it are the
      first ones, so a match determines its capture. */
  lemma ElementMatchUnique(s: string, p: nat, name: string, a: nat, b: nat, a': nat, b': nat)
    requires ElementMatch(s, p, name, a, b) && ElementMatch(s, p, name, a', b')
    ensures a == a' && b == b'
  {
  }

  /** No `>` in `s[lo..hi]` when no `>` matches there. */
  lemma NoGtBefore(s: string, lo: nat, hi: nat)
    requires forall j :: lo <= j < hi ==> !MatchesAt(s, j, ">", false)
    ensures forall k :: lo <= k < hi && k < |s| ==> s[k] != '>'
  {
    forall k | lo <= k < hi && k < |s| ensures s[k] != '>' {
      assert !MatchesAt(s, k, ">", false);
    }
  }

  /** Without a `>` after `<name` the element does not match. */
  lemma NoGtNoMatch(s: string, p: nat, name: string)
    requires forall j :: p + |name| + 1 <= j ==> !MatchesAt(s, j, ">", false)
    ensures forall a, b :: !ElementMatch(s, p, name, a, b)
  {
    forall a: nat, b: nat ensures !ElementMatch(s, p, name, a, b) {
      if ElementMatch(s, p, name, a, b) {
        assert MatchesAt(s, a - 1, ">", false);
      }
    }
  }

  /** Without a closing tag after the first `>` the element does not match. */
  lemma NoCloseNoMatch(s: string, p: nat, name: string, q: nat)
    requires p + |name| + 1 <= q < |s| && s[q] == '>'
    requires forall k :: p + |name| + 1 <= k < q && k < |s| ==> s[k] != '>'
    requires forall j :: q + 1 <= j ==> !MatchesAt(s, j, "</" + name + ">", true)
    ensures forall a, b :: !ElementMatch(s, p, name, a, b)
  {
    forall a: nat, b: nat ensures !ElementMatch(s, p, name, a, b) {
    }
  }

  /** A case-insensitive match inside `s[a..b]` is one in `s`. */
  lemma MatchInSlice(s: string, a: nat, b: nat, p: nat, pat: string)
    requires a <= b <= |s| && p + |pat| <= b - a
    requires MatchesAt(s, a + p, pat, true)
    ensures MatchesAt(s[a..b], p, pat, true)
  {
    forall i | 0 <= i < |pat| ensures AsciiUpper(s[a..b][p + i]) == AsciiUpper(pat[i]) {
      assert s[a..b][p + i] == s[a + p + i];
    }
  }

  /** The end of the whole match of an element whose inner text ends at `innerEnd`. */
  function ElementEnd(innerEnd: nat, name: string): nat {
    innerEnd + |name| + 3
  }

  /** `s.match(/<item[\s\S]*?>[\s\S]*?<\/item>/gi) || []` from position
      `from`: each match is taken whole and the search resumes after it. */
  function ItemBlocks(s: string, from: nat): (blocks: seq<string>)
    decreases |s| - from
    ensures forall k :: 0 <= k < |blocks| ==> ItemBlock(blocks[k])
  {
    if from >= |s| then []
    else match ElementAt(s, from, "item")
      case None => ItemBlocks(s, from + 1)
      case Some(span) =>
        var end := ElementEnd(span.1, "item");
        var rest := ItemBlocks(s, end);
        ElementBlock(s, from, "item", span);
        assert "<" + "item" == "<item" && "</" + "item" + ">" == "</item>";
        assert ItemBlock(s[from..end]);
        assert forall k :: 0 <= k < |rest| + 1 ==> ItemBlock(([s[from..end]] + rest)[k]) by {
          forall k | 0 <= k < |rest| + 1 ensures ItemBlock(([s[from..end]] + rest)[k]) {
            if k > 0 { assert ([s[from..end]] + rest)[k] == rest[k - 1]; }
          }
        }
        [s[from..end]] + rest
  }

  /** The blocks from `from` are the leftmost match from there, then the
      blocks found from the end of that match on; none when no element
      matches at or after `from`. */
  lemma {:induction false} ItemBlocksFirst(s: string, from: nat)
    decreases |s| - from
    ensures match FirstElement(s, "item", from)
      case None => ItemBlocks(s, from) == []
      case Some(p) =>
        var end := ElementEnd(ElementAt(s, p, "item").value.1, "item");
        ItemBlocks(s, from) == [s[p..end]] + ItemBlocks(s, end)
  {
    if from < |s| && ElementAt(s, from, "item").None? {
      ItemBlocksFirst(s, from + 1);
    }
  }

  /** A block starts with `<item` and ends with `</item>`, ignoring case. */
  predicate ItemBlock(b: string) {
    && |b| >= 12
    && MatchesAt(b, 0, "<item", true)
    && MatchesAt(b, |b| - 7, "</item>", true)
  }

  /** The whole match of an element starts with its opening tag and ends
      with its closing tag. */
  lemma ElementBlock(s: string, p: nat, name: string, span: (nat, nat))
    requires ElementAt(s, p, name) == Some(span)
    ensures var end := ElementEnd(span.1, name);
      var block := s[p..end];
      && |block| >= 2 * |name| + 5
      && MatchesAt(block, 0, "<" + name, true)
      && MatchesAt(block, |block| - (|name| + 3), "</" + name + ">", true)
  {
    var end := ElementEnd(span.1, name);
    MatchInSlice(s, p, end, 0, "<" + name);
    MatchInSlice(s, p, end, end - p - (|name| + 3), "</" + name + ">");
  }

  /** The first position at or after `from` where the element pattern matches. */
  function FirstElement(s: string, name: string, from: nat): (r: Option<nat>)
    decreases |s| - from
    ensures r.Some? ==> from <= r.value && ElementAt(s, r.value, name).Some?
    ensures r.Some? ==> forall j :: from <= j < r.value ==> ElementAt(s, j, name).None?
    ensures r.None? ==> forall j :: from <= j ==> ElementAt(s, j, name).None?
  {
    if from >= |s| then
      assert forall j :: from <= j ==> !MatchesAt(s, j, "<" + name, true);
      None
    else if ElementAt(s, from, name).Some? then Some(from)
    else FirstElement(s, name, from + 1)
  }

  /** extractTag: the inner text of the first `<tag …>…</tag>` (any case),
      trimmed, or the empty string when there is none. */
  function ExtractTag(s: string, tag: string): (r: string)
    ensures r == [] || (!IsSpace(r[0]) && !IsSpace(r[|r| - 1]))
    ensures (forall j :: ElementAt(s, j, tag).None?) ==> r == ""
    ensures FirstElement(s, tag, 0).Some? ==>
      var span := ElementAt(s, FirstElement(s, tag, 0).value, tag).value;
      && r == Trim(s[span.0..span.1])
      && (r != "" <==> exists k :: span.0 <= k < span.1 && !IsSpace(s[k]))
  {
    match FirstElement(s, tag, 0)
    case None => ""
    case Some(p) =>
      var span := ElementAt(s, p, tag).value;
      InnerNonSpace(s, span.0, span.1);
      Trim(s[span.0..span.1])
  }

  /** The trimmed slice is empty exactly when the slice is all white space. */
  lemma InnerNonSpace(s: string, a: nat, b: nat)
    requires a <= b <= |s|
    ensures Trim(s[a..b]) != "" <==> exists k :: a <= k < b && !IsSpace(s[k])
  {
    var t := s[a..b];
    TrimEmpty(t);
    assert forall k :: a <= k < b ==> s[k] == t[k - a];
  }

  // ---------------------------------------------------------------------------
  // cleanCDATA

  /** `s.replace(/<!\[CDATA\[|\]\]>/g, '')`: at each position the opening
      marker is tried first, then the closing one. */
  function StripCData(s: string): (r: string)
    ensures |r| <= |s|
  {
    if |s| >= 9 && s[..9] == "<![CDATA[" then StripCData(s[9..])
    else if |s| >= 3 && s[..3] == "]]>" then StripCData(s[3..])
    else if s == [] then []
    else [s[0]] + StripCData(s[1..])
  }

  /** cleanCDATA: markers removed, then `&amp;`, `&lt;` and `&gt;` decoded,
      each by its own pass and in that order. */
  function CleanCData(s: string): string {
    ReplaceAll(ReplaceAll(ReplaceAll(StripCData(s), "&amp;", "&"), "&lt;", "<"), "&gt;", ">")
  }

  // ---------------------------------------------------------------------------
  // extractText

  /** `s.replace(/<name[\s\S]*?<\/name>/gi, '')`: from an opening `<name` to
      the first closing tag after it, everything is removed. */
  function RemoveBlocks(s: string, name: string): (r: string)
    decreases |s|
    ensures |r| <= |s|
  {
    if |s| == 0 then ""
    else if MatchesAt(s, 0, "<" + name, true) then
      match Find(s, "</" + name + ">", |name| + 1, true)
      case Some(e) => RemoveBlocks(s[e + |name| + 3..], name)
      case None => [s[0]] + RemoveBlocks(s[1..], name)
    else [s[0]] + RemoveBlocks(s[1..], name)
  }

  /** `s.replace(/<[^>]+>/g, ' ')`: a `<` with at least one character before
      the next `>` starts a tag, and the tag becomes one space. */
  function TagsToSpaces(s: string): (r: string)
    decreases |s|
    ensures |r| <= |s|
  {
    if |s| == 0 then ""
    else if s[0] == '<' then
      match Find(s, ">", 1, false)
      case Some(q) =>
        if q >= 2 then " " + TagsToSpaces(s[q + 1..]) else [s[0]] + TagsToSpaces(s[1..])
      case None => [s[0]] + TagsToSpaces(s[1..])
    else [s[0]] + TagsToSpaces(s[1..])
  }

  const MaxContentLength: nat := 50000

  /** extractText. */
  function ExtractText(html: string): (r: string)
    ensures |r| <= MaxContentLength
    ensures r == [] || !IsSpace(r[0])
    ensures NoDoubleSpace(r)
    ensures forall i :: 0 <= i < |r| && IsSpace(r[i]) ==> r[i] == ' '
  {
    var collapsed := CollapseSpaces(TagsToSpaces(RemoveBlocks(RemoveBlocks(html, "script"), "style")));
    var trimmed := Trim(collapsed);
    TrimKeepsShape(collapsed);
    var r := Prefix(trimmed, MaxContentLength);
    SliceKeepsShape(trimmed, 0, |r|);
    assert r == [] || r[0] == trimmed[0];
    r
  }

  /** Trimming text whose white space is single spaces leaves such text,
      now starting with a character that is not white space. */
  lemma TrimKeepsShape(c: string)
    requires NoDoubleSpace(c)
    requires forall i :: 0 <= i < |c| && IsSpace(c[i]) ==> c[i] == ' '
    ensures var t := Trim(c);
      && (t == [] || !IsSpace(t[0]))
      && NoDoubleSpace(t)
      && forall i :: 0 <= i < |t| && IsSpace(t[i]) ==> t[i] == ' '
  {
    var ts := TrimStart(c);
    var t := TrimEnd(ts);
    var a := |c| - |ts|;
    SliceOfSuffix(c, a, |t|);
    SliceKeepsShape(c, a, a + |t|);
    assert t == [] || t[0] == ts[0];
  }

  lemma SliceOfSuffix(c: string, a: nat, k: nat)
    requires a + k <= |c|
    ensures c[a..][..k] == c[a..a + k]
  {
  }


  /** A slice keeps "no two adjacent spaces" and "every space is ' '". */
  lemma SliceKeepsShape(s: string, a: nat, b: nat)
    requires a <= b <= |s|
    requires NoDoubleSpace(s)
    requires forall i :: 0 <= i < |s| && IsSpace(s[i]) ==> s[i] == ' '
    ensures NoDoubleSpace(s[a..b])
    ensures forall i :: 0 <= i < b - a && IsSpace(s[a..b][i]) ==> s[a..b][i] == ' '
  {
    var t := s[a..b];
    forall i | 0 <= i < |t| - 1 ensures !(IsSpace(t[i]) && IsSpace(t[i + 1])) {
      assert t[i] == s[a + i] && t[i + 1] == s[a + i + 1];
    }
  }

  // ---------------------------------------------------------------------------
  // Digest in hex

  /** `b.toString(16).padStart(2, '0')`. */
  function ByteHex(b: uint8): (r: string)
    ensures |r| == 2
  {
    [JsValue.HexDigit(b / 16), JsValue.HexDigit(b % 16)]
  }

  /** The hex form of a digest: two lower-case digits per byte. */
  function HexDigest(digest: seq<uint8>): (r: string)
    ensures |r| == 2 * |digest|
    ensures forall i :: 0 <= i < |r| ==> r[i] in "0123456789abcdef"
  {
    if digest == [] then "" else ByteHex(digest[0]) + HexDigest(digest[1..])
  }

  // ---------------------------------------------------------------------------
  // parseRSS

  datatype Candidate = Candidate(title: string, url: string)

  /** The candidate one `<item>` block yields: only when its title and link
      are both non-empty, and then both cleaned. */
  function CandidateOf(block: string): (r: Option<Candidate>)
    ensures r.Some? <==> ExtractTag(block, "title") != "" && ExtractTag(block, "link") != ""
  {
    var title := ExtractTag(block, "title");
    var link := ExtractTag(block, "link");
    if title != "" && link != "" then Some(Candidate(CleanCData(title), CleanCData(link))) else None
  }

  /** The candidates of a list of blocks, in block order. */
  function Candidates(blocks: seq<string>): (r: seq<Candidate>)
    ensures |r| <= |blocks|
  {
    if blocks == [] then []
    else
      var last := blocks[|blocks| - 1];
      Candidates(blocks[..|blocks| - 1]) + (match CandidateOf(last) case Some(c) => [c] case None => [])
  }

  lemma CandidatesStep(bs: seq<string>, i: nat)
    requires i < |bs|
    ensures Candidates(bs[..i + 1]) == Candidates(bs[..i]) + (match CandidateOf(bs[i]) case Some(c) => [c] case None => [])
  {
    assert bs[..i + 1][..i] == bs[..i];
  }

  /** parseRSS: push the candidate of each matched block. */
  method ParseRss(xml: string) returns (items: seq<Candidate>)
    ensures items == Candidates(ItemBlocks(xml, 0))
  {
    items := [];
    var matches := ItemBlocks(xml, 0);
    for i := 0 to |matches|
      invariant items == Candidates(matches[..i])
    {
      var title := ExtractTag(matches[i], "title");
      var link := ExtractTag(matches[i], "link");
      if title != "" && link != "" {
        items := items + [Candidate(CleanCData(title), CleanCData(link))];
      }
      CandidatesStep(matches, i);
    }
    assert matches[..|matches|] == matches;
  }

  /** The candidates of a concatenation are those of each part, in order. */
  lemma {:induction false} CandidatesAppend(a: seq<string>, b: seq<string>)
    ensures Candidates(a + b) == Candidates(a) + Candidates(b)
    decreases |b|
  {
    if b == [] {
      assert a + b == a;
    } else {
      var init := b[..|b| - 1];
      assert (a + b)[..|a + b| - 1] == a + init;
      CandidatesAppend(a, init);
    }
  }

  /** At most one candidate per block, and each candidate is what some block
      yields; a block whose title or link is empty yields none. */
  lemma {:induction false} CandidatesFromBlocks(bs: seq<string>)
    ensures |Candidates(bs)| <= |bs|
    ensures forall c :: c in Candidates(bs) ==> exists k :: 0 <= k < |bs| && CandidateOf(bs[k]) == Some(c)
  {
    if bs != [] {
      var init := bs[..|bs| - 1];
      CandidatesFromBlocks(init);
      forall c | c in Candidates(bs)
        ensures exists k :: 0 <= k < |bs| && CandidateOf(bs[k]) == Some(c)
      {
        if c in Candidates(init) {
          var k :| 0 <= k < |init| && CandidateOf(init[k]) == Some(c);
          assert bs[k] == init[k];
        } else {
          assert CandidateOf(bs[|bs| - 1]) == Some(c);
        }
      }
    }
  }

  // ---------------------------------------------------------------------------
  // Properties of cleanCDATA

  /** A global replacement whose replacement is no longer than the pattern
      never lengthens the text. */
  lemma {:induction false} ReplaceAllShrinks(s: string, pat: string, rep: string)
    requires 0 < |pat| && |rep| <= |pat|
    ensures |ReplaceAll(s, pat, rep)| <= |s|
    decreases |s|
  {
    if |s| >= |pat| {
      if s[..|pat|] == pat {
        ReplaceAllShrinks(s[|pat|..], pat, rep);
      } else {
        ReplaceAllShrinks(s[1..], pat, rep);
      }
    }
  }

  /** A global replacement of a pattern that starts with a character absent
      from the text leaves it unchanged. */
  lemma {:induction false} ReplaceAllAbsent(s: string, pat: string, rep: string)
    requires 0 < |pat| && pat[0] !in s
    ensures ReplaceAll(s, pat, rep) == s
    decreases |s|
  {
    if |s| >= |pat| {
      assert s[..|pat|][0] == s[0];
      assert s[1..] + [] == s[1..];
      ReplaceAllAbsent(s[1..], pat, rep);
      assert [s[0]] + s[1..] == s;
    }
  }

  /** Text without `<`, `]` and `&` is not changed by the marker removal. */
  lemma {:induction false} StripCDataPlain(s: string)
    requires '<' !in s && ']' !in s
    ensures StripCData(s) == s
    decreases |s|
  {
    if s != [] {
      assert s[..|s|][0] == s[0];
      StripCDataPlain(s[1..]);
      assert [s[0]] + s[1..] == s;
    }
  }

  /** cleanCDATA never lengthens its input, and leaves text with no `<`, `]`
      or `&` unchanged. */
  lemma CleanCDataShape(s: string)
    ensures |CleanCData(s)| <= |s|
    ensures '<' !in s && ']' !in s && '&' !in s ==> CleanCData(s) == s
  {
    var a := StripCData(s);
    ReplaceAllShrinks(a, "&amp;", "&");
    var b := ReplaceAll(a, "&amp;", "&");
    ReplaceAllShrinks(b, "&lt;", "<");
    var c := ReplaceAll(b, "&lt;", "<");
    ReplaceAllShrinks(c, "&gt;", ">");
    if '<' !in s && ']' !in s && '&' !in s {
      StripCDataPlain(s);
      ReplaceAllAbsent(a, "&amp;", "&");
      ReplaceAllAbsent(b, "&lt;", "<");
      ReplaceAllAbsent(c, "&gt;", ">");
    }
  }

  /** `&amp;` is decoded before `&lt;`, so an escaped `&lt;` is decoded twice. */
  lemma CleanCDataDecodesTwice()
    ensures CleanCData("&amp;lt;") == "<"
  {
    StripCDataPlain("&amp;lt;");
    DecodeAmp();
    DecodeLt();
    ReplaceAllAbsent("<", "&gt;", ">");
  }

  lemma DecodeAmp()
    ensures ReplaceAll("&amp;lt;", "&amp;", "&") == "&lt;"
  {
    var s := "&amp;lt;";
    assert s[..5] == "&amp;" && s[5..] == "lt;";
    ReplaceAllAbsent("lt;", "&amp;", "&");
  }

  lemma DecodeLt()
    ensures ReplaceAll("&lt;", "&lt;", "<") == "<"
  {
    var s := "&lt;";
    assert s[..4] == "&lt;" && s[4..] == "";
  }

  /** A CDATA section loses its markers and nothing else when its text has no
      `<`, `]` or `&`. */
  lemma CleanCDataUnwraps(t: string)
    requires '<' !in t && ']' !in t && '&' !in t
    ensures CleanCData("<![CDATA[" + t + "]]>") == t
  {
    var s := "<![CDATA[" + t + "]]>";
    assert s[..9] == "<![CDATA[" && s[9..] == t + "]]>";
    StripCDataTail(t);
    assert StripCData(s) == t;
    StripCDataPlain(t);
    CleanCDataShape(t);
  }

  lemma {:induction false} StripCDataTail(t: string)
    requires '<' !in t && ']' !in t
    ensures StripCData(t + "]]>") == t
    decreases |t|
  {
    if t == [] {
      assert (t + "]]>")[..3] == "]]>" && (t + "]]>")[3..] == "";
    } else {
      var s := t + "]]>";
      assert s[0] == t[0] && s[1..] == t[1..] + "]]>";
      assert t[0] in t;
      StripCDataCons(s);
      StripCDataTail(t[1..]);
      assert [t[0]] + t[1..] == t;
    }
  }

  /** A character that cannot start a marker is kept. */
  lemma StripCDataCons(s: string)
    requires s != [] && s[0] != '<' && s[0] != ']'
    ensures StripCData(s) == [s[0]] + StripCData(s[1..])
  {
    if |s| >= 9 {
      assert s[..9][0] == s[0];
    }
    if |s| >= 3 {
      assert s[..3][0] == s[0];
    }
  }

  // ---------------------------------------------------------------------------
  // Properties of extractText

  /** Text with no `<` is not changed by the block removal. */
  lemma {:induction false} RemoveBlocksPlain(s: string, name: string)
    requires '<' !in s
    ensures RemoveBlocks(s, name) == s
    decreases |s|
  {
    if s != [] {
      assert s[0] in s && ("<" + name)[0] == '<';
      assert AsciiUpper(s[0 + 0]) != AsciiUpper(("<" + name)[0]);
      RemoveBlocksPlain(s[1..], name);
      assert [s[0]] + s[1..] == s;
    }
  }

  /** Text with no `<` is not changed by the tag replacement. */
  lemma {:induction false} TagsToSpacesPlain(s: string)
    requires '<' !in s
    ensures TagsToSpaces(s) == s
    decreases |s|
  {
    if s != [] {
      assert s[0] in s;
      TagsToSpacesPlain(s[1..]);
      assert [s[0]] + s[1..] == s;
    }
  }

  /** Text whose white space is single `' '` characters is not changed by the
      white-space collapse. */
  lemma {:induction false} CollapseSpacesPlain(s: string)
    requires NoDoubleSpace(s)
    requires forall i :: 0 <= i < |s| && IsSpace(s[i]) ==> s[i] == ' '
    ensures CollapseSpaces(s) == s
    decreases |s|
  {
    if s != [] {
      var t := s[1..];
      assert NoDoubleSpace(t) by {
        forall i | 0 <= i < |t| - 1 ensures !(IsSpace(t[i]) && IsSpace(t[i + 1])) {
          assert t[i] == s[i + 1] && t[i + 1] == s[i + 2];
        }
      }
      assert forall i :: 0 <= i < |t| && IsSpace(t[i]) ==> t[i] == ' ' by {
        forall i | 0 <= i < |t| && IsSpace(t[i]) ensures t[i] == ' ' {
          assert t[i] == s[i + 1];
        }
      }
      if IsSpace(s[0]) {
        assert |t| > 0 ==> !IsSpace(t[0]);
        assert TrimStart(t) == t;
      }
      CollapseSpacesPlain(t);
      assert [s[0]] + t == s;
    }
  }

  /** When the trimmed text fits in 50000 characters, the result also has no
      trailing white space. */
  lemma ExtractTextShortEnds(html: string)
    requires |Trim(CollapseSpaces(TagsToSpaces(RemoveBlocks(RemoveBlocks(html, "script"), "style"))))| <= MaxContentLength
    ensures ExtractText(html) == [] || !IsSpace(ExtractText(html)[|ExtractText(html)| - 1])
  {
  }

  /** Text without markup whose white space is single inner spaces comes
      through unchanged up to the cut. */
  lemma ExtractTextPlain(html: string)
    requires '<' !in html && NoDoubleSpace(html)
    requires forall i :: 0 <= i < |html| && IsSpace(html[i]) ==> html[i] == ' '
    requires html == [] || (!IsSpace(html[0]) && !IsSpace(html[|html| - 1]))
    ensures ExtractText(html) == Prefix(html, MaxContentLength)
  {
    RemoveBlocksPlain(html, "script");
    RemoveBlocksPlain(html, "style");
    TagsToSpacesPlain(html);
    CollapseSpacesPlain(html);
    assert TrimStart(html) == html;
    assert TrimEnd(html) == html;
  }

  /** The cut to 50000 characters comes after the trim, so a space can end
      the result: 49999 plain characters, a space and a word give the 49999
      characters and the space. */
  lemma ExtractTextKeepsTrailingSpace(a: string, b: string)
    requires |a| == MaxContentLength - 1 && b != []
    requires forall i :: 0 <= i < |a| ==> a[i] != '<' && !IsSpace(a[i])
    requires forall i :: 0 <= i < |b| ==> b[i] != '<' && !IsSpace(b[i])
    ensures ExtractText(a + " " + b) == a + " "
  {
    var html := a + " " + b;
    forall i | 0 <= i < |html|
      ensures html[i] != '<' && (IsSpace(html[i]) <==> i == |a|) && (IsSpace(html[i]) ==> html[i] == ' ')
    {
      if i < |a| {
        assert html[i] == a[i];
      } else if i > |a| {
        assert html[i] == b[i - |a| - 1];
      }
    }
    assert '<' !in html;
    ExtractTextPlain(html);
    assert html[..MaxContentLength] == a + " ";
  }

  // ---------------------------------------------------------------------------
  // Properties of the hex digest

  function HexValue(c: char): nat {
    if '0' <= c <= '9' then c as nat - '0' as nat
    else if 'a' <= c <= 'f' then c as nat - 'a' as nat + 10
    else 0
  }

  /** Reads a digest back from its hex form, two digits per byte. */
  function ParseHex(h: string): seq<int>
    decreases |h|
  {
    if |h| < 2 then [] else [HexValue(h[0]) * 16 + HexValue(h[1])] + ParseHex(h[2..])
  }

  /** The hex form determines the digest: reading it back gives the bytes. A
      SHA-256 digest of 32 bytes is written in 64 characters. */
  lemma {:induction false} HexRoundTrip(d: seq<uint8>)
    ensures ParseHex(HexDigest(d)) == d
    ensures |d| == 32 ==> |HexDigest(d)| == 64
  {
    if d != [] {
      HexFirstByte(d);
      HexRoundTrip(d[1..]);
      assert [d[0]] + d[1..] == d;
    }
  }

  /** Reading the hex form back yields the first byte, then the rest. */
  lemma HexFirstByte(d: seq<uint8>)
    requires d != []
    ensures ParseHex(HexDigest(d)) == [d[0]] + ParseHex(HexDigest(d[1..]))
  {
    assert HexDigest(d) == ByteHex(d[0]) + HexDigest(d[1..]);
    ParseByteHex(d[0], HexDigest(d[1..]));
  }

  /** The two digits of a byte are read back as that byte. */
  lemma ParseByteHex(b: uint8, rest: string)
    ensures ParseHex(ByteHex(b) + rest) == [b] + ParseHex(rest)
  {
    var h := ByteHex(b) + rest;
    assert h[2..] == rest;
    ByteHexValue(b);
  }

  lemma ByteHexValue(b: uint8)
    ensures HexValue(JsValue.HexDigit(b / 16)) * 16 + HexValue(JsValue.HexDigit(b % 16)) == b
  {
    HexDigitValue(b / 16);
    HexDigitValue(b % 16);
  }

  lemma HexDigitValue(v: nat)
    requires v < 16
    ensures HexValue(JsValue.HexDigit(v)) == v
  {
  }
}
