/** The three-pillar analysis of the API gateway: the prompt is built from
    a fixed template, sent through the provider router, and the model's
    reply is cut down to its JSON object and normalised into a
    `ThreePillarResult`. `JSON.parse` is a parameter (`Parse`). */
module ThreePillar {
  import opened Wrappers
  import opened JsString
  import opened JsValue
  import opened Types
  import opened AiRouter

  /** `JSON.parse(text)`: the parsed value, or the `SyntaxError` it throws. */
  type Parse = string -> Result<Value, Thrown>

  /** At most this many characters of the content go into the prompt. */
  const MaxPromptContent: nat := 15000

  const SystemPrompt := "You are an expert analyst. Output only valid JSON."

  // ---------------------------------------------------------------------------
  // The prompt

  /** The template's first line, at its phrases. */
  const Intro :=
    "You are an elite "
    + "personal insight analyst. "
    + "Analyze the following "
    + "content and extract "
    + "actionable intelligence "
    + "across THREE dimensions.\n"

  /** The template around its three placeholders: the parts before the
      last placeholder line by line, the tail as one text. */
  const Head :=
    Intro
    + "\n"
    + "## CONTENT TO ANALYZE:\n"
  const BeforeTitle :=
    "\n"
    + "\n"
    + "## SOURCE METADATA:\n"
    + "- Title: "
  const BeforeUrl :=
    "\n"
    + "- URL: "
  const Tail := "\n\n## OUTPUT FORMAT (JSON):\nReturn a JSON object with the following structure. If a dimension has no relevance, set its value to null.\n\n{\n  \"core_topic\": \"One-sentence summary of the main subject\",\n  \"pillars\": {\n    \"career_business\": {\n      \"relevance_score\": 0-100,\n      \"insight\": \"How this helps current job/business optimization or strengthens professional moat\",\n      \"action_items\": [\"Specific actionable recommendation 1\", \"...\"]\n    },\n    \"market_startup\": {\n      \"relevance_score\": 0-100,\n      \"insight\": \"Hidden market pain points, unmet needs, or new business models enabled by tech combinations\",\n      \"action_items\": [\"Potential opportunity 1\", \"...\"]\n    },\n    \"self_growth\": {\n      \"relevance_score\": 0-100,\n      \"insight\": \"New mental models, technical cognition upgrades, or global perspective expansion\",\n      \"action_items\": [\"Learning or mindset shift 1\", \"...\"]\n    }\n  },\n  \"maturity_rating\": \"ADOPT | TRIAL | ASSESS | HOLD\",\n  \"tags\": [\"AI\", \"SaaS\", \"Management\", \"...\"],\n  \"key_quotes\": [\"Verbatim important quote from source 1\", \"...\"]\n}\n\n## RULES:\n1. Be brutally honest - if content is low-value fluff, say so\n2. Action items must be SPECIFIC and PERSONAL (not generic advice)\n3. Always ground insights in actual content - no hallucination\n4. Maturity rating follows ThoughtWorks Tech Radar logic:\n   - ADOPT: Proven, use now\n   - TRIAL: Worth pursuing, understand risks\n   - ASSESS: Worth exploring, not ready for production\n   - HOLD: Proceed with caution\n5. Extract 1-3 key quotes that support your analysis\n6. Output ONLY valid JSON, no markdown fences"

  const Template := Head + "{content}" + BeforeTitle + "{title}" + BeforeUrl + "{url}" + Tail

  /** The three `replace` calls, each on the first occurrence only. Every
      placeholder starts with `{`, which the head does not hold, so the
      prompt always opens with the head, whatever is substituted. */
  function BuildPrompt(content: string, title: string, url: string): (r: string)
    ensures Head <= r
  {
    var withContent := ReplaceFirst(Template, "{content}", Prefix(content, MaxPromptContent));
    var withTitle := ReplaceFirst(withContent, "{title}", title);
    FixedPartsPlain();
    HeadKept(Head, BeforeTitle, BeforeUrl, Tail, Prefix(content, MaxPromptContent), title, url);
    ReplaceFirst(withTitle, "{url}", url)
  }

  /** The three substitutions leave a head without `{` in front. */
  lemma HeadKept(head: string, m1: string, m2: string, tail: string, c: string, t: string, u: string)
    requires '{' !in head
    ensures head <= ReplaceFirst(ReplaceFirst(ReplaceFirst(head + "{content}" + m1 + "{title}" + m2 + "{url}" + tail,
                                                           "{content}", c), "{title}", t), "{url}", u)
  {
    var rest := "{content}" + m1 + "{title}" + m2 + "{url}" + tail;
    assert head + "{content}" + m1 + "{title}" + m2 + "{url}" + tail == head + rest;
    ReplaceFirstKeepsHead(head, rest, "{content}", c);
    var r1 := ReplaceFirst(rest, "{content}", c);
    ReplaceFirstKeepsHead(head, r1, "{title}", t);
    var r2 := ReplaceFirst(r1, "{title}", t);
    ReplaceFirstKeepsHead(head, r2, "{url}", u);
  }

  /** The first substitution, into a template whose head holds no `{`. */
  lemma SubstituteContent(head: string, m1: string, m2: string, tail: string, c: string)
    requires '{' !in head
    ensures ReplaceFirst(head + "{content}" + m1 + "{title}" + m2 + "{url}" + tail, "{content}", c)
         == (head + c + m1) + "{title}" + (m2 + "{url}" + tail)
  {
    Regroup(head, "{content}", m1, m2, tail);
    Regroup(head, c, m1, m2, tail);
    ReplaceFirstAfter(head, "{content}", m1 + "{title}" + (m2 + "{url}" + tail), c);
  }

  /** The template split after its first placeholder's replacement `x`. */
  lemma Regroup(head: string, x: string, m1: string, m2: string, tail: string)
    ensures head + x + m1 + "{title}" + m2 + "{url}" + tail == head + x + (m1 + "{title}" + (m2 + "{url}" + tail))
    ensures (head + x + m1) + "{title}" + (m2 + "{url}" + tail) == head + x + (m1 + "{title}" + (m2 + "{url}" + tail))
  {
  }

  /** The second substitution, after a text that holds no `{`. */
  lemma SubstituteTitle(a: string, m2: string, tail: string, t: string)
    requires '{' !in a
    ensures ReplaceFirst(a + "{title}" + (m2 + "{url}" + tail), "{title}", t) == (a + t + m2) + "{url}" + tail
  {
    ReplaceFirstAfter(a, "{title}", m2 + "{url}" + tail, t);
    assert a + t + (m2 + "{url}" + tail) == (a + t + m2) + "{url}" + tail;
  }

  /** The third substitution finds a `{url}` that the second one inserted
      before the template's own. */
  lemma SubstituteInsertedUrl(a: string, m2: string, tail: string, u: string)
    requires '{' !in a
    ensures ReplaceFirst((a + "{url}" + m2) + "{url}" + tail, "{url}", u) == (a + u + m2) + "{url}" + tail
  {
    assert (a + "{url}" + m2) + "{url}" + tail == a + "{url}" + (m2 + "{url}" + tail);
    ReplaceFirstAfter(a, "{url}", m2 + "{url}" + tail, u);
    assert a + u + (m2 + "{url}" + tail) == (a + u + m2) + "{url}" + tail;
  }

  lemma IntroPlain()
    ensures '{' !in Intro
  {
  }

  lemma FixedPartsPlain()
    ensures '{' !in Head && '{' !in BeforeTitle && '{' !in BeforeUrl
  {
    IntroPlain();
  }

  /** When the content and title hold no `{`, the prompt is the template with
      the first 15000 characters of the content, the title and the URL in the
      placeholders' places. */
  lemma PromptEmbeds(content: string, title: string, url: string)
    requires '{' !in Prefix(content, MaxPromptContent) && '{' !in title
    ensures BuildPrompt(content, title, url)
         == Head + Prefix(content, MaxPromptContent) + BeforeTitle + title + BeforeUrl + url + Tail
  {
    var c := Prefix(content, MaxPromptContent);
    FixedPartsPlain();
    SubstituteContent(Head, BeforeTitle, BeforeUrl, Tail, c);
    SubstituteTitle(Head + c + BeforeTitle, BeforeUrl, Tail, title);
    ReplaceFirstAfter(Head + c + BeforeTitle + title + BeforeUrl, "{url}", Tail, url);
  }

  /** Substitution is sequential: a title that itself holds `{url}` gets the
      URL, and the template's own `{url}` placeholder is left in the prompt. */
  lemma PromptTitleReceivesUrl(content: string, url: string)
    requires '{' !in Prefix(content, MaxPromptContent)
    ensures BuildPrompt(content, "{url}", url)
         == Head + Prefix(content, MaxPromptContent) + BeforeTitle + url + BeforeUrl + "{url}" + Tail
  {
    var c := Prefix(content, MaxPromptContent);
    FixedPartsPlain();
    SubstituteContent(Head, BeforeTitle, BeforeUrl, Tail, c);
    SubstituteTitle(Head + c + BeforeTitle, BeforeUrl, Tail, "{url}");
    SubstituteInsertedUrl(Head + c + BeforeTitle, BeforeUrl, Tail, url);
  }

  // ---------------------------------------------------------------------------
  // Cutting out the JSON object

  /** The first position of `c` in `s`. */
  function FirstIndexOf(s: string, c: char): (r: Option<nat>)
    ensures r.Some? ==> r.value < |s| && s[r.value] == c && forall k :: 0 <= k < r.value ==> s[k] != c
    ensures r.None? ==> forall k :: 0 <= k < |s| ==> s[k] != c
  {
    if |s| == 0 then None
    else if s[0] == c then Some(0)
    else match FirstIndexOf(s[1..], c)
      case Some(i) =>
        Some(i + 1)
      case None => None
  }

  /** The last position of `c` in `s`. */
  function LastIndexOf(s: string, c: char): (r: Option<nat>)
    ensures r.Some? ==> r.value < |s| && s[r.value] == c && forall k :: r.value < k < |s| ==> s[k] != c
    ensures r.None? ==> forall k :: 0 <= k < |s| ==> s[k] != c
  {
    if |s| == 0 then None
    else if s[|s| - 1] == c then Some(|s| - 1)
    else match LastIndexOf(s[..|s| - 1], c)
      case Some(i) => Some(i)
      case None => None
  }

  /** Where `/\{[\s\S]*\}/` matches: from the first `{` to the last `}`
      after it, when there is one. */
  function JsonBounds(text: string): (r: Option<(nat, nat)>)
    ensures r.None? <==> !(exists i, j :: 0 <= i < j < |text| && text[i] == '{' && text[j] == '}')
    ensures r.Some? ==> var (i, j) := r.value;
      && i < j < |text| && text[i] == '{' && text[j] == '}'
      && (forall k :: 0 <= k < i ==> text[k] != '{') && (forall k :: j < k < |text| ==> text[k] != '}')
  {
    var first := FirstIndexOf(text, '{');
    var last := LastIndexOf(text, '}');
    if first.Some? && last.Some? && first.value < last.value then Some((first.value, last.value))
    else None
  }

  /** `text.match(/\{[\s\S]*\}/)`, or the error thrown when it fails. */
  function JsonSpan(text: string): (r: Result<string, Thrown>)
    ensures r.Err? <==> !(exists i, j :: 0 <= i < j < |text| && text[i] == '{' && text[j] == '}')
    ensures r.Err? ==> r.error == Error("No JSON found in response")
    ensures r.Ok? ==> |r.value| >= 2 && r.value[0] == '{' && r.value[|r.value| - 1] == '}'
  {
    match JsonBounds(text)
    case Some((i, j)) => Ok(text[i..j + 1])
    case None => Err(Error("No JSON found in response"))
  }

  // ---------------------------------------------------------------------------
  // Normalisation

  /** `Number(score) || 0`. */
  function ScoreOf(score: Value): (r: JsNum)
    ensures r != NaN
    ensures NumTruthy(ToNumber(score)) ==> r == ToNumber(score)
    ensures !NumTruthy(ToNumber(score)) ==> r == Finite(0.0)
  {
    var n := ToNumber(score);
    if NumTruthy(n) then n else Finite(0.0)
  }

  /** `Array.isArray(v) ? v.map(String) : []`. */
  function StringsOf(v: Value): (r: seq<string>)
    ensures v.Arr? ==> |r| == |v.elems| && forall i :: 0 <= i < |r| ==> r[i] == ToJsString(v.elems[i])
    ensures !v.Arr? ==> r == []
  {
    if v.Arr? then seq(|v.elems|, i requires 0 <= i < |v.elems| => ToJsString(v.elems[i])) else []
  }

  /** The score is strictly the number 0, or `null`. */
  predicate ZeroOrNull(score: Value) {
    (score.Num? && score.n == Finite(0.0)) || score == Null
  }

  /** `normalizePillar(p)`. */
  function NormalizePillar(p: Value): (r: Option<PillarAnalysis>)
    ensures r.None? <==> !Truthy(p) || !IsObjectType(p) || ZeroOrNull(OptField(p, "relevance_score"))
    ensures r.Some? ==> r.value.relevanceScore == ScoreOf(OptField(p, "relevance_score"))
    ensures r.Some? ==> r.value.relevanceScore != NaN
  {
    if !Truthy(p) || !IsObjectType(p) then None
    else
      var score := OptField(p, "relevance_score");
      if ZeroOrNull(score) then None
      else Some(PillarAnalysis(
        ScoreOf(score),
        ToJsString(Or(OptField(p, "insight"), Str(""))),
        StringsOf(OptField(p, "action_items"))))
  }

  /** `normalizeMaturity(m)`: the upper-cased `String(m)` when it names a
      rating, `ASSESS` otherwise. */
  function NormalizeMaturity(m: Value): (r: MaturityRating)
    ensures var v := ToUpperCase(ToJsString(m));
      MaturityText(r) == v || (r == Assess && v != "ADOPT" && v != "TRIAL" && v != "ASSESS" && v != "HOLD")
  {
    var v := ToUpperCase(ToJsString(m));
    if v == "ADOPT" then Adopt
    else if v == "TRIAL" then Trial
    else if v == "ASSESS" then Assess
    else if v == "HOLD" then Hold
    else Assess
  }

  /** `Array.isArray(v) ? v : []`. */
  function ArrayOr(v: Value): (r: seq<Value>)
    ensures v.Arr? ==> r == v.elems
    ensures !v.Arr? ==> r == []
  {
    if v.Arr? then v.elems else []
  }

  /** `parseAnalysisResponse(text)`. A reply that is not a string has no
      `match` method, so calling it throws. */
  function ParseAnalysisResponse(text: Value, parse: Parse): (r: Result<ThreePillarResult, Thrown>)
    ensures !text.Str? ==> r == Err(TypeError("text.match is not a function"))
    ensures text.Str? && JsonSpan(text.s).Err? ==> r == Err(Error("No JSON found in response"))
    ensures text.Str? && JsonSpan(text.s).Ok? && parse(JsonSpan(text.s).value).Err? ==>
      r == Err(parse(JsonSpan(text.s).value).error)
    ensures r.Ok? ==> text.Str? && JsonSpan(text.s).Ok? && parse(JsonSpan(text.s).value).Ok?
    ensures r.Ok? ==> r.value.coreTopic == Str("") || Truthy(r.value.coreTopic)
  {
    if !text.Str? then Err(TypeError("text.match is not a function"))
    else
      var span :- JsonSpan(text.s);
      var parsed :- parse(span);
      var coreTopic :- Field(parsed, "core_topic");
      var pillars := OptField(parsed, "pillars");
      Ok(ThreePillarResult(
        Or(coreTopic, Str("")),
        NormalizePillar(OptField(pillars, "career_business")),
        NormalizePillar(OptField(pillars, "market_startup")),
        NormalizePillar(OptField(pillars, "self_growth")),
        NormalizeMaturity(OptField(parsed, "maturity_rating")),
        ArrayOr(OptField(parsed, "tags")),
        ArrayOr(OptField(parsed, "key_quotes"))))
  }

  /** `analyzeThreePillar(params)`: the prompt goes to the configured
      provider after the fixed system message, and the reply is parsed. */
  function AnalyzeThreePillar(content: string, title: string, url: string, config: AIConfig, apiKey: string,
                              send: Send, parse: Parse): (r: Result<ThreePillarResult, Thrown>)
    ensures !Supported(config.provider) ==> r == Err(Error("Unsupported provider: " + config.provider))
    ensures r.Ok? ==> Supported(config.provider)
  {
    var options := AIOptions(config.provider, apiKey, config.model, config.baseUrl, config.temperature, config.maxTokens);
    var response :- CallAI(options, AnalysisMessages(content, title, url), send);
    ParseAnalysisResponse(response.content, parse)
  }

  /** The fixed system message, then the prompt as the one user message. */
  function AnalysisMessages(content: string, title: string, url: string): (r: seq<ChatMessage>)
    ensures SystemContent(r) == Some(SystemPrompt)
    ensures NonSystem(r) == [ChatMessage(User, BuildPrompt(content, title, url))]
  {
    [ChatMessage(System, SystemPrompt), ChatMessage(User, BuildPrompt(content, title, url))]
  }

  // ---------------------------------------------------------------------------
  // Properties

  /** A reply with no `{` followed later by `}` fails. */
  lemma NoJsonFails(t: string, parse: Parse)
    requires forall i, j :: 0 <= i < j < |t| && t[i] == '{' ==> t[j] != '}'
    ensures ParseAnalysisResponse(Str(t), parse) == Err(Error("No JSON found in response"))
  {
  }

  /** The text handed to `JSON.parse` runs from the first `{` of the reply
      to its last `}`. */
  lemma ParsesOuterSpan(t: string, i: nat, j: nat)
    requires i < j < |t| && t[i] == '{' && t[j] == '}'
    requires forall k :: 0 <= k < i ==> t[k] != '{'
    requires forall k :: j < k < |t| ==> t[k] != '}'
    ensures JsonSpan(t) == Ok(t[i..j + 1])
  {
  }

  /** An empty JSON object normalises to every default: an empty topic, no
      pillars, `ASSESS`, and no tags or quotes. */
  lemma EmptyObjectDefaults(t: string, parse: Parse)
    requires JsonSpan(t).Ok? && parse(JsonSpan(t).value) == Ok(Obj([]))
    ensures ParseAnalysisResponse(Str(t), parse) == Ok(ThreePillarResult(Str(""), None, None, None, Assess, [], []))
  {
    var parsed := parse(JsonSpan(t).value).value;
    MaturityMissing(OptField(parsed, "maturity_rating"));
  }

  /** A reply whose JSON is an object gives its `core_topic` by `||`, the
      three pillars normalised from `pillars`, the normalised rating, and
      `tags` and `key_quotes` when they are arrays and `[]` otherwise. */
  lemma ParsedFields(t: string, parse: Parse, fields: seq<(string, Value)>)
    requires JsonSpan(t).Ok? && parse(JsonSpan(t).value) == Ok(Obj(fields))
    ensures ParseAnalysisResponse(Str(t), parse).Ok?
    ensures var r := ParseAnalysisResponse(Str(t), parse).value;
      var pillars := Lookup(fields, "pillars");
      && r.careerBusiness == NormalizePillar(OptField(pillars, "career_business"))
      && r.marketStartup == NormalizePillar(OptField(pillars, "market_startup"))
      && r.selfGrowth == NormalizePillar(OptField(pillars, "self_growth"))
      && r.maturityRating == NormalizeMaturity(Lookup(fields, "maturity_rating"))
      && (Lookup(fields, "tags").Arr? ==> r.tags == Lookup(fields, "tags").elems)
      && (!Lookup(fields, "tags").Arr? ==> r.tags == [])
      && (Lookup(fields, "key_quotes").Arr? ==> r.keyQuotes == Lookup(fields, "key_quotes").elems)
      && (!Lookup(fields, "key_quotes").Arr? ==> r.keyQuotes == [])
      && (Truthy(Lookup(fields, "core_topic")) ==> r.coreTopic == Lookup(fields, "core_topic"))
      && (!Truthy(Lookup(fields, "core_topic")) ==> r.coreTopic == Str(""))
  {
  }

  /** A pillar object without a score survives with score 0. */
  lemma MissingScoreSurvives(insight: string)
    ensures NormalizePillar(Obj([("insight", Str(insight))]))
         == Some(PillarAnalysis(Finite(0.0), insight, []))
  {
    var p := Obj([("insight", Str(insight))]);
    LookupAt(p.fields, "insight", 0);
    LookupAbsent(p.fields, "relevance_score");
    LookupAbsent(p.fields, "action_items");
  }

  /** A score given as a string is never the number 0, so the pillar is
      kept, scored `Number(score) || 0`. */
  lemma StringScoreKept(z: string)
    ensures NormalizePillar(Obj([("relevance_score", Str(z))])) == Some(PillarAnalysis(ScoreOf(Str(z)), "", []))
  {
    var p := Obj([("relevance_score", Str(z))]);
    LookupAt(p.fields, "relevance_score", 0);
    LookupAbsent(p.fields, "insight");
    LookupAbsent(p.fields, "action_items");
  }

  /** A string that `Number` reads as 0, such as `"0"` (`DigitText`), keeps
      its pillar with score 0. */
  lemma StringZeroSurvives(z: string)
    requires StringToNumber(z) == Finite(0.0)
    ensures NormalizePillar(Obj([("relevance_score", Str(z))])) == Some(PillarAnalysis(Finite(0.0), "", []))
  {
    StringScoreKept(z);
    assert ToNumber(Str(z)) == Finite(0.0);
  }

  /** `Number` of a one-digit text, such as `Number("0")`, is that digit. */
  lemma DigitText(z: string)
    requires |z| == 1 && '0' <= z[0] <= '9'
    ensures StringToNumber(z) == Finite((z[0] as int - '0' as int) as real)
  {
    assert !IsSpace(z[0]);
    assert TrimStart(z) == z;
    assert TrimEnd(z) == z;
    assert ParseNonDecimal(z) == None;
    assert z != "Infinity";
    assert DigitRun(z, 10) == 1 by {
      assert DigitRun(z[1..], 10) == 0;
    }
    assert z[..1] == z && z[1..] == "";
    assert DigitsValue(z + "", 10) == DigitValue(z[0]) by {
      assert z + "" == z && z[..0] == [];
    }
  }

  /** Numeric scores are not clamped to 0..100. */
  lemma ScoreNotClamped(x: real, text: string)
    requires x != 0.0
    ensures NormalizePillar(Obj([("relevance_score", Num(Finite(x), text))])).value.relevanceScore == Finite(x)
  {
    var p := Obj([("relevance_score", Num(Finite(x), text))]);
    LookupAt(p.fields, "relevance_score", 0);
    assert OptField(p, "relevance_score") == Num(Finite(x), text);
  }

  /** A kept pillar's insight is `String(insight)` when that is truthy and
      `''` otherwise, and its action items are the array's elements as
      strings, or none when the field is not an array. */
  lemma PillarText(p: Value)
    requires NormalizePillar(p).Some?
    ensures var r := NormalizePillar(p).value;
      && (Truthy(OptField(p, "insight")) ==> r.insight == ToJsString(OptField(p, "insight")))
      && (!Truthy(OptField(p, "insight")) ==> r.insight == "")
      && var items := OptField(p, "action_items");
         (items.Arr? ==> |r.actionItems| == |items.elems|
                         && forall i :: 0 <= i < |items.elems| ==> r.actionItems[i] == ToJsString(items.elems[i]))
         && (!items.Arr? ==> r.actionItems == [])
  {
  }

  /** A rating's own text normalises to that rating, so normalising twice
      changes nothing. */
  lemma MaturityIdempotent(m: Value)
    ensures NormalizeMaturity(Str(MaturityText(NormalizeMaturity(m)))) == NormalizeMaturity(m)
  {
    RatingRoundTrip(NormalizeMaturity(m));
  }

  /** Each rating's text normalises to that rating. */
  lemma RatingRoundTrip(x: MaturityRating)
    ensures NormalizeMaturity(Str(MaturityText(x))) == x
  {
    var t := MaturityText(x);
    RatingTextUpper(x);
    assert AsciiUpperString(t) == t;
    MaturityIgnoresCase(t, x);
  }

  /** The rating names are upper-case ASCII words. */
  lemma RatingTextUpper(x: MaturityRating)
    ensures IsAscii(MaturityText(x))
    ensures forall i :: 0 <= i < |MaturityText(x)| ==> 'A' <= MaturityText(x)[i] <= 'Z'
  {
  }

  /** On ASCII text the rating is chosen without regard to case: a word that
      upper-cases to a rating's text gives that rating, and a rating other
      than the default is only given for such a word. */
  lemma MaturityIgnoresCase(s: string, x: MaturityRating)
    requires IsAscii(s)
    ensures AsciiUpperString(s) == MaturityText(x) ==> NormalizeMaturity(Str(s)) == x
    ensures NormalizeMaturity(Str(s)) != Assess ==> AsciiUpperString(s) == MaturityText(NormalizeMaturity(Str(s)))
  {
    ToUpperCaseAscii(s);
  }

  /** A missing rating reads as `String(undefined)`, which is `"undefined"`
      and names no rating. */
  lemma MaturityMissing(m: Value)
    requires m.Undefined?
    ensures NormalizeMaturity(m) == Assess
  {
    UndefinedText(m);
    MaturityOfText(m);
    MaturityFirstLetter(ToJsString(m));
  }

  /** `String(undefined)` is the ASCII word `undefined`. */
  lemma UndefinedText(m: Value)
    requires m.Undefined?
    ensures var s := ToJsString(m);
      IsAscii(s) && s != [] && s[0] == 'u'
  {
    assert ToJsString(m) == "undefined";
  }

  /** The rating depends only on the value's `String` text. */
  lemma MaturityOfText(m: Value)
    ensures NormalizeMaturity(m) == NormalizeMaturity(Str(ToJsString(m)))
  {
  }

  /** An ASCII word whose first letter starts no rating name gives `ASSESS`. */
  lemma MaturityFirstLetter(s: string)
    requires IsAscii(s) && s != []
    requires AsciiUpper(s[0]) != 'A' && AsciiUpper(s[0]) != 'T' && AsciiUpper(s[0]) != 'H'
    ensures NormalizeMaturity(Str(s)) == Assess
  {
    var u := AsciiUpperString(s);
    assert u[0] == AsciiUpper(s[0]);
    forall y: MaturityRating ensures u != MaturityText(y) {
      assert MaturityText(y)[0] in "ATH";
    }
    MaturityIgnoresCase(s, Assess);
  }

  /** `String(m)` is not trimmed: an ASCII rating with a space anywhere in
      it, such as `" adopt"` or `"HOLD "`, falls back to `ASSESS`. */
  lemma MaturityPadded(s: string, k: nat)
    requires IsAscii(s) && k < |s| && s[k] == ' '
    ensures NormalizeMaturity(Str(s)) == Assess
  {
    var u := AsciiUpperString(s);
    assert u[k] == ' ';
    forall y: MaturityRating ensures u != MaturityText(y) {
      RatingTextUpper(y);
    }
    MaturityIgnoresCase(s, Assess);
  }

  /** The dotless i upper-cases to `I`, so `"tr\U{131}al"` names TRIAL. */
  lemma MaturityDotlessI()
    ensures NormalizeMaturity(Str("tr\U{131}al")) == Trial
  {
    var s := "tr\U{131}al";
    assert s[1..] == "r\U{131}al" && s[2..] == "\U{131}al" && s[3..] == "al" && s[4..] == "l" && s[5..] == "";
    assert ToUpperCase(s[5..]) == "";
    assert ToUpperCase(s[4..]) == "L" + ToUpperCase(s[5..]);
    assert ToUpperCase(s[3..]) == "A" + ToUpperCase(s[4..]);
    assert ToUpperCase(s[2..]) == "I" + ToUpperCase(s[3..]);
    assert ToUpperCase(s[1..]) == "R" + ToUpperCase(s[2..]);
    assert ToUpperCase(s) == "T" + ToUpperCase(s[1..]);
    assert ToUpperCase(s) == "TRIAL";
  }
}
