/** The API gateway's handlers that feed and serve the pipeline: the numeric
    clamps of `/api/insights` and `/api/chat`, the retrieval-augmented chat
    answer, the `/internal/analyze` endpoint the processor calls, source
    creation, and the helpers that load the AI configuration and parse stored
    JSON. A request body is the value `c.req.json()` resolved to; a handler
    that throws ends in `Err` (the framework then answers 500). */
module Gateway {
  import opened Wrappers
  import opened JsString
  import opened JsValue
  import opened Types
  import opened Store
  import opened AiRouter
  import opened ThreePillar
  import opened Encryption

  /** A Vectorize match: the vector's id and its metadata, when it has any. */
  datatype VectorMatch = VectorMatch(id: string, metadata: Option<VectorMetadata>)

  /** The services the handlers call that this model does not define: the
      embedding model (`env.AI.run` on `{ text }`), the Vectorize query
      (embedding and `topK`; `None` when the result has no `matches`), the
      provider call behind `callAI`, `JSON.parse`, the WebCrypto primitives
      and the `AI_ENCRYPTION_KEY` secret. */
  datatype GatewayIo = GatewayIo(
    embed: string -> Result<Value, Thrown>,
    search: (Value, real) -> Result<Option<seq<VectorMatch>>, Thrown>,
    send: Send,
    parse: Parse,
    crypto: Crypto,
    secret: string)

  /** One entry of the chat answer's `sources`. */
  datatype SourceRef = SourceRef(id: string, title: string, url: string)

  /** What a handler answers, with its JSON body:
      `Failure` is `{ error: message }` under its status; `Answer` is
      `{ answer, sources }`; `Created` is `{ source }` with status 201;
      `Analyzed` is `{ analysis, core_topic }`. */
  datatype Response =
    | Failure(status: nat, message: string)
    | Answer(answer: Value, sources: seq<SourceRef>)
    | Created(source: Source)
    | Analyzed(analysis: ThreePillarResult)
  {
    function Status(): nat {
      match this
      case Failure(status, _) => status
      case Created(_) => 201
      case _ => 200
    }
  }

  /** Where a handler that writes ends: its response or what it threw, the
      stores, and the next index of the identifier supply. */
  datatype Served = Served(out: Result<Response, Thrown>, state: State, next: nat)

  const MissingFields: Response := Failure(400, "Missing required fields")

  // ---------------------------------------------------------------------------
  // Clamps

  /** `Number.isFinite(n) ? Math.min(Math.max(n, lo), hi) : dflt`. */
  function ClampOr(n: JsNum, lo: real, hi: real, dflt: real): (r: real)
    requires lo <= dflt <= hi
    ensures lo <= r <= hi
    ensures !n.Finite? ==> r == dflt
    ensures n.Finite? && lo <= n.r <= hi ==> r == n.r
    ensures n.Finite? && n.r < lo ==> r == lo
    ensures n.Finite? && n.r > hi ==> r == hi
  {
    if !n.Finite? then dflt
    else if n.r < lo then lo
    else if n.r > hi then hi
    else n.r
  }

  /** A query parameter: its text, or `undefined` when absent. */
  function QueryValue(q: Option<string>): Value {
    if q.Some? then Str(q.value) else Undefined
  }

  /** The `limit` of `GET /api/insights`: `Number(limit || 50)` clamped to
      [1, 100], or 50 when that is not finite. */
  function InsightsLimit(q: Option<string>): (r: real)
    ensures 1.0 <= r <= 100.0
    ensures q.None? || q == Some("") ==> r == 50.0
    ensures q.Some? && q != Some("") && !StringToNumber(q.value).Finite? ==> r == 50.0
    ensures q.Some? && q != Some("") && StringToNumber(q.value).Finite?
      ==> r == ClampOr(StringToNumber(q.value), 1.0, 100.0, 50.0)
  {
    ClampOr(ToNumber(Or(QueryValue(q), Num(Finite(50.0), "50"))), 1.0, 100.0, 50.0)
  }

  /** The `topK` of `/api/chat`: `Number(top_k || 5)` clamped to [1, 10], or
      5 when that is not finite. */
  function TopK(v: Value): (r: real)
    ensures 1.0 <= r <= 10.0
    ensures !Truthy(v) ==> r == 5.0
    ensures Truthy(v) ==> r == ClampOr(ToNumber(v), 1.0, 10.0, 5.0)
  {
    ClampOr(ToNumber(Or(v, Num(Finite(5.0), "5"))), 1.0, 10.0, 5.0)
  }

  /** `limit=0` is a non-empty text, so it is not replaced by the default: it
      is read as 0 and raised to 1. */
  lemma LimitZeroText()
    ensures InsightsLimit(Some("0")) == 1.0
  {
    var z := "0";
    DigitText(z);
  }

  /** A `top_k` of the number 0 is falsy and becomes 5, while the text "0"
      is truthy, is read as 0 and is raised to 1. */
  lemma TopKZero()
    ensures TopK(Num(Finite(0.0), "0")) == 5.0
    ensures TopK(Str("0")) == 1.0
  {
    var z := "0";
    DigitText(z);
  }

  // ---------------------------------------------------------------------------
  // Stored configuration and stored JSON

  /** The stored configuration with its API key decrypted. */
  datatype LoadedConfig = LoadedConfig(config: AIConfig, apiKey: string)

  /** loadAIConfig: nothing stored throws; otherwise the stored key is
      decrypted with the `AI_ENCRYPTION_KEY` secret. */
  function LoadAIConfig(stored: Option<AIConfig>, secret: string, c: Crypto): (r: Result<LoadedConfig, Thrown>)
    ensures stored.None? ==> r == Err(Error("AI config not set. Please configure in settings."))
    ensures stored.Some? ==> r.Ok? == Decrypt(stored.value.apiKeyEncrypted, secret, c).Ok?
    ensures r.Ok? ==> r.value.config == stored.value && r.value.apiKey == Decrypt(stored.value.apiKeyEncrypted, secret, c).value
  {
    match stored
    case None => Err(Error("AI config not set. Please configure in settings."))
    case Some(config) =>
      var apiKey :- Decrypt(config.apiKeyEncrypted, secret, c);
      Ok(LoadedConfig(config, apiKey))
  }

  /** A configuration whose key was stored as `encrypt(key, secret)` loads
      with that key, under the round-trip assumptions of `DecryptEncrypt`. */
  lemma ConfigKeyRecovered(config: AIConfig, key: string, secret: string, iv: seq<uint8>, c: Crypto)
    requires |iv| == IvLength
    requires Encrypt(key, secret, iv, c).Ok?
    requires config.apiKeyEncrypted == Encrypt(key, secret, iv, c).value
    requires forall k, v, x :: c.seal(k, v, x).Ok? ==>
      |c.seal(k, v, x).value| > 0 && c.open(k, v, c.seal(k, v, x).value) == Ok(x)
    requires c.utf8Decode(c.utf8Encode(key)) == key
    ensures LoadAIConfig(Some(config), secret, c) == Ok(LoadedConfig(config, key))
  {
    DecryptEncrypt(key, secret, iv, c);
  }

  /** safeJsonParse: the parsed value of a string, or the fallback for
      anything that is not a string or does not parse. */
  function SafeJsonParse(value: Value, fallback: Value, parse: Parse): (r: Value)
    ensures !value.Str? ==> r == fallback
    ensures value.Str? && parse(value.s).Err? ==> r == fallback
    ensures value.Str? && parse(value.s).Ok? ==> r == parse(value.s).value
  {
    if !value.Str? then fallback
    else
      match parse(value.s)
      case Ok(v) => v
      case Err(_) => fallback
  }

  // ---------------------------------------------------------------------------
  // /api/chat

  /** The metadata names an R2 key (`meta?.r2_key` is truthy) and the bucket
      holds an object under it. */
  predicate Resolves(objects: map<string, StoredContent>, m: VectorMatch) {
    m.metadata.Some? && m.metadata.value.r2Key != "" && m.metadata.value.r2Key in objects
  }

  function ObjectOf(objects: map<string, StoredContent>, m: VectorMatch): StoredContent
    requires Resolves(objects, m)
  {
    objects[m.metadata.value.r2Key]
  }

  /** The context chunk of a stored text: title, URL and at most the first
      2000 characters of the content. */
  function ChunkText(d: StoredContent): string {
    "Title: " + d.title + "\nURL: " + d.url + "\nContent: " + Prefix(d.content, 2000)
  }

  /** The positions of the matches that resolve, in increasing order. */
  function ResolvedIndices(objects: map<string, StoredContent>, matches: seq<VectorMatch>): (r: seq<nat>)
    ensures forall i :: 0 <= i < |r| ==> r[i] < |matches| && Resolves(objects, matches[r[i]])
    ensures forall i, j :: 0 <= i < j < |r| ==> r[i] < r[j]
    ensures forall j :: 0 <= j < |matches| && Resolves(objects, matches[j]) ==> j in r
  {
    if |matches| == 0 then []
    else
      var n := |matches| - 1;
      var prev := ResolvedIndices(objects, matches[..n]);
      if Resolves(objects, matches[n]) then prev + [n] else prev
  }

  /** The context chunks and the sources of the matches: one of each per
      resolving match, in match order. */
  function Context(objects: map<string, StoredContent>, matches: seq<VectorMatch>): (r: (seq<string>, seq<SourceRef>))
    ensures |r.0| == |ResolvedIndices(objects, matches)| && |r.1| == |r.0|
  {
    if |matches| == 0 then ([], [])
    else
      var n := |matches| - 1;
      var prev := Context(objects, matches[..n]);
      var m := matches[n];
      if Resolves(objects, m) then
        var d := ObjectOf(objects, m);
        (prev.0 + [ChunkText(d)], prev.1 + [SourceRef(m.id, d.title, d.url)])
      else prev
  }

  /** The i-th chunk and source come from the i-th resolving match's
      stored object. */
  lemma ContextOfResolved(objects: map<string, StoredContent>, matches: seq<VectorMatch>)
    ensures var r := Context(objects, matches);
      var idx := ResolvedIndices(objects, matches);
      forall i :: 0 <= i < |idx| ==>
        && r.0[i] == ChunkText(ObjectOf(objects, matches[idx[i]]))
        && r.1[i] == SourceRef(matches[idx[i]].id, ObjectOf(objects, matches[idx[i]]).title,
                               ObjectOf(objects, matches[idx[i]]).url)
  {
    forall i | 0 <= i < |ResolvedIndices(objects, matches)| {
      ContextAt(objects, matches, i);
    }
  }

  /** One position of the context, by induction on the matches. */
  lemma {:induction false} ContextAt(objects: map<string, StoredContent>, matches: seq<VectorMatch>, i: nat)
    requires i < |ResolvedIndices(objects, matches)|
    ensures var r := Context(objects, matches);
      var j := ResolvedIndices(objects, matches)[i];
      var d := ObjectOf(objects, matches[j]);
      r.0[i] == ChunkText(d) && r.1[i] == SourceRef(matches[j].id, d.title, d.url)
  {
    var n := |matches| - 1;
    var prev := ResolvedIndices(objects, matches[..n]);
    if i < |prev| {
      ContextAt(objects, matches[..n], i);
      assert matches[..n][prev[i]] == matches[prev[i]];
    }
  }

  /** The loop of the chat handler over the matches. */
  method AssembleContext(objects: map<string, StoredContent>, matches: seq<VectorMatch>)
      returns (chunks: seq<string>, sources: seq<SourceRef>)
    ensures (chunks, sources) == Context(objects, matches)
  {
    chunks, sources := [], [];
    var i := 0;
    while i < |matches|
      invariant 0 <= i <= |matches|
      invariant (chunks, sources) == Context(objects, matches[..i])
    {
      assert matches[..i + 1][..i] == matches[..i];
      var m := matches[i];
      if m.metadata.Some? && m.metadata.value.r2Key != "" {
        var key := m.metadata.value.r2Key;
        if key in objects {
          var data := objects[key];
          chunks := chunks + [ChunkText(data)];
          sources := sources + [SourceRef(m.id, data.title, data.url)];
        }
      }
      i := i + 1;
    }
    assert matches[..i] == matches;
  }

  const ChatSystemPrompt := "You are a growth research assistant. Answer based only on provided context. Be concise and actionable."

  const NoContentAnswer := "No relevant content found in knowledge base."

  /** The question and the context as the one user message. */
  function ChatPrompt(query: string, chunks: seq<string>): string {
    "Question: " + query + "\n\nContext:\n" + Join(chunks, "\n\n")
  }

  /** The fixed system message, then the question with its context. */
  function ChatMessages(query: string, chunks: seq<string>): (r: seq<ChatMessage>)
    ensures SystemContent(r) == Some(ChatSystemPrompt)
    ensures NonSystem(r) == [ChatMessage(User, ChatPrompt(query, chunks))]
  {
    [ChatMessage(System, ChatSystemPrompt), ChatMessage(User, ChatPrompt(query, chunks))]
  }

  /** The configured provider, model and base URL, with the chat's own
      temperature 0.3 and token limit 1500. */
  function ChatOptions(l: LoadedConfig): AIOptions {
    AIOptions(l.config.provider, l.apiKey, l.config.model, l.config.baseUrl,
              Num(Finite(0.3), "0.3"), Num(Finite(1500.0), "1500"))
  }

  /** The answer for the matches of a query. */
  function ChatAnswer(objects: map<string, StoredContent>, stored: Option<AIConfig>, io: GatewayIo,
                      query: string, matches: seq<VectorMatch>): (r: Result<Response, Thrown>)
    ensures |Context(objects, matches).0| == 0 ==> r == Ok(Answer(Str(NoContentAnswer), []))
    ensures |Context(objects, matches).0| > 0 && stored.None? ==>
      r == Err(Error("AI config not set. Please configure in settings."))
    ensures |Context(objects, matches).0| > 0 && r.Ok? ==>
      r.value.Answer? && r.value.sources == Context(objects, matches).1 && stored.Some?
  {
    var (chunks, sources) := Context(objects, matches);
    if |chunks| == 0 then Ok(Answer(Str(NoContentAnswer), []))
    else
      var loaded :- LoadAIConfig(stored, io.secret, io.crypto);
      var response :- CallAI(ChatOptions(loaded), ChatMessages(query, chunks), io.send);
      Ok(Answer(response.content, sources))
  }

  /** `POST /api/chat` past the admin check. */
  function ChatReply(objects: map<string, StoredContent>, stored: Option<AIConfig>, io: GatewayIo,
                     body: Value): (r: Result<Response, Thrown>)
    ensures body == Undefined ==> r == Err(TypeError("Cannot read properties of undefined (reading '" + "query" + "')"))
    ensures body == Null ==> r == Err(TypeError("Cannot read properties of null (reading '" + "query" + "')"))
    ensures body.Obj? && !Truthy(Lookup(body.fields, "query")) ==> r == Ok(Failure(400, "Missing query"))
    ensures r.Ok? && r.value.Answer? ==> body.Obj? && Truthy(Lookup(body.fields, "query"))
  {
    var q :- Field(body, "query");
    if !Truthy(q) then Ok(Failure(400, "Missing query"))
    else
      // The body has been read once, so reading it again cannot throw.
      var k := OptField(body, "top_k");
      var query := ToJsString(q);
      var result :- io.embed(query);
      var embedding :- EmbeddingOf(result);
      if !Truthy(embedding) then Ok(Failure(500, "Embedding generation failed"))
      else
        var found :- io.search(embedding, TopK(k));
        ChatAnswer(objects, stored, io, query, if found.Some? then found.value else [])
  }

  /** The chat handler on the bindings; it writes nothing. */
  method HandleChat(env: Env, io: GatewayIo, body: Value) returns (r: Result<Response, Thrown>)
    ensures r == ChatReply(env.objects, env.aiConfig, io, body)
  {
    var q := Field(body, "query");
    if q.Err? {
      return Err(q.error);
    }
    if !Truthy(q.value) {
      return Ok(Failure(400, "Missing query"));
    }
    var topK := TopK(OptField(body, "top_k"));
    var query := ToJsString(q.value);
    var result := io.embed(query);
    if result.Err? {
      return Err(result.error);
    }
    var embedding := EmbeddingOf(result.value);
    if embedding.Err? {
      return Err(embedding.error);
    }
    if !Truthy(embedding.value) {
      return Ok(Failure(500, "Embedding generation failed"));
    }
    var found := io.search(embedding.value, topK);
    if found.Err? {
      return Err(found.error);
    }
    var matches := if found.value.Some? then found.value.value else [];
    var chunks, sources := AssembleContext(env.objects, matches);
    if |chunks| == 0 {
      return Ok(Answer(Str(NoContentAnswer), []));
    }
    var loaded := LoadAIConfig(env.aiConfig, io.secret, io.crypto);
    if loaded.Err? {
      return Err(loaded.error);
    }
    var response := CallAI(ChatOptions(loaded.value), ChatMessages(query, chunks), io.send);
    if response.Err? {
      return Err(response.error);
    }
    r := Ok(Answer(response.value.content, sources));
  }

  /** When no match resolves, the answer is the fixed text with no sources,
      whatever the configuration and the provider: neither is consulted. */
  lemma NoContextShortCircuit(objects: map<string, StoredContent>, stored: Option<AIConfig>, io: GatewayIo,
                              query: string, matches: seq<VectorMatch>)
    requires forall j :: 0 <= j < |matches| ==> !Resolves(objects, matches[j])
    ensures ChatAnswer(objects, stored, io, query, matches) == Ok(Answer(Str(NoContentAnswer), []))
  {
    ContextEmpty(objects, matches);
  }

  /** Matches none of which resolves give no chunk and no source. */
  lemma {:induction false} ContextEmpty(objects: map<string, StoredContent>, matches: seq<VectorMatch>)
    requires forall j :: 0 <= j < |matches| ==> !Resolves(objects, matches[j])
    ensures Context(objects, matches) == ([], [])
  {
    if |matches| > 0 {
      var n := |matches| - 1;
      forall j | 0 <= j < n ensures !Resolves(objects, matches[..n][j]) {
        assert matches[..n][j] == matches[j];
      }
      ContextEmpty(objects, matches[..n]);
    }
  }

  /** Every resolving match contributes a chunk, so the fixed answer is
      given only when no match resolves. */
  lemma ContextEmptyOnlyWithoutResolving(objects: map<string, StoredContent>, matches: seq<VectorMatch>, j: nat)
    requires j < |matches| && Resolves(objects, matches[j])
    ensures |Context(objects, matches).0| > 0
  {
    assert j in ResolvedIndices(objects, matches);
  }

  /** A body without a truthy `query` is answered 400 before anything is
      called. */
  lemma MissingQuery(objects: map<string, StoredContent>, stored: Option<AIConfig>, io: GatewayIo,
                     fields: seq<(string, Value)>)
    requires !Truthy(Lookup(fields, "query"))
    ensures ChatReply(objects, stored, io, Obj(fields)) == Ok(Failure(400, "Missing query"))
  {
  }

  // ---------------------------------------------------------------------------
  // /internal/analyze

  /** The request fields an analysis needs: the content and the item id,
      and the title and URL as texts (`body.title || ''`). */
  datatype AnalyzeInput = AnalyzeInput(content: Value, itemId: Value, title: string, url: string)

  /** The fields of an analysis request; `None` when `content` or `item_id`
      is falsy. Reading a field of a `null` body throws. */
  function AnalyzeFields(body: Value): (r: Result<Option<AnalyzeInput>, Thrown>)
    ensures r.Err? <==> body == Undefined || body == Null
    ensures r.Ok? ==> (r.value.None? <==> !Truthy(OptField(body, "content")) || !Truthy(OptField(body, "item_id")))
    ensures r.Ok? && r.value.Some? ==>
      r.value.value.content == OptField(body, "content") && r.value.value.itemId == OptField(body, "item_id")
  {
    var content :- Field(body, "content");
    if !Truthy(content) then Ok(None)
    else
      // The body has been read once, so reading it again cannot throw.
      var itemId := OptField(body, "item_id");
      if !Truthy(itemId) then Ok(None)
      else
        var title := OptField(body, "title");
        var url := OptField(body, "url");
        Ok(Some(AnalyzeInput(content, itemId, ToJsString(Or(title, Str(""))), ToJsString(Or(url, Str(""))))))
  }

  /** The configuration, then the three-pillar analysis of the content; a
      content that is not a string has no `slice` and throws. */
  function Analyze(stored: Option<AIConfig>, io: GatewayIo, input: AnalyzeInput): (r: Result<(ThreePillarResult, string), Thrown>)
    ensures stored.None? ==> r == Err(Error("AI config not set. Please configure in settings."))
    ensures LoadAIConfig(stored, io.secret, io.crypto).Ok? && !input.content.Str? ==>
      r == Err(TypeError("params.content.slice is not a function"))
    ensures r.Ok? ==> stored.Some? && input.content.Str? && r.value.1 == stored.value.model
  {
    var loaded :- LoadAIConfig(stored, io.secret, io.crypto);
    if !input.content.Str? then Err(TypeError("params.content.slice is not a function"))
    else
      var a :- AnalyzeThreePillar(input.content.s, input.title, input.url, loaded.config, loaded.apiKey,
                                  io.send, io.parse);
      Ok((a, loaded.config.model))
  }

  /** A pillar's analysis in a result. */
  function PillarOf(a: ThreePillarResult, p: Pillar): Option<PillarAnalysis> {
    match p
    case CareerBusiness => a.careerBusiness
    case MarketStartup => a.marketStartup
    case SelfGrowth => a.selfGrowth
  }

  /** The position of a pillar in the handler's list. */
  function Rank(p: Pillar): nat {
    match p
    case CareerBusiness => 0
    case MarketStartup => 1
    case SelfGrowth => 2
  }

  /** The handler's list: each pillar with its analysis, in fixed order. */
  function PillarList(a: ThreePillarResult): seq<(Pillar, Option<PillarAnalysis>)> {
    [(CareerBusiness, a.careerBusiness), (MarketStartup, a.marketStartup), (SelfGrowth, a.selfGrowth)]
  }

  /** The entries with an analysis, in order. */
  function Present(entries: seq<(Pillar, Option<PillarAnalysis>)>): (r: seq<(Pillar, PillarAnalysis)>)
    ensures |r| <= |entries|
  {
    if |entries| == 0 then []
    else
      var n := |entries| - 1;
      var prev := Present(entries[..n]);
      if entries[n].1.Some? then prev + [(entries[n].0, entries[n].1.value)] else prev
  }

  /** The pillars with an analysis, in the order career_business,
      market_startup, self_growth. */
  function PresentPillars(a: ThreePillarResult): (r: seq<Pillar>)
    ensures forall p :: p in r <==> PillarOf(a, p).Some?
    ensures forall i, j :: 0 <= i < j < |r| ==> Rank(r[i]) < Rank(r[j])
  {
    (if a.careerBusiness.Some? then [CareerBusiness] else [])
    + (if a.marketStartup.Some? then [MarketStartup] else [])
    + (if a.selfGrowth.Some? then [SelfGrowth] else [])
  }

  /** The `insights` row of one pillar. */
  function NewInsight(id: string, itemId: Value, p: Pillar, d: PillarAnalysis, a: ThreePillarResult,
                      model: string, now: int): InsightRow {
    InsightRow(id, itemId, p, d.relevanceScore, d.insight, Stringify(StrArray(d.actionItems)),
               a.maturityRating, Stringify(Arr(a.tags)), model, now)
  }

  /** The rows the loop inserts: one per entry with an analysis, each with
      the next identifier of the supply. */
  function InsightRows(entries: seq<(Pillar, Option<PillarAnalysis>)>, itemId: Value, a: ThreePillarResult,
                       model: string, now: int, uuid: nat -> string, next: nat): (r: seq<InsightRow>)
  {
    if |entries| == 0 then []
    else
      var n := |entries| - 1;
      var prev := InsightRows(entries[..n], itemId, a, model, now, uuid, next);
      if entries[n].1.Some? then prev + [NewInsight(uuid(next + |prev|), itemId, entries[n].0, entries[n].1.value, a, model, now)]
      else prev
  }

  /** One row per entry with an analysis, in order, with consecutive
      identifiers. */
  lemma {:induction false} InsightRowsPresent(entries: seq<(Pillar, Option<PillarAnalysis>)>, itemId: Value,
                                              a: ThreePillarResult, model: string, now: int, uuid: nat -> string, next: nat)
    ensures var rows := InsightRows(entries, itemId, a, model, now, uuid, next);
      && |rows| == |Present(entries)|
      && forall k :: 0 <= k < |rows| ==>
           rows[k] == NewInsight(uuid(next + k), itemId, Present(entries)[k].0, Present(entries)[k].1, a, model, now)
  {
    if |entries| > 0 {
      InsightRowsPresent(entries[..|entries| - 1], itemId, a, model, now, uuid, next);
    }
  }

  /** `/internal/analyze` on the stores. */
  function AnalyzeStep(s: State, io: GatewayIo, uuid: nat -> string, next: nat, now: int, body: Value): (r: Served)
    ensures r.state.(insights := s.insights) == s
    ensures |s.insights| <= |r.state.insights| <= |s.insights| + 3 && r.state.insights[..|s.insights|] == s.insights
    ensures r.next == next + (|r.state.insights| - |s.insights|)
    ensures !(r.out.Ok? && r.out.value.Analyzed?) ==> r.state == s && r.next == next
  {
    match AnalyzeFields(body)
    case Err(e) => Served(Err(e), s, next)
    case Ok(None) => Served(Ok(MissingFields), s, next)
    case Ok(Some(input)) =>
      match Analyze(s.aiConfig, io, input)
      case Err(e) => Served(Err(e), s, next)
      case Ok((a, model)) => Recorded(s, input.itemId, a, model, now, uuid, next)
  }

  /** The analysis answered and its insight rows appended. */
  function Recorded(s: State, itemId: Value, a: ThreePillarResult, model: string, now: int,
                    uuid: nat -> string, next: nat): (r: Served)
    ensures r.out == Ok(Analyzed(a))
    ensures r.state.insights == s.insights + InsightRows(PillarList(a), itemId, a, model, now, uuid, next)
    ensures r.state.(insights := s.insights) == s
    ensures |s.insights| <= |r.state.insights| <= |s.insights| + 3 && r.state.insights[..|s.insights|] == s.insights
    ensures r.next == next + (|r.state.insights| - |s.insights|)
  {
    var rows := InsightRows(PillarList(a), itemId, a, model, now, uuid, next);
    InsightRowsPresent(PillarList(a), itemId, a, model, now, uuid, next);
    Served(Ok(Analyzed(a)), s.(insights := s.insights + rows), next + |rows|)
  }

  /** The analysis handler on the bindings: the analysis, then one insert
      per pillar that has one. */
  method HandleAnalyze(env: Env, rt: Runtime, io: GatewayIo, body: Value) returns (r: Result<Response, Thrown>)
    modifies env, rt
    ensures var h := AnalyzeStep(old(env.Snapshot()), io, rt.uuid, old(rt.minted), rt.now, body);
      r == h.out && env.Snapshot() == h.state && rt.minted == h.next
  {
    var fields := AnalyzeFields(body);
    if fields.Err? {
      return Err(fields.error);
    }
    if fields.value.None? {
      return Ok(MissingFields);
    }
    var input := fields.value.value;
    var analyzed := Analyze(env.aiConfig, io, input);
    if analyzed.Err? {
      return Err(analyzed.error);
    }
    var (a, model) := analyzed.value;
    InsertInsights(env, rt, PillarList(a), input.itemId, a, model);
    r := Ok(Analyzed(a));
  }

  /** The loop over the pillar list: an insert for each entry with an
      analysis. */
  method InsertInsights(env: Env, rt: Runtime, entries: seq<(Pillar, Option<PillarAnalysis>)>, itemId: Value,
                        a: ThreePillarResult, model: string)
    modifies env, rt
    ensures var rows := InsightRows(entries, itemId, a, model, rt.now, rt.uuid, old(rt.minted));
      env.Snapshot() == old(env.Snapshot()).(insights := old(env.insights) + rows)
      && rt.minted == old(rt.minted) + |rows|
  {
    ghost var s0 := env.Snapshot();
    ghost var next0 := rt.minted;
    var i := 0;
    while i < |entries|
      invariant 0 <= i <= |entries|
      invariant rt.minted == next0 + |InsightRows(entries[..i], itemId, a, model, rt.now, rt.uuid, next0)|
      invariant env.insights == s0.insights + InsightRows(entries[..i], itemId, a, model, rt.now, rt.uuid, next0)
      invariant env.jobs == s0.jobs && env.sources == s0.sources && env.items == s0.items
      invariant env.objects == s0.objects && env.vectors == s0.vectors && env.aiConfig == s0.aiConfig
      invariant env.analyzeRequests == s0.analyzeRequests
    {
      InsightRowsStep(entries, i, itemId, a, model, rt.now, rt.uuid, next0);
      var (p, d) := entries[i];
      if d.Some? {
        var id := rt.RandomUUID();
        env.insights := env.insights + [NewInsight(id, itemId, p, d.value, a, model, rt.now)];
      }
      i := i + 1;
    }
    assert entries[..i] == entries;
  }

  /** The rows of one more entry. */
  lemma InsightRowsStep(entries: seq<(Pillar, Option<PillarAnalysis>)>, i: nat, itemId: Value, a: ThreePillarResult,
                        model: string, now: int, uuid: nat -> string, next: nat)
    requires i < |entries|
    ensures var prev := InsightRows(entries[..i], itemId, a, model, now, uuid, next);
      InsightRows(entries[..i + 1], itemId, a, model, now, uuid, next)
      == if entries[i].1.Some? then prev + [NewInsight(uuid(next + |prev|), itemId, entries[i].0, entries[i].1.value, a, model, now)]
         else prev
  {
    assert entries[..i + 1][..i] == entries[..i];
  }

  /** A body without a truthy `content` or `item_id` is answered 400 and
      nothing is loaded, called or written. */
  lemma AnalyzeMissingFields(s: State, io: GatewayIo, uuid: nat -> string, next: nat, now: int,
                             fields: seq<(string, Value)>)
    requires !Truthy(Lookup(fields, "content")) || !Truthy(Lookup(fields, "item_id"))
    ensures AnalyzeStep(s, io, uuid, next, now, Obj(fields)) == Served(Ok(MissingFields), s, next)
  {
  }

  /** The entries of the handler's list that have an analysis are the
      present pillars with their analyses. */
  lemma PresentOfPillarList(a: ThreePillarResult)
    ensures |Present(PillarList(a))| == |PresentPillars(a)|
    ensures forall k :: 0 <= k < |PresentPillars(a)| ==>
      Present(PillarList(a))[k].0 == PresentPillars(a)[k]
      && Some(Present(PillarList(a))[k].1) == PillarOf(a, PresentPillars(a)[k])
  {
    var l := PillarList(a);
    var p1 := Present(l[..1]);
    assert l[..1][..0] == [] && l[..1][0] == (CareerBusiness, a.careerBusiness);
    assert p1 == (if a.careerBusiness.Some? then [(CareerBusiness, a.careerBusiness.value)] else []);
    var p2 := Present(l[..2]);
    assert l[..2][..1] == l[..1];
    assert p2 == p1 + (if a.marketStartup.Some? then [(MarketStartup, a.marketStartup.value)] else []);
    assert l[..3][..2] == l[..2] && l[..3] == l;
    assert Present(l) == p2 + (if a.selfGrowth.Some? then [(SelfGrowth, a.selfGrowth.value)] else []);
  }

  /** The insight fan-out: exactly one row per pillar with an analysis, in
      the order career_business, market_startup, self_growth, each carrying
      its pillar's score, insight and action items; all rows share the item
      id, maturity rating, tags, model and time, and take consecutive
      identifiers. */
  lemma InsightFanOut(a: ThreePillarResult, itemId: Value, model: string, now: int, uuid: nat -> string, next: nat)
    ensures var rows := InsightRows(PillarList(a), itemId, a, model, now, uuid, next);
      && |rows| == |PresentPillars(a)|
      && (forall k :: 0 <= k < |rows| ==>
           && rows[k].pillar == PresentPillars(a)[k]
           && PillarOf(a, rows[k].pillar).Some?
           && rows[k].relevanceScore == PillarOf(a, rows[k].pillar).value.relevanceScore
           && rows[k].summary == PillarOf(a, rows[k].pillar).value.insight
           && rows[k].actionItems == Stringify(StrArray(PillarOf(a, rows[k].pillar).value.actionItems)))
      && (forall k :: 0 <= k < |rows| ==>
           && rows[k].id == uuid(next + k) && rows[k].itemId == itemId
           && rows[k].maturityRating == a.maturityRating && rows[k].tags == Stringify(Arr(a.tags))
           && rows[k].modelVersion == model && rows[k].createdAt == now)
  {
    PresentOfPillarList(a);
    InsightRowsPresent(PillarList(a), itemId, a, model, now, uuid, next);
    var rows := InsightRows(PillarList(a), itemId, a, model, now, uuid, next);
    forall k | 0 <= k < |rows|
      ensures PillarOf(a, rows[k].pillar) == Some(Present(PillarList(a))[k].1)
    {
    }
  }

  /** An insight row's action items and tags read back, through
      safeJsonParse, as the arrays that were written, when `JSON.parse`
      inverts `JSON.stringify` on them. */
  lemma InsightReadBack(row: InsightRow, d: PillarAnalysis, a: ThreePillarResult, parse: Parse)
    requires row == NewInsight(row.id, row.itemId, row.pillar, d, a, row.modelVersion, row.createdAt)
    requires parse(Stringify(StrArray(d.actionItems))) == Ok(StrArray(d.actionItems))
    requires parse(Stringify(Arr(a.tags))) == Ok(Arr(a.tags))
    ensures SafeJsonParse(Str(row.actionItems), Arr([]), parse) == StrArray(d.actionItems)
    ensures SafeJsonParse(Str(row.tags), Arr([]), parse) == Arr(a.tags)
  {
  }

  // ---------------------------------------------------------------------------
  // POST /api/sources

  const DefaultSchedule := "0 */6 * * *"

  /** The fields of a new source, as texts. */
  datatype SourceInput = SourceInput(url: string, sourceType: string, name: string, schedule: string)

  /** The fields of a source request; `None` when `url`, `type` or `name` is
      falsy. Reading a field of a `null` body throws. */
  function SourceFields(body: Value): (r: Result<Option<SourceInput>, Thrown>)
    ensures r.Err? <==> body == Undefined || body == Null
    ensures r.Ok? ==> (r.value.Some? <==>
      Truthy(OptField(body, "url")) && Truthy(OptField(body, "type")) && Truthy(OptField(body, "name")))
    ensures r.Ok? && r.value.Some? && !Truthy(OptField(body, "schedule")) ==> r.value.value.schedule == DefaultSchedule
    ensures r.Ok? && r.value.Some? && Truthy(OptField(body, "schedule")) ==>
      r.value.value.schedule == ToJsString(OptField(body, "schedule"))
  {
    var url :- Field(body, "url");
    if !Truthy(url) then Ok(None)
    else
      // The body has been read once, so reading it again cannot throw.
      var sourceType := OptField(body, "type");
      if !Truthy(sourceType) then Ok(None)
      else
        var name := OptField(body, "name");
        if !Truthy(name) then Ok(None)
        else
          var schedule := OptField(body, "schedule");
          Ok(Some(SourceInput(ToJsString(url), ToJsString(sourceType), ToJsString(name),
                              ToJsString(Or(schedule, Str(DefaultSchedule))))))
  }

  /** The new `sources` row. */
  function NewSource(id: string, f: SourceInput, now: int): Source {
    Source(id, f.sourceType, f.name, f.url, f.schedule, Active, None, None, now)
  }

  /** The initial fetch job, due at once. */
  function InitialJob(id: string, sourceId: string, now: int): Job {
    Job(id, Fetch, Some(sourceId), Pending, None, 0, now, None, None, None)
  }

  /** `POST /api/sources` past the admin check, on the stores. */
  function CreateSourceStep(s: State, uuid: nat -> string, next: nat, now: int, body: Value): (r: Served)
    ensures r.state.(sources := s.sources, jobs := s.jobs) == s
    ensures r.out.Ok? && r.out.value.Created? ==>
      r.state.sources == s.sources + [r.out.value.source] && |r.state.jobs| == |s.jobs| + 1 && r.next == next + 2
    ensures !(r.out.Ok? && r.out.value.Created?) ==> r.state == s && r.next == next
  {
    match SourceFields(body)
    case Err(e) => Served(Err(e), s, next)
    case Ok(None) => Served(Ok(MissingFields), s, next)
    case Ok(Some(f)) =>
      var source := NewSource(uuid(next), f, now);
      Served(Ok(Created(source)),
             s.(sources := s.sources + [source], jobs := s.jobs + [InitialJob(uuid(next + 1), source.id, now)]),
             next + 2)
  }

  /** The source handler on the bindings. */
  method CreateSource(env: Env, rt: Runtime, body: Value) returns (r: Result<Response, Thrown>)
    modifies env, rt
    ensures var h := CreateSourceStep(old(env.Snapshot()), rt.uuid, old(rt.minted), rt.now, body);
      r == h.out && env.Snapshot() == h.state && rt.minted == h.next
  {
    var fields := SourceFields(body);
    if fields.Err? {
      return Err(fields.error);
    }
    if fields.value.None? {
      return Ok(MissingFields);
    }
    var id := rt.RandomUUID();
    var source := NewSource(id, fields.value.value, rt.now);
    env.sources := env.sources + [source];
    var jobId := rt.RandomUUID();
    env.jobs := env.jobs + [InitialJob(jobId, source.id, rt.now)];
    r := Ok(Created(source));
  }

  /** A created source is active, never fetched, without an etag, and has
      exactly one job: a pending fetch of it due at its creation time. Only
      the sources and jobs tables change. */
  lemma SourceCreation(s: State, uuid: nat -> string, next: nat, now: int, body: Value)
    requires SourceFields(body).Ok? && SourceFields(body).value.Some?
    ensures var h := CreateSourceStep(s, uuid, next, now, body);
      && h.out.Ok? && h.out.value.Created? && h.out.value.Status() == 201
      && var src := h.out.value.source;
      && src.id == uuid(next) && src.status == Active && src.etag.None? && src.lastFetchedAt.None?
      && src.createdAt == now
      && h.state.sources == s.sources + [src]
      && |h.state.jobs| == |s.jobs| + 1 && h.state.jobs[..|s.jobs|] == s.jobs
      && var job := h.state.jobs[|s.jobs|];
      && job.jobType == Fetch && job.status == Pending && job.sourceId == Some(src.id)
      && job.nextRunAt == src.createdAt && job.id == uuid(next + 1)
      && h.state.(sources := s.sources, jobs := s.jobs) == s
      && h.next == next + 2
  {
    var h := CreateSourceStep(s, uuid, next, now, body);
    assert h.state.jobs[..|s.jobs|] == s.jobs;
  }

  /** A source request without a truthy `url`, `type` or `name` is answered
      400 and writes nothing. */
  lemma SourceMissingFields(s: State, uuid: nat -> string, next: nat, now: int, fields: seq<(string, Value)>)
    requires !Truthy(Lookup(fields, "url")) || !Truthy(Lookup(fields, "type")) || !Truthy(Lookup(fields, "name"))
    ensures CreateSourceStep(s, uuid, next, now, Obj(fields)) == Served(Ok(MissingFields), s, next)
  {
  }
}
