/** The provider router of the API gateway: one chat request is shaped into
    the wire format of OpenAI, Anthropic or Gemini, sent, and the reply's
    text is picked out of the provider's response shape. The HTTP round trip
    is a parameter (`Send`); a request body is built as a JSON value and sent
    as its `JSON.stringify` text. */
module AiRouter {
  import opened Wrappers
  import opened JsString
  import opened JsValue

  datatype Role = System | User | Assistant

  function RoleText(r: Role): string {
    match r
    case System => "system"
    case User => "user"
    case Assistant => "assistant"
  }

  datatype ChatMessage = ChatMessage(role: Role, content: string)

  /** The call options. `baseUrl`, `temperature` and `maxTokens` are optional
      and may also be `null`, so each is kept as a JSON value. */
  datatype AIOptions = AIOptions(
    provider: string,
    apiKey: string,
    model: string,
    baseUrl: Value,
    temperature: Value,
    maxTokens: Value)

  /** An outgoing request: URL, headers and the JSON body. */
  datatype WireRequest = WireRequest(url: string, headers: seq<(string, string)>, body: Value)

  /** What `fetch` and `res.json()` give back: the status and the parsed body. */
  datatype ProviderReply = ProviderReply(status: nat, raw: Value)

  /** The HTTP round trip: URL, headers and body text in; the reply, or what
      `fetch` or `res.json()` threw. */
  type Send = (string, seq<(string, string)>, string) -> Result<ProviderReply, Thrown>

  datatype AIResponse = AIResponse(content: Value, raw: Value)

  const DefaultTemperature: Value := Num(Finite(0.2), "0.2")
  const DefaultMaxTokens: Value := Num(Finite(2000.0), "2000")

  const OpenAIBase := "https://api.openai.com/v1"
  const AnthropicBase := "https://api.anthropic.com/v1"
  const GeminiBase := "https://generativelanguage.googleapis.com/v1beta"

  // ---------------------------------------------------------------------------
  // Message lists

  /** `messages.find(m => m.role === 'system')?.content`. */
  function SystemContent(msgs: seq<ChatMessage>): (r: Option<string>)
    ensures r.None? <==> forall i :: 0 <= i < |msgs| ==> msgs[i].role != System
    ensures r.Some? ==> exists i :: 0 <= i < |msgs| && msgs[i] == ChatMessage(System, r.value)
                                    && forall k :: 0 <= k < i ==> msgs[k].role != System
  {
    if |msgs| == 0 then None
    else if msgs[0].role == System then
      assert msgs[0] == ChatMessage(System, msgs[0].content);
      Some(msgs[0].content)
    else
      var r := SystemContent(msgs[1..]);
      if r.Some? then
        var i :| 0 <= i < |msgs[1..]| && msgs[1..][i] == ChatMessage(System, r.value)
                 && forall k :: 0 <= k < i ==> msgs[1..][k].role != System;
        assert msgs[i + 1] == ChatMessage(System, r.value);
        assert forall k :: 0 <= k < i + 1 ==> msgs[k].role != System by {
          forall k | 0 <= k < i + 1 ensures msgs[k].role != System {
            if k > 0 { assert msgs[k] == msgs[1..][k - 1]; }
          }
        }
        r
      else
        assert forall i :: 0 <= i < |msgs| ==> msgs[i].role != System by {
          forall i | 0 <= i < |msgs| ensures msgs[i].role != System {
            if i > 0 { assert msgs[i] == msgs[1..][i - 1]; }
          }
        }
        r
  }

  /** `messages.filter(m => m.role !== 'system')`. */
  function NonSystem(msgs: seq<ChatMessage>): (r: seq<ChatMessage>)
    ensures |r| <= |msgs|
    ensures forall i :: 0 <= i < |r| ==> r[i].role != System && r[i] in msgs
  {
    if |msgs| == 0 then []
    else if msgs[0].role == System then NonSystem(msgs[1..])
    else [msgs[0]] + NonSystem(msgs[1..])
  }

  /** Filtering distributes over concatenation, so the kept messages stay in
      their original order. */
  lemma {:induction false} NonSystemAppend(a: seq<ChatMessage>, b: seq<ChatMessage>)
    ensures NonSystem(a + b) == NonSystem(a) + NonSystem(b)
  {
    if |a| > 0 {
      assert (a + b)[1..] == a[1..] + b;
      NonSystemAppend(a[1..], b);
    } else {
      assert a + b == b;
    }
  }

  /** A list without system messages is passed through unchanged. */
  lemma {:induction false} NonSystemKeepsAll(msgs: seq<ChatMessage>)
    requires forall i :: 0 <= i < |msgs| ==> msgs[i].role != System
    ensures NonSystem(msgs) == msgs
  {
    if |msgs| > 0 {
      NonSystemKeepsAll(msgs[1..]);
    }
  }

  /** `{ role, content }` as sent to OpenAI. */
  function MessageValue(m: ChatMessage): Value {
    Obj([("role", Str(RoleText(m.role))), ("content", Str(m.content))])
  }

  /** Anthropic's role: `assistant` stays, every other role becomes `user`. */
  function AnthropicRole(r: Role): string {
    if r == Assistant then "assistant" else "user"
  }

  /** Gemini's role: `assistant` becomes `model`, every other role `user`. */
  function GeminiRole(r: Role): string {
    if r == Assistant then "model" else "user"
  }

  function TextPart(text: string): Value {
    Obj([("text", Str(text))])
  }

  function AnthropicMessage(m: ChatMessage): Value {
    Obj([("role", Str(AnthropicRole(m.role))), ("content", Str(m.content))])
  }

  function GeminiContent(m: ChatMessage): Value {
    Obj([("role", Str(GeminiRole(m.role))), ("parts", Arr([TextPart(m.content)]))])
  }

  /** `msgs.map(f)` as a JSON array. */
  function MapMessages(msgs: seq<ChatMessage>, f: ChatMessage -> Value): (r: Value)
    ensures r.Arr? && |r.elems| == |msgs|
    ensures forall i :: 0 <= i < |msgs| ==> r.elems[i] == f(msgs[i])
  {
    Arr(seq(|msgs|, i requires 0 <= i < |msgs| => f(msgs[i])))
  }

  // ---------------------------------------------------------------------------
  // Request shaping

  /** `${baseUrl || fallback}`. */
  function BaseOr(baseUrl: Value, fallback: string): (r: string)
    ensures (baseUrl == Undefined || baseUrl == Null || baseUrl == Str("")) ==> r == fallback
    ensures (baseUrl.Str? && baseUrl.s != "") ==> r == baseUrl.s
  {
    ToJsString(Or(baseUrl, Str(fallback)))
  }

  function BuildOpenAI(o: AIOptions, msgs: seq<ChatMessage>): WireRequest {
    WireRequest(
      BaseOr(o.baseUrl, OpenAIBase) + "/chat/completions",
      [("Authorization", "Bearer " + o.apiKey), ("Content-Type", "application/json")],
      Obj([("model", Str(o.model)),
           ("messages", MapMessages(msgs, MessageValue)),
           ("temperature", Coalesce(o.temperature, DefaultTemperature)),
           ("max_tokens", Coalesce(o.maxTokens, DefaultMaxTokens))]))
  }

  /** `systemMsg?.content`: `undefined` (and so left out of the JSON) when
      there is no system message. */
  function OptStr(c: Option<string>): Value {
    match c
    case Some(t) => Str(t)
    case None => Undefined
  }

  function BuildAnthropic(o: AIOptions, msgs: seq<ChatMessage>): WireRequest {
    WireRequest(
      BaseOr(o.baseUrl, AnthropicBase) + "/messages",
      [("x-api-key", o.apiKey), ("anthropic-version", "2023-06-01"), ("Content-Type", "application/json")],
      Obj([("model", Str(o.model)),
           ("max_tokens", Coalesce(o.maxTokens, DefaultMaxTokens)),
           ("temperature", Coalesce(o.temperature, DefaultTemperature)),
           ("system", OptStr(SystemContent(msgs))),
           ("messages", MapMessages(NonSystem(msgs), AnthropicMessage))]))
  }

  /** `systemMsg ? { parts: [{ text: systemMsg }] } : undefined`. */
  function SystemInstruction(c: Option<string>): Value {
    match c
    case Some(t) => if t != "" then Obj([("parts", Arr([TextPart(t)]))]) else Undefined
    case None => Undefined
  }

  function BuildGemini(o: AIOptions, msgs: seq<ChatMessage>): WireRequest {
    WireRequest(
      BaseOr(o.baseUrl, GeminiBase) + "/models/" + o.model + ":generateContent?key=" + o.apiKey,
      [("Content-Type", "application/json")],
      Obj([("systemInstruction", SystemInstruction(SystemContent(msgs))),
           ("contents", MapMessages(NonSystem(msgs), GeminiContent)),
           ("generationConfig", Obj([("temperature", Coalesce(o.temperature, DefaultTemperature)),
                                     ("maxOutputTokens", Coalesce(o.maxTokens, DefaultMaxTokens))]))]))
  }

  predicate Supported(provider: string) {
    provider == "openai" || provider == "anthropic" || provider == "gemini"
  }

  /** The provider's name as its error messages spell it. */
  function Label(provider: string): string {
    if provider == "openai" then "OpenAI" else if provider == "anthropic" then "Anthropic" else "Gemini"
  }

  /** The `switch` in `callAI`: the request for a supported provider, an
      error naming any other. */
  function Build(o: AIOptions, msgs: seq<ChatMessage>): (r: Result<WireRequest, Thrown>)
    ensures r.Err? <==> !Supported(o.provider)
    ensures r.Err? ==> r.error == Error("Unsupported provider: " + o.provider)
  {
    if o.provider == "openai" then Ok(BuildOpenAI(o, msgs))
    else if o.provider == "anthropic" then Ok(BuildAnthropic(o, msgs))
    else if o.provider == "gemini" then Ok(BuildGemini(o, msgs))
    else Err(Error("Unsupported provider: " + o.provider))
  }

  // ---------------------------------------------------------------------------
  // Replies

  /** The reply text before the `?? ''` default:
      `raw.choices?.[0]?.message?.content`, `raw.content?.[0]?.text` or
      `raw.candidates?.[0]?.content?.parts?.[0]?.text`. The first property
      access is not optional, so a `null` body throws. */
  function ContentPath(provider: string, raw: Value): (r: Result<Value, Thrown>)
    ensures r.Err? <==> raw == Undefined || raw == Null
    ensures r.Err? ==> r.error.name == "TypeError"
  {
    if provider == "openai" then
      var choices :- Field(raw, "choices");
      Ok(OptField(OptField(OptIndex(choices, 0), "message"), "content"))
    else if provider == "anthropic" then
      var content :- Field(raw, "content");
      Ok(OptField(OptIndex(content, 0), "text"))
    else
      var candidates :- Field(raw, "candidates");
      Ok(OptField(OptIndex(OptField(OptField(OptIndex(candidates, 0), "content"), "parts"), 0), "text"))
  }

  /** A supported provider's reply: an error carrying the status and the
      serialised body when it is not ok, otherwise the content. */
  function Receive(provider: string, reply: ProviderReply): (r: Result<AIResponse, Thrown>)
    ensures !(200 <= reply.status <= 299) ==>
      r == Err(Error(Label(provider) + " error: " + NatToString(reply.status) + " " + Stringify(reply.raw)))
    ensures 200 <= reply.status <= 299 ==> (r.Err? <==> reply.raw == Undefined || reply.raw == Null)
    ensures r.Ok? ==> r.value.raw == reply.raw && r.value.content != Undefined && r.value.content != Null
  {
    if !(200 <= reply.status <= 299) then
      Err(Error(Label(provider) + " error: " + NatToString(reply.status) + " " + Stringify(reply.raw)))
    else
      var content :- ContentPath(provider, reply.raw);
      Ok(AIResponse(Coalesce(content, Str("")), reply.raw))
  }

  /** `callAI(options, messages)`. */
  function CallAI(o: AIOptions, msgs: seq<ChatMessage>, send: Send): (r: Result<AIResponse, Thrown>)
    ensures !Supported(o.provider) ==> r == Err(Error("Unsupported provider: " + o.provider))
    ensures r.Ok? ==> Supported(o.provider) && r.value.content != Undefined && r.value.content != Null
  {
    var req :- Build(o, msgs);
    var reply :- send(req.url, req.headers, Stringify(req.body));
    Receive(o.provider, reply)
  }

  // ---------------------------------------------------------------------------
  // Properties

  /** The members of a request body. */
  function BodyField(req: WireRequest, key: string): Value {
    OptField(req.body, key)
  }

  /** The temperature and token limit a request carries, wherever its
      provider puts them. */
  function SentTemperature(provider: string, req: WireRequest): Value {
    if provider == "gemini" then OptField(BodyField(req, "generationConfig"), "temperature")
    else BodyField(req, "temperature")
  }

  function SentMaxTokens(provider: string, req: WireRequest): Value {
    if provider == "gemini" then OptField(BodyField(req, "generationConfig"), "maxOutputTokens")
    else BodyField(req, "max_tokens")
  }

  /** Defaults apply only to unset options: an unset temperature or limit is
      sent as 0.2 or 2000, any other value (an explicit 0 included) as given. */
  lemma DefaultsOnlyWhenUnset(o: AIOptions, msgs: seq<ChatMessage>)
    requires Supported(o.provider)
    ensures Build(o, msgs).Ok?
    ensures var req := Build(o, msgs).value;
      && SentTemperature(o.provider, req) == (if o.temperature.Undefined? || o.temperature.Null? then DefaultTemperature else o.temperature)
      && SentMaxTokens(o.provider, req) == (if o.maxTokens.Undefined? || o.maxTokens.Null? then DefaultMaxTokens else o.maxTokens)
  {
    var body := Build(o, msgs).value.body;
    if o.provider == "openai" {
      LookupAt(body.fields, "temperature", 2);
      LookupAt(body.fields, "max_tokens", 3);
    } else if o.provider == "anthropic" {
      LookupAt(body.fields, "max_tokens", 1);
      LookupAt(body.fields, "temperature", 2);
    } else {
      LookupAt(body.fields, "generationConfig", 2);
      var config := body.fields[2].1;
      LookupAt(config.fields, "temperature", 0);
      LookupAt(config.fields, "maxOutputTokens", 1);
    }
  }

  /** An explicit temperature of 0 is sent as 0, not replaced by the default. */
  lemma ZeroTemperatureKept(o: AIOptions, msgs: seq<ChatMessage>)
    requires Supported(o.provider) && o.temperature == Num(Finite(0.0), "0")
    ensures SentTemperature(o.provider, Build(o, msgs).value) == Num(Finite(0.0), "0")
  {
    DefaultsOnlyWhenUnset(o, msgs);
  }

  /** The endpoint: the base URL, or the provider's default when it is empty
      or missing, followed by the provider's path. */
  lemma Endpoints(o: AIOptions, msgs: seq<ChatMessage>)
    requires Supported(o.provider)
    requires o.baseUrl.Str? || o.baseUrl.Undefined? || o.baseUrl.Null?
    ensures var base := if o.baseUrl.Str? && o.baseUrl.s != "" then o.baseUrl.s
                        else if o.provider == "openai" then OpenAIBase
                        else if o.provider == "anthropic" then AnthropicBase
                        else GeminiBase;
      Build(o, msgs).value.url == base +
        (if o.provider == "openai" then "/chat/completions"
         else if o.provider == "anthropic" then "/messages"
         else "/models/" + o.model + ":generateContent?key=" + o.apiKey)
  {
  }

  /** OpenAI receives the message list as given. */
  lemma OpenAIMessages(o: AIOptions, msgs: seq<ChatMessage>)
    requires o.provider == "openai"
    ensures var sent := BodyField(Build(o, msgs).value, "messages");
      sent.Arr? && |sent.elems| == |msgs| &&
      forall i :: 0 <= i < |msgs| ==>
        sent.elems[i] == Obj([("role", Str(RoleText(msgs[i].role))), ("content", Str(msgs[i].content))])
  {
    LookupAt(Build(o, msgs).value.body.fields, "messages", 1);
  }

  /** Anthropic receives the first system message as `system` and the other
      messages in order, with every role but `assistant` sent as `user`. */
  lemma AnthropicShape(o: AIOptions, msgs: seq<ChatMessage>)
    requires o.provider == "anthropic"
    ensures var req := Build(o, msgs).value;
      && (SystemContent(msgs).Some? ==> BodyField(req, "system") == Str(SystemContent(msgs).value))
      && (SystemContent(msgs).None? ==> BodyField(req, "system") == Undefined)
      && var sent := BodyField(req, "messages");
         var kept := NonSystem(msgs);
         sent.Arr? && |sent.elems| == |kept| &&
         forall i :: 0 <= i < |kept| ==>
           sent.elems[i] == Obj([("role", Str(if kept[i].role == Assistant then "assistant" else "user")),
                                 ("content", Str(kept[i].content))])
  {
    var body := Build(o, msgs).value.body;
    LookupAt(body.fields, "system", 3);
    LookupAt(body.fields, "messages", 4);
  }

  /** Gemini receives `systemInstruction` exactly when the first system
      message has non-empty content, and the other messages in order, each as
      one text part, with `assistant` sent as `model`. */
  lemma GeminiShape(o: AIOptions, msgs: seq<ChatMessage>)
    requires o.provider == "gemini"
    ensures var req := Build(o, msgs).value;
      && (BodyField(req, "systemInstruction") != Undefined <==>
            SystemContent(msgs).Some? && SystemContent(msgs).value != "")
      && var sent := BodyField(req, "contents");
         var kept := NonSystem(msgs);
         sent.Arr? && |sent.elems| == |kept| &&
         forall i :: 0 <= i < |kept| ==>
           sent.elems[i] == Obj([("role", Str(if kept[i].role == Assistant then "model" else "user")),
                                 ("parts", Arr([Obj([("text", Str(kept[i].content))])]))])
  {
    var body := Build(o, msgs).value.body;
    LookupAt(body.fields, "systemInstruction", 0);
    LookupAt(body.fields, "contents", 1);
  }

  /** Any provider other than the three throws before a request is sent. */
  lemma UnsupportedThrows(o: AIOptions, msgs: seq<ChatMessage>, send: Send)
    requires !Supported(o.provider)
    ensures CallAI(o, msgs, send) == Err(Error("Unsupported provider: " + o.provider))
  {
  }

  /** A reply that is not ok throws an error naming the provider, the status
      and the serialised body; no content is returned. */
  lemma NotOkThrows(o: AIOptions, msgs: seq<ChatMessage>, send: Send)
    requires Supported(o.provider)
    requires var req := Build(o, msgs).value;
      send(req.url, req.headers, Stringify(req.body)).Ok? &&
      !(200 <= send(req.url, req.headers, Stringify(req.body)).value.status <= 299)
    ensures var req := Build(o, msgs).value;
      var reply := send(req.url, req.headers, Stringify(req.body)).value;
      CallAI(o, msgs, send) == Err(Error(Label(o.provider) + " error: " + NatToString(reply.status) + " " + Stringify(reply.raw)))
  {
  }

  /** An ok OpenAI reply whose `choices[0].message.content` holds `v` gives
      `v`, or `''` when `v` is `null`; other members of the reply do not
      matter. */
  lemma OpenAIText(status: nat, fields: seq<(string, Value)>, choices: seq<Value>, message: seq<(string, Value)>, v: Value)
    requires 200 <= status <= 299
    requires Lookup(fields, "choices") == Arr(choices) && |choices| > 0 && choices[0].Obj?
    requires Lookup(choices[0].fields, "message") == Obj(message) && Lookup(message, "content") == v
    ensures v != Undefined && v != Null ==>
      Receive("openai", ProviderReply(status, Obj(fields))) == Ok(AIResponse(v, Obj(fields)))
    ensures v == Undefined || v == Null ==>
      Receive("openai", ProviderReply(status, Obj(fields))) == Ok(AIResponse(Str(""), Obj(fields)))
  {
  }

  /** An ok OpenAI reply object gives `''` when `choices` is missing, `null`
      or an empty array, when the first choice has no `message` or a `null`
      one, or when the message has no `content` or a `null` one. */
  lemma OpenAIMissing(status: nat, fields: seq<(string, Value)>)
    requires 200 <= status <= 299
    requires var c := Lookup(fields, "choices");
      || c == Undefined || c == Null || c == Arr([])
      || (c.Arr? && |c.elems| > 0 && c.elems[0].Obj? &&
          var m := Lookup(c.elems[0].fields, "message");
          || m == Undefined || m == Null
          || (m.Obj? && (Lookup(m.fields, "content") == Undefined || Lookup(m.fields, "content") == Null)))
    ensures Receive("openai", ProviderReply(status, Obj(fields))) == Ok(AIResponse(Str(""), Obj(fields)))
  {
  }

  /** An ok Anthropic reply whose `content[0].text` holds `v` gives `v`, or
      `''` when `v` is `null`. */
  lemma AnthropicText(status: nat, fields: seq<(string, Value)>, content: seq<Value>, v: Value)
    requires 200 <= status <= 299
    requires Lookup(fields, "content") == Arr(content) && |content| > 0 && content[0].Obj?
    requires Lookup(content[0].fields, "text") == v
    ensures v != Undefined && v != Null ==>
      Receive("anthropic", ProviderReply(status, Obj(fields))) == Ok(AIResponse(v, Obj(fields)))
    ensures v == Undefined || v == Null ==>
      Receive("anthropic", ProviderReply(status, Obj(fields))) == Ok(AIResponse(Str(""), Obj(fields)))
  {
  }

  /** An ok Anthropic reply object gives `''` when `content` is missing,
      `null` or an empty array, or when its first block has no `text` or a
      `null` one. */
  lemma AnthropicMissing(status: nat, fields: seq<(string, Value)>)
    requires 200 <= status <= 299
    requires var c := Lookup(fields, "content");
      || c == Undefined || c == Null || c == Arr([])
      || (c.Arr? && |c.elems| > 0 && c.elems[0].Obj? &&
          (Lookup(c.elems[0].fields, "text") == Undefined || Lookup(c.elems[0].fields, "text") == Null))
    ensures Receive("anthropic", ProviderReply(status, Obj(fields))) == Ok(AIResponse(Str(""), Obj(fields)))
  {
  }

  /** An ok Gemini reply whose `candidates[0].content.parts[0].text` holds
      `v` gives `v`, or `''` when `v` is `null`. */
  lemma GeminiText(status: nat, fields: seq<(string, Value)>, candidates: seq<Value>,
                   content: seq<(string, Value)>, parts: seq<Value>, v: Value)
    requires 200 <= status <= 299
    requires Lookup(fields, "candidates") == Arr(candidates) && |candidates| > 0 && candidates[0].Obj?
    requires Lookup(candidates[0].fields, "content") == Obj(content)
    requires Lookup(content, "parts") == Arr(parts) && |parts| > 0 && parts[0].Obj?
    requires Lookup(parts[0].fields, "text") == v
    ensures v != Undefined && v != Null ==>
      Receive("gemini", ProviderReply(status, Obj(fields))) == Ok(AIResponse(v, Obj(fields)))
    ensures v == Undefined || v == Null ==>
      Receive("gemini", ProviderReply(status, Obj(fields))) == Ok(AIResponse(Str(""), Obj(fields)))
  {
  }

  /** An ok Gemini reply object gives `''` when `candidates` is missing,
      `null` or an empty array, when the first candidate has no `content` or
      a `null` one, when that has no `parts` or `null` or empty ones, or when
      the first part has no `text` or a `null` one. */
  lemma GeminiMissing(status: nat, fields: seq<(string, Value)>)
    requires 200 <= status <= 299
    requires var c := Lookup(fields, "candidates");
      || c == Undefined || c == Null || c == Arr([])
      || (c.Arr? && |c.elems| > 0 && c.elems[0].Obj? &&
          var content := Lookup(c.elems[0].fields, "content");
          || content == Undefined || content == Null
          || (content.Obj? &&
              var parts := Lookup(content.fields, "parts");
              || parts == Undefined || parts == Null || parts == Arr([])
              || (parts.Arr? && |parts.elems| > 0 && parts.elems[0].Obj? &&
                  (Lookup(parts.elems[0].fields, "text") == Undefined || Lookup(parts.elems[0].fields, "text") == Null))))
    ensures Receive("gemini", ProviderReply(status, Obj(fields))) == Ok(AIResponse(Str(""), Obj(fields)))
  {
  }
}
