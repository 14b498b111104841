# Loom worker pipeline

A model of the three Cloudflare Workers of Loom, a personal insight
pipeline, together with the services they share.

- **Scheduler.** Every few minutes it selects up to ten due pending jobs,
  earliest first. It marks each one `running` and posts it to the processor.
  A job whose dispatch fails is marked `failed`.
- **Processor.** It runs a fetch job:
  - it reads the job's source;
  - it collects new items: the first ten entries of an RSS feed, or the
    source's own page;
  - for each item it stores the page text in R2, an embedding in Vectorize
    and a row in `items`, and asks the API gateway to analyse it;
  - it stamps the source and schedules the next fetch six hours on.

  The job is then marked `completed`, or `failed` with the error text.
- **API gateway.** The model covers these parts of it:
  - the `/internal/analyze` endpoint, which asks the configured AI provider
    for a three-pillar analysis and stores one insight row per relevant
    pillar;
  - the retrieval-augmented `/api/chat`;
  - source creation (`POST /api/sources`), which also queues the source's
    first fetch;
  - the limit clamps;
  - the encrypted provider key: AES-GCM with a 12-byte IV, held as
    `base64(iv):base64(ciphertext)`;
  - the provider router for OpenAI, Anthropic and Gemini.

How the model is built:

- The D1 tables are sequences of rows in insertion order. R2 and Vectorize
  are maps, and the AI configuration entry is an `Option`. All of them are
  fields of one class, `Store.Env`.
- `Date.now()` and `crypto.randomUUID()` come from `Store.Runtime`: one
  clock reading per invocation, and a supply of identifiers.
- Each state-changing handler is a method proved equal to a pure step
  function over the `Store.State` snapshot. The properties are proved about
  those step functions.
- Services whose code is not part of the repository are parameters of the
  model: the network, the embedding model, the vector search, SHA-256,
  AES-GCM and `JSON.parse`.
- The scheduler's PROCESSOR binding is a parameter too, although the
  processor is part of the repository. It gives only the reply to the
  posted job. The processor's own writes during that call are not composed
  into the scheduler's step (see "Left out").
- The JavaScript semantics the code relies on are modelled explicitly:
  - truthiness, `||`, `??` and `?.`;
  - `String()`, `Number()` and `JSON.stringify`;
  - `trim`, `slice`, `split`, `toUpperCase`, and `replace` with string and
    global patterns;
  - `btoa` and `atob`, as RFC 4648 base64 with the WHATWG forgiving decode.

Files:

| file | contents |
|---|---|
| `wrappers.dfy` | `Option` and `Result` |
| `js_string.dfy` | JavaScript string operations |
| `js_value.dfy` | JSON values, truthiness, conversions, `JSON.stringify` |
| `types.dfy` | the rows and records of `shared/types.ts` |
| `store.dfy` | the shared state, the `Env` and `Runtime` classes, row updates |
| `feed.dfy` | RSS parsing, CDATA cleaning, text extraction, the hex digest |
| `processor.dfy` | the processor worker |
| `scheduler.dfy` | the scheduler worker |
| `ai_router.dfy` | `callAI` and the three provider requests |
| `three_pillar.dfy` | the analysis prompt and response normalisation |
| `base64.dfy` | `btoa` and `atob` |
| `encryption.dfy` | the key envelope |
| `gateway.dfy` | the gateway handlers modelled |

## Model

| member | source | states |
|---|---|---|
| JsString.Split | workers/api-gateway/src/services/encryption.ts:12 | `split(':')` gives at least one piece. No piece contains the separator, and joining the pieces with it gives the text back. |
| JsString.SplitFirst | workers/api-gateway/src/services/encryption.ts:12 | When `a` has no separator, the pieces of `a:b` are `a` followed by the pieces of `b`. |
| JsString.CollapseSpaces | workers/processor/src/index.ts:160 | Never longer than its input. Leaves no two adjacent white-space characters, and every white-space character left is a plain space. It starts with white space iff the input does. |
| JsString.Prefix | workers/processor/src/index.ts:162 | `slice(0, n)` keeps the whole text when it is no longer than `n`, and otherwise its first `n` characters. |
| JsValue.Or | workers/api-gateway/src/services/three-pillar.ts:91 | `v \|\| d` is `v` exactly when `v` is truthy, and `d` otherwise. |
| JsValue.Coalesce | workers/api-gateway/src/services/ai-router.ts:42 | `v ?? d` is `d` exactly when `v` is `undefined` or `null`. |
| Store.Runtime.RandomUUID | workers/processor/src/index.ts:92 | Each call returns the next identifier of the supply and advances the supply by one. |
| Store.FindSource | workers/processor/src/index.ts:33-35 | The first row with the requested id (`results[0]`). None is found only when no row has that id. |
| Store.UpdateJobs | workers/scheduler/src/index.ts:26-28 | `UPDATE jobs … WHERE id = ?` rewrites every row with that id, leaves every other row unchanged, and keeps the row count. |
| Store.UpdateWhere | workers/scheduler/src/index.ts:26-28 | An `UPDATE … WHERE id = ?` rewrites every row with that id, leaves every other row unchanged, and keeps the row count and order. |
| Store.UpdateSources | workers/processor/src/index.ts:44-45 | `UPDATE sources … WHERE id = ?` rewrites every row with that id and leaves the others unchanged. |
| Store.UpdatesNeverWritePending | workers/processor/src/index.ts:170-180 | The `running`, `completed` and `failed` updates never produce a pending row. A pending row afterwards is a pending row of another job. |
| Feed.ElementAt | workers/processor/src/index.ts:147 | A match at a position satisfies `ElementMatch`: `<tag` there, ignoring case, the capture starting after the first `>`, and ending at the first closing `</tag>` after it (the lazy match). No match means no capture satisfies `ElementMatch` there. |
| Feed.ElementMatchUnique | workers/processor/src/index.ts:147 | A match fixes its capture: at most one span satisfies `ElementMatch` at a position. |
| Feed.ItemBlocks | workers/processor/src/index.ts:134 | Every block matched by the global `<item…>…</item>` pattern starts with `<item` and ends with `</item>`, ignoring case. |
| Feed.ItemBlocksFirst | workers/processor/src/index.ts:134 | The blocks are the successive leftmost matches. There are none when no element matches. Otherwise the first block is the whole leftmost match, and the search resumes at its end. |
| Feed.FirstElement | workers/processor/src/index.ts:147 | The non-global match is the first position where an element of the tag opens. No earlier position matches. |
| Feed.ExtractTag | workers/processor/src/index.ts:146-149 | The result is the capture of the first element of the tag, trimmed. It is non-empty iff that capture holds a character that is not white space. It is empty when the block has no element of the tag. |
| JsString.TrimEmpty | workers/processor/src/index.ts:148 | `trim` leaves nothing exactly when the text is all white space. |
| Feed.CandidateOf | workers/processor/src/index.ts:137-140 | An item block gives an entry iff both its title and its link are non-empty. |
| Feed.ParseRss | workers/processor/src/index.ts:132-144 | The loop returns the entries of the item blocks in document order, skipping blocks without a title or a link. |
| Feed.CandidatesAppend | workers/processor/src/index.ts:136-142 | The entries of two block lists concatenated are the two lists' entries concatenated. |
| Feed.CandidatesFromBlocks | workers/processor/src/index.ts:136-142 | There are no more entries than blocks, and every entry comes from one of the blocks. |
| Feed.Candidates | workers/processor/src/index.ts:136-142 | There are no more entries than blocks. `CandidatesAppend` and `CandidatesFromBlocks` give the rest: the entries follow block order, and each block contributes at most one entry. |
| Feed.ReplaceAllShrinks | workers/processor/src/index.ts:152 | Replacing a pattern globally by a text no longer than the pattern never lengthens the text. |
| Feed.ReplaceAllAbsent | workers/processor/src/index.ts:152 | A global replace leaves a text without the pattern's first character unchanged. |
| Feed.StripCData | workers/processor/src/index.ts:152 | Removing the `<![CDATA[` and `]]>` markers never lengthens the text. `StripCDataPlain` shows that a text with neither marker is kept. |
| Feed.CleanCData | workers/processor/src/index.ts:151-153 | Has no contract of its own. Its lemmas `CleanCDataShape`, `CleanCDataUnwraps` and `CleanCDataDecodesTwice` state what it does: the markers are removed, then `&amp;`, `&lt;` and `&gt;` are decoded in that order, each by its own pass. |
| Feed.CleanCDataShape | workers/processor/src/index.ts:151-153 | `cleanCDATA` never lengthens a text. It leaves a text without `<`, `]` and `&` unchanged. |
| Feed.CleanCDataUnwraps | workers/processor/src/index.ts:152 | A plain text wrapped in `<![CDATA[ … ]]>` comes out unwrapped. |
| Feed.CleanCDataDecodesTwice | workers/processor/src/index.ts:152 | The entity replacements run in sequence, so `&amp;lt;` decodes all the way to `<`. |
| Feed.RemoveBlocks | workers/processor/src/index.ts:157-158 | Removing `<name>…</name>` blocks never lengthens the text. `RemoveBlocksPlain` shows that a text without `<` is kept. |
| Feed.TagsToSpaces | workers/processor/src/index.ts:159 | Replacing each tag by a space never lengthens the text. `TagsToSpacesPlain` shows that a text without `<` is kept. |
| Feed.RemoveBlocksPlain | workers/processor/src/index.ts:157-158 | Removing `<script>` and `<style>` blocks leaves a text without `<` unchanged. |
| Feed.TagsToSpacesPlain | workers/processor/src/index.ts:159 | Replacing tags by spaces leaves a text without `<` unchanged. |
| Feed.CollapseSpacesPlain | workers/processor/src/index.ts:160 | Collapsing white space leaves a text with single plain spaces unchanged. |
| Feed.ExtractText | workers/processor/src/index.ts:155-163 | The stored text has at most 50000 characters and does not start with white space. No two white-space characters are adjacent, and each one is a plain space. |
| Feed.SliceKeepsShape | workers/processor/src/index.ts:162 | A slice keeps single plain spaces. |
| Feed.ExtractTextShortEnds | workers/processor/src/index.ts:161-162 | When the trimmed text fits in 50000 characters, it does not end in white space. |
| Feed.ExtractTextPlain | workers/processor/src/index.ts:155-163 | Text without markup whose white space is single inner spaces comes through unchanged, up to the cut at 50000 characters. |
| Feed.ExtractTextKeepsTrailingSpace | workers/processor/src/index.ts:161-162 | The cut comes after the trim, so a long text can end in a space: 49999 plain characters, a space and a word give the 49999 characters and the space. |
| Feed.HexDigest | workers/processor/src/index.ts:165-168 | The digest text has two lower-case hex digits per byte. |
| Feed.HexRoundTrip | workers/processor/src/index.ts:167 | Reading the hex text back gives the digest bytes. A SHA-256 digest gives 64 characters. |
| Processor.IfNoneMatch | workers/processor/src/index.ts:56 | The `If-None-Match` header is sent iff the source has a non-empty etag, and it carries that etag. |
| Processor.FirstBatch | workers/processor/src/index.ts:70 | At most the first ten entries are taken, as a prefix, and all ten when there are that many. |
| Processor.Admit | workers/processor/src/index.ts:88-120 | The R2 object `content/<id>.json` is written with the item's text in every case. A failing embedding call throws and adds no row, no vector and no analysis request. Otherwise the new item row is appended, the vector is upserted iff the embedding is truthy, and an analysis request is queued iff the gateway binding is present. Jobs, sources, insights and the configuration are untouched. |
| Processor.Ingest | workers/processor/src/index.ts:79-130 | A url already stored changes nothing. For a url not stored, a fetch that throws rethrows that error, and a reply that is not ok throws "Fetch failed: <status>"; both leave every store and the identifier supply unchanged. A normal return leaves an item with the url. At most one row is added, with that url, and only on a normal return. Urls stay unique, and at most one identifier is drawn. |
| Processor.AppendNewUrl | workers/processor/src/index.ts:117-120 | Appending a row whose url is not stored keeps urls unique and adds exactly that row. |
| Processor.IngestIdempotent | workers/processor/src/index.ts:81-82 | Processing a url again after it was stored is a no-op, whatever the title, source, time or services. |
| Processor.IngestAll | workers/processor/src/index.ts:70-72 | The batch loop only appends rows, each with a url from the batch. After a normal return every batch url is stored. Urls stay unique. |
| Processor.FetchFeed | workers/processor/src/index.ts:54-73 | `fetchRSS` leaves jobs, insights and the configuration alone. The sources change only when the reply is not a 304 and carries a non-empty `ETag`: that etag is then written on the source's rows and nothing else changes in them. Items are only appended, and urls stay unique. |
| Processor.FetchFeedEntries | workers/processor/src/index.ts:59-72 | A 304 changes nothing. Otherwise at most ten items are added, all from the first ten feed entries, and after a normal return each of those entries is stored. |
| Processor.NewUrlsBound | workers/processor/src/index.ts:70-72 | New rows with distinct urls drawn from a list are no more than the list. |
| Processor.FetchPage | workers/processor/src/index.ts:75-77 | `fetchWeb` stores at most the source's own page, and does store it on a normal return. |
| Processor.Collect | workers/processor/src/index.ts:37-41 | An `rss` source is read as a feed and any other type as a page. Only the source's own rows can change, and only in their etag; a page fetch changes no source. Jobs, insights and the configuration are kept, items are only appended, and a page adds at most its own url. |
| Processor.Reschedule | workers/processor/src/index.ts:43-51 | Sets `last_fetched_at` on the source's rows, changing nothing else in them, and leaves the other rows alone. Appends one pending fetch job for the source, due six hours later. |
| Processor.FetchJob | workers/processor/src/index.ts:30-52 | A job without a source id throws "No source_id in job". A missing source throws "Source not found". A throw leaves the jobs alone. A normal return has appended the follow-up job and set `last_fetched_at` on the source's rows. Rows of other sources are unchanged, and the source's own rows change at most in etag and `last_fetched_at`. Items are only appended, and urls stay unique. |
| Processor.RunJob | workers/processor/src/index.ts:24-28 | A job of another type than `fetch` changes nothing. Urls stay unique. |
| Processor.Handle | workers/processor/src/index.ts:4-21 | Any request other than `POST /process` is a 404 that changes nothing. The processor's own writes never touch insights or the configuration; the insight rows the gateway writes while the processor awaits `/internal/analyze` are not composed in (see "Left out"). Urls stay unique. |
| Processor.HandleMarksJob | workers/processor/src/index.ts:10-17 | The reply is 200 iff the job returned normally, and then the job's rows are `completed`. Otherwise the reply is 500, and the rows are `failed` with `String(err)` in both the row and the reply. Every row of the job gets `completed_at`, and other rows are left alone. |
| Processor.FailureSchedulesNothing | workers/processor/src/index.ts:14-16 | A failed job leaves no new pending row. Every pending row afterwards belongs to another job and was pending before. |
| Processor.OtherJobsOnlyComplete | workers/processor/src/index.ts:24-28 | A non-fetch job answers 200 and only marks itself `completed`. |
| Processor.FetchSchedulesFollowUp | workers/processor/src/index.ts:47-51 | A fetch job that succeeds leaves exactly one new pending row: a fetch of the same source due six hours later. |
| Processor.ProcessItem | workers/processor/src/index.ts:79-130 | The method's effect on the stores and the identifier supply is `Ingest`. |
| Processor.StoreItem | workers/processor/src/index.ts:88-120 | The method's effect is `Admit`. |
| Processor.FetchRss | workers/processor/src/index.ts:54-73 | The method has the effect of `FetchFeed`. |
| Processor.IngestBatch | workers/processor/src/index.ts:70-72 | The loop over the first ten entries has the effect of `IngestAll`: entries are processed in order, and the first that throws ends the loop with its error. |
| Processor.FetchWeb | workers/processor/src/index.ts:75-77 | The method's effect is `FetchPage`. |
| Processor.ProcessFetchJob | workers/processor/src/index.ts:30-52 | The method's effect is `FetchJob`. |
| Processor.ProcessJob | workers/processor/src/index.ts:24-28 | The method's effect is `RunJob`. |
| Processor.HandleRequest | workers/processor/src/index.ts:4-21 | The method's reply and effect are `Handle`. |
| Scheduler.DueRows | workers/scheduler/src/index.ts:10 | Selects exactly the pending rows due by now, each once. |
| Scheduler.Insert | workers/scheduler/src/index.ts:11 | Inserting into a list sorted by `next_run_at` keeps it sorted and adds just that row. |
| Scheduler.SortByRunAt | workers/scheduler/src/index.ts:11 | `ORDER BY next_run_at ASC` sorts the rows and keeps the same rows. |
| Scheduler.DueJobs | workers/scheduler/src/index.ts:8-12 | The selection of one tick holds at most ten jobs. `DueJobsSound` and `DueJobsEarliest` state the rest. |
| Scheduler.DueJobsSound | workers/scheduler/src/index.ts:8-12 | At most ten rows are selected. All are pending and due, in `next_run_at` order, and drawn from the table. |
| Scheduler.DueJobsEarliest | workers/scheduler/src/index.ts:11 | A due job left out means ten jobs were taken, none due later than it. |
| Scheduler.DispatchError | workers/scheduler/src/index.ts:30-50 | The error text stored for a job. A missing binding gives "Error: PROCESSOR binding not configured". A thrown call gives `String(err)`. A reply that is not ok gives "Error: Processor error: <status> <body>". An ok reply gives no error. |
| Scheduler.DispatchOne | workers/scheduler/src/index.ts:22-51 | The scheduler's own writes in `dispatchJob` change only the job's rows. |
| Scheduler.DispatchedRow | workers/scheduler/src/index.ts:26-49 | Through the scheduler's own writes, a dispatched row gets `started_at`. The scheduler leaves it `running` when the processor took the job. Otherwise it becomes `failed` with the error text of `DispatchError` and `completed_at`. The rest of the row is kept. |
| Scheduler.DispatchAll | workers/scheduler/src/index.ts:18 | The dispatches keep the row count of the job table. `DispatchAllRows` and `DispatchAllIndependent` state which rows change and how. |
| Scheduler.DispatchAllRows | workers/scheduler/src/index.ts:18 | Through the scheduler's own writes in the fan-out, rows of jobs not selected are unchanged and selected rows are `running` or `failed`. A row pending afterwards was pending before. |
| Scheduler.DispatchAllIndependent | workers/scheduler/src/index.ts:18 | With distinct selected ids, each selected job's rows are as its own dispatch leaves them, whatever the order. |
| Scheduler.DispatchJob | workers/scheduler/src/index.ts:22-51 | The scheduler's own writes: the jobs change as `DispatchOne` says, and every other store is kept. |
| Scheduler.Scheduled | workers/scheduler/src/index.ts:4-19 | Through its own writes, the cron handler dispatches exactly the due selection, and every store but the jobs is kept. An empty selection changes nothing. |
| AiRouter.SystemContent | workers/api-gateway/src/services/ai-router.ts:54 | `find` returns the content of the first system message, and nothing iff there is none. |
| AiRouter.NonSystem | workers/api-gateway/src/services/ai-router.ts:55 | `filter` keeps only messages of the list that are not system messages. |
| AiRouter.NonSystemAppend | workers/api-gateway/src/services/ai-router.ts:55 | The filter distributes over concatenation. |
| AiRouter.NonSystemKeepsAll | workers/api-gateway/src/services/ai-router.ts:55 | A list without system messages passes the filter whole. |
| AiRouter.MapMessages | workers/api-gateway/src/services/ai-router.ts:69-72 | `map` gives one element per message, in order. |
| AiRouter.BaseOr | workers/api-gateway/src/services/ai-router.ts:32 | An unset or empty base url falls back to the provider's default. Any other base url is used as given. |
| AiRouter.Build | workers/api-gateway/src/services/ai-router.ts:22-28 | Building a request fails iff the provider is not one of the three, with "Unsupported provider: …". |
| AiRouter.BuildOpenAI | workers/api-gateway/src/services/ai-router.ts:31-45 | Has no contract of its own. `Endpoints`, `OpenAIMessages` and `DefaultsOnlyWhenUnset` state the request it builds: the endpoint, the message list as given, and the defaulted temperature and token limit. |
| AiRouter.BuildAnthropic | workers/api-gateway/src/services/ai-router.ts:52-74 | Has no contract of its own. `Endpoints`, `AnthropicShape` and `DefaultsOnlyWhenUnset` state the request: the endpoint, `system` from the first system message, and the other messages with their roles mapped. |
| AiRouter.BuildGemini | workers/api-gateway/src/services/ai-router.ts:81-101 | Has no contract of its own. `Endpoints`, `GeminiShape` and `DefaultsOnlyWhenUnset` state the request: the key in the URL, `systemInstruction` only for non-empty system content, and the contents with `assistant` sent as `model`. |
| AiRouter.DefaultsOnlyWhenUnset | workers/api-gateway/src/services/ai-router.ts:42-43 | Temperature 0.2 and 2000 tokens are sent only when the option is `undefined` or `null`. Otherwise the given value is sent, for every provider. |
| AiRouter.ZeroTemperatureKept | workers/api-gateway/src/services/ai-router.ts:42 | A temperature of 0 is sent as 0, because `??` is not `\|\|`. |
| AiRouter.Endpoints | workers/api-gateway/src/services/ai-router.ts:32-83 | Gives each provider's endpoint url. Gemini's url carries the model and the key. |
| AiRouter.OpenAIMessages | workers/api-gateway/src/services/ai-router.ts:39-44 | OpenAI receives every message, with its role and content, in order. |
| AiRouter.AnthropicShape | workers/api-gateway/src/services/ai-router.ts:52-73 | Anthropic receives the first system message as `system`. The other messages go in order with roles `assistant` or `user`. |
| AiRouter.GeminiShape | workers/api-gateway/src/services/ai-router.ts:81-100 | Gemini receives `systemInstruction` iff a non-empty system message exists. The other messages go as `contents` with roles `model` or `user` and one text part. |
| AiRouter.UnsupportedThrows | workers/api-gateway/src/services/ai-router.ts:27 | `callAI` with an unknown provider throws before any request. |
| AiRouter.NotOkThrows | workers/api-gateway/src/services/ai-router.ts:47 | A reply that is not ok throws "<Provider> error: <status> <JSON body>". Lines 76 and 103 do the same for the other providers. |
| AiRouter.ContentPath | workers/api-gateway/src/services/ai-router.ts:48 | Reading the reply text throws a `TypeError` exactly when the reply body is `undefined` or `null`, because the first property access is not optional. |
| AiRouter.Receive | workers/api-gateway/src/services/ai-router.ts:46-49 | A reply that is not ok throws an error naming the provider, the status and the serialised body. An ok reply throws only for a nullish body. Otherwise the result keeps the raw body, and its content is never `undefined` or `null`. |
| AiRouter.CallAI | workers/api-gateway/src/services/ai-router.ts:22-28 | An unsupported provider throws "Unsupported provider: <name>". A result is only returned for a supported provider, and its content is never nullish. |
| AiRouter.OpenAIText | workers/api-gateway/src/services/ai-router.ts:47-49 | An ok OpenAI reply object whose `choices[0].message.content` holds a value gives that value, or `''` when it is `null`, whatever else the reply holds. |
| AiRouter.OpenAIMissing | workers/api-gateway/src/services/ai-router.ts:48 | An ok OpenAI reply object gives `''` when `choices` is missing, `null` or `[]`, when the first choice's `message` is missing or `null`, or when its `content` is. |
| AiRouter.AnthropicText | workers/api-gateway/src/services/ai-router.ts:76-78 | An ok Anthropic reply object whose `content[0].text` holds a value gives that value, or `''` when it is `null`. |
| AiRouter.AnthropicMissing | workers/api-gateway/src/services/ai-router.ts:77 | An ok Anthropic reply object gives `''` when `content` is missing, `null` or `[]`, or when the first block's `text` is missing or `null`. |
| AiRouter.GeminiText | workers/api-gateway/src/services/ai-router.ts:103-105 | An ok Gemini reply object whose `candidates[0].content.parts[0].text` holds a value gives that value, or `''` when it is `null`. |
| AiRouter.GeminiMissing | workers/api-gateway/src/services/ai-router.ts:104 | An ok Gemini reply object gives `''` when any step of that path is missing, `null`, or an empty array. |
| ThreePillar.SubstituteContent | workers/api-gateway/src/services/three-pillar.ts:62 | The first `{content}` placeholder receives the content. |
| ThreePillar.SubstituteTitle | workers/api-gateway/src/services/three-pillar.ts:63 | The first `{title}` placeholder receives the title. |
| ThreePillar.SubstituteInsertedUrl | workers/api-gateway/src/services/three-pillar.ts:64 | The first `{url}` is replaced, even when it came from an inserted text. |
| ThreePillar.FixedPartsPlain | workers/api-gateway/src/services/three-pillar.ts:4-50 | The template text before each placeholder contains no `{`. |
| ThreePillar.IntroPlain | workers/api-gateway/src/services/three-pillar.ts:4 | The template's first line holds no `{`. |
| ThreePillar.BuildPrompt | workers/api-gateway/src/services/three-pillar.ts:61-64 | The prompt always opens with the template's head, whatever content, title and URL are substituted. `PromptEmbeds` and `PromptTitleReceivesUrl` state the whole prompt. |
| ThreePillar.HeadKept | workers/api-gateway/src/services/three-pillar.ts:61-64 | The three first-occurrence replacements leave a head without `{` in front. |
| JsString.ReplaceFirstKeepsHead | workers/api-gateway/src/services/three-pillar.ts:62-64 | `replace` leaves a leading text that does not hold the pattern's first character in front. |
| ThreePillar.PromptEmbeds | workers/api-gateway/src/services/three-pillar.ts:61-64 | For inputs without `{`, the prompt is the template with the first 15000 characters of the content, the title and the url in their places. |
| ThreePillar.PromptTitleReceivesUrl | workers/api-gateway/src/services/three-pillar.ts:61-64 | A title `{url}` captures the url, and the template's own `{url}` stays. |
| ThreePillar.JsonBounds | workers/api-gateway/src/services/three-pillar.ts:85 | The greedy match runs from the first `{` to the last `}`, and exists iff some `{` precedes some `}`. |
| ThreePillar.JsonSpan | workers/api-gateway/src/services/three-pillar.ts:85-86 | No match throws "No JSON found in response". A match starts with `{` and ends with `}`. |
| ThreePillar.ScoreOf | workers/api-gateway/src/services/three-pillar.ts:107 | `Number(score) \|\| 0` is never NaN: a truthy number is kept, anything else gives 0. |
| ThreePillar.StringsOf | workers/api-gateway/src/services/three-pillar.ts:109 | An array maps element-wise through `String`. Anything else gives `[]`. |
| ThreePillar.NormalizePillar | workers/api-gateway/src/services/three-pillar.ts:103-111 | A pillar is dropped iff it is falsy, not an object, or has a score that is the number 0 or `null`. A kept score is `Number(relevance_score) || 0`, as `ScoreOf` computes it, so never NaN. |
| ThreePillar.NormalizeMaturity | workers/api-gateway/src/services/three-pillar.ts:113-117 | The rating is the upper-cased text when that is one of the four ratings, and `ASSESS` otherwise. |
| ThreePillar.ArrayOr | workers/api-gateway/src/services/three-pillar.ts:98-99 | An array is kept and anything else becomes `[]`. |
| ThreePillar.AnalysisMessages | workers/api-gateway/src/services/three-pillar.ts:75-78 | The analyst instruction is the system message, followed by one user message holding the prompt. |
| ThreePillar.ParseAnalysisResponse | workers/api-gateway/src/services/three-pillar.ts:84-101 | A reply that is not a string throws "text.match is not a function". A reply without a `{…}` span throws "No JSON found in response". A `JSON.parse` error is passed on. A result is only returned when the span parses, and its `core_topic` is either truthy or `''`. |
| ThreePillar.AnalyzeThreePillar | workers/api-gateway/src/services/three-pillar.ts:60-82 | An unsupported provider throws "Unsupported provider: <name>" before anything is sent. A result is only returned for a supported provider. |
| ThreePillar.NoJsonFails | workers/api-gateway/src/services/three-pillar.ts:86 | A reply with no `{` before a `}` throws "No JSON found in response". |
| ThreePillar.ParsesOuterSpan | workers/api-gateway/src/services/three-pillar.ts:85 | The parsed span is exactly the text from the first `{` to the last `}`. |
| ThreePillar.EmptyObjectDefaults | workers/api-gateway/src/services/three-pillar.ts:90-100 | `{}` gives an empty topic, no pillars, `ASSESS` and empty lists. |
| ThreePillar.ParsedFields | workers/api-gateway/src/services/three-pillar.ts:89-100 | For any reply whose JSON is an object, all seven result fields are stated. The three pillars are `normalizePillar` of `pillars.career_business`, `pillars.market_startup` and `pillars.self_growth`. The rating is `normalizeMaturity(maturity_rating)`. `tags` and `key_quotes` are kept when they are arrays and are `[]` otherwise. A truthy `core_topic` is kept, and otherwise it is `''`. |
| ThreePillar.MissingScoreSurvives | workers/api-gateway/src/services/three-pillar.ts:105-107 | A pillar without a score is kept, with score 0. |
| ThreePillar.StringScoreKept | workers/api-gateway/src/services/three-pillar.ts:104-107 | A score given as a string is never the number 0, so its pillar is kept, scored `Number(score) \|\| 0`. |
| ThreePillar.StringZeroSurvives | workers/api-gateway/src/services/three-pillar.ts:105-107 | A score string that `Number` reads as 0, such as `"0"`, passes the strict-equality check and keeps its pillar with score 0. |
| ThreePillar.DigitText | workers/api-gateway/src/services/three-pillar.ts:107 | `Number` of a one-digit text is that digit, so `Number("0")` is 0. |
| ThreePillar.ScoreNotClamped | workers/api-gateway/src/services/three-pillar.ts:107 | Any non-zero numeric score is kept as given, with no bounding to 0-100. |
| ThreePillar.PillarText | workers/api-gateway/src/services/three-pillar.ts:108-109 | The insight is `String(insight)` or `''`. The action items are mapped through `String` or are `[]`. |
| ThreePillar.RatingRoundTrip | workers/api-gateway/src/services/three-pillar.ts:113-117 | Each rating's own text normalises to that rating. |
| ThreePillar.MaturityIdempotent | workers/api-gateway/src/services/three-pillar.ts:113-117 | Normalising a normalised rating gives it back. |
| ThreePillar.MaturityIgnoresCase | workers/api-gateway/src/services/three-pillar.ts:114-115 | An ASCII text is accepted iff its upper case is a rating name. |
| ThreePillar.MaturityMissing | workers/api-gateway/src/services/three-pillar.ts:114-116 | A missing rating (`String(undefined)` upper-cased, `"UNDEFINED"`) gives `ASSESS`. |
| ThreePillar.MaturityFirstLetter | workers/api-gateway/src/services/three-pillar.ts:114-116 | An ASCII word whose first letter, in either case, starts no rating name gives `ASSESS`. |
| ThreePillar.MaturityPadded | workers/api-gateway/src/services/three-pillar.ts:114-116 | The text is not trimmed: an ASCII rating with a space anywhere, such as `" adopt"` or `"HOLD "`, gives `ASSESS`. |
| ThreePillar.MaturityDotlessI | workers/api-gateway/src/services/three-pillar.ts:114 | `trıal` upper-cases to `TRIAL` and is accepted. |
| Base64.Encode | workers/api-gateway/src/services/encryption.ts:28 | A base64 text has a length that is a multiple of four and contains no `:`. It is empty iff there are no bytes. |
| Base64.Btoa | workers/api-gateway/src/services/encryption.ts:28 | `btoa` throws iff some character is above `\xff`. |
| Base64.Atob | workers/api-gateway/src/services/encryption.ts:32 | `atob` yields a binary string, each character a byte. |
| Base64.AtobEncode | workers/api-gateway/src/services/encryption.ts:28-32 | Decoding an encoding gives the binary string back. |
| Encryption.ToBase64 | workers/api-gateway/src/services/encryption.ts:25-29 | The loop builds the binary string, and the result is its base64 text. |
| Encryption.FromBase64 | workers/api-gateway/src/services/encryption.ts:31-36 | The array holds the byte values of `atob`'s characters, and invalid text throws. |
| Encryption.FromBase64RoundTrip | workers/api-gateway/src/services/encryption.ts:25-36 | `fromBase64(toBase64(bytes))` gives the bytes back. |
| Encryption.Sealed | workers/api-gateway/src/services/encryption.ts:5-7 | A secret that is not base64 throws `atob`'s error, and a key the import refuses throws its error, before anything is sealed. |
| Encryption.Encrypt | workers/api-gateway/src/services/encryption.ts:3-9 | `encrypt` fails exactly when the key or the sealing fails. Its envelope splits at its one `:` into `toBase64(iv)` and `toBase64(cipher)`. When the ciphertext is not empty, the format check of `decrypt` accepts the envelope and gives those two parts. |
| Encryption.Decrypt | workers/api-gateway/src/services/encryption.ts:11-19 | A malformed envelope throws "Invalid ciphertext format". A bad base64 IV part throws `atob`'s error before the data part is decoded, and a bad data part throws next. A result comes only from a well-formed envelope whose parts and secret all decode. |
| Encryption.EnvelopeSplit | workers/api-gateway/src/services/encryption.ts:8-12 | An envelope splits into exactly the two base64 texts, since base64 never writes `:`. |
| Encryption.EnvelopeParts | workers/api-gateway/src/services/encryption.ts:12-13 | The format is rejected iff the first piece is empty, there is no second piece, or the second piece is empty. |
| Encryption.NoSeparatorRejected | workers/api-gateway/src/services/encryption.ts:12-13 | A text without `:` throws "Invalid ciphertext format". |
| Encryption.EmptyIvRejected | workers/api-gateway/src/services/encryption.ts:13 | `:b` throws "Invalid ciphertext format": the IV part is empty. |
| Encryption.EmptyDataRejected | workers/api-gateway/src/services/encryption.ts:13 | `a:` throws "Invalid ciphertext format": the data part is empty. |
| Encryption.EmptyMiddleRejected | workers/api-gateway/src/services/encryption.ts:13 | `a::b` throws "Invalid ciphertext format": the data part is empty even though text follows. |
| Encryption.ExtraSegmentsIgnored | workers/api-gateway/src/services/encryption.ts:12 | Whatever follows a second `:` is ignored. |
| Encryption.EnvelopeSplits | workers/api-gateway/src/services/encryption.ts:8-12 | Splitting what `encrypt` wrote recovers its two base64 parts. |
| Encryption.DecryptEncrypt | workers/api-gateway/src/services/encryption.ts:3-19 | `decrypt(encrypt(p, k), k)` is `p`, given that AES-GCM opens what it sealed and UTF-8 decoding undoes encoding. |
| Gateway.ClampOr | workers/api-gateway/src/index.ts:102 | A non-finite number gives the default. A finite one is clamped to the bounds. |
| Gateway.InsightsLimit | workers/api-gateway/src/index.ts:101-102 | The limit lies in 1-100. A missing, empty or non-numeric query gives 50, and any other is clamped. |
| Gateway.LimitZeroText | workers/api-gateway/src/index.ts:101-102 | `?limit=0` is the truthy text `"0"`, so it is clamped to 1, not replaced by 50. |
| Gateway.TopK | workers/api-gateway/src/index.ts:133-134 | `topK` lies in 1-10. A falsy `top_k` gives 5, and a truthy one is the clamped `Number()`. |
| Gateway.TopKZero | workers/api-gateway/src/index.ts:133-134 | A numeric `top_k` of 0 gives 5, while the string `"0"` gives 1. |
| Gateway.LoadAIConfig | workers/api-gateway/src/index.ts:286-291 | No configuration throws "AI config not set. Please configure in settings.". Otherwise it succeeds iff the key decrypts, with the stored fields plus the key. |
| Gateway.ConfigKeyRecovered | workers/api-gateway/src/index.ts:286-291 | A configuration whose key was encrypted under the secret loads with that key. |
| Gateway.SafeJsonParse | workers/api-gateway/src/index.ts:293-300 | A non-string or a string that does not parse gives the fallback. Otherwise it gives the parsed value. |
| Gateway.InsightReadBack | workers/api-gateway/src/index.ts:116-120 | The `action_items` and `tags` columns written by the analysis read back as the arrays stored. |
| Gateway.ResolvedIndices | workers/api-gateway/src/index.ts:149-159 | Selects exactly the matches with an `r2_key` whose object exists, in match order. |
| Gateway.Context | workers/api-gateway/src/index.ts:149-159 | There is one context chunk and one source reference per resolving match. |
| Gateway.ContextOfResolved | workers/api-gateway/src/index.ts:149-159 | The i-th chunk and the i-th source reference are built from the stored object of the i-th resolving match, in match order. |
| Gateway.AssembleContext | workers/api-gateway/src/index.ts:146-159 | The loop computes `Context`. |
| Gateway.ChatMessages | workers/api-gateway/src/index.ts:177-180 | The assistant instruction is the system message, followed by one user message with the question and the chunks joined by blank lines. |
| Gateway.ChatAnswer | workers/api-gateway/src/index.ts:161-183 | With no context chunk the answer is the fixed text with no sources. With chunks and no stored configuration it throws "AI config not set. Please configure in settings.". An answer drawn from the provider carries exactly the sources of the chunks. |
| Gateway.ChatReply | workers/api-gateway/src/index.ts:126-184 | A nullish body throws on reading `query`, and a falsy `query` is answered 400 "Missing query". An answer is only given for a truthy `query`. |
| Gateway.HandleChat | workers/api-gateway/src/index.ts:126-184 | The handler reads the stores and its reply is the chat reply. |
| Gateway.MissingQuery | workers/api-gateway/src/index.ts:131 | A falsy `query` gives 400 "Missing query". |
| Gateway.ContextEmpty | workers/api-gateway/src/index.ts:149-159 | With no resolving match the context is empty. |
| Gateway.NoContextShortCircuit | workers/api-gateway/src/index.ts:161-163 | With no resolving match, the fixed "no relevant content" answer is returned with no sources, before the configuration is read or the provider called. |
| Gateway.ContextEmptyOnlyWithoutResolving | workers/api-gateway/src/index.ts:149-163 | One resolving match makes the context non-empty. |
| Gateway.AnalyzeFields | workers/api-gateway/src/index.ts:241-244 | A `null` body throws. The request is refused iff `content` or `item_id` is falsy. |
| Gateway.AnalyzeMissingFields | workers/api-gateway/src/index.ts:242-244 | A falsy `content` or `item_id` gives 400 "Missing required fields" and changes nothing. |
| Gateway.Analyze | workers/api-gateway/src/index.ts:246-254 | No stored configuration throws "AI config not set…". A loaded configuration with non-string content throws "params.content.slice is not a function". A result is only returned for string content, and it carries the stored model. |
| Gateway.InsightRows | workers/api-gateway/src/index.ts:263-281 | Has no contract of its own. `InsightRowsPresent` states the rows: one per present entry, in order, with consecutive identifiers. |
| Gateway.AnalyzeStep | workers/api-gateway/src/index.ts:240-284 | Only the insights table changes, and only by appending at most three rows. The identifier supply advances by the number of rows appended. Anything other than an analysis leaves the state and the supply unchanged. |
| Gateway.Recorded | workers/api-gateway/src/index.ts:257-283 | After an analysis, the reply is the analysis. Only the insights table changes, and only by appending `InsightRows` of the kept pillars: at most three rows, whose contents `InsightFanOut` states. The identifier supply advances by the number of rows. |
| Gateway.PresentPillars | workers/api-gateway/src/index.ts:257-264 | Selects exactly the pillars the analysis kept, in the fixed order career, market, growth. |
| Gateway.PresentOfPillarList | workers/api-gateway/src/index.ts:257-264 | The skipped entries are exactly the null pillars. |
| Gateway.InsightRowsPresent | workers/api-gateway/src/index.ts:263-281 | There is one row per kept pillar, each with the next identifier. |
| Gateway.InsightFanOut | workers/api-gateway/src/index.ts:263-281 | There is one insight row per kept pillar. Each row carries its pillar's score, insight and JSON action items, the shared item id, rating, JSON tags, model and time, and a fresh id. |
| Gateway.InsertInsights | workers/api-gateway/src/index.ts:263-281 | The loop appends exactly those rows and draws one identifier per row. |
| Gateway.HandleAnalyze | workers/api-gateway/src/index.ts:240-284 | The handler's reply and effect are the analyze step. |
| Gateway.SourceFields | workers/api-gateway/src/index.ts:47-58 | A `null` body throws. The request is accepted iff `url`, `type` and `name` are truthy. The schedule is the given one or `0 */6 * * *`. |
| Gateway.SourceMissingFields | workers/api-gateway/src/index.ts:48-50 | A falsy `url`, `type` or `name` gives 400 "Missing required fields" and changes nothing. |
| Gateway.CreateSourceStep | workers/api-gateway/src/index.ts:43-78 | Only the sources and jobs tables change. A created source is appended with one new job, and two identifiers are used. Anything else leaves the state and the supply unchanged. |
| Gateway.SourceCreation | workers/api-gateway/src/index.ts:52-78 | A valid request appends an active source with a fresh id and a pending fetch job for it, due now, and answers 201 with the source. It changes nothing else and draws two identifiers. |
| Gateway.CreateSource | workers/api-gateway/src/index.ts:43-79 | The handler's reply and effect are the source-creation step. |

## Left out

- Time: one `Date.now()` reading serves a whole invocation, so the few milliseconds between the calls inside one handler are not modelled.
- Scheduler.DispatchJob, Scheduler.Scheduled: the awaited `env.PROCESSOR.fetch` runs the processor's `/process`, which writes items, sources and jobs before the scheduler resumes. It also marks the job `completed` or `failed`. Those writes are not composed in: the binding yields only its reply. The model shows only the scheduler's own writes. On a reply that is not ok, the scheduler's `failed` update overwrites the processor's error text; the model does not show this.
- Concurrency: `Promise.all` in the scheduler is taken one dispatch after another. The ordering between concurrent workers and D1 transactions is not modelled.
- Services outside the repository are parameters with no properties assumed:
  - network `fetch`;
  - SHA-256;
  - the embedding model;
  - Vectorize search;
  - AES-GCM and key import;
  - UTF-8 coding;
  - `JSON.parse`;
  - the provider HTTP calls.
- The R2 `put`, the Vectorize `upsert` and D1 statements are taken to succeed.
- The gateway `fetch` from the processor is taken to succeed; its reply is ignored, as in the source.
- Processor.Admit, Processor.Ingest, Processor.Handle: the awaited `env.API_GATEWAY.fetch` to `/internal/analyze` runs the gateway's analyze handler, which appends insight rows (`Gateway.AnalyzeStep`) before the processor resumes. Those rows are not composed in: the model only queues the request in `analyzeRequests`, and the processor's contracts speak of its own writes.
- `request.json()` / `c.req.json()` failures are not modelled; the handlers start from the parsed body.
- Admin checks, Hono routing and CORS are not modelled.
- These other gateway routes are not modelled: health, source listing and deletion, reports, settings, auth.
- The insights listing is modelled only for its limit clamp and its `safeJsonParse` of stored columns, not the query itself.
- The frontend is not part of this model.
- Gateway replies are the `Gateway.Response` datatype rather than serialised JSON. Serialising a number needs JavaScript's number-to-text conversion, which is not modelled. Numbers in JSON values carry their source text for the same reason.
- Floating point: numbers are exact reals. Rounding of `Number()` results is not modelled.
- `replace` with a string pattern does not interpret `$` patterns in the replacement. The prompt is built with `Prefix` and plain strings.
- Strings are UTF-16 code units within the Basic Multilingual Plane. `toUpperCase` is modelled only for the characters whose upper case is ASCII, which is all that decides the maturity rating.
- Regular expressions are modelled only for the fixed patterns the processor uses: item blocks, one tag, CDATA, script and style blocks, tags and white space.
- SQL `ORDER BY next_run_at` leaves ties unspecified. The model breaks them by table order.
- The `retry_count` column takes its schema default of 0 in new job rows.
- `Types.AIConfig` holds `base_url`, `temperature` and `max_tokens` as JSON values. A non-string `provider` or `model` is not modelled.
- Gateway.SourceFields: a non-string `url`, `type`, `name` or `schedule` is kept as its `String()` text, where D1 would bind the raw value.
- Gateway.Analyze: a `content` that is not a string is modelled only as the TypeError `slice` raises on non-strings, although an array's `slice` would not throw.
- Base64.Btoa: the error thrown is modelled by name and a fixed message; the engine's own message text is not.
- Processor.FetchFeedEntries: the bound of ten new items assumes the stored urls are already unique, which every modelled write preserves (`Ingest` keeps `UniqueUrls`).
- Encryption.DecryptEncrypt: it holds only under the stated AES-GCM and UTF-8 round-trip hypotheses, since both primitives are parameters.
