/** The records of shared/types.ts: the rows of the jobs, sources, items and
    insights tables, the stored AI configuration and the three-pillar result. */
module Types {
  import opened Wrappers
  import opened JsValue

  /** An element of a `Uint8Array`. */
  type uint8 = x: int | 0 <= x < 256

  datatype JobType = Fetch | Analyze | Report
  datatype JobStatus = Pending | Running | Completed | Failed
  datatype SourceStatus = Active | Paused
  datatype Pillar = CareerBusiness | MarketStartup | SelfGrowth
  datatype MaturityRating = Adopt | Trial | Assess | Hold

  /** The text each rating is stored and compared as. */
  function MaturityText(m: MaturityRating): string {
    match m
    case Adopt => "ADOPT"
    case Trial => "TRIAL"
    case Assess => "ASSESS"
    case Hold => "HOLD"
  }

  /** A row of `jobs`. */
  datatype Job = Job(
    id: string,
    jobType: JobType,
    sourceId: Option<string>,
    status: JobStatus,
    cursor: Option<string>,
    retryCount: int,
    nextRunAt: int,
    startedAt: Option<int>,
    completedAt: Option<int>,
    errorMessage: Option<string>)

  /** A row of `sources`. The type column holds the text the client sent
      (`rss`, `web` or `upload`). */
  datatype Source = Source(
    id: string,
    sourceType: string,
    name: string,
    url: string,
    schedule: string,
    status: SourceStatus,
    lastFetchedAt: Option<int>,
    etag: Option<string>,
    createdAt: int)

  /** A row of `items`. */
  datatype Item = Item(
    id: string,
    sourceId: Option<string>,
    url: string,
    title: string,
    publishedAt: Option<int>,
    contentHash: string,
    r2RawKey: Option<string>,
    r2ContentKey: Option<string>,
    vectorizeId: Option<string>,
    createdAt: int)

  /** A row of `insights`: action items and tags are stored as JSON text; the
      item id is whatever the analysis request carried. */
  datatype InsightRow = InsightRow(
    id: string,
    itemId: Value,
    pillar: Pillar,
    relevanceScore: JsNum,
    summary: string,
    actionItems: string,
    maturityRating: MaturityRating,
    tags: string,
    modelVersion: string,
    createdAt: int)

  /** The AI configuration stored as JSON under the key `config`. The base
      URL, temperature and token limit are whatever JSON values were stored
      (a string or `null`, a number or `null`). */
  datatype AIConfig = AIConfig(
    provider: string,
    model: string,
    baseUrl: Value,
    apiKeyEncrypted: string,
    temperature: Value,
    maxTokens: Value)

  datatype PillarAnalysis = PillarAnalysis(relevanceScore: JsNum, insight: string, actionItems: seq<string>)

  /** The normalised analysis. `coreTopic`, `tags` and `keyQuotes` keep
      whatever values the model's JSON held. */
  datatype ThreePillarResult = ThreePillarResult(
    coreTopic: Value,
    careerBusiness: Option<PillarAnalysis>,
    marketStartup: Option<PillarAnalysis>,
    selfGrowth: Option<PillarAnalysis>,
    maturityRating: MaturityRating,
    tags: seq<Value>,
    keyQuotes: seq<Value>)

  /** The JSON object an item's text is stored as in R2. */
  datatype StoredContent = StoredContent(id: string, url: string, title: string, content: string, fetchedAt: int)

  datatype VectorMetadata = VectorMetadata(url: string, title: string, sourceId: string, r2Key: string)

  /** A Vectorize entry, keyed by item id; the values are whatever the
      embedding model returned. */
  datatype VectorEntry = VectorEntry(values: Value, metadata: VectorMetadata)

  /** The body the processor posts to the gateway's `/internal/analyze`. */
  datatype AnalyzeRequest = AnalyzeRequest(itemId: string, content: string, title: string, url: string)

  /** What `fetch` resolves to: the status and its text, the body as text,
      and the `ETag` header when the response has one. */
  datatype HttpResponse = HttpResponse(status: nat, statusText: string, body: string, etag: Option<string>) {
    /** `res.ok`. */
    predicate Ok() {
      200 <= status <= 299
    }
  }
}
