/** The state the three workers share, and the JavaScript runtime services
    they call. */
module Store {
  import opened Wrappers
  import opened JsValue
  import opened Types

  /** The contents of every store at one moment. */
  datatype State = State(
    jobs: seq<Job>,
    sources: seq<Source>,
    items: seq<Item>,
    insights: seq<InsightRow>,
    objects: map<string, StoredContent>,
    vectors: map<string, VectorEntry>,
    aiConfig: Option<AIConfig>,
    analyzeRequests: seq<AnalyzeRequest>)

  /** The bindings of a worker (`Env` in shared/types.ts): the D1 tables as
      rows in insertion order, the R2 bucket, the Vectorize index, the
      `config` entry of the AI_CONFIG namespace, and the requests sent to the
      gateway through the API_GATEWAY binding. */
  class Env {
    var jobs: seq<Job>
    var sources: seq<Source>
    var items: seq<Item>
    var insights: seq<InsightRow>
    var objects: map<string, StoredContent>
    var vectors: map<string, VectorEntry>
    var aiConfig: Option<AIConfig>
    var analyzeRequests: seq<AnalyzeRequest>

    constructor (jobs: seq<Job>, sources: seq<Source>, items: seq<Item>, aiConfig: Option<AIConfig>)
      ensures this.jobs == jobs && this.sources == sources && this.items == items
      ensures this.aiConfig == aiConfig
      ensures insights == [] && objects == map[] && vectors == map[] && analyzeRequests == []
    {
      this.jobs := jobs;
      this.sources := sources;
      this.items := items;
      this.aiConfig := aiConfig;
      insights := [];
      objects := map[];
      vectors := map[];
      analyzeRequests := [];
    }

    /** The contents of the stores now. */
    function Snapshot(): State
      reads this
    {
      State(jobs, sources, items, insights, objects, vectors, aiConfig, analyzeRequests)
    }
  }

  /** `Date.now()` and `crypto.randomUUID()`. One invocation of a handler
      reads one clock value; identifiers come from a supply, one per call. */
  class Runtime {
    const now: int
    const uuid: nat -> string
    var minted: nat

    constructor (now: int, uuid: nat -> string)
      ensures this.now == now && this.uuid == uuid && minted == 0
    {
      this.now := now;
      this.uuid := uuid;
      minted := 0;
    }

    method RandomUUID() returns (id: string)
      modifies this
      ensures id == uuid(old(minted)) && minted == old(minted) + 1
    {
      id := uuid(minted);
      minted := minted + 1;
    }
  }

  /** `(embResult as any).data?.[0]?.embedding`, the vector in what the
      embedding model (`env.AI.run`) returned: reading `data` of `null` or
      `undefined` throws, the rest is optional chaining. */
  function EmbeddingOf(result: Value): Result<Value, Thrown> {
    var data :- Field(result, "data");
    Ok(OptField(OptIndex(data, 0), "embedding"))
  }

  /** Some row of `items` has this url. */
  predicate HasItemWithUrl(items: seq<Item>, url: string) {
    exists k :: 0 <= k < |items| && items[k].url == url
  }

  /** No two rows of `items` share a url. */
  predicate UniqueUrls(items: seq<Item>) {
    forall i, j :: 0 <= i < j < |items| ==> items[i].url != items[j].url
  }

  /** The first row of `sources` with this id (`results[0]` of a select by id). */
  function FindSource(sources: seq<Source>, id: string): (r: Option<Source>)
    ensures r.Some? ==> r.value in sources && r.value.id == id
    ensures r.None? ==> forall k :: 0 <= k < |sources| ==> sources[k].id != id
    ensures forall k :: 0 <= k < |sources| && sources[k].id == id && (forall j :: 0 <= j < k ==> sources[j].id != id) ==>
      r == Some(sources[k])
  {
    if |sources| == 0 then None
    else if sources[0].id == id then Some(sources[0])
    else FindSource(sources[1..], id)
  }

  /** `UPDATE <table> SET … WHERE id = ?` on a table whose rows carry their
      id under `key`: every row with that id is rewritten by `f`; the other
      rows and the order are kept. */
  function UpdateWhere<T>(rows: seq<T>, key: T -> string, id: string, f: T -> T): (r: seq<T>)
    ensures |r| == |rows|
    ensures forall k :: 0 <= k < |rows| && key(rows[k]) != id ==> r[k] == rows[k]
    ensures forall k :: 0 <= k < |rows| && key(rows[k]) == id ==> r[k] == f(rows[k])
  {
    seq(|rows|, k requires 0 <= k < |rows| => if key(rows[k]) == id then f(rows[k]) else rows[k])
  }

  /** The id column of a job row. */
  function JobKey(j: Job): string { j.id }

  /** The id column of a source row. */
  function SourceKey(x: Source): string { x.id }

  /** `UPDATE jobs SET … WHERE id = ?`. */
  function UpdateJobs(jobs: seq<Job>, id: string, f: Job -> Job): (r: seq<Job>)
    ensures |r| == |jobs|
    ensures forall k :: 0 <= k < |jobs| && jobs[k].id != id ==> r[k] == jobs[k]
    ensures forall k :: 0 <= k < |jobs| && jobs[k].id == id ==> r[k] == f(jobs[k])
  {
    UpdateWhere(jobs, JobKey, id, f)
  }

  /** `UPDATE sources SET … WHERE id = ?`. */
  function UpdateSources(sources: seq<Source>, id: string, f: Source -> Source): (r: seq<Source>)
    ensures |r| == |sources|
    ensures forall k :: 0 <= k < |sources| && sources[k].id != id ==> r[k] == sources[k]
    ensures forall k :: 0 <= k < |sources| && sources[k].id == id ==> r[k] == f(sources[k])
  {
    UpdateWhere(sources, SourceKey, id, f)
  }

  /** `status = 'running', started_at = now` (the scheduler's claim). */
  function Claim(now: int): Job -> Job {
    (j: Job) => j.(status := Running, startedAt := Some(now))
  }

  /** `status = 'completed', completed_at = now` (markCompleted). */
  function Complete(now: int): Job -> Job {
    (j: Job) => j.(status := Completed, completedAt := Some(now))
  }

  /** `status = 'failed', error_message = message, completed_at = now`
      (markFailed, and the scheduler's failure path). */
  function Fail(message: string, now: int): Job -> Job {
    (j: Job) => j.(status := Failed, errorMessage := Some(message), completedAt := Some(now))
  }

  /** A job row update never writes `pending`: a row is pending afterwards
      only if it was pending before and was not one of the rows updated. */
  lemma UpdatesNeverWritePending(jobs: seq<Job>, id: string, now: int, message: string)
    ensures forall k :: 0 <= k < |jobs| && UpdateJobs(jobs, id, Claim(now))[k].status == Pending ==> jobs[k].id != id && jobs[k].status == Pending
    ensures forall k :: 0 <= k < |jobs| && UpdateJobs(jobs, id, Complete(now))[k].status == Pending ==> jobs[k].id != id && jobs[k].status == Pending
    ensures forall k :: 0 <= k < |jobs| && UpdateJobs(jobs, id, Fail(message, now))[k].status == Pending ==> jobs[k].id != id && jobs[k].status == Pending
  {
  }
}
