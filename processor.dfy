/** The processor worker: it runs one job per `/process` request. A fetch
    job reads its source, stores every new item of the source (text in R2,
    an embedding in Vectorize, a row in `items`), asks the gateway to analyse
    it, stamps the source and schedules the next fetch six hours later. */
module Processor {
  import opened Wrappers
  import opened JsString
  import opened JsValue
  import opened Types
  import opened Store
  import opened Feed

  /** The services a handler calls that this model does not define: the
      global `fetch` (url and the `If-None-Match` header it sends), SHA-256
      over the UTF-8 encoding of a text, the embedding model (`env.AI.run`)
      and whether the API_GATEWAY binding is configured. */
  datatype Io = Io(
    fetch: (string, Option<string>) -> Result<HttpResponse, Thrown>,
    sha256: string -> seq<uint8>,
    embed: string -> Result<Value, Thrown>,
    hasGateway: bool)

  /** The re-poll interval: six hours in milliseconds. */
  const RefetchDelay: int := 6 * 60 * 60 * 1000

  /** At most this many feed entries are processed per fetch. */
  const FeedBatch: nat := 10

  /** The longest text prefix handed to the embedding model. */
  const EmbedInputLength: nat := 8000

  /** The R2 key an item's text is stored under. */
  function ContentKey(itemId: string): string {
    "content/" + itemId + ".json"
  }

  /** The embedding of an item's text: the model's run on the first 8000
      characters, then the vector read out of its result. */
  function Embed(io: Io, content: string): Result<Value, Thrown> {
    var result :- io.embed(Prefix(content, EmbedInputLength));
    EmbeddingOf(result)
  }

  /** The `items` row processItem inserts. */
  function NewItem(itemId: string, sourceId: string, url: string, title: string, hash: string, now: int): Item {
    Item(itemId, Some(sourceId), url, title, None, hash, None, Some(ContentKey(itemId)), Some(itemId), now)
  }

  /** The `If-None-Match` header a feed request carries: the stored etag,
      when it is a non-empty string. */
  function IfNoneMatch(etag: Option<string>): (r: Option<string>)
    ensures r.Some? <==> etag.Some? && etag.value != ""
    ensures r.Some? ==> r == etag
  {
    if etag.Some? && etag.value != "" then etag else None
  }

  /** The error processItem throws for a response that is not ok. */
  function FetchFailed(status: nat): Thrown {
    Error("Fetch failed: " + NatToString(status))
  }

  /** `items.slice(0, 10)`: the entries of a feed that are processed. */
  function FirstBatch(candidates: seq<Candidate>): (r: seq<Candidate>)
    ensures |r| <= FeedBatch && |r| <= |candidates|
    ensures |candidates| >= FeedBatch ==> |r| == FeedBatch
    ensures r == candidates[..|r|]
  {
    if |candidates| <= FeedBatch then candidates else candidates[..FeedBatch]
  }

  /** The follow-up job processFetchJob inserts: a pending fetch of the same
      source, due `RefetchDelay` after `now`. */
  function FollowUpJob(id: string, sourceId: string, now: int): Job {
    Job(id, Fetch, Some(sourceId), Pending, None, 0, now + RefetchDelay, None, None, None)
  }

  // ---------------------------------------------------------------------------
  // The steps as functions of the stores

  /** Where a step of the processor ends: how it ended, the stores
      afterwards, and the next index of the identifier supply. */
  datatype Step = Step(out: Outcome, state: State, next: nat)

  /** `after` is `before` with at most one row added, whose url is `url`. */
  predicate AddsAtMostOne(before: seq<Item>, after: seq<Item>, url: string) {
    && |before| <= |after| <= |before| + 1
    && after[..|before|] == before
    && (|after| > |before| ==> after[|before|].url == url)
  }

  /** Only the item stores (items, R2, Vectorize and the analysis requests)
      differ between the two states. */
  predicate SameTables(a: State, b: State) {
    a.jobs == b.jobs && a.sources == b.sources && a.insights == b.insights && a.aiConfig == b.aiConfig
  }

  /** The part of processItem after a good response: the text is stored in
      R2; then, when the embedding could be read, it is upserted (if truthy),
      the row is inserted and the analysis requested. */
  function Admit(s: State, id: string, now: int, url: string, title: string, sourceId: string,
                 content: string, hash: string, emb: Result<Value, Thrown>, hasGateway: bool): (r: (Outcome, State))
    ensures SameTables(s, r.1)
    ensures r.1.objects == s.objects[ContentKey(id) := StoredContent(id, url, title, content, now)]
    ensures emb.Err? ==> r.0 == Threw(emb.error) && r.1.items == s.items
    ensures emb.Err? ==> r.1.vectors == s.vectors && r.1.analyzeRequests == s.analyzeRequests
    ensures emb.Ok? ==> r.0 == Normal && r.1.items == s.items + [NewItem(id, sourceId, url, title, hash, now)]
    ensures emb.Ok? ==>
      r.1.vectors == (if Truthy(emb.value) then s.vectors[id := VectorEntry(emb.value, VectorMetadata(url, title, sourceId, ContentKey(id)))]
                      else s.vectors)
    ensures emb.Ok? ==>
      r.1.analyzeRequests == s.analyzeRequests + (if hasGateway then [AnalyzeRequest(id, content, title, url)] else [])
  {
    var key := ContentKey(id);
    var s1 := s.(objects := s.objects[key := StoredContent(id, url, title, content, now)]);
    match emb
    case Err(e) => (Threw(e), s1)
    case Ok(v) =>
      var s2 := if Truthy(v) then s1.(vectors := s1.vectors[id := VectorEntry(v, VectorMetadata(url, title, sourceId, key))]) else s1;
      var s3 := s2.(items := s2.items + [NewItem(id, sourceId, url, title, hash, now)]);
      var s4 := if hasGateway then s3.(analyzeRequests := s3.analyzeRequests + [AnalyzeRequest(id, content, title, url)]) else s3;
      (Normal, s4)
  }

  /** processItem on the stores `s`, with identifiers drawn from `uuid`
      starting at `next`. A stored url returns at once; a fetch that throws
      or answers not ok changes nothing; a failing embedding leaves the R2
      object behind and nothing else. */
  function Ingest(s: State, io: Io, uuid: nat -> string, next: nat, now: int,
                  url: string, title: string, sourceId: string): (r: Step)
    ensures SameTables(s, r.state)
    ensures HasItemWithUrl(s.items, url) ==> r == Step(Normal, s, next)
    ensures !HasItemWithUrl(s.items, url) && io.fetch(url, None).Err? ==>
      r == Step(Threw(io.fetch(url, None).error), s, next)
    ensures !HasItemWithUrl(s.items, url) && io.fetch(url, None).Ok? && !io.fetch(url, None).value.Ok() ==>
      r == Step(Threw(FetchFailed(io.fetch(url, None).value.status)), s, next)
    ensures r.out == Normal ==> HasItemWithUrl(r.state.items, url)
    ensures AddsAtMostOne(s.items, r.state.items, url)
    ensures |r.state.items| > |s.items| ==> r.out == Normal
    ensures UniqueUrls(s.items) ==> UniqueUrls(r.state.items)
    ensures next <= r.next <= next + 1
  {
    if HasItemWithUrl(s.items, url) then Step(Normal, s, next)
    else match io.fetch(url, None)
      case Err(e) => Step(Threw(e), s, next)
      case Ok(res) =>
        if !res.Ok() then Step(Threw(FetchFailed(res.status)), s, next)
        else
          var content := ExtractText(res.body);
          var id := uuid(next);
          var row := NewItem(id, sourceId, url, title, HexDigest(io.sha256(content)), now);
          var admitted := Admit(s, id, now, url, title, sourceId, content, row.contentHash, Embed(io, content), io.hasGateway);
          AppendNewUrl(s.items, row);
          Step(admitted.0, admitted.1, next + 1)
  }

  /** Appending a row whose url is not stored keeps the urls unique and adds
      exactly that row. */
  lemma AppendNewUrl(items: seq<Item>, row: Item)
    requires !HasItemWithUrl(items, row.url)
    ensures UniqueUrls(items) ==> UniqueUrls(items + [row])
    ensures AddsAtMostOne(items, items + [row], row.url) && HasItemWithUrl(items + [row], row.url)
  {
    assert (items + [row])[|items|] == row;
    assert (items + [row])[..|items|] == items;
  }

  /** processItem is idempotent: once an item has been stored, processing
      its url again changes nothing, whatever the services answer. */
  lemma IngestIdempotent(s: State, io: Io, io2: Io, uuid: nat -> string, next: nat, now: int, now2: int,
                         url: string, title: string, title2: string, sourceId: string, sourceId2: string)
    requires Ingest(s, io, uuid, next, now, url, title, sourceId).out == Normal
    ensures var r := Ingest(s, io, uuid, next, now, url, title, sourceId);
      Ingest(r.state, io2, uuid, r.next, now2, url, title2, sourceId2) == Step(Normal, r.state, r.next)
  {
  }

  /** The urls of feed entries, in order. */
  function UrlsOf(batch: seq<Candidate>): (r: seq<string>)
    ensures |r| == |batch|
    ensures forall j :: 0 <= j < |batch| ==> r[j] == batch[j].url
  {
    if batch == [] then [] else [batch[0].url] + UrlsOf(batch[1..])
  }

  /** The entries of a feed processed in order, each by processItem, until
      one throws. */
  function IngestAll(s: State, io: Io, uuid: nat -> string, next: nat, now: int,
                     batch: seq<Candidate>, sourceId: string): (r: Step)
    decreases |batch|
    ensures SameTables(s, r.state)
    ensures |s.items| <= |r.state.items| && r.state.items[..|s.items|] == s.items
    ensures forall k :: |s.items| <= k < |r.state.items| ==> r.state.items[k].url in UrlsOf(batch)
    ensures r.out == Normal ==> forall u :: u in UrlsOf(batch) ==> HasItemWithUrl(r.state.items, u)
    ensures UniqueUrls(s.items) ==> UniqueUrls(r.state.items)
    ensures next <= r.next
  {
    if batch == [] then Step(Normal, s, next)
    else
      var first := Ingest(s, io, uuid, next, now, batch[0].url, batch[0].title, sourceId);
      if first.out.Threw? then first
      else
        var rest := IngestAll(first.state, io, uuid, first.next, now, batch[1..], sourceId);
        IngestAllStep(s.items, first.state.items, rest.state.items, batch, rest.out == Normal);
        rest
  }

  /** The facts IngestAll takes from its first entry and from the rest. */
  lemma IngestAllStep(before: seq<Item>, mid: seq<Item>, last: seq<Item>, batch: seq<Candidate>, allDone: bool)
    requires batch != []
    requires AddsAtMostOne(before, mid, batch[0].url) && HasItemWithUrl(mid, batch[0].url)
    requires |mid| <= |last| && last[..|mid|] == mid
    requires forall k :: |mid| <= k < |last| ==> last[k].url in UrlsOf(batch[1..])
    requires allDone ==> forall u :: u in UrlsOf(batch[1..]) ==> HasItemWithUrl(last, u)
    ensures |before| <= |last| && last[..|before|] == before
    ensures forall k :: |before| <= k < |last| ==> last[k].url in UrlsOf(batch)
    ensures allDone ==> forall u :: u in UrlsOf(batch) ==> HasItemWithUrl(last, u)
  {
    PrefixOfPrefix(before, mid, last);
    NewUrlsOfBatch(before, mid, last, batch);
    if allDone {
      AllUrlsOfBatch(mid, last, batch);
    }
  }

  /** The rows added for the first entry and for the rest carry urls of the batch. */
  lemma NewUrlsOfBatch(before: seq<Item>, mid: seq<Item>, last: seq<Item>, batch: seq<Candidate>)
    requires batch != []
    requires AddsAtMostOne(before, mid, batch[0].url)
    requires |mid| <= |last| && last[..|mid|] == mid
    requires forall k :: |mid| <= k < |last| ==> last[k].url in UrlsOf(batch[1..])
    ensures forall k :: |before| <= k < |last| ==> last[k].url in UrlsOf(batch)
  {
    assert UrlsOf(batch) == [batch[0].url] + UrlsOf(batch[1..]);
    forall k | |before| <= k < |last| ensures last[k].url in UrlsOf(batch) {
      if k < |mid| {
        assert last[k] == last[..|mid|][k];
      }
    }
  }

  /** Once the first entry is stored and the rest are, the whole batch is. */
  lemma AllUrlsOfBatch(mid: seq<Item>, last: seq<Item>, batch: seq<Candidate>)
    requires batch != []
    requires HasItemWithUrl(mid, batch[0].url)
    requires |mid| <= |last| && last[..|mid|] == mid
    requires forall u :: u in UrlsOf(batch[1..]) ==> HasItemWithUrl(last, u)
    ensures forall u :: u in UrlsOf(batch) ==> HasItemWithUrl(last, u)
  {
    assert UrlsOf(batch) == [batch[0].url] + UrlsOf(batch[1..]);
    HasItemExtends(mid, last, batch[0].url);
  }

  /** A url stored among some rows is still stored once rows are appended. */
  lemma HasItemExtends(mid: seq<Item>, last: seq<Item>, url: string)
    requires |mid| <= |last| && last[..|mid|] == mid
    requires HasItemWithUrl(mid, url)
    ensures HasItemWithUrl(last, url)
  {
    var k :| 0 <= k < |mid| && mid[k].url == url;
    assert last[k] == last[..|mid|][k];
  }

  /** A prefix of a prefix is a prefix. */
  lemma PrefixOfPrefix(a: seq<Item>, b: seq<Item>, c: seq<Item>)
    requires |a| <= |b| && b[..|a|] == a
    requires |b| <= |c| && c[..|b|] == b
    ensures c[..|a|] == a
  {
    assert c[..|a|] == c[..|b|][..|a|];
  }

  /** `SET etag = ?` on a source row. */
  function SetEtag(etag: Option<string>): Source -> Source {
    (x: Source) => x.(etag := etag)
  }

  /** A feed reply whose `ETag` fetchRSS stores: not a 304, with a
      non-empty `ETag`. */
  predicate StoresEtag(f: Result<HttpResponse, Thrown>) {
    f.Ok? && f.value.status != 304 && f.value.etag.Some? && f.value.etag.value != ""
  }

  /** `b` is `a` with at most the `etag` of the rows of source `id` changed,
      and, when `stamped`, their `last_fetched_at`. */
  predicate SourceRowsKept(a: seq<Source>, b: seq<Source>, id: string, stamped: bool) {
    && |a| == |b|
    && (forall k :: 0 <= k < |a| && a[k].id != id ==> b[k] == a[k])
    && (forall k :: 0 <= k < |a| && a[k].id == id ==>
          && b[k].(etag := a[k].etag, lastFetchedAt := a[k].lastFetchedAt) == a[k]
          && (!stamped ==> b[k].lastFetchedAt == a[k].lastFetchedAt))
  }

  /** fetchRSS on the stores: a conditional request; a 304 changes nothing;
      otherwise a non-empty `ETag` is stored on the source and the first ten
      entries are processed. (Other statuses are not checked.) */
  function FetchFeed(s: State, io: Io, uuid: nat -> string, next: nat, now: int, source: Source): (r: Step)
    ensures r.state.jobs == s.jobs && r.state.insights == s.insights && r.state.aiConfig == s.aiConfig
    ensures |r.state.sources| == |s.sources|
    ensures var f := io.fetch(source.url, IfNoneMatch(source.etag));
      r.state.sources == if StoresEtag(f) then UpdateSources(s.sources, source.id, SetEtag(f.value.etag)) else s.sources
    ensures SourceRowsKept(s.sources, r.state.sources, source.id, false)
    ensures |s.items| <= |r.state.items| && r.state.items[..|s.items|] == s.items
    ensures UniqueUrls(s.items) ==> UniqueUrls(r.state.items)
    ensures next <= r.next
  {
    match io.fetch(source.url, IfNoneMatch(source.etag))
    case Err(e) => Step(Threw(e), s, next)
    case Ok(res) =>
      if res.status == 304 then Step(Normal, s, next)
      else
        var s1 := if res.etag.Some? && res.etag.value != ""
                  then s.(sources := UpdateSources(s.sources, source.id, SetEtag(res.etag)))
                  else s;
        IngestAll(s1, io, uuid, next, now, FirstBatch(Candidates(ItemBlocks(res.body, 0))), source.id)
  }

  /** A feed request answered 304 changes nothing and processes no entry;
      one that is not 304 adds items only for the first ten entries, at most
      one each (the stored urls being unique), and for all of them when none
      throws. */
  lemma FetchFeedEntries(s: State, io: Io, uuid: nat -> string, next: nat, now: int, source: Source)
    requires io.fetch(source.url, IfNoneMatch(source.etag)).Ok?
    requires UniqueUrls(s.items)
    ensures var res := io.fetch(source.url, IfNoneMatch(source.etag)).value;
      var r := FetchFeed(s, io, uuid, next, now, source);
      var batch := FirstBatch(Candidates(ItemBlocks(res.body, 0)));
      && (res.status == 304 ==> r == Step(Normal, s, next))
      && (res.status != 304 ==>
            && |r.state.items| - |s.items| <= FeedBatch
            && (forall k :: |s.items| <= k < |r.state.items| ==> r.state.items[k].url in UrlsOf(batch))
            && (r.out == Normal ==> forall u :: u in UrlsOf(batch) ==> HasItemWithUrl(r.state.items, u)))
  {
    var res := io.fetch(source.url, IfNoneMatch(source.etag)).value;
    if res.status != 304 {
      var r := FetchFeed(s, io, uuid, next, now, source);
      var batch := FirstBatch(Candidates(ItemBlocks(res.body, 0)));
      NewUrlsBound(s.items, r.state.items, UrlsOf(batch));
    }
  }

  /** fetchWeb on the stores: the source's own page is the one item. */
  function FetchPage(s: State, io: Io, uuid: nat -> string, next: nat, now: int, source: Source): (r: Step)
    ensures SameTables(s, r.state)
    ensures AddsAtMostOne(s.items, r.state.items, source.url)
    ensures r.out == Normal ==> HasItemWithUrl(r.state.items, source.url)
    ensures UniqueUrls(s.items) ==> UniqueUrls(r.state.items)
    ensures next <= r.next
  {
    Ingest(s, io, uuid, next, now, source.url, source.name, source.id)
  }

  /** processFetchJob on the stores. The job must name a source that exists;
      `rss` sources take the feed path and every other type the page path.
      When that returns, the source is stamped and one new fetch job is
      scheduled six hours on (the source's `schedule` is not consulted);
      when it throws, nothing is scheduled. */
  function FetchJob(s: State, io: Io, uuid: nat -> string, next: nat, now: int, job: Job): (r: Step)
    ensures r.state.insights == s.insights && r.state.aiConfig == s.aiConfig
    ensures job.sourceId.None? || job.sourceId.value == "" ==> r == Step(Threw(Error("No source_id in job")), s, next)
    ensures job.sourceId.Some? && job.sourceId.value != "" && FindSource(s.sources, job.sourceId.value).None? ==>
      r == Step(Threw(Error("Source not found")), s, next)
    ensures r.out.Threw? ==> r.state.jobs == s.jobs
    ensures job.sourceId.Some? ==> SourceRowsKept(s.sources, r.state.sources, job.sourceId.value, true)
    ensures r.out == Normal ==>
      && job.sourceId.Some? && FindSource(s.sources, job.sourceId.value).Some?
      && next < r.next
      && r.state.jobs == s.jobs + [FollowUpJob(uuid(r.next - 1), job.sourceId.value, now)]
      && |r.state.sources| == |s.sources|
      && (forall k :: 0 <= k < |s.sources| && s.sources[k].id == job.sourceId.value ==>
            r.state.sources[k].lastFetchedAt == Some(now))
    ensures |s.items| <= |r.state.items| && r.state.items[..|s.items|] == s.items
    ensures UniqueUrls(s.items) ==> UniqueUrls(r.state.items)
    ensures next <= r.next
  {
    if job.sourceId.None? || job.sourceId.value == "" then Step(Threw(Error("No source_id in job")), s, next)
    else match FindSource(s.sources, job.sourceId.value)
      case None => Step(Threw(Error("Source not found")), s, next)
      case Some(source) =>
        var fetched := Collect(s, io, uuid, next, now, source);
        if fetched.out.Threw? then fetched
        else Step(Normal, Reschedule(fetched.state, source.id, uuid(fetched.next), now), fetched.next + 1)
  }

  /** The fetch proper: the feed path for `rss` sources, the page path for
      every other type. */
  function Collect(s: State, io: Io, uuid: nat -> string, next: nat, now: int, source: Source): (r: Step)
    ensures r.state.jobs == s.jobs && r.state.insights == s.insights && r.state.aiConfig == s.aiConfig
    ensures |r.state.sources| == |s.sources|
    ensures SourceRowsKept(s.sources, r.state.sources, source.id, false)
    ensures source.sourceType != "rss" ==> r.state.sources == s.sources
    ensures |s.items| <= |r.state.items| && r.state.items[..|s.items|] == s.items
    ensures UniqueUrls(s.items) ==> UniqueUrls(r.state.items)
    ensures source.sourceType != "rss" ==> AddsAtMostOne(s.items, r.state.items, source.url)
    ensures next <= r.next
  {
    if source.sourceType == "rss" then FetchFeed(s, io, uuid, next, now, source)
    else FetchPage(s, io, uuid, next, now, source)
  }

  /** The end of a fetch job: `last_fetched_at` stamped on the source, and
      the follow-up job inserted. */
  function Reschedule(t: State, sourceId: string, jobId: string, now: int): (r: State)
    ensures r.jobs == t.jobs + [FollowUpJob(jobId, sourceId, now)]
    ensures |r.sources| == |t.sources|
    ensures forall k :: 0 <= k < |t.sources| && t.sources[k].id == sourceId ==> r.sources[k].lastFetchedAt == Some(now)
    ensures forall k :: 0 <= k < |t.sources| && t.sources[k].id == sourceId ==> r.sources[k] == t.sources[k].(lastFetchedAt := Some(now))
    ensures forall k :: 0 <= k < |t.sources| && t.sources[k].id != sourceId ==> r.sources[k] == t.sources[k]
    ensures r.items == t.items && r.insights == t.insights && r.aiConfig == t.aiConfig
  {
    var stamped := t.(sources := UpdateSources(t.sources, sourceId, (x: Source) => x.(lastFetchedAt := Some(now))));
    stamped.(jobs := stamped.jobs + [FollowUpJob(jobId, sourceId, now)])
  }

  /** processJob on the stores: only fetch jobs do anything. */
  function RunJob(s: State, io: Io, uuid: nat -> string, next: nat, now: int, job: Job): (r: Step)
    ensures job.jobType != Fetch ==> r == Step(Normal, s, next)
    ensures r.state.insights == s.insights && r.state.aiConfig == s.aiConfig
    ensures r.out.Threw? ==> r.state.jobs == s.jobs
    ensures UniqueUrls(s.items) ==> UniqueUrls(r.state.items)
  {
    if job.jobType == Fetch then FetchJob(s, io, uuid, next, now, job) else Step(Normal, s, next)
  }

  /** A response of the worker: its status and its JSON body (the 404 body
      is plain text, held as a string). */
  datatype Reply = Reply(status: nat, body: Value)

  /** Where a request ends: the reply, the stores, the identifier supply. */
  datatype Handled = Handled(reply: Reply, state: State, next: nat)

  const OkBody: Value := Obj([("ok", Bool(true))])

  function ErrorBody(message: string): Value {
    Obj([("ok", Bool(false)), ("error", Str(message))])
  }

  /** The worker's fetch handler on the stores: `POST /process` runs the job
      and marks it `completed`, or `failed` with the text of what was thrown
      and a 500; any other request is a 404. */
  function Handle(s: State, io: Io, uuid: nat -> string, next: nat, now: int,
                  httpMethod: string, path: string, job: Job): (h: Handled)
    ensures !(httpMethod == "POST" && path == "/process") ==> h == Handled(Reply(404, Str("Not Found")), s, next)
    ensures h.state.insights == s.insights && h.state.aiConfig == s.aiConfig
    ensures UniqueUrls(s.items) ==> UniqueUrls(h.state.items)
  {
    if !(httpMethod == "POST" && path == "/process") then Handled(Reply(404, Str("Not Found")), s, next)
    else
      var r := RunJob(s, io, uuid, next, now, job);
      match r.out
      case Normal =>
        Handled(Reply(200, OkBody), r.state.(jobs := UpdateJobs(r.state.jobs, job.id, Complete(now))), r.next)
      case Threw(e) =>
        Handled(Reply(500, ErrorBody(e.Text())), r.state.(jobs := UpdateJobs(r.state.jobs, job.id, Fail(e.Text(), now))), r.next)
  }

  /** `/process` answers 200 exactly when the job returned normally, and
      then every row of the job is `completed`; otherwise it answers 500 and
      every row of the job is `failed` with the thrown error's text. Rows of
      other jobs are left as the job's processing left them. */
  lemma HandleMarksJob(s: State, io: Io, uuid: nat -> string, next: nat, now: int, job: Job)
    ensures var h := Handle(s, io, uuid, next, now, "POST", "/process", job);
      var r := RunJob(s, io, uuid, next, now, job);
      && (h.reply.status == 200 <==> r.out == Normal)
      && (h.reply.status == 200 || h.reply.status == 500)
      && |h.state.jobs| == |r.state.jobs|
      && (forall k :: 0 <= k < |h.state.jobs| && r.state.jobs[k].id != job.id ==> h.state.jobs[k] == r.state.jobs[k])
      && (forall k :: 0 <= k < |h.state.jobs| && r.state.jobs[k].id == job.id ==>
            h.state.jobs[k].completedAt == Some(now)
            && (r.out == Normal ==> h.state.jobs[k].status == Completed)
            && (r.out.Threw? ==> h.state.jobs[k].status == Failed
                                  && h.state.jobs[k].errorMessage == Some(r.out.error.Text())
                                  && h.reply.body == ErrorBody(r.out.error.Text())))
  {
  }

  /** A job that fails leaves no new pending job behind: the pending rows
      afterwards are pending rows of other jobs that were there before. So a
      failing fetch ends its source's chain of fetches. */
  lemma FailureSchedulesNothing(s: State, io: Io, uuid: nat -> string, next: nat, now: int, job: Job)
    requires Handle(s, io, uuid, next, now, "POST", "/process", job).reply.status == 500
    ensures var h := Handle(s, io, uuid, next, now, "POST", "/process", job);
      && |h.state.jobs| == |s.jobs|
      && forall k :: 0 <= k < |s.jobs| && h.state.jobs[k].status == Pending ==>
           s.jobs[k].status == Pending && s.jobs[k].id != job.id
  {
  }

  /** A job of another type than `fetch` completes and changes nothing but
      its own rows. */
  lemma OtherJobsOnlyComplete(s: State, io: Io, uuid: nat -> string, next: nat, now: int, job: Job)
    requires job.jobType != Fetch
    ensures Handle(s, io, uuid, next, now, "POST", "/process", job)
      == Handled(Reply(200, OkBody), s.(jobs := UpdateJobs(s.jobs, job.id, Complete(now))), next)
  {
  }

  /** A fetch job that completes leaves exactly one new pending row: the
      follow-up fetch of the same source, due six hours on. */
  lemma FetchSchedulesFollowUp(s: State, io: Io, uuid: nat -> string, next: nat, now: int, job: Job)
    requires job.jobType == Fetch
    requires Handle(s, io, uuid, next, now, "POST", "/process", job).reply.status == 200
    ensures var h := Handle(s, io, uuid, next, now, "POST", "/process", job);
      && |h.state.jobs| == |s.jobs| + 1
      && job.sourceId.Some?
      && var f := h.state.jobs[|s.jobs|];
      && f.jobType == Fetch && f.sourceId == job.sourceId && f.nextRunAt == now + RefetchDelay
      && (f.id != job.id ==> f.status == Pending)
      && forall k :: 0 <= k < |s.jobs| && h.state.jobs[k].status == Pending ==>
           s.jobs[k].status == Pending && s.jobs[k].id != job.id
  {
    var r := RunJob(s, io, uuid, next, now, job);
    assert r.state.jobs[..|s.jobs|] == s.jobs;
  }

  /** Rows added to a table whose urls are unique, each with the url of one
      of the entries, are no more than the entries. */
  lemma NewUrlsBound(before: seq<Item>, after: seq<Item>, urls: seq<string>)
    requires |before| <= |after| && UniqueUrls(after)
    requires forall k :: |before| <= k < |after| ==> after[k].url in urls
    ensures |after| - |before| <= |urls|
  {
    var added := set k | |before| <= k < |after| :: after[k].url;
    assert added <= set u | u in urls;
    SubsetSize(added, set u | u in urls);
    SeqSetBound(urls);
    DistinctUrlsCount(before, after);
  }

  lemma {:induction false} SubsetSize<T>(a: set<T>, b: set<T>)
    requires a <= b
    ensures |a| <= |b|
    decreases |a|
  {
    if a != {} {
      var x :| x in a;
      SubsetSize(a - {x}, b - {x});
    }
  }

  lemma {:induction false} SeqSetBound(urls: seq<string>)
    ensures |set u | u in urls| <= |urls|
  {
    if urls != [] {
      var init := urls[..|urls| - 1];
      SeqSetBound(init);
      assert (set u | u in urls) == (set u | u in init) + {urls[|urls| - 1]} by {
        assert urls == init + [urls[|urls| - 1]];
      }
    }
  }

  lemma {:induction false} DistinctUrlsCount(before: seq<Item>, after: seq<Item>)
    requires |before| <= |after| && UniqueUrls(after)
    ensures |set k | |before| <= k < |after| :: after[k].url| == |after| - |before|
    decreases |after| - |before|
  {
    if |before| < |after| {
      var init := after[..|after| - 1];
      UrlSetStep(|before|, after);
      DistinctUrlsCount(before, init);
    }
  }

  /** The URLs from position `lo` on are those before the last item, plus
      the last item's URL, which is new. */
  lemma UrlSetStep(lo: nat, after: seq<Item>)
    requires lo < |after| && UniqueUrls(after)
    ensures var n := |after| - 1;
      && UniqueUrls(after[..n])
      && (set k | lo <= k < |after| :: after[k].url) == (set k | lo <= k < n :: after[..n][k].url) + {after[n].url}
      && after[n].url !in (set k | lo <= k < n :: after[..n][k].url)
  {
    var n := |after| - 1;
    var init := after[..n];
    assert UniqueUrls(init) by {
      forall i, j | 0 <= i < j < |init| ensures init[i].url != init[j].url {
        assert init[i] == after[i] && init[j] == after[j];
      }
    }
    var last := after[n].url;
    var a := set k | lo <= k < n :: init[k].url;
    var b := set k | lo <= k < |after| :: after[k].url;
    forall u | u in a ensures u in b {
      var k :| lo <= k < n && init[k].url == u;
      assert after[k] == init[k];
    }
    forall u | u in b ensures u in a + {last} {
      var k :| lo <= k < |after| && after[k].url == u;
      if k < n {
        assert init[k] == after[k];
      }
    }
    forall k | lo <= k < n ensures init[k].url != last {
      assert init[k] == after[k];
    }
  }

  // ---------------------------------------------------------------------------
  // The worker, step by step on its bindings

  /** processItem. */
  method ProcessItem(env: Env, rt: Runtime, io: Io, url: string, title: string, sourceId: string)
      returns (out: Outcome)
    modifies env, rt
    ensures var r := Ingest(old(env.Snapshot()), io, rt.uuid, old(rt.minted), rt.now, url, title, sourceId);
      out == r.out && env.Snapshot() == r.state && rt.minted == r.next
  {
    if HasItemWithUrl(env.items, url) {
      return Normal;
    }
    var fetched := io.fetch(url, None);
    if fetched.Err? {
      return Threw(fetched.error);
    }
    var res := fetched.value;
    if !res.Ok() {
      return Threw(FetchFailed(res.status));
    }
    var content := ExtractText(res.body);
    var hash := HexDigest(io.sha256(content));
    var itemId := rt.RandomUUID();
    out := StoreItem(env, io, itemId, rt.now, url, title, sourceId, content, hash);
  }

  /** The rest of processItem: the R2 put, the embedding and its upsert, the
      row, and the request to the gateway. */
  method StoreItem(env: Env, io: Io, itemId: string, now: int, url: string, title: string, sourceId: string,
                   content: string, hash: string) returns (out: Outcome)
    modifies env
    ensures (out, env.Snapshot()) == Admit(old(env.Snapshot()), itemId, now, url, title, sourceId, content, hash, Embed(io, content), io.hasGateway)
  {
    var r2Key := ContentKey(itemId);
    env.objects := env.objects[r2Key := StoredContent(itemId, url, title, content, now)];
    var embedding := Embed(io, content);
    if embedding.Err? {
      return Threw(embedding.error);
    }
    if Truthy(embedding.value) {
      env.vectors := env.vectors[itemId := VectorEntry(embedding.value, VectorMetadata(url, title, sourceId, r2Key))];
    }
    env.items := env.items + [NewItem(itemId, sourceId, url, title, hash, now)];
    if io.hasGateway {
      env.analyzeRequests := env.analyzeRequests + [AnalyzeRequest(itemId, content, title, url)];
    }
    out := Normal;
  }

  /** fetchRSS: the entries are processed one after another, stopping at the
      first that throws. */
  method FetchRss(env: Env, rt: Runtime, io: Io, source: Source) returns (out: Outcome)
    modifies env, rt
    ensures var r := FetchFeed(old(env.Snapshot()), io, rt.uuid, old(rt.minted), rt.now, source);
      out == r.out && env.Snapshot() == r.state && rt.minted == r.next
  {
    var fetched := io.fetch(source.url, IfNoneMatch(source.etag));
    if fetched.Err? {
      return Threw(fetched.error);
    }
    var res := fetched.value;
    if res.status == 304 {
      return Normal;
    }
    var xml := res.body;
    var etag := res.etag;
    if etag.Some? && etag.value != "" {
      env.sources := UpdateSources(env.sources, source.id, SetEtag(etag));
    }
    var items := ParseRss(xml);
    out := IngestBatch(env, rt, io, FirstBatch(items), source.id);
  }

  /** The loop of fetchRSS over the first entries: each is processed in turn
      and the first that throws ends the loop with its error. */
  method IngestBatch(env: Env, rt: Runtime, io: Io, batch: seq<Candidate>, sourceId: string) returns (out: Outcome)
    modifies env, rt
    ensures var r := IngestAll(old(env.Snapshot()), io, rt.uuid, old(rt.minted), rt.now, batch, sourceId);
      out == r.out && env.Snapshot() == r.state && rt.minted == r.next
  {
    ghost var goal := IngestAll(env.Snapshot(), io, rt.uuid, rt.minted, rt.now, batch, sourceId);
    var i := 0;
    while i < |batch|
      invariant 0 <= i <= |batch|
      invariant IngestAll(env.Snapshot(), io, rt.uuid, rt.minted, rt.now, batch[i..], sourceId) == goal
    {
      assert batch[i..][1..] == batch[i + 1..];
      var r := ProcessItem(env, rt, io, batch[i].url, batch[i].title, sourceId);
      if r.Threw? {
        return r;
      }
      i := i + 1;
    }
    out := Normal;
  }

  /** fetchWeb. */
  method FetchWeb(env: Env, rt: Runtime, io: Io, source: Source) returns (out: Outcome)
    modifies env, rt
    ensures var r := FetchPage(old(env.Snapshot()), io, rt.uuid, old(rt.minted), rt.now, source);
      out == r.out && env.Snapshot() == r.state && rt.minted == r.next
  {
    out := ProcessItem(env, rt, io, source.url, source.name, source.id);
  }

  /** processFetchJob. */
  method ProcessFetchJob(env: Env, rt: Runtime, io: Io, job: Job) returns (out: Outcome)
    modifies env, rt
    ensures var r := FetchJob(old(env.Snapshot()), io, rt.uuid, old(rt.minted), rt.now, job);
      out == r.out && env.Snapshot() == r.state && rt.minted == r.next
  {
    if job.sourceId.None? || job.sourceId.value == "" {
      return Threw(Error("No source_id in job"));
    }
    var found := FindSource(env.sources, job.sourceId.value);
    if found.None? {
      return Threw(Error("Source not found"));
    }
    var source := found.value;
    if source.sourceType == "rss" {
      out := FetchRss(env, rt, io, source);
    } else {
      out := FetchWeb(env, rt, io, source);
    }
    if out.Threw? {
      return;
    }
    env.sources := UpdateSources(env.sources, source.id, (x: Source) => x.(lastFetchedAt := Some(rt.now)));
    var jobId := rt.RandomUUID();
    env.jobs := env.jobs + [FollowUpJob(jobId, source.id, rt.now)];
  }

  /** processJob. */
  method ProcessJob(env: Env, rt: Runtime, io: Io, job: Job) returns (out: Outcome)
    modifies env, rt
    ensures var r := RunJob(old(env.Snapshot()), io, rt.uuid, old(rt.minted), rt.now, job);
      out == r.out && env.Snapshot() == r.state && rt.minted == r.next
  {
    out := Normal;
    if job.jobType == Fetch {
      out := ProcessFetchJob(env, rt, io, job);
    }
  }

  /** The worker's fetch handler, with markCompleted and markFailed. */
  method HandleRequest(env: Env, rt: Runtime, io: Io, httpMethod: string, path: string, job: Job)
      returns (reply: Reply)
    modifies env, rt
    ensures var h := Handle(old(env.Snapshot()), io, rt.uuid, old(rt.minted), rt.now, httpMethod, path, job);
      reply == h.reply && env.Snapshot() == h.state && rt.minted == h.next
  {
    if !(httpMethod == "POST" && path == "/process") {
      return Reply(404, Str("Not Found"));
    }
    var out := ProcessJob(env, rt, io, job);
    if out == Normal {
      env.jobs := UpdateJobs(env.jobs, job.id, Complete(rt.now));
      reply := Reply(200, OkBody);
    } else {
      var message := out.error.Text();
      env.jobs := UpdateJobs(env.jobs, job.id, Fail(message, rt.now));
      reply := Reply(500, ErrorBody(message));
    }
  }
}
