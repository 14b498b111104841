/** The scheduler worker: on each cron tick it selects at most ten due
    pending jobs, earliest first, marks each `running` and posts it to the
    processor, marking it `failed` when that cannot be done. */
module Scheduler {
  import opened Wrappers
  import opened JsString
  import opened JsValue
  import opened Types
  import opened Store

  /** The PROCESSOR binding when it is configured: the reply to posting a
      job to `/process`. The processor's own writes while it handles the job
      are not part of this model of the scheduler. */
  type ProcessorBinding = Option<Job -> Result<HttpResponse, Thrown>>

  /** At most this many jobs are dispatched per tick. */
  const BatchLimit: nat := 10

  // ---------------------------------------------------------------------------
  // Selection

  /** `status = 'pending' AND next_run_at <= now`. */
  predicate Due(j: Job, now: int) {
    j.status == Pending && j.nextRunAt <= now
  }

  /** The due rows, in table order. */
  function DueRows(jobs: seq<Job>, now: int): (r: seq<Job>)
    ensures forall i :: 0 <= i < |r| ==> Due(r[i], now)
    ensures multiset(r) <= multiset(jobs)
    ensures forall j :: j in jobs && Due(j, now) ==> j in r
  {
    if jobs == [] then []
    else
      var rest := DueRows(jobs[1..], now);
      assert jobs == [jobs[0]] + jobs[1..];
      if Due(jobs[0], now) then [jobs[0]] + rest else rest
  }

  /** Ascending by `next_run_at`. */
  predicate SortedByRunAt(s: seq<Job>) {
    forall i, j :: 0 <= i < j < |s| ==> s[i].nextRunAt <= s[j].nextRunAt
  }

  /** `x` placed after every element of `s` that is not due later than it. */
  function Insert(x: Job, s: seq<Job>): (r: seq<Job>)
    requires SortedByRunAt(s)
    ensures |r| == |s| + 1 && (r[0] == x || (|s| > 0 && r[0] == s[0]))
    ensures SortedByRunAt(r)
    ensures multiset(r) == multiset(s) + multiset{x}
  {
    if s == [] || x.nextRunAt < s[0].nextRunAt then [x] + s
    else
      var rest := Insert(x, s[1..]);
      assert s == [s[0]] + s[1..];
      assert s[0].nextRunAt <= rest[0].nextRunAt;
      [s[0]] + rest
  }

  /** `ORDER BY next_run_at ASC`: a stable sort, so jobs due at the same
      moment keep their table order. */
  function SortByRunAt(s: seq<Job>): (r: seq<Job>)
    ensures SortedByRunAt(r)
    ensures multiset(r) == multiset(s)
  {
    if s == [] then []
    else
      assert s == [s[0]] + s[1..];
      Insert(s[0], SortByRunAt(s[1..]))
  }

  /** The selection of one tick: the due jobs, earliest first, at most ten. */
  function DueJobs(jobs: seq<Job>, now: int): (r: seq<Job>)
    ensures |r| <= BatchLimit
  {
    var sorted := SortByRunAt(DueRows(jobs, now));
    if |sorted| <= BatchLimit then sorted else sorted[..BatchLimit]
  }

  /** The selection holds at most ten jobs, all pending and due, in
      ascending `next_run_at`, each a row of the table. */
  lemma DueJobsSound(jobs: seq<Job>, now: int)
    ensures var r := DueJobs(jobs, now);
      && |r| <= BatchLimit
      && (forall i :: 0 <= i < |r| ==> r[i].status == Pending && r[i].nextRunAt <= now)
      && SortedByRunAt(r)
      && multiset(r) <= multiset(jobs)
  {
    var due := DueRows(jobs, now);
    var sorted := SortByRunAt(due);
    var r := DueJobs(jobs, now);
    TakeKeeps(sorted, |r|);
    forall i | 0 <= i < |r| ensures Due(r[i], now) {
      InMultiset(sorted, due, i);
    }
  }

  /** A prefix keeps the order and takes no more than the whole. */
  lemma TakeKeeps(s: seq<Job>, n: nat)
    requires n <= |s| && SortedByRunAt(s)
    ensures SortedByRunAt(s[..n]) && multiset(s[..n]) <= multiset(s)
  {
    assert s == s[..n] + s[n..];
  }

  /** An element of a permutation of `due` is an element of `due`. */
  lemma InMultiset(sorted: seq<Job>, due: seq<Job>, i: nat)
    requires multiset(sorted) == multiset(due) && i < |sorted|
    ensures sorted[i] in due
  {
    assert sorted[i] in multiset(sorted);
  }

  /** The selection is the earliest due jobs: a due pending job that is left
      out means ten were selected, none due later than it. */
  lemma DueJobsEarliest(jobs: seq<Job>, now: int, j: Job)
    requires j in jobs && j.status == Pending && j.nextRunAt <= now
    requires j !in DueJobs(jobs, now)
    ensures |DueJobs(jobs, now)| == BatchLimit
    ensures forall i :: 0 <= i < BatchLimit ==> DueJobs(jobs, now)[i].nextRunAt <= j.nextRunAt
  {
    var due := DueRows(jobs, now);
    var sorted := SortByRunAt(due);
    var r := DueJobs(jobs, now);
    assert j in multiset(sorted);
    var k :| 0 <= k < |sorted| && sorted[k] == j;
    assert forall i :: 0 <= i < |r| ==> r[i] == sorted[i];
    forall i | 0 <= i < |r| ensures r[i] != j {
      assert r[i] in r;
    }
  }

  // ---------------------------------------------------------------------------
  // Dispatch

  /** The text the catch block stores for a job, or None when the processor
      answered ok: a missing binding, a thrown call, or a response that is not
      ok (with its status and body). */
  function DispatchError(job: Job, processor: ProcessorBinding): (r: Option<string>)
    ensures processor.None? ==> r == Some("Error: " + "PROCESSOR binding not configured")
    ensures processor.Some? && processor.value(job).Err? ==> r == Some(processor.value(job).error.Text())
    ensures processor.Some? && processor.value(job).Ok? ==>
      (r.None? <==> processor.value(job).value.Ok())
    ensures processor.Some? && processor.value(job).Ok? && !processor.value(job).value.Ok() ==>
      r == Some("Error: Processor error: " + NatToString(processor.value(job).value.status) + " " + processor.value(job).value.body)
  {
    match processor
    case None =>
      assert "Error" + ": " == "Error: ";
      Some(Error("PROCESSOR binding not configured").Text())
    case Some(call) =>
      match call(job)
      case Err(e) => Some(e.Text())
      case Ok(res) =>
        if res.Ok() then None
        else
          var message := "Processor error: " + NatToString(res.status) + " " + res.body;
          assert "Error" + ": " + message == "Error: Processor error: " + NatToString(res.status) + " " + res.body;
          Some(Error(message).Text())
  }

  /** What one dispatch makes of a row of the job: claimed, then failed when
      the dispatch did not succeed. */
  function Dispatched(row: Job, job: Job, now: int, processor: ProcessorBinding): Job {
    var claimed := Claim(now)(row);
    match DispatchError(job, processor)
    case None => claimed
    case Some(message) => Fail(message, now)(claimed)
  }

  /** dispatchJob on the table: the unconditional `running` update, then the
      `failed` update when the dispatch did not succeed. */
  function DispatchOne(jobs: seq<Job>, job: Job, now: int, processor: ProcessorBinding): (r: seq<Job>)
    ensures |r| == |jobs|
    ensures forall k :: 0 <= k < |jobs| && jobs[k].id != job.id ==> r[k] == jobs[k]
    ensures forall k :: 0 <= k < |jobs| && jobs[k].id == job.id ==> r[k] == Dispatched(jobs[k], job, now, processor)
  {
    var claimed := UpdateJobs(jobs, job.id, Claim(now));
    match DispatchError(job, processor)
    case None => claimed
    case Some(message) => UpdateJobs(claimed, job.id, Fail(message, now))
  }

  /** A dispatched row is `running` from `now` when the processor took the
      job, and otherwise `failed` with the error text and `completed_at`;
      the rest of the row is kept. */
  lemma DispatchedRow(row: Job, job: Job, now: int, processor: ProcessorBinding)
    ensures var d := Dispatched(row, job, now, processor);
      && d.startedAt == Some(now)
      && d.id == row.id && d.jobType == row.jobType && d.sourceId == row.sourceId
      && d.nextRunAt == row.nextRunAt && d.retryCount == row.retryCount
      && (DispatchError(job, processor).None? ==>
            d.status == Running && d.completedAt == row.completedAt && d.errorMessage == row.errorMessage)
      && (DispatchError(job, processor).Some? ==>
            d.status == Failed && d.errorMessage == DispatchError(job, processor) && d.completedAt == Some(now))
  {
  }

  /** `Promise.all(jobs.map(dispatchJob))`, taken one job after another. */
  function DispatchAll(jobs: seq<Job>, batch: seq<Job>, now: int, processor: ProcessorBinding): (r: seq<Job>)
    ensures |r| == |jobs|
  {
    if batch == [] then jobs
    else DispatchOne(DispatchAll(jobs, batch[..|batch| - 1], now, processor), batch[|batch| - 1], now, processor)
  }

  /** The ids of a batch. */
  function Ids(batch: seq<Job>): (r: set<string>)
    ensures forall i :: 0 <= i < |batch| ==> batch[i].id in r
    ensures forall id :: id in r ==> exists i :: 0 <= i < |batch| && batch[i].id == id
  {
    set i | 0 <= i < |batch| :: batch[i].id
  }

  /** Dispatching only rewrites the rows of the dispatched jobs, never writes
      `pending`, and leaves no row of a dispatched job pending. */
  lemma {:induction false} DispatchAllRows(jobs: seq<Job>, batch: seq<Job>, now: int, processor: ProcessorBinding)
    ensures var r := DispatchAll(jobs, batch, now, processor);
      && (forall k :: 0 <= k < |jobs| ==> r[k].id == jobs[k].id)
      && (forall k :: 0 <= k < |jobs| && jobs[k].id !in Ids(batch) ==> r[k] == jobs[k])
      && (forall k :: 0 <= k < |jobs| && jobs[k].id in Ids(batch) ==> r[k].status in {Running, Failed})
      && (forall k :: 0 <= k < |jobs| && r[k].status == Pending ==> jobs[k].status == Pending)
  {
    if batch != [] {
      var init := batch[..|batch| - 1];
      var last := batch[|batch| - 1];
      DispatchAllRows(jobs, init, now, processor);
      var mid := DispatchAll(jobs, init, now, processor);
      var r := DispatchAll(jobs, batch, now, processor);
      forall k | 0 <= k < |jobs|
        ensures r[k].id == jobs[k].id
        ensures jobs[k].id !in Ids(batch) ==> r[k] == jobs[k]
        ensures jobs[k].id in Ids(batch) ==> r[k].status in {Running, Failed}
        ensures r[k].status == Pending ==> jobs[k].status == Pending
      {
        if jobs[k].id == last.id {
          DispatchedRow(mid[k], last, now, processor);
        } else {
          assert r[k] == mid[k];
          if jobs[k].id in Ids(batch) {
            var i :| 0 <= i < |batch| && batch[i].id == jobs[k].id;
            assert init[i] == batch[i];
          } else {
            assert forall i :: 0 <= i < |init| ==> init[i] == batch[i];
          }
        }
      }
    }
  }

  /** With distinct ids in the batch, each job's rows end as its own dispatch
      left them, whatever happened to the other jobs. */
  lemma {:induction false} DispatchAllIndependent(jobs: seq<Job>, batch: seq<Job>, now: int, processor: ProcessorBinding)
    requires forall i, j :: 0 <= i < j < |batch| ==> batch[i].id != batch[j].id
    ensures forall i, k :: 0 <= i < |batch| && 0 <= k < |jobs| && jobs[k].id == batch[i].id ==>
      DispatchAll(jobs, batch, now, processor)[k] == Dispatched(jobs[k], batch[i], now, processor)
  {
    if batch != [] {
      var init := batch[..|batch| - 1];
      var last := batch[|batch| - 1];
      DispatchAllIndependent(jobs, init, now, processor);
      DispatchAllRows(jobs, init, now, processor);
      var mid := DispatchAll(jobs, init, now, processor);
      forall i, k | 0 <= i < |batch| && 0 <= k < |jobs| && jobs[k].id == batch[i].id
        ensures DispatchAll(jobs, batch, now, processor)[k] == Dispatched(jobs[k], batch[i], now, processor)
      {
        if i == |batch| - 1 {
          assert forall m :: 0 <= m < |init| ==> init[m].id != batch[i].id by {
            forall m | 0 <= m < |init| ensures init[m].id != batch[i].id {
              assert init[m] == batch[m];
            }
          }
          assert jobs[k].id !in Ids(init);
        } else {
          assert init[i] == batch[i];
        }
      }
    }
  }

  lemma DispatchAllStep(jobs: seq<Job>, batch: seq<Job>, i: nat, now: int, processor: ProcessorBinding)
    requires i < |batch|
    ensures DispatchAll(jobs, batch[..i + 1], now, processor)
      == DispatchOne(DispatchAll(jobs, batch[..i], now, processor), batch[i], now, processor)
  {
    assert batch[..i + 1][..i] == batch[..i];
  }

  // ---------------------------------------------------------------------------
  // The worker

  /** dispatchJob: only the job table changes. */
  method DispatchJob(env: Env, rt: Runtime, job: Job, processor: ProcessorBinding)
    modifies env
    ensures env.Snapshot() == old(env.Snapshot()).(jobs := DispatchOne(old(env.jobs), job, rt.now, processor))
  {
    env.jobs := UpdateJobs(env.jobs, job.id, Claim(rt.now));
    var error: Option<string> := None;
    if processor.None? {
      error := Some(Error("PROCESSOR binding not configured").Text());
    } else {
      var res := processor.value(job);
      if res.Err? {
        error := Some(res.error.Text());
      } else if !res.value.Ok() {
        var text := res.value.body;
        error := Some(Error("Processor error: " + NatToString(res.value.status) + " " + text).Text());
      }
    }
    if error.Some? {
      env.jobs := UpdateJobs(env.jobs, job.id, Fail(error.value, rt.now));
    }
  }

  /** The cron handler: select, then dispatch each selected job. */
  method Scheduled(env: Env, rt: Runtime, processor: ProcessorBinding)
    modifies env
    ensures env.Snapshot() == old(env.Snapshot()).(jobs := DispatchAll(old(env.jobs), DueJobs(old(env.jobs), rt.now), rt.now, processor))
    ensures |DueJobs(old(env.jobs), rt.now)| == 0 ==> env.Snapshot() == old(env.Snapshot())
  {
    var jobs := DueJobs(env.jobs, rt.now);
    if |jobs| == 0 {
      return;
    }
    for i := 0 to |jobs|
      invariant env.Snapshot() == old(env.Snapshot()).(jobs := DispatchAll(old(env.jobs), jobs[..i], rt.now, processor))
    {
      DispatchAllStep(old(env.jobs), jobs, i, rt.now, processor);
      DispatchJob(env, rt, jobs[i], processor);
    }
    assert jobs[..|jobs|] == jobs;
  }
}
