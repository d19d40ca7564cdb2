/**
 * The backend's internal job endpoints: every chunk the extractor finishes
 * advances a statement job's counters, progress and status, and a failed chunk
 * marks the job failed.
 */
module JobProgress {
  import opened Wrappers
  import opened Numbers
  import opened Calendar

  datatype Status = PENDING | RUNNING | COMPLETED | FAILED

  /** The body of `POST /internal/jobs/{id}/chunk-complete`; both fields may be null. */
  datatype ChunkCompleteRequest = ChunkCompleteRequest(pages: Option<int>, totalChunks: Option<int>)

  /** The fields of a statement job that these endpoints read and write. */
  datatype JobState = JobState(
    status: Status,
    totalChunks: Option<int>,
    processedChunks: Option<int>,
    processedPages: Option<int>,
    progressPercent: Option<int>,
    errorMessage: Option<string>,
    startedAt: Option<DateTime>,
    finishedAt: Option<DateTime>)

  /** A job as it is created: PENDING, no counters yet. */
  const NewJob := JobState(PENDING, None, None, None, None, None, None, None)

  /** The total the call works with: the stored one, else the request's; None is the unboxing NullPointerException. */
  function EffectiveTotal(s: JobState, req: ChunkCompleteRequest): Option<int> {
    if s.totalChunks.Some? then s.totalChunks else req.totalChunks
  }

  /**
   * One chunk-complete call on a found job. Err is a NullPointerException —
   * neither the job nor the request has a total, or the response map meets a
   * null progress — and the transaction then leaves the job as it was.
   */
  function ChunkCompleteStep(s: JobState, req: ChunkCompleteRequest, now: DateTime): (r: Result<JobState, string>)
    ensures EffectiveTotal(s, req).None? ==> r.Err?
    ensures r.Ok? ==> var total := EffectiveTotal(s, req).value;
      var processed := s.processedChunks.GetOr(0) + 1;
      && r.value.totalChunks == EffectiveTotal(s, req)
      && r.value.processedChunks == Some(processed)
      && r.value.processedPages == Some(s.processedPages.GetOr(0) + req.pages.GetOr(0))
      && (total > 0 && processed >= total ==>
            r.value.status == COMPLETED && r.value.progressPercent == Some(100) && r.value.finishedAt == Some(now))
      && (total > 0 && processed < total ==>
            r.value.progressPercent == Some(Min(99, Floor((processed * 100) as real / total as real))))
      && (!(total > 0 && processed >= total) ==>
            r.value.status == (if s.status == PENDING then RUNNING else s.status)
            && r.value.startedAt == (if s.status == PENDING then Some(now) else s.startedAt)
            && r.value.finishedAt == s.finishedAt)
      && (total > 0 && processed >= total ==> r.value.startedAt == s.startedAt)
      && r.value.errorMessage == s.errorMessage
    ensures r.Err? <==> (EffectiveTotal(s, req).None?
                         || (EffectiveTotal(s, req).value <= 0 && s.progressPercent.None?))
  {
    match EffectiveTotal(s, req)
    case None => Err("NullPointerException")
    case Some(total) =>
      var processed := s.processedChunks.GetOr(0) + 1;
      var s1 := s.(
        totalChunks := if s.totalChunks.None? && req.totalChunks.Some? then req.totalChunks else s.totalChunks,
        processedChunks := Some(processed),
        processedPages := Some(s.processedPages.GetOr(0) + req.pages.GetOr(0)),
        progressPercent :=
          if total > 0 then Some(Min(99, Floor((processed * 100) as real / total as real))) else s.progressPercent);
      var s2 :=
        if total > 0 && processed >= total then s1.(status := COMPLETED, progressPercent := Some(100), finishedAt := Some(now))
        else if s.status == PENDING then s1.(status := RUNNING, startedAt := Some(now))
        else s1;
      if s2.progressPercent.None? then Err("NullPointerException") else Ok(s2)
  }

  /** `POST /internal/jobs/{id}/fail`: the error text of the body, "unknown" when it has none. */
  function MarkFailedStep(s: JobState, body: map<string, Option<string>>, now: DateTime): (r: JobState)
    ensures r.status == FAILED && r.finishedAt == Some(now)
    ensures r.errorMessage == if "error" in body then body["error"] else Some("unknown")
    ensures r.totalChunks == s.totalChunks && r.processedChunks == s.processedChunks
      && r.processedPages == s.processedPages && r.progressPercent == s.progressPercent
  {
    s.(status := FAILED, errorMessage := if "error" in body then body["error"] else Some("unknown"), finishedAt := Some(now))
  }

  /** The job after a series of chunk-complete calls; a call that fails is rolled back. */
  function AfterCalls(s: JobState, reqs: seq<ChunkCompleteRequest>, now: DateTime): JobState
    decreases |reqs|
  {
    if reqs == [] then s
    else
      var next := match ChunkCompleteStep(s, reqs[0], now) case Ok(t) => t case Err(_) => s;
      AfterCalls(next, reqs[1..], now)
  }

  /** k calls that each report the chunk total n. */
  function Reports(k: nat, n: int): (reqs: seq<ChunkCompleteRequest>)
    ensures |reqs| == k
    ensures forall i :: 0 <= i < k ==> reqs[i] == ChunkCompleteRequest(Some(1), Some(n))
  {
    if k == 0 then [] else [ChunkCompleteRequest(Some(1), Some(n))] + Reports(k - 1, n)
  }

  /**
   * From a job that already counted `done` chunks of n, k more chunk reports
   * count k more, and the job is COMPLETED exactly when done + k reaches n.
   */
  lemma {:induction false} ReportsAdvance(s: JobState, done: nat, k: nat, n: int, now: DateTime)
    requires n > 0 && s.totalChunks == Some(n)
    requires s.processedChunks == Some(done) || (done == 0 && s.processedChunks.None?)
    requires s.status == COMPLETED <==> done >= n
    ensures AfterCalls(s, Reports(k, n), now).processedChunks == (if k == 0 then s.processedChunks else Some(done + k))
    ensures AfterCalls(s, Reports(k, n), now).status == COMPLETED <==> done + k >= n
    decreases k
  {
    if k > 0 {
      var reqs := Reports(k, n);
      assert reqs[1..] == Reports(k - 1, n);
      var t := ChunkCompleteStep(s, reqs[0], now);
      assert t.Ok?;
      ReportsAdvance(t.value, done + 1, k - 1, n, now);
    }
  }

  /** A fresh job whose extractor reports every one of its n chunks completes on the n-th report, not before. */
  lemma FreshJobCompletesOnLastChunk(n: int, k: nat, now: DateTime)
    requires n > 0
    ensures AfterCalls(NewJob, Reports(k, n), now).status == COMPLETED <==> k >= n
  {
    if k > 0 {
      var reqs := Reports(k, n);
      assert reqs[1..] == Reports(k - 1, n);
      var t := ChunkCompleteStep(NewJob, reqs[0], now);
      assert t.Ok? && t.value.totalChunks == Some(n) && t.value.processedChunks == Some(1);
      ReportsAdvance(t.value, 1, k - 1, n, now);
    }
  }

  /**
   * The splitter's seed call as written: a chunk-complete request with pages 0
   * and the total, which the endpoint counts as a finished chunk. The job is then
   * COMPLETED after n - 1 real chunks, and a one-chunk job before its chunk is read.
   */
  lemma SeedCountsAsChunk(n: int, k: nat, now: DateTime)
    requires n > 0
    ensures AfterCalls(NewJob, [ChunkCompleteRequest(Some(0), Some(n))] + Reports(k, n), now).status == COMPLETED
        <==> k + 1 >= n
  {
    var reqs := [ChunkCompleteRequest(Some(0), Some(n))] + Reports(k, n);
    assert reqs[1..] == Reports(k, n);
    var t := ChunkCompleteStep(NewJob, reqs[0], now);
    assert t.Ok? && t.value.totalChunks == Some(n) && t.value.processedChunks == Some(1);
    ReportsAdvance(t.value, 1, k, n, now);
  }

  /** Seeding as intended: record the total when none is stored yet, count nothing. */
  function SeedTotal(s: JobState, total: int): (r: JobState)
    ensures r.totalChunks == (if s.totalChunks.Some? then s.totalChunks else Some(total))
    ensures r.processedChunks == s.processedChunks && r.status == s.status
  {
    if s.totalChunks.None? then s.(totalChunks := Some(total)) else s
  }

  /** With the intended seeding, a job of n chunks completes on its n-th chunk report. */
  lemma SeededJobCompletesOnLastChunk(n: int, k: nat, now: DateTime)
    requires n > 0
    ensures AfterCalls(SeedTotal(NewJob, n), Reports(k, n), now).status == COMPLETED <==> k >= n
  {
    ReportsAdvance(SeedTotal(NewJob, n), 0, k, n, now);
  }

  /** A statement job entity, updated through its setters. */
  class StatementJob {
    var status: Status
    var totalChunks: Option<int>
    var processedChunks: Option<int>
    var processedPages: Option<int>
    var progressPercent: Option<int>
    var errorMessage: Option<string>
    var startedAt: Option<DateTime>
    var finishedAt: Option<DateTime>

    function State(): JobState
      reads this
    {
      JobState(status, totalChunks, processedChunks, processedPages, progressPercent, errorMessage, startedAt, finishedAt)
    }

    constructor ()
      ensures State() == NewJob
    {
      status, totalChunks, processedChunks, processedPages := PENDING, None, None, None;
      progressPercent, errorMessage, startedAt, finishedAt := None, None, None, None;
    }

    method Assign(s: JobState)
      modifies this
      ensures State() == s
    {
      status, totalChunks, processedChunks, processedPages := s.status, s.totalChunks, s.processedChunks, s.processedPages;
      progressPercent, errorMessage, startedAt, finishedAt := s.progressPercent, s.errorMessage, s.startedAt, s.finishedAt;
    }
  }

  datatype Response = NotFound | Progress(status: Status, progress: int) | Accepted | ServerError

  /** The controller over the job repository. */
  class InternalJobController {
    var jobs: map<string, StatementJob>

    constructor (jobs: map<string, StatementJob>)
      ensures this.jobs == jobs
    {
      this.jobs := jobs;
    }

    /** `chunkComplete(id, req)`. */
    method ChunkComplete(id: string, req: ChunkCompleteRequest, now: DateTime) returns (resp: Response)
      modifies if id in jobs then {jobs[id]} else {}
      ensures id !in jobs ==> resp == NotFound
      ensures id in jobs ==> match ChunkCompleteStep(old(jobs[id].State()), req, now)
        case Err(_) => resp == ServerError && jobs[id].State() == old(jobs[id].State())
        case Ok(t) => jobs[id].State() == t && resp == Progress(t.status, t.progressPercent.value)
    {
      if id !in jobs {
        return NotFound;
      }
      var job := jobs[id];
      match ChunkCompleteStep(job.State(), req, now)
      case Err(_) =>
        resp := ServerError;
      case Ok(t) =>
        job.Assign(t);
        resp := Progress(t.status, t.progressPercent.value);
    }

    /** `markFailed(id, body)`. */
    method MarkFailed(id: string, body: map<string, Option<string>>, now: DateTime) returns (resp: Response)
      modifies if id in jobs then {jobs[id]} else {}
      ensures id !in jobs ==> resp == NotFound
      ensures id in jobs ==> resp == Accepted && jobs[id].State() == MarkFailedStep(old(jobs[id].State()), body, now)
    {
      if id !in jobs {
        return NotFound;
      }
      var job := jobs[id];
      job.Assign(MarkFailedStep(job.State(), body, now));
      resp := Accepted;
    }
  }
}
