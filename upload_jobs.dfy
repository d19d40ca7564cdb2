/**
 * The web app's persisted list of statement-upload jobs (jobJobStore): jobs
 * are read from browser storage, pruned, updated and written back. The
 * storage slot is a class field; the clock is a parameter, and one call
 * reads it once.
 */
module UploadJobs {
  import opened Wrappers

  datatype Status = Processing | Success | Failed

  /** A PersistedUploadJob; `updatedAt` is epoch milliseconds, and 0 counts as missing. */
  datatype Job = Job(jobId: string, filename: string, status: Status, progress: int,
                     error: Option<string>, updatedAt: Option<int>)

  /**
   * What the storage slot holds: nothing (or an empty string), text that is
   * not JSON, JSON that is not an array, or an array whose entries are jobs
   * or null.
   */
  datatype Stored = Absent | Unparsable | NotArray | Entries(items: seq<Option<Job>>)

  /** Completed jobs older than an hour are pruned. */
  const PruneMs: int := 60 * 60 * 1000

  /** `j.updatedAt || now`. */
  function StampOf(j: Job, now: int): int {
    if j.updatedAt.Some? && j.updatedAt.value != 0 then j.updatedAt.value else now
  }

  /** The prune test: a processing job always stays; another stays for an hour after its update. */
  predicate Kept(j: Job, now: int) {
    !(j.status != Processing && now - StampOf(j, now) > PruneMs)
  }

  function Filter<T>(s: seq<T>, p: T -> bool): (r: seq<T>)
    ensures |r| <= |s|
  {
    if s == [] then []
    else Filter(s[..|s| - 1], p) + (if p(s[|s| - 1]) then [s[|s| - 1]] else [])
  }

  lemma {:induction false} FilterMembers<T>(s: seq<T>, p: T -> bool)
    ensures forall x :: x in Filter(s, p) <==> x in s && p(x)
  {
    if s != [] {
      FilterMembers(s[..|s| - 1], p);
      assert s == s[..|s| - 1] + [s[|s| - 1]];
    }
  }

  function Prune(jobs: seq<Job>, now: int): seq<Job> {
    Filter(jobs, j => Kept(j, now))
  }

  /** The entries that are jobs with a job id. */
  function IdJobs(items: seq<Option<Job>>): seq<Job> {
    if items == [] then []
    else
      var last := items[|items| - 1];
      IdJobs(items[..|items| - 1]) + (if last.Some? && last.value.jobId != "" then [last.value] else [])
  }

  /** A job read back gets `updatedAt: j.updatedAt || now`. */
  function Stamp(j: Job, now: int): Job {
    j.(updatedAt := Some(StampOf(j, now)))
  }

  function StampAll(jobs: seq<Job>, now: int): (r: seq<Job>)
    ensures |r| == |jobs|
  {
    seq(|jobs|, i requires 0 <= i < |jobs| => Stamp(jobs[i], now))
  }

  /** `loadJobs()` at the moment `now`. */
  function LoadJobs(stored: Stored, now: int): seq<Job> {
    match stored
    case Entries(items) => Prune(StampAll(IdJobs(items), now), now)
    case _ => []
  }

  /** What `saveJobs(jobs)` writes: the jobs that survive pruning. */
  function Saved(jobs: seq<Job>, now: int): Stored {
    var pruned := Prune(jobs, now);
    Entries(seq(|pruned|, i requires 0 <= i < |pruned| => Some(pruned[i])))
  }

  /** `findIndex` on the job id: the first match, or -1. */
  function FindJob(jobs: seq<Job>, jobId: string): (i: int)
    ensures -1 <= i < |jobs|
    ensures i >= 0 ==> jobs[i].jobId == jobId
    ensures forall k :: 0 <= k < |jobs| && (i == -1 || k < i) ==> jobs[k].jobId != jobId
  {
    if jobs == [] then -1
    else if jobs[0].jobId == jobId then 0
    else
      var i := FindJob(jobs[1..], jobId);
      if i >= 0 then i + 1 else -1
  }

  /** The job list after upserting `job` at `now`: replaced in place, or put first. */
  function Upserted(jobs: seq<Job>, job: Job, now: int): seq<Job> {
    var idx := FindJob(jobs, job.jobId);
    var withTs := job.(updatedAt := Some(now));
    if idx >= 0 then jobs[idx := withTs] else [withTs] + jobs
  }

  function WithoutId(jobs: seq<Job>, jobId: string): seq<Job> {
    Filter(jobs, (j: Job) => j.jobId != jobId)
  }

  function OnlyProcessing(jobs: seq<Job>): seq<Job> {
    Filter(jobs, (j: Job) => j.status == Processing)
  }

  /** `clearCompletedOlderThan`'s test, where a missing `updatedAt` counts as 0. */
  function RecentOrProcessing(jobs: seq<Job>, cutoff: int): seq<Job> {
    Filter(jobs, (j: Job) => Recent(j, cutoff))
  }

  predicate Recent(j: Job, cutoff: int) {
    j.status == Processing || (if j.updatedAt.Some? then j.updatedAt.value else 0) >= cutoff
  }

  class JobStore {
    var stored: Stored

    constructor(stored: Stored)
      ensures this.stored == stored
    {
      this.stored := stored;
    }

    /** `saveJobs(jobs)`. */
    method SaveJobs(jobs: seq<Job>, now: int)
      modifies this
      ensures stored == Saved(jobs, now)
    {
      var pruned := Prune(jobs, now);
      stored := Entries(seq(|pruned|, i requires 0 <= i < |pruned| => Some(pruned[i])));
    }

    /** `upsertJob(job)`. */
    method UpsertJob(job: Job, now: int)
      modifies this
      ensures stored == Saved(Upserted(LoadJobs(old(stored), now), job, now), now)
    {
      var jobs := LoadJobs(stored, now);
      var idx := FindJob(jobs, job.jobId);
      var withTs := job.(updatedAt := Some(now));
      if idx >= 0 {
        jobs := jobs[idx := withTs];
      } else {
        jobs := [withTs] + jobs;
      }
      SaveJobs(jobs, now);
    }

    /** `removeJob(jobId)`. */
    method RemoveJob(jobId: string, now: int)
      modifies this
      ensures stored == Saved(WithoutId(LoadJobs(old(stored), now), jobId), now)
    {
      var jobs := WithoutId(LoadJobs(stored, now), jobId);
      SaveJobs(jobs, now);
    }

    /** `clearCompletedOlderThan(hours)`. */
    method ClearCompletedOlderThan(hours: int, now: int)
      modifies this
      ensures stored == Saved(RecentOrProcessing(LoadJobs(old(stored), now), now - hours * 3600000), now)
    {
      var cutoff := now - hours * 3600000;
      var jobs := RecentOrProcessing(LoadJobs(stored, now), cutoff);
      SaveJobs(jobs, now);
    }

    /** `clearCompletedJobs()`. */
    method ClearCompletedJobs(now: int)
      modifies this
      ensures stored == Saved(OnlyProcessing(LoadJobs(old(stored), now)), now)
    {
      var active := OnlyProcessing(LoadJobs(stored, now));
      SaveJobs(active, now);
    }
  }

  /** Pruning keeps every processing job, and drops any other job last updated more than an hour ago. */
  lemma PruneSpec(jobs: seq<Job>, now: int)
    ensures forall j :: j in jobs && j.status == Processing ==> j in Prune(jobs, now)
    ensures forall j :: j in Prune(jobs, now) <==> j in jobs && (j.status == Processing || now - StampOf(j, now) <= PruneMs)
  {
    FilterMembers(jobs, j => Kept(j, now));
  }

  lemma {:induction false} IdJobsMembers(items: seq<Option<Job>>)
    ensures forall j :: j in IdJobs(items) <==> Some(j) in items && j.jobId != ""
  {
    if items != [] {
      IdJobsMembers(items[..|items| - 1]);
      assert items == items[..|items| - 1] + [items[|items| - 1]];
    }
  }

  /**
   * What a load returns: exactly the stored jobs that have a job id, each
   * stamped, that survive pruning. Nothing else is read from the slot.
   */
  lemma LoadMembers(stored: Stored, now: int)
    ensures stored.Entries? ==> forall x :: x in LoadJobs(stored, now) <==>
      exists y :: Some(y) in stored.items && y.jobId != "" && x == Stamp(y, now) && Kept(x, now)
    ensures !stored.Entries? ==> LoadJobs(stored, now) == []
    ensures forall x :: x in LoadJobs(stored, now) ==> x.jobId != "" && x.updatedAt.Some? && Kept(x, now)
  {
    if stored.Entries? {
      var ids := IdJobs(stored.items);
      IdJobsMembers(stored.items);
      var stamped := StampAll(ids, now);
      FilterMembers(stamped, j => Kept(j, now));
      forall x ensures x in stamped <==> exists y :: y in ids && x == Stamp(y, now) {
        if x in stamped {
          var i :| 0 <= i < |stamped| && stamped[i] == x;
          assert ids[i] in ids;
        }
        if exists y :: y in ids && x == Stamp(y, now) {
          var y :| y in ids && x == Stamp(y, now);
          var i :| 0 <= i < |ids| && ids[i] == y;
          assert stamped[i] == x;
        }
      }
    }
  }

  /** Saving writes the surviving jobs as the slot's entries. */
  lemma SavedMembers(jobs: seq<Job>, now: int)
    ensures forall y :: Some(y) in Saved(jobs, now).items <==> y in jobs && Kept(y, now)
  {
    var pruned := Prune(jobs, now);
    FilterMembers(jobs, j => Kept(j, now));
    var items := Saved(jobs, now).items;
    forall y ensures Some(y) in items <==> y in pruned {
      if Some(y) in items {
        var i :| 0 <= i < |items| && items[i] == Some(y);
        assert pruned[i] == y;
      }
      if y in pruned {
        var i :| 0 <= i < |pruned| && pruned[i] == y;
        assert items[i] == Some(y);
      }
    }
  }

  /** What a load after a save returns: the saved jobs, stamped and pruned again. */
  lemma LoadAfterSave(jobs: seq<Job>, now: int)
    ensures forall x :: x in LoadJobs(Saved(jobs, now), now) ==>
      exists y :: y in jobs && y.jobId != "" && Kept(y, now) && x == Stamp(y, now)
  {
    LoadMembers(Saved(jobs, now), now);
    SavedMembers(jobs, now);
  }

  /** The first job with that id is replaced in place; a new id goes first. The new entry carries `now`. */
  lemma UpsertSpec(jobs: seq<Job>, job: Job, now: int)
    ensures var r, idx := Upserted(jobs, job, now), FindJob(jobs, job.jobId);
      var withTs := job.(updatedAt := Some(now));
      (idx >= 0 ==> |r| == |jobs| && r[idx] == withTs && forall k :: 0 <= k < |jobs| && k != idx ==> r[k] == jobs[k])
      && (idx < 0 ==> r == [withTs] + jobs && forall k :: 0 <= k < |jobs| ==> jobs[k].jobId != job.jobId)
  {
  }

  predicate UniqueIds(jobs: seq<Job>) {
    forall i, k :: 0 <= i < k < |jobs| ==> jobs[i].jobId != jobs[k].jobId
  }

  /** Upserting keeps job ids unique. */
  lemma UpsertKeepsUnique(jobs: seq<Job>, job: Job, now: int)
    requires UniqueIds(jobs)
    ensures UniqueIds(Upserted(jobs, job, now))
  {
    var r := Upserted(jobs, job, now);
    if FindJob(jobs, job.jobId) < 0 {
      forall i, k | 0 <= i < k < |r| ensures r[i].jobId != r[k].jobId {
        assert r[k] == jobs[k - 1];
        if i > 0 {
          assert r[i] == jobs[i - 1];
        }
      }
    }
  }

  /**
   * After `upsertJob(job)` a load at the same moment finds the job, stamped
   * with that moment, as long as it has a job id.
   */
  lemma UpsertThenLoad(stored: Stored, job: Job, now: int)
    requires job.jobId != ""
    ensures job.(updatedAt := Some(now)) in LoadJobs(Saved(Upserted(LoadJobs(stored, now), job, now), now), now)
  {
    var withTs := job.(updatedAt := Some(now));
    var up := Upserted(LoadJobs(stored, now), job, now);
    UpsertSpec(LoadJobs(stored, now), job, now);
    assert withTs in up by {
      var idx := FindJob(LoadJobs(stored, now), job.jobId);
      if idx >= 0 { assert up[idx] == withTs; } else { assert up[0] == withTs; }
    }
    assert Kept(withTs, now) && Stamp(withTs, now) == withTs;
    SavedMembers(up, now);
    LoadMembers(Saved(up, now), now);
  }

  /** After `removeJob(jobId)` no job with that id is left. */
  lemma RemoveThenLoad(stored: Stored, jobId: string, now: int)
    ensures forall x :: x in LoadJobs(Saved(WithoutId(LoadJobs(stored, now), jobId), now), now) ==> x.jobId != jobId
  {
    var rest := WithoutId(LoadJobs(stored, now), jobId);
    FilterMembers(LoadJobs(stored, now), (j: Job) => j.jobId != jobId);
    LoadAfterSave(rest, now);
  }

  /** Removing keeps every other job that is not due for pruning. */
  lemma RemoveKeepsOthers(stored: Stored, jobId: string, now: int)
    ensures forall x :: x in LoadJobs(stored, now) && x.jobId != jobId ==>
      x in LoadJobs(Saved(WithoutId(LoadJobs(stored, now), jobId), now), now)
  {
    var rest := WithoutId(LoadJobs(stored, now), jobId);
    FilterMembers(LoadJobs(stored, now), (j: Job) => j.jobId != jobId);
    LoadMembers(stored, now);
    SavedMembers(rest, now);
    LoadMembers(Saved(rest, now), now);
    forall x | x in LoadJobs(stored, now) && x.jobId != jobId
      ensures x in LoadJobs(Saved(rest, now), now)
    {
      assert Stamp(x, now) == x;
    }
  }

  /** After `clearCompletedJobs()` only processing jobs are left. */
  lemma ClearThenLoad(stored: Stored, now: int)
    ensures forall x :: x in LoadJobs(Saved(OnlyProcessing(LoadJobs(stored, now)), now), now) ==> x.status == Processing
  {
    FilterMembers(LoadJobs(stored, now), (j: Job) => j.status == Processing);
    LoadAfterSave(OnlyProcessing(LoadJobs(stored, now)), now);
  }

  /**
   * After `clearCompletedOlderThan(hours)`, whose cutoff is `hours` before
   * now, every job left is processing or was updated at or after the cutoff.
   */
  lemma ClearOlderThenLoad(stored: Stored, cutoff: int, now: int)
    ensures forall x :: x in LoadJobs(Saved(RecentOrProcessing(LoadJobs(stored, now), cutoff), now), now) ==>
      x.status == Processing || (x.updatedAt.Some? && x.updatedAt.value >= cutoff)
  {
    var kept := RecentOrProcessing(LoadJobs(stored, now), cutoff);
    FilterMembers(LoadJobs(stored, now), (j: Job) => Recent(j, cutoff));
    LoadMembers(stored, now);
    LoadAfterSave(kept, now);
    forall x | x in LoadJobs(Saved(kept, now), now)
      ensures x.status == Processing || (x.updatedAt.Some? && x.updatedAt.value >= cutoff)
    {
      var y :| y in kept && y.jobId != "" && Kept(y, now) && x == Stamp(y, now);
      assert Stamp(y, now) == y;
    }
  }

  /** `clearCompletedOlderThan(hours)` keeps every processing job. */
  lemma ClearOlderKeepsProcessing(stored: Stored, cutoff: int, now: int)
    ensures forall x :: x in LoadJobs(stored, now) && x.status == Processing ==>
      x in LoadJobs(Saved(RecentOrProcessing(LoadJobs(stored, now), cutoff), now), now)
  {
    var kept := RecentOrProcessing(LoadJobs(stored, now), cutoff);
    FilterMembers(LoadJobs(stored, now), (j: Job) => Recent(j, cutoff));
    LoadMembers(stored, now);
    SavedMembers(kept, now);
    LoadMembers(Saved(kept, now), now);
    forall x | x in LoadJobs(stored, now) && x.status == Processing
      ensures x in LoadJobs(Saved(kept, now), now)
    {
      assert Stamp(x, now) == x;
    }
  }
}
