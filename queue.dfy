/** lib/queue.ts: the in-process job queue. Tasks wait in arrival order;
    at most two run at a time; a task first claims its job in the
    `activeJobs` set, checks the record, marks it `processing`, runs
    `processMedia` and records the outcome. Each task is modelled as two
    atomic steps, its start and its finish, so that the steps of two
    running tasks interleave as the scheduler chooses. */
module Queue {
  import opened Wrappers
  import opened JobStore
  import opened Storage
  import opened Processing

  /** `concurrency` of the queue (line 8). */
  const Concurrency := 2

  /** Milliseconds in the 30 days `cleanupOldJobs` keeps (lines 193-194). */
  const Retention := 30 * 24 * 60 * 60 * 1000

  /** What a started task carries into `processMedia` (line 57). */
  datatype Task = Task(jobId: string, fileUrl: string, userId: string, language: string)

  /** The ids of the given tasks, in order. */
  function Ids(ts: seq<Task>): (r: seq<string>)
    ensures |r| == |ts| && forall i :: 0 <= i < |ts| ==> r[i] == ts[i].jobId
  {
    seq(|ts|, i requires 0 <= i < |ts| => ts[i].jobId)
  }

  /** The statuses `processJob` accepts (line 43) and `resumePendingJobs`
      looks for (line 135). */
  predicate Eligible(s: Status) {
    s == Pending || s == Retrying
  }

  function Resumable(): Job -> bool {
    (j: Job) => Eligible(j.status)
  }

  /** The records `cleanupOldJobs` deletes (lines 197-206): finished ones
      created before the cutoff. */
  function Expired(cutoff: int): Job -> bool {
    (j: Job) => j.createdAt < cutoff && (j.status == Completed || j.status == Failed)
  }

  /** The write `processJob` makes once `processMedia` returns (lines 60-63). */
  function CompletedPatch(): Patch {
    SetStatus(Completed, 100)
  }

  /** The write of the `catch` block (lines 76-79). */
  function FailedPatch(message: string): Patch {
    Patch(Some(Failed), None, Some(Some(message)), None, None)
  }

  /** The record a finished task leaves, given the record it started
      from, how far `processMedia` got and how it ended. */
  function Concluded(job: Job, outcome: Outcome, n: nat, url: string, now: int): (r: Job)
    requires n <= 5
  {
    var ran := Progressed(job, n, url, now);
    if outcome.Pass? then Apply(ran, CompletedPatch(), now) else Apply(ran, FailedPatch(outcome.error), now)
  }

  /** A task that succeeded leaves the record completed with its download
      URL; one that failed leaves it failed with the message of the
      error, its download URL as before. */
  lemma ConcludedRecord(job: Job, outcome: Outcome, n: nat, url: string, now: int)
    requires n <= 5 && (outcome.Pass? <==> n == 5)
    ensures var r := Concluded(job, outcome, n, url, now);
      (r.status == Completed <==> outcome.Pass?) &&
      (outcome.Pass? ==> r.progress == 100 && r.downloadUrl == Some(url) && r.error == job.error) &&
      (outcome.Fail? ==> r.status == Failed && r.error == Some(outcome.error) && r.downloadUrl == job.downloadUrl) &&
      r.id == job.id && r.fileUrl == job.fileUrl && r.createdAt == job.createdAt
  {
  }

  /** The running tasks are distinct jobs whose records exist and are
      `processing`: no job is processed by two tasks at once. */
  ghost predicate Exclusive(running: seq<Task>, jobs: map<string, Job>) {
    (forall i, k :: 0 <= i < k < |running| ==> running[i].jobId != running[k].jobId) &&
    (forall i :: 0 <= i < |running| ==> running[i].jobId in jobs && jobs[running[i].jobId].status == Processing)
  }

  /** A task starts only on a pending or retrying record, which no running
      task holds, and marks it `processing`; so the running tasks stay
      exclusive whatever the claims say. */
  lemma StartKeepsExclusive(running: seq<Task>, jobs: map<string, Job>, t: Task, job: Job)
    requires Exclusive(running, jobs) && t.jobId in jobs && Eligible(jobs[t.jobId].status)
    requires job.status == Processing
    ensures Exclusive(running + [t], jobs[t.jobId := job])
  {
    var r := running + [t];
    forall i | 0 <= i < |running|
      ensures r[i].jobId != t.jobId
    {
      assert jobs[running[i].jobId].status == Processing;
    }
  }

  /** A finished task leaves the queue; the records of the others are
      untouched, so they stay exclusive. */
  lemma FinishKeepsExclusive(running: seq<Task>, jobs: map<string, Job>, k: nat, after: map<string, Job>)
    requires Exclusive(running, jobs) && k < |running|
    requires forall id :: id in jobs && id != running[k].jobId ==> id in after && after[id] == jobs[id]
    ensures Exclusive(running[..k] + running[k + 1..], after)
  {
    var r := running[..k] + running[k + 1..];
    forall i | 0 <= i < |r|
      ensures r[i] == running[if i < k then i else i + 1]
    {
    }
  }

  /** `cleanupOldJobs` deletes finished records only, never the record
      of a running task. */
  lemma CleanupKeepsExclusive(running: seq<Task>, jobs: map<string, Job>, cutoff: int)
    requires Exclusive(running, jobs)
    ensures Exclusive(running, map id | id in jobs && !Expired(cutoff)(jobs[id]) :: jobs[id])
  {
  }

  /** The queue, the scheduler's view of its running tasks and the
      `activeJobs` set (line 19). */
  class ConversionQueue {
    /** Tasks added and not yet started, in order. */
    var waiting: seq<string>
    /** Tasks that passed their checks and are in `processMedia`. */
    var running: seq<Task>
    /** `activeJobs`. */
    var active: set<string>
    /** Set by `worker.close`. */
    var paused: bool

    /** No more tasks run than the concurrency allows, and every claimed
        id belongs to a running task. */
    ghost predicate Valid()
      reads this
    {
      |running| <= Concurrency && forall id :: id in active ==> id in Ids(running)
    }

    constructor ()
      ensures Valid()
      ensures waiting == [] && running == [] && active == {} && !paused
    {
      waiting, running, active, paused := [], [], {}, false;
    }

    /** `addConversionJob` (lines 87-127): a task for the job is queued
        when its record exists and the id is not claimed. The file URL,
        user and language arguments are not used: the task reads them from
        the record when it starts. `fetch` is the outcome of the database
        query of `getConversionJob`; its failure is thrown on with that
        function's prefix and nothing is queued. */
    method Add(store: Store, jobId: string, fetch: Outcome) returns (r: Outcome)
      requires store.Valid()
      modifies this`waiting
      ensures r == if fetch.Fail? then Fail(FetchError + fetch.error) else Pass
      ensures waiting ==
        if fetch.Pass? && jobId in store.jobs && jobId !in active then old(waiting) + [jobId] else old(waiting)
    {
      if fetch.Fail? {
        return Fail(FetchError + fetch.error);
      }
      r := Pass;
      var existing := store.Get(jobId);
      if existing.Some? {
        if jobId in active {
          return;
        }
        waiting := waiting + [jobId];
      }
    }

    /** The start of `processJob` (lines 24-57), for the first waiting
        task, when the queue is not paused and has a free slot. A task
        whose id is claimed returns at once, and its `finally` block
        (line 81) releases the claim of the task that holds it. A task
        whose record is missing or not eligible releases its own claim.
        An eligible one is marked `processing` and runs. */
    method Start(store: Store, now: int)
      requires store.Valid() && Valid()
      modifies this`waiting, this`running, this`active, store`jobs
      ensures store.Valid() && Valid()
      ensures old(paused || |running| >= Concurrency || waiting == []) ==>
        waiting == old(waiting) && running == old(running) && active == old(active) && store.jobs == old(store.jobs)
      ensures !old(paused || |running| >= Concurrency || waiting == []) ==>
        var id := old(waiting[0]);
        var go := id !in old(active) && id in old(store.jobs) && Eligible(old(store.jobs)[id].status);
        waiting == old(waiting[1..]) &&
        active == (if id in old(active) then old(active) - {id} else if go then old(active) + {id} else old(active)) &&
        running == (if go then old(running) + [Task(id, old(store.jobs)[id].fileUrl, old(store.jobs)[id].userId, old(store.jobs)[id].language)]
                    else old(running)) &&
        store.jobs == (if go then old(store.jobs)[id := Apply(old(store.jobs)[id], SetStatus(Processing, 0), now)]
                       else old(store.jobs))
      ensures Exclusive(old(running), old(store.jobs)) ==> Exclusive(running, store.jobs)
    {
      if paused || |running| >= Concurrency || waiting == [] {
        return;
      }
      var jobId := waiting[0];
      waiting := waiting[1..];
      if jobId in active {
        active := active - {jobId};
        return;
      }
      active := active + {jobId};
      var job := store.Get(jobId);
      if job.None? || !Eligible(job.value.status) {
        active := active - {jobId};
        return;
      }
      var w := store.Update(jobId, SetStatus(Processing, 0), now);
      var t := Task(jobId, job.value.fileUrl, job.value.userId, job.value.language);
      if Exclusive(running, old(store.jobs)) {
        StartKeepsExclusive(running, old(store.jobs), t, w.value);
      }
      IdsSnoc(running, t);
      running := running + [t];
    }

    /** The rest of `processJob` (lines 57-83) for the running task `k`:
        the task is processed, its `finally` block releases the claim and
        the task leaves the queue. */
    method Finish(store: Store, disk: Disk, bucket: Bucket, k: nat, cwd: string, publicUrl: string,
                  svc: Services, now: int)
      returns (r: Outcome, ghost n: nat)
      requires store.Valid() && Valid() && k < |running|
      modifies this`running, this`active, store`jobs, disk`files, bucket`objects
      ensures store.Valid() && Valid()
      ensures running == old(running[..k] + running[k + 1..])
      ensures active == old(active) - {old(running[k].jobId)}
      ensures Processed(old(running[k]), cwd, publicUrl, svc, now, old(store.jobs), old(disk.files), old(bucket.objects),
                        store.jobs, disk.files, bucket.objects, r, n)
      ensures Exclusive(old(running), old(store.jobs)) ==> Exclusive(running, store.jobs)
    {
      var t := running[k];
      ghost var jobs0 := store.jobs;
      r, n := ProcessTask(store, disk, bucket, t, cwd, publicUrl, svc, now);
      if Exclusive(running, jobs0) {
        FinishKeepsExclusive(running, jobs0, k, store.jobs);
      }
      active := active - {t.jobId};
      running := running[..k] + running[k + 1..];
      RemoveKeepsClaims(old(running), k, old(active), t.jobId);
    }

    /** `worker.close` (lines 209-215): the queue stops starting tasks and
        drops the waiting ones; running tasks go on. */
    method Close()
      modifies this`paused, this`waiting
      ensures paused && waiting == []
    {
      paused := true;
      waiting := [];
    }

    /** `resumePendingJobs` (lines 130-181): a task for every pending or
        retrying record, oldest first, whether or not its id is claimed.
        It returns the listing it read. */
    method Resume(store: Store) returns (pending: seq<Job>)
      requires store.Valid()
      modifies this`waiting
      ensures Selects(store.jobs, Resumable(), pending) && Sorted(pending, true)
      ensures waiting == old(waiting) + JobIds(pending)
    {
      pending := store.FindMany(Resumable(), true);
      var i := 0;
      while i < |pending|
        invariant 0 <= i <= |pending|
        invariant waiting == old(waiting) + JobIds(pending[..i])
      {
        assert pending[..i + 1][..i] == pending[..i];
        waiting := waiting + [pending[i].id];
        i := i + 1;
      }
      assert pending[..i] == pending;
    }
  }

  /** Removing task `k` and its id from the claims keeps every other
      claim on a running task. */
  lemma RemoveKeepsClaims(ts: seq<Task>, k: nat, active: set<string>, id: string)
    requires k < |ts| && ts[k].jobId == id && forall x :: x in active ==> x in Ids(ts)
    ensures forall x :: x in active - {id} ==> x in Ids(ts[..k] + ts[k + 1..])
  {
    forall x | x in active - {id}
      ensures x in Ids(ts[..k] + ts[k + 1..])
    {
      StillRunning(ts, k, x);
    }
  }

  lemma IdsSnoc(ts: seq<Task>, t: Task)
    ensures Ids(ts + [t]) == Ids(ts) + [t.jobId]
  {
    assert forall i :: 0 <= i < |ts| ==> Ids(ts + [t])[i] == (Ids(ts) + [t.jobId])[i];
  }

  lemma StillRunning(ts: seq<Task>, k: nat, x: string)
    requires k < |ts| && x in Ids(ts) && x != ts[k].jobId
    ensures x in Ids(ts[..k] + ts[k + 1..])
  {
    var i :| 0 <= i < |ts| && Ids(ts)[i] == x;
    var j := if i < k then i else i - 1;
    assert (ts[..k] + ts[k + 1..])[j] == ts[i];
    assert Ids(ts[..k] + ts[k + 1..])[j] == x;
  }

  /** The ids of the listed records, in order. */
  function JobIds(jobs: seq<Job>): (r: seq<string>)
    ensures |r| == |jobs| && forall i :: 0 <= i < |jobs| ==> r[i] == jobs[i].id
  {
    seq(|jobs|, i requires 0 <= i < |jobs| => jobs[i].id)
  }

  /** What processing task `t` does, from `jobs0`, `files0` and
      `objects0` to `jobs`, `files` and `objects`: `processMedia` ends
      as `EndOf` says after `n` writes, the record is then concluded,
      the bucket holds the subtitles exactly when the run succeeded, and
      the scratch and input files are gone. */
  ghost predicate Processed(t: Task, cwd: string, publicUrl: string, svc: Services, now: int,
                            jobs0: map<string, Job>, files0: map<string, string>, objects0: map<string, string>,
                            jobs: map<string, Job>, files: map<string, string>, objects: map<string, string>,
                            r: Outcome, n: nat)
  {
    Ran(t, cwd, svc, jobs0, files0, objects0, files, objects, r, n) &&
    (t.jobId !in jobs0 ==> jobs == jobs0) &&
    (t.jobId in jobs0 ==>
      var job := jobs0[t.jobId];
      jobs == jobs0[t.jobId := Concluded(job, r, n, SrtUrl(publicUrl, SrtKey(t.jobId, job.fileName)), now)])
  }

  /** What `processMedia` does for task `t` besides its writes to the
      record. */
  ghost predicate Ran(t: Task, cwd: string, svc: Services,
                      jobs0: map<string, Job>, files0: map<string, string>, objects0: map<string, string>,
                      files: map<string, string>, objects: map<string, string>, r: Outcome, n: nat)
  {
    var transcript := Transcribe(t.language, svc).result;
    var e := EndOf(jobs0, files0, cwd, t.jobId, t.fileUrl, transcript, svc);
    r == e.outcome && n == e.writes &&
    (r.Pass? ==> transcript.Success? && objects == objects0[SrtKey(t.jobId, jobs0[t.jobId].fileName) := transcript.value]) &&
    (r.Fail? ==> objects == objects0) &&
    files == files0 - (Scratch(cwd, t.jobId, n) + (if n >= 1 then {InputPath(cwd, t.fileUrl)} else {}))
  }

  /** Lines 55-79 for task `t`: `processMedia`, then the record is
      concluded. */
  method ProcessTask(store: Store, disk: Disk, bucket: Bucket, t: Task, cwd: string, publicUrl: string,
                     svc: Services, now: int)
    returns (r: Outcome, ghost n: nat)
    requires store.Valid()
    modifies store`jobs, disk`files, bucket`objects
    ensures store.Valid()
    ensures Processed(t, cwd, publicUrl, svc, now, old(store.jobs), old(disk.files), old(bucket.objects),
                      store.jobs, disk.files, bucket.objects, r, n)
    ensures forall id :: id in old(store.jobs) && id != t.jobId ==> id in store.jobs && store.jobs[id] == old(store.jobs)[id]
  {
    ghost var jobs0 := store.jobs;
    r, n := ProcessMedia(store, disk, bucket, cwd, publicUrl, t.jobId, t.fileUrl, t.userId, t.language, false, svc, now);
    ghost var ran := store.jobs;
    assert Ran(t, cwd, svc, jobs0, old(disk.files), old(bucket.objects), disk.files, bucket.objects, r, n);
    Conclude(store, t.jobId, r, now);
    if t.jobId in jobs0 {
      ConcludedJobs(jobs0, ran, store.jobs, t.jobId, SrtUrl(publicUrl, SrtKey(t.jobId, jobs0[t.jobId].fileName)), r, n, now);
    }
  }

  /** The `n` writes of `processMedia` followed by the concluding write
      leave the record `Concluded` and every other record as it was. */
  lemma ConcludedJobs(jobs0: map<string, Job>, ran: map<string, Job>, jobs: map<string, Job>, jobId: string,
                      url: string, r: Outcome, n: nat, now: int)
    requires jobId in jobs0 && n <= 5 && Written(ran, jobs0, jobId, url, now, n)
    requires jobId in ran
    requires jobs == ran[jobId := Apply(ran[jobId], if r.Pass? then CompletedPatch() else FailedPatch(r.error), now)]
    ensures jobs == jobs0[jobId := Concluded(jobs0[jobId], r, n, url, now)]
    ensures forall id :: id in jobs0 && id != jobId ==> id in jobs && jobs[id] == jobs0[id]
  {
  }

  /** Lines 60-79: the `completed` write after `processMedia` returns, or
      the `failed` write with the message of its error, also when the
      `completed` write itself fails. */
  method Conclude(store: Store, jobId: string, r: Outcome, now: int)
    requires store.Valid()
    modifies store`jobs
    ensures store.Valid()
    ensures jobId !in old(store.jobs) ==> store.jobs == old(store.jobs)
    ensures jobId in old(store.jobs) ==>
      store.jobs == old(store.jobs)[jobId := Apply(old(store.jobs)[jobId], if r.Pass? then CompletedPatch() else FailedPatch(r.error), now)]
  {
    if r.Pass? {
      var w := store.Update(jobId, CompletedPatch(), now);
      if w.Failure? {
        var f := store.Update(jobId, FailedPatch(w.error), now);
      }
    } else {
      var f := store.Update(jobId, FailedPatch(r.error), now);
    }
  }

  /** `cleanupOldJobs` (lines 191-207): the finished records created more
      than 30 days before `now` are deleted. */
  method CleanupOldJobs(store: Store, now: int)
    requires store.Valid()
    modifies store`jobs
    ensures store.Valid()
    ensures store.jobs == map id | id in old(store.jobs) && !Expired(now - Retention)(old(store.jobs)[id]) :: old(store.jobs)[id]
  {
    store.DeleteWhere(Expired(now - Retention));
  }
}
