/** The job store of lib/db.ts: conversion-job records and the user rows
    they belong to, kept by the database and reached through
    `createConversionJob`, `getConversionJob`, `updateConversionJob`,
    `deleteConversionJob` and `getUserJobs`. */
module JobStore {
  import opened Wrappers

  /** The status of a job. The type declared at line 7 lists four values;
      the queue also stores and reads `retrying`, so it is a fifth. */
  datatype Status = Pending | Processing | Completed | Failed | Retrying

  /** A conversion-job record (lines 9-24). Times are milliseconds since
      the epoch; `null` is `None`. */
  datatype Job = Job(
    id: string,
    userId: string,
    fileName: string,
    fileSize: int,
    fileType: string,
    fileUrl: string,
    language: string,
    status: Status,
    progress: int,
    eta: Option<string>,
    downloadUrl: Option<string>,
    error: Option<string>,
    createdAt: int,
    updatedAt: int)

  /** A user row: its own id, and the id the authentication service gave
      the user. */
  datatype User = User(id: string, clerkId: string, email: string, name: string)

  /** The fields `updateConversionJob` may be given (lines 149-155); `None`
      is a field that was not supplied, and for `error` and `downloadUrl`
      `Some(None)` is an explicit `null`. */
  datatype Patch = Patch(
    status: Option<Status>,
    progress: Option<int>,
    error: Option<Option<string>>,
    downloadUrl: Option<Option<string>>,
    updatedAt: Option<int>)

  const CreateError := "Failed to create conversion job: "
  const FetchError := "Failed to fetch job: "
  const UserJobsError := "Failed to fetch user jobs: "
  const DeleteError := "Failed to delete job: "
  const UpdateError := "Failed to update job: "
  const UserNotFound := "User not found"
  /** Stand-ins for the messages of the database client's own errors. */
  const RecordNotFound := "Record to update or delete does not exist."
  const DuplicateId := "Unique constraint failed on the fields: (`id`)"

  /** The record `prisma.conversionJob.create` stores (lines 62-76). */
  function NewJob(id: string, userRowId: string, fileName: string, fileSize: int, fileType: string,
                  fileUrl: string, language: Option<string>, now: int): Job
  {
    Job(id, userRowId, fileName, fileSize, fileType, fileUrl, language.GetOr("en"),
        Pending, 0, None, None, None, now, now)
  }

  /** The user row the upsert of lines 49-57 creates when none exists. */
  function NewUser(rowId: string, clerkId: string): User {
    User(rowId, clerkId, clerkId + "@example.com", clerkId)
  }

  /** The record after `update` with `{...data, updatedAt: data.updatedAt || new Date()}`
      (lines 159-165): the supplied fields replace the stored ones and
      `updatedAt` is the supplied time or `now`. */
  function Apply(job: Job, patch: Patch, now: int): (r: Job)
    ensures r.status == (if patch.status.Some? then patch.status.value else job.status)
    ensures r.progress == (if patch.progress.Some? then patch.progress.value else job.progress)
    ensures r.error == (if patch.error.Some? then patch.error.value else job.error)
    ensures r.downloadUrl == (if patch.downloadUrl.Some? then patch.downloadUrl.value else job.downloadUrl)
    ensures r.updatedAt == (if patch.updatedAt.Some? then patch.updatedAt.value else now)
    ensures r.(status := job.status, progress := job.progress, error := job.error,
               downloadUrl := job.downloadUrl, updatedAt := job.updatedAt) == job
  {
    job.(status := patch.status.GetOr(job.status),
         progress := patch.progress.GetOr(job.progress),
         error := patch.error.GetOr(job.error),
         downloadUrl := patch.downloadUrl.GetOr(job.downloadUrl),
         updatedAt := patch.updatedAt.GetOr(now))
  }

  /** A patch that sets the status and the progress only. */
  function SetStatus(status: Status, progress: int): Patch {
    Patch(Some(status), Some(progress), None, None, None)
  }

  /** Applying the same patch again at the same time changes nothing. */
  lemma ApplyIdempotent(job: Job, patch: Patch, now: int)
    ensures Apply(Apply(job, patch, now), patch, now) == Apply(job, patch, now)
  {
  }

  /** A later patch overrides the fields it supplies and keeps the rest of
      an earlier one. */
  lemma ApplyThenApply(job: Job, p: Patch, q: Patch, t: int, u: int)
    ensures Apply(Apply(job, p, t), q, u) ==
      Apply(job, Patch(if q.status.Some? then q.status else p.status,
                       if q.progress.Some? then q.progress else p.progress,
                       if q.error.Some? then q.error else p.error,
                       if q.downloadUrl.Some? then q.downloadUrl else p.downloadUrl,
                       q.updatedAt), u)
  {
  }

  // ---------------------------------------------------------------------
  // Listings

  /** `a` may come before `b` in a listing ordered by `createdAt`. */
  predicate InOrder(a: Job, b: Job, ascending: bool) {
    if ascending then a.createdAt <= b.createdAt else a.createdAt >= b.createdAt
  }

  /** The listing is ordered by `createdAt`, ascending or descending. */
  predicate Sorted(r: seq<Job>, ascending: bool) {
    forall i, k :: 0 <= i < k < |r| ==> InOrder(r[i], r[k], ascending)
  }

  /** No record appears twice in the listing. */
  predicate DistinctIds(r: seq<Job>) {
    forall i, k :: 0 <= i < k < |r| ==> r[i].id != r[k].id
  }

  /** The listing holds exactly the stored records that satisfy `keep`,
      each once. */
  predicate Selects(jobs: map<string, Job>, keep: Job -> bool, r: seq<Job>) {
    (forall j :: j in r ==> j.id in jobs && jobs[j.id] == j && keep(j)) &&
    (forall id :: id in jobs && keep(jobs[id]) ==> jobs[id] in r) &&
    DistinctIds(r)
  }

  /** The listing with `j` inserted before the first record it may
      precede. */
  function Insert(r: seq<Job>, j: Job, ascending: bool): (s: seq<Job>)
    ensures |s| == |r| + 1
    ensures forall x :: x in s <==> x in r || x == j
    ensures Sorted(r, ascending) ==> Sorted(s, ascending)
  {
    if r == [] || InOrder(j, r[0], ascending) then
      InsertFront(r, j, ascending);
      [j] + r
    else
      var rest := Insert(r[1..], j, ascending);
      InsertAfter(r, rest, ascending);
      [r[0]] + rest
  }

  lemma InsertFront(r: seq<Job>, j: Job, ascending: bool)
    requires r == [] || InOrder(j, r[0], ascending)
    ensures Sorted(r, ascending) ==> Sorted([j] + r, ascending)
  {
  }

  lemma InsertAfter(r: seq<Job>, rest: seq<Job>, ascending: bool)
    requires r != []
    requires Sorted(r[1..], ascending) ==> Sorted(rest, ascending)
    requires forall x :: x in rest ==> x in r[1..] || InOrder(r[0], x, ascending)
    ensures Sorted(r, ascending) ==> Sorted([r[0]] + rest, ascending)
  {
    if Sorted(r, ascending) {
      forall k | 0 < k < |[r[0]] + rest|
        ensures InOrder(r[0], ([r[0]] + rest)[k], ascending)
      {
        var x := rest[k - 1];
        assert x in rest;
        if x in r[1..] {
          var m :| 0 <= m < |r[1..]| && r[1..][m] == x;
          assert r[m + 1] == x;
        }
      }
    }
  }

  /** Records with different ids inserted into a listing without the id
      keep the ids distinct. */
  lemma InsertDistinct(r: seq<Job>, j: Job, ascending: bool)
    requires DistinctIds(r) && forall x :: x in r ==> x.id != j.id
    ensures DistinctIds(Insert(r, j, ascending))
  {
    var s := Insert(r, j, ascending);
    if r == [] || InOrder(j, r[0], ascending) {
      assert s == [j] + r;
      forall k | 0 < k < |s|
        ensures s[0].id != s[k].id
      {
        assert s[k] == r[k - 1] && s[k] in r;
      }
    } else {
      var rest := Insert(r[1..], j, ascending);
      InsertDistinct(r[1..], j, ascending);
      assert s == [r[0]] + rest;
      forall k | 0 < k < |s|
        ensures s[0].id != s[k].id
      {
        assert s[k] == rest[k - 1] && s[k] in rest;
        if s[k] != j {
          var m :| 0 <= m < |r[1..]| && r[1..][m] == s[k];
          assert r[m + 1] == s[k];
        }
      }
    }
  }

  /** The rows of `jobs` that belong to the user row `userRowId`. */
  function OwnedBy(userRowId: string): Job -> bool {
    (j: Job) => j.userId == userRowId
  }

  /** The database: job records by id and user rows by the
      authentication service's user id. */
  class Store {
    var jobs: map<string, Job>
    var users: map<string, User>

    ghost predicate Valid()
      reads this
    {
      (forall id :: id in jobs ==> jobs[id].id == id) &&
      (forall c :: c in users ==> users[c].clerkId == c) &&
      (forall c, d :: c in users && d in users && c != d ==> users[c].id != users[d].id)
    }

    constructor ()
      ensures Valid() && jobs == map[] && users == map[]
    {
      jobs := map[];
      users := map[];
    }

    /** `createConversionJob` (lines 29-84). `newJobId` is the `uuidv4()`
        of line 64, `newUserRowId` the id the database gives a new user row,
        `now` the clock. The user row is upserted first and stays even when
        the job cannot be stored. The database never reuses a row id, so
        `newUserRowId` is one no user row has. */
    method Create(userId: string, fileName: string, fileSize: int, fileType: string, fileUrl: string,
                  language: Option<string>, newJobId: string, newUserRowId: string, now: int)
      returns (r: Result<Job>)
      requires Valid()
      requires userId !in users ==> forall c :: c in users ==> users[c].id != newUserRowId
      modifies this
      ensures Valid()
      ensures users == if userId in old(users) then old(users) else old(users)[userId := NewUser(newUserRowId, userId)]
      ensures newJobId in old(jobs) ==> r == Failure(CreateError + DuplicateId) && jobs == old(jobs)
      ensures newJobId !in old(jobs) ==>
        r == Success(NewJob(newJobId, users[userId].id, fileName, fileSize, fileType, fileUrl, language, now)) &&
        jobs == old(jobs)[newJobId := r.value]
      ensures r.Success? ==>
        r.value.status == Pending && r.value.progress == 0 &&
        r.value.userId == users[userId].id && r.value.language == (if language.Some? then language.value else "en")
    {
      if userId !in users {
        users := users[userId := NewUser(newUserRowId, userId)];
      }
      var user := users[userId];
      if newJobId in jobs {
        return Failure(CreateError + DuplicateId);
      }
      var job := NewJob(newJobId, user.id, fileName, fileSize, fileType, fileUrl, language, now);
      jobs := jobs[newJobId := job];
      r := Success(job);
    }

    /** `getConversionJob` (lines 86-98): the record, or `null`. */
    method Get(id: string) returns (r: Option<Job>)
      requires Valid()
      ensures r.Some? <==> id in jobs
      ensures r.Some? ==> r.value == jobs[id] && r.value.id == id
    {
      if id in jobs {
        r := Some(jobs[id]);
      } else {
        r := None;
      }
    }

    /** The database's own `update` of one record: the supplied fields
        replace the stored ones; a missing record fails with the
        database's message. */
    method UpdateRecord(id: string, patch: Patch, now: int) returns (r: Result<Job>)
      requires Valid()
      modifies this`jobs
      ensures Valid()
      ensures id !in old(jobs) ==> r == Failure(RecordNotFound) && jobs == old(jobs)
      ensures id in old(jobs) ==> r == Success(Apply(old(jobs)[id], patch, now)) && jobs == old(jobs)[id := r.value]
    {
      if id !in jobs {
        return Failure(RecordNotFound);
      }
      var job := Apply(jobs[id], patch, now);
      jobs := jobs[id := job];
      r := Success(job);
    }

    /** `updateConversionJob` (lines 147-172): the update above, with its
        error message prefixed. */
    method Update(id: string, patch: Patch, now: int) returns (r: Result<Job>)
      requires Valid()
      modifies this`jobs
      ensures Valid()
      ensures id !in old(jobs) ==> r == Failure(UpdateError + RecordNotFound) && jobs == old(jobs)
      ensures id in old(jobs) ==> r == Success(Apply(old(jobs)[id], patch, now)) && jobs == old(jobs)[id := r.value]
    {
      r := UpdateRecord(id, patch, now);
      if r.Failure? {
        r := Failure(UpdateError + r.error);
      }
    }

    /** `deleteConversionJob` (lines 134-145). */
    method Delete(id: string) returns (r: Outcome)
      requires Valid()
      modifies this`jobs
      ensures Valid()
      ensures r == (if id in old(jobs) then Pass else Fail(DeleteError + RecordNotFound))
      ensures jobs == old(jobs) - {id}
    {
      if id !in jobs {
        return Fail(DeleteError + RecordNotFound);
      }
      jobs := jobs - {id};
      r := Pass;
    }

    /** `findMany` with a filter and an order on `createdAt`: every stored
        record that `keep` accepts, once, in order. Records with the same
        creation time come in an order this model leaves open. */
    method FindMany(keep: Job -> bool, ascending: bool) returns (r: seq<Job>)
      requires Valid()
      ensures Selects(jobs, keep, r) && Sorted(r, ascending)
    {
      var rest := jobs.Keys;
      r := [];
      while rest != {}
        invariant rest <= jobs.Keys
        invariant forall j :: j in r ==> j.id in jobs && jobs[j.id] == j && keep(j) && j.id !in rest
        invariant forall id :: id in jobs && id !in rest && keep(jobs[id]) ==> jobs[id] in r
        invariant DistinctIds(r) && Sorted(r, ascending)
        decreases rest
      {
        var id :| id in rest;
        var job := jobs[id];
        if keep(job) {
          InsertDistinct(r, job, ascending);
          r := Insert(r, job, ascending);
        }
        rest := rest - {id};
      }
    }

    /** `deleteMany` with a filter: removes exactly the records `keep`
        accepts. */
    method DeleteWhere(keep: Job -> bool)
      requires Valid()
      modifies this`jobs
      ensures Valid()
      ensures jobs == map id | id in old(jobs) && !keep(old(jobs)[id]) :: old(jobs)[id]
    {
      jobs := map id | id in jobs && !keep(jobs[id]) :: jobs[id];
    }

    /** `getUserJobs` (lines 100-132): the jobs of the user row of the
        given authentication id, newest first; the paging options are
        ignored. */
    method UserJobs(clerkId: string) returns (r: Result<seq<Job>>)
      requires Valid()
      ensures clerkId !in users ==> r == Failure(UserJobsError + UserNotFound)
      ensures clerkId in users ==>
        r.Success? &&
        Selects(jobs, OwnedBy(users[clerkId].id), r.value) && Sorted(r.value, false)
      ensures r.Success? ==>
        forall c, i :: c in users && c != clerkId && 0 <= i < |r.value| ==> r.value[i].userId != users[c].id
    {
      if clerkId !in users {
        return Failure(UserJobsError + UserNotFound);
      }
      var rows := FindMany(OwnedBy(users[clerkId].id), false);
      r := Success(rows);
    }
  }
}
