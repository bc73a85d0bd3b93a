/** app/api/v1/convert/route.ts: the upload endpoint. A request passes a
    chain of checks (signed in, a file, at most 2 GB, a supported media
    type, a supported language); the first check that fails decides the
    error response and nothing is stored. A request that passes them has
    its file saved, a `pending` record created and a task queued, and is
    answered with the job id and the URL to poll. */
module ConvertRoute {
  import opened Wrappers
  import opened JobStore
  import opened Storage
  import opened Queue

  /** `MAX_FILE_SIZE` (line 8): 2 GB in bytes. */
  const MaxFileSize := 2 * 1024 * 1024 * 1024

  /** `SUPPORTED_TYPES` (lines 11-16): MP4, AVI, WAV and MP3. */
  const SupportedTypes := ["video/mp4", "video/x-msvideo", "audio/wav", "audio/mpeg"]

  /** `SUPPORTED_LANGUAGES` (line 19). */
  const SupportedLanguages := ["en", "es", "fr", "de", "it", "pt", "ru", "ja", "ko", "zh", "ar", "hi", "bn", "ur"]

  const Unauthorized := "Unauthorized"
  const NoFile := "No file provided"
  const TooLarge := "File size exceeds the 2GB limit"
  const UnsupportedType := "Unsupported file type. Please upload MP4, AVI, WAV, or MP3"
  const UnsupportedLanguage := "Unsupported language"
  const UploadFailed := "Failed to process file upload"

  /** The `file` field of the form: its name, size in bytes, media type
      and contents. */
  datatype Upload = Upload(name: string, size: int, mimeType: string, contents: string)

  /** What the handler reads from a request: the signed-in user id, if
      any, and the `file` and `language` form fields, if present. */
  datatype Request = Request(userId: Option<string>, file: Option<Upload>, language: Option<string>)

  datatype Body =
    | ErrorBody(error: string)
    | Accepted(jobId: string, status: string, pollingUrl: string)

  /** A JSON response and its HTTP status. */
  datatype Response = Response(status: int, body: Body)

  /** The language of line 33: the form field, or `en` when it is missing
      or empty. */
  function Language(field: Option<string>): (r: string)
    ensures r == "en" <==> field.None? || field.value == "" || field.value == "en"
    ensures field.Some? && field.value != "" ==> r == field.value
  {
    if field.Some? && field.value != "" then field.value else "en"
  }

  /** The URL the client polls for the job (line 98). */
  function PollingUrl(jobId: string): string {
    "/api/v1/convert/" + jobId
  }

  /** A request every check of lines 25-68 lets through, stated check by
      check, independent of their order. */
  predicate Admissible(req: Request) {
    req.userId.Some? && req.userId.value != "" &&
    req.file.Some? &&
    req.file.value.size <= MaxFileSize &&
    req.file.value.mimeType in SupportedTypes &&
    Language(req.language) in SupportedLanguages
  }

  /** Lines 25-68: the response of the first check that fails, if any.
      Only a missing user is answered with 401; every other refusal is
      a 400. */
  function Guard(req: Request): (r: Option<Response>)
    ensures r.None? <==> Admissible(req)
    ensures r.Some? ==> r.value.body.ErrorBody? && r.value.status in {400, 401}
    ensures r.Some? ==> (r.value.status == 401 <==> req.userId.None? || req.userId.value == "")
  {
    if req.userId.None? || req.userId.value == "" then Some(Response(401, ErrorBody(Unauthorized)))
    else if req.file.None? then Some(Response(400, ErrorBody(NoFile)))
    else if req.file.value.size > MaxFileSize then Some(Response(400, ErrorBody(TooLarge)))
    else if req.file.value.mimeType !in SupportedTypes then Some(Response(400, ErrorBody(UnsupportedType)))
    else if Language(req.language) !in SupportedLanguages then Some(Response(400, ErrorBody(UnsupportedLanguage)))
    else None
  }

  /** Each refusal message is given exactly when its own check fails and
      every check before it passes. */
  lemma GuardMessages(req: Request)
    ensures Guard(req) == Some(Response(401, ErrorBody(Unauthorized))) <==>
      req.userId.None? || req.userId.value == ""
    ensures Guard(req) == Some(Response(400, ErrorBody(NoFile))) <==>
      req.userId.Some? && req.userId.value != "" && req.file.None?
    ensures Guard(req) == Some(Response(400, ErrorBody(TooLarge))) <==>
      req.userId.Some? && req.userId.value != "" && req.file.Some? && req.file.value.size > MaxFileSize
    ensures Guard(req) == Some(Response(400, ErrorBody(UnsupportedType))) <==>
      req.userId.Some? && req.userId.value != "" && req.file.Some? && req.file.value.size <= MaxFileSize &&
      req.file.value.mimeType !in SupportedTypes
    ensures Guard(req) == Some(Response(400, ErrorBody(UnsupportedLanguage))) <==>
      req.userId.Some? && req.userId.value != "" && req.file.Some? && req.file.value.size <= MaxFileSize &&
      req.file.value.mimeType in SupportedTypes && Language(req.language) !in SupportedLanguages
  {
    assert Unauthorized != NoFile && Unauthorized != TooLarge && Unauthorized != UnsupportedType;
    assert NoFile != TooLarge && NoFile != UnsupportedType && NoFile != UnsupportedLanguage;
    assert TooLarge != UnsupportedType && TooLarge != UnsupportedLanguage;
    assert UnsupportedType != UnsupportedLanguage;
  }

  /** The size limit is inclusive: a file of exactly 2 GB passes the size
      check and one byte more does not; a request without a language is
      taken as English, which is supported. */
  lemma SizeLimitInclusive(userId: string, name: string, mimeType: string, contents: string)
    requires userId != "" && mimeType in SupportedTypes
    ensures Guard(Request(Some(userId), Some(Upload(name, MaxFileSize, mimeType, contents)), None)).None?
    ensures Guard(Request(Some(userId), Some(Upload(name, MaxFileSize + 1, mimeType, contents)), None)) ==
      Some(Response(400, ErrorBody(TooLarge)))
  {
    assert Language(None) == SupportedLanguages[0];
  }

  /** `POST` (lines 21-104). A refused request changes nothing. An
      admitted one saves the file under `fileId` (the UUID `saveFile`
      draws), creates the record `newJobId` (the id the database draws,
      with `newUserRowId` for a user row it has to create) and queues it.
      `write` is the outcome of writing the file and `fetch` that of the
      lookup `addConversionJob` makes. Whatever throws on the way is
      answered with 500 and leaves what was done before it: no file, the
      file without a record, or the `pending` record without a task.
      Otherwise the answer is 200 with the job id, `pending` and the
      polling URL. Queuing the new record never breaks the exclusivity of
      the running tasks. */
  method Post(store: Store, disk: Disk, queue: ConversionQueue, req: Request, cwd: string,
              fileId: string, newJobId: string, newUserRowId: string, now: int, write: Outcome, fetch: Outcome)
    returns (resp: Response)
    requires store.Valid()
    requires req.userId.Some? && req.userId.value !in store.users ==>
      forall c :: c in store.users ==> store.users[c].id != newUserRowId
    modifies store, disk`files, queue`waiting
    ensures store.Valid()
    ensures !Admissible(req) || write.Fail? ==>
      resp == (if Admissible(req) then Response(500, ErrorBody(UploadFailed)) else Guard(req).value) &&
      store.jobs == old(store.jobs) && store.users == old(store.users) &&
      disk.files == old(disk.files) && queue.waiting == old(queue.waiting)
    ensures Admissible(req) && write.Pass? ==>
      var userId := req.userId.value;
      var file := req.file.value;
      disk.files == old(disk.files)[UploadPath(cwd, userId, fileId, ExtName(file.name)) := file.contents] &&
      store.users == if userId in old(store.users) then old(store.users)
                     else old(store.users)[userId := NewUser(newUserRowId, userId)]
    ensures Admissible(req) && write.Pass? && newJobId in old(store.jobs) ==>
      resp == Response(500, ErrorBody(UploadFailed)) &&
      store.jobs == old(store.jobs) && queue.waiting == old(queue.waiting)
    ensures Admissible(req) && write.Pass? && newJobId !in old(store.jobs) ==>
      var file := req.file.value;
      var url := UploadUrl(req.userId.value, fileId, ExtName(file.name));
      req.userId.value in store.users &&
      store.jobs == old(store.jobs)[newJobId := NewJob(newJobId, store.users[req.userId.value].id, file.name, file.size,
                                                       file.mimeType, url, Some(Language(req.language)), now)]
    ensures Admissible(req) && write.Pass? && newJobId !in old(store.jobs) && fetch.Fail? ==>
      resp == Response(500, ErrorBody(UploadFailed)) && queue.waiting == old(queue.waiting)
    ensures Admissible(req) && write.Pass? && newJobId !in old(store.jobs) && fetch.Pass? ==>
      resp == Response(200, Accepted(newJobId, "pending", PollingUrl(newJobId))) &&
      queue.waiting == old(queue.waiting) + (if newJobId in queue.active then [] else [newJobId])
    ensures old(Exclusive(queue.running, store.jobs)) ==> Exclusive(queue.running, store.jobs)
  {
    var refusal := Guard(req);
    if refusal.Some? {
      return refusal.value;
    }
    var userId := req.userId.value;
    var file := req.file.value;
    var language := Language(req.language);
    var saved := SaveFile(disk, file.contents, file.name, userId, fileId, cwd, write);
    if saved.Failure? {
      return Response(500, ErrorBody(UploadFailed));
    }
    ghost var jobs0 := store.jobs;
    var job := store.Create(userId, file.name, file.size, file.mimeType, saved.value, Some(language),
                            newJobId, newUserRowId, now);
    if job.Failure? {
      return Response(500, ErrorBody(UploadFailed));
    }
    CreateKeepsExclusive(queue.running, jobs0, newJobId, job.value);
    var queued := queue.Add(store, job.value.id, fetch);
    if queued.Fail? {
      return Response(500, ErrorBody(UploadFailed));
    }
    resp := Response(200, Accepted(job.value.id, "pending", PollingUrl(job.value.id)));
  }

  /** A new record does not disturb the running tasks: their records
      are still there and still `processing`. */
  lemma CreateKeepsExclusive(running: seq<Task>, jobs: map<string, Job>, id: string, job: Job)
    requires id !in jobs
    ensures Exclusive(running, jobs) ==> Exclusive(running, jobs[id := job])
  {
    if Exclusive(running, jobs) {
      forall i | 0 <= i < |running|
        ensures running[i].jobId in jobs[id := job] && jobs[id := job][running[i].jobId].status == Processing
      {
        assert running[i].jobId in jobs;
      }
    }
  }
}
