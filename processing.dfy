/** `processMedia` of lib/processing.ts: one job's upload is turned into
    audio, transcribed and published as subtitles, with the job record
    advanced at each stage and the scratch files removed at the end.
    ffmpeg, the two transcription services and the bucket's put request
    are oracles whose replies are given in a `Services` value. */
module Processing {
  import opened Wrappers
  import opened Text
  import opened Srt
  import opened OpenaiSrt
  import opened DeepgramSrt
  import opened JobStore
  import opened Storage

  // ---------------------------------------------------------------------
  // Oracles

  /** How the ffmpeg run ends: its `end` event or its `error` event, in
      both cases after perhaps writing the output file. */
  datatype Extraction = Ends(output: Option<string>) | Errs(output: Option<string>, message: string)

  /** The replies of the foreign services for one run: ffmpeg, the
      Deepgram client (its result or the message of its `error`), the
      OpenAI client (the verbose transcript or the message it throws) and
      the bucket's put request. */
  datatype Services = Services(
    extraction: Extraction,
    deepgram: Result<DeepgramSrt.Response>,
    openai: Result<Transcript>,
    upload: Outcome)

  const InputNotFound := "Input file not found at path: "
  const OutputNotCreated := "FFmpeg completed but output file was not created"
  const FfmpegError := "FFmpeg error: "
  const AudioEmpty := "Audio file was created but is empty"
  const TranscriptionFailed := "Transcription failed: "
  const DeepgramError := "Deepgram transcription error: "

  // ---------------------------------------------------------------------
  // Transcription

  datatype Provider = Deepgram | OpenAI

  /** What `transcribeWithDeepgram` (lines 31-55) returns or throws. */
  function DeepgramResult(reply: Result<DeepgramSrt.Response>): Result<string> {
    match reply
    case Failure(m) => Failure(DeepgramError + m)
    case Success(json) => DeepgramDocument(json)
  }

  /** What `transcribeWithOpenAI` (lines 66-96) returns or throws. */
  function OpenaiResult(reply: Result<Transcript>): Result<string> {
    match reply
    case Failure(m) => Failure(m)
    case Success(json) => OpenaiDocument(json)
  }

  /** The services contacted, in order, and the subtitles or the error. */
  datatype Attempt = Attempt(calls: seq<Provider>, result: Result<string>)

  /** The transcription step (lines 239-258): English goes to OpenAI only;
      any other language tries Deepgram and falls back to OpenAI; a
      failure is rethrown with a prefix. */
  function Transcribe(language: string, svc: Services): Attempt {
    if language == "en" then Attempt([OpenAI], Prefixed(OpenaiResult(svc.openai)))
    else match DeepgramResult(svc.deepgram)
      case Success(srt) => Attempt([Deepgram], Success(srt))
      case Failure(_) => Attempt([Deepgram, OpenAI], Prefixed(OpenaiResult(svc.openai)))
  }

  function Prefixed(r: Result<string>): Result<string> {
    match r
    case Success(srt) => Success(srt)
    case Failure(m) => Failure(TranscriptionFailed + m)
  }

  /** English audio never reaches Deepgram, whatever Deepgram would
      have answered. */
  lemma EnglishUsesOpenaiOnly(svc: Services, other: Result<DeepgramSrt.Response>)
    ensures Transcribe("en", svc).calls == [OpenAI]
    ensures Transcribe("en", svc) == Transcribe("en", svc.(deepgram := other))
  {
  }

  /** Any other language tries Deepgram first, and calls OpenAI exactly
      when Deepgram fails; a transcript Deepgram returns succeeds exactly
      when it has every property the conversion reads. */
  lemma OtherLanguagesTryDeepgramFirst(language: string, svc: Services)
    requires language != "en"
    ensures Transcribe(language, svc).calls[0] == Deepgram
    ensures OpenAI in Transcribe(language, svc).calls <==> DeepgramResult(svc.deepgram).Failure?
    ensures svc.deepgram.Success? ==>
      (Transcribe(language, svc).calls == [Deepgram] <==> Complete(svc.deepgram.value))
  {
    if svc.deepgram.Success? {
      DeepgramSucceedsIff(svc.deepgram.value);
    }
  }

  /** A failed transcription reports the failure of OpenAI, the last
      service called, under one prefix: the error the client threw, or
      the `TypeError` of a reply the conversion cannot read. */
  lemma TranscriptionFailureIsLast(language: string, svc: Services)
    requires Transcribe(language, svc).result.Failure?
    ensures Transcribe(language, svc).calls[|Transcribe(language, svc).calls| - 1] == OpenAI
    ensures svc.openai.Success? ==> !Readable(svc.openai.value)
    ensures Transcribe(language, svc).result.error == TranscriptionFailed +
      (if svc.openai.Failure? then svc.openai.error
       else if svc.openai.value.segments.None? then NotIterable
       else ReadError("trim"))
  {
    if svc.openai.Success? {
      OpenaiSucceedsIff(svc.openai.value);
    }
  }

  /** The subtitles of a successful transcription read back as cues. */
  lemma TranscriptParses(language: string, svc: Services)
    requires Transcribe(language, svc).result.Success?
    ensures ParseSrt(Transcribe(language, svc).result.value).Some?
  {
    if language != "en" && DeepgramResult(svc.deepgram).Success? {
      DeepgramResultParses(svc.deepgram);
    } else {
      OpenaiResultParses(svc.openai);
    }
  }

  lemma DeepgramResultParses(reply: Result<DeepgramSrt.Response>)
    requires DeepgramResult(reply).Success?
    ensures ParseSrt(DeepgramResult(reply).value).Some?
  {
    DeepgramSucceedsIff(reply.value);
    DeepgramRoundTrip(reply.value);
  }

  lemma OpenaiResultParses(reply: Result<Transcript>)
    requires OpenaiResult(reply).Success?
    ensures ParseSrt(OpenaiResult(reply).value).Some?
  {
    OpenaiSucceedsIff(reply.value);
    OpenaiRoundTrip(reply.value);
  }

  /** `transcribeWithDeepgram`, through the loop of `jsonToSrt`. */
  method TranscribeWithDeepgram(reply: Result<DeepgramSrt.Response>) returns (r: Result<string>)
    ensures r == DeepgramResult(reply)
  {
    if reply.Failure? {
      return Failure(DeepgramError + reply.error);
    }
    r := JsonToSrt(reply.value);
  }

  /** `transcribeWithOpenAI`, through the loop of `jsonToSrtOpenai`. */
  method TranscribeWithOpenai(reply: Result<Transcript>) returns (r: Result<string>)
    ensures r == OpenaiResult(reply)
  {
    if reply.Failure? {
      return Failure(reply.error);
    }
    r := JsonToSrtOpenai(reply.value);
  }

  // ---------------------------------------------------------------------
  // Job writes

  /** A write of the run: the status if it changes, the progress, the
      download URL if there is one, stamped with the clock. */
  function Stamp(status: Option<Status>, progress: int, url: Option<string>, now: int): Patch {
    Patch(status, Some(progress), None, if url.Some? then Some(url) else None, Some(now))
  }

  /** The writes of a run that completes (lines 116-125, 137-145, 228-236,
      261-269, 282-292). */
  function Planned(url: string, now: int): seq<Patch> {
    [Stamp(Some(Processing), 10, None, now),
     Stamp(None, 30, None, now),
     Stamp(None, 50, None, now),
     Stamp(None, 90, None, now),
     Stamp(Some(Completed), 100, Some(url), now)]
  }

  /** The record after the given writes, in order. */
  function ApplyAll(job: Job, writes: seq<Patch>, now: int): (r: Job)
    ensures r.(status := job.status, progress := job.progress, error := job.error,
               downloadUrl := job.downloadUrl, updatedAt := job.updatedAt) == job
    decreases |writes|
  {
    if writes == [] then job else ApplyAll(Apply(job, writes[0], now), writes[1..], now)
  }

  /** The planned progress values strictly increase; the status becomes
      `processing` with the first write and `completed` only with the
      last, which alone carries the download URL; none writes `failed`. */
  lemma PlannedOrder(url: string, now: int)
    ensures forall i, k :: 0 <= i < k < 5 ==> Planned(url, now)[i].progress.value < Planned(url, now)[k].progress.value
    ensures Planned(url, now)[0].status == Some(Processing)
    ensures forall i :: 0 <= i < 4 ==> Planned(url, now)[i].status != Some(Completed)
    ensures forall i :: 0 <= i < 4 ==> Planned(url, now)[i].downloadUrl == None
    ensures forall i :: 0 <= i < 5 ==> Planned(url, now)[i].status != Some(Failed)
  {
  }

  /** The record after the first `k` planned writes, field by field: the
      status is `processing` until the last write makes it `completed`, the
      progress is that of the last write, the download URL comes with the
      last write only, and every other field keeps its value. */
  function Progressed(job: Job, k: nat, url: string, now: int): Job
    requires k <= 5
  {
    if k == 0 then job
    else job.(status := if k == 5 then Completed else Processing,
              progress := [10, 30, 50, 90, 100][k - 1],
              downloadUrl := if k == 5 then Some(url) else job.downloadUrl,
              updatedAt := now)
  }

  /** The field-by-field description agrees with applying the planned
      writes one after the other. */
  lemma {:induction false} ProgressedIsPlanned(job: Job, url: string, now: int, k: nat)
    requires k <= 5
    ensures ApplyAll(job, Planned(url, now)[..k], now) == Progressed(job, k, url, now)
  {
    if k > 0 {
      ProgressedIsPlanned(job, url, now, k - 1);
      var p := Planned(url, now);
      assert p[..k] == p[..k - 1] + [p[k - 1]];
      ApplyAllSnoc(job, p[..k - 1], p[k - 1], now);
    }
  }

  lemma ApplyAllSnoc(job: Job, writes: seq<Patch>, p: Patch, now: int)
    ensures ApplyAll(job, writes + [p], now) == Apply(ApplyAll(job, writes, now), p, now)
    decreases |writes|
  {
    if writes != [] {
      assert (writes + [p])[1..] == writes[1..] + [p];
      ApplyAllSnoc(Apply(job, writes[0], now), writes[1..], p, now);
    }
  }

  // ---------------------------------------------------------------------
  // Paths

  function TempDir(cwd: string): string {
    PathJoin(UploadsDir(cwd), "temp")
  }

  function AudioPath(cwd: string, jobId: string): string {
    PathJoin(TempDir(cwd), jobId + ".wav")
  }

  function SrtPath(cwd: string, jobId: string): string {
    PathJoin(TempDir(cwd), jobId + ".srt")
  }

  /** The audio the run goes on with after the ffmpeg run and the checks of
      lines 185-219, given the audio file's contents before the run. */
  function ExtractedAudio(before: Option<string>, e: Extraction): Result<string> {
    match e
    case Errs(_, m) => Failure(FfmpegError + m)
    case Ends(output) =>
      var audio := if output.Some? then output else before;
      if audio.None? then Failure(OutputNotCreated)
      else if audio.value == "" then Failure(AudioEmpty)
      else Success(audio.value)
  }

  function Lookup(files: map<string, string>, path: string): Option<string> {
    if path in files then Some(files[path]) else None
  }

  /** The set of the listed paths. */
  function Listed(paths: seq<string>): set<string> {
    if paths == [] then {} else Listed(paths[..|paths| - 1]) + {paths[|paths| - 1]}
  }

  /** The scratch files of a run that has made `n` writes: the audio file,
      and the subtitles once the fourth write is made. */
  function Scratch(cwd: string, jobId: string, n: nat): set<string> {
    {AudioPath(cwd, jobId)} + (if n >= 4 then {SrtPath(cwd, jobId)} else {})
  }

  // ---------------------------------------------------------------------
  // The run

  /** How far a run gets: the number of writes it makes and its outcome. */
  datatype End = End(writes: nat, outcome: Outcome)

  /** The end of a run that has made its third write, given the
      transcription and the bucket's reply. */
  function Delivered(transcript: Result<string>, upload: Outcome): (e: End)
    ensures 3 <= e.writes <= 5 && (e.outcome.Pass? <==> e.writes == 5)
    ensures e.writes >= 4 <==> transcript.Success?
  {
    if transcript.Failure? then End(3, Fail(transcript.error))
    else if upload.Fail? then End(4, Fail(upload.error))
    else End(5, Pass)
  }

  /** The end of a run that has made its second write, given the extracted
      audio, the transcription and the bucket's reply. */
  function Later(audio: Result<string>, transcript: Result<string>, upload: Outcome): (e: End)
    ensures 2 <= e.writes <= 5 && (e.outcome.Pass? <==> e.writes == 5)
    ensures e.writes >= 3 <==> audio.Success?
    ensures e.writes >= 4 <==> audio.Success? && transcript.Success?
  {
    if audio.Failure? then End(2, Fail(audio.error))
    else Delivered(transcript, upload)
  }

  /** The end of a run given whether the record exists, whether the input
      file exists, the extracted audio, the transcription and the bucket's
      reply: the first of them that fails stops the run. */
  function RunEnd(present: bool, inputPath: string, inputExists: bool, audio: Result<string>,
                  transcript: Result<string>, upload: Outcome): (e: End)
    ensures e.writes <= 5 && (e.outcome.Pass? <==> e.writes == 5)
    ensures e.writes >= 1 <==> present
    ensures e.writes >= 2 <==> present && inputExists
    ensures e.writes >= 3 <==> present && inputExists && audio.Success?
    ensures e.writes >= 4 <==> present && inputExists && audio.Success? && transcript.Success?
    ensures e.writes == 0 ==> e.outcome == Fail(RecordNotFound)
    ensures e.writes == 1 ==> e.outcome == Fail(InputNotFound + inputPath)
  {
    if !present then End(0, Fail(RecordNotFound))
    else if !inputExists then End(1, Fail(InputNotFound + inputPath))
    else Later(audio, transcript, upload)
  }

  /** The end of a run of `processMedia` on the given store and disk. */
  function EndOf(jobs: map<string, Job>, files: map<string, string>, cwd: string, jobId: string,
                 fileUrl: string, transcript: Result<string>, svc: Services): End
  {
    RunEnd(jobId in jobs, InputPath(cwd, fileUrl), InputPath(cwd, fileUrl) in files,
           ExtractedAudio(Lookup(files, AudioPath(cwd, jobId)), svc.extraction), transcript, svc.upload)
  }

  /** The store holds `jobs0` with the first `k` planned writes applied to
      the record of `jobId`. */
  ghost predicate Written(jobs: map<string, Job>, jobs0: map<string, Job>, jobId: string, url: string, now: int, k: nat)
    requires jobId in jobs0 && k <= 5
  {
    jobs == jobs0[jobId := Progressed(jobs0[jobId], k, url, now)]
  }

  /** After `k` writes the other records are untouched; the record is
      `completed` with its download URL after all five, and `processing`
      with its old download URL after fewer. */
  lemma WrittenRecord(jobs: map<string, Job>, jobs0: map<string, Job>, jobId: string, url: string, now: int, k: nat)
    requires jobId in jobs0 && k <= 5 && Written(jobs, jobs0, jobId, url, now, k)
    ensures jobs.Keys == jobs0.Keys
    ensures forall id :: id in jobs0 && id != jobId ==> jobs[id] == jobs0[id]
    ensures k == 5 ==> jobs[jobId] == jobs0[jobId].(status := Completed, progress := 100, downloadUrl := Some(url), updatedAt := now)
    ensures 0 < k < 5 ==> jobs[jobId].status == Processing && jobs[jobId].downloadUrl == jobs0[jobId].downloadUrl
  {
  }

  /** The `k`-th planned write, on a record that exists. */
  method WriteNext(store: Store, jobId: string, p: Patch, now: int,
                   ghost jobs0: map<string, Job>, ghost url: string, ghost k: nat)
    requires store.Valid() && jobId in jobs0 && k < 5 && p == Planned(url, now)[k]
    requires Written(store.jobs, jobs0, jobId, url, now, k)
    modifies store`jobs
    ensures store.Valid()
    ensures Written(store.jobs, jobs0, jobId, url, now, k + 1)
  {
    var w := store.UpdateRecord(jobId, p, now);
  }

  /** Lines 116-145: the first write, the input path, its check, and the
      second write. */
  method Prepare(store: Store, disk: Disk, cwd: string, jobId: string, fileUrl: string, now: int,
                 ghost url: string)
    returns (r: Outcome, inputPath: Option<string>, ghost n: nat)
    requires store.Valid()
    modifies store`jobs
    ensures store.Valid()
    ensures n == (if jobId !in old(store.jobs) then 0 else if InputPath(cwd, fileUrl) !in disk.files then 1 else 2)
    ensures r == (if n == 0 then Fail(RecordNotFound)
                  else if n == 1 then Fail(InputNotFound + InputPath(cwd, fileUrl)) else Pass)
    ensures inputPath == if n >= 1 then Some(InputPath(cwd, fileUrl)) else None
    ensures jobId !in old(store.jobs) ==> store.jobs == old(store.jobs)
    ensures jobId in old(store.jobs) ==> Written(store.jobs, old(store.jobs), jobId, url, now, n)
  {
    ghost var jobs0 := store.jobs;
    var w := store.UpdateRecord(jobId, Stamp(Some(Processing), 10, None, now), now);
    if w.Failure? {
      return Fail(w.error), None, 0;
    }
    var localFilePath := ReplaceLeading(fileUrl, FilesRoute, "");
    inputPath := Some(PathJoin(PathJoin(cwd, "uploads"), localFilePath));
    if inputPath.value !in disk.files {
      return Fail(InputNotFound + inputPath.value), inputPath, 1;
    }
    WriteNext(store, jobId, Stamp(None, 30, None, now), now, jobs0, url, 1);
    r, n := Pass, 2;
  }

  /** Line 278: the upload of the subtitles under the job's key. */
  method Upload(store: Store, bucket: Bucket, srt: string, jobId: string, userId: string, publicUrl: string,
                upload: Outcome, ghost key: string)
    returns (r: Result<string>)
    requires store.Valid() && jobId in store.jobs && key == SrtKey(jobId, store.jobs[jobId].fileName)
    modifies bucket`objects
    ensures r == (if upload.Pass? then Success(SrtUrl(publicUrl, key)) else Failure(upload.error))
    ensures bucket.objects == if upload.Pass? then old(bucket.objects)[key := srt] else old(bucket.objects)
  {
    r := SaveSrt(store, bucket, srt, jobId, userId, publicUrl, upload);
  }

  /** Lines 261-292: the fourth write, the scratch copy of the subtitles,
      the upload and the last write. */
  method Publish(store: Store, disk: Disk, bucket: Bucket, srtPath: string, publicUrl: string,
                 jobId: string, userId: string, srt: string, upload: Outcome, now: int,
                 ghost jobs0: map<string, Job>, ghost key: string, ghost url: string)
    returns (r: Outcome, ghost n: nat)
    requires store.Valid() && jobId in jobs0 && key == SrtKey(jobId, jobs0[jobId].fileName) && url == SrtUrl(publicUrl, key)
    requires Written(store.jobs, jobs0, jobId, url, now, 3)
    modifies store`jobs, disk`files, bucket`objects
    ensures store.Valid()
    ensures disk.files == old(disk.files)[srtPath := srt]
    ensures n == (if upload.Pass? then 5 else 4) && r == (if upload.Pass? then Pass else Fail(upload.error))
    ensures Written(store.jobs, jobs0, jobId, url, now, n)
    ensures bucket.objects == if upload.Pass? then old(bucket.objects)[key := srt] else old(bucket.objects)
  {
    WriteNext(store, jobId, Stamp(None, 90, None, now), now, jobs0, url, 3);
    disk.files := disk.files[srtPath := srt];
    var srtUrl := Upload(store, bucket, srt, jobId, userId, publicUrl, upload, key);
    if srtUrl.Failure? {
      return Fail(srtUrl.error), 4;
    }
    WriteNext(store, jobId, Stamp(Some(Completed), 100, Some(srtUrl.value), now), now, jobs0, url, 4);
    r, n := Pass, 5;
  }

  /** Lines 147-292: the extraction, the third write, the transcription and
      the publication, on a record that has had its first two writes. It
      returns the scratch path of the subtitles once written. */
  method Convert(store: Store, disk: Disk, bucket: Bucket, cwd: string, publicUrl: string,
                 jobId: string, userId: string, language: string, svc: Services, now: int,
                 ghost jobs0: map<string, Job>, ghost key: string, ghost url: string)
    returns (r: Outcome, srtPath: Option<string>, ghost n: nat)
    requires store.Valid() && jobId in jobs0 && key == SrtKey(jobId, jobs0[jobId].fileName) && url == SrtUrl(publicUrl, key)
    requires Written(store.jobs, jobs0, jobId, url, now, 2)
    modifies store`jobs, disk`files, bucket`objects
    ensures store.Valid()
    ensures End(n, r) == Later(ExtractedAudio(old(Lookup(disk.files, AudioPath(cwd, jobId))), svc.extraction),
                               Transcribe(language, svc).result, svc.upload)
    ensures Written(store.jobs, jobs0, jobId, url, now, n)
    ensures srtPath == if n >= 4 then Some(SrtPath(cwd, jobId)) else None
    ensures disk.files - Scratch(cwd, jobId, n) == old(disk.files) - Scratch(cwd, jobId, n)
    ensures n == 5 ==>
      Transcribe(language, svc).result.Success? &&
      bucket.objects == old(bucket.objects)[key := Transcribe(language, svc).result.value]
    ensures n < 5 ==> bucket.objects == old(bucket.objects)
  {
    var audioPath := PathJoin(PathJoin(UploadsDir(cwd), "temp"), jobId + ".wav");
    var audio := Extract(disk, audioPath, svc.extraction);
    if audio.Failure? {
      assert Scratch(cwd, jobId, 2) == {audioPath};
      return Fail(audio.error), None, 2;
    }
    ghost var extracted := disk.files;
    r, srtPath, n := Deliver(store, disk, bucket, cwd, publicUrl, jobId, userId, language, svc, now, jobs0, key, url);
    if srtPath.Some? {
      WriteBesides(old(disk.files), extracted, disk.files, audioPath, srtPath.value);
      assert Scratch(cwd, jobId, n) == {audioPath, srtPath.value};
    } else {
      assert Scratch(cwd, jobId, n) == {audioPath};
    }
  }

  /** Lines 221-292: the third write, the transcription and the
      publication, once the audio is extracted. */
  method Deliver(store: Store, disk: Disk, bucket: Bucket, cwd: string, publicUrl: string,
                 jobId: string, userId: string, language: string, svc: Services, now: int,
                 ghost jobs0: map<string, Job>, ghost key: string, ghost url: string)
    returns (r: Outcome, srtPath: Option<string>, ghost n: nat)
    requires store.Valid() && jobId in jobs0 && key == SrtKey(jobId, jobs0[jobId].fileName) && url == SrtUrl(publicUrl, key)
    requires Written(store.jobs, jobs0, jobId, url, now, 2)
    modifies store`jobs, disk`files, bucket`objects
    ensures store.Valid()
    ensures End(n, r) == Delivered(Transcribe(language, svc).result, svc.upload)
    ensures Written(store.jobs, jobs0, jobId, url, now, n)
    ensures srtPath == if n >= 4 then Some(SrtPath(cwd, jobId)) else None
    ensures n >= 4 ==>
      Transcribe(language, svc).result.Success? &&
      disk.files == old(disk.files)[SrtPath(cwd, jobId) := Transcribe(language, svc).result.value]
    ensures n < 4 ==> disk.files == old(disk.files)
    ensures n == 5 ==> bucket.objects == old(bucket.objects)[key := Transcribe(language, svc).result.value]
    ensures n < 5 ==> bucket.objects == old(bucket.objects)
  {
    WriteNext(store, jobId, Stamp(None, 50, None, now), now, jobs0, url, 2);
    var srtContent := TranscribeAudio(language, svc);
    if srtContent.Failure? {
      return Fail(srtContent.error), None, 3;
    }
    var srt := PathJoin(PathJoin(UploadsDir(cwd), "temp"), jobId + ".srt");
    srtPath := Some(srt);
    r, n := Publish(store, disk, bucket, srt, publicUrl, jobId, userId, srtContent.value, svc.upload, now, jobs0, key, url);
  }

  /** Files outside `{a, s}` survive a change confined to `a` followed by a
      write to `s`. */
  lemma WriteBesides(f0: map<string, string>, f1: map<string, string>, f2: map<string, string>,
                     a: string, s: string)
    requires f1 - {a} == f0 - {a} && s in f2 && f2 == f1[s := f2[s]]
    ensures f2 - {a, s} == f0 - {a, s}
  {
    forall p | p in f2 - {a, s}
      ensures p in f0 - {a, s} && (f2 - {a, s})[p] == (f0 - {a, s})[p]
    {
      assert p in f1 - {a};
    }
    forall p | p in f0 - {a, s}
      ensures p in f2 - {a, s}
    {
      assert p in f0 - {a};
    }
  }

  /** The `try` block of `processMedia` (lines 108-294). It returns the
      scratch files listed for removal, the input path once resolved, and,
      as ghosts, the number of writes made and the download URL planned.
      Once the first write has found the record, the later writes find it
      too. */
  method Run(store: Store, disk: Disk, bucket: Bucket, cwd: string, publicUrl: string,
             jobId: string, fileUrl: string, userId: string, language: string, svc: Services, now: int)
    returns (r: Outcome, cleanupFiles: seq<string>, inputPath: Option<string>, ghost n: nat, ghost url: string)
    requires store.Valid()
    modifies store`jobs, disk`files, bucket`objects
    ensures store.Valid()
    ensures var e := EndOf(old(store.jobs), old(disk.files), cwd, jobId, fileUrl, Transcribe(language, svc).result, svc);
      r == e.outcome && n == e.writes
    ensures jobId !in old(store.jobs) ==> store.jobs == old(store.jobs)
    ensures jobId in old(store.jobs) ==>
      url == SrtUrl(publicUrl, SrtKey(jobId, old(store.jobs)[jobId].fileName)) &&
      Written(store.jobs, old(store.jobs), jobId, url, now, n)
    ensures Listed(cleanupFiles) == Scratch(cwd, jobId, n)
    ensures inputPath == if n >= 1 then Some(InputPath(cwd, fileUrl)) else None
    ensures disk.files - Scratch(cwd, jobId, n) == old(disk.files) - Scratch(cwd, jobId, n)
    ensures n == 5 ==>
      Transcribe(language, svc).result.Success? &&
      bucket.objects == old(bucket.objects)[SrtKey(jobId, old(store.jobs)[jobId].fileName) := Transcribe(language, svc).result.value]
    ensures n < 5 ==> bucket.objects == old(bucket.objects)
  {
    ghost var jobs0 := store.jobs;
    var audioPath := PathJoin(PathJoin(UploadsDir(cwd), "temp"), jobId + ".wav");
    cleanupFiles := [audioPath];
    ghost var key := if jobId in store.jobs then SrtKey(jobId, store.jobs[jobId].fileName) else "";
    url := SrtUrl(publicUrl, key);
    r, inputPath, n := Prepare(store, disk, cwd, jobId, fileUrl, now, url);
    if r.Fail? {
      assert Listed(cleanupFiles) == Listed([]) + {audioPath};
      return;
    }
    var srtPath;
    r, srtPath, n := Convert(store, disk, bucket, cwd, publicUrl, jobId, userId, language, svc, now, jobs0, key, url);
    if srtPath.Some? {
      cleanupFiles := cleanupFiles + [srtPath.value];
      assert Listed(cleanupFiles) == Listed([audioPath]) + {srtPath.value};
    }
    assert Listed([audioPath]) == Listed([]) + {audioPath};
  }

  /** The ffmpeg run and the checks after it (lines 155-219): the file the
      run may write is the audio file, and the run goes on only with a
      non-empty audio file. */
  method Extract(disk: Disk, audioPath: string, e: Extraction) returns (audio: Result<string>)
    modifies disk`files
    ensures audio == ExtractedAudio(old(Lookup(disk.files, audioPath)), e)
    ensures disk.files - {audioPath} == old(disk.files) - {audioPath}
  {
    ghost var before := Lookup(disk.files, audioPath);
    if e.output.Some? {
      disk.files := disk.files[audioPath := e.output.value];
    }
    if e.Errs? {
      return Failure(FfmpegError + e.message);
    }
    if audioPath !in disk.files {
      return Failure(OutputNotCreated);
    }
    if disk.files[audioPath] == "" {
      return Failure(AudioEmpty);
    }
    audio := Success(disk.files[audioPath]);
  }

  /** The transcription step (lines 239-258). */
  method TranscribeAudio(language: string, svc: Services) returns (r: Result<string>)
    ensures r == Transcribe(language, svc).result
  {
    var srt: Result<string>;
    if language == "en" {
      srt := TranscribeWithOpenai(svc.openai);
    } else {
      srt := TranscribeWithDeepgram(svc.deepgram);
      if srt.Failure? {
        srt := TranscribeWithOpenai(svc.openai);
      }
    }
    if srt.Failure? {
      return Failure(TranscriptionFailed + srt.error);
    }
    r := srt;
  }

  /** `processMedia` (lines 101-333): the run, then the `finally` block
      that removes the listed scratch files and the input file, if they
      exist, and rethrows the run's error. The run never writes `failed`:
      a record it stops on stays `processing`. `useOpenAI` has no effect. */
  method ProcessMedia(store: Store, disk: Disk, bucket: Bucket, cwd: string, publicUrl: string,
                      jobId: string, fileUrl: string, userId: string, language: string, useOpenAI: bool,
                      svc: Services, now: int)
    returns (r: Outcome, ghost n: nat)
    requires store.Valid()
    modifies store`jobs, disk`files, bucket`objects
    ensures store.Valid()
    ensures var e := EndOf(old(store.jobs), old(disk.files), cwd, jobId, fileUrl, Transcribe(language, svc).result, svc);
      r == e.outcome && n == e.writes
    ensures jobId !in old(store.jobs) ==> store.jobs == old(store.jobs)
    ensures jobId in old(store.jobs) ==>
      Written(store.jobs, old(store.jobs), jobId, SrtUrl(publicUrl, SrtKey(jobId, old(store.jobs)[jobId].fileName)), now, n)
    ensures r.Pass? ==>
      Transcribe(language, svc).result.Success? &&
      bucket.objects == old(bucket.objects)[SrtKey(jobId, old(store.jobs)[jobId].fileName) := Transcribe(language, svc).result.value]
    ensures r.Fail? ==> bucket.objects == old(bucket.objects)
    ensures disk.files == old(disk.files) - (Scratch(cwd, jobId, n) + (if n >= 1 then {InputPath(cwd, fileUrl)} else {}))
  {
    var cleanupFiles, inputPath;
    ghost var url;
    r, cleanupFiles, inputPath, n, url := Run(store, disk, bucket, cwd, publicUrl, jobId, fileUrl, userId, language, svc, now);
    assert r.Pass? <==> n == 5;
    ghost var input: set<string> := if n >= 1 then {InputPath(cwd, fileUrl)} else {};
    CleanUp(disk, cleanupFiles, inputPath, old(disk.files), Scratch(cwd, jobId, n), input);
  }

  /** The `finally` block (lines 298-332): the listed files, then the
      input file, are removed where they exist. The run before it changed
      at most the listed files, so the disk ends as it was before the run
      without the listed files and the input file. */
  method CleanUp(disk: Disk, cleanupFiles: seq<string>, inputPath: Option<string>,
                 ghost before: map<string, string>, ghost scratch: set<string>, ghost input: set<string>)
    requires Listed(cleanupFiles) == scratch
    requires input == if inputPath.Some? then {inputPath.value} else {}
    requires disk.files - scratch == before - scratch
    modifies disk`files
    ensures disk.files == before - (scratch + input)
  {
    ghost var ran := disk.files;
    RemoveFiles(disk, cleanupFiles);
    if inputPath.Some? && inputPath.value in disk.files {
      disk.files := disk.files - {inputPath.value};
    }
    assert disk.files == ran - scratch - input;
    Cleaned(before, ran, scratch, input);
  }

  /** Removing the files a run may have changed, and then some more,
      leaves what was there before the run without all of them. */
  lemma Cleaned(f0: map<string, string>, f1: map<string, string>, s: set<string>, x: set<string>)
    requires f1 - s == f0 - s
    ensures f1 - s - x == f0 - (s + x)
  {
  }

  /** The loop of lines 301-312: each listed file that exists is removed. */
  method RemoveFiles(disk: Disk, files: seq<string>)
    modifies disk`files
    ensures disk.files == old(disk.files) - Listed(files)
  {
    var i := 0;
    while i < |files|
      invariant 0 <= i <= |files|
      invariant disk.files == old(disk.files) - Listed(files[..i])
    {
      assert files[..i + 1][..i] == files[..i];
      if files[i] in disk.files {
        disk.files := disk.files - {files[i]};
      }
      i := i + 1;
    }
    assert files[..i] == files;
  }
}
