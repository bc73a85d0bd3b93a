# AI-Subtitler job pipeline, in Dafny

This project models the subtitle-job pipeline of AI-Subtitler and proves
properties of the model. AI-Subtitler is a Next.js service: a user uploads
a video or audio file, and the service answers with subtitles in the
SubRip (`.srt`) format. The model covers these parts:

- **The upload endpoint** (`POST /api/v1/convert`). It has a chain of checks
  for sign-in, the file, its size, its media type and the language. It then
  saves the file, creates a `pending` job record and queues a task.
- **The job queue.** It runs at most two tasks at a time and keeps a set of
  claimed job ids. It also has the startup scan for pending or retrying
  records, the 30-day cleanup and the shutdown.
- **The per-job run of `processMedia`.** The run reads the upload, extracts
  audio with ffmpeg, transcribes it and uploads the subtitles to the bucket.
  Along the way it writes five progress updates to the record. The run
  always ends by removing its scratch files.
- **The two transcript-to-SRT serialisers:**
  - one for Deepgram's nested channels, alternatives, paragraphs and
    sentences, which carries a rounded-up second into the seconds field;
  - one for OpenAI's flat segments, which carries nothing.
- **The job store.** It is a map of records with the patch semantics of the
  record updates.
- **The storage layer.** It covers upload paths and URLs, the bucket key of a
  job's subtitles, and reading them back.

The modules follow the source files:

| module | file |
|---|---|
| `Timecode`, `Srt`, `DeepgramSrt`, `OpenaiSrt` | the two serialisers, their shared SRT layout, and a timestamp and SRT parser that act as partners |
| `JobStore` | `lib/db.ts` |
| `Storage` | `lib/storage.ts` |
| `Processing` | `lib/processing.ts` |
| `Queue` | `lib/queue.ts` |
| `ConvertRoute` | `app/api/v1/convert/route.ts` |

`Text`, `Sequences` and `Wrappers` hold the JavaScript string operations
and the `Option`/`Result` types. They model the string operations the
source calls: `trim`, `padStart`, `String(n)`, `split`/`join`, and the
`replace` calls with `/\n/g` and `/\n+/g`.

The state the source changes in place is modelled by classes with
`modifies` clauses:

- the database: `JobStore.Store`;
- the disk: `Storage.Disk`;
- the bucket: `Storage.Bucket`;
- the queue with its `activeJobs` set: `Queue.ConversionQueue`.

The loops of the source are methods with loop invariants. Each is proved
against a function on values, and the properties that matter are then
proved about those functions. These properties are:

- **Round trips.** Parsing either serialiser's document gives back exactly
  its cues. Parsing a timestamp gives the time back to within half a
  millisecond.
- **The error paths** of every stage.
- **The exact record, disk and bucket** that a task leaves, for every way
  a task can end.
- **Exclusivity.** No job is processed by two tasks at once.

Services outside the program are given to the model as parameters:

- the replies of Deepgram, OpenAI and ffmpeg, the bucket's put request and
  the clock;
- the fresh UUIDs that the database and `saveFile` draw;
- the authenticated user id.

Behaviour of the code to note:

- The Deepgram formatter carries a rounded-up second into the seconds
  field only. So 3599.9996 s is written `00:59:60,000`, not
  `01:00:00,000`; `Timecode.CarryStopsAtSeconds` states this.
- The OpenAI formatter carries nothing, so 0.9996 s gives a four-digit
  millisecond field.
- A task that starts writes `processing` and progress 0 but does not clear
  an earlier `error`.
- `processMedia` never writes `failed` itself. The `failed` write is made
  by `processJob`'s `catch` block, and a failed record keeps its progress.
- An empty cue sequence is serialised to an empty document and uploaded.
  There is no "serialisation failed" check.
- Provider choice depends on `language === "en"` alone. The `useOpenAI`
  argument is ignored.

## Model

| member | source | states |
|---|---|---|
| Text.TrimStart | lib/json-2-srt-deegram.ts:48 | the result is a suffix of the input that does not start with whitespace, and everything it drops is whitespace |
| Text.TrimEnd | lib/json-2-srt-deegram.ts:78 | the result is a prefix of the input that does not end with whitespace, and everything it drops is whitespace |
| Text.Trim | lib/json-2-srt-openai.ts:41 | `trim()` returns a string that neither starts nor ends with whitespace and is no longer than its input |
| Text.TrimIsSlice | lib/json-2-srt-openai.ts:41 | `trim()` returns the slice of its input that starts where the leading whitespace ends; everything it leaves out before and after the slice is whitespace |
| Text.TrimOfTrimmed | lib/json-2-srt-openai.ts:41 | trimming a trimmed string changes nothing |
| Text.TrimDropsTrailingWhitespace | lib/json-2-srt-deegram.ts:78 | a trimmed text followed by whitespace trims back to the text |
| Text.TrimKeepsAbsent | lib/json-2-srt-openai.ts:33 | trimming adds no character |
| Text.ReplaceNewlinesOfTrimmed | lib/json-2-srt-openai.ts:33 | after the `/\n/g` replacement, a trimmed text stays trimmed and keeps its length, no line feed is left, and every other character stays in place |
| Text.ReplaceNewlinesWithout | lib/json-2-srt-openai.ts:33 | a text without line feeds is unchanged by the replacement |
| Text.CollapseNewlines | lib/json-2-srt-deegram.ts:48 | `replace(/\n+/g, " ")` leaves no line feed and never lengthens the text |
| Text.CollapseWithoutNewlines | lib/json-2-srt-deegram.ts:48 | a text without line feeds is unchanged by the collapsing |
| Text.CollapseRun | lib/json-2-srt-deegram.ts:48 | each maximal run of line feeds becomes exactly one space |
| Text.NatToString | lib/json-2-srt-deegram.ts:18-21 | `String(n)` is a non-empty digit string, without a leading zero for `n` ≥ 10, of one to four digits for `n` below 10000 by its size (its value is pinned by `Text.NatToStringValue`) |
| Text.NatToStringValue | lib/json-2-srt-deegram.ts:18-21 | the digits of `String(n)` read back as `n` |
| Text.PadStart | lib/json-2-srt-openai.ts:21-24 | `padStart` keeps the string as a suffix, fills the front with the fill character and gives the larger of the two lengths |
| Text.PaddedNatValue | lib/json-2-srt-openai.ts:21-24 | a zero-padded number reads back as the number |
| Text.LeadingZerosValue | lib/json-2-srt-openai.ts:21-24 | leading zeros do not change the value of a digit string |
| Text.SplitJoin | lib/json-2-srt-deegram.ts:17-21 | splitting a `join` on a separator that no part contains gives the parts back |
| Text.JoinThree | lib/json-2-srt-deegram.ts:17-21 | `[a, b, d].join(c)` puts one separator between the parts |
| Timecode.RawFieldsOfNonNegative | lib/json-2-srt-openai.ts:14-25 | for a non-negative time: hours are the floor of a 3600th; minutes and seconds are in [0, 59]; milliseconds are in [0, 1000]; the fields add up to the time within half a millisecond |
| Timecode.CarriedFieldsOfNonNegative | lib/json-2-srt-deegram.ts:12-14 | after the carry, milliseconds are in [0, 999] and seconds in [0, 60]. Seconds are 60 exactly when 59 seconds meet a rounded-up second. The time denoted is unchanged |
| Timecode.CarrySecondsRoundTrip | lib/json-2-srt-deegram.ts:5-23 | parsing a timestamp from the Deepgram formatter gives back a non-negative time within half a millisecond |
| Timecode.NoCarryRoundTrip | lib/json-2-srt-openai.ts:14-25 | parsing a timestamp from the OpenAI formatter gives back a non-negative time within half a millisecond, even with a `1000` millisecond field |
| Timecode.RenderParses | lib/json-2-srt-openai.ts:20-24 | rendered non-negative fields parse back to the time they denote |
| Timecode.RenderShape | lib/json-2-srt-deegram.ts:16-22 | every timestamp, for any time, is a non-empty run of digits, minus signs, colons and commas, ending in a digit |
| Timecode.StampHasNoBlank | lib/json-2-srt-deegram.ts:16-22 | a timestamp holds no space or line feed and does not end in whitespace |
| Timecode.CarryStopsAtSeconds | lib/json-2-srt-deegram.ts:12-14 | 59.9996 s gives 60 seconds, and 3599.9996 s gives minute 59 with 60 seconds, not the next hour |
| Timecode.NoCarryGivesThousandMillis | lib/json-2-srt-openai.ts:18 | without a carry, a fraction that rounds up gives a `1000` millisecond field |
| Timecode.NegativeTime | lib/json-2-srt-openai.ts:15-18 | negative times follow JavaScript's floor, truncating `%` and half-up rounding field by field |
| Srt.BlocksSnoc | lib/json-2-srt-openai.ts:35-38 | one more loop iteration appends the block of the next cue with the next index |
| Srt.AppendBlock | lib/json-2-srt-deegram.ts:57-59 | the three template strings of one iteration make one block |
| Srt.DocumentAsLines | lib/json-2-srt-openai.ts:41 | the trimmed document of well-formed cues is its lines joined by line feeds |
| Srt.LinesParse | lib/json-2-srt-deegram.ts:57-59 | the lines of well-formed cues parse back as the same cues with the same numbering |
| Srt.RoundTrip | lib/json-2-srt-openai.ts:27-41 | parsing the document gives back exactly its well-formed cues: their number, order, timestamps and texts |
| Srt.DocumentEmpty | lib/json-2-srt-deegram.ts:78 | the document is empty exactly when there are no cues |
| OpenaiSrt.CleanText | lib/json-2-srt-openai.ts:33 | the cleaned segment text is trimmed and holds no line feed |
| OpenaiSrt.SegmentCues | lib/json-2-srt-openai.ts:30-32 | one cue per segment that has a text, in order |
| OpenaiSrt.JsonToSrtOpenai | lib/json-2-srt-openai.ts:13-42 | the loop returns what `OpenaiDocument` specifies: the trimmed blocks of the segments numbered from 1, or the `TypeError` of a missing segment list or text |
| OpenaiSrt.NextBlock | lib/json-2-srt-openai.ts:35-38 | one iteration extends the content by the next segment's block |
| OpenaiSrt.CleanTextIdempotent | lib/json-2-srt-openai.ts:33 | cleaning the cleaned text changes nothing |
| OpenaiSrt.CleanTextKeepsCharacters | lib/json-2-srt-openai.ts:33 | the cleaned text is the trimmed text with each line feed replaced by a space |
| OpenaiSrt.SegmentCuesWellFormed | lib/json-2-srt-openai.ts:30-39 | every cue written is one the parser reads back unambiguously |
| OpenaiSrt.OpenaiSucceedsIff | lib/json-2-srt-openai.ts:30-33 | the conversion succeeds exactly when the segment list and every text are present; it throws `json.segments is not iterable` exactly when the list is missing, and the read of `trim` exactly when some segment has no text |
| OpenaiSrt.OpenaiRoundTrip | lib/json-2-srt-openai.ts:13-42 | parsing the document of a readable reply gives one cue per segment, in order, with the formatted times and cleaned text |
| OpenaiSrt.CueTimesMatchSegment | lib/json-2-srt-openai.ts:31-32 | the times read back from a cue are within half a millisecond of the segment's non-negative times |
| DeepgramSrt.CleanSentenceText | lib/json-2-srt-deegram.ts:48 | the cleaned sentence text is trimmed and holds no line feed |
| DeepgramSrt.Advance | lib/json-2-srt-deegram.ts:57-60 | the three appends and `index++` add the block of one more cue with the next index |
| DeepgramSrt.AppendSentences | lib/json-2-srt-deegram.ts:45-61 | the sentence loop leaves the content and index of the blocks of its sentences, or the error of the first sentence without text |
| DeepgramSrt.AppendParagraphs | lib/json-2-srt-deegram.ts:41-62 | the paragraph loop leaves the blocks of all their sentences, or the first error |
| DeepgramSrt.AppendAlternatives | lib/json-2-srt-deegram.ts:37-63 | the alternative loop leaves the blocks of all their paragraphs, or the first error |
| DeepgramSrt.AppendChannels | lib/json-2-srt-deegram.ts:33-64 | the channel loop leaves the blocks of all their alternatives, or the first error |
| DeepgramSrt.JsonToSrt | lib/json-2-srt-deegram.ts:3-79 | `jsonToSrt` returns the trimmed blocks of every sentence in loop order, or the wrapped message of the first read that throws |
| DeepgramSrt.CleanSentenceTextIdempotent | lib/json-2-srt-deegram.ts:48 | cleaning the cleaned text changes nothing |
| DeepgramSrt.CleanSentenceTextJoinsLines | lib/json-2-srt-deegram.ts:48 | a run of line feeds inside the text becomes one space |
| DeepgramSrt.DeepgramSucceedsIff | lib/json-2-srt-deegram.ts:29-72 | a document is returned exactly when every property the loops read is present; otherwise the conversion throws |
| DeepgramSrt.DeepgramErrors | lib/json-2-srt-deegram.ts:65-72 | what is thrown is `Error converting JSON to SRT: ` before the message of reading a property of `undefined` |
| DeepgramSrt.DeepgramCuesWellFormed | lib/json-2-srt-deegram.ts:45-59 | every cue written is one the parser reads back unambiguously |
| DeepgramSrt.DeepgramRoundTrip | lib/json-2-srt-deegram.ts:3-79 | for a complete response, parsing the document gives one cue per sentence, in loop order, with the formatted times and cleaned text |
| DeepgramSrt.SentenceTimesMatch | lib/json-2-srt-deegram.ts:46-47 | the times read back from a cue are within half a millisecond of the sentence's non-negative times |
| Sequences.ConcatMapSucceeds | lib/json-2-srt-deegram.ts:33-64 | the nested loops succeed exactly when every element succeeds |
| Sequences.ConcatMapFailureFrom | lib/json-2-srt-deegram.ts:65-72 | every failure of the loops is the failure of one element |
| Sequences.ConcatMapStops | lib/json-2-srt-deegram.ts:29-72 | the first element that fails decides the error |
| JobStore.Apply | lib/db.ts:147-172 | an update replaces the supplied fields, stamps `updatedAt` with the supplied time or `now`, and keeps every other field |
| JobStore.ApplyIdempotent | lib/db.ts:147-172 | the same update again at the same time changes nothing |
| JobStore.ApplyThenApply | lib/db.ts:147-172 | a later update overrides the fields it supplies and keeps the rest of an earlier one |
| JobStore.Insert | lib/queue.ts:133-143 | inserting into an ordered listing adds one element and keeps the listing ordered by `createdAt` |
| JobStore.InsertDistinct | lib/queue.ts:133-143 | a record with a fresh id keeps the listing's ids distinct |
| JobStore.Store.Create | lib/db.ts:29-84 | the user row is upserted first, with a row id no other user row has. A duplicate id fails with the stand-in message and stores no job. Otherwise a `pending` record with progress 0, the user row's id and the language (default `en`) is added and nothing else changes |
| JobStore.Store.Get | lib/db.ts:86-98 | the record is returned exactly when it exists |
| JobStore.Store.UpdateRecord | lib/db.ts:159-165 | a missing record fails and changes nothing. Otherwise only that record changes, by the patch |
| JobStore.Store.Update | lib/db.ts:147-172 | as above, with the failure message prefixed |
| JobStore.Store.Delete | lib/db.ts:134-145 | the record is gone afterwards. A missing one is reported as a failure |
| JobStore.Store.FindMany | lib/queue.ts:133-143 | returns every stored record the filter accepts, each once, ordered by `createdAt` |
| JobStore.Store.DeleteWhere | lib/queue.ts:197-206 | exactly the records the filter accepts are removed |
| JobStore.Store.UserJobs | lib/db.ts:100-132 | an unknown user fails. Otherwise the result is exactly that user's jobs, newest first, and holds no job of any other user |
| Storage.LastIndexOfSpec | lib/storage.ts:50 | the last occurrence is found exactly when the character occurs, and no occurrence follows it |
| Storage.BaseNameShape | lib/storage.ts:81 | `path.basename` is the suffix after the last `/` and holds no `/` |
| Storage.ExtNameShape | lib/storage.ts:50 | `path.extname` is empty or a `.` followed by no other `.`, and it ends the base name |
| Storage.StemThenExt | lib/storage.ts:81 | the stem and the extension make up the base name again |
| Storage.ExtOfMediaName | lib/storage.ts:50 | `talk.mp4` has extension `.mp4` and stem `talk` |
| Storage.ExtOfLeadingDot | lib/storage.ts:50 | `.bashrc` has no extension and is its own stem |
| Storage.DeleteFindsUpload | lib/storage.ts:158-169 | `deleteFile` of the URL `saveFile` returned removes the file `saveFile` wrote |
| Storage.ProcessingFindsUpload | lib/processing.ts:128-129 | `processMedia` reads an upload from the path `saveFile` wrote it to |
| Storage.InputPathIsDeletePath | lib/storage.ts:160 | the two URL-to-path mappings agree exactly on URLs under `/api/v1/files/` |
| Storage.UploadUrlsOfUsersDiffer | lib/storage.ts:58 | two users whose ids hold no `/` never share an upload URL |
| Storage.SrtKeysOfJobsDiffer | lib/storage.ts:81-82 | two jobs whose ids hold no `/` never share a subtitle key, whatever their file names |
| Storage.ReadSrt | lib/storage.ts:108-153 | reading the subtitles of an unknown job fails with its message |
| Storage.ReadAfterSave | lib/storage.ts:66-153 | what `saveSRT` puts under a job's key is what `getSRTContent` reads back |
| Storage.SaveKeepsOtherJobs | lib/storage.ts:66-153 | saving one job's subtitles leaves what every other job reads unchanged |
| Storage.SaveFile | lib/storage.ts:39-61 | the upload is written under the user's directory with the fresh id and the name's extension, and its URL is returned; a failed write is thrown on and leaves the disk as it was |
| Storage.DeleteFile | lib/storage.ts:158-169 | the file is gone afterwards, whether or not it existed |
| Storage.SaveSrt | lib/storage.ts:66-103 | an unknown job fails. A failed put is rethrown and leaves the bucket unchanged. Otherwise the content is stored under the job's key and its public URL is returned |
| Storage.GetSrtContent | lib/storage.ts:108-153 | returns exactly what `ReadSrt` gives for the store and bucket |
| Processing.EnglishUsesOpenaiOnly | lib/processing.ts:241-243 | English audio goes to OpenAI only, whatever Deepgram would answer |
| Processing.OtherLanguagesTryDeepgramFirst | lib/processing.ts:244-254 | other languages call Deepgram first, and call OpenAI exactly when Deepgram fails |
| Processing.TranscriptionFailureIsLast | lib/processing.ts:255-257 | a failed transcription reports OpenAI's failure under one `Transcription failed: ` prefix: the error the client threw, or the `TypeError` of a reply the conversion cannot read |
| Processing.TranscriptParses | lib/processing.ts:31-96 | the subtitles of a successful transcription parse back as cues |
| Processing.TranscribeWithDeepgram | lib/processing.ts:31-55 | returns the Deepgram document or rethrows the reply's failure |
| Processing.TranscribeWithOpenai | lib/processing.ts:66-96 | returns the OpenAI document, or rethrows the reply's failure or the conversion's `TypeError` |
| Processing.TranscribeAudio | lib/processing.ts:239-258 | returns the result of the provider choice and fallback |
| Processing.PlannedOrder | lib/processing.ts:116-292 | the planned progress values strictly increase. `processing` comes with the first write and `completed` only with the last, which alone carries the download URL. No write sets `failed` |
| Processing.ProgressedIsPlanned | lib/processing.ts:116-292 | the record after `k` writes, described field by field, is the result of applying the first `k` writes in order |
| Processing.RunEnd | lib/processing.ts:108-294 | the run makes at least 1, 2, 3 or 4 writes exactly when the record, the input file, the audio and the transcript each succeed in turn. It succeeds exactly when all five writes are made. It reports the missing record or input file with their messages |
| Processing.Later | lib/processing.ts:147-292 | after the second write, the audio and then the transcript decide how far the run gets |
| Processing.Delivered | lib/processing.ts:221-292 | after the third write, the transcript and then the upload decide the end |
| Processing.WrittenRecord | lib/processing.ts:116-292 | after `k` writes the other records are untouched. After five the record is `completed` with the download URL; after fewer it is `processing` with its old URL |
| Processing.WriteNext | lib/processing.ts:116-125 | one more planned write on an existing record |
| Processing.Prepare | lib/processing.ts:116-145 | the first write, or the database's record-not-found failure, rethrown, when the record is missing. Then the input path, or `Input file not found` when the file is missing. Then the second write |
| Processing.Extract | lib/processing.ts:155-219 | the ffmpeg run changes at most the audio file. The run goes on only with a non-empty audio file, otherwise with the ffmpeg, missing-output or empty-audio error |
| Processing.Upload | lib/processing.ts:278 | the subtitles go under the job's key, or the bucket is unchanged and the failure is returned |
| Processing.Publish | lib/processing.ts:261-292 | the fourth write, the scratch copy, the upload and the last write, stopping at a failed upload |
| Processing.Deliver | lib/processing.ts:221-292 | ends as `Delivered` says, with the matching writes, scratch file and bucket change |
| Processing.Convert | lib/processing.ts:147-292 | ends as `Later` says, with the matching writes, scratch files and bucket change |
| Processing.Run | lib/processing.ts:108-294 | ends as `RunEnd` says. It lists exactly the scratch files of how far it got, changes no other file, and puts the subtitles in the bucket exactly when it completes |
| Processing.ProcessMedia | lib/processing.ts:101-333 | the outcome and the number of writes are as `EndOf` says. The record holds exactly those writes. The bucket holds the subtitles exactly when the run succeeds. The scratch files and, once found, the input file are gone, and every other file is unchanged |
| Processing.CleanUp | lib/processing.ts:298-332 | removing the listed files and the input file leaves the disk as before the run without them |
| Processing.RemoveFiles | lib/processing.ts:301-312 | exactly the listed files are removed where they exist |
| Queue.ConcludedRecord | lib/queue.ts:57-79 | a task that succeeds leaves its record `completed` with the download URL. One that fails leaves it `failed` with the error's message and its old URL |
| Queue.StartKeepsExclusive | lib/queue.ts:43-54 | starting an eligible record that no running task holds keeps every running task on its own `processing` record |
| Queue.FinishKeepsExclusive | lib/queue.ts:57-83 | a finished task leaving the queue keeps the others exclusive |
| Queue.CleanupKeepsExclusive | lib/queue.ts:191-207 | the cleanup never deletes the record of a running task |
| Queue.ConversionQueue.constructor | lib/queue.ts:7-19 | the queue starts empty and unpaused, with no claims |
| Queue.ConversionQueue.Add | lib/queue.ts:87-127 | a task is queued exactly when the lookup succeeds, the record exists and its id is not claimed; a failed lookup is thrown on with `Failed to fetch job: ` and queues nothing |
| Queue.ConversionQueue.Start | lib/queue.ts:24-57 | when paused, full or with nothing waiting, nothing changes. Otherwise the first waiting task is popped. A claimed id releases the claim that holds it. A missing or ineligible record releases its own claim. An eligible one is claimed, marked `processing` with progress 0, and runs. Never more than two run; exclusivity is kept |
| Queue.ConversionQueue.Finish | lib/queue.ts:57-83 | the task is processed and concluded as `Processed` says, its claim is released and it leaves the running set. Exclusivity is kept |
| Queue.ConversionQueue.Close | lib/queue.ts:209-215 | the queue is paused and the waiting tasks are dropped; running tasks go on |
| Queue.ConversionQueue.Resume | lib/queue.ts:129-181 | every pending or retrying record is queued once, oldest first, claimed or not |
| Queue.ProcessTask | lib/queue.ts:57-79 | `processMedia` followed by the `completed` or `failed` write leaves the record `Concluded`, the bucket and the disk as `Ran` says, and every other record untouched |
| Queue.Conclude | lib/queue.ts:60-79 | a successful run writes `completed` with progress 100. A failed run writes `failed` with its message. A missing record stays missing: the `completed` write then fails, and so does the `failed` write that follows it |
| Queue.CleanupOldJobs | lib/queue.ts:191-207 | exactly the `completed` or `failed` records created more than 30 days ago are deleted |
| ConvertRoute.Language | app/api/v1/convert/route.ts:33 | a missing or empty language field is `en`; any other value is kept |
| ConvertRoute.Guard | app/api/v1/convert/route.ts:25-68 | the request is refused exactly when one of the checks fails. Only a missing user gets 401; every other refusal is a 400 error body |
| ConvertRoute.GuardMessages | app/api/v1/convert/route.ts:25-68 | each message is returned exactly when its own check fails and every check before it passes |
| ConvertRoute.SizeLimitInclusive | app/api/v1/convert/route.ts:8 | a file of exactly 2 GB passes the size check and one byte more does not |
| ConvertRoute.Post | app/api/v1/convert/route.ts:21-104 | a refused request changes nothing. A failed file write answers 500 and changes nothing. Otherwise the file is saved and the user row upserted; a duplicate job id answers 500 and queues nothing; else the `pending` record is created, and a failed lookup while queuing answers 500 with nothing queued, while a successful one queues the task unless claimed and answers 200 with the job id, `pending` and `/api/v1/convert/<id>`. Exclusivity of the running tasks is kept |
| ConvertRoute.CreateKeepsExclusive | lib/db.ts:62-76 | creating a record with a fresh id keeps the running tasks exclusive |

## Left out

- I/O is modelled as maps or as parameters:
  - The file system is a map from paths to contents, and the bucket a map from keys to contents.
  - The database is the `JobStore.Store` maps.
  - Deepgram, OpenAI, ffmpeg and the bucket's put request are replies given as parameters.
  - Directory creation, streams, file sizes on disk and logging are not modelled.
  - The clock is one value per call, so all writes of one call share a timestamp.
- Each queued task is two atomic steps: `Start` (lines 24-57) and `Finish` (lines 57-83).
  - A running task's writes cannot interleave with the writes of another task.
  - A store write that fails for a record that exists cannot happen in this sequential model. This covers the failure paths of the `processing` write and of `processMedia`'s later writes.
- The rate limit (`interval`, `intervalCap`, lines 9-10) and the separate `scheduler` queue (lines 14-16) are not modelled.
- `path.join` normalisation is not modelled, nor `path.basename`'s handling of trailing slashes. Paths are joined with a single `/`.
- Prisma's error messages are replaced by fixed stand-in strings. The `"Unknown error"` branch (line 78) cannot be reached, because every failure in the model carries a message.
- The difference between `null` and `undefined` is not modelled; both are `None`.
- `getSRTContent`'s "No content found in R2 response" case is not modelled: the bucket always returns a string.
- Floating-point arithmetic is not modelled: timestamps are computed on exact reals. Rounding artefacts of IEEE doubles and `NaN` times are not covered.
- Queue.CleanupOldJobs: the cutoff is `now` minus 30 × 24 hours in milliseconds. The source moves the calendar date back 30 days, which differs across a daylight-saving change.
- JobStore.Store.FindMany: the order of records with equal `createdAt` is left open. Only the ordering by `createdAt` is stated.
- Queue.ConversionQueue.Resume: the rethrow of a failed listing (lines 171-180) is not modelled. In the model the listing cannot fail.
- Queue.ConversionQueue.Add: the unused `fileUrl`, `userId` and `language` arguments are dropped.
- Processing.Publish: the write of the scratch copy of the subtitles (lib/processing.ts:274) always succeeds. A failing write would end the run after the fourth record write, with the scratch path listed for removal and nothing uploaded; that path is not modelled.
- The other error paths of the database and the file system are parameters only where listed in the model: the file write of `saveFile` and the lookup of `addConversionJob`. `deleteFile`, the scratch removals and the bucket read cannot fail.
- ConvertRoute.Post: the request is taken as already parsed. The route answers 500 `Failed to process file upload` when `auth()` (line 25), `req.formData()` (line 31) or `file.arrayBuffer()` (line 71) rejects, for example on a body that is not multipart form data; those rejections are not modelled. Neither are form fields of the wrong kind: a `file` field sent as text passes the size check (its size is undefined) and is refused with 400 `Unsupported file type`, and a `language` field sent as a file is refused with 400 `Unsupported language`. `Request` holds only a file upload and a text language.
- JobStore.Store.UserJobs: `getUserJobs` attaches the user row to every job (`include: { user: true }`, lib/db.ts:121-123). The model returns the bare records; the attached row would be `users[clerkId]` for each of them.
- `processJob` passes the record's `userId` (the user row id, not the authentication id) to `processMedia`. The model does the same. Nothing depends on it: `saveSRT` only logs it (lib/storage.ts:67), and its bucket key is built from the job id and the file name alone (lib/storage.ts:81-82).
- Claims: a task whose id is already claimed releases that claim in its `finally` block (line 81). The task holding the claim then runs unclaimed. `Start`'s contract states this as written. In the model exclusivity still holds, because a record that is already `processing` is not eligible. That relies on `Start` being one atomic step: in the source a third task for the same id could claim it and read `pending` across the awaits of lines 35 and 50, before the first task's `processing` write lands.
- The webhooks, the dashboard UI, the other API routes and the file-serving endpoint are not part of this model.
