/** The storage layer of lib/storage.ts: uploaded media on the local
    disk under `<cwd>/uploads`, and subtitle files in an object bucket
    (the Cloudflare R2 bucket, reached through its S3 interface). */
module Storage {
  import opened Wrappers
  import opened Text
  import opened JobStore

  /** The URL prefix under which uploads are served. */
  const FilesRoute := "/api/v1/files/"

  /** `path.join(a, b)` for two segments. The normalisation of `.`, `..`
      and repeated separators is not modelled. */
  function PathJoin(a: string, b: string): string {
    a + "/" + b
  }

  /** `UPLOADS_DIR` (line 11). */
  function UploadsDir(cwd: string): string {
    PathJoin(cwd, "uploads")
  }

  // ---------------------------------------------------------------------
  // File names

  /** The position of the last occurrence of `c`. */
  function LastIndexOf(s: string, c: char): (r: Option<nat>)
    ensures r.Some? ==> r.value < |s|
  {
    LastIndexBefore(s, c, |s|)
  }

  /** The position of the last occurrence of `c` before position `n`. */
  function LastIndexBefore(s: string, c: char, n: nat): (r: Option<nat>)
    requires n <= |s|
    ensures r.Some? ==> r.value < n
  {
    if n == 0 then None
    else if s[n - 1] == c then Some(n - 1)
    else LastIndexBefore(s, c, n - 1)
  }

  /** `LastIndexOf` finds `c` exactly when it occurs, at a position with
      no `c` after it. */
  lemma LastIndexOfSpec(s: string, c: char)
    ensures LastIndexOf(s, c).None? <==> c !in s
    ensures LastIndexOf(s, c).Some? ==>
      var i := LastIndexOf(s, c).value; s[i] == c && c !in s[i + 1..]
  {
    LastIndexBeforeSpec(s, c, |s|);
    assert s[..|s|] == s;
  }

  lemma {:induction false} LastIndexBeforeSpec(s: string, c: char, n: nat)
    requires n <= |s|
    ensures LastIndexBefore(s, c, n).None? <==> c !in s[..n]
    ensures LastIndexBefore(s, c, n).Some? ==>
      var i := LastIndexBefore(s, c, n).value; s[i] == c && c !in s[i + 1..n]
  {
    if n > 0 && s[n - 1] != c {
      LastIndexBeforeSpec(s, c, n - 1);
      assert s[..n] == s[..n - 1] + [s[n - 1]];
      if LastIndexBefore(s, c, n - 1).Some? {
        var i := LastIndexBefore(s, c, n - 1).value;
        assert s[i + 1..n] == s[i + 1..n - 1] + [s[n - 1]];
      }
    }
  }

  /** `path.basename`: what follows the last `/`. */
  function BaseName(name: string): (r: string)
    ensures |r| <= |name|
  {
    match LastIndexOf(name, '/')
    case None => name
    case Some(i) => name[i + 1..]
  }

  /** The base name is the part of the name after its last `/`: a suffix
      with no `/` in it. */
  lemma BaseNameShape(name: string)
    ensures '/' !in BaseName(name)
    ensures name[|name| - |BaseName(name)|..] == BaseName(name)
  {
    LastIndexOfSpec(name, '/');
  }

  /** `path.extname`: the base name from its last `.`, unless there is no
      `.`, the only one starts the name (`.bashrc`), or the name is `..`. */
  function ExtName(name: string): (r: string)
    ensures |r| <= |BaseName(name)|
  {
    var base := BaseName(name);
    match LastIndexOf(base, '.')
    case None => ""
    case Some(d) => if d == 0 || base == ".." then "" else base[d..]
  }

  /** The extension is empty or a `.` followed by no other `.`, and it ends
      the base name. */
  lemma ExtNameShape(name: string)
    ensures var r := ExtName(name);
      (r == [] || (r[0] == '.' && '.' !in r[1..])) && '/' !in r &&
      BaseName(name)[|BaseName(name)| - |r|..] == r
  {
    BaseNameShape(name);
    LastIndexOfSpec(BaseName(name), '.');
  }

  /** `path.parse(name).name`: the base name without its extension. */
  function StemName(name: string): string {
    var base := BaseName(name);
    base[..|base| - |ExtName(name)|]
  }

  /** The stem and the extension make up the base name again, as
      `path.format` puts them back together. */
  lemma StemThenExt(name: string)
    ensures StemName(name) + ExtName(name) == BaseName(name)
  {
    ExtNameShape(name);
    var base := BaseName(name);
    assert base == base[..|base| - |ExtName(name)|] + base[|base| - |ExtName(name)|..];
  }

  lemma ExtOfMediaName()
    ensures ExtName("talk.mp4") == ".mp4" && StemName("talk.mp4") == "talk"
  {
    var name := "talk.mp4";
    LastIndexOfSpec(name, '/');
    LastIndexOfSpec(name, '.');
    assert name[4] == '.' && '.' !in name[5..];
    assert forall i :: 0 <= i < |name| && i != 4 ==> name[i] != '.' && name[i] != '/';
  }

  lemma ExtOfLeadingDot()
    ensures ExtName(".bashrc") == "" && StemName(".bashrc") == ".bashrc"
  {
    var name := ".bashrc";
    LastIndexOfSpec(name, '/');
    LastIndexOfSpec(name, '.');
    assert name[0] == '.' && '.' !in name[1..];
    assert forall i :: 0 < i < |name| ==> name[i] != '.' && name[i] != '/';
  }

  // ---------------------------------------------------------------------
  // Upload paths

  /** Where `saveFile` writes an upload (lines 41, 49-51). */
  function UploadPath(cwd: string, userId: string, fileId: string, ext: string): string {
    PathJoin(PathJoin(UploadsDir(cwd), userId), fileId + ext)
  }

  /** The URL `saveFile` returns (line 58). */
  function UploadUrl(userId: string, fileId: string, ext: string): string {
    FilesRoute + userId + "/" + fileId + ext
  }

  /** The disk path `deleteFile` acts on (line 160). */
  function DeletePath(cwd: string, url: string): string {
    PathJoin(cwd, ReplaceLeading(url, FilesRoute, "uploads/"))
  }

  /** The disk path `processMedia` reads an upload from (lib/processing.ts
      lines 128-129). */
  function InputPath(cwd: string, url: string): string {
    PathJoin(UploadsDir(cwd), ReplaceLeading(url, FilesRoute, ""))
  }

  lemma UploadUrlPrefixed(userId: string, fileId: string, ext: string)
    ensures StartsWith(UploadUrl(userId, fileId, ext), FilesRoute)
    ensures UploadUrl(userId, fileId, ext)[|FilesRoute|..] == userId + "/" + fileId + ext
  {
    var url := UploadUrl(userId, fileId, ext);
    assert url == FilesRoute + (userId + "/" + fileId + ext);
  }

  /** `deleteFile` of the URL `saveFile` returned removes the file
      `saveFile` wrote. */
  lemma DeleteFindsUpload(cwd: string, userId: string, fileId: string, ext: string)
    ensures DeletePath(cwd, UploadUrl(userId, fileId, ext)) == UploadPath(cwd, userId, fileId, ext)
  {
    UploadUrlPrefixed(userId, fileId, ext);
  }

  /** `processMedia` reads an upload from the path `saveFile` wrote it to. */
  lemma ProcessingFindsUpload(cwd: string, userId: string, fileId: string, ext: string)
    ensures InputPath(cwd, UploadUrl(userId, fileId, ext)) == UploadPath(cwd, userId, fileId, ext)
  {
    UploadUrlPrefixed(userId, fileId, ext);
  }

  /** The two ways of mapping a URL back to the disk agree exactly on URLs
      under the files route: any other URL is read from under `uploads`
      but deleted from the working directory. */
  lemma InputPathIsDeletePath(cwd: string, url: string)
    ensures InputPath(cwd, url) == DeletePath(cwd, url) <==> StartsWith(url, FilesRoute)
  {
    if !StartsWith(url, FilesRoute) {
      assert |InputPath(cwd, url)| != |DeletePath(cwd, url)|;
    }
  }

  /** Two users with ids free of `/` never share an upload URL. */
  lemma UploadUrlsOfUsersDiffer(u1: string, f1: string, e1: string, u2: string, f2: string, e2: string)
    requires '/' !in u1 && '/' !in u2
    requires UploadUrl(u1, f1, e1) == UploadUrl(u2, f2, e2)
    ensures u1 == u2 && f1 + e1 == f2 + e2
  {
    UploadUrlPrefixed(u1, f1, e1);
    UploadUrlPrefixed(u2, f2, e2);
    assert u1 + "/" + f1 + e1 == u1 + "/" + (f1 + e1);
    assert u2 + "/" + f2 + e2 == u2 + "/" + (f2 + e2);
    SeparatedEqual(u1, f1 + e1, u2, f2 + e2);
  }

  /** `a/b == c/d` with `a` and `c` free of `/` splits at the same place. */
  lemma SeparatedEqual(a: string, b: string, c: string, d: string)
    requires '/' !in a && '/' !in c
    requires a + "/" + b == c + "/" + d
    ensures a == c && b == d
  {
    IndexOfSeparator(a, '/', b);
    IndexOfSeparator(c, '/', d);
    assert a + "/" + b == a + ['/'] + b;
    assert c + "/" + d == c + ['/'] + d;
    assert (a + "/" + b)[..|a|] == a;
    assert (c + "/" + d)[..|c|] == c;
    assert (a + "/" + b)[|a| + 1..] == b;
    assert (c + "/" + d)[|c| + 1..] == d;
  }

  // ---------------------------------------------------------------------
  // Subtitle keys

  /** The bucket key of a job's subtitles (lines 81-82 and 123-124). */
  function SrtKey(jobId: string, fileName: string): string {
    jobId + "/" + StemName(fileName) + ".srt"
  }

  /** The download URL `saveSRT` returns (line 96). */
  function SrtUrl(publicUrl: string, key: string): string {
    publicUrl + "/" + key
  }

  /** Jobs with ids free of `/` never share a subtitle key, whatever their
      file names. */
  lemma SrtKeysOfJobsDiffer(j1: string, n1: string, j2: string, n2: string)
    requires '/' !in j1 && '/' !in j2
    requires SrtKey(j1, n1) == SrtKey(j2, n2)
    ensures j1 == j2 && StemName(n1) == StemName(n2)
  {
    KeysDiffer(j1, StemName(n1), j2, StemName(n2));
  }

  lemma KeysDiffer(j1: string, s1: string, j2: string, s2: string)
    requires '/' !in j1 && '/' !in j2
    requires j1 + "/" + s1 + ".srt" == j2 + "/" + s2 + ".srt"
    ensures j1 == j2 && s1 == s2
  {
    assert j1 + "/" + s1 + ".srt" == j1 + "/" + (s1 + ".srt");
    assert j2 + "/" + s2 + ".srt" == j2 + "/" + (s2 + ".srt");
    SeparatedEqual(j1, s1 + ".srt", j2, s2 + ".srt");
    assert s1 == (s1 + ".srt")[..|s1|];
    assert s2 == (s2 + ".srt")[..|s2|];
  }

  const JobNotFoundPrefix := "Job "
  /** Stand-in for the message of the bucket's error for a missing key. */
  const NoSuchKey := "The specified key does not exist."

  function JobNotFound(jobId: string): string {
    JobNotFoundPrefix + jobId + " not found"
  }

  /** What `getSRTContent` reads for a job (lines 108-153). */
  function ReadSrt(jobs: map<string, Job>, objects: map<string, string>, jobId: string): (r: Result<string>)
    ensures jobId !in jobs ==> r == Failure(JobNotFound(jobId))
  {
    if jobId !in jobs then Failure(JobNotFound(jobId))
    else
      var key := SrtKey(jobId, jobs[jobId].fileName);
      if key in objects then Success(objects[key]) else Failure(NoSuchKey)
  }

  /** After the subtitles of a job are put under its key, reading them back
      gives the same text. */
  lemma ReadAfterSave(jobs: map<string, Job>, objects: map<string, string>, jobId: string, content: string)
    requires jobId in jobs
    ensures ReadSrt(jobs, objects[SrtKey(jobId, jobs[jobId].fileName) := content], jobId) == Success(content)
  {
  }

  /** Saving the subtitles of one job leaves what every other job with an
      id free of `/` reads unchanged. */
  lemma SaveKeepsOtherJobs(jobs: map<string, Job>, objects: map<string, string>, jobId: string, other: string, content: string)
    requires jobId in jobs && other != jobId && '/' !in jobId && '/' !in other
    ensures ReadSrt(jobs, objects[SrtKey(jobId, jobs[jobId].fileName) := content], other) == ReadSrt(jobs, objects, other)
  {
    if other in jobs && SrtKey(other, jobs[other].fileName) == SrtKey(jobId, jobs[jobId].fileName) {
      SrtKeysOfJobsDiffer(other, jobs[other].fileName, jobId, jobs[jobId].fileName);
    }
  }

  // ---------------------------------------------------------------------
  // Disk and bucket

  /** The local file system: contents by path. Directories are implicit. */
  class Disk {
    var files: map<string, string>

    constructor (files: map<string, string>)
      ensures this.files == files
    {
      this.files := files;
    }
  }

  /** The object bucket: contents by key. */
  class Bucket {
    var objects: map<string, string>

    constructor (objects: map<string, string>)
      ensures this.objects == objects
    {
      this.objects := objects;
    }
  }

  /** `saveFile` (lines 39-61): writes the upload under the user's
      directory with the fresh id `fileId` and the extension of the
      uploaded name, and returns its URL. `write` is the outcome of the
      `mkdirSync`/`writeFileSync` calls; their error is thrown on, and the
      disk is then taken to be as it was. */
  method SaveFile(disk: Disk, buffer: string, fileName: string, userId: string, fileId: string, cwd: string,
                  write: Outcome)
    returns (r: Result<string>)
    modifies disk`files
    ensures write.Fail? ==> r == Failure(write.error) && disk.files == old(disk.files)
    ensures write.Pass? ==>
      r == Success(UploadUrl(userId, fileId, ExtName(fileName))) &&
      disk.files == old(disk.files)[UploadPath(cwd, userId, fileId, ExtName(fileName)) := buffer]
  {
    var fileExtension := ExtName(fileName);
    var filePath := PathJoin(PathJoin(UploadsDir(cwd), userId), fileId + fileExtension);
    if write.Fail? {
      return Failure(write.error);
    }
    disk.files := disk.files[filePath := buffer];
    r := Success(FilesRoute + userId + "/" + fileId + fileExtension);
  }

  /** `deleteFile` (lines 158-169): removes the file if it exists and is
      silent otherwise. */
  method DeleteFile(disk: Disk, filePath: string, cwd: string)
    modifies disk`files
    ensures disk.files == old(disk.files) - {DeletePath(cwd, filePath)}
  {
    var fullPath := PathJoin(cwd, ReplaceLeading(filePath, FilesRoute, "uploads/"));
    if fullPath in disk.files {
      disk.files := disk.files - {fullPath};
    }
  }

  /** `saveSRT` (lines 66-103). `send` is the outcome of the bucket's put
      request; its failure is rethrown and leaves the bucket as it was. */
  method SaveSrt(store: Store, bucket: Bucket, content: string, jobId: string, userId: string,
                 publicUrl: string, send: Outcome)
    returns (r: Result<string>)
    requires store.Valid()
    modifies bucket`objects
    ensures jobId !in store.jobs ==> r == Failure(JobNotFound(jobId))
    ensures jobId in store.jobs && send.Fail? ==> r == Failure(send.error)
    ensures r.Failure? ==> bucket.objects == old(bucket.objects)
    ensures jobId in store.jobs && send.Pass? ==>
      var key := SrtKey(jobId, store.jobs[jobId].fileName);
      r == Success(SrtUrl(publicUrl, key)) && bucket.objects == old(bucket.objects)[key := content]
  {
    var job := store.Get(jobId);
    if job.None? {
      return Failure(JobNotFound(jobId));
    }
    var originalFileName := StemName(job.value.fileName);
    var srtFileName := jobId + "/" + originalFileName + ".srt";
    if send.Fail? {
      return Failure(send.error);
    }
    bucket.objects := bucket.objects[srtFileName := content];
    r := Success(publicUrl + "/" + srtFileName);
  }

  /** `getSRTContent` (lines 108-153). */
  method GetSrtContent(store: Store, bucket: Bucket, jobId: string, userId: string) returns (r: Result<string>)
    requires store.Valid()
    ensures r == ReadSrt(store.jobs, bucket.objects, jobId)
  {
    var job := store.Get(jobId);
    if job.None? {
      return Failure(JobNotFound(jobId));
    }
    var srtFileName := jobId + "/" + StemName(job.value.fileName) + ".srt";
    if srtFileName !in bucket.objects {
      return Failure(NoSuchKey);
    }
    r := Success(bucket.objects[srtFileName]);
  }
}
