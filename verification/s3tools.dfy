/**
 * The lib package (lib/s3tools.go): the grammar of S3 paths, and the three
 * transfers (download, upload, delete) as step-by-step sequences of calls to
 * the file system and the AWS SDK, which are abstracted by `World`.
 */
module S3Tools {
  import opened Wrappers
  import opened S3Logger
  import Fmt

  // ---------------------------------------------------------------------------
  // The S3 path grammar:  ^s3:([^:]+):(.+)$
  // ---------------------------------------------------------------------------

  const Prefix: string := "s3:"

  /** S3path: the bucket and the object key an S3 path names. */
  datatype S3Path = S3Path(bucket: string, path: string)

  predicate NoColon(s: string) {
    forall i :: 0 <= i < |s| ==> s[i] != ':'
  }

  /** Two runs without ':' make one. */
  lemma NoColonJoin(a: string, b: string)
    requires NoColon(a) && NoColon(b)
    ensures NoColon(a + b)
  {
  }

  predicate NoNewline(s: string) {
    forall i :: 0 <= i < |s| ==> s[i] != '\n'
  }

  /**
   * The language of the pattern, stated on its two groups: `s` is "s3:", then
   * `bucket`, a non-empty run without ':' (a newline is allowed, as in any
   * negated class), then ':', then `key`, a non-empty run without a newline
   * (Go's `.` does not match one; ':' is allowed).
   */
  predicate Spells(s: string, bucket: string, key: string) {
    |bucket| > 0 && NoColon(bucket) && |key| > 0 && NoNewline(key) &&
    s == Prefix + bucket + ":" + key
  }

  /** The text of an S3 path. */
  function Format(p: S3Path): string {
    Prefix + p.bucket + ":" + p.path
  }

  /** The index of the first `c` in `s` at or after `i`, or |s| when there is none. */
  function IndexFrom(s: string, i: nat, c: char): (k: nat)
    requires i <= |s|
    ensures i <= k <= |s|
    ensures k < |s| ==> s[k] == c
    ensures forall j :: i <= j < k ==> s[j] != c
    decreases |s| - i
  {
    if i == |s| || s[i] == c then i else IndexFrom(s, i + 1, c)
  }

  /**
   * FindStringSubmatch with the pattern: the whole match and the two groups, or
   * None (Go's nil) when `s` does not match. The first group cannot hold ':'
   * and is followed by one, so it ends at the first ':' after the prefix; the
   * second group is the rest, which must be non-empty and hold no newline.
   */
  function FindSubmatch(s: string): (parts: Option<seq<string>>)
    ensures parts.Some? ==> |parts.value| == 3 && parts.value[0] == s
  {
    if |s| < 3 || s[0] != 's' || s[1] != '3' || s[2] != ':' then None
    else
      var k := IndexFrom(s, 3, ':');
      if k == 3 || |s| <= k + 1 || IndexFrom(s, k + 1, '\n') < |s| then None
      else Some([s, s[3..k], s[k + 1..]])
  }

  /** What the matcher returns is in the pattern's language. */
  lemma FindSubmatchSound(s: string)
    requires FindSubmatch(s).Some?
    ensures Spells(s, FindSubmatch(s).value[1], FindSubmatch(s).value[2])
  {
    var k := IndexFrom(s, 3, ':');
    assert s[..3] == Prefix;
    assert s == s[..3] + s[3..k] + ":" + s[k + 1..];
    var key := s[k + 1..];
    forall j | 0 <= j < |key|
      ensures key[j] != '\n'
    {
      assert key[j] == s[k + 1 + j];
    }
  }

  /** A string in the pattern's language matches, with exactly those two groups. */
  lemma {:induction false} FindSubmatchComplete(s: string, bucket: string, key: string)
    requires Spells(s, bucket, key)
    ensures FindSubmatch(s) == Some([s, bucket, key])
  {
    var k := |Prefix| + |bucket|;
    assert s[k] == ':';
    forall j | |Prefix| <= j < k
      ensures s[j] != ':'
    {
      assert s[j] == bucket[j - |Prefix|];
    }
    assert IndexFrom(s, |Prefix|, ':') == k;
    assert s[|Prefix|..k] == bucket;
    assert s[k + 1..] == key;
  }

  /** IsS3Path: whether `s` matches the pattern. */
  predicate IsS3Path(s: string) {
    FindSubmatch(s).Some?
  }

  /** The recogniser accepts exactly the strings of the pattern's language. */
  lemma IsS3PathIff(s: string)
    ensures IsS3Path(s) <==> exists bucket, key :: Spells(s, bucket, key)
  {
    if exists bucket, key :: Spells(s, bucket, key) {
      var bucket, key :| Spells(s, bucket, key);
      FindSubmatchComplete(s, bucket, key);
    }
    if IsS3Path(s) {
      FindSubmatchSound(s);
    }
  }

  /** The first ':' after the prefix of "s3:" + run + rest, when `run` has none, is where `rest` starts. */
  lemma {:induction false} FirstColonAfterRun(run: string, rest: string)
    requires NoColon(run)
    ensures var s := Prefix + run + rest;
      |s| >= 3 && s[0] == 's' && s[1] == '3' && s[2] == ':' &&
      IndexFrom(s, |Prefix|, ':') == if rest != [] && rest[0] == ':' then |Prefix| + |run| else IndexFrom(s, |Prefix| + |run|, ':')
  {
    var s := Prefix + run + rest;
    var k := |Prefix| + |run|;
    forall j | |Prefix| <= j < k
      ensures s[j] != ':'
    {
      assert s[j] == run[j - |Prefix|];
    }
    if rest != [] && rest[0] == ':' {
      assert s[k] == ':';
    } else {
      assert IndexFrom(s, |Prefix|, ':') == IndexFrom(s, k, ':');
    }
  }

  /** The empty string is not an S3 path, and neither is one with an empty bucket. */
  lemma EmptyBucketRejected(key: string)
    ensures !IsS3Path("")
    ensures !IsS3Path(Prefix + ":" + key)
  {
    FirstColonAfterRun("", ":" + key);
    assert Prefix + "" + (":" + key) == Prefix + ":" + key;
  }

  /** A path whose key is empty is not an S3 path. */
  lemma EmptyKeyRejected(bucket: string)
    requires NoColon(bucket)
    ensures !IsS3Path(Prefix + bucket + ":")
  {
    FirstColonAfterRun(bucket, ":");
  }

  /** A path with no ':' after the prefix is not an S3 path. */
  lemma NoSecondColonRejected(rest: string)
    requires NoColon(rest)
    ensures !IsS3Path(Prefix + rest)
  {
    FirstColonAfterRun(rest, "");
    assert Prefix + rest + "" == Prefix + rest;
  }

  /** A key holding a newline is rejected: Go's `.` does not match one. */
  lemma KeyWithNewlineRejected(bucket: string, key: string)
    requires |bucket| > 0 && NoColon(bucket) && !NoNewline(key)
    ensures !IsS3Path(Prefix + bucket + ":" + key)
  {
    var s := Prefix + bucket + ":" + key;
    FirstColonAfterRun(bucket, ":" + key);
    assert Prefix + bucket + (":" + key) == s;
    var i :| 0 <= i < |key| && key[i] == '\n';
    assert s[|Prefix| + |bucket| + 1 + i] == '\n';
  }

  /** Errors the lib functions return. */
  datatype Error =
    | InvalidPath(path: string)
    | SourcePathInvalid(reason: Error)
    | DestinationPathInvalid(reason: Error)
    | OpenFailed(file: string, cause: Fault)
    | NoDownloader
    | NoUploader
    | DownloadFailed(source: string, destination: string, cause: Fault)
    | UploadFailed(source: string, destination: string, cause: Fault)
    | Passed(cause: Fault)

  /** An error value the os package or the AWS SDK returned, carried as is. */
  datatype Fault = Fault(message: string)

  /**
   * ParseS3Path. Go indexes the submatches without checking for nil and panics
   * on a string that does not match, so the caller must know `IsS3Path(path)`.
   * The emptiness check after the split can then never fail.
   */
  function ParseS3Path(path: string): (r: Result<S3Path, Error>)
    requires IsS3Path(path)
    ensures r.Success?
    ensures Spells(path, r.value.bucket, r.value.path)
    ensures Format(r.value) == path
  {
    var parts := FindSubmatch(path).value;
    var s := S3Path(parts[1], parts[2]);
    FindSubmatchSound(path);
    if |s.bucket| == 0 || |s.path| == 0 then Failure(InvalidPath(path))
    else Success(s)
  }

  /**
   * The parse is determined by the grammar: a string spelling `bucket` and
   * `key` parses to exactly those, so the bucket is the text up to the first
   * ':' after the prefix and the key is all the rest, colons included.
   */
  lemma ParseS3PathSplits(path: string, bucket: string, key: string)
    requires Spells(path, bucket, key)
    ensures IsS3Path(path)
    ensures ParseS3Path(path) == Success(S3Path(bucket, key))
  {
    FindSubmatchComplete(path, bucket, key);
  }

  /** Writing an S3 path out and parsing it back gives the same bucket and key. */
  lemma ParseFormatRoundTrip(p: S3Path)
    requires |p.bucket| > 0 && NoColon(p.bucket) && |p.path| > 0 && NoNewline(p.path)
    ensures IsS3Path(Format(p))
    ensures ParseS3Path(Format(p)) == Success(p)
  {
    ParseS3PathSplits(Format(p), p.bucket, p.path);
  }

  /** The key keeps every ':' after the first. */
  lemma KeyKeepsColons()
    ensures IsS3Path("s3:mybucket:/a:b") && ParseS3Path("s3:mybucket:/a:b") == Success(S3Path("mybucket", "/a:b"))
  {
    ParseS3PathSplits("s3:mybucket:/a:b", "mybucket", "/a:b");
  }

  /** A bucket and a key with a folder. */
  lemma BackupPathSpells()
    ensures Spells("s3:mybucket:/folder/backup.tar.gz", "mybucket", "/folder/backup.tar.gz")
  {
  }

  /** A bucket and a folder key. */
  lemma FolderPathSpells()
    ensures Spells("s3:mybucket:/folder", "mybucket", "/folder")
  {
  }

  /** The bucket may hold a newline. */
  lemma BucketNewlineExample()
    ensures IsS3Path("s3:my\nbucket:/a") && ParseS3Path("s3:my\nbucket:/a") == Success(S3Path("my\nbucket", "/a"))
  {
    assert "s3:my\nbucket:/a" == Prefix + "my\nbucket" + ":" + "/a";
    ParseS3PathSplits("s3:my\nbucket:/a", "my\nbucket", "/a");
  }

  /** The key may not hold a newline. */
  lemma KeyNewlineExample()
    ensures !IsS3Path("s3:mybucket:/a\nb")
  {
    assert "s3:mybucket:/a\nb" == Prefix + "mybucket" + ":" + "/a\nb";
    assert "/a\nb"[2] == '\n';
    KeyWithNewlineRejected("mybucket", "/a\nb");
  }

  /** A path with an empty bucket is rejected. */
  lemma EmptyBucketExample()
    ensures !IsS3Path("s3::/folder/file")
  {
    assert "s3::/folder/file" == Prefix + ":" + "/folder/file";
    EmptyBucketRejected("/folder/file");
  }

  /**
   * The `s3:/bucket/key` form has no second ':' and is rejected; the path is
   * "s3:/mybucket/myfolder/backup.tar.gz", written in pieces.
   */
  lemma SlashFormExample()
    ensures !IsS3Path(Prefix + "/mybucket" + "/myfolder" + "/backup.tar.gz")
  {
    var a, b, c := "/mybucket", "/myfolder", "/backup.tar.gz";
    assert NoColon(a);
    assert NoColon(b);
    assert NoColon(c);
    NoColonJoin(a, b);
    NoColonJoin(a + b, c);
    assert Prefix + a + b + c == Prefix + (a + b + c);
    NoSecondColonRejected(a + b + c);
  }

  // ---------------------------------------------------------------------------
  // The collaborators: the local file system and the S3 service of the AWS SDK
  // ---------------------------------------------------------------------------

  const ReducedRedundancy: string := "REDUCED_REDUNDANCY"

  datatype GetObjectInput = GetObjectInput(bucket: string, key: string)

  /** The upload request; `body` names the local file whose reader it carries. */
  datatype UploadInput = UploadInput(body: string, bucket: string, key: string, storageClass: Option<string>)

  datatype DeleteObjectInput = DeleteObjectInput(bucket: string, key: string)

  /** A call the lib makes to a collaborator; the SDK calls carry the region they run in. */
  datatype Request =
    | Create(name: string)
    | Open(name: string)
    | Download(region: string, get: GetObjectInput)
    | Upload(region: string, put: UploadInput)
    | Delete(region: string, del: DeleteObjectInput)
  {
    predicate IsSdkCall() {
      Download? || Upload? || Delete?
    }
  }

  /**
   * How the collaborators answer: the error (if any) of os.Create and os.Open,
   * whether NewDownloader and NewUploader return a value, and the results of
   * Download (bytes written), Upload (the object's location) and DeleteObject
   * (the rendered output).
   */
  datatype Answers = Answers(
    create: Option<Fault>,
    open: Option<Fault>,
    newDownloader: bool,
    newUploader: bool,
    download: Result<nat, Fault>,
    upload: Result<string, Fault>,
    delete: Result<string, Fault>)

  /** The world outside the program, as far as the lib sees it. */
  class World {
    /** aws.DefaultConfig.Region: the region every SDK client is created for. */
    var defaultRegion: string
    /** Every call made to a collaborator so far, in order. */
    var requests: seq<Request>
    /** How the collaborators answer. */
    const answers: Answers

    constructor (region: string, answers: Answers)
      ensures defaultRegion == region && requests == [] && this.answers == answers
    {
      defaultRegion, requests, this.answers := region, [], answers;
    }
  }

  /** What a transfer does: the error it returns (None for nil), its calls, and the messages it passes to logger.Debug. */
  datatype Effect = Effect(err: Option<Error>, requests: seq<Request>, debug: seq<string>)

  /** The specification of CopyFromS3, for collaborators answering `answers` and SDK region `region`. */
  function DownloadEffect(source: string, destination: string, answers: Answers, region: string): Effect
    requires IsS3Path(source)
  {
    var src := ParseS3Path(source).value;
    if answers.create.Some? then
      Effect(Some(OpenFailed(destination, answers.create.value)), [Create(destination)], [])
    else if !answers.newDownloader then
      Effect(Some(NoDownloader), [Create(destination)], [])
    else
      var calls := [Create(destination), Download(region, GetObjectInput(src.bucket, src.path))];
      match answers.download
      case Failure(f) => Effect(Some(DownloadFailed(source, destination, f)), calls, [])
      case Success(n) =>
        Effect(None, calls, ["Downloaded '" + source + "', " + Fmt.Decimal(n) + " bytes retrieved\n"])
  }

  /** The specification of CopyToS3. */
  function UploadEffect(source: string, destination: string, isReducedRedundancy: bool, answers: Answers, region: string): Effect
    requires IsS3Path(destination)
  {
    var dest := ParseS3Path(destination).value;
    if answers.open.Some? then
      Effect(Some(OpenFailed(source, answers.open.value)), [Open(source)], [])
    else if !answers.newUploader then
      Effect(Some(NoUploader), [Open(source)], [])
    else
      var storageClass := if isReducedRedundancy then Some(ReducedRedundancy) else None;
      var calls := [Open(source), Upload(region, UploadInput(source, dest.bucket, dest.path, storageClass))];
      match answers.upload
      case Failure(f) => Effect(Some(UploadFailed(source, destination, f)), calls, [])
      case Success(location) =>
        Effect(None, calls, ["Post-upload file destination URL:='" + location + "'\n"])
  }

  /** The specification of RemoveS3Path. */
  function RemoveEffect(path: string, answers: Answers, region: string): Effect
    requires IsS3Path(path)
  {
    var target := ParseS3Path(path).value;
    var calls := [Delete(region, DeleteObjectInput(target.bucket, target.path))];
    match answers.delete
    case Failure(f) => Effect(Some(Passed(f)), calls, [])
    case Success(output) => Effect(None, calls, ["Removed item ''" + output + "'\n"])
  }

  /**
   * CopyFromS3: create the local destination, then download the object the
   * source names into it. Every early return leaves the later calls unmade.
   */
  method CopyFromS3(source: string, destination: string, world: World, log: Logger) returns (err: Option<Error>)
    requires IsS3Path(source)
    modifies world`requests, log`output
    ensures var e := DownloadEffect(source, destination, world.answers, world.defaultRegion);
      err == e.err &&
      world.requests == old(world.requests) + e.requests &&
      log.output == old(log.output) + DebugLines(log.isDebugMode, e.debug)
  {
    var src: S3Path;
    match ParseS3Path(source)
    case Failure(e) =>
      return Some(SourcePathInvalid(e));
    case Success(s) =>
      src := s;

    world.requests := world.requests + [Create(destination)];
    if world.answers.create.Some? {
      return Some(OpenFailed(destination, world.answers.create.value));
    }

    if !world.answers.newDownloader {
      return Some(NoDownloader);
    }

    var input := GetObjectInput(src.bucket, src.path);
    world.requests := world.requests + [Download(world.defaultRegion, input)];
    match world.answers.download
    case Failure(f) =>
      return Some(DownloadFailed(source, destination, f));
    case Success(bytesWritten) =>
      log.Debug("Downloaded '" + source + "', " + Fmt.Decimal(bytesWritten) + " bytes retrieved\n");
      return None;
  }

  /**
   * CopyToS3: open the local source, build the upload request for the object
   * the destination names, mark it reduced-redundancy when asked, and upload.
   */
  method CopyToS3(source: string, destination: string, isReducedRedundancy: bool, world: World, log: Logger)
    returns (err: Option<Error>)
    requires IsS3Path(destination)
    modifies world`requests, log`output
    ensures var e := UploadEffect(source, destination, isReducedRedundancy, world.answers, world.defaultRegion);
      err == e.err &&
      world.requests == old(world.requests) + e.requests &&
      log.output == old(log.output) + DebugLines(log.isDebugMode, e.debug)
  {
    var dest: S3Path;
    match ParseS3Path(destination)
    case Failure(e) =>
      return Some(DestinationPathInvalid(e));
    case Success(d) =>
      dest := d;

    world.requests := world.requests + [Open(source)];
    if world.answers.open.Some? {
      return Some(OpenFailed(source, world.answers.open.value));
    }

    if !world.answers.newUploader {
      return Some(NoUploader);
    }

    var uploadInput := UploadInput(source, dest.bucket, dest.path, None);
    if isReducedRedundancy {
      uploadInput := uploadInput.(storageClass := Some(ReducedRedundancy));
    }

    world.requests := world.requests + [Upload(world.defaultRegion, uploadInput)];
    match world.answers.upload
    case Failure(f) =>
      return Some(UploadFailed(source, destination, f));
    case Success(location) =>
      log.Debug("Post-upload file destination URL:='" + location + "'\n");
      return None;
  }

  /** RemoveS3Path: delete the object the path names; the service's error is returned unchanged. */
  method RemoveS3Path(path: string, world: World, log: Logger) returns (err: Option<Error>)
    requires IsS3Path(path)
    modifies world`requests, log`output
    ensures var e := RemoveEffect(path, world.answers, world.defaultRegion);
      err == e.err &&
      world.requests == old(world.requests) + e.requests &&
      log.output == old(log.output) + DebugLines(log.isDebugMode, e.debug)
  {
    var target: S3Path;
    match ParseS3Path(path)
    case Failure(e) =>
      return Some(e);
    case Success(t) =>
      target := t;

    var params := DeleteObjectInput(target.bucket, target.path);
    world.requests := world.requests + [Delete(world.defaultRegion, params)];
    match world.answers.delete
    case Failure(f) =>
      return Some(Passed(f));
    case Success(result) =>
      log.Debug("Removed item ''" + result + "'\n");
      return None;
  }

  // ---------------------------------------------------------------------------
  // What the transfers promise
  // ---------------------------------------------------------------------------

  /**
   * A download first creates the destination; when that fails it returns the
   * error and asks nothing of S3. It succeeds exactly when the file, the
   * downloader and the download all do.
   */
  lemma DownloadNeedsDestination(source: string, destination: string, answers: Answers, region: string)
    requires IsS3Path(source)
    ensures var e := DownloadEffect(source, destination, answers, region);
      e.requests[0] == Create(destination) &&
      (answers.create.Some? ==> e.err == Some(OpenFailed(destination, answers.create.value)) && e.requests == [Create(destination)]) &&
      (e.err.None? <==> answers.create.None? && answers.newDownloader && answers.download.Success?)
  {
  }

  /**
   * The only S3 call a download makes is a GetObject of the bucket and key
   * the source spells, in the given region; it is made once the destination
   * is created and a downloader exists.
   */
  lemma DownloadNamesSourceObject(source: string, destination: string, answers: Answers, region: string, bucket: string, key: string)
    requires Spells(source, bucket, key)
    ensures IsS3Path(source)
    ensures var e := DownloadEffect(source, destination, answers, region);
      (forall r :: r in e.requests && r.IsSdkCall() ==> r == Download(region, GetObjectInput(bucket, key))) &&
      (answers.create.None? && answers.newDownloader ==>
         e.requests == [Create(destination), Download(region, GetObjectInput(bucket, key))])
  {
    ParseS3PathSplits(source, bucket, key);
  }

  /** An upload first opens the source; it succeeds exactly when the file, the uploader and the upload all do. */
  lemma UploadNeedsSource(source: string, destination: string, isReducedRedundancy: bool, answers: Answers, region: string)
    requires IsS3Path(destination)
    ensures var e := UploadEffect(source, destination, isReducedRedundancy, answers, region);
      e.requests[0] == Open(source) &&
      (answers.open.Some? ==> e.err == Some(OpenFailed(source, answers.open.value)) && e.requests == [Open(source)]) &&
      (e.err.None? <==> answers.open.None? && answers.newUploader && answers.upload.Success?)
  {
  }

  /**
   * The only S3 call an upload makes puts the opened file into the bucket and
   * key the destination spells, with storage class REDUCED_REDUNDANCY exactly
   * when reduced redundancy is asked for and no storage class otherwise; it
   * is made once the source is opened and an uploader exists.
   */
  lemma UploadNamesDestinationObject(source: string, destination: string, isReducedRedundancy: bool, answers: Answers,
                                     region: string, bucket: string, key: string)
    requires Spells(destination, bucket, key)
    ensures IsS3Path(destination)
    ensures var e := UploadEffect(source, destination, isReducedRedundancy, answers, region);
      forall r :: r in e.requests && r.IsSdkCall() ==>
        r.Upload? && r.region == region &&
        r.put.body == source && r.put.bucket == bucket && r.put.key == key &&
        (r.put.storageClass == Some(ReducedRedundancy) <==> isReducedRedundancy) &&
        (r.put.storageClass.Some? ==> isReducedRedundancy)
    ensures var e := UploadEffect(source, destination, isReducedRedundancy, answers, region);
      answers.open.None? && answers.newUploader ==>
        e.requests == [Open(source), Upload(region, UploadInput(source, bucket, key,
                                                                if isReducedRedundancy then Some(ReducedRedundancy) else None))]
  {
    ParseS3PathSplits(destination, bucket, key);
  }

  /**
   * A removal makes exactly one DeleteObject call, on the bucket and key the
   * path spells; it returns the service's error unchanged, and nil only when
   * that call succeeded.
   */
  lemma RemoveDeletesNamedObject(path: string, answers: Answers, region: string, bucket: string, key: string)
    requires Spells(path, bucket, key)
    ensures IsS3Path(path)
    ensures var e := RemoveEffect(path, answers, region);
      e.requests == [Delete(region, DeleteObjectInput(bucket, key))] &&
      (answers.delete.Failure? ==> e.err == Some(Passed(answers.delete.error))) &&
      (e.err.None? <==> answers.delete.Success?)
  {
    ParseS3PathSplits(path, bucket, key);
  }
}
