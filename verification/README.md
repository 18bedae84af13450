# s3tools in Dafny

A model of the s3tools command-line utilities: `s3cp`, which copies one file
between the local file system and Amazon S3, and `s3rm`, which deletes one
S3 object. Remote objects are written `s3:bucket:/path/to/key`.

The project has five modules:

- `S3Tools` (`s3tools.dfy`) models the lib package.
  - It defines the language of the path pattern `^s3:([^:]+):(.+)$`, as Go's
    `regexp` reads it. The bucket is a non-empty run without ':', and it may
    hold a newline, because a negated class matches one. The key is a
    non-empty run without a newline, and it may hold ':'.
  - `FindSubmatch` is a scanner over that pattern. It is proved sound and
    complete against the `Spells` predicate.
  - `ParseS3Path` splits a matching path into bucket and key. The round trip
    with `Format` is proved in both directions.
  - The three transfers are methods over a `World`. The `World` holds the
    SDK's default region, a log of every call made to the file system or to
    the SDK, and the collaborators' answers. Each transfer is proved against
    a specification function (`DownloadEffect`, `UploadEffect`,
    `RemoveEffect`) that gives its returned error, its calls in order and
    its debug messages.
- `S3Logger` (`logger.dfy`) models the logger package. It is a class holding
  the two flags and the lines printed so far. A printed line is `Log`'s
  message plus a newline, or `Debug`'s message after a "DEBUG: " tag plus a
  newline.
- `S3cp` (`s3cp.dfy`) and `S3rm` (`s3rm.dfy`) model the two commands.
  - The package-level variables are fields of a class.
  - `parseCmdline` and `main` are methods. `main` is called `Run`.
  - Each run is proved against a specification function (`S3cpRun`,
    `S3rmRun`). It gives the exit code, the calls made, and the messages
    passed to `Debug` and to `Log`.
- `Fmt` (`fmt.dfy`) holds the two `fmt` renderings that reach the output:
  `%d` of a count, and `%s` of the argument vector. `Fmt.ListText` is the
  definition of the latter: the arguments joined by single spaces
  (`Fmt.Join`), between '[' and ']'.
- `S3Logger.Text` is the definition of the two printed formats: `Log`
  prints "%s\n" and `Debug` prints "DEBUG: %s\n". `S3Logger.DebugLinesAt`
  and `S3Logger.LogLinesAt` state what this makes each printed line.

Observations that follow from the code:

- The emptiness check in `ParseS3Path` (lib/s3tools.go:156-158) can never
  fire. Both groups of the pattern are non-empty. So `S3Tools.ParseS3Path`
  always succeeds on the paths the program gives it.
- Every transfer is called only after `IsS3Path` accepted its path.
  Therefore the "path invalid" error branches of the three transfers are
  never taken.
- The examples in s3cp's header comment write remote objects as
  `s3:/bucket/folder/file`. That form has no second ':' and is not an S3
  path, so those commands only show the usage (`S3cp.DocumentedExampleShowsUsage`).
- Most messages passed to `Debug` and `Log` already end in a newline, and
  the logger adds another, so each such line is followed by an empty one
  (`S3cp.DebugEchoesArguments`). The exceptions are the three "Calling …"
  debug messages of the commands: "Calling copyFromS3", "Calling copyToS3"
  and "Calling RemoveS3Path".
- When both arguments of s3cp are S3 paths, the source is looked at first,
  so the command downloads the source object into a local file named like
  the destination (`S3cp.SourceCheckedFirst`).

## Model

`S3Tools.IsS3Path`, `S3cp.ParseDebug`, `S3cp.S3cpRun`, `S3rm.ParseDebug`
and `S3rm.S3rmRun` are specification functions with no contract of their
own. They model lib/s3tools.go:141-144, cmd/s3cp/s3cp.go:91-131 and
cmd/s3rm/s3rm.go:49-86. The rows below name the lemmas and methods that
state what they mean.

| member | source | states |
|---|---|---|
| Fmt.Decimal | lib/s3tools.go:69 | `%d` of a count is a non-empty run of decimal digits with no leading zero, and "0" for zero |
| Fmt.DecimalRoundTrip | lib/s3tools.go:69 | the digits printed for a count read back as that count |
| Fmt.JoinAt | cmd/s3cp/s3cp.go:91 | in the echoed argument vector each argument appears whole at its offset, and a single space follows every argument but the last |
| Fmt.JoinLength | cmd/s3cp/s3cp.go:91 | the echoed arguments end where the last argument ends: nothing else is printed between the brackets |
| S3Logger.LogVisibility | logger/s3logger.go:27-33 | `Log` prints whenever debug mode is on or quiet mode is off, and stays silent under quiet mode without debug mode |
| S3Logger.DebugLines | logger/s3logger.go:37-41 | `Debug` prints one line per message in debug mode and none otherwise |
| S3Logger.DebugLinesAt | logger/s3logger.go:37-41 | in debug mode, the i-th line printed is the i-th message after the "DEBUG: " tag |
| S3Logger.DebugLinesAppend | logger/s3logger.go:37-41 | the lines printed for two runs of messages are those of the first run followed by those of the second |
| S3Logger.LogLines | logger/s3logger.go:27-33 | `Log` prints one line per message when its flags allow it and none otherwise |
| S3Logger.LogLinesAt | logger/s3logger.go:27-33 | when `Log` prints, the i-th line is the i-th message and a newline |
| S3Logger.Printed | logger/s3logger.go:27-41 | a run prints as many lines as the flags let through: every debug message in debug mode, every log message unless quiet without debug |
| S3Logger.SilentWhenQuiet | logger/s3logger.go:27-41 | quiet mode without debug mode prints nothing at all |
| S3Logger.PrintedAfter | logger/s3logger.go:37-41 | debug messages printed before a run's output join that run's debug messages, in order |
| S3Logger.Logger.constructor | logger/s3logger.go:22-23 | both flags start false and nothing has been printed |
| S3Logger.Logger.Log | logger/s3logger.go:27-33 | appends the message's line exactly when quiet mode is off or debug mode is on; the flags are unchanged |
| S3Logger.Logger.Debug | logger/s3logger.go:37-41 | appends the tagged line exactly when debug mode is on; the flags are unchanged |
| S3Tools.IndexFrom | lib/s3tools.go:31 | finds the first occurrence of a character at or after a position, or the end of the text; no occurrence lies before it |
| S3Tools.FindSubmatch | lib/s3tools.go:31 | a match yields three strings, the whole text first |
| S3Tools.FindSubmatchSound | lib/s3tools.go:31 | a match splits the text into "s3:", a non-empty bucket without ':', ':' and a non-empty key without newline |
| S3Tools.FindSubmatchComplete | lib/s3tools.go:31 | every text of that form matches, with exactly that bucket and key as its groups |
| S3Tools.IsS3PathIff | lib/s3tools.go:141-144 | a text is an S3 path if and only if it splits into a bucket and a key of the pattern's form |
| S3Tools.FirstColonAfterRun | lib/s3tools.go:31 | the bucket group ends at the first ':' after "s3:" |
| S3Tools.EmptyBucketRejected | lib/s3tools.go:141-144 | the empty text and a path with an empty bucket are not S3 paths |
| S3Tools.EmptyKeyRejected | lib/s3tools.go:141-144 | a path with an empty key is not an S3 path |
| S3Tools.NoSecondColonRejected | lib/s3tools.go:141-144 | a text with no ':' after "s3:" is not an S3 path |
| S3Tools.KeyWithNewlineRejected | lib/s3tools.go:141-144 | a path whose key holds a newline is not an S3 path |
| S3Tools.ParseS3Path | lib/s3tools.go:149-161 | a matching path parses to the bucket and key it spells, and formatting them gives the path back |
| S3Tools.ParseS3PathSplits | lib/s3tools.go:149-161 | a path spelled from a bucket and a key is an S3 path and parses to exactly that bucket and key |
| S3Tools.ParseFormatRoundTrip | lib/s3tools.go:149-161 | parsing the text of a well-formed S3 path gives that path back |
| S3Tools.KeyKeepsColons | lib/s3tools.go:149-161 | example: "s3:mybucket:/a:b" parses to bucket "mybucket" and key "/a:b", the second ':' staying in the key |
| S3Tools.BackupPathSpells | lib/s3tools.go:31 | "s3:mybucket:/folder/backup.tar.gz" names bucket "mybucket" and key "/folder/backup.tar.gz" |
| S3Tools.FolderPathSpells | lib/s3tools.go:31 | "s3:mybucket:/folder" names bucket "mybucket" and key "/folder" |
| S3Tools.BucketNewlineExample | lib/s3tools.go:149-161 | a bucket holding a newline is accepted and kept |
| S3Tools.KeyNewlineExample | lib/s3tools.go:141-144 | a key holding a newline is rejected |
| S3Tools.EmptyBucketExample | lib/s3tools.go:141-144 | "s3::/folder/file" is rejected |
| S3Tools.SlashFormExample | lib/s3tools.go:141-144 | "s3:/mybucket/myfolder/backup.tar.gz" is rejected |
| S3Tools.CopyFromS3 | lib/s3tools.go:43-72 | returns the error, makes the calls (create the file, then one GetObject in the SDK's region) and prints the debug message that `DownloadEffect` gives |
| S3Tools.CopyToS3 | lib/s3tools.go:78-114 | returns the error, makes the calls (open the file, then one upload) and prints the debug message that `UploadEffect` gives |
| S3Tools.RemoveS3Path | lib/s3tools.go:119-138 | returns the error, makes the one DeleteObject call and prints the debug message that `RemoveEffect` gives |
| S3Tools.DownloadNeedsDestination | lib/s3tools.go:49-67 | a download creates the destination first; a failed create stops it with that error; it succeeds exactly when create, downloader and download all do |
| S3Tools.DownloadNamesSourceObject | lib/s3tools.go:49-63 | the only SDK call of a download is GetObject of the source's bucket and key, in the SDK's region; once the file is created and a downloader exists, the calls are exactly the create and that GetObject |
| S3Tools.UploadNeedsSource | lib/s3tools.go:84-109 | an upload opens the source first; a failed open stops it with that error; it succeeds exactly when open, uploader and upload all do |
| S3Tools.UploadNamesDestinationObject | lib/s3tools.go:84-105 | the only SDK call of an upload puts the source file into the destination's bucket and key, with storage class REDUCED_REDUNDANCY exactly when asked and none otherwise; once the file is opened and an uploader exists, the calls are exactly the open and that upload |
| S3Tools.RemoveDeletesNamedObject | lib/s3tools.go:119-134 | a removal makes exactly one DeleteObject of the path's bucket and key, passes the service's error on unchanged, and succeeds exactly when that call does |
| S3cp.Direction | cmd/s3cp/s3cp.go:113-122 | the chosen transfer always has an S3 path on its remote side |
| S3cp.Choose | cmd/s3cp/s3cp.go:104-122 | the branch main takes always has an S3 path on its remote side |
| S3cp.S3cp.constructor | cmd/s3cp/s3cp.go:66-67 | the region starts as us-east-1 and reduced redundancy off |
| S3cp.S3cp.ParseCmdline | cmd/s3cp/s3cp.go:81-102 | stores the region, `--rr` and the logger flags; prints the argument echo; accepts exactly two positional arguments without `--help`, returning them; otherwise prints the count and returns the error |
| S3cp.S3cp.Transfer | cmd/s3cp/s3cp.go:113-130 | dispatches on which argument is an S3 path and returns the exit code, calls and printed lines that `Perform` gives |
| S3cp.S3cp.Report | cmd/s3cp/s3cp.go:124-130 | exits 1 on an error; otherwise logs "source -> destination : transfer complete" and exits 0 |
| S3cp.S3cp.Run | cmd/s3cp/s3cp.go:104-131 | a whole run gives the exit code, calls and printed lines of `S3cpRun`, and points the SDK at the chosen region once the command line is accepted; the region and `--rr` globals hold the command line's values |
| S3cp.UsageWhenRejected | cmd/s3cp/s3cp.go:96-109 | a command line without exactly two arguments, or with `--help`, exits 1 with no call and no log, and its debug output reports the argument count |
| S3cp.UsageWhenBothLocal | cmd/s3cp/s3cp.go:113-122 | with neither argument an S3 path, the run exits 1 with no call |
| S3cp.SourceCheckedFirst | cmd/s3cp/s3cp.go:113-115 | an S3 source means a download, even to an S3 destination; the run exits 0 exactly when the download succeeds |
| S3cp.UploadWhenDestinationRemote | cmd/s3cp/s3cp.go:116-118 | a local source and an S3 destination mean an upload with the `--rr` choice; the run exits 0 exactly when it succeeds |
| S3cp.ExitCodeReportsCompletion | cmd/s3cp/s3cp.go:104-131 | the exit code is 0 or 1, and 0 exactly when the completion is logged, which needs two arguments, one of them an S3 path |
| S3cp.RegionReachesEveryCall | cmd/s3cp/s3cp.go:87-111 | every SDK call goes to the region `--region` names, us-east-1 by default |
| S3cp.ReducedRedundancyIgnoredOnDownload | cmd/s3cp/s3cp.go:113-118 | `--rr` changes nothing about a download |
| S3cp.ReducedRedundancyOnUpload | cmd/s3cp/s3cp.go:116-118 | an upload stores the object with class REDUCED_REDUNDANCY exactly when `--rr` is given |
| S3cp.QuietRunIsSilent | cmd/s3cp/s3cp.go:104-131 | `--quiet` without `--debug` prints nothing through the logger |
| S3cp.DebugEchoesArguments | cmd/s3cp/s3cp.go:91 | with `--debug`, the first printed line echoes the argument vector |
| S3cp.DownloadSucceeds | cmd/s3cp/s3cp.go:113-130 | a download whose steps all succeed creates the file, fetches the source's object, logs the completion and exits 0 |
| S3cp.UploadSucceeds | cmd/s3cp/s3cp.go:116-130 | an upload whose steps all succeed opens the file, puts it into the destination's object, logs the completion and exits 0 |
| S3cp.DownloadScenario | cmd/s3cp/s3cp.go:104-131 | downloading "s3:mybucket:/folder/backup.tar.gz" to "/tmp/backup.tar.gz" creates the file and fetches that object from us-east-1 |
| S3cp.UploadScenario | cmd/s3cp/s3cp.go:104-131 | uploading with `--rr --region eu-west-1` puts the file into bucket "mybucket", key "/folder", with the reduced-redundancy class in eu-west-1 |
| S3cp.DocumentedExampleShowsUsage | cmd/s3cp/s3cp.go:44-45 | the header comment's `s3:/mybucket/...` example makes no call and exits 1 |
| S3rm.S3rm.constructor | cmd/s3rm/s3rm.go:28 | the region starts as us-east-1 |
| S3rm.S3rm.ParseCmdline | cmd/s3rm/s3rm.go:40-60 | stores the region and the logger flags; prints the argument echo; accepts exactly one positional argument without `--help`, returning it; otherwise prints the count and returns the error |
| S3rm.S3rm.Remove | cmd/s3rm/s3rm.go:71-85 | removes when the path is an S3 path and returns the exit code, calls and printed lines that `Perform` gives |
| S3rm.S3rm.Run | cmd/s3rm/s3rm.go:62-86 | a whole run gives the exit code, calls and printed lines of `S3rmRun`, and points the SDK at the chosen region once the command line is accepted; the region global holds the command line's value |
| S3rm.UsageWhenRejected | cmd/s3rm/s3rm.go:54-67 | a command line without exactly one argument, or with `--help`, exits 1 with no call and no log, and its debug output reports the argument count |
| S3rm.UsageWhenLocal | cmd/s3rm/s3rm.go:71-77 | a path that is not an S3 path exits 1 with no call |
| S3rm.DeletesNamedObject | cmd/s3rm/s3rm.go:69-85 | an S3 path makes exactly one DeleteObject of its bucket and key in the chosen region; the run exits 0 and logs "path removed" exactly when that succeeds, and exits 1 otherwise |
| S3rm.ExitCodeReportsRemoval | cmd/s3rm/s3rm.go:62-86 | the exit code is 0 or 1, and 0 exactly when the removal of an S3 path is logged |
| S3rm.QuietRunIsSilent | cmd/s3rm/s3rm.go:62-86 | `--quiet` without `--debug` prints nothing through the logger |
| S3rm.RemoveScenario | cmd/s3rm/s3rm.go:62-86 | removing "s3:mybucket:/folder/backup.tar.gz" in eu-west-1 deletes that object there and logs its removal |

## Left out

- The AWS SDK and the file system are collaborators whose answers are inputs (`Answers`). The model does not cover credentials, retries, multipart transfers, the downloaded or uploaded bytes, or the closing of files.
- `os.Create` truncating the destination before a failed download is not modelled. The model only records that the file was created.
- Downloading into a directory is not modelled. The destination is the path given to `os.Create`, and the header comment's "places it in /tmp folder" is not what the code does.
- Error values are datatypes (`S3Tools.Error`), not the text `fmt.Errorf` builds. The `fmt.Printf` of a transfer error before exit 1 is not modelled, and neither is `printHelp`, which writes the usage to standard error.
- The `flag` package is not modelled. The command line is given already parsed, so an unknown option (its exit 2) and `-h` handling are out of scope. The argument vector is rendered as `%s` renders a `[]string`.
- `S3Tools.RemoveS3Path`: the DeleteObject output rendered by `%s` is an input string, not the SDK's struct printing.
- UTF-8 decoding is not modelled. Strings are sequences of characters, so `regexp`'s treatment of invalid UTF-8 is out of scope.
- `os.Exit` is the exit code returned by `Run`. Package-level globals and `aws.DefaultConfig.Region` are fields (`S3cp.S3cp.region`, `S3Tools.World.defaultRegion`).
- Concurrency inside the SDK's transfer managers is out of scope.
