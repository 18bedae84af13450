/**
 * The s3cp command (cmd/s3cp/s3cp.go): copy one file between the local file
 * system and S3. The direction is chosen by which argument is an S3 path,
 * the source being looked at first.
 */
module S3cp {
  import opened Wrappers
  import opened S3Logger
  import opened S3Tools
  import Fmt

  const DefaultRegion: string := "us-east-1"
  const CmdlineError: string := "Invalid cmdline arguments or help requested\n"
  /** The text of flag.ErrHelp. */
  const ErrHelpText: string := "flag: help requested"

  /**
   * The command line as the flag package leaves it: the raw argument vector
   * (os.Args), the positional arguments (flag.Args), and the option values
   * (`region` is None when `--region` is absent).
   */
  datatype CommandLine = CommandLine(
    argv: seq<string>,
    args: seq<string>,
    help: bool,
    debug: bool,
    quiet: bool,
    region: Option<string>,
    rr: bool)

  /** The region the command line selects. */
  function RegionOf(cmd: CommandLine): string {
    cmd.region.GetOr(DefaultRegion)
  }

  /** parseCmdline accepts exactly two positional arguments and no `--help`. */
  predicate Accepted(cmd: CommandLine) {
    |cmd.args| == 2 && !cmd.help
  }

  /** The branch main takes. */
  datatype Action =
    | ShowUsage
    | CopyFrom(source: string, destination: string)
    | CopyTo(source: string, destination: string, isReducedRedundancy: bool)

  /** The direction of a copy: the source is looked at first. */
  function Direction(source: string, destination: string, isReducedRedundancy: bool): (action: Action)
    ensures Performable(action)
  {
    if IsS3Path(source) then CopyFrom(source, destination)
    else if IsS3Path(destination) then CopyTo(source, destination, isReducedRedundancy)
    else ShowUsage
  }

  /** A download names an S3 source and an upload an S3 destination. */
  predicate Performable(action: Action) {
    match action
    case ShowUsage => true
    case CopyFrom(source, _) => IsS3Path(source)
    case CopyTo(_, destination, _) => IsS3Path(destination)
  }

  function Choose(cmd: CommandLine): (action: Action)
    ensures Performable(action)
  {
    if Accepted(cmd) then Direction(cmd.args[0], cmd.args[1], cmd.rr) else ShowUsage
  }

  /** What one run of s3cp does: its exit code, its calls, and the messages it passes to logger.Debug and logger.Log. */
  datatype Outcome = Outcome(exitCode: int, requests: seq<Request>, debug: seq<string>, log: seq<string>)

  /** The message logged after a successful transfer. */
  function Completion(source: string, destination: string): string {
    source + " -> " + destination + " : transfer complete\n"
  }

  /** A dispatched transfer: exit 1 on its error, otherwise log the completion and exit 0. */
  function Finish(source: string, destination: string, calling: string, e: Effect): Outcome {
    Outcome(ExitCode(e.err), e.requests, [calling] + e.debug, Logged(source, destination, e.err))
  }

  function ExitCode(err: Option<Error>): int {
    if err.Some? then 1 else 0
  }

  function Logged(source: string, destination: string, err: Option<Error>): seq<string> {
    if err.Some? then [] else [Completion(source, destination)]
  }

  /** What main does from the dispatch on, once the SDK's region is `region`. */
  function Perform(action: Action, answers: Answers, region: string): Outcome
    requires Performable(action)
  {
    match action
    case ShowUsage => Outcome(1, [], [], [])
    case CopyFrom(source, destination) =>
      Finish(source, destination, "Calling copyFromS3", DownloadEffect(source, destination, answers, region))
    case CopyTo(source, destination, rr) =>
      Finish(source, destination, "Calling copyToS3", UploadEffect(source, destination, rr, answers, region))
  }

  /** The messages parseCmdline passes to logger.Debug. */
  function ParseDebug(cmd: CommandLine): seq<string> {
    ["got args '" + Fmt.ListText(cmd.argv) + "'\n"] +
    if Accepted(cmd) then []
    else ["NArg = " + Fmt.Decimal(|cmd.args|) + ", ErrHelp = " + ErrHelpText + "\n"]
  }

  /** The specification of a run of s3cp against collaborators answering `answers`. */
  function S3cpRun(cmd: CommandLine, answers: Answers): Outcome {
    var o := Perform(Choose(cmd), answers, RegionOf(cmd));
    o.(debug := ParseDebug(cmd) + o.debug)
  }

  /** The program's package-level variables and its two functions. */
  class S3cp {
    var region: string
    var isReducedRedundancy: bool

    constructor ()
      ensures region == DefaultRegion && !isReducedRedundancy
    {
      region, isReducedRedundancy := DefaultRegion, false;
    }

    /**
     * parseCmdline: store the options in the package variables and the
     * logger's flags, then return the two positional arguments, or an error
     * when there are not exactly two or help was asked for.
     */
    method ParseCmdline(cmd: CommandLine, log: Logger) returns (source: string, destination: string, err: Option<string>)
      modifies this, log
      ensures region == RegionOf(cmd) && isReducedRedundancy == cmd.rr
      ensures log.isDebugMode == cmd.debug && log.isQuietMode == cmd.quiet
      ensures log.output == old(log.output) + DebugLines(cmd.debug, ParseDebug(cmd))
      ensures err.None? <==> Accepted(cmd)
      ensures err.Some? ==> err.value == CmdlineError && source == "" && destination == ""
      ensures err.None? ==> source == cmd.args[0] && destination == cmd.args[1]
    {
      log.isDebugMode := cmd.debug;
      log.isQuietMode := cmd.quiet;
      region := cmd.region.GetOr(DefaultRegion);
      isReducedRedundancy := cmd.rr;

      log.Debug("got args '" + Fmt.ListText(cmd.argv) + "'\n");

      if |cmd.args| != 2 || cmd.help {
        log.Debug("NArg = " + Fmt.Decimal(|cmd.args|) + ", ErrHelp = " + ErrHelpText + "\n");
        return "", "", Some(CmdlineError);
      }

      return cmd.args[0], cmd.args[1], None;
    }

    /**
     * The rest of main once the region is set: download when the source is
     * an S3 path, otherwise upload when the destination is one, otherwise
     * exit 1; exit 1 on a transfer error, and log the completion otherwise.
     * The usage text and the error text printed before exiting 1 are not
     * modelled.
     */
    method Transfer(source: string, destination: string, world: World, log: Logger) returns (exitCode: int)
      modifies world`requests, log`output
      ensures var o := Perform(Direction(source, destination, isReducedRedundancy), world.answers, world.defaultRegion);
        exitCode == o.exitCode &&
        world.requests == old(world.requests) + o.requests &&
        log.output == old(log.output) + Printed(log.isQuietMode, log.isDebugMode, o.debug, o.log)
    {
      if IsS3Path(source) {
        ghost var e := DownloadEffect(source, destination, world.answers, world.defaultRegion);
        ghost var o := Finish(source, destination, "Calling copyFromS3", e);
        assert Perform(Direction(source, destination, isReducedRedundancy), world.answers, world.defaultRegion) == o;
        log.Debug("Calling copyFromS3");
        var err := CopyFromS3(source, destination, world, log);
        exitCode := Report(source, destination, err, log);
        DebugLinesAppend(log.isDebugMode, ["Calling copyFromS3"], e.debug);
        Appended(old(log.output), DebugLines(log.isDebugMode, ["Calling copyFromS3"]), DebugLines(log.isDebugMode, e.debug),
                 LogLines(log.isQuietMode, log.isDebugMode, Logged(source, destination, err)));
      } else if IsS3Path(destination) {
        ghost var e := UploadEffect(source, destination, isReducedRedundancy, world.answers, world.defaultRegion);
        ghost var o := Finish(source, destination, "Calling copyToS3", e);
        assert Perform(Direction(source, destination, isReducedRedundancy), world.answers, world.defaultRegion) == o;
        log.Debug("Calling copyToS3");
        var err := CopyToS3(source, destination, isReducedRedundancy, world, log);
        exitCode := Report(source, destination, err, log);
        DebugLinesAppend(log.isDebugMode, ["Calling copyToS3"], e.debug);
        Appended(old(log.output), DebugLines(log.isDebugMode, ["Calling copyToS3"]), DebugLines(log.isDebugMode, e.debug),
                 LogLines(log.isQuietMode, log.isDebugMode, Logged(source, destination, err)));
      } else {
        return 1;
      }
    }

    /** The end of main: exit 1 on a transfer error, otherwise log the completion and exit 0. */
    method Report(source: string, destination: string, err: Option<Error>, log: Logger) returns (exitCode: int)
      modifies log`output
      ensures exitCode == ExitCode(err)
      ensures log.output == old(log.output) + LogLines(log.isQuietMode, log.isDebugMode, Logged(source, destination, err))
    {
      if err.Some? {
        return 1;
      }

      log.Log(Completion(source, destination));
      return 0;
    }

    /** main: parse the command line, set the SDK's region from it, and transfer. */
    method Run(cmd: CommandLine, world: World, log: Logger) returns (exitCode: int)
      modifies this, world`defaultRegion, world`requests, log
      ensures var o := S3cpRun(cmd, world.answers);
        exitCode == o.exitCode &&
        world.requests == old(world.requests) + o.requests &&
        log.output == old(log.output) + Printed(cmd.quiet, cmd.debug, o.debug, o.log)
      ensures log.isDebugMode == cmd.debug && log.isQuietMode == cmd.quiet
      ensures world.defaultRegion == if Accepted(cmd) then RegionOf(cmd) else old(world.defaultRegion)
      ensures region == RegionOf(cmd) && isReducedRedundancy == cmd.rr
    {
      var source, destination, err := ParseCmdline(cmd, log);
      if err.Some? {
        assert ParseDebug(cmd) + [] == ParseDebug(cmd);
        return 1;
      }

      ghost var afterParse := log.output;
      world.defaultRegion := region;
      exitCode := Transfer(source, destination, world, log);
      ghost var o := Perform(Choose(cmd), world.answers, RegionOf(cmd));
      assert Direction(source, destination, isReducedRedundancy) == Choose(cmd);
      PrintedAfter(old(log.output), cmd.quiet, cmd.debug, ParseDebug(cmd), o.debug, o.log);
    }
  }

  // ---------------------------------------------------------------------------
  // What a run of s3cp promises
  // ---------------------------------------------------------------------------

  /**
   * A command line with other than two positional arguments, or with
   * `--help`, shows the usage and exits 1 without touching a file or S3; its
   * debug output reports the argument count.
   */
  lemma UsageWhenRejected(cmd: CommandLine, answers: Answers)
    requires !Accepted(cmd)
    ensures var o := S3cpRun(cmd, answers);
      o.exitCode == 1 && o.requests == [] && o.log == [] &&
      |o.debug| == 2 && o.debug[1] == "NArg = " + Fmt.Decimal(|cmd.args|) + ", ErrHelp = " + ErrHelpText + "\n"
  {
  }

  /** When neither argument is an S3 path, s3cp shows the usage and exits 1 without any call. */
  lemma UsageWhenBothLocal(cmd: CommandLine, answers: Answers)
    requires Accepted(cmd) && !IsS3Path(cmd.args[0]) && !IsS3Path(cmd.args[1])
    ensures var o := S3cpRun(cmd, answers);
      o.exitCode == 1 && o.requests == [] && o.log == []
  {
  }

  /**
   * An S3 source means a download, whatever the destination is (even another
   * S3 path): the run makes the download's calls and exits 0 exactly when the
   * download succeeds.
   */
  lemma SourceCheckedFirst(cmd: CommandLine, answers: Answers)
    requires Accepted(cmd) && IsS3Path(cmd.args[0])
    ensures var o := S3cpRun(cmd, answers);
      var e := DownloadEffect(cmd.args[0], cmd.args[1], answers, RegionOf(cmd));
      o.requests == e.requests && (o.exitCode == 0 <==> e.err.None?)
  {
  }

  /** A local source and an S3 destination mean an upload, with the `--rr` choice passed on. */
  lemma UploadWhenDestinationRemote(cmd: CommandLine, answers: Answers)
    requires Accepted(cmd) && !IsS3Path(cmd.args[0]) && IsS3Path(cmd.args[1])
    ensures var o := S3cpRun(cmd, answers);
      var e := UploadEffect(cmd.args[0], cmd.args[1], cmd.rr, answers, RegionOf(cmd));
      o.requests == e.requests && (o.exitCode == 0 <==> e.err.None?)
  {
  }

  /**
   * s3cp exits 0 or 1, and 0 exactly when it logs that the transfer completed;
   * a run that exits 0 had two positional arguments, one of them an S3 path.
   */
  lemma ExitCodeReportsCompletion(cmd: CommandLine, answers: Answers)
    ensures var o := S3cpRun(cmd, answers);
      (o.exitCode == 0 || o.exitCode == 1) &&
      (o.exitCode == 0 <==> |cmd.args| == 2 && o.log == [Completion(cmd.args[0], cmd.args[1])]) &&
      (o.exitCode == 1 ==> o.log == []) &&
      (o.exitCode == 0 ==> Accepted(cmd) && (IsS3Path(cmd.args[0]) || IsS3Path(cmd.args[1])))
  {
  }

  /** Every S3 call goes to the region `--region` names, us-east-1 by default. */
  lemma RegionReachesEveryCall(cmd: CommandLine, answers: Answers)
    ensures var o := S3cpRun(cmd, answers);
      forall r :: r in o.requests && r.IsSdkCall() ==> r.region == RegionOf(cmd)
  {
  }

  /** `--rr` has no effect on a download. */
  lemma ReducedRedundancyIgnoredOnDownload(cmd: CommandLine, answers: Answers)
    requires Accepted(cmd) && IsS3Path(cmd.args[0])
    ensures S3cpRun(cmd.(rr := true), answers) == S3cpRun(cmd.(rr := false), answers)
  {
  }

  /** On an upload, the object is stored with class REDUCED_REDUNDANCY exactly when `--rr` is given. */
  lemma ReducedRedundancyOnUpload(cmd: CommandLine, answers: Answers, bucket: string, key: string)
    requires Accepted(cmd) && !IsS3Path(cmd.args[0]) && Spells(cmd.args[1], bucket, key)
    ensures var o := S3cpRun(cmd, answers);
      forall r :: r in o.requests && r.IsSdkCall() ==>
        r == Upload(RegionOf(cmd), UploadInput(cmd.args[0], bucket, key, if cmd.rr then Some(ReducedRedundancy) else None))
  {
    UploadNamesDestinationObject(cmd.args[0], cmd.args[1], cmd.rr, answers, RegionOf(cmd), bucket, key);
  }

  /** `--quiet` without `--debug` prints nothing through the logger. */
  lemma QuietRunIsSilent(cmd: CommandLine, answers: Answers)
    requires cmd.quiet && !cmd.debug
    ensures var o := S3cpRun(cmd, answers); Printed(cmd.quiet, cmd.debug, o.debug, o.log) == []
  {
    var o := S3cpRun(cmd, answers);
    SilentWhenQuiet(o.debug, o.log);
  }

  /**
   * With `--debug`, the first line printed echoes the argument vector; the
   * message already ends in a newline, so the line ends in two.
   */
  lemma DebugEchoesArguments(cmd: CommandLine, answers: Answers)
    requires cmd.debug
    ensures var o := S3cpRun(cmd, answers); var p := Printed(cmd.quiet, cmd.debug, o.debug, o.log);
      |p| > 0 && Text(p[0]) == "DEBUG: got args '" + Fmt.ListText(cmd.argv) + "'\n\n"
  {
    var o := S3cpRun(cmd, answers);
    assert o.debug[0] == "got args '" + Fmt.ListText(cmd.argv) + "'\n";
    DebugLinesAt(o.debug, 0);
    assert Printed(cmd.quiet, cmd.debug, o.debug, o.log)[0] == DebugLines(true, o.debug)[0];
  }

  /**
   * A download whose file creation, downloader and transfer all succeed
   * creates the destination, fetches the object the source names, logs the
   * completion and exits 0.
   */
  lemma DownloadSucceeds(cmd: CommandLine, answers: Answers, bucket: string, key: string)
    requires Accepted(cmd) && Spells(cmd.args[0], bucket, key)
    requires answers.create.None? && answers.newDownloader && answers.download.Success?
    ensures var o := S3cpRun(cmd, answers);
      o.exitCode == 0 &&
      o.requests == [Create(cmd.args[1]), Download(RegionOf(cmd), GetObjectInput(bucket, key))] &&
      o.log == [Completion(cmd.args[0], cmd.args[1])]
  {
    ParseS3PathSplits(cmd.args[0], bucket, key);
  }

  /**
   * An upload whose file opening, uploader and transfer all succeed opens the
   * source, puts it into the object the destination names, logs the
   * completion and exits 0.
   */
  lemma UploadSucceeds(cmd: CommandLine, answers: Answers, bucket: string, key: string)
    requires Accepted(cmd) && !IsS3Path(cmd.args[0]) && Spells(cmd.args[1], bucket, key)
    requires answers.open.None? && answers.newUploader && answers.upload.Success?
    ensures var o := S3cpRun(cmd, answers);
      o.exitCode == 0 &&
      o.requests == [Open(cmd.args[0]),
                     Upload(RegionOf(cmd), UploadInput(cmd.args[0], bucket, key, if cmd.rr then Some(ReducedRedundancy) else None))] &&
      o.log == [Completion(cmd.args[0], cmd.args[1])]
  {
    ParseS3PathSplits(cmd.args[1], bucket, key);
  }

  /** All collaborators succeed. */
  function Succeeding(bytes: nat, location: string): Answers {
    Answers(None, None, true, true, Success(bytes), Success(location), Success(""))
  }

  /** A download from the default region: the file is created, the object fetched, the completion logged. */
  lemma DownloadScenario(bytes: nat, location: string)
    ensures var cmd := CommandLine(["s3cp", "s3:mybucket:/folder/backup.tar.gz", "/tmp/backup.tar.gz"],
                                   ["s3:mybucket:/folder/backup.tar.gz", "/tmp/backup.tar.gz"], false, false, false, None, false);
      var o := S3cpRun(cmd, Succeeding(bytes, location));
      o.exitCode == 0 &&
      o.requests == [Create("/tmp/backup.tar.gz"), Download(DefaultRegion, GetObjectInput("mybucket", "/folder/backup.tar.gz"))]
  {
    var cmd := CommandLine(["s3cp", "s3:mybucket:/folder/backup.tar.gz", "/tmp/backup.tar.gz"],
                           ["s3:mybucket:/folder/backup.tar.gz", "/tmp/backup.tar.gz"], false, false, false, None, false);
    BackupPathSpells();
    DownloadSucceeds(cmd, Succeeding(bytes, location), "mybucket", "/folder/backup.tar.gz");
  }

  /** An upload with `--rr` into another region: the file is opened and put with the reduced-redundancy class. */
  lemma UploadScenario(bytes: nat, location: string)
    ensures var cmd := CommandLine(["s3cp", "--region", "eu-west-1", "--rr", "/tmp/backup.tar.gz", "s3:mybucket:/folder"],
                                   ["/tmp/backup.tar.gz", "s3:mybucket:/folder"], false, false, false, Some("eu-west-1"), true);
      var o := S3cpRun(cmd, Succeeding(bytes, location));
      o.exitCode == 0 &&
      o.requests == [Open("/tmp/backup.tar.gz"),
                     Upload("eu-west-1", UploadInput("/tmp/backup.tar.gz", "mybucket", "/folder", Some(ReducedRedundancy)))]
  {
    var cmd := CommandLine(["s3cp", "--region", "eu-west-1", "--rr", "/tmp/backup.tar.gz", "s3:mybucket:/folder"],
                           ["/tmp/backup.tar.gz", "s3:mybucket:/folder"], false, false, false, Some("eu-west-1"), true);
    FolderPathSpells();
    assert !IsS3Path("/tmp/backup.tar.gz");
    UploadSucceeds(cmd, Succeeding(bytes, location), "mybucket", "/folder");
  }

  /**
   * The examples in the program's header comment write remote objects as
   * `s3:/bucket/folder/file`, which is not an S3 path: the first of them,
   * `s3cp s3:/mybucket/myfolder/backup.tar.gz /tmp`, only shows the usage.
   */
  lemma DocumentedExampleShowsUsage(answers: Answers)
    ensures var source := Prefix + "/mybucket" + "/myfolder" + "/backup.tar.gz";
      var cmd := CommandLine(["s3cp", source, "/tmp"], [source, "/tmp"], false, false, false, None, false);
      var o := S3cpRun(cmd, answers);
      o.exitCode == 1 && o.requests == []
  {
    SlashFormExample();
    assert !IsS3Path("/tmp");
  }
}
