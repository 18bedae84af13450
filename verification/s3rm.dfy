/**
 * The s3rm command (cmd/s3rm/s3rm.go): delete one object from S3, named by
 * an S3 path.
 */
module S3rm {
  import opened Wrappers
  import opened S3Logger
  import opened S3Tools
  import Fmt

  const DefaultRegion: string := "us-east-1"
  const CmdlineError: string := "Invalid cmdline arguments or help requested\n"
  /** The text of flag.ErrHelp. */
  const ErrHelpText: string := "flag: help requested"

  /**
   * The command line as the flag package leaves it: the raw argument vector
   * (os.Args), the positional arguments (flag.Args), and the option values
   * (`region` is None when `--region` is absent). s3rm has no `--rr`.
   */
  datatype CommandLine = CommandLine(
    argv: seq<string>,
    args: seq<string>,
    help: bool,
    debug: bool,
    quiet: bool,
    region: Option<string>)

  /** The region the command line selects. */
  function RegionOf(cmd: CommandLine): string {
    cmd.region.GetOr(DefaultRegion)
  }

  /** parseCmdline accepts exactly one positional argument and no `--help`. */
  predicate Accepted(cmd: CommandLine) {
    |cmd.args| == 1 && !cmd.help
  }

  /** What one run of s3rm does: its exit code, its calls, and the messages it passes to logger.Debug and logger.Log. */
  datatype Outcome = Outcome(exitCode: int, requests: seq<Request>, debug: seq<string>, log: seq<string>)

  /** The message logged after a successful removal. */
  function Removed(path: string): string {
    path + " removed\n"
  }

  function ExitCode(err: Option<Error>): int {
    if err.Some? then 1 else 0
  }

  function Logged(path: string, err: Option<Error>): seq<string> {
    if err.Some? then [] else [Removed(path)]
  }

  /** What main does from the S3-path test on, once the SDK's region is `region`. */
  function Perform(path: string, answers: Answers, region: string): Outcome {
    if IsS3Path(path) then
      var e := RemoveEffect(path, answers, region);
      Outcome(ExitCode(e.err), e.requests, ["Calling RemoveS3Path"] + e.debug, Logged(path, e.err))
    else
      Outcome(1, [], [], [])
  }

  /** The messages parseCmdline passes to logger.Debug. */
  function ParseDebug(cmd: CommandLine): seq<string> {
    ["got args '" + Fmt.ListText(cmd.argv) + "'\n"] +
    if Accepted(cmd) then []
    else ["NArg = " + Fmt.Decimal(|cmd.args|) + ", ErrHelp = " + ErrHelpText + "\n"]
  }

  /** The specification of a run of s3rm against collaborators answering `answers`. */
  function S3rmRun(cmd: CommandLine, answers: Answers): Outcome {
    var o := if Accepted(cmd) then Perform(cmd.args[0], answers, RegionOf(cmd)) else Outcome(1, [], [], []);
    o.(debug := ParseDebug(cmd) + o.debug)
  }

  /** The program's package-level variable and its two functions. */
  class S3rm {
    var region: string

    constructor ()
      ensures region == DefaultRegion
    {
      region := DefaultRegion;
    }

    /**
     * parseCmdline: store the options in the package variable and the
     * logger's flags, then return the positional argument, or an error when
     * there is not exactly one or help was asked for.
     */
    method ParseCmdline(cmd: CommandLine, log: Logger) returns (path: string, err: Option<string>)
      modifies this, log
      ensures region == RegionOf(cmd)
      ensures log.isDebugMode == cmd.debug && log.isQuietMode == cmd.quiet
      ensures log.output == old(log.output) + DebugLines(cmd.debug, ParseDebug(cmd))
      ensures err.None? <==> Accepted(cmd)
      ensures err.Some? ==> err.value == CmdlineError && path == ""
      ensures err.None? ==> path == cmd.args[0]
    {
      log.isDebugMode := cmd.debug;
      log.isQuietMode := cmd.quiet;
      region := cmd.region.GetOr(DefaultRegion);

      log.Debug("got args '" + Fmt.ListText(cmd.argv) + "'\n");

      if |cmd.args| != 1 || cmd.help {
        log.Debug("NArg = " + Fmt.Decimal(|cmd.args|) + ", ErrHelp = " + ErrHelpText + "\n");
        return "", Some(CmdlineError);
      }

      return cmd.args[0], None;
    }

    /**
     * The rest of main once the region is set: remove the object when the
     * path is an S3 path, otherwise exit 1; exit 1 on a removal error, and
     * log the removal otherwise. The usage text and the error text printed
     * before exiting 1 are not modelled.
     */
    method Remove(path: string, world: World, log: Logger) returns (exitCode: int)
      modifies world`requests, log`output
      ensures var o := Perform(path, world.answers, world.defaultRegion);
        exitCode == o.exitCode &&
        world.requests == old(world.requests) + o.requests &&
        log.output == old(log.output) + Printed(log.isQuietMode, log.isDebugMode, o.debug, o.log)
    {
      if !IsS3Path(path) {
        return 1;
      }
      ghost var e := RemoveEffect(path, world.answers, world.defaultRegion);
      log.Debug("Calling RemoveS3Path");
      var err := RemoveS3Path(path, world, log);
      if err.Some? {
        exitCode := 1;
      } else {
        log.Log(Removed(path));
        exitCode := 0;
      }
      DebugLinesAppend(log.isDebugMode, ["Calling RemoveS3Path"], e.debug);
      Appended(old(log.output), DebugLines(log.isDebugMode, ["Calling RemoveS3Path"]), DebugLines(log.isDebugMode, e.debug),
               LogLines(log.isQuietMode, log.isDebugMode, Logged(path, err)));
    }

    /**
     * main: parse the command line (exit 1 with the usage when it is
     * rejected), point the SDK at the chosen region, then remove.
     */
    method Run(cmd: CommandLine, world: World, log: Logger) returns (exitCode: int)
      modifies this, world`defaultRegion, world`requests, log
      ensures var o := S3rmRun(cmd, world.answers);
        exitCode == o.exitCode &&
        world.requests == old(world.requests) + o.requests &&
        log.output == old(log.output) + Printed(cmd.quiet, cmd.debug, o.debug, o.log)
      ensures log.isDebugMode == cmd.debug && log.isQuietMode == cmd.quiet
      ensures world.defaultRegion == if Accepted(cmd) then RegionOf(cmd) else old(world.defaultRegion)
      ensures region == RegionOf(cmd)
    {
      var path, err := ParseCmdline(cmd, log);
      if err.Some? {
        assert ParseDebug(cmd) + [] == ParseDebug(cmd);
        return 1;
      }

      world.defaultRegion := region;
      exitCode := Remove(path, world, log);
      ghost var o := Perform(path, world.answers, RegionOf(cmd));
      PrintedAfter(old(log.output), cmd.quiet, cmd.debug, ParseDebug(cmd), o.debug, o.log);
    }
  }

  // ---------------------------------------------------------------------------
  // What a run of s3rm promises
  // ---------------------------------------------------------------------------

  /**
   * A command line with other than one positional argument, or with
   * `--help`, shows the usage and exits 1 without any call; its debug output
   * reports the argument count.
   */
  lemma UsageWhenRejected(cmd: CommandLine, answers: Answers)
    requires !Accepted(cmd)
    ensures var o := S3rmRun(cmd, answers);
      o.exitCode == 1 && o.requests == [] && o.log == [] &&
      |o.debug| == 2 && o.debug[1] == "NArg = " + Fmt.Decimal(|cmd.args|) + ", ErrHelp = " + ErrHelpText + "\n"
  {
  }

  /** A path that is not an S3 path shows the usage and exits 1 without any call. */
  lemma UsageWhenLocal(cmd: CommandLine, answers: Answers)
    requires Accepted(cmd) && !IsS3Path(cmd.args[0])
    ensures var o := S3rmRun(cmd, answers);
      o.exitCode == 1 && o.requests == [] && o.log == []
  {
  }

  /**
   * An S3 path makes exactly one call, a DeleteObject of the bucket and key
   * it spells in the region `--region` names; the run exits 0 and logs the
   * removal exactly when that call succeeds, and exits 1 otherwise.
   */
  lemma DeletesNamedObject(cmd: CommandLine, answers: Answers, bucket: string, key: string)
    requires Accepted(cmd) && Spells(cmd.args[0], bucket, key)
    ensures var o := S3rmRun(cmd, answers);
      o.requests == [Delete(RegionOf(cmd), DeleteObjectInput(bucket, key))] &&
      (o.exitCode == 0 <==> answers.delete.Success?) &&
      (o.exitCode == 0 ==> o.log == [Removed(cmd.args[0])]) &&
      (o.exitCode != 0 ==> o.exitCode == 1 && o.log == [])
  {
    RemoveDeletesNamedObject(cmd.args[0], answers, RegionOf(cmd), bucket, key);
  }

  /** s3rm exits 0 or 1, and 0 exactly when it logs the removal of its one argument. */
  lemma ExitCodeReportsRemoval(cmd: CommandLine, answers: Answers)
    ensures var o := S3rmRun(cmd, answers);
      (o.exitCode == 0 || o.exitCode == 1) &&
      (o.exitCode == 0 <==> |cmd.args| == 1 && o.log == [Removed(cmd.args[0])]) &&
      (o.exitCode == 1 ==> o.log == []) &&
      (o.exitCode == 0 ==> Accepted(cmd) && IsS3Path(cmd.args[0]))
  {
  }

  /** `--quiet` without `--debug` prints nothing through the logger. */
  lemma QuietRunIsSilent(cmd: CommandLine, answers: Answers)
    requires cmd.quiet && !cmd.debug
    ensures var o := S3rmRun(cmd, answers); Printed(cmd.quiet, cmd.debug, o.debug, o.log) == []
  {
    var o := S3rmRun(cmd, answers);
    SilentWhenQuiet(o.debug, o.log);
  }

  /** Removing an object from another region. */
  lemma RemoveScenario(output: string)
    ensures var cmd := CommandLine(["s3rm", "--region", "eu-west-1", "s3:mybucket:/folder/backup.tar.gz"],
                                   ["s3:mybucket:/folder/backup.tar.gz"], false, false, false, Some("eu-west-1"));
      var o := S3rmRun(cmd, Answers(None, None, true, true, Success(0), Success(""), Success(output)));
      o.exitCode == 0 &&
      o.requests == [Delete("eu-west-1", DeleteObjectInput("mybucket", "/folder/backup.tar.gz"))] &&
      o.log == [Removed("s3:mybucket:/folder/backup.tar.gz")]
  {
    var cmd := CommandLine(["s3rm", "--region", "eu-west-1", "s3:mybucket:/folder/backup.tar.gz"],
                           ["s3:mybucket:/folder/backup.tar.gz"], false, false, false, Some("eu-west-1"));
    BackupPathSpells();
    DeletesNamedObject(cmd, Answers(None, None, true, true, Success(0), Success(""), Success(output)), "mybucket", "/folder/backup.tar.gz");
  }
}
