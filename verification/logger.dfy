/**
 * The logger package (logger/s3logger.go): two package-level flags that the
 * command-line front ends set, and two printing functions that read them.
 */
module S3Logger {

  /** Whether `Log` prints under the given flags: debug mode overrides quiet mode. */
  predicate LogVisible(isQuietMode: bool, isDebugMode: bool) {
    !isQuietMode || isDebugMode
  }

  /** Debug mode always makes `Log` print; quiet mode without debug mode silences it. */
  lemma LogVisibility(isQuietMode: bool, isDebugMode: bool)
    ensures isDebugMode ==> LogVisible(isQuietMode, isDebugMode)
    ensures !isQuietMode ==> LogVisible(isQuietMode, isDebugMode)
    ensures isQuietMode && !isDebugMode ==> !LogVisible(isQuietMode, isDebugMode)
  {
  }

  /**
   * One Printf the logger makes: `Log` prints its message with the format
   * "%s\n", `Debug` with "DEBUG: %s\n".
   */
  datatype Line = LogLine(msg: string) | DebugLine(msg: string)

  /** The text a line puts on standard output. */
  function Text(line: Line): string {
    match line
    case LogLine(m) => m + "\n"
    case DebugLine(m) => "DEBUG: " + m + "\n"
  }

  /** What `Debug` prints for each of `msgs` in turn. */
  function DebugLines(isDebugMode: bool, msgs: seq<string>): (lines: seq<Line>)
    ensures |lines| == if isDebugMode then |msgs| else 0
  {
    if !isDebugMode || msgs == [] then []
    else [DebugLine(msgs[0])] + DebugLines(isDebugMode, msgs[1..])
  }

  /** In debug mode each message is printed, in order, after a "DEBUG: " tag and before a newline. */
  lemma {:induction false} DebugLinesAt(msgs: seq<string>, i: nat)
    requires i < |msgs|
    ensures |DebugLines(true, msgs)| == |msgs|
    ensures Text(DebugLines(true, msgs)[i]) == "DEBUG: " + msgs[i] + "\n"
  {
    if i > 0 {
      DebugLinesAt(msgs[1..], i - 1);
    }
  }

  /** Debug lines of consecutive messages follow each other. */
  lemma {:induction false} DebugLinesAppend(isDebugMode: bool, a: seq<string>, b: seq<string>)
    ensures DebugLines(isDebugMode, a + b) == DebugLines(isDebugMode, a) + DebugLines(isDebugMode, b)
  {
    if !isDebugMode {
    } else if a == [] {
      assert a + b == b;
    } else {
      assert (a + b)[0] == a[0];
      assert (a + b)[1..] == a[1..] + b;
      DebugLinesAppend(isDebugMode, a[1..], b);
    }
  }

  /** Output printed in three stretches is the output followed by the three stretches together. */
  lemma Appended(out: seq<Line>, a: seq<Line>, b: seq<Line>, c: seq<Line>)
    ensures out + a + b + c == out + (a + b + c)
  {
  }

  /** What `Log` prints for each of `msgs` in turn. */
  function LogLines(isQuietMode: bool, isDebugMode: bool, msgs: seq<string>): (lines: seq<Line>)
    ensures |lines| == if LogVisible(isQuietMode, isDebugMode) then |msgs| else 0
  {
    if !LogVisible(isQuietMode, isDebugMode) || msgs == [] then []
    else [LogLine(msgs[0])] + LogLines(isQuietMode, isDebugMode, msgs[1..])
  }

  /** When `Log` is visible each message is printed, in order, followed by a newline. */
  lemma {:induction false} LogLinesAt(isQuietMode: bool, isDebugMode: bool, msgs: seq<string>, i: nat)
    requires LogVisible(isQuietMode, isDebugMode) && i < |msgs|
    ensures |LogLines(isQuietMode, isDebugMode, msgs)| == |msgs|
    ensures Text(LogLines(isQuietMode, isDebugMode, msgs)[i]) == msgs[i] + "\n"
  {
    if i > 0 {
      LogLinesAt(isQuietMode, isDebugMode, msgs[1..], i - 1);
    }
  }

  /**
   * What the logger prints over a run that passes `debugMsgs` to Debug and
   * then `logMsgs` to Log, under the given flags.
   */
  function Printed(isQuietMode: bool, isDebugMode: bool, debugMsgs: seq<string>, logMsgs: seq<string>): (lines: seq<Line>)
    ensures |lines| == (if isDebugMode then |debugMsgs| else 0) + (if LogVisible(isQuietMode, isDebugMode) then |logMsgs| else 0)
  {
    DebugLines(isDebugMode, debugMsgs) + LogLines(isQuietMode, isDebugMode, logMsgs)
  }

  /** Quiet mode without debug mode prints nothing at all. */
  lemma SilentWhenQuiet(debugMsgs: seq<string>, logMsgs: seq<string>)
    ensures Printed(true, false, debugMsgs, logMsgs) == []
  {
  }

  /** Debug lines printed before a run's own output join its debug messages. */
  lemma PrintedAfter(out: seq<Line>, isQuietMode: bool, isDebugMode: bool, pre: seq<string>, debugMsgs: seq<string>, logMsgs: seq<string>)
    ensures out + DebugLines(isDebugMode, pre) + Printed(isQuietMode, isDebugMode, debugMsgs, logMsgs)
         == out + Printed(isQuietMode, isDebugMode, pre + debugMsgs, logMsgs)
  {
    DebugLinesAppend(isDebugMode, pre, debugMsgs);
  }

  class Logger {
    /** IsDebugMode, written by the `--debug` option. */
    var isDebugMode: bool
    /** IsQuietMode, written by the `--quiet` option. */
    var isQuietMode: bool
    /** What the logger has printed to standard output, one line per Printf. */
    var output: seq<Line>

    constructor ()
      ensures !isDebugMode && !isQuietMode && output == []
    {
      isDebugMode, isQuietMode, output := false, false, [];
    }

    /** Prints `s` and a newline unless quiet mode is on and debug mode is off. */
    method Log(s: string)
      modifies this`output
      ensures isDebugMode == old(isDebugMode) && isQuietMode == old(isQuietMode)
      ensures output == old(output) + LogLines(isQuietMode, isDebugMode, [s])
    {
      if !isQuietMode || isDebugMode {
        output := output + [LogLine(s)];
      }
    }

    /** Prints `s` after a "DEBUG: " tag when debug mode is on. */
    method Debug(s: string)
      modifies this`output
      ensures isDebugMode == old(isDebugMode) && isQuietMode == old(isQuietMode)
      ensures output == old(output) + DebugLines(isDebugMode, [s])
    {
      if isDebugMode {
        output := output + [DebugLine(s)];
      }
    }
  }
}
