/** Reading what restic printed: the summary at the end of its output, and the cause of a failure. */
module ResticOutput {
  import opened Wrappers
  import opened Text
  import opened ExecutorApi

  const ALREADY_INITIALIZED_MSG := "repository master key and config already initialized"
  const FATAL := "Fatal:"

  datatype Summary = Summary(messageType: string, totalBytesProcessed: nat, snapshotID: string)

  type Decoder = string -> Option<Summary>

  // ---------------------------------------------------------------- the summary

  /** The outcome of scanning the first `n` lines from the last one backwards. */
  function SummaryBelow(decode: Decoder, lines: seq<string>, n: nat): Result<Summary>
    requires n <= |lines|
  {
    if n == 0 then Err("could not find backup summary")
    else if lines[n - 1] == "" then SummaryBelow(decode, lines, n - 1)
    else match decode(lines[n - 1])
         case None => Err("failed to parse backup summary")
         case Some(summary) =>
           if summary.messageType != "summary" then SummaryBelow(decode, lines, n - 1) else Ok(summary)
  }

  function GetSummary(decode: Decoder, stdout: string): Result<Summary> {
    var lines := Split(stdout, '\n');
    if |lines| <= 2 then Err("backup summary not available") else SummaryBelow(decode, lines, |lines|)
  }

  predicate IsSummaryLine(decode: Decoder, line: string) {
    line != "" && decode(line).Some? && decode(line).value.messageType == "summary"
  }

  predicate IsSkippable(decode: Decoder, line: string) {
    line == "" || (decode(line).Some? && decode(line).value.messageType != "summary")
  }

  /** Line `i` is a summary, and everything after it is either empty or decodes as something else. */
  predicate LastSummaryAt(decode: Decoder, lines: seq<string>, i: nat) {
    i < |lines| && IsSummaryLine(decode, lines[i]) && forall j :: i < j < |lines| ==> IsSkippable(decode, lines[j])
  }

  lemma {:induction false} SummaryBelowIsExact(decode: Decoder, lines: seq<string>, n: nat)
    requires n <= |lines| && forall j :: n <= j < |lines| ==> IsSkippable(decode, lines[j])
    ensures SummaryBelow(decode, lines, n).Ok? <==> exists i :: 0 <= i < n && LastSummaryAt(decode, lines, i)
    ensures forall i :: 0 <= i < n && LastSummaryAt(decode, lines, i) ==>
                          Some(SummaryBelow(decode, lines, n).value) == decode(lines[i])
  {
    if n > 0 {
      var line := lines[n - 1];
      if IsSkippable(decode, line) {
        SummaryBelowIsExact(decode, lines, n - 1);
        assert !LastSummaryAt(decode, lines, n - 1);
      } else if IsSummaryLine(decode, line) {
        assert LastSummaryAt(decode, lines, n - 1);
      }
    }
  }

  /** Over more than two lines the summary found is exactly the last one, with nothing undecodable after it. */
  lemma SummaryIsExact(decode: Decoder, stdout: string)
    ensures var lines := Split(stdout, '\n');
            && (GetSummary(decode, stdout).Ok? <==> |lines| > 2 && exists i: nat :: LastSummaryAt(decode, lines, i))
            && (|lines| > 2 ==> forall i: nat :: LastSummaryAt(decode, lines, i) ==>
                                              GetSummary(decode, stdout).Ok?
                                              && Some(GetSummary(decode, stdout).value) == decode(lines[i]))
  {
    var lines := Split(stdout, '\n');
    SummaryBelowIsExact(decode, lines, |lines|);
    hide SummaryBelow, LastSummaryAt;
    assert forall i: nat :: LastSummaryAt(decode, lines, i) ==> i < |lines| by { InRange(decode, lines); }
  }

  lemma InRange(decode: Decoder, lines: seq<string>)
    ensures forall i: nat :: LastSummaryAt(decode, lines, i) ==> i < |lines|
  {
  }

  method FindSummary(decode: Decoder, stdout: string) returns (r: Result<Summary>)
    ensures r == GetSummary(decode, stdout)
  {
    var lines := Split(stdout, '\n');
    if |lines| <= 2 {
      return Err("backup summary not available");
    }
    var i := |lines|;
    while i > 0
      invariant 0 <= i <= |lines|
      invariant SummaryBelow(decode, lines, i) == SummaryBelow(decode, lines, |lines|)
    {
      i := i - 1;
      if lines[i] == "" {
        continue;
      }
      match decode(lines[i]) {
        case None => return Err("failed to parse backup summary");
        case Some(summary) =>
          if summary.messageType != "summary" {
            continue;
          }
          return Ok(summary);
      }
    }
    return Err("could not find backup summary");
  }

  // ---------------------------------------------------------------- progress

  datatype Progress = Progress(messageType: string, percentDone: real, totalBytes: nat, bytesDone: nat)

  /** The last complete line, when there is one and it decodes. */
  function GetProgress(decode: string -> Option<Progress>, stdout: string): Result<Progress> {
    var lines := Split(stdout, '\n');
    if |lines| <= 2 then Err("backup progress not available yet")
    else match decode(lines[|lines| - 2])
         case None => Err("failed to parse progress of backup")
         case Some(progress) =>
           if progress.messageType == "" then Err("failed to parse progress of backup") else Ok(progress)
  }

  // ---------------------------------------------------------------- the cause of a failure

  function Classify(line: string): ExecError {
    if Contains(line, ALREADY_INITIALIZED_MSG) then RepositoryAlreadyExists
    else if Contains(line, FATAL) then ResticFatal("error:" + TrimLeft(line, FATAL))
    else CommandFailed(line)
  }

  ghost predicate Says(line: string, what: string) {
    exists i: nat :: Occurs(line, what, i)
  }

  /** The error of a line: that the repository is there already, if the line says so; a fatal error, with what follows the
      leading letters of the mark; or else the line itself. */
  lemma ClassifyIsExact(line: string) returns (n: nat)
    ensures Classify(line) == RepositoryAlreadyExists <==> Says(line, ALREADY_INITIALIZED_MSG)
    ensures !Says(line, ALREADY_INITIALIZED_MSG) && !Says(line, FATAL) ==> Classify(line) == CommandFailed(line)
    ensures n <= |line| && (forall i :: 0 <= i < n ==> line[i] in FATAL) && (n < |line| ==> line[n] !in FATAL)
    ensures !Says(line, ALREADY_INITIALIZED_MSG) && Says(line, FATAL) ==> Classify(line) == ResticFatal("error:" + line[n..])
  {
    hide Contains, Occurs, TrimLeft;
    ContainsMeansOccurs(line, ALREADY_INITIALIZED_MSG);
    ContainsMeansOccurs(line, FATAL);
    n := TrimLeftIsExact(line, FATAL);
  }

  function ErrorBelow(lines: seq<string>, n: nat): Option<ExecError>
    requires n <= |lines|
  {
    if n == 0 then None
    else if lines[n - 1] == "" then ErrorBelow(lines, n - 1)
    else Some(Classify(lines[n - 1]))
  }

  function ParseStdErr(stderr: string): Option<ExecError> {
    ErrorBelow(Split(stderr, '\n'), |Split(stderr, '\n')|)
  }

  predicate LastNonEmptyAt(lines: seq<string>, i: nat) {
    i < |lines| && lines[i] != "" && forall j :: i < j < |lines| ==> lines[j] == ""
  }

  lemma {:induction false} ErrorBelowIsExact(lines: seq<string>, n: nat)
    requires n <= |lines| && forall j :: n <= j < |lines| ==> lines[j] == ""
    ensures ErrorBelow(lines, n).None? <==> AllEmpty(lines)
    ensures forall i: nat :: LastNonEmptyAt(lines, i) ==> ErrorBelow(lines, n) == Some(Classify(lines[i]))
  {
    hide Classify;
    if n > 0 && lines[n - 1] == "" {
      ErrorBelowIsExact(lines, n - 1);
    }
  }

  /** No cause is found exactly when stderr is empty or nothing but newlines; otherwise the last non-empty line tells it. */
  lemma StdErrIsExact(stderr: string)
    ensures ParseStdErr(stderr).None? <==> AllEqual(stderr, '\n')
    ensures var lines := Split(stderr, '\n');
            forall i: nat :: LastNonEmptyAt(lines, i) ==> ParseStdErr(stderr) == Some(Classify(lines[i]))
  {
    ErrorBelowIsExact(Split(stderr, '\n'), |Split(stderr, '\n')|);
    AllPartsEmptyIffOnlySeparators(stderr, '\n');
  }

  method FindError(stderr: string) returns (r: Option<ExecError>)
    ensures r == ParseStdErr(stderr)
  {
    var lines := Split(stderr, '\n');
    var i := |lines|;
    while i > 0
      invariant 0 <= i <= |lines|
      invariant ErrorBelow(lines, i) == ErrorBelow(lines, |lines|)
    {
      i := i - 1;
      if Contains(lines[i], ALREADY_INITIALIZED_MSG) {
        NonEmptyWhenFound(lines[i], ALREADY_INITIALIZED_MSG);
        return Some(RepositoryAlreadyExists);
      }
      if Contains(lines[i], FATAL) {
        NonEmptyWhenFound(lines[i], FATAL);
        return Some(ResticFatal("error:" + TrimLeft(lines[i], FATAL)));
      }
      if |lines[i]| > 0 {
        return Some(CommandFailed(lines[i]));
      }
    }
    return None;
  }

  lemma NonEmptyWhenFound(line: string, what: string)
    requires Contains(line, what) && what != ""
    ensures line != ""
  {
    ContainsNeedsLength(line, what);
  }
}
