/** The executors of restic commands: `Run`, `Status` and the waiter's final section each hold the response lock,
    so a run of an executor is a sequence of such calls in any order. */
module ResticExecutors {
  import opened Wrappers
  import opened Text
  import opened ExecutorApi
  import R = ResticOutput

  datatype Kind = Backup | Init | Restore

  const EMPTY_SUMMARY := R.Summary("", 0, "")

  datatype State = State(
    lastError: Option<ExecError>,
    summary: Option<R.Summary>,
    isRunning: bool,
    started: nat, // commands started so far
    exited: Option<Process>)

  const INITIAL := State(None, None, false, 0, None)

  /** One critical section. A command ends only once, and only after it has been started. */
  datatype Op = Run(startErr: Option<string>) | Exit(p: Process) | Poll

  function AfterRun(s: State, startErr: Option<string>): State {
    if s.isRunning then s
    else if startErr.Some? then s.(lastError := Some(StartFailed(startErr.value)))
    else s.(isRunning := true, started := s.started + 1)
  }

  /** A restore's error is what was found on stderr whenever stderr is not empty, even when nothing was found. */
  function ExitError(kind: Kind, p: Process): Option<ExecError> {
    var generic := Some(CommandFailed("failed to run the command"));
    var found := R.ParseStdErr(p.stderr);
    if kind == Restore then (if p.stderr != "" then found else generic)
    else if found.Some? then found else generic
  }

  function ExitSummary(kind: Kind, decode: R.Decoder, p: Process): Result<R.Summary> {
    if kind == Backup then R.GetSummary(decode, p.stdout) else Ok(EMPTY_SUMMARY)
  }

  function AfterExit(kind: Kind, decode: R.Decoder, s: State, p: Process): State {
    if !p.exitOk then s.(exited := Some(p), lastError := ExitError(kind, p))
    else match ExitSummary(kind, decode, p)
         case Err(msg) => s.(exited := Some(p), lastError := Some(SummaryRejected(msg)))
         case Ok(summary) => s.(exited := Some(p), summary := Some(summary))
  }

  function Next(kind: Kind, decode: R.Decoder, s: State, op: Op): State {
    match op
    case Run(startErr) => AfterRun(s, startErr)
    case Exit(p) => if s.isRunning && s.exited.None? then AfterExit(kind, decode, s, p) else s
    case Poll => s
  }

  function After(kind: Kind, decode: R.Decoder, ops: seq<Op>): State {
    if ops == [] then INITIAL else Next(kind, decode, After(kind, decode, ops[..|ops| - 1]), ops[|ops| - 1])
  }

  /** What `Status` reports; `stdoutSoFar` is what a backup that still runs has printed. */
  function StatusOf(kind: Kind, progress: string -> Option<R.Progress>, s: State, stdoutSoFar: string): ExecStatus {
    if s.lastError.Some? then Failed(s.lastError)
    else if s.summary.Some? then
      match kind
      case Backup =>
        var bytes := s.summary.value.totalBytesProcessed;
        ExecStatus(true, None, 100.0, bytes, bytes, s.summary.value.snapshotID)
      case Init => FINISHED
      case Restore => FINISHED.(progressPercentage := 100.0)
    else if kind != Backup then RUNNING
    else match R.GetProgress(progress, stdoutSoFar)
         case Err(msg) => RUNNING.(error := Some(SummaryRejected(msg)))
         case Ok(p) => ExecStatus(false, None, p.percentDone * 100.0, p.totalBytes, p.bytesDone, "")
  }

  predicate IsDone(s: State) {
    s.lastError.Some? || s.summary.Some?
  }

  predicate IsSuccess(s: State) {
    s.lastError.None? && s.summary.Some?
  }

  /** Polling sees done, and success, exactly when the fields say so. */
  lemma StatusReportsState(kind: Kind, progress: string -> Option<R.Progress>, s: State, stdoutSoFar: string)
    ensures var r := StatusOf(kind, progress, s, stdoutSoFar);
            (r.done <==> IsDone(s)) && (Success(r) <==> IsSuccess(s))
  {
    hide R.GetProgress;
  }

  predicate StartedCleanly(ops: seq<Op>) {
    forall op :: op in ops && op.Run? ==> op.startErr.None?
  }

  /** What every state of an executor satisfies, whatever was called in whatever order. */
  predicate Reached(kind: Kind, decode: R.Decoder, s: State) {
    && s.started == (if s.isRunning then 1 else 0)
    && (s.exited.Some? ==> s.isRunning)
    && (s.summary.Some? ==> s.exited.Some? && s.exited.value.exitOk && ExitSummary(kind, decode, s.exited.value).Ok?)
    && (s.exited.Some? ==>
          var p := s.exited.value;
          if !p.exitOk then s.lastError == ExitError(kind, p) && s.summary.None?
          else if ExitSummary(kind, decode, p).Err? then s.lastError.Some? && s.summary.None?
          else s.summary == Some(ExitSummary(kind, decode, p).value))
  }

  lemma {:induction false} EveryStateIsReached(kind: Kind, decode: R.Decoder, ops: seq<Op>)
    ensures Reached(kind, decode, After(kind, decode, ops))
    ensures StartedCleanly(ops) && After(kind, decode, ops).exited.None? ==> After(kind, decode, ops).lastError.None?
    ensures StartedCleanly(ops) && After(kind, decode, ops).summary.Some? ==> After(kind, decode, ops).lastError.None?
  {
    hide ExitError, ExitSummary;
    if ops != [] {
      EveryStateIsReached(kind, decode, ops[..|ops| - 1]);
      assert StartedCleanly(ops) ==> StartedCleanly(ops[..|ops| - 1]) && ops[|ops| - 1] in ops;
    }
  }

  /** However often `Run` is called, and however often starting fails, at most one command is ever started. */
  lemma AtMostOneProcess(kind: Kind, decode: R.Decoder, ops: seq<Op>)
    ensures After(kind, decode, ops).started <= 1
  {
    EveryStateIsReached(kind, decode, ops);
  }

  /** A success is final; an error may at most turn into "not done", when the command then ends. */
  predicate Keeps(was: State, now: State) {
    && (IsSuccess(was) ==> now == was)
    && (was.lastError.Some? ==> now.lastError.Some? || (now.exited.Some? && now.summary.None?))
  }

  lemma {:induction false} VerdictIsKept(kind: Kind, decode: R.Decoder, ops: seq<Op>, later: seq<Op>)
    ensures Keeps(After(kind, decode, ops), After(kind, decode, ops + later))
    decreases |later|
  {
    hide ExitError, ExitSummary;
    if later == [] {
      assert ops + later == ops;
    } else {
      VerdictIsKept(kind, decode, ops, later[..|later| - 1]);
      EveryStateIsReached(kind, decode, ops + later[..|later| - 1]);
      assert (ops + later)[..|ops + later| - 1] == ops + later[..|later| - 1];
    }
  }

  /** A done verdict never changes from error to success or back. */
  lemma VerdictNeverFlips(kind: Kind, decode: R.Decoder, ops: seq<Op>, later: seq<Op>)
    requires IsDone(After(kind, decode, ops)) && IsDone(After(kind, decode, ops + later))
    ensures IsSuccess(After(kind, decode, ops)) <==> IsSuccess(After(kind, decode, ops + later))
  {
    VerdictIsKept(kind, decode, ops, later);
    EveryStateIsReached(kind, decode, ops);
    EveryStateIsReached(kind, decode, ops + later);
    hide After, ExitError, ExitSummary;
  }

  /** Once the command has ended, `Status` is done, except after a failed restore whose stderr is a non-empty run of
      newlines: that one is never done. */
  lemma FinishedIsDone(kind: Kind, decode: R.Decoder, ops: seq<Op>)
    requires After(kind, decode, ops).exited.Some?
    ensures var p := After(kind, decode, ops).exited.value;
            IsDone(After(kind, decode, ops))
            <==> !(kind == Restore && !p.exitOk && p.stderr != "" && AllEqual(p.stderr, '\n'))
  {
    EveryStateIsReached(kind, decode, ops);
    R.StdErrIsExact(After(kind, decode, ops).exited.value.stderr);
    hide After, R.ParseStdErr, R.GetSummary;
  }

  /** When starting never failed, a success is reported exactly for a command that ended well and, for a backup, ended
      its output with a summary. */
  lemma OutcomeIsRight(kind: Kind, decode: R.Decoder, ops: seq<Op>)
    requires StartedCleanly(ops)
    ensures var s := After(kind, decode, ops);
            IsSuccess(s) <==> s.exited.Some? && s.exited.value.exitOk && ExitSummary(kind, decode, s.exited.value).Ok?
  {
    EveryStateIsReached(kind, decode, ops);
    hide After, ExitError, ExitSummary;
  }

  /** Once a backup is reported as done without error, its snapshot id and its size are those of the last summary it has
      printed, and its progress is full. */
  lemma BackupReportsItsSummary(decode: R.Decoder, ops: seq<Op>, progress: string -> Option<R.Progress>, stdoutSoFar: string)
    requires IsSuccess(After(Backup, decode, ops))
    ensures var s := After(Backup, decode, ops);
            var r := StatusOf(Backup, progress, s, stdoutSoFar);
            s.exited.Some? && exists i: nat ::
              var lines := Split(s.exited.value.stdout, '\n');
              && R.LastSummaryAt(decode, lines, i) && r.done && r.error.None? && r.progressPercentage == 100.0
              && decode(lines[i]).Some? && r.snapshotID == decode(lines[i]).value.snapshotID
              && r.totalBytes == r.totalBytesProcessed == decode(lines[i]).value.totalBytesProcessed
  {
    EveryStateIsReached(Backup, decode, ops);
    var s := After(Backup, decode, ops);
    R.SummaryIsExact(decode, s.exited.value.stdout);
    hide After, ExitError, R.GetSummary;
  }

  /** A command that failed is reported as done, with the cause in its last line that is not empty, and nothing else. */
  lemma FailureReportsItsCause(
      kind: Kind, decode: R.Decoder, ops: seq<Op>, progress: string -> Option<R.Progress>, stdoutSoFar: string, i: nat)
    requires var s := After(kind, decode, ops);
             && s.exited.Some? && !s.exited.value.exitOk
             && R.LastNonEmptyAt(Split(s.exited.value.stderr, '\n'), i)
    ensures var s := After(kind, decode, ops);
            StatusOf(kind, progress, s, stdoutSoFar) == Failed(Some(R.Classify(Split(s.exited.value.stderr, '\n')[i])))
  {
    EveryStateIsReached(kind, decode, ops);
    var p := After(kind, decode, ops).exited.value;
    R.StdErrIsExact(p.stderr);
    hide After, R.ParseStdErr, R.Classify, R.GetProgress, R.GetSummary;
  }

  /** While nothing is decided, only a backup reports progress: that of the last line it has completed, which must decode. */
  lemma RunningReportsProgress(kind: Kind, progress: string -> Option<R.Progress>, s: State, stdoutSoFar: string)
    requires !IsDone(s)
    ensures var r, lines := StatusOf(kind, progress, s, stdoutSoFar), Split(stdoutSoFar, '\n');
            var line := if |lines| > 2 then progress(lines[|lines| - 2]) else None;
            && !r.done && r.snapshotID == ""
            && (kind != Backup ==> r == RUNNING)
            && (kind == Backup ==>
                  if line.Some? && line.value.messageType != "" then
                    && r.error.None? && r.progressPercentage == line.value.percentDone * 100.0
                    && r.totalBytes == line.value.totalBytes && r.totalBytesProcessed == line.value.bytesDone
                  else r.error.Some? && r.progressPercentage == 0.0 && r.totalBytes == 0 && r.totalBytesProcessed == 0)
  {
  }

  // ---------------------------------------------------------------- the executors themselves

  class ResticExecutor {
    const kind: Kind
    const decode: R.Decoder
    var lastError: Option<ExecError>
    var summaryResponse: Option<R.Summary>
    var isRunning: bool
    var started: nat
    var exited: Option<Process>

    constructor (kind: Kind, decode: R.Decoder)
      ensures Now() == INITIAL && this.kind == kind && this.decode == decode
    {
      this.kind, this.decode := kind, decode;
      lastError, summaryResponse, isRunning, started, exited := None, None, false, 0, None;
    }

    function Now(): State
      reads this
    {
      State(lastError, summaryResponse, isRunning, started, exited)
    }

    method Run(startErr: Option<string>) returns (err: Option<string>)
      modifies this
      ensures Now() == Next(kind, decode, old(Now()), Op.Run(startErr))
      ensures err.None? <==> started == old(started) + 1
    {
      if isRunning {
        return Some("another operation is already running");
      }
      if startErr.Some? {
        lastError := Some(StartFailed(startErr.value));
        return startErr;
      }
      started := started + 1;
      isRunning := true;
      return None;
    }

    /** The waiter, once the command has ended. */
    method Exit(p: Process)
      requires isRunning && exited.None?
      modifies this
      ensures Now() == Next(kind, decode, old(Now()), Op.Exit(p))
    {
      exited := Some(p);
      if !p.exitOk {
        lastError := Some(CommandFailed("failed to run the command"));
        if kind == Restore {
          if |p.stderr| > 0 {
            lastError := R.FindError(p.stderr);
          }
        } else {
          var found := R.FindError(p.stderr);
          if found.Some? {
            lastError := found;
          }
        }
        return;
      }
      var found: Result<R.Summary> := Ok(EMPTY_SUMMARY);
      if kind == Backup {
        found := R.FindSummary(decode, p.stdout);
      }
      match found {
        case Err(msg) => lastError := Some(SummaryRejected(msg));
        case Ok(summary) => summaryResponse := Some(summary);
      }
    }

    method Status(progress: string -> Option<R.Progress>, stdoutSoFar: string) returns (s: ExecStatus)
      ensures s == StatusOf(kind, progress, Now(), stdoutSoFar)
      ensures s.done <==> IsDone(Now())
    {
      StatusReportsState(kind, progress, Now(), stdoutSoFar);
      if lastError.Some? {
        return Failed(lastError);
      }
      if summaryResponse.Some? {
        match kind {
          case Backup =>
            var bytes := summaryResponse.value.totalBytesProcessed;
            return ExecStatus(true, None, 100.0, bytes, bytes, summaryResponse.value.snapshotID);
          case Init => return FINISHED;
          case Restore => return FINISHED.(progressPercentage := 100.0);
        }
      }
      if kind != Backup {
        return RUNNING;
      }
      match R.GetProgress(progress, stdoutSoFar) {
        case Err(msg) => return RUNNING.(error := Some(SummaryRejected(msg)));
        case Ok(p) => return ExecStatus(false, None, p.percentDone * 100.0, p.totalBytes, p.bytesDone, "");
      }
    }
  }
}
