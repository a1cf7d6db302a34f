/** The executors of kopia commands. `Run` starts the command and a waiter goroutine; the waiter and a polling
    `Status` share plain fields, without a lock. Every single field read and write is a step of its own here. */
module KopiaExecutors {
  import opened Wrappers
  import opened Text
  import opened ExecutorApi

  datatype Kind = Backup | Connect | Create | Compression | Restore | Delete | Maintenance | GlobalPolicy

  /** One snapshot entry as `kopia snapshot create --json` prints it. */
  datatype BackupSummary = BackupSummary(id: string, totalFileSize: nat, fatalErrorCount: int)

  type Decoder = string -> Option<BackupSummary>

  const ALREADY_EXISTS_MSG := "found existing data in storage location"
  const INITIALIZED_MSG := "Kopia will perform quick maintenance"
  const CONNECTED_MSG := "Connected to repository"

  /** Only the first line counts; it must decode, name a snapshot and report no fatal error. */
  function GetBackupSummary(decode: Decoder, stdout: string): Result<BackupSummary> {
    match decode(Split(stdout, '\n')[0])
    case None => Err("failed to parse backup summary")
    case Some(summary) =>
      if summary.id == "" then Err("failed to backup as snapshot ID is not present")
      else if summary.fatalErrorCount != 0 then Err("failed to backup as FatalErrorCount is not zero")
      else Ok(summary)
  }

  /** A backup's output is accepted exactly when what stands before its first newline is the summary of a snapshot that has an
      id and no fatal errors; whatever comes after it plays no part. */
  lemma SummaryIsTheFirstLine(decode: Decoder, stdout: string, n: nat)
    requires n <= |stdout| && '\n' !in stdout[..n] && (n < |stdout| ==> stdout[n] == '\n')
    ensures var line, r := decode(stdout[..n]), GetBackupSummary(decode, stdout);
            && (r.Ok? <==> line.Some? && line.value.id != "" && line.value.fatalErrorCount == 0)
            && (r.Ok? ==> r.value == line.value)
  {
    FirstPart(stdout, '\n', n);
  }

  function ParseStdErr(stderr: string): ExecError {
    if exists line :: line in Split(stderr, '\n') && Contains(line, ALREADY_EXISTS_MSG) then RepositoryAlreadyExists
    else CommandFailed("error while creating repository: " + stderr)
  }

  /** A failed create is put down to a repository that is there already exactly when its stderr says so, wherever. */
  lemma AlreadyExistsExactly(stderr: string)
    ensures ParseStdErr(stderr) == RepositoryAlreadyExists <==> exists i: nat :: Occurs(stderr, ALREADY_EXISTS_MSG, i)
    ensures ParseStdErr(stderr) != RepositoryAlreadyExists ==> ParseStdErr(stderr).CommandFailed?
  {
    MessageIsOneLine();
    ContainedInOnePart(stderr, '\n', ALREADY_EXISTS_MSG);
    ContainsMeansOccurs(stderr, ALREADY_EXISTS_MSG);
    hide Contains, Occurs;
  }

  lemma MessageIsOneLine()
    ensures '\n' !in ALREADY_EXISTS_MSG
  {
  }

  // ---------------------------------------------------------------- the shared fields

  datatype Fields = Fields(lastError: Option<ExecError>, summary: Option<BackupSummary>, isRunning: bool)

  datatype FieldWrite = SetError(error: ExecError) | SetSummary(summary: BackupSummary) | ClearRunning

  function Apply(f: Fields, w: FieldWrite): Fields {
    match w
    case SetError(e) => f.(lastError := Some(e))
    case SetSummary(s) => f.(summary := Some(s))
    case ClearRunning => f.(isRunning := false)
  }

  const NEW_FIELDS := Fields(None, None, false)

  predicate HasRunningFlag(kind: Kind) {
    kind in {Compression, Restore, Delete, Maintenance}
  }

  predicate HasSummary(kind: Kind) {
    kind in {Backup, Connect, Create}
  }

  const REPOSITORY_READY := BackupSummary("", 0, 0)

  /** What the waiter writes once the command has ended, in order. */
  function WaiterWrites(kind: Kind, decode: Decoder, p: Process): seq<FieldWrite> {
    var failed := SetError(CommandFailed(p.stderr));
    match kind
    case Backup =>
      if !p.exitOk then [failed]
      else (match GetBackupSummary(decode, p.stdout)
            case Err(msg) => [SetError(SummaryRejected(msg))]
            case Ok(summary) => [SetSummary(summary)])
    case Connect =>
      if !p.exitOk then [failed]
      else if Contains(p.stderr, CONNECTED_MSG) then [SetSummary(REPOSITORY_READY)]
      else [SetError(SummaryRejected("failed to connect to repository"))]
    case Create =>
      if !p.exitOk then [failed, SetError(ParseStdErr(p.stderr))]
      else if Contains(p.stderr, INITIALIZED_MSG) then [SetSummary(REPOSITORY_READY)]
      else [SetError(SummaryRejected("failed to create repository"))]
    case Compression => if p.exitOk then [ClearRunning] else [failed]
    case Restore => if p.exitOk then [ClearRunning] else [failed]
    case Delete => if p.exitOk then [ClearRunning] else [failed, ClearRunning]
    case Maintenance => if p.exitOk then [ClearRunning] else [failed, ClearRunning]
    case GlobalPolicy => if p.exitOk then [] else [failed]
  }

  function FieldsAfter(base: Fields, writes: seq<FieldWrite>): Fields {
    if writes == [] then base else Apply(FieldsAfter(base, writes[..|writes| - 1]), writes[|writes| - 1])
  }

  /** The fields when `Run` has returned nil and the command has not ended. */
  function StartedFields(kind: Kind): Fields {
    NEW_FIELDS.(isRunning := HasRunningFlag(kind))
  }

  /** What the command has to have done for its success to be a real one. */
  predicate Accepted(kind: Kind, decode: Decoder, p: Process) {
    && p.exitOk
    && (kind == Backup ==> GetBackupSummary(decode, p.stdout).Ok?)
    && (kind == Connect ==> Contains(p.stderr, CONNECTED_MSG))
    && (kind == Create ==> Contains(p.stderr, INITIALIZED_MSG))
  }

  function SummaryStatus(kind: Kind, s: BackupSummary): ExecStatus {
    if kind == Backup then ExecStatus(true, None, 100.0, s.totalFileSize, s.totalFileSize, s.id) else FINISHED
  }

  /** `Status` reads `lastError`, then the summary or the flag, and reads `lastError` once more to report it;
      `f1`, `f2` and `f3` are the fields at those moments. `restored` is the size found in the restore's stderr. */
  function Observed(kind: Kind, f1: Fields, f2: Fields, f3: Fields, restored: nat): ExecStatus {
    if f1.lastError.Some? then Failed(f2.lastError)
    else if HasSummary(kind) then
      match f2.summary
      case Some(s) => SummaryStatus(kind, s)
      case None => RUNNING.(error := if kind == Create then f3.lastError else None)
    else if HasRunningFlag(kind) && f2.isRunning then RUNNING
    else if kind == Restore then FINISHED.(totalBytes := restored, totalBytesProcessed := restored)
    else FINISHED
  }

  /** The same reads, when the waiter has done `n1`, then `n2`, then `n3` of its writes. */
  function ObservedAfter(kind: Kind, writes: seq<FieldWrite>, n1: nat, n2: nat, n3: nat, restored: nat): ExecStatus
    requires n1 <= n2 <= n3 <= |writes|
  {
    var base := StartedFields(kind);
    Observed(kind, FieldsAfter(base, writes[..n1]), FieldsAfter(base, writes[..n2]), FieldsAfter(base, writes[..n3]), restored)
  }

  // ---------------------------------------------------------------- verdicts under every interleaving

  lemma FieldsAfterOne(base: Fields, w: FieldWrite)
    ensures FieldsAfter(base, [w]) == Apply(base, w)
  {
    assert [w][..0] == [];
  }

  /** The waiter writes at most twice, so these are all the states the fields go through. */
  lemma FieldsAfterAtMostTwo(base: Fields, writes: seq<FieldWrite>, n: nat)
    requires n <= |writes| <= 2
    ensures n == 0 ==> FieldsAfter(base, writes[..n]) == base
    ensures n == 1 ==> FieldsAfter(base, writes[..n]) == Apply(base, writes[0])
    ensures n == 2 ==> FieldsAfter(base, writes[..n]) == Apply(Apply(base, writes[0]), writes[1])
  {
    if n == 1 {
      assert writes[..1] == [writes[0]];
      FieldsAfterOne(base, writes[0]);
    } else if n == 2 {
      assert writes[..2][..1] == [writes[0]];
      FieldsAfterOne(base, writes[0]);
    }
  }

  /** A success seen by `Status`, however its reads interleave with the waiter, is a real one: the command has ended
      well and its output was accepted. A backup's status then carries the accepted summary. */
  lemma NoFalseSuccess(kind: Kind, decode: Decoder, p: Process, n1: nat, n2: nat, n3: nat, restored: nat)
    requires n1 <= n2 <= n3 <= |WaiterWrites(kind, decode, p)|
    requires kind !in {Delete, Maintenance, GlobalPolicy}
    ensures var s := ObservedAfter(kind, WaiterWrites(kind, decode, p), n1, n2, n3, restored);
            && (Success(s) <==> Accepted(kind, decode, p) && n2 == |WaiterWrites(kind, decode, p)|)
            && (Success(s) && kind == Backup ==> s == SummaryStatus(Backup, GetBackupSummary(decode, p.stdout).value))
  {
    var writes := WaiterWrites(kind, decode, p);
    FieldsAfterAtMostTwo(StartedFields(kind), writes, n1);
    FieldsAfterAtMostTwo(StartedFields(kind), writes, n2);
    hide Contains, ParseStdErr, GetBackupSummary, FieldsAfter;
  }

  /** Delete and maintenance clear the flag after a failure too: they report a failed command as done without error
      exactly when the waiter does both its writes between the two reads of one `Status`. */
  lemma FalseSuccessWindow(kind: Kind, decode: Decoder, p: Process, n1: nat, n2: nat, n3: nat, restored: nat)
    requires n1 <= n2 <= n3 <= |WaiterWrites(kind, decode, p)|
    requires kind in {Delete, Maintenance}
    ensures Success(ObservedAfter(kind, WaiterWrites(kind, decode, p), n1, n2, n3, restored)) && !p.exitOk
            <==> !p.exitOk && n1 == 0 && n2 == 2
  {
    FieldsAfterAtMostTwo(StartedFields(kind), WaiterWrites(kind, decode, p), n1);
    FieldsAfterAtMostTwo(StartedFields(kind), WaiterWrites(kind, decode, p), n2);
    hide FieldsAfter;
  }

  /** Once the waiter is through, every executor but the policy one reports the command's true outcome. */
  lemma FinishedStatusIsRight(kind: Kind, decode: Decoder, p: Process, restored: nat)
    ensures var writes := WaiterWrites(kind, decode, p);
            var s := ObservedAfter(kind, writes, |writes|, |writes|, |writes|, restored);
            && s.done && (s.error.None? <==> Accepted(kind, decode, p))
            && (!p.exitOk ==> s.error == Some(if kind == Create then ParseStdErr(p.stderr) else CommandFailed(p.stderr)))
            && (p.exitOk && s.error.Some? ==> s.error.value.SummaryRejected?)
  {
    var writes := WaiterWrites(kind, decode, p);
    FieldsAfterAtMostTwo(StartedFields(kind), writes, |writes|);
    hide Contains, ParseStdErr, GetBackupSummary, FieldsAfter;
  }

  /** While the command runs nothing is reported as done, except by the policy executor, which always is. */
  lemma RunningCommandIsNotDone(kind: Kind, restored: nat)
    ensures ObservedAfter(kind, [], 0, 0, 0, restored).done <==> kind == GlobalPolicy
  {
    FieldsAfterAtMostTwo(StartedFields(kind), [], 0);
  }

  /** A done verdict of the executors without a false-success window is never taken back by a later `Status`. */
  lemma VerdictIsStable(kind: Kind, decode: Decoder, p: Process, n1: nat, n2: nat, n3: nat, m1: nat, m2: nat, m3: nat,
                        restored: nat)
    requires n1 <= n2 <= n3 <= m1 <= m2 <= m3 <= |WaiterWrites(kind, decode, p)|
    requires kind !in {Delete, Maintenance, GlobalPolicy}
    requires ObservedAfter(kind, WaiterWrites(kind, decode, p), n1, n2, n3, restored).done
    ensures var was := ObservedAfter(kind, WaiterWrites(kind, decode, p), n1, n2, n3, restored);
            var now := ObservedAfter(kind, WaiterWrites(kind, decode, p), m1, m2, m3, restored);
            now.done && (Success(was) <==> Success(now))
  {
    var writes := WaiterWrites(kind, decode, p);
    FieldsAfterAtMostTwo(StartedFields(kind), writes, n1);
    FieldsAfterAtMostTwo(StartedFields(kind), writes, n2);
    FieldsAfterAtMostTwo(StartedFields(kind), writes, m1);
    FieldsAfterAtMostTwo(StartedFields(kind), writes, m2);
    hide Contains, ParseStdErr, GetBackupSummary, FieldsAfter;
  }

  /** Only a backup's success carries a snapshot id or progress. */
  lemma StatusShape(kind: Kind, writes: seq<FieldWrite>, n1: nat, n2: nat, n3: nat, restored: nat)
    requires n1 <= n2 <= n3 <= |writes|
    ensures var s := ObservedAfter(kind, writes, n1, n2, n3, restored);
            (kind == Backup && Success(s)) || (s.progressPercentage == 0.0 && s.snapshotID == "")
  {
    hide FieldsAfter;
  }

  // ---------------------------------------------------------------- the executors themselves

  datatype Event = Exits(p: Process) | WaiterGoesOn

  /** How a started command has ended, if it has, and how many of the waiter's writes are done. */
  datatype Life = Life(exit: Option<Process>, done: nat)

  const NEW_LIFE := Life(None, 0)

  function WritesOf(kind: Kind, decode: Decoder, exit: Option<Process>): seq<FieldWrite> {
    if exit.Some? then WaiterWrites(kind, decode, exit.value) else []
  }

  function Happen(kind: Kind, decode: Decoder, l: Life, e: Event): (r: Life)
    requires l.done <= |WritesOf(kind, decode, l.exit)|
    ensures l.done <= r.done <= |WritesOf(kind, decode, r.exit)|
  {
    match e
    case Exits(p) => if l.exit.None? then Life(Some(p), 0) else l
    case WaiterGoesOn => if l.done < |WritesOf(kind, decode, l.exit)| then l.(done := l.done + 1) else l
  }

  function GoOn(kind: Kind, decode: Decoder, l: Life, events: seq<Event>): (r: Life)
    requires l.done <= |WritesOf(kind, decode, l.exit)|
    ensures l.done <= r.done <= |WritesOf(kind, decode, r.exit)|
  {
    if events == [] then l
    else Happen(kind, decode, GoOn(kind, decode, l, events[..|events| - 1]), events[|events| - 1])
  }

  /** What a `Status` call reports, given what happens before its second and before its third read. */
  function SeenBy(kind: Kind, decode: Decoder, l: Life, beforeSecond: seq<Event>, beforeThird: seq<Event>, restored: nat): ExecStatus
    requires l.done <= |WritesOf(kind, decode, l.exit)|
  {
    var second := GoOn(kind, decode, l, beforeSecond);
    var third := GoOn(kind, decode, second, beforeThird);
    ObservedAfter(kind, WritesOf(kind, decode, third.exit), l.done, second.done, third.done, restored)
  }

  lemma NothingGoesOn(kind: Kind, decode: Decoder, l: Life)
    requires l.done <= |WritesOf(kind, decode, l.exit)|
    ensures GoOn(kind, decode, l, []) == l
  {
  }

  lemma OneMoreEvent(kind: Kind, decode: Decoder, l: Life, events: seq<Event>, k: nat)
    requires l.done <= |WritesOf(kind, decode, l.exit)| && k < |events|
    ensures GoOn(kind, decode, l, events[..k + 1]) == Happen(kind, decode, GoOn(kind, decode, l, events[..k]), events[k])
  {
    assert events[..k + 1][..k] == events[..k];
  }

  class KopiaExecutor {
    const kind: Kind
    const decode: Decoder
    var lastError: Option<ExecError>
    var summary: Option<BackupSummary>
    var isRunning: bool
    var queue: seq<FieldWrite> // what the waiter has still to write
    var started: bool
    var exit: Option<Process>

    constructor (kind: Kind, decode: Decoder)
      ensures Valid() && this.kind == kind && this.decode == decode && !started && Now() == NEW_FIELDS && fresh(this)
    {
      this.kind, this.decode := kind, decode;
      lastError, summary, isRunning, queue, started, exit := None, None, false, [], false, None;
    }

    function Now(): Fields
      reads this
    {
      Fields(lastError, summary, isRunning)
    }

    ghost function Writes(): seq<FieldWrite>
      reads this
    {
      WritesOf(kind, decode, exit)
    }

    ghost function Done(): int
      reads this
    {
      |Writes()| - |queue|
    }

    ghost function SoFar(): Life
      requires 0 <= Done()
      reads this
    {
      Life(exit, Done())
    }

    /** After a successful `Run` the fields are what the waiter has written so far. */
    ghost predicate Valid()
      reads this
    {
      && 0 <= Done() && queue == Writes()[Done()..]
      && (!started ==> exit.None?)
      && (started ==> Now() == FieldsAfter(StartedFields(kind), Writes()[..Done()]))
    }

    method Run(startErr: Option<string>) returns (err: Option<ExecError>)
      requires Valid() && !started && Now() == NEW_FIELDS
      modifies this
      ensures Valid() && started == startErr.None? && exit.None?
      ensures err == (if startErr.Some? then Some(StartFailed(startErr.value)) else None)
      ensures startErr.Some? ==> lastError == err
      ensures SoFar() == NEW_LIFE
    {
      if startErr.Some? {
        lastError := Some(StartFailed(startErr.value));
        return lastError;
      }
      isRunning := HasRunningFlag(kind);
      started := true;
      return None;
    }

    /** The waiter writes one field. */
    method Write()
      requires Valid() && started && queue != []
      modifies this
      ensures Valid() && started && exit == old(exit) && Done() == old(Done()) + 1
    {
      hide WaiterWrites;
      ghost var n, all := Done(), Writes();
      assert queue == all[n..] && queue[0] == all[n];
      match queue[0] {
        case SetError(e) => lastError := Some(e);
        case SetSummary(s) => summary := Some(s);
        case ClearRunning => isRunning := false;
      }
      queue := queue[1..];
      assert all[..n + 1][..n] == all[..n];
    }

    /** The command ends, or its waiter writes one field. */
    method Let(e: Event)
      requires Valid() && started
      modifies this
      ensures Valid() && started
      ensures SoFar() == Happen(kind, decode, old(SoFar()), e)
      ensures exit != old(exit) ==> old(exit.None?) && exit.Some? && e == Exits(exit.value)
    {
      hide WaiterWrites, FieldsAfter;
      match e {
        case Exits(p) =>
          if exit.None? {
            queue := WaiterWrites(kind, decode, p);
            exit := Some(p);
          }
        case WaiterGoesOn =>
          if queue != [] {
            Write();
          }
      }
    }

    /** What happens between two reads of a `Status` call. */
    method Proceed(events: seq<Event>)
      requires Valid() && started
      modifies this
      ensures Valid() && started
      ensures SoFar() == GoOn(kind, decode, old(SoFar()), events)
      ensures exit != old(exit) ==> old(exit.None?) && exit.Some? && Exits(exit.value) in events
      ensures old(Done()) <= Done() && old(Done()) <= |Writes()|
      ensures events == [] ==> Done() == old(Done())
    {
      hide Happen, WritesOf;
      ghost var was := SoFar();
      NothingGoesOn(kind, decode, was);
      for k := 0 to |events|
        invariant Valid() && started && 0 <= Done()
        invariant SoFar() == GoOn(kind, decode, was, events[..k])
        invariant exit != old(exit) ==> old(exit.None?) && exit.Some? && Exits(exit.value) in events
      {
        OneMoreEvent(kind, decode, was, events, k);
        assert events[k] in events;
        Let(events[k]);
      }
      assert events[..|events|] == events;
    }

    method Status(beforeSecond: seq<Event>, beforeThird: seq<Event>, restored: nat)
      returns (s: ExecStatus, ghost n1: nat, ghost n2: nat)
      requires Valid() && started
      modifies this
      ensures Valid() && started && (exit == old(exit) || old(exit.None?))
      ensures exit != old(exit) ==> exit.Some? && (Exits(exit.value) in beforeSecond || Exits(exit.value) in beforeThird)
      ensures n1 == old(Done()) <= n2 <= Done() <= |Writes()|
      ensures beforeSecond == [] ==> n1 == n2
      ensures s == ObservedAfter(kind, Writes(), n1, n2, Done(), restored)
      ensures s == SeenBy(kind, decode, old(SoFar()), beforeSecond, beforeThird, restored)
      ensures SoFar() == GoOn(kind, decode, GoOn(kind, decode, old(SoFar()), beforeSecond), beforeThird)
    {
      hide WaiterWrites, FieldsAfter;
      n1 := Done();
      ghost var first := Now();
      var failed := lastError.Some?;
      Proceed(beforeSecond);
      n2 := Done();
      ghost var second := Now();
      var error, summary', running := lastError, summary, isRunning;
      Proceed(beforeThird);
      assert first == FieldsAfter(StartedFields(kind), Writes()[..n1]);
      assert second == FieldsAfter(StartedFields(kind), Writes()[..n2]);
      if failed {
        s := Failed(error);
      } else if HasSummary(kind) {
        match summary' {
          case Some(found) => s := SummaryStatus(kind, found);
          case None => s := RUNNING.(error := if kind == Create then lastError else None);
        }
      } else if HasRunningFlag(kind) && running {
        s := RUNNING;
      } else if kind == Restore {
        s := FINISHED.(totalBytes := restored, totalBytesProcessed := restored);
      } else {
        s := FINISHED;
      }
    }
  }
}
