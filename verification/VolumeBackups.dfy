/** The VolumeBackup an executor pod keeps up to date while it runs a kopia backup, over any number of pod restarts. */
module VolumeBackups {
  import opened Wrappers
  import opened KdmpApi
  import opened Naming
  import opened Text
  import opened ExecutorApi
  import opened KopiaExecutors

  function ErrorText(e: ExecError): string {
    match e
    case StartFailed(msg) => "failed to start: " + msg
    case CommandFailed(msg) => "failed to run: " + msg
    case SummaryRejected(msg) => "rejected: " + msg
    case RepositoryAlreadyExists => ALREADY_EXISTS_MSG
    case ResticFatal(msg) => "fatal: " + msg
  }

  function StatusWritten(s: ExecStatus): VolumeBackupStatus {
    VolumeBackupStatus(s.progressPercentage, s.totalBytes, s.totalBytesProcessed, s.snapshotID,
                       if s.error.Some? then ErrorText(s.error.value) else "")
  }

  function SummaryWritten(s: BackupSummary): VolumeBackupStatus {
    VolumeBackupStatus(100.0, s.totalFileSize, s.totalFileSize, s.id, "")
  }

  /** The stored status says, field by field, what the poll said; its error text is there exactly if the poll carried an
      error. */
  predicate Reports(st: VolumeBackupStatus, s: ExecStatus) {
    && st.progressPercentage == s.progressPercentage
    && st.totalBytes == s.totalBytes && st.totalBytesProcessed == s.totalBytesProcessed
    && st.snapshotID == s.snapshotID
    && (st.lastKnownError != "" <==> s.error.Some?)
  }

  lemma ErrorTextIsNotEmpty(e: ExecError)
    ensures ErrorText(e) != ""
  {
  }

  lemma WrittenReports(s: ExecStatus)
    ensures Reports(StatusWritten(s), s)
  {
    hide ErrorText;
    if s.error.Some? {
      ErrorTextIsNotEmpty(s.error.value);
    }
  }

  /** The status is that of a kopia snapshot that did run, ended well and had its summary accepted. */
  ghost predicate Genuine(decode: Decoder, ran: set<Process>, st: VolumeBackupStatus) {
    exists p :: p in ran && Accepted(Backup, decode, p) && st == SummaryWritten(GetBackupSummary(decode, p.stdout).value)
  }

  ghost predicate Sound(decode: Decoder, ran: set<Process>, st: VolumeBackupStatus) {
    if st.snapshotID != "" then Genuine(decode, ran, st) else st.progressPercentage == 0.0
  }

  lemma GenuineIsMonotone(decode: Decoder, ran: set<Process>, more: set<Process>, st: VolumeBackupStatus)
    requires ran <= more
    ensures Genuine(decode, ran, st) ==> Genuine(decode, more, st)
    ensures Sound(decode, ran, st) ==> Sound(decode, more, st)
  {
    hide Accepted, GetBackupSummary;
  }

  /** The stored object, and the `kopia snapshot create` commands that have ended by then. */
  datatype VbState = VbState(vb: Option<VolumeBackup>, ran: set<Process>)

  /** One change of the stored VolumeBackup: the cleanup deletes it, a backup pod creates it, or a backup pod writes its
      status, which never touches a recorded snapshot. */
  ghost predicate VbChange(decode: Decoder, ran: set<Process>, was: Option<VolumeBackup>, now: Option<VolumeBackup>) {
    && (was.None? && now.Some? ==> now.value.status == EMPTY_VOLUME_BACKUP_STATUS)
    && (was.Some? && now.Some? ==>
          && now.value.spec == was.value.spec
          && Sound(decode, ran, now.value.status)
          && (was.value.status.snapshotID != "" ==> now == was))
  }

  /** A command ends, or the object changes, on the strength of the commands that have ended so far. */
  ghost predicate VbStep(decode: Decoder, s: VbState, s': VbState) {
    s.ran <= s'.ran && (s'.vb == s.vb || VbChange(decode, s'.ran, s.vb, s'.vb))
  }

  ghost predicate VbSteps(decode: Decoder, was: seq<VbState>, now: seq<VbState>) {
    && was <= now
    && forall i :: |was| <= i < |now| && i > 0 ==> VbStep(decode, now[i - 1], now[i])
  }

  /** What a poll of the backup executor says about the command behind it. */
  lemma PollVerdict(decode: Decoder, exit: Option<Process>, writes: seq<FieldWrite>, n1: nat, n2: nat, n3: nat)
    requires writes == if exit.Some? then WaiterWrites(Backup, decode, exit.value) else []
    requires n1 <= n2 <= n3 <= |writes|
    ensures var s := ObservedAfter(Backup, writes, n1, n2, n3, 0);
            && (Success(s) <==> exit.Some? && Accepted(Backup, decode, exit.value) && n2 == |writes|)
            && (Success(s) ==> StatusWritten(s) == SummaryWritten(GetBackupSummary(decode, exit.value.stdout).value))
            && (!Success(s) ==> s.progressPercentage == 0.0 && s.snapshotID == "" && (s.done ==> s.error.Some?))
  {
    if exit.Some? {
      NoFalseSuccess(Backup, decode, exit.value, n1, n2, n3, 0);
    } else {
      RunningCommandIsNotDone(Backup, 0);
    }
    StatusShape(Backup, writes, n1, n2, n3, 0);
    hide ObservedAfter, WaiterWrites, GetBackupSummary;
  }

  lemma AcceptedSummaryHasId(decode: Decoder, p: Process)
    requires Accepted(Backup, decode, p)
    ensures GetBackupSummary(decode, p.stdout).Ok? && GetBackupSummary(decode, p.stdout).value.id != ""
  {
  }

  lemma PollIsSound(
      decode: Decoder, exit: Option<Process>, ran: set<Process>, writes: seq<FieldWrite>, n1: nat, n2: nat, n3: nat)
    requires writes == if exit.Some? then WaiterWrites(Backup, decode, exit.value) else []
    requires n1 <= n2 <= n3 <= |writes| && (exit.Some? ==> exit.value in ran)
    ensures var s := ObservedAfter(Backup, writes, n1, n2, n3, 0);
            Sound(decode, ran, StatusWritten(s)) && (Success(s) ==> s.snapshotID != "")
  {
    PollVerdict(decode, exit, writes, n1, n2, n3);
    hide ObservedAfter, WaiterWrites, GetBackupSummary, Accepted;
    if Success(ObservedAfter(Backup, writes, n1, n2, n3, 0)) {
      AcceptedSummaryHasId(decode, exit.value);
    }
  }

  /** The command has done its work: it was accepted, or the repository to create was there already. The policy executor
      does not wait for its command. */
  ghost predicate Effective(kind: Kind, decode: Decoder, exit: Option<Process>) {
    || kind == GlobalPolicy
    || (exit.Some? && Accepted(kind, decode, exit.value))
    || (exit.Some? && kind == Create && !exit.value.exitOk && ParseStdErr(exit.value.stderr) == RepositoryAlreadyExists)
  }

  lemma SuccessIsEffective(
      kind: Kind, decode: Decoder, exit: Option<Process>, writes: seq<FieldWrite>, n1: nat, n2: nat, n3: nat)
    requires kind in {Create, Connect, Compression, GlobalPolicy}
    requires writes == if exit.Some? then WaiterWrites(kind, decode, exit.value) else []
    requires n1 <= n2 <= n3 <= |writes|
    ensures Success(ObservedAfter(kind, writes, n1, n2, n3, 0)) ==> Effective(kind, decode, exit)
  {
    if exit.Some? && kind != GlobalPolicy {
      NoFalseSuccess(kind, decode, exit.value, n1, n2, n3, 0);
    } else if kind != GlobalPolicy {
      RunningCommandIsNotDone(kind, 0);
    }
    hide ObservedAfter, WaiterWrites, ParseStdErr, Contains;
  }

  /** "Already exists" is only ever reported for a create command that said so. */
  lemma ExistingRepositoryIsEffective(
      decode: Decoder, exit: Option<Process>, writes: seq<FieldWrite>, n1: nat, n2: nat, n3: nat)
    requires writes == if exit.Some? then WaiterWrites(Create, decode, exit.value) else []
    requires n1 <= n2 <= n3 <= |writes|
    ensures ObservedAfter(Create, writes, n1, n2, n3, 0).error == Some(RepositoryAlreadyExists) ==> Effective(Create, decode, exit)
  {
    FieldsAfterAtMostTwo(StartedFields(Create), writes, n1);
    FieldsAfterAtMostTwo(StartedFields(Create), writes, n2);
    FieldsAfterAtMostTwo(StartedFields(Create), writes, n3);
    hide ParseStdErr, Contains, FieldsAfter, Accepted;
  }

  /** The bucket's first answer to whether the repository exists. */
  function CheckResult(checks: seq<RepositoryCheck>): Option<bool> {
    if checks == [] then None
    else if checks[0].CheckAnswered? then Some(checks[0].repositoryExists)
    else CheckResult(checks[1..])
  }

  /** The commands of a backup, in order; none without credentials or without an answer from the bucket. */
  function Commands(r: PodRun): seq<Kind> {
    if r.credentialErr.Some? || CheckResult(r.checks).None? then [] else Prepared(r) + [Backup]
  }

  function Prepared(r: PodRun): seq<Kind> {
    Ensured(r) + [Connect] + (if r.compression.Some? then [Compression] else [])
  }

  function Ensured(r: PodRun): seq<Kind> {
    if CheckResult(r.checks) == Some(false) then [Create, GlobalPolicy] else []
  }

  lemma EarlierCommandsComeFirst(r: PodRun, ran: seq<Kind>)
    ensures [] <= Commands(r) && Prepared(r) != []
    ensures r.credentialErr.None? && ran <= Ensured(r) ==> ran <= Commands(r)
    ensures r.credentialErr.None? && CheckResult(r.checks).Some? && ran <= Prepared(r) ==> ran <= Commands(r)
  {
  }

  /** What happens to one attempt to write the status. */
  datatype WriteFate = Removed | GetFailed | Refused | AnswerLost | Written

  /** What one status write adds to the history of the object. */
  function WrittenStates(was: VbState, name: string, s: ExecStatus, fate: WriteFate): seq<VbState> {
    if name == "" then []
    else if fate == Removed then [was.(vb := None)]
    else if was.vb.Some? && fate in {AnswerLost, Written} then
      [was.(vb := Some(was.vb.value.(status := StatusWritten(s))))]
    else []
  }

  /** One poll of an executor: what it reported, what happened to its write if the loop writes it, and the snapshot commands
      ended by then. */
  datatype Poll = Poll(status: ExecStatus, written: Option<WriteFate>, ran: set<Process>)

  /** Polls that do not remove the object leave it there. */
  lemma {:induction false} ObjectStays(states: seq<VbState>, name: string, polls: seq<Poll>)
    requires states != [] && Last(states).vb.Some? && forall p :: p in polls ==> p.written != Some(Removed)
    ensures Last(AfterPolls(states, name, polls)).vb.Some?
    decreases |polls|
  {
    if polls != [] {
      ObjectStays(states, name, polls[..|polls| - 1]);
      assert polls[|polls| - 1] in polls;
    }
    hide StatusWritten;
  }

  function AfterPoll(states: seq<VbState>, name: string, p: Poll): (r: seq<VbState>)
    requires states != []
    ensures r != []
  {
    var ended := if p.ran == Last(states).ran then states else states + [VbState(Last(states).vb, p.ran)];
    if p.written.Some? then ended + WrittenStates(Last(ended), name, p.status, p.written.value) else ended
  }

  /** The history after these polls, each written out, or not, as it says. */
  function AfterPolls(states: seq<VbState>, name: string, polls: seq<Poll>): (r: seq<VbState>)
    requires states != []
    ensures r != []
  {
    if polls == [] then states else AfterPoll(AfterPolls(states, name, polls[..|polls| - 1]), name, polls[|polls| - 1])
  }

  lemma NoPolls(states: seq<VbState>, name: string)
    requires states != []
    ensures AfterPolls(states, name, []) == states
  {
  }

  lemma OneMorePoll(states: seq<VbState>, name: string, polls: seq<Poll>, p: Poll)
    requires states != []
    ensures AfterPolls(states, name, polls + [p]) == AfterPoll(AfterPolls(states, name, polls), name, p)
  {
    assert (polls + [p])[..|polls|] == polls;
  }

  /** The command's life after these turns of polling. */
  function LifeAfter(kind: Kind, decode: Decoder, turns: seq<Turn>): (r: Life)
    ensures r.done <= |WritesOf(kind, decode, r.exit)|
  {
    if turns == [] then NEW_LIFE
    else
      var before, last := LifeAfter(kind, decode, turns[..|turns| - 1]), turns[|turns| - 1];
      GoOn(kind, decode, GoOn(kind, decode, before, last.beforeSecond), last.beforeThird)
  }

  lemma OneMoreTurnLived(kind: Kind, decode: Decoder, turns: seq<Turn>, k: nat)
    requires k < |turns|
    ensures LifeAfter(kind, decode, turns[..k + 1]) ==
            GoOn(kind, decode, GoOn(kind, decode, LifeAfter(kind, decode, turns[..k]), turns[k].beforeSecond), turns[k].beforeThird)
  {
    assert turns[..k + 1][..k] == turns[..k];
  }

  /** What the `k`-th poll of the script's executor comes to; `restored` is the size found in a restore's stderr. */
  function PollAt(kind: Kind, decode: Decoder, script: Script, restored: nat, k: nat): ExecStatus
    requires k < |script.turns|
  {
    var turn, life := script.turns[k], LifeAfter(kind, decode, script.turns[..k]);
    AsWritten(kind, SeenBy(kind, decode, life, turn.beforeSecond, turn.beforeThird, restored))
  }

  /** A poll like this ends its loop. The others take an error for a reason to poll again. */
  predicate Stops(kind: Kind, s: ExecStatus) {
    if kind in {Backup, Restore, Delete} then s.done || s.error.Some? else Success(s)
  }

  /** None of the first `k` polls ends the loop. */
  predicate NoStop(kind: Kind, decode: Decoder, script: Script, restored: nat, k: nat) {
    k <= |script.turns| && forall j :: 0 <= j < k ==> !Stops(kind, PollAt(kind, decode, script, restored, j))
  }

  predicate FirstStop(kind: Kind, decode: Decoder, script: Script, restored: nat, k: nat) {
    k < |script.turns| && Stops(kind, PollAt(kind, decode, script, restored, k)) && NoStop(kind, decode, script, restored, k)
  }

  /** The command starts, and the first poll that ends its loop reports a success. */
  ghost predicate Succeeds(kind: Kind, decode: Decoder, script: Script, restored: nat) {
    && script.startErr.None?
    && exists k: nat :: FirstStop(kind, decode, script, restored, k) && Success(PollAt(kind, decode, script, restored, k))
  }

  /** One more poll: the loop goes on, or this poll decides. */
  lemma NextPollDecides(kind: Kind, decode: Decoder, script: Script, restored: nat, k: nat)
    requires script.startErr.None? && NoStop(kind, decode, script, restored, k) && k < |script.turns|
    ensures var s := PollAt(kind, decode, script, restored, k);
            && (!Stops(kind, s) ==> NoStop(kind, decode, script, restored, k + 1))
            && (Stops(kind, s) ==> (Succeeds(kind, decode, script, restored) <==> Success(s)))
  {
    hide PollAt, Stops;
    if Stops(kind, PollAt(kind, decode, script, restored, k)) {
      assert FirstStop(kind, decode, script, restored, k);
      if j: nat :| FirstStop(kind, decode, script, restored, j) && Success(PollAt(kind, decode, script, restored, j)) {
        assert !(j < k) && !(k < j);
      }
    }
  }

  /** A loop no poll ends fails, and so does one whose command does not start. */
  lemma NoStopFails(kind: Kind, decode: Decoder, script: Script, restored: nat)
    ensures NoStop(kind, decode, script, restored, 0)
    ensures script.startErr.Some? || NoStop(kind, decode, script, restored, |script.turns|) ==>
              !Succeeds(kind, decode, script, restored)
  {
    hide PollAt, Stops;
  }

  /** The executor has been polled in the first `k` turns of its script. */
  ghost predicate Polled(exec: KopiaExecutor, kind: Kind, decode: Decoder, script: Script, k: nat)
    reads exec
  {
    && exec.Valid() && exec.started && exec.kind == kind && exec.decode == decode && k <= |script.turns|
    && exec.SoFar() == LifeAfter(kind, decode, script.turns[..k])
    && (exec.exit.Some? ==> Ended(script, exec.exit.value))
  }

  lemma NotPolledYet(exec: KopiaExecutor, kind: Kind, decode: Decoder, script: Script)
    requires exec.Valid() && exec.started && exec.kind == kind && exec.decode == decode && exec.SoFar() == NEW_LIFE
    ensures Polled(exec, kind, decode, script, 0) && exec.exit.None?
  {
  }

  lemma PolledIsOf(exec: KopiaExecutor, kind: Kind, decode: Decoder, script: Script, k: nat)
    requires Polled(exec, kind, decode, script, k)
    ensures exec.kind == kind && exec.decode == decode && (exec.exit.Some? ==> Ended(script, exec.exit.value))
  {
  }

  /** The poll of one turn, with what the waiter has written by its first two reads. */
  method PollInTurn(exec: KopiaExecutor, kind: Kind, decode: Decoder, script: Script, k: nat, restored: nat)
    returns (s: ExecStatus, ghost n1: nat, ghost n2: nat)
    requires Polled(exec, kind, decode, script, k) && k < |script.turns|
    modifies exec
    ensures Polled(exec, kind, decode, script, k + 1)
    ensures AsWritten(kind, s) == PollAt(kind, decode, script, restored, k)
    ensures n1 == old(exec.Done()) <= n2 <= exec.Done() <= |exec.Writes()|
    ensures script.turns[k].beforeSecond == [] ==> n1 == n2
    ensures s == ObservedAfter(kind, exec.Writes(), n1, n2, exec.Done(), restored)
    ensures exec.exit == old(exec.exit) || old(exec.exit.None?)
  {
    hide AsWritten, ObservedAfter, LifeAfter, GoOn, SeenBy, WaiterWrites, FieldsAfter;
    OneMoreTurnLived(kind, decode, script.turns, k);
    var turn := script.turns[k];
    assert turn in script.turns;
    s, n1, n2 := exec.Status(turn.beforeSecond, turn.beforeThird, restored);
  }

  /** A loop that polls the executor of a script and writes every poll out to the VolumeBackup of this name: creating a
      repository, the backup and the restore. */
  datatype PollLoop = PollLoop(kind: Kind, decode: Decoder, restored: nat, script: Script, name: string)
  {
    /** These are the first polls of the script's executor, each written out in its turn. */
    ghost predicate ArePolls(polls: seq<Poll>) {
      && |polls| <= |script.turns|
      && (forall k :: 0 <= k < |polls| ==> IsPoll(polls[k], k))
    }

    predicate IsPoll(p: Poll, k: nat) {
      k < |script.turns| && p.status == PollAt(kind, decode, script, restored, k) && p.written == Some(script.turns[k].fate)
    }

    lemma PollOfTurn(s: ExecStatus, ran: set<Process>, k: nat)
      requires k < |script.turns| && s == PollAt(kind, decode, script, restored, k)
      ensures IsPoll(Poll(s, Some(script.turns[k].fate), ran), k)
    {
    }

    /** The last of these polls is one to stop at, and the pod knows it to be written. */
    predicate IsOver(start: seq<VbState>, polls: seq<Poll>)
      requires start != []
    {
      && polls != []
      && Stops(kind, polls[|polls| - 1].status)
      && (name == "" || (polls[|polls| - 1].written == Some(Written)
                         && Last(AfterPolls(start, name, polls[..|polls| - 1])).vb.Some?))
    }

    /** The loop had no reason to end at any of these polls. */
    predicate NeverOver(start: seq<VbState>, polls: seq<Poll>)
      requires start != []
    {
      forall n :: 0 <= n <= |polls| ==> !IsOver(start, polls[..n])
    }

    lemma LastIsOver(start: seq<VbState>, polls: seq<Poll>, p: Poll)
      requires start != [] && NeverOver(start, polls)
      ensures var written := name == "" || (p.written == Some(Written) && Last(AfterPolls(start, name, polls)).vb.Some?);
              && (IsOver(start, polls + [p]) <==> Stops(kind, p.status) && written)
              && (!IsOver(start, polls + [p]) ==> NeverOver(start, polls + [p]))
    {
      hide AfterPolls, Stops;
      assert (polls + [p])[..|polls|] == polls;
      forall n | 0 <= n <= |polls| ensures (polls + [p])[..n] == polls[..n] {
      }
      assert (polls + [p])[..|polls| + 1] == polls + [p];
    }

    /** The loop goes on as long as no poll that is over has been written, and no longer, unless its process dies. It fails
        for a command that does not start, for the process's end, and for an error it has written out. */
    ghost predicate Ends(start: seq<VbState>, polls: seq<Poll>, failed: bool, died: bool) {
      && start != [] && (polls != [] ==> NeverOver(start, polls[..|polls| - 1]))
      && (script.startErr.Some? ==> polls == [] && failed && !died)
      && (script.startErr.None? ==> (died <==> !IsOver(start, polls)) && (died ==> failed && |polls| == |script.turns|))
      && (script.startErr.None? && !died ==> polls != [] && (failed <==> polls[|polls| - 1].status.error.Some?))
    }

    lemma EndsNow(start: seq<VbState>, earlier: seq<Poll>, p: Poll)
      requires start != [] && NeverOver(start, earlier) && IsOver(start, earlier + [p]) && script.startErr.None?
      ensures Ends(start, earlier + [p], p.status.error.Some?, false)
    {
      hide IsOver, NeverOver;
      assert (earlier + [p])[..|earlier + [p]| - 1] == earlier;
    }

    lemma IsCut(start: seq<VbState>, polls: seq<Poll>, states: seq<VbState>)
      requires SoFar(start, polls, states) && script.startErr.None? && |polls| == |script.turns|
      ensures Ends(start, polls, true, true)
      ensures ArePolls(polls) && states == AfterPolls(start, name, polls)
    {
      NotOverNow(start, polls);
      hide IsOver, NeverOver;
    }

    lemma NotOverNow(start: seq<VbState>, polls: seq<Poll>)
      requires start != [] && NeverOver(start, polls)
      ensures !IsOver(start, polls)
      ensures polls != [] ==> NeverOver(start, polls[..|polls| - 1])
    {
      hide IsOver;
      assert polls[..|polls|] == polls;
      if polls != [] {
        var front := polls[..|polls| - 1];
        forall n | 0 <= n <= |front| ensures front[..n] == polls[..n] {
        }
      }
    }

    /** What the loop keeps of its polls. */
    ghost predicate SoFar(start: seq<VbState>, polls: seq<Poll>, states: seq<VbState>) {
      start != [] && ArePolls(polls) && states == AfterPolls(start, name, polls) && NeverOver(start, polls)
    }

    lemma OneMoreTurn(start: seq<VbState>, polls: seq<Poll>, p: Poll, before: seq<VbState>, now: seq<VbState>,
                      written: bool)
      requires SoFar(start, polls, before) && |polls| < |script.turns| && script.startErr.None?
      requires IsPoll(p, |polls|)
      requires before != [] && now == AfterPoll(before, name, p)
      requires written <==> name == "" || (p.written == Some(Written) && Last(before).vb.Some?)
      ensures ArePolls(polls + [p]) && now == AfterPolls(start, name, polls + [p])
      ensures if written && Stops(kind, p.status) then
                Ends(start, polls + [p], p.status.error.Some?, false)
              else SoFar(start, polls + [p], now)
    {
      hide IsPoll, IsOver, NeverOver, AfterPoll, AfterPolls, ArePolls, Ends, Stops;
      OneMorePoll(start, name, polls, p);
      OneMoreIsPoll(polls, p);
      LastIsOver(start, polls, p);
      if written && Stops(kind, p.status) {
        EndsNow(start, polls, p);
      }
    }

    lemma NoPollsYet(start: seq<VbState>)
      requires start != []
      ensures ArePolls([]) && SoFar(start, [], start)
      ensures script.startErr.Some? ==> Ends(start, [], true, false)
    {
    }

    lemma OneMoreIsPoll(polls: seq<Poll>, p: Poll)
      requires ArePolls(polls) && |polls| < |script.turns| && IsPoll(p, |polls|)
      ensures ArePolls(polls + [p])
    {
      hide IsPoll;
    }

    /** Nothing goes wrong with the command, and every write lands. */
    ghost predicate IsGood() {
      Succeeds(kind, decode, script, restored) && forall t :: t in script.turns ==> t.fate == Written
    }

    /** Then the loop succeeds, if the object is there at all. */
    lemma GoodLoopSucceeds(start: seq<VbState>, polls: seq<Poll>, failed: bool, died: bool)
      requires IsGood() && start != [] && (name == "" || Last(start).vb.Some?)
      requires ArePolls(polls) && Ends(start, polls, failed, died)
      ensures !failed
    {
      hide PollAt, Stops, AfterPolls;
      var k: nat :| FirstStop(kind, decode, script, restored, k) && Success(PollAt(kind, decode, script, restored, k));
      if polls != [] {
        assert IsPoll(polls[|polls| - 1], |polls| - 1);
        PrefixOfFront(polls);
      }
      if k < |polls| {
        assert polls[..k + 1][..k] == polls[..k] && polls[..k + 1][k] == polls[k] && IsPoll(polls[k], k);
        assert polls[..|polls|] == polls;
        if name != "" {
          forall p | p in polls[..k] ensures p.written != Some(Removed) {
            var j :| 0 <= j < k && polls[j] == p;
            assert IsPoll(polls[j], j);
          }
          ObjectStays(start, name, polls[..k]);
        }
        assert IsOver(start, polls[..k + 1]);
      }
    }

    lemma PrefixOfFront(polls: seq<Poll>)
      requires polls != []
      ensures forall n :: 0 <= n < |polls| ==> polls[..|polls| - 1][..n] == polls[..n]
    {
    }
  }

  class VolumeBackupStore {
    var states: seq<VbState> // every state so far; the last is the current one

    constructor ()
      ensures states == [VbState(None, {})]
    {
      states := [VbState(None, {})];
    }

    function Current(): Option<VolumeBackup>
      requires states != []
      reads this
    {
      states[|states| - 1].vb
    }

    function Ran(): set<Process>
      requires states != []
      reads this
    {
      states[|states| - 1].ran
    }

    predicate Unrecorded()
      requires states != []
      reads this
    {
      Current().None? || Current().value.status.snapshotID == ""
    }

    /** `WriteVolumeBackupStatus`: read, overwrite the whole status, update. */
    method WriteStatus(name: string, s: ExecStatus, fate: WriteFate) returns (failed: bool)
      requires states != []
      modifies this
      ensures states == old(states) + WrittenStates(old(states[|states| - 1]), name, s, fate)
      ensures failed <==> name != "" && (fate != Written || old(Current()).None?)
      // What is stored is what the poll said, its error included.
      ensures name != "" && fate in {AnswerLost, Written} && old(Current()).Some? ==>
                Current().Some? && Reports(Current().value.status, s) && Current().value.spec == old(Current()).value.spec
    {
      hide StatusWritten, Reports;
      WrittenReports(s);
      if name == "" {
        return false;
      }
      if fate == Removed {
        states := states + [VbState(None, Ran())];
      }
      if fate in {Removed, GetFailed} || Current().None? {
        return true;
      }
      var vb := Current().value;
      vb := vb.(status := StatusWritten(s));
      if fate == Refused {
        return true;
      }
      states := states + [VbState(Some(vb), Ran())];
      return fate == AnswerLost;
    }
  }

  function Last(states: seq<VbState>): VbState
    requires states != []
  {
    states[|states| - 1]
  }

  predicate SpecKept(was: Option<VolumeBackup>, now: Option<VolumeBackup>) {
    now.Some? ==> was.Some? && now.value.spec == was.value.spec
  }

  /** Legal changes while no snapshot command ends; the object is not created anew. */
  ghost predicate Quiet(decode: Decoder, was: seq<VbState>, now: seq<VbState>) {
    && was != [] && VbSteps(decode, was, now)
    && Last(now).ran == Last(was).ran && SpecKept(Last(was).vb, Last(now).vb)
  }

  /** Legal changes while the snapshot command of a script may end. */
  ghost predicate Grown(decode: Decoder, script: Script, was: seq<VbState>, now: seq<VbState>) {
    && was != [] && VbSteps(decode, was, now)
    && Last(was).ran <= Last(now).ran && (forall p :: p in Last(now).ran - Last(was).ran ==> Ended(script, p))
    && SpecKept(Last(was).vb, Last(now).vb)
  }

  lemma QuietFromStart(decode: Decoder, states: seq<VbState>)
    requires states != []
    ensures Quiet(decode, states, states)
  {
  }

  lemma QuietComposes(decode: Decoder, was: seq<VbState>, mid: seq<VbState>, now: seq<VbState>)
    requires Quiet(decode, was, mid) && Quiet(decode, mid, now)
    ensures Quiet(decode, was, now)
  {
    hide VbStep;
  }

  lemma UnwrittenPoll(states: seq<VbState>, name: string, p: Poll)
    requires states != [] && p.written.None? && p.ran == Last(states).ran
    ensures AfterPoll(states, name, p) == states
  {
  }

  lemma GrownCompose(decode: Decoder, script: Script, was: seq<VbState>, mid: seq<VbState>, now: seq<VbState>)
    requires Grown(decode, script, was, mid) && Grown(decode, script, mid, now)
    ensures Grown(decode, script, was, now)
  {
    hide VbStep, Ended;
  }

  /** The object was created, and then the pod went on. */
  lemma GrownAfterCreation(decode: Decoder, script: Script, was: seq<VbState>, made: seq<VbState>, now: seq<VbState>)
    requires was != [] && VbSteps(decode, was, made) && Last(made).ran == Last(was).ran && Grown(decode, script, made, now)
    ensures VbSteps(decode, was, now) && Last(was).ran <= Last(now).ran && SpecKept(Last(made).vb, Last(now).vb)
    ensures forall p :: p in Last(now).ran - Last(was).ran ==> Ended(script, p)
  {
    hide VbStep, Ended;
  }

  lemma NothingHappens(decode: Decoder, script: Script, states: seq<VbState>)
    requires states != []
    ensures VbSteps(decode, states, states)
  {
  }

  lemma GrownFromStart(decode: Decoder, script: Script, states: seq<VbState>)
    requires states != []
    ensures Grown(decode, script, states, states)
  {
  }

  lemma GrownByPoll(
      decode: Decoder, script: Script, was: seq<VbState>, mid: seq<VbState>, now: seq<VbState>, exit: Option<Process>)
    requires Grown(decode, script, was, mid) && VbSteps(decode, mid, now) && Last(now).vb == Last(mid).vb
    requires Last(mid).ran <= Last(now).ran <= Last(mid).ran + (if exit.Some? then {exit.value} else {})
    requires exit.Some? ==> Ended(script, exit.value)
    ensures Grown(decode, script, was, now)
  {
    hide VbStep, Ended;
  }

  lemma GrownByWrite(decode: Decoder, script: Script, was: seq<VbState>, mid: seq<VbState>, now: seq<VbState>)
    requires Grown(decode, script, was, mid) && Quiet(decode, mid, now)
    ensures Grown(decode, script, was, now)
  {
    hide VbStep, Ended;
  }

  /** One poll of an executor: what happens during and around the `Status` call, and to the write that follows. */
  datatype Turn = Turn(beforeSecond: seq<Event>, beforeThird: seq<Event>, fate: WriteFate)

  /** One command of a pod: whether it starts, and the polls until it is done, given up, or the pod dies. */
  datatype Script = Script(startErr: Option<string>, turns: seq<Turn>)

  /** The command ended, in this way, during these polls. */
  predicate Ended(script: Script, p: Process) {
    exists t :: t in script.turns && (Exits(p) in t.beforeSecond || Exits(p) in t.beforeThird)
  }

  datatype GetAnswer = Answered | GetError

  datatype RepositoryCheck = CheckFailed(msg: string, fate: WriteFate) | CheckAnswered(repositoryExists: bool)

  /** Everything that happens to one run of the backup pod. */
  datatype PodRun = PodRun(
    credentialErr: Option<string>,
    get: GetAnswer,
    createFate: WriteFate,
    credentialFate: WriteFate,
    checks: seq<RepositoryCheck>,
    create: Script,
    policy: Script,
    connect: Script,
    connectFate: WriteFate,
    compression: Option<Script>,
    backup: Script)

  /** `runKopiaRepositoryConnect`: reports nothing by itself. */
  method ConnectRepository(decode: Decoder, script: Script) returns (failed: bool, ghost exit: Option<Process>)
    ensures !failed ==> exit.Some? && Accepted(Connect, decode, exit.value) && Ended(script, exit.value)
    ensures failed <==> !Succeeds(Connect, decode, script, 0)
  {
    hide ObservedAfter, WaiterWrites, FieldsAfter, Accepted, PollAt, NoStop, Succeeds, LifeAfter;
    NoStopFails(Connect, decode, script, 0);
    var exec := new KopiaExecutor(Connect, decode);
    var startErr := exec.Run(script.startErr);
    if startErr.Some? {
      return true, None;
    }
    NotPolledYet(exec, Connect, decode, script);
    for k := 0 to |script.turns|
      invariant Polled(exec, Connect, decode, script, k)
      invariant NoStop(Connect, decode, script, 0, k)
    {
      NextPollDecides(Connect, decode, script, 0, k);
      var s, n1, n2 := PollInTurn(exec, Connect, decode, script, k, 0);
      SuccessIsEffective(Connect, decode, exec.exit, exec.Writes(), n1, n2, exec.Done());
      if Success(s) {
        return false, exec.exit;
      }
    }
    return true, None;
  }

  /** A repository that exists already is written out as no error. */
  function AsWritten(kind: Kind, s: ExecStatus): ExecStatus {
    if kind == Create && s.error == Some(RepositoryAlreadyExists) then s.(error := None) else s
  }

  /** What is written for an error outside an executor. */
  function ErrorStatus(msg: string): ExecStatus {
    Failed(Some(CommandFailed(msg)))
  }

  class Pod {
    const store: VolumeBackupStore
    const decode: Decoder
    const name: string // of the VolumeBackup; empty when none was asked for
    const kopiaRepo: string // the repository argument it was started with
    const location: (string, string) // the backup location's name and namespace
    ghost var ran: seq<Kind> // the commands that have done their work in this life

    constructor (store: VolumeBackupStore, decode: Decoder, name: string, kopiaRepo: string, location: (string, string))
      ensures this.store == store && this.decode == decode && this.name == name
      ensures this.kopiaRepo == kopiaRepo && this.location == location && ran == []
    {
      this.store, this.decode, this.name, this.kopiaRepo, this.location := store, decode, name, kopiaRepo, location;
      ran := [];
    }

    /** No snapshot is recorded where this pod may write. */
    predicate Writable()
      requires store.states != []
      reads store
    {
      name == "" || store.Unrecorded()
    }

    /** A status write that leaves a recorded snapshot alone. */
    method WriteStatus(s: ExecStatus, fate: WriteFate) returns (failed: bool)
      requires store.states != [] && Sound(decode, store.Ran(), StatusWritten(s))
      requires Writable() || store.Current().value.status == StatusWritten(s)
      modifies store
      ensures Quiet(decode, old(store.states), store.states) && store.states != [] && store.Ran() == old(store.Ran())
      ensures store.Current().None? || store.Current() == old(store.Current())
              || store.Current().value.status == StatusWritten(s)
      ensures !failed && name != "" ==> store.Current().Some? && store.Current().value.status == StatusWritten(s)
      ensures failed <==> name != "" && (fate != Written || old(store.Current()).None?)
      ensures store.states == AfterPoll(old(store.states), name, Poll(s, Some(fate), old(store.Ran())))
      ensures name != "" && fate in {AnswerLost, Written} && old(store.Current()).Some? ==>
                store.Current().Some? && Reports(store.Current().value.status, s)
    {
      hide Sound, ErrorText, Reports;
      failed := store.WriteStatus(name, s, fate);
    }

    method WriteError(msg: string, fate: WriteFate)
      requires store.states != [] && Writable()
      modifies store
      ensures Quiet(decode, old(store.states), store.states) && store.states != [] && Writable()
      ensures store.states == AfterPoll(old(store.states), name, Poll(ErrorStatus(msg), Some(fate), old(store.Ran())))
      ensures name != "" && fate in {AnswerLost, Written} && old(store.Current()).Some? ==>
                store.Current().Some? && store.Current().value.status.lastKnownError != ""
    {
      hide VbChange, VbStep, ErrorText;
      var missed := WriteStatus(ErrorStatus(msg), fate);
    }

    /** `CreateVolumeBackup`: an existing object must have the same spec and no snapshot yet. */
    method CreateVolumeBackup(spec: VolumeBackupSpec, get: GetAnswer, fate: WriteFate) returns (failed: bool)
      requires store.states != []
      modifies store
      ensures VbSteps(decode, old(store.states), store.states) && store.states != [] && store.Ran() == old(store.Ran())
      ensures old(store.Current()).Some? ==> store.states == old(store.states)
      ensures !failed ==> store.Current().Some? && store.Current().value.spec == spec && store.Unrecorded()
      ensures failed <==>
                || get == GetError
                || (old(store.Current()).None? && fate != Written)
                || (old(store.Current()).Some? && (old(store.Current()).value.spec != spec || !old(store.Unrecorded())))
    {
      if get == GetError {
        return true;
      }
      if store.Current().None? {
        if fate in {AnswerLost, Written} {
          store.states := store.states + [VbState(Some(VolumeBackup(spec, EMPTY_VOLUME_BACKUP_STATUS)), store.Ran())];
        }
        return fate != Written;
      }
      return store.Current().value.spec != spec || store.Current().value.status.snapshotID != "";
    }

    /** `isRepositoryExists`: asks the bucket until it answers. */
    method IsRepositoryExists(checks: seq<RepositoryCheck>)
      returns (failed: bool, repositoryExists: bool, ghost polls: seq<Poll>)
      requires store.states != [] && Writable()
      modifies store
      ensures Quiet(decode, old(store.states), store.states) && store.states != [] && Writable()
      ensures CheckResult(checks) == if failed then None else Some(repositoryExists)
      // Every failed check before the answer is written out.
      ensures store.states == AfterPolls(old(store.states), name, polls)
      ensures |polls| <= |checks| && (failed <==> |polls| == |checks|)
      ensures forall k :: 0 <= k < |polls| ==>
                checks[k].CheckFailed? && polls[k] == Poll(ErrorStatus(checks[k].msg), Some(checks[k].fate), old(store.Ran()))
    {
      hide VbChange, VbStep, ErrorText, ErrorStatus, AfterPoll, AfterPolls;
      polls := [];
      NoPolls(store.states, name);
      for k := 0 to |checks|
        invariant CheckResult(checks) == CheckResult(checks[k..])
        invariant Quiet(decode, old(store.states), store.states) && store.states != [] && Writable()
        invariant store.states == AfterPolls(old(store.states), name, polls) && |polls| == k
        invariant forall j :: 0 <= j < k ==>
                    checks[j].CheckFailed? && polls[j] == Poll(ErrorStatus(checks[j].msg), Some(checks[j].fate), old(store.Ran()))
      {
        match checks[k] {
          case CheckFailed(msg, fate) =>
            OneMorePoll(old(store.states), name, polls, Poll(ErrorStatus(msg), Some(fate), store.Ran()));
            polls := polls + [Poll(ErrorStatus(msg), Some(fate), store.Ran())];
            WriteError(msg, fate);
          case CheckAnswered(found) => return false, found, polls;
        }
      }
      return true, false, polls;
    }

    /** One poll of a repository's creation, written out. */
    method CreateTurn(exec: KopiaExecutor, script: Script, k: nat) returns (written: bool, s: ExecStatus)
      requires Polled(exec, Create, decode, script, k) && k < |script.turns| && store.states != [] && Writable()
      modifies exec, store
      ensures Polled(exec, Create, decode, script, k + 1)
      ensures Quiet(decode, old(store.states), store.states) && store.states != [] && Writable()
      ensures store.Ran() == old(store.Ran()) && s == PollAt(Create, decode, script, 0, k)
      ensures Success(s) ==> Effective(Create, decode, exec.exit)
      ensures store.states == AfterPoll(old(store.states), name, Poll(s, Some(script.turns[k].fate), old(store.Ran())))
      ensures written <==> name == "" || (script.turns[k].fate == Written && old(store.Current()).Some?)
    {
      hide VbChange, VbStep, ErrorText, ObservedAfter, WaiterWrites, FieldsAfter, Effective, Polled, Quiet, AfterPoll, Reports, PollAt;
      var seen, n1, n2 := PollInTurn(exec, Create, decode, script, k, 0);
      assert exec.kind == Create && exec.decode == decode by { PolledIsOf(exec, Create, decode, script, k + 1); }
      StatusShape(Create, exec.Writes(), n1, n2, exec.Done(), 0);
      SuccessIsEffective(Create, decode, exec.exit, exec.Writes(), n1, n2, exec.Done());
      ExistingRepositoryIsEffective(decode, exec.exit, exec.Writes(), n1, n2, exec.Done());
      s := seen;
      if s.error == Some(RepositoryAlreadyExists) {
        s := s.(error := None);
      }
      var missed := WriteStatus(s, script.turns[k].fate);
      written := !missed;
    }

    /** `runKopiaCreateRepo`: a repository that exists already counts as created. Every poll is written out. */
    method RunCreateRepository(script: Script) returns (failed: bool, ghost exit: Option<Process>, ghost polls: seq<Poll>)
      requires store.states != [] && Writable()
      modifies store, this`ran
      ensures Quiet(decode, old(store.states), store.states) && store.states != [] && Writable()
      ensures ran == if failed then old(ran) else old(ran) + [Create]
      ensures !failed ==> Effective(Create, decode, exit) && (exit.Some? ==> Ended(script, exit.value))
      // It polls until a success is written, and fails only when there is no more time for that.
      ensures store.states == AfterPolls(old(store.states), name, polls)
      ensures PollLoop(Create, decode, 0, script, name).ArePolls(polls)
      ensures PollLoop(Create, decode, 0, script, name).Ends(old(store.states), polls, failed, failed && script.startErr.None?)
    {
      hide Quiet, Effective, AfterPoll, AfterPolls, PollAt, PollLoop.SoFar, PollLoop.ArePolls, PollLoop.Ends, PollLoop.IsPoll, Ended,
        Reports, LifeAfter;
      exit := None;
      polls := [];
      ghost var start := store.states;
      ghost var loop := PollLoop(Create, decode, 0, script, name);
      NoPolls(start, name);
      loop.NoPollsYet(start);
      QuietFromStart(decode, start);
      var exec := new KopiaExecutor(Create, decode);
      var startErr := exec.Run(script.startErr);
      if startErr.Some? {
        return true, None, polls;
      }
      NotPolledYet(exec, Create, decode, script);
      for k := 0 to |script.turns|
        invariant Polled(exec, Create, decode, script, k) && fresh(exec) && ran == old(ran)
        invariant Quiet(decode, start, store.states) && store.states != [] && Writable()
        invariant |polls| == k && loop.SoFar(start, polls, store.states)
      {
        ghost var before := store.states;
        var written, s := CreateTurn(exec, script, k);
        QuietComposes(decode, start, before, store.states);
        ghost var p := Poll(s, Some(script.turns[k].fate), store.Ran());
        loop.PollOfTurn(s, store.Ran(), k);
        loop.OneMoreTurn(start, polls, p, before, store.states, written);
        polls := polls + [p];
        if written && s.done && s.error.None? {
          ran := ran + [Create];
          return false, exec.exit, polls;
        }
      }
      loop.IsCut(start, polls, store.states);
      return true, None, polls;
    }

    /** The polls of a command, of which only the errors are written out, as long as there is no success. */
    ghost predicate ErrorsWritten(kind: Kind, script: Script, polls: seq<Poll>, ended: set<Process>) {
      && |polls| <= |script.turns|
      && (forall k :: 0 <= k < |polls| ==> polls[k] == ErrorWritten(kind, script, k, ended))
      && (forall k :: 0 <= k < |polls| - 1 ==> !Success(polls[k].status))
    }

    function ErrorWritten(kind: Kind, script: Script, k: nat, ended: set<Process>): Poll
      requires k < |script.turns|
    {
      var s := PollAt(kind, decode, script, 0, k);
      Poll(s, if s.error.Some? then Some(script.turns[k].fate) else None, ended)
    }

    lemma OneMoreError(kind: Kind, script: Script, polls: seq<Poll>, ended: set<Process>)
      requires ErrorsWritten(kind, script, polls, ended) && |polls| < |script.turns|
      requires polls == [] || !Success(polls[|polls| - 1].status)
      ensures ErrorsWritten(kind, script, polls + [ErrorWritten(kind, script, |polls|, ended)], ended)
      ensures ErrorWritten(kind, script, |polls|, ended).status == PollAt(kind, decode, script, 0, |polls|)
    {
      hide PollAt;
      StatusOfError(kind, script, |polls|, ended);
      hide ErrorWritten;
    }

    lemma StatusOfError(kind: Kind, script: Script, k: nat, ended: set<Process>)
      requires k < |script.turns|
      ensures ErrorWritten(kind, script, k, ended).status == PollAt(kind, decode, script, 0, k)
    {
    }

    /** One poll of a command whose errors are written out, and nothing else. */
    method CommandTurn(exec: KopiaExecutor, kind: Kind, script: Script, k: nat) returns (s: ExecStatus)
      requires kind in {GlobalPolicy, Compression}
      requires Polled(exec, kind, decode, script, k) && k < |script.turns| && store.states != [] && Writable()
      modifies exec, store
      ensures Polled(exec, kind, decode, script, k + 1)
      ensures Quiet(decode, old(store.states), store.states) && store.states != [] && Writable()
      ensures store.Ran() == old(store.Ran()) && s == PollAt(kind, decode, script, 0, k)
      ensures Success(s) ==> Effective(kind, decode, exec.exit)
      ensures store.states == AfterPoll(old(store.states), name, ErrorWritten(kind, script, k, old(store.Ran())))
    {
      hide VbChange, VbStep, ErrorText, ObservedAfter, WaiterWrites, FieldsAfter, Effective, Polled, Quiet, AfterPoll, Reports, PollAt;
      ghost var before := store.states;
      ghost var n1, n2;
      s, n1, n2 := PollInTurn(exec, kind, decode, script, k, 0);
      assert exec.kind == kind && exec.decode == decode by { PolledIsOf(exec, kind, decode, script, k + 1); }
      StatusShape(kind, exec.Writes(), n1, n2, exec.Done(), 0);
      SuccessIsEffective(kind, decode, exec.exit, exec.Writes(), n1, n2, exec.Done());
      if s.error.Some? {
        var missed := WriteStatus(s, script.turns[k].fate);
      } else {
        UnwrittenPoll(before, name, ErrorWritten(kind, script, k, Last(before).ran));
        QuietFromStart(decode, before);
      }
    }

    /** `setGlobalPolicy` and `runKopiaCompression`: every error is written out, and nothing else. */
    method RunCommand(kind: Kind, script: Script)
      returns (failed: bool, ghost exit: Option<Process>, ghost polls: seq<Poll>)
      requires kind in {GlobalPolicy, Compression}
      requires store.states != [] && Writable()
      modifies store, this`ran
      ensures Quiet(decode, old(store.states), store.states) && store.states != [] && Writable()
      ensures ran == if failed then old(ran) else old(ran) + [kind]
      ensures !failed ==> Effective(kind, decode, exit) && (exit.Some? ==> Ended(script, exit.value))
      // It polls until the first success, and fails only when there is none.
      ensures failed <==> !Succeeds(kind, decode, script, 0)
      ensures store.states == AfterPolls(old(store.states), name, polls)
      ensures ErrorsWritten(kind, script, polls, old(store.Ran()))
      ensures if failed then script.startErr.Some? || |polls| == |script.turns| else polls != [] && Success(polls[|polls| - 1].status)
    {
      hide AfterPoll, AfterPolls, Quiet, Effective, PollAt, ErrorsWritten, ErrorWritten, Succeeds, NoStop, Polled, Ended;
      polls := [];
      ghost var start := store.states;
      NoPolls(start, name);
      NoErrors(kind, script);
      QuietFromStart(decode, start);
      var exec := new KopiaExecutor(kind, decode);
      NoStopFails(kind, decode, script, 0);
      var startErr := exec.Run(script.startErr);
      if startErr.Some? {
        return true, None, polls;
      }
      NotPolledYet(exec, kind, decode, script);
      for k := 0 to |script.turns|
        invariant Polled(exec, kind, decode, script, k) && fresh(exec) && ran == old(ran)
        invariant Quiet(decode, start, store.states) && store.states != [] && Writable() && store.Ran() == old(store.Ran())
        invariant |polls| == k && (polls == [] || !Success(polls[k - 1].status))
        invariant store.states == AfterPolls(start, name, polls) && ErrorsWritten(kind, script, polls, old(store.Ran()))
        invariant NoStop(kind, decode, script, 0, k)
      {
        NextPollDecides(kind, decode, script, 0, k);
        ghost var before := store.states;
        var s := CommandTurn(exec, kind, script, k);
        QuietComposes(decode, start, before, store.states);
        ghost var p := ErrorWritten(kind, script, k, old(store.Ran()));
        OneMorePoll(start, name, polls, p);
        OneMoreError(kind, script, polls, old(store.Ran()));
        polls := polls + [p];
        if s.error.None? && s.done {
          PolledIsOf(exec, kind, decode, script, k + 1);
          ran := ran + [kind];
          return false, exec.exit, polls;
        }
      }
      return true, None, polls;
    }

    lemma NoErrors(kind: Kind, script: Script)
      ensures forall ended :: ErrorsWritten(kind, script, [], ended)
    {
    }

    /** The executor's command has made a snapshot, and the executor knows. */
    ghost predicate Made(exec: KopiaExecutor)
      reads exec
    {
      exec.exit.Some? && Accepted(Backup, decode, exec.exit.value) && exec.Done() == |exec.Writes()|
    }

    ghost predicate Recorded(exec: KopiaExecutor)
      requires store.states != []
      reads store, exec
    {
      Made(exec) && store.Current().Some?
      && store.Current().value.status == SummaryWritten(GetBackupSummary(decode, exec.exit.value.stdout).value)
    }

    ghost predicate Polling(exec: KopiaExecutor, script: Script, k: nat)
      reads exec, store
    {
      && Polled(exec, Backup, decode, script, k) && store.states != []
      && (exec.exit.Some? ==> exec.exit.value in store.Ran())
    }

    method PollBackup(exec: KopiaExecutor, script: Script, k: nat) returns (s: ExecStatus)
      requires Polling(exec, script, k) && k < |script.turns|
      modifies exec, store
      ensures Polling(exec, script, k + 1)
      ensures old(store.Ran()) <= store.Ran() <= old(store.Ran()) + (if exec.exit.Some? then {exec.exit.value} else {})
      ensures s == PollAt(Backup, decode, script, 0, k)
      ensures Success(s) ==>
                Made(exec) && StatusWritten(s) == SummaryWritten(GetBackupSummary(decode, exec.exit.value.stdout).value)
                && s.snapshotID != ""
      ensures !Success(s) ==> s.snapshotID == "" && (s.done ==> s.error.Some?)
      ensures old(Made(exec)) ==> exec.exit == old(exec.exit) && Success(s)
      ensures Sound(decode, store.Ran(), StatusWritten(s))
      ensures VbSteps(decode, old(store.states), store.states) && store.Current() == old(store.Current())
      ensures store.states == AfterPoll(old(store.states), name, Poll(s, None, store.Ran()))
    {
      hide ErrorText, ObservedAfter, GetBackupSummary, WaiterWrites, Accepted, FieldsAfter, Genuine, PollAt, LifeAfter, Ended;
      ghost var n1, n2;
      s, n1, n2 := PollInTurn(exec, Backup, decode, script, k, 0);
      if exec.exit.Some? && exec.exit.value !in store.Ran() {
        store.states := store.states + [VbState(store.Current(), store.Ran() + {exec.exit.value})];
      }
      PollVerdict(decode, exec.exit, exec.Writes(), n1, n2, exec.Done());
      PollIsSound(decode, exec.exit, store.Ran(), exec.Writes(), n1, n2, exec.Done());
    }

    /** What the poll loop keeps: the object is free for this pod to write, or holds what this executor has made. */
    ghost predicate Looping(exec: KopiaExecutor, script: Script, start: seq<VbState>, k: nat)
      reads store, exec
    {
      && store.states != [] && Polling(exec, script, k) && Grown(decode, script, start, store.states)
      && (Writable() || Recorded(exec))
    }

    /** One turn of the loop: a poll, written out. */
    method PollAndWrite(exec: KopiaExecutor, script: Script, k: nat, ghost start: seq<VbState>)
      returns (written: bool, s: ExecStatus)
      requires Looping(exec, script, start, k) && k < |script.turns|
      modifies exec, store
      ensures Looping(exec, script, start, k + 1)
      ensures !Success(s) ==> (s.done ==> s.error.Some?)
      ensures written && Success(s) && name != "" ==>
                store.Current().Some? && store.Current().value.status.snapshotID != ""
                && Genuine(decode, store.Ran(), store.Current().value.status)
      // The poll is that of this turn, and it is written out.
      ensures s == PollAt(Backup, decode, script, 0, k)
      ensures store.states == AfterPoll(old(store.states), name, Poll(s, Some(script.turns[k].fate), store.Ran()))
      ensures written <==> name == "" || (script.turns[k].fate == Written && old(store.Current()).Some?)
      ensures written && name != "" ==>
                store.Current().Some? && (s.error.Some? <==> store.Current().value.status.lastKnownError != "")
    {
      hide VbChange, VbSteps, Grown, Quiet, Genuine, ErrorText, GetBackupSummary, WaiterWrites, Accepted, PollAt, LifeAfter, Ended;
      ghost var was := store.states;
      s := PollBackup(exec, script, k);
      GrownByPoll(decode, script, start, was, store.states, exec.exit);
      ghost var polled := store.states;
      var missed := WriteStatus(s, script.turns[k].fate);
      GrownByWrite(decode, script, start, polled, store.states);
      written := !missed;
    }

    lemma CurrentIsLast()
      requires store.states != []
      ensures store.Current() == Last(store.states).vb
    {
    }

    lemma LoopingHas(exec: KopiaExecutor, script: Script, start: seq<VbState>, k: nat)
      requires Looping(exec, script, start, k)
      ensures store.states != [] && Grown(decode, script, start, store.states)
    {
      hide Grown;
    }

    lemma LoopBegins(exec: KopiaExecutor, script: Script, start: seq<VbState>)
      requires store.states == start && start != [] && Polled(exec, Backup, decode, script, 0) && exec.exit.None? && Writable()
      ensures Looping(exec, script, start, 0)
    {
      GrownFromStart(decode, script, start);
    }

    /** `runKopiaBackup`: writes every poll out and ends with the first one that is both written and over; `died` means that
        the process ended before the loop. */
    method RunKopiaBackup(script: Script) returns (failed: bool, ghost polls: seq<Poll>, ghost died: bool)
      requires store.states != [] && Writable()
      modifies store, this`ran
      ensures ran == if failed then old(ran) else old(ran) + [Backup]
      ensures store.states != [] && Grown(decode, script, old(store.states), store.states)
      ensures !failed && name != "" ==>
                store.Current().Some? && store.Current().value.status.snapshotID != ""
                && Genuine(decode, store.Ran(), store.Current().value.status)
      ensures store.states == AfterPolls(old(store.states), name, polls)
      ensures PollLoop(Backup, decode, 0, script, name).ArePolls(polls)
      ensures PollLoop(Backup, decode, 0, script, name).Ends(old(store.states), polls, failed, died)
      ensures failed && script.startErr.None? && !died && name != "" ==>
                store.Current().Some? && store.Current().value.status.lastKnownError != ""
    {
      hide Genuine, Grown, AfterPoll, AfterPolls, PollAt, PollLoop.SoFar, PollLoop.ArePolls, PollLoop.Ends, PollLoop.IsPoll, Looping,
        Accepted, LifeAfter;
      GrownFromStart(decode, script, store.states);
      NoPolls(store.states, name);
      ghost var start := store.states;
      ghost var loop := PollLoop(Backup, decode, 0, script, name);
      polls, died := [], false;
      loop.NoPollsYet(start);
      var exec := new KopiaExecutor(Backup, decode);
      var startErr := exec.Run(script.startErr);
      if startErr.Some? {
        return true, polls, false;
      }
      NotPolledYet(exec, Backup, decode, script);
      LoopBegins(exec, script, start);
      for k := 0 to |script.turns|
        invariant Looping(exec, script, start, k) && fresh(exec) && ran == old(ran) && store.states != []
        invariant |polls| == k && loop.SoFar(start, polls, store.states)
      {
        ghost var before := store.states;
        CurrentIsLast();
        var written, s := PollAndWrite(exec, script, k, start);
        ghost var p := Poll(s, Some(script.turns[k].fate), store.Ran());
        ghost var earlier := polls;
        polls := polls + [p];
        LoopingHas(exec, script, start, k + 1);
        loop.PollOfTurn(s, store.Ran(), k);
        loop.OneMoreTurn(start, earlier, p, before, store.states, written);
        if !written {
          continue;
        }
        if s.error.Some? {
          return true, polls, false;
        }
        if s.done {
          ran := ran + [Backup];
          return false, polls, false;
        }
      }
      LoopingHas(exec, script, start, |script.turns|);
      loop.IsCut(start, polls, store.states);
      return true, polls, true;
    }

    /** The command does its work in time, and what is written of its polls lands. */
    ghost predicate Works(kind: Kind, script: Script) {
      PollLoop(kind, decode, 0, script, name).IsGood()
    }

    /** A run in which nothing goes wrong, from the credentials on. */
    ghost predicate GoesWell(r: PodRun) {
      && r.credentialErr.None? && CheckResult(r.checks).Some? && (forall c :: c in r.checks && c.CheckFailed? ==> c.fate != Removed)
      && (CheckResult(r.checks) == Some(false) ==> Works(Create, r.create) && Works(GlobalPolicy, r.policy))
      && Works(Connect, r.connect) && (r.compression.Some? ==> Works(Compression, r.compression.value)) && Works(Backup, r.backup)
    }

    predicate HasObject()
      requires store.states != []
      reads store
    {
      name == "" || store.Current().Some?
    }

    /** Writes that remove nothing leave the object there. */
    lemma StillHasObject(was: seq<VbState>, polls: seq<Poll>)
      requires was != [] && store.states == AfterPolls(was, name, polls)
      requires forall p :: p in polls ==> p.written != Some(Removed)
      ensures (name == "" || Last(was).vb.Some?) ==> HasObject()
    {
      hide AfterPolls;
      if Last(was).vb.Some? {
        ObjectStays(was, name, polls);
      }
    }

    lemma WorkingCommandRemovesNothing(kind: Kind, script: Script, polls: seq<Poll>, ended: set<Process>)
      requires Works(kind, script)
      requires ErrorsWritten(kind, script, polls, ended) || PollLoop(kind, decode, 0, script, name).ArePolls(polls)
      ensures forall p :: p in polls ==> p.written != Some(Removed)
    {
      hide PollAt, Succeeds;
      forall p | p in polls ensures p.written != Some(Removed) {
        var k :| 0 <= k < |polls| && polls[k] == p;
        assert script.turns[k] in script.turns;
        if !ErrorsWritten(kind, script, polls, ended) {
          assert PollLoop(kind, decode, 0, script, name).IsPoll(polls[k], k);
        }
      }
    }

    /** The first part of `runBackup`: a repository that is not there yet is created and given its policy. */
    method EnsureRepository(r: PodRun) returns (failed: bool)
      requires store.states != [] && Writable() && ran == []
      modifies store, this`ran
      ensures Quiet(decode, old(store.states), store.states) && store.states != [] && Writable()
      ensures ran <= Ensured(r) && (!failed ==> CheckResult(r.checks).Some? && ran == Ensured(r))
      ensures GoesWell(r) && old(HasObject()) ==> !failed && HasObject()
    {
      hide VbChange, VbStep, Effective, Quiet, AfterPolls, PollLoop.ArePolls, PollLoop.Ends, PollLoop.IsGood, ErrorsWritten, Succeeds;
      ghost var start := store.states;
      var repositoryExists;
      ghost var polls;
      failed, repositoryExists, polls := IsRepositoryExists(r.checks);
      ghost var checked := store.states;
      assert GoesWell(r) && old(HasObject()) ==> HasObject() by {
        if GoesWell(r) {
          assert forall k :: 0 <= k < |polls| ==> r.checks[k] in r.checks;
          StillHasObject(start, polls);
        }
      }
      if failed || repositoryExists {
        return;
      }
      ghost var exit;
      failed, exit, polls := RunCreateRepository(r.create);
      QuietComposes(decode, start, checked, store.states);
      CreatedIfGood(r, checked, polls, failed);
      if failed {
        return;
      }
      ghost var created := store.states;
      failed, exit, polls := RunCommand(GlobalPolicy, r.policy);
      QuietComposes(decode, start, created, store.states);
      DoneIfGood(GlobalPolicy, r.policy, created, polls);
    }

    lemma CreatedIfGood(r: PodRun, was: seq<VbState>, polls: seq<Poll>, failed: bool)
      requires was != [] && store.states == AfterPolls(was, name, polls)
      requires var loop := PollLoop(Create, decode, 0, r.create, name);
               loop.ArePolls(polls) && loop.Ends(was, polls, failed, failed && r.create.startErr.None?)
      ensures Works(Create, r.create) && (name == "" || Last(was).vb.Some?) ==> !failed && HasObject()
    {
      hide AfterPolls, PollLoop.ArePolls, PollLoop.Ends, PollLoop.IsGood;
      var loop := PollLoop(Create, decode, 0, r.create, name);
      if Works(Create, r.create) && (name == "" || Last(was).vb.Some?) {
        loop.GoodLoopSucceeds(was, polls, failed, failed && r.create.startErr.None?);
        WorkingCommandRemovesNothing(Create, r.create, polls, {});
        StillHasObject(was, polls);
      }
    }

    lemma DoneIfGood(kind: Kind, script: Script, was: seq<VbState>, polls: seq<Poll>)
      requires was != [] && store.states == AfterPolls(was, name, polls) && ErrorsWritten(kind, script, polls, Last(was).ran)
      ensures Works(kind, script) ==> Succeeds(kind, decode, script, 0)
      ensures Works(kind, script) && (name == "" || Last(was).vb.Some?) ==> HasObject()
    {
      if Works(kind, script) {
        hide AfterPolls, Succeeds, ErrorsWritten;
        WorkingCommandRemovesNothing(kind, script, polls, Last(was).ran);
        StillHasObject(was, polls);
      }
    }

    /** The middle part: connects, and reports it when that fails, and sets the compression if one is asked for. */
    method ConnectAndCompress(r: PodRun) returns (failed: bool)
      requires store.states != [] && Writable() && ran == Ensured(r)
      modifies store, this`ran
      ensures Quiet(decode, old(store.states), store.states) && store.states != [] && Writable()
      ensures ran <= Prepared(r) && (!failed <==> ran == Prepared(r))
      ensures failed <==> !Succeeds(Connect, decode, r.connect, 0)
                          || (r.compression.Some? && !Succeeds(Compression, decode, r.compression.value, 0))
      ensures GoesWell(r) && old(HasObject()) ==> !failed && HasObject()
      // Connecting has failed: the object says so, if that write has landed.
      ensures failed && ran == old(ran) && name != "" && old(store.Current()).Some? && r.connectFate in {AnswerLost, Written} ==>
                store.Current().Some? && store.Current().value.status.lastKnownError != ""
    {
      hide VbChange, VbStep, Effective, Ensured, Succeeds, AfterPolls, ErrorsWritten;
      ghost var exit;
      failed, exit := ConnectRepository(decode, r.connect);
      if failed {
        WriteError("repository connect status not available", r.connectFate);
        return true;
      }
      ran := ran + [Connect];
      if r.compression.Some? {
        ghost var polls;
        ghost var connected := store.states;
        failed, exit, polls := RunCommand(Compression, r.compression.value);
        DoneIfGood(Compression, r.compression.value, connected, polls);
      }
    }

    /** Everything after the object is there and the credentials are read. */
    method RunBackupCommands(r: PodRun) returns (failed: bool, ghost died: bool)
      requires store.states != [] && Writable() && ran == [] && r.credentialErr.None?
      modifies store, this`ran
      ensures store.states != [] && Grown(decode, r.backup, old(store.states), store.states)
      ensures ran <= Commands(r) && (!failed ==> ran == Commands(r))
      ensures !failed && name != "" ==>
                store.Current().Some? && store.Current().value.status.snapshotID != ""
                && Genuine(decode, store.Ran(), store.Current().value.status)
      ensures GoesWell(r) && old(HasObject()) ==> !failed
      // It got as far as the snapshot, which failed before the pod died: the object says so.
      ensures failed && !died && ran == Prepared(r) && CheckResult(r.checks).Some? && r.backup.startErr.None? && name != "" ==>
                store.Current().Some? && store.Current().value.status.lastKnownError != ""
    {
      hide VbSteps, Quiet, Grown, Genuine, Ensured, PollLoop.Ends, PollLoop.ArePolls, PollLoop.IsGood, AfterPolls, Succeeds;
      died := false;
      ghost var start := store.states;
      GrownFromStart(decode, r.backup, start);
      failed := EnsureRepository(r);
      GrownByWrite(decode, r.backup, start, start, store.states);
      EarlierCommandsComeFirst(r, ran);
      if failed {
        return true, false;
      }
      ghost var ensured := store.states;
      failed := ConnectAndCompress(r);
      GrownByWrite(decode, r.backup, start, ensured, store.states);
      EarlierCommandsComeFirst(r, ran);
      if failed {
        return true, false;
      }
      ghost var connected := store.states;
      ghost var polls;
      failed, polls, died := RunKopiaBackup(r.backup);
      GrownCompose(decode, r.backup, start, connected, store.states);
      if GoesWell(r) && old(HasObject()) {
        PollLoop(Backup, decode, 0, r.backup, name).GoodLoopSucceeds(connected, polls, failed, died);
      }
    }

    /** There is no object yet, or one of this very backup without a snapshot. */
    predicate MayBackUp(vb: Option<VolumeBackup>) {
      vb.Some? ==>
        && vb.value.spec == VolumeBackupSpec(FrameBackupPath(kopiaRepo), location.0, location.1)
        && vb.value.status.snapshotID == ""
    }

    /** `runBackup`: one life of the backup pod. A pod killed on the way leaves a prefix of these writes. */
    method RunBackup(r: PodRun) returns (failed: bool, ghost died: bool)
      requires store.states != [] && ran == []
      modifies store, this`ran
      ensures VbSteps(decode, old(store.states), store.states) && store.states != []
      ensures old(store.Ran()) <= store.Ran() && forall p :: p in store.Ran() - old(store.Ran()) ==> Ended(r.backup, p)
      // A nil return: every command has done its work, in order, and the snapshot this pod made is recorded.
      ensures !failed ==> r.credentialErr.None? && ran == Commands(r)
      ensures !failed && name != "" ==>
                store.Current().Some? && store.Current().value.status.snapshotID != ""
                && Genuine(decode, store.Ran(), store.Current().value.status)
                && store.Current().value.spec == VolumeBackupSpec(FrameBackupPath(kopiaRepo), location.0, location.1)
      // A command runs only after those before it have done their work.
      ensures ran <= Commands(r)
      // A run in which nothing goes wrong succeeds.
      ensures GoesWell(r) && (name == "" || (r.get == Answered && r.createFate == Written && MayBackUp(old(store.Current())))) ==>
                !failed
      // Failures reach the object: a snapshot that failed, and credentials that cannot be read.
      ensures failed && !died && r.credentialErr.None? && CheckResult(r.checks).Some? && ran == Prepared(r)
              && r.backup.startErr.None? && name != "" ==>
                store.Current().Some? && store.Current().value.status.lastKnownError != ""
      ensures r.credentialErr.Some? ==> failed
      ensures r.credentialErr.Some? && name != "" && r.credentialFate in {AnswerLost, Written}
              && r.get == Answered && r.createFate == Written && old(store.Current()).None? ==>
                store.Current().Some? && store.Current().value.status.lastKnownError != ""
      // A snapshot already recorded for this volume is left alone.
      ensures name != "" && !old(store.Unrecorded()) ==> failed && store.states == old(store.states)
    {
      hide VbSteps, Quiet, Grown, Sound, Genuine, Effective, Ensured, Prepared, AfterPoll, Reports, Commands, Ended, FrameBackupPath,
        CheckResult, Works;
      EarlierCommandsComeFirst(r, []);
      ghost var start := store.states;
      NothingHappens(decode, r.backup, start);
      var repoName := if r.credentialErr.Some? then "" else FrameBackupPath(kopiaRepo);
      if name != "" {
        failed := CreateVolumeBackup(VolumeBackupSpec(repoName, location.0, location.1), r.get, r.createFate);
        if failed {
          return true, false;
        }
      }
      ghost var made := store.states;
      GrownFromStart(decode, r.backup, made);
      if r.credentialErr.Some? {
        WriteError(r.credentialErr.value, r.credentialFate);
        GrownByWrite(decode, r.backup, made, made, store.states);
        GrownAfterCreation(decode, r.backup, start, made, store.states);
        return true, false;
      }
      failed, died := RunBackupCommands(r);
      GrownAfterCreation(decode, r.backup, start, made, store.states);
    }
  }

  // ---------------------------------------------------------------- any number of pods

  /** The object's history over any number of backup pod lives, each possibly cut short, and deletions by the cleanup. */
  ghost predicate History(decode: Decoder, states: seq<VbState>) {
    states != [] && states[0] == VbState(None, {}) && VbSteps(decode, [states[0]], states)
  }

  lemma {:induction false} HistoryIsSound(decode: Decoder, states: seq<VbState>, i: nat)
    requires History(decode, states) && i < |states| && states[i].vb.Some?
    ensures Sound(decode, states[i].ran, states[i].vb.value.status)
    decreases i
  {
    hide Genuine;
    assert i > 0;
    assert VbStep(decode, states[i - 1], states[i]);
    if states[i].vb == states[i - 1].vb {
      HistoryIsSound(decode, states, i - 1);
      GenuineIsMonotone(decode, states[i - 1].ran, states[i].ran, states[i].vb.value.status);
    }
  }

  /** Full progress and a recorded snapshot go together; then there is no error, and the snapshot is that of a command that
      had ended well by the time it was written. */
  lemma ProgressMeansSnapshot(decode: Decoder, states: seq<VbState>, i: nat)
    requires History(decode, states) && i < |states| && states[i].vb.Some?
    ensures var st := states[i].vb.value.status;
            && (st.progressPercentage == 100.0 <==> st.snapshotID != "")
            && (st.snapshotID != "" ==> st.lastKnownError == "" && Genuine(decode, states[i].ran, st))
  {
    HistoryIsSound(decode, states, i);
    hide Accepted, GetBackupSummary;
  }
}
