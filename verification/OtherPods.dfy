/** The pods that restore and delete a kopia snapshot. */
module OtherPods {
  import opened Wrappers
  import opened KdmpApi
  import opened ExecutorApi
  import opened KopiaExecutors
  import opened VolumeBackups

  /** What a restore pod does to the VolumeBackup it restores from: its whole status is replaced by one that names no
      snapshot and shows no progress. */
  predicate RestoreWrite(was: Option<VolumeBackup>, now: Option<VolumeBackup>) {
    && was.Some? && now.Some? && now.value.spec == was.value.spec
    && now.value.status.snapshotID == "" && now.value.status.progressPercentage == 0.0
  }

  predicate RestoreStep(s: VbState, s': VbState) {
    s'.ran == s.ran && (s'.vb.None? || RestoreWrite(s.vb, s'.vb))
  }

  ghost predicate RestoreSteps(was: seq<VbState>, now: seq<VbState>) {
    was <= now && forall i :: |was| <= i < |now| && i > 0 ==> RestoreStep(now[i - 1], now[i])
  }

  /** Everything that happens to one run of the restore pod. */
  datatype RestoreRun = RestoreRun(
    credentialErr: Option<string>,
    credentialFate: WriteFate,
    connect: Script,
    connectFate: WriteFate,
    restore: Script,
    restored: nat) // the size found in the command's stderr

  lemma RestoreVerdict(decode: Decoder, exit: Option<Process>, writes: seq<FieldWrite>, n1: nat, n2: nat, n3: nat, restored: nat)
    requires writes == if exit.Some? then WaiterWrites(Restore, decode, exit.value) else []
    requires n1 <= n2 <= n3 <= |writes|
    ensures var s := ObservedAfter(Restore, writes, n1, n2, n3, restored);
            && s.snapshotID == "" && s.progressPercentage == 0.0
            && (Success(s) ==> exit.Some? && Accepted(Restore, decode, exit.value)
                               && s == FINISHED.(totalBytes := restored, totalBytesProcessed := restored))
  {
    if exit.Some? {
      NoFalseSuccess(Restore, decode, exit.value, n1, n2, n3, restored);
    } else {
      RunningCommandIsNotDone(Restore, restored);
    }
    StatusShape(Restore, writes, n1, n2, n3, restored);
    hide WaiterWrites, FieldsAfter;
  }

  class RestorePod {
    const store: VolumeBackupStore
    const decode: Decoder
    const name: string // of the VolumeBackup

    constructor (store: VolumeBackupStore, decode: Decoder, name: string)
      ensures this.store == store && this.decode == decode && this.name == name
    {
      this.store, this.decode, this.name := store, decode, name;
    }

    method WriteError(msg: string, fate: WriteFate)
      requires store.states != []
      modifies store
      ensures RestoreSteps(old(store.states), store.states) && store.states != []
      ensures name != "" && fate in {AnswerLost, Written} && old(store.Current()).Some? ==>
                store.Current().Some? && store.Current().value.status.lastKnownError != ""
    {
      hide ErrorText;
      var missed := store.WriteStatus(name, ErrorStatus(msg), fate);
    }

    /** One turn of the loop: a poll, written out. */
    method PollAndWrite(exec: KopiaExecutor, script: Script, k: nat, restored: nat) returns (written: bool, s: ExecStatus)
      requires store.states != [] && Polled(exec, Restore, decode, script, k) && k < |script.turns|
      modifies exec, store
      ensures Polled(exec, Restore, decode, script, k + 1)
      ensures store.states != [] && RestoreSteps(old(store.states), store.states)
      ensures Success(s) ==> exec.exit.Some? && Accepted(Restore, decode, exec.exit.value)
      ensures s == PollAt(Restore, decode, script, restored, k)
      ensures store.states == AfterPoll(old(store.states), name, Poll(s, Some(script.turns[k].fate), old(store.Ran())))
      ensures written <==> name == "" || (script.turns[k].fate == Written && old(store.Current()).Some?)
      ensures written && name != "" ==>
                store.Current().Some? && (s.error.Some? <==> store.Current().value.status.lastKnownError != "")
      ensures written && name != "" && Success(s) ==>
                store.Current().value.status == VolumeBackupStatus(0.0, restored, restored, "", "")
    {
      hide ObservedAfter, WaiterWrites, FieldsAfter, Accepted, ErrorText, PollAt, LifeAfter, Polled;
      ghost var n1, n2;
      s, n1, n2 := PollInTurn(exec, Restore, decode, script, k, restored);
      assert exec.kind == Restore && exec.decode == decode by { PolledIsOf(exec, Restore, decode, script, k + 1); }
      RestoreVerdict(decode, exec.exit, exec.Writes(), n1, n2, exec.Done(), restored);
      var missed := store.WriteStatus(name, s, script.turns[k].fate);
      written := !missed;
    }

    lemma NoSteps(states: seq<VbState>)
      ensures RestoreSteps(states, states)
    {
    }

    lemma StepsCompose(was: seq<VbState>, mid: seq<VbState>, now: seq<VbState>)
      requires was != [] && RestoreSteps(was, mid) && RestoreSteps(mid, now)
      ensures RestoreSteps(was, now)
    {
      hide RestoreStep;
    }

    /** `runKopiaRestore`: every poll is written out; it ends with the first one that is both over and written. */
    method RunKopiaRestore(script: Script, restored: nat)
      returns (failed: bool, ghost exit: Option<Process>, ghost polls: seq<Poll>, ghost died: bool)
      requires store.states != []
      modifies store
      ensures RestoreSteps(old(store.states), store.states) && store.states != []
      ensures !failed ==> exit.Some? && Accepted(Restore, decode, exit.value) && Ended(script, exit.value)
      ensures !failed && name != "" ==>
                store.Current().Some?
                && store.Current().value.status == VolumeBackupStatus(0.0, restored, restored, "", "")
      ensures store.states == AfterPolls(old(store.states), name, polls)
      ensures exit.Some? ==> script.startErr.None?
      ensures PollLoop(Restore, decode, restored, script, name).ArePolls(polls)
      ensures PollLoop(Restore, decode, restored, script, name).Ends(old(store.states), polls, failed, died)
      ensures failed && script.startErr.None? && !died && name != "" ==>
                store.Current().Some? && store.Current().value.status.lastKnownError != ""
    {
      hide Accepted, AfterPoll, AfterPolls, PollLoop.ArePolls, PollLoop.Ends, PollLoop.SoFar, RestoreStep, RestoreSteps, Ended, PollAt;
      ghost var start := store.states;
      ghost var loop := PollLoop(Restore, decode, restored, script, name);
      NoPolls(start, name);
      loop.NoPollsYet(start);
      NoSteps(start);
      polls := [];
      var exec := new KopiaExecutor(Restore, decode);
      var startErr := exec.Run(script.startErr);
      if startErr.Some? {
        return true, None, polls, false;
      }
      NotPolledYet(exec, Restore, decode, script);
      for k := 0 to |script.turns|
        invariant Polled(exec, Restore, decode, script, k) && fresh(exec)
        invariant RestoreSteps(start, store.states) && store.states != []
        invariant |polls| == k && loop.SoFar(start, polls, store.states)
      {
        ghost var before := store.states;
        var written, s := PollAndWrite(exec, script, k, restored);
        StepsCompose(start, before, store.states);
        ghost var p := Poll(s, Some(script.turns[k].fate), Last(before).ran);
        loop.OneMoreTurn(start, polls, p, before, store.states, written);
        polls := polls + [p];
        if !written {
          continue;
        }
        if s.error.Some? {
          return true, exec.exit, polls, false;
        }
        if s.done {
          return false, exec.exit, polls, false;
        }
      }
      loop.IsCut(start, polls, store.states);
      return true, None, polls, true;
    }

    /** `runRestore`. */
    method RunRestore(r: RestoreRun) returns (failed: bool, ghost exit: Option<Process>, ghost died: bool)
      requires store.states != []
      modifies store
      ensures RestoreSteps(old(store.states), store.states) && store.states != []
      // A nil return: the restore command has ended well, and the size is recorded.
      ensures !failed ==> r.credentialErr.None? && exit.Some? && Accepted(Restore, decode, exit.value) && Ended(r.restore, exit.value)
      ensures !failed && name != "" ==>
                store.Current().Some?
                && store.Current().value.status == VolumeBackupStatus(0.0, r.restored, r.restored, "", "")
      // A run in which nothing goes wrong succeeds.
      ensures r.credentialErr.None? && Succeeds(Connect, decode, r.connect, 0) && (name == "" || old(store.Current()).Some?) &&
              PollLoop(Restore, decode, r.restored, r.restore, name).IsGood() ==>
                !failed
      // A failure reaches the object, if it is written at all: the restore's own, and that of reading the credentials.
      ensures failed && !died && exit.Some? && name != "" ==>
                store.Current().Some? && store.Current().value.status.lastKnownError != ""
      ensures r.credentialErr.Some? ==> failed && exit.None?
      ensures r.credentialErr.Some? && name != "" && r.credentialFate in {AnswerLost, Written} && old(store.Current()).Some? ==>
                store.Current().Some? && store.Current().value.status.lastKnownError != ""
    {
      hide Accepted, RestoreStep, Succeeds, PollLoop.IsGood, PollLoop.ArePolls, PollLoop.Ends, AfterPolls;
      if r.credentialErr.Some? {
        WriteError(r.credentialErr.value, r.credentialFate);
        return true, None, false;
      }
      ghost var connected;
      failed, connected := ConnectRepository(decode, r.connect);
      if failed {
        WriteError("repository connect status not available", r.connectFate);
        return true, None, false;
      }
      ghost var polls;
      ghost var connectedAt := store.states;
      failed, exit, polls, died := RunKopiaRestore(r.restore, r.restored);
      ghost var loop := PollLoop(Restore, decode, r.restored, r.restore, name);
      if loop.IsGood() && (name == "" || Last(connectedAt).vb.Some?) {
        loop.GoodLoopSucceeds(connectedAt, polls, failed, died);
      }
    }
  }

  /** In every poll the two reads of `Status` follow each other with nothing in between. */
  predicate AtomicPolls(script: Script) {
    forall t :: t in script.turns ==> t.beforeSecond == []
  }

  /** `runKopiaDelete`: nil means the command has ended, and, unless some poll's reads were interrupted, ended well. */
  method RunKopiaDelete(decode: Decoder, script: Script) returns (failed: bool, ghost exit: Option<Process>)
    ensures !failed ==> exit.Some? && Ended(script, exit.value) && (AtomicPolls(script) ==> exit.value.exitOk)
    ensures failed <==> !Succeeds(Delete, decode, script, 0)
  {
    hide ObservedAfter, WaiterWrites, FieldsAfter, PollAt, NoStop, Succeeds, LifeAfter;
    NoStopFails(Delete, decode, script, 0);
    var exec := new KopiaExecutor(Delete, decode);
    var startErr := exec.Run(script.startErr);
    if startErr.Some? {
      return true, None;
    }
    NotPolledYet(exec, Delete, decode, script);
    for k := 0 to |script.turns|
      invariant Polled(exec, Delete, decode, script, k)
      invariant NoStop(Delete, decode, script, 0, k)
    {
      NextPollDecides(Delete, decode, script, 0, k);
      var s, n1, n2 := PollInTurn(exec, Delete, decode, script, k, 0);
      assert script.turns[k] in script.turns;
      if exec.exit.Some? {
        FalseSuccessWindow(Delete, decode, exec.exit.value, n1, n2, exec.Done(), 0);
      } else {
        RunningCommandIsNotDone(Delete, 0);
      }
      if s.error.Some? {
        return true, exec.exit;
      }
      if s.done {
        return false, exec.exit;
      }
    }
    return true, None;
  }

  // ---------------------------------------------------------------- one VolumeBackup, backup pods and restore pods

  /** The object's history when pods of both kinds write it, over any number of lives, and the cleanup deletes it. */
  ghost predicate SharedHistory(decode: Decoder, states: seq<VbState>) {
    && states != [] && states[0] == VbState(None, {})
    && forall i :: 0 <= i < |states| - 1 ==>
         VbStep(decode, states[i], states[i + 1]) || RestoreStep(states[i], states[i + 1])
  }

  /** Even so, whatever snapshot the object names is a genuine one, and goes with full progress and no error. */
  lemma {:induction false} SharedProgressMeansSnapshot(decode: Decoder, states: seq<VbState>, i: nat)
    requires SharedHistory(decode, states) && i < |states| && states[i].vb.Some?
    ensures var st := states[i].vb.value.status;
            && Sound(decode, states[i].ran, st)
            && (st.progressPercentage == 100.0 <==> st.snapshotID != "")
            && (st.snapshotID != "" ==> st.lastKnownError == "" && Genuine(decode, states[i].ran, st))
    decreases i
  {
    hide Accepted, GetBackupSummary;
    assert i > 0;
    var s, s' := states[i - 1], states[i - 1 + 1];
    if s.vb == s'.vb {
      SharedProgressMeansSnapshot(decode, states, i - 1);
      if VbStep(decode, s, s') {
        GenuineIsMonotone(decode, s.ran, s'.ran, s'.vb.value.status);
      }
    }
  }

  /** Neither a deletion nor the write of a restore pod. */
  predicate LeavesSnapshot(s: VbState, s': VbState) {
    s'.vb.Some? && !RestoreWrite(s.vb, s'.vb)
  }

  /** A recorded snapshot stays as it is from `i` to `j` if and only if nothing deletes the object in between and no
      restore pod writes it: no backup pod, in any number of lives, ever changes it. */
  lemma {:induction false} SnapshotIsWriteOnce(decode: Decoder, states: seq<VbState>, i: nat, j: nat)
    requires SharedHistory(decode, states) && i <= j < |states|
    requires states[i].vb.Some? && states[i].vb.value.status.snapshotID != ""
    ensures (forall k :: i <= k <= j ==> states[k].vb == states[i].vb)
            <==> (forall k :: i <= k < j ==> LeavesSnapshot(states[k], states[k + 1]))
    decreases j
  {
    hide Sound;
    if i < j {
      SnapshotIsWriteOnce(decode, states, i, j - 1);
      assert j - 1 + 1 == j;
      assert VbStep(decode, states[j - 1], states[j - 1 + 1]) || RestoreStep(states[j - 1], states[j - 1 + 1]);
      if forall k :: i <= k <= j ==> states[k].vb == states[i].vb {
        forall k | i <= k < j ensures LeavesSnapshot(states[k], states[k + 1]) {
          assert states[k].vb == states[i].vb && states[k + 1].vb == states[i].vb;
        }
      }
      if forall k :: i <= k < j ==> LeavesSnapshot(states[k], states[k + 1]) {
        assert states[j - 1].vb == states[i].vb;
        assert LeavesSnapshot(states[j - 1], states[j - 1 + 1]);
      }
    }
  }
}
