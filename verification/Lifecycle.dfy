/** Progress, verdict and bookkeeping over whole runs of the reconciler. */
module Lifecycle {
  import opened Wrappers
  import opened KdmpApi
  import opened Naming
  import opened StatusStore
  import opened Reconciler
  import opened Runs
  import Controller
  import D = Drivers

  // ---------------------------------------------------------------- progress

  lemma {:induction false} StageNeverGoesBack(run: seq<DataExport>, i: nat, j: nat)
    requires Run(run) && i <= j < |run|
    ensures Rank(run[i].status.stage) <= Rank(run[j].status.stage)
    ensures Rank(run[i].status.stage) == Rank(run[j].status.stage) ==> run[i].status.stage == run[j].status.stage
    decreases j
  {
    hide Step, Fresh, Invariant, Continues, GetDriverType, Run;
    if i < j {
      StageNeverGoesBack(run, i, j - 1);
      RunStep(run, j - 1);
    }
  }

  ghost function StageChanges(run: seq<DataExport>): nat {
    if |run| <= 1 then 0
    else StageChanges(run[..|run| - 1]) + (if run[|run| - 2].status.stage != run[|run| - 1].status.stage then 1 else 0)
  }

  /** However long a run is, it changes stage at most nine times. */
  lemma {:induction false} AtMostNineStageChanges(run: seq<DataExport>)
    requires Run(run)
    ensures StageChanges(run) <= Rank(run[|run| - 1].status.stage) <= 9
    decreases |run|
  {
    hide Step, Fresh, Invariant, Continues, GetDriverType;
    if |run| > 1 {
      var shorter := run[..|run| - 1];
      assert Run(shorter) by {
        forall i | 0 <= i < |shorter| - 1 ensures Step(shorter[i], shorter[i + 1]) {
          assert shorter[i] == run[i] && shorter[i + 1] == run[i + 1];
        }
      }
      AtMostNineStageChanges(shorter);
      StageNeverGoesBack(run, |run| - 2, |run| - 1);
      assert run[|run| - 2] == shorter[|shorter| - 1];
    }
  }

  /** Once Final, nothing of the status changes any more, deleted or not. */
  lemma {:induction false} FinalIsAbsorbing(run: seq<DataExport>, i: nat, j: nat)
    requires Run(run) && i <= j < |run| && run[i].status.stage == StageFinal
    ensures run[j].status == run[i].status
    decreases j
  {
    hide Step, Fresh, Invariant, GetDriverType, Run, Arrow;
    if i < j {
      FinalIsAbsorbing(run, i, j - 1);
      RunStep(run, j - 1);
    }
  }

  /** What is left to do from the transfer stages on. */
  function Measure(de: DataExport): nat {
    match de.status.stage
    case StageTransferScheduled =>
      if de.status.status == StatusSuccessful then 5 else if de.status.status == StatusFailed then 2 else 6
    case StageTransferInProgress =>
      if Settled(de.status.status) then 2 else if de.status.status == StatusInProgress then 3 else 4
    case StageCleanup => 1
    case StageFinal => 0
    case _ => 7
  }

  lemma ArrowDecreasesMeasure(prev: DataExport, next: DataExport)
    requires Rank(prev.status.stage) >= 6 && Arrow(prev, next)
    ensures Rank(next.status.stage) >= 6
    ensures Measure(next) < Measure(prev) || SamePoint(prev, next)
  {
    hide GetDriverType;
  }

  ghost function PointChanges(run: seq<DataExport>, i: nat, j: nat): nat
    requires i <= j < |run|
    decreases j
  {
    if i == j then 0
    else PointChanges(run, i, j - 1) + (if SamePoint(run[j - 1], run[j]) then 0 else 1)
  }

  /** From the transfer stages on, every change of (stage, status) uses up the measure: at most six are left. */
  lemma {:induction false} AtMostSixPointChanges(run: seq<DataExport>, i: nat, j: nat)
    requires Run(run) && i <= j < |run| && Rank(run[i].status.stage) >= 6
    ensures PointChanges(run, i, j) + Measure(run[j]) <= Measure(run[i]) <= 6
    decreases j
  {
    hide Step, Fresh, Invariant, GetDriverType, Run, Arrow, Continues;
    if i < j {
      AtMostSixPointChanges(run, i, j - 1);
      StageNeverGoesBack(run, i, j - 1);
      RunStep(run, j - 1);
      if !SamePoint(run[j - 1], run[j]) {
        ArrowDecreasesMeasure(run[j - 1], run[j]);
      }
    }
  }

  /** The driver has just said that the transfer is still going on. */
  predicate StillTransferring(a: Answers) {
    a.jobStatus.Ok? && (a.jobStatus.value.status == "" || a.jobStatus.value.state == D.JobStateInProgress)
  }

  lemma ScheduledMakesProgress(de: DataExport, a: Answers)
    requires Resolvable(de.spec) && !de.deleting && de.status.stage == StageTransferScheduled
    ensures SyncPlan(de, a).Stop? ==>
              de.status.stage == StageTransferScheduled
              && (SyncPlan(de, a).err || a.start in {JobAlreadyRunning, OutOfJobResources})
    ensures SyncPlan(de, a).Write? ==>
              Measure(Merge(de, SyncPlan(de, a).patch)) < Measure(de)
              || (SyncPlan(de, a).patch == IN_PROGRESS && de.status.status == StatusInProgress && StillTransferring(a))
  {
    hide Message, GetDriverType;
  }

  lemma InProgressMakesProgress(de: DataExport, a: Answers)
    requires Resolvable(de.spec) && !de.deleting && de.status.stage in {StageTransferInProgress, StageCleanup}
    ensures SyncPlan(de, a).Stop? ==>
              de.status.stage == StageTransferScheduled
              && (SyncPlan(de, a).err || a.start in {JobAlreadyRunning, OutOfJobResources})
    ensures SyncPlan(de, a).Write? ==>
              Measure(Merge(de, SyncPlan(de, a).patch)) < Measure(de)
              || (SyncPlan(de, a).patch == IN_PROGRESS && de.status.status == StatusInProgress && StillTransferring(a))
  {
    hide Message, GetDriverType, ParseJobID, PlanTransferScheduled, PlanInitial, Completed;
  }

  /** From the transfer stages on no `sync` is idle: it waits for a slot or for the transfer, fails with an error,
      or writes a patch that uses up the measure. */
  lemma SyncMakesProgress(de: DataExport, a: Answers)
    requires Resolvable(de.spec) && !de.deleting && 6 <= Rank(de.status.stage) <= 8
    ensures SyncPlan(de, a).Stop? ==>
              de.status.stage == StageTransferScheduled
              && (SyncPlan(de, a).err || a.start in {JobAlreadyRunning, OutOfJobResources})
    ensures SyncPlan(de, a).Write? ==>
              Measure(Merge(de, SyncPlan(de, a).patch)) < Measure(de)
              || (SyncPlan(de, a).patch == IN_PROGRESS && de.status.status == StatusInProgress && StillTransferring(a))
  {
    hide SyncPlan, GetDriverType, Measure, StillTransferring;
    if de.status.stage == StageTransferScheduled {
      ScheduledMakesProgress(de, a);
    } else {
      InProgressMakesProgress(de, a);
    }
  }

  /** Reading the VolumeBackup ends in a verdict, which uses up the measure whatever it says. */
  lemma VerdictMakesProgress(
      de: DataExport, a: Answers, verdict: Patch, updates: seq<seq<Attempt>>, was: seq<DataExport>,
      now: seq<DataExport>)
    requires SyncPlan(de, a).AwaitVolumeBackup?
    requires Controller.VerdictOf(SyncPlan(de, a).name, SyncPlan(de, a).progressPercents, a.vbReads, verdict, updates, was, now)
    ensures Settled(Merge(de, verdict).status.status) && Measure(Merge(de, verdict)) == 2 < Measure(de)
  {
    hide SyncPlan, Message, GetDriverType;
    Controller.AwaitMeansTransferring(de, a);
  }

  // ---------------------------------------------------------------- when a stage succeeds

  /** Everything the stage depends on has answered well. */
  predicate AllAnswersGood(de: DataExport, a: Answers) {
    var driver := if GetDriverType(de.spec).Ok? then GetDriverType(de.spec).value else "";
    var snapshotter := SnapshotDriver(de, a).Ok?;
    match de.status.stage
    case StageInitial => driver in {KOPIA_DELETE, KOPIA_MAINTENANCE} || a.checkErr.None?
    case StageSnapshotScheduled => snapshotter && a.createSnapshot.Ok?
    case StageSnapshotInProgress =>
      snapshotter && a.snapshotStatus.Ok? && a.snapshotStatus.value.0 == SnapshotReady && a.backupLocationErr.None? && a.uploadErr.None?
    case StageSnapshotRestore => snapshotter && a.sourceClaimErr.None? && !a.restoreClaim.ClaimFailed?
    case StageSnapshotRestoreInProgress =>
      snapshotter && a.sourceClaimErr.None? && a.restoreStatus.Ok? && a.restoreStatus.value.state == SnapshotReady
      && a.temporaryClaimErr.None?
    case StageLocalSnapshotRestore =>
      snapshotter && a.volumeBackupErr.None? && a.backupLocationErr.None? && a.localRestore == Ok(true)
    case StageLocalSnapshotRestoreInProgress => snapshotter && a.restoreStatus.Ok? && a.restoreStatus.value.state == SnapshotReady
    case StageTransferScheduled =>
      && a.certificateErr.None? && a.start.Started?
      && (driver in {KOPIA_BACKUP, KOPIA_RESTORE} ==> a.credentialErr.None?)
      && (driver == KOPIA_RESTORE ==> a.volumeBackupErr.None? && a.createClaimErr.None? && a.boundClaimErr.None?)
    case StageTransferInProgress =>
      && a.jobStatus.Ok? && a.jobStatus.value.status !in {"", D.JOB_FAILED} && a.jobStatus.value.state == D.JobStateCompleted
      && (driver == KOPIA_BACKUP ==> '/' in de.status.transferID)
    case _ => false
  }

  /** These stages try again after a failure. */
  const RETRIED: set<Stage> :=
    {StageInitial, StageSnapshotScheduled, StageSnapshotInProgress, StageSnapshotRestore, StageSnapshotRestoreInProgress}

  /** A stage whose outcome is open is recorded as successful, or goes on to read the VolumeBackup, exactly when every
      answer it depends on is good. */
  lemma StageSucceedsWhenAllIsGood(de: DataExport, a: Answers)
    requires Resolvable(de.spec) && !de.deleting && 1 <= Rank(de.status.stage) <= 7
    requires de.status.status != StatusSuccessful && (de.status.status == StatusFailed ==> de.status.stage in RETRIED)
    ensures AllAnswersGood(de, a) <==>
            SyncPlan(de, a).AwaitVolumeBackup? || (SyncPlan(de, a).Write? && SyncPlan(de, a).patch.status == StatusSuccessful)
  {
    NamespacedNameInvertsParse(de.status.transferID);
    hide Message, GetDriverType, SnapshotDriver, ParseJobID, ToSnapshotPVCName;
  }

  // ---------------------------------------------------------------- verdict

  /** The transfer, or the restore from the local snapshot, has been recorded as done. */
  predicate Succeeded(de: DataExport) {
    de.status.status == StatusSuccessful
    && de.status.stage in {StageTransferInProgress, StageLocalSnapshotRestoreInProgress}
  }

  /** This step ends the cleanup, and one of its `cleanUp` attempts returned nil. */
  ghost predicate CleanedUp(prev: DataExport, next: DataExport) {
    && prev.status.stage == StageCleanup && next.status.stage == StageFinal
    && exists in_, a, p :: SyncWrite(in_, prev, next, a, p) && true in a.cleanUps
  }

  lemma FinalSuccessMeansCleanedUp(prev: DataExport, next: DataExport)
    requires Step(prev, next) && Invariant(prev)
    requires prev.status.stage == StageCleanup && next.status.stage == StageFinal && next.status.status == StatusSuccessful
    ensures CleanedUp(prev, next) && prev.status.status == StatusSuccessful
  {
    hide SyncWrite, GetDriverType, Invariant;
    assert !ForeignWrite(prev, next, true);
    var in_, a, p :| SyncWrite(in_, prev, next, a, p);
    WriteLands(in_, prev, next, a, p);
  }

  lemma RunStartsUnset(run: seq<DataExport>)
    requires Run(run)
    ensures run != [] && run[0].status.stage == StageUnset
  {
  }

  lemma {:induction false} CleanupSuccessHasOrigin(run: seq<DataExport>, n: nat)
    returns (i: nat)
    requires Run(run) && n < |run| && run[n].status.stage == StageCleanup && run[n].status.status == StatusSuccessful
    ensures i < n && Succeeded(run[i])
    decreases n
  {
    hide Step, GetDriverType, Run, Invariant;
    assert n > 0 by { RunStartsUnset(run); }
    RunStep(run, n - 1);
    if SamePoint(run[n - 1], run[n]) {
      i := CleanupSuccessHasOrigin(run, n - 1);
    } else {
      i := n - 1;
    }
  }

  /** A run that is Final and Successful has recorded a successful transfer or local restore, and has then cleaned up. */
  lemma {:induction false} FinalSuccessHasOrigin(run: seq<DataExport>, n: nat)
    returns (i: nat, j: nat)
    requires Run(run) && n < |run| && run[n].status.stage == StageFinal && run[n].status.status == StatusSuccessful
    ensures i < j < n && Succeeded(run[i]) && CleanedUp(run[j], run[j + 1])
    decreases n
  {
    hide Step, GetDriverType, Run, Invariant, CleanedUp;
    assert n > 0 by { RunStartsUnset(run); }
    RunStep(run, n - 1);
    if SamePoint(run[n - 1], run[n]) {
      i, j := FinalSuccessHasOrigin(run, n - 1);
    } else {
      j := n - 1;
      FinalSuccessMeansCleanedUp(run[j], run[n]);
      i := CleanupSuccessHasOrigin(run, j);
    }
  }

  /** Failed, once recorded in the transfer stages or later, stays. */
  lemma {:induction false} FailureIsPermanent(run: seq<DataExport>, i: nat, j: nat)
    requires Run(run) && i <= j < |run|
    requires Rank(run[i].status.stage) >= 6 && run[i].status.status == StatusFailed
    ensures Rank(run[j].status.stage) >= 6 && run[j].status.status == StatusFailed
    decreases j
  {
    hide Step, GetDriverType, Run, Invariant, Continues;
    if i < j {
      FailureIsPermanent(run, i, j - 1);
      RunStep(run, j - 1);
    }
  }

  predicate LocalRestoreFailed(de: DataExport) {
    de.status.status == StatusFailed
    && de.status.stage in {StageLocalSnapshotRestore, StageLocalSnapshotRestoreInProgress}
  }

  /** A failed local restore is never final: the first place the run moves on to is the transfer from the bucket. */
  lemma {:induction false} FailedLocalRestoreFallsBack(run: seq<DataExport>, i: nat, j: nat)
    returns (k: nat)
    requires Run(run) && i < j < |run| && LocalRestoreFailed(run[i]) && !SamePoint(run[i], run[j])
    ensures i < k <= j
    ensures run[k].status.stage == StageTransferScheduled && run[k].status.status == StatusInitial
    ensures forall m :: i <= m < k ==> SamePoint(run[i], run[m])
    decreases j - i
  {
    hide Step, GetDriverType, Run, Invariant, Continues;
    RunStep(run, i);
    if SamePoint(run[i], run[i + 1]) {
      k := FailedLocalRestoreFallsBack(run, i + 1, j);
    } else {
      k := i + 1;
    }
  }

  // ---------------------------------------------------------------- what has been recorded stays recorded

  lemma {:induction false} RecordedNamesStay(run: seq<DataExport>, i: nat, j: nat)
    requires Run(run) && i <= j < |run|
    ensures Kept(run[i].status.transferID, run[j].status.transferID)
    ensures Kept(run[i].status.snapshotID, run[j].status.snapshotID)
    ensures Kept(run[i].status.snapshotPVCName, run[j].status.snapshotPVCName)
    ensures ClaimMade(run[i]) ==> ClaimMade(run[j]) && run[i].status.snapshotPVCName == run[j].status.snapshotPVCName
    decreases j
  {
    hide Step, GetDriverType, Run, Invariant;
    if i < j {
      RecordedNamesStay(run, i, j - 1);
      RunStep(run, j - 1);
    }
  }

  /** While a kopia transfer is on, the recorded id parses to the job namespace and the export's own name. */
  lemma TransferIdNamesTheExport(run: seq<DataExport>, i: nat)
    requires Run(run) && i < |run| && JobStarted(run[i]) && IsKopia(run[i].spec) && '/' !in JobNamespace(run[i].spec)
    ensures ParseJobID(run[i].status.transferID) == Ok((JobNamespace(run[i].spec), run[i].name))
    ensures JobNamespace(run[i].spec) ==
            (if IsKopiaBackup(run[i].spec) then run[i].spec.source else run[i].spec.destination).namespace
  {
    assert KOPIA_BACKUP[5] != KOPIA_RESTORE[5];
    hide Run, ParseJobID, NamespacedName, GetDriverType, ToSnapshotPVCName;
    RunKeepsInvariant(run, i);
    ParseInvertsNamespacedName(JobNamespace(run[i].spec), run[i].name);
  }

  lemma PlannedRemovalNeedsCleanUp(de: DataExport, a: Answers)
    requires SyncPlan(de, a).Write? && SyncPlan(de, a).patch.removeFinalizer
    requires !Resolvable(de.spec) || de.deleting || de.status.stage in {StageUnset, StageCleanup, StageFinal}
    ensures de.deleting && CLEANUP_FINALIZER in de.finalizers
    ensures if de.status.stage == StageInitial then a.deleteOk else a.cleanUps != [] && a.cleanUps[0]
  {
    hide Message, GetDriverType, PlanInitial, PlanSnapshotScheduled, PlanSnapshotInProgress, PlanSnapshotRestore,
      PlanSnapshotRestoreInProgress, PlanLocalSnapshotRestore, PlanLocalSnapshotRestoreInProgress, PlanTransferScheduled,
      PlanTransferInProgress;
  }

  lemma MovesKeepFinalizer(de: DataExport, a: Answers, p: Patch)
    requires Moves(de, a, p)
    ensures !p.removeFinalizer
  {
    hide GetDriverType, RestoredClaimName, Diagram;
  }

  lemma RemovalNeedsCleanUp(de: DataExport, a: Answers, p: Patch)
    requires Decides(de, a, p) && p.removeFinalizer && (Rank(de.status.stage) >= 2 ==> Resolvable(de.spec))
    ensures de.deleting && CLEANUP_FINALIZER in de.finalizers
    ensures if de.status.stage == StageInitial then a.deleteOk else a.cleanUps != [] && a.cleanUps[0]
  {
    hide SyncPlan, Moves, GetDriverType, Completed, VolumeBackupUnread;
    if Moves(de, a, p) {
      MovesKeepFinalizer(de, a, p);
    } else if SyncPlan(de, a).AwaitVolumeBackup? {
      AwaitMoves(de, a, p);
    } else if !Resolvable(de.spec) || de.deleting || de.status.stage in {StageUnset, StageCleanup, StageFinal} {
      PlannedRemovalNeedsCleanUp(de, a);
    } else {
      HandlersFollow(de, a);
    }
  }

  /** The controller takes its finalizer off only an object being deleted, and past the initial stage only after
      `cleanUp` has returned nil. */
  lemma FinalizerNeedsCleanUp(in_: DataExport, prev: DataExport, next: DataExport, a: Answers, p: Patch)
    requires SyncWrite(in_, prev, next, a, p) && Invariant(prev)
    requires CLEANUP_FINALIZER in prev.finalizers && CLEANUP_FINALIZER !in next.finalizers
    ensures in_.deleting
    ensures if prev.status.stage == StageInitial then a.deleteOk else a.cleanUps != [] && a.cleanUps[0]
  {
    hide Decides, Moves, LocalCopy, GetDriverType, Honest, JobIdInv, ClaimNameInv, Merge;
    WriteLands(in_, prev, next, a, p);
    RemovalNeedsCleanUp(in_, a, p);
  }

  // ---------------------------------------------------------------- the reason of a failure

  /** The snapshotter answers that the snapshot, or the claim made from it, has failed, and not why. */
  predicate SnapshotterIsSilent(de: DataExport, a: Answers) {
    var restoreFailed := a.restoreStatus.Ok? && a.restoreStatus.value.state == SnapshotFailed && a.restoreStatus.value.reason == "";
    match de.status.stage
    case StageSnapshotInProgress => a.snapshotStatus == Ok((SnapshotFailed, ""))
    case StageSnapshotRestoreInProgress => a.sourceClaimErr.None? && restoreFailed
    case StageLocalSnapshotRestoreInProgress => SnapshotDriver(de, a).Ok? && restoreFailed
    case _ => false
  }

  lemma DriverErrorIsNotEmpty(de: DataExport, a: Answers)
    ensures SnapshotDriver(de, a).Err? ==> SnapshotDriver(de, a).msg != ""
  {
    hide Message, GetSnapshotDriverName;
  }

  /** The same for what the two transfer stages decide. */
  lemma TransferFailureIsExplained(de: DataExport, a: Answers, driver: string)
    requires de.status.stage in {StageTransferScheduled, StageTransferInProgress}
    ensures var plan := PlanTransferScheduled(de, a, driver);
            plan.Write? && plan.patch.status == StatusFailed && plan.patch.stage == StageUnset ==> plan.patch.reason != ""
    ensures var plan := PlanTransferInProgress(de, a, driver);
            plan.Write? && plan.patch.status == StatusFailed && plan.patch.stage == StageUnset ==> plan.patch.reason != ""
  {
    hide Message, ParseJobID;
  }

  /** A failure recorded at a stage says why, except when the snapshotter does not: then the reason that was there before
      stays, whatever it was about. */
  lemma FailureIsExplained(de: DataExport, a: Answers, p: Patch)
    requires Decides(de, a, p) && p.status == StatusFailed && p.stage == StageUnset && Resolvable(de.spec)
    ensures p.reason == "" <==> SnapshotterIsSilent(de, a)
    ensures Merge(de, p).status.reason == if SnapshotterIsSilent(de, a) then de.status.reason else p.reason
  {
    hide Message, GetDriverType, SnapshotDriver, ToSnapshotPVCName, FirstWorkingStage, PlanTransferScheduled, PlanTransferInProgress;
    if de.status.stage in {StageTransferScheduled, StageTransferInProgress} {
      TransferFailureIsExplained(de, a, GetDriverType(de.spec).value);
    }
    DriverErrorIsNotEmpty(de, a);
  }

  // ---------------------------------------------------------------- what `updateStatus` may write instead

  /** The handler has changed something in memory that its patch does not ask for. */
  predicate CopyIsDirty(de: DataExport, a: Answers) {
    || (de.status.stage == StageUnset && de.spec.exportType == "")
    || (&& ReachesStartJob(de, a) && a.labelsShared && de.labels != map[]
        && (DRIVER_NAME_LABEL in de.labels ==> de.labels[DRIVER_NAME_LABEL] != GetDriverType(de.spec).value))
  }

  /** What the handler changes in memory apart from the status. */
  lemma LocalCopyChanges(de: DataExport, a: Answers)
    ensures var copy := LocalCopy(de, a);
            (copy.spec == de.spec && copy.labels == de.labels <==> !CopyIsDirty(de, a))
            && copy == de.(spec := copy.spec, labels := copy.labels, status := copy.status)
  {
    hide SyncPlan, GetDriverType, BeforeStartJob, Message;
    var driver := GetDriverType(de.spec);
    if driver.Ok? {
      var labels := de.labels[DRIVER_NAME_LABEL := driver.value];
      assert labels[DRIVER_NAME_LABEL] == driver.value;
      assert DRIVER_NAME_LABEL in de.labels && de.labels[DRIVER_NAME_LABEL] == driver.value ==> labels == de.labels;
    }
  }

  /** When its read misses the object, `updateStatus` writes the caller's copy: that equals the patch merged onto
      the stored version exactly when the handler had changed nothing else in memory. */
  lemma CallerCopyAgrees(de: DataExport, a: Answers, p: Patch)
    requires Invariant(de) && Decides(de, a, p)
    ensures Merge(LocalCopy(de, a), p) == Merge(de, p) <==> !CopyIsDirty(de, a)
  {
    LocalCopyAddsNoStatus(de, a, p);
    LocalCopyChanges(de, a);
    hide Decides, LocalCopy, CopyIsDirty, Invariant, MergeStatus;
  }

  /** The patch says nothing about the stage it was decided at: a `sync` that acts on a status already
      overwritten by its predecessor turns a recorded failure back into a fresh transfer. */
  lemma StaleReadUndoesVerdict(stale: DataExport, stored: DataExport, a: Answers)
    requires Resolvable(stale.spec) && !stale.deleting
    requires stale.status.stage == StageTransferScheduled && stale.status.status == StatusSuccessful
    requires stored.status.stage == StageTransferInProgress && stored.status.status == StatusFailed
    ensures SyncPlan(stale, a).Write?
    ensures var next := Merge(stored, SyncPlan(stale, a).patch);
            next.status.stage == StageTransferInProgress && next.status.status == StatusInitial
  {
    hide GetDriverType, Message, ParseJobID;
  }
}
