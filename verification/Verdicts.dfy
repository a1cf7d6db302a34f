/** What the drivers see of a job and what `sync` makes of it, together: when a transfer is recorded as failed, goes on, or
    is done. */
module Verdicts {
  import opened Wrappers
  import opened KdmpApi
  import opened Naming
  import opened StatusStore
  import opened Reconciler
  import opened Runs
  import Lifecycle
  import D = Drivers

  /** `sync` asks the driver about this export, and what it hears decides. */
  predicate Undecided(de: DataExport) {
    de.status.stage == StageTransferInProgress && !de.deleting && !Settled(de.status.status)
  }

  /** The condition the job lists first, which need not be a true one; none before it has ended. */
  function FirstCondition(job: D.Job): string {
    if job.conditions == [] then "" else job.conditions[0].kind
  }

  /** The id parses, and the job and the node it has been put on can be read. */
  predicate Visible(id: string, view: D.JobView) {
    '/' in id && view.job.Ok? && (view.job.value.nodeName == "" || view.nodeExists)
  }

  predicate IsTrue(job: D.Job, kind: string) {
    exists c :: c in job.conditions && c == D.JobCondition(kind, true)
  }

  /** The job has failed, or the node it has been put on is not ready. */
  predicate JobOrNodeFailed(view: D.JobView)
    requires view.job.Ok?
  {
    if view.job.value.nodeName != "" && !view.nodeReady then true else IsTrue(view.job.value, D.JOB_FAILED)
  }

  /** The object the pod writes cannot be read, or is not there although the pod is past waiting. */
  predicate ObjectMissing(view: D.JobView, vb: D.VolumeBackupAnswer) {
    vb.VbError? || (vb.VbNotFound? && !view.podPending)
  }

  predicate BackupFails(id: string, view: D.JobView, vb: D.VolumeBackupAnswer) {
    '/' in id && (Visible(id, view) ==>
                    || (!JobOrNodeFailed(view) && ObjectMissing(view, vb))
                    || (&& FirstCondition(view.job.value) != ""
                        && (|| FirstCondition(view.job.value) == D.JOB_FAILED
                            || JobOrNodeFailed(view)
                            || (vb.VbFound? && vb.vb.status.lastKnownError != ""))))
  }

  predicate BackupIsDone(id: string, view: D.JobView, vb: D.VolumeBackupAnswer) {
    && Visible(id, view) && !JobOrNodeFailed(view) && FirstCondition(view.job.value) !in {"", D.JOB_FAILED}
    && vb.VbFound? && vb.vb.status.progressPercentage == 100.0 && vb.vb.status.lastKnownError == ""
  }

  predicate RestoreFails(id: string, view: D.JobView) {
    '/' in id && (Visible(id, view) ==>
                    || FirstCondition(view.job.value) == D.JOB_FAILED
                    || (FirstCondition(view.job.value) != "" && IsTrue(view.job.value, D.JOB_FAILED)))
  }

  predicate RestoreIsDone(id: string, view: D.JobView) {
    && Visible(id, view) && FirstCondition(view.job.value) !in {"", D.JOB_FAILED}
    && !IsTrue(view.job.value, D.JOB_FAILED) && IsTrue(view.job.value, D.JOB_COMPLETE) && !view.podPending
  }

  /** `sync` records the transfer as failed, and says why. */
  predicate RecordsFailure(plan: Plan) {
    plan.Write? && plan.patch == Fail(plan.patch.reason) && plan.patch.reason != ""
  }

  predicate KeepsWaiting(plan: Plan) {
    plan.Write? && plan.patch == IN_PROGRESS
  }

  lemma TrueConditionIsHeld(job: D.Job, kind: string)
    ensures D.HasCondition(job, kind) <==> IsTrue(job, kind)
  {
    if D.HasCondition(job, kind) {
      var c :| c in job.conditions && c.kind == kind && c.isTrue;
      assert c == D.JobCondition(kind, true);
    }
  }

  predicate EndsWith(text: string, tail: string) {
    |tail| <= |text| && text[|text| - |tail|..] == tail
  }

  lemma MessageEndsWithError(cause: Cause, subject: string, err: string)
    requires !IsFixedText(cause)
    ensures EndsWith(Message(cause, subject, err), err)
  {
    hide Opening;
  }

  // ---------------------------------------------------------------- what the drivers say

  /** The status `sync` looks at first is the job's first condition, whatever the state says. */
  lemma BackupSays(id: string, view: D.JobView, vb: D.VolumeBackupAnswer)
    ensures var r := D.BackupJobStatus(id, view, vb);
            && (r.Err? <==> '/' in id && (Visible(id, view) ==> !JobOrNodeFailed(view) && ObjectMissing(view, vb)))
            && (r.Ok? ==> r.value.status == if '/' in id then FirstCondition(view.job.value) else "")
            && (r.Ok? ==> (r.value.state == D.JobStateFailed
                           <==> '/' !in id || JobOrNodeFailed(view) || (vb.VbFound? && vb.vb.status.lastKnownError != "")))
            && (r.Ok? && r.value.state == D.JobStateCompleted
                <==> && Visible(id, view) && !JobOrNodeFailed(view) && vb.VbFound?
                     && vb.vb.status.progressPercentage == 100.0 && vb.vb.status.lastKnownError == "")
            && (Visible(id, view) && !JobOrNodeFailed(view) && vb.VbFound? ==>
                  && r.Ok? && r.value.reason == vb.vb.status.lastKnownError
                  && (r.value.reason == "" ==> r.value.progressPercents == vb.vb.status.progressPercentage))
  {
    D.BackupJobFailures(id, view, vb);
    D.BackupJobCompleted(id, view, vb);
    NamespacedNameInvertsParse(id);
    if view.job.Ok? {
      TrueConditionIsHeld(view.job.value, D.JOB_FAILED);
    }
    hide ParseJobID, D.HasCondition, IsTrue;
  }

  lemma RestoreSays(id: string, view: D.JobView)
    ensures var r := D.RestoreJobStatus(id, view);
            && (r.Err? <==> '/' in id && !Visible(id, view))
            && (r.Ok? ==> r.value.status == if '/' in id then FirstCondition(view.job.value) else "")
            && (r.Ok? ==> (r.value.state == D.JobStateFailed <==> '/' !in id || IsTrue(view.job.value, D.JOB_FAILED)))
            && (r.Ok? && r.value.state == D.JobStateCompleted
                <==> && Visible(id, view) && !IsTrue(view.job.value, D.JOB_FAILED) && IsTrue(view.job.value, D.JOB_COMPLETE)
                     && !view.podPending)
  {
    D.RestoreJobCompleted(id, view);
    NamespacedNameInvertsParse(id);
    if view.job.Ok? {
      TrueConditionIsHeld(view.job.value, D.JOB_FAILED);
      TrueConditionIsHeld(view.job.value, D.JOB_COMPLETE);
      assert |"check " + id + " job for details: data transfer job failed"| > 0;
    }
    if ParseJobID(id).Err? {
      assert ParseJobID(id).msg == "invalid job id";
    }
    hide D.HasCondition, IsTrue;
  }

  // ---------------------------------------------------------------- what `sync` makes of it

  /** The verdict on an answer of the driver: an error fails the export, no first condition waits, "Failed" fails, and only
      then the state decides. */
  lemma AnswerDecides(de: DataExport, a: Answers)
    requires Undecided(de) && IsKopia(de.spec)
    ensures var plan, r := SyncPlan(de, a), a.jobStatus;
            var idFails := IsKopiaBackup(de.spec) && '/' !in de.status.transferID;
            && (RecordsFailure(plan) <==>
                || r.Err?
                || r.value.status == D.JOB_FAILED
                || (r.value.status != "" && (|| r.value.state == D.JobStateFailed
                                             || (r.value.state == D.JobStateCompleted && idFails))))
            && (plan.AwaitVolumeBackup? <==>
                r.Ok? && r.value.status !in {"", D.JOB_FAILED} && r.value.state == D.JobStateCompleted && !idFails)
            && (KeepsWaiting(plan) <==> !RecordsFailure(plan) && !plan.AwaitVolumeBackup?)
  {
    NamespacedNameInvertsParse(de.status.transferID);
    hide Message, GetDriverType, ParseJobID;
    assert D.JOB_FAILED != "";
  }

  lemma UndecidedPlan(de: DataExport, a: Answers)
    requires Undecided(de) && Resolvable(de.spec)
    ensures SyncPlan(de, a) == PlanTransferInProgress(de, a, GetDriverType(de.spec).value)
  {
    hide Message, GetDriverType, PlanInitial, PlanSnapshotScheduled, PlanSnapshotInProgress, PlanSnapshotRestore,
      PlanSnapshotRestoreInProgress, PlanLocalSnapshotRestore, PlanLocalSnapshotRestoreInProgress, PlanTransferScheduled,
      PlanTransferInProgress;
  }

  /** A failure of the transfer names the driver's error, or the reason the driver has given. */
  lemma TransferFailureNamesItsError(de: DataExport, a: Answers)
    requires Undecided(de) && Resolvable(de.spec) && RecordsFailure(SyncPlan(de, a))
    ensures var reason, r := SyncPlan(de, a).patch.reason, a.jobStatus;
            && (r.Err? ==> EndsWith(reason, r.msg))
            && (r.Ok? && r.value.state != D.JobStateCompleted && r.value.reason != "" ==> EndsWith(reason, r.value.reason))
  {
    hide SyncPlan, Message, GetDriverType, ParseJobID, EndsWith;
    UndecidedPlan(de, a);
    MessagesEndWithErrors();
  }

  /** A transfer looked at is looked at again at once if its job has no condition yet, or has just been found to have failed;
      otherwise at the next periodic sync. */
  lemma TransferIsRequeued(de: DataExport, a: Answers)
    requires Undecided(de) && Resolvable(de.spec) && SyncPlan(de, a).Write?
    ensures SyncPlan(de, a).requeue <==>
            a.jobStatus.Ok? && (a.jobStatus.value.status in {"", D.JOB_FAILED} || a.jobStatus.value.state == D.JobStateFailed)
  {
    hide Message, GetDriverType, ParseJobID;
  }

  lemma EndsWithItself(text: string)
    ensures EndsWith(text, text) && EndsWith(text, "")
  {
  }

  /** A kopia backup whose transfer is open is recorded as failed, goes on to read its VolumeBackup, or keeps waiting, each
      exactly under this condition on the job, its node, its pod and the VolumeBackup. */
  lemma BackupVerdict(de: DataExport, a: Answers, view: D.JobView, vb: D.VolumeBackupAnswer)
    requires Undecided(de) && IsKopiaBackup(de.spec) && a.jobStatus == D.BackupJobStatus(de.status.transferID, view, vb)
    ensures var plan, id := SyncPlan(de, a), de.status.transferID;
            && (RecordsFailure(plan) <==> BackupFails(id, view, vb))
            && (plan.AwaitVolumeBackup? <==> BackupIsDone(id, view, vb))
            && (KeepsWaiting(plan) <==> !BackupFails(id, view, vb) && !BackupIsDone(id, view, vb))
  {
    hide SyncPlan, D.BackupJobStatus, GetDriverType, Undecided, JobOrNodeFailed, RecordsFailure, KeepsWaiting;
    AnswerDecides(de, a);
    BackupSays(de.status.transferID, view, vb);
  }

  /** The same for a kopia restore, which goes by the job alone. */
  lemma RestoreVerdict(de: DataExport, a: Answers, view: D.JobView)
    requires Undecided(de) && GetDriverType(de.spec) == Ok(KOPIA_RESTORE)
    requires a.jobStatus == D.RestoreJobStatus(de.status.transferID, view)
    ensures var plan, id := SyncPlan(de, a), de.status.transferID;
            && (RecordsFailure(plan) <==> RestoreFails(id, view))
            && (plan.AwaitVolumeBackup? <==> RestoreIsDone(id, view))
            && (KeepsWaiting(plan) <==> !RestoreFails(id, view) && !RestoreIsDone(id, view))
  {
    hide SyncPlan, D.RestoreJobStatus, GetDriverType, Undecided, RecordsFailure, KeepsWaiting, IsTrue;
    AnswerDecides(de, a);
    RestoreSays(de.status.transferID, view);
    assert !IsKopiaBackup(de.spec) by { assert KOPIA_BACKUP[5] != KOPIA_RESTORE[5]; }
  }

  /** A job that lists a true Failed condition first, and one that has ended after its pod recorded an error, fails the
      export at the next `sync`, whatever else the driver sees. */
  lemma FailedJobFailsTheExport(de: DataExport, a: Answers, view: D.JobView, vb: D.VolumeBackupAnswer)
    requires Undecided(de) && IsKopiaBackup(de.spec) && a.jobStatus == D.BackupJobStatus(de.status.transferID, view, vb)
    requires Invariant(de) && view.job.Ok? && view.job.value.conditions != []
    requires || view.job.value.conditions[0] == D.JobCondition(D.JOB_FAILED, true)
             || (vb.VbFound? && vb.vb.status.lastKnownError != "" && view.job.value.conditions[0].kind != "")
    ensures RecordsFailure(SyncPlan(de, a))
  {
    hide SyncPlan, D.BackupJobStatus, GetDriverType, RecordsFailure, KeepsWaiting, Invariant;
    TransferIdHasSlash(de);
    BackupVerdict(de, a, view, vb);
  }

  lemma TransferIdHasSlash(de: DataExport)
    requires Invariant(de) && de.status.stage == StageTransferInProgress && IsKopia(de.spec)
    ensures '/' in de.status.transferID
  {
    assert StartedID(de)[|JobNamespace(de.spec)|] == '/';
    hide GetDriverType, StageInv, ClaimNameInv;
  }

  // ---------------------------------------------------------------- deleted exports, and exports nobody can work on

  /** An export whose driver is not known is recorded as failed by every `sync`, unless it has not been looked at yet, or is
      deleted before anything was started. */
  lemma UnknownDriverFails(de: DataExport, a: Answers)
    requires !Resolvable(de.spec) && de.status.stage != StageUnset && !(de.deleting && de.status.stage == StageInitial)
    ensures RecordsFailure(SyncPlan(de, a)) && !SyncPlan(de, a).requeue
  {
    hide Message, GetDriverType;
  }

  /** A deleted export keeps the controller's finalizer until what there is to clean up is cleaned up, and `sync` comes back
      with an error until then; once the finalizer is off, there is nothing to do. */
  lemma DeletedExportIsReleased(de: DataExport, a: Answers)
    requires de.deleting && de.status.stage != StageUnset && (Resolvable(de.spec) || de.status.stage == StageInitial)
    ensures var plan := SyncPlan(de, a);
            var cleaned := if de.status.stage == StageInitial then a.deleteOk else a.cleanUps != [] && a.cleanUps[0];
            if CLEANUP_FINALIZER !in de.finalizers then plan == Stop(false, false)
            else if !cleaned then plan == Stop(true, true)
            else plan.Write? && plan.requeue && Merge(de, plan.patch) == de.(finalizers := de.finalizers - {CLEANUP_FINALIZER})
  {
    hide Message, GetDriverType;
  }

  /** There is a driver for the snapshot exactly when there is a class for it that is the default one, or is looked up
      without the answer "not found", and the driver is there; it is the CSI driver unless the lookup itself has failed. */
  lemma SnapshotDriverIsFound(de: DataExport, a: Answers)
    ensures var class_, r := de.spec.snapshotStorageClass, SnapshotDriver(de, a);
            var isDefault := class_ == "default" || class_ == "Default";
            && (r.Ok? <==> class_ != "" && (isDefault || a.classLookup.ClassFound? || a.classLookup.ClassLookupFailed?)
                           && a.snapshotDriverErr.None?)
            && (r.Ok? ==> r.value == if isDefault || a.classLookup.ClassFound? then "csi" else "")
            && (r.Err? && a.classLookup.NoClusterConfig? && class_ != "" && !isDefault ==> EndsWith(r.msg, a.classLookup.msg))
  {
    MessagesEndWithErrors();
    hide Message, EndsWith;
  }

  // ---------------------------------------------------------------- from one stage to the next

  /** The outcome of the stage is known, and `sync` is to go on from it. */
  predicate IsSettled(de: DataExport) {
    && Resolvable(de.spec) && !de.deleting
    && ((1 <= Rank(de.status.stage) <= 7 && de.status.status == StatusSuccessful)
        || (de.status.status == StatusFailed
            && de.status.stage in {StageLocalSnapshotRestore, StageLocalSnapshotRestoreInProgress, StageTransferScheduled,
                                   StageTransferInProgress}))
  }

  /** Where it goes on: past the snapshot when there is no class for one, from a failed local restore to the transfer, and
      from a failed transfer to the cleanup. */
  function NextPoint(de: DataExport): (Stage, Status)
    requires IsSettled(de)
  {
    var failed := de.status.status == StatusFailed;
    match de.status.stage
    case StageInitial =>
      if de.status.localSnapshotRestore then (StageLocalSnapshotRestore, StatusInitial)
      else if de.spec.snapshotStorageClass != "" then (StageSnapshotScheduled, StatusInitial)
      else (StageTransferScheduled, StatusInitial)
    case StageSnapshotScheduled => (StageSnapshotInProgress, StatusInitial)
    case StageSnapshotInProgress => (StageSnapshotRestore, StatusInitial)
    case StageSnapshotRestore => (StageSnapshotRestoreInProgress, StatusInitial)
    case StageSnapshotRestoreInProgress => (StageTransferScheduled, StatusInitial)
    case StageLocalSnapshotRestore =>
      (if failed then StageTransferScheduled else StageLocalSnapshotRestoreInProgress, StatusInitial)
    case StageLocalSnapshotRestoreInProgress =>
      if failed then (StageTransferScheduled, StatusInitial) else (StageCleanup, StatusSuccessful)
    case StageTransferScheduled => if failed then (StageCleanup, StatusFailed) else (StageTransferInProgress, StatusInitial)
    case _ => (StageCleanup, de.status.status)
  }

  /** From a settled stage `sync` goes on to the next, whatever it hears, and changes nothing else but a reason; only the
      restore of a snapshot, once it is done, stays where it is as long as its driver is not found. */
  lemma SettledStageMovesOn(de: DataExport, a: Answers)
    requires IsSettled(de)
    ensures var plan := SyncPlan(de, a);
            if de.status.stage == StageSnapshotRestoreInProgress && SnapshotDriver(de, a).Err? then plan == Stop(false, true)
            else
              && plan.Write?
              && var now := Merge(de, plan.patch);
                 && (now.status.stage, now.status.status) == NextPoint(de)
                 && now == de.(status := de.status.(stage := now.status.stage, status := now.status.status, reason := now.status.reason))
                 && (now.status.reason != de.status.reason ==>
                       de.status.stage == StageLocalSnapshotRestore && de.status.status == StatusFailed)
                 && (plan.requeue <==> de.status.status == StatusSuccessful && de.status.stage != StageTransferInProgress)
  {
    hide Message, GetDriverType, SnapshotDriver, ToSnapshotPVCName;
  }

  // ---------------------------------------------------------------- the stages before

  /** The stage has an outcome to look for, and its driver is known. */
  predicate InStage(de: DataExport) {
    && Resolvable(de.spec) && !de.deleting && 1 <= Rank(de.status.stage) <= 6 && de.status.status != StatusSuccessful
    && (de.status.status == StatusFailed ==> de.status.stage in Lifecycle.RETRIED)
  }

  /** Some answer the stage depends on is a failure that is recorded. */
  predicate StageFails(de: DataExport, a: Answers) {
    var driver := GetDriverType(de.spec);
    var snapshotter := SnapshotDriver(de, a).Ok?;
    var snapshotFailed := a.snapshotStatus.Err? || a.snapshotStatus.value.0 == SnapshotFailed;
    var restoreFailed := a.restoreStatus.Err? || a.restoreStatus.value.state == SnapshotFailed;
    match de.status.stage
    case StageInitial => driver !in {Ok(KOPIA_DELETE), Ok(KOPIA_MAINTENANCE)} && a.checkErr.Some?
    case StageSnapshotScheduled => snapshotter && a.createSnapshot.Err?
    case StageSnapshotInProgress =>
      snapshotter && (snapshotFailed || (a.snapshotStatus.value.0 == SnapshotReady && (a.backupLocationErr.Some? || a.uploadErr.Some?)))
    case StageSnapshotRestore => snapshotter && (a.sourceClaimErr.Some? || a.restoreClaim.ClaimFailed?)
    case StageSnapshotRestoreInProgress =>
      snapshotter && (|| a.sourceClaimErr.Some? || restoreFailed
                      || (a.restoreStatus.value.state == SnapshotReady && a.temporaryClaimErr.Some?))
    case StageLocalSnapshotRestore =>
      !snapshotter || a.volumeBackupErr.Some? || a.backupLocationErr.Some? || a.localRestore != Ok(true)
    case StageLocalSnapshotRestoreInProgress => !snapshotter || restoreFailed
    case StageTransferScheduled =>
      && a.certificateErr.None?
      && (|| a.start.StartFailed?
          || (driver in {Ok(KOPIA_BACKUP), Ok(KOPIA_RESTORE)} && a.credentialErr.Some?)
          || (driver == Ok(KOPIA_RESTORE) && (a.volumeBackupErr.Some? || a.createClaimErr.Some? || a.boundClaimErr.Some?)))
    case _ => false
  }

  /** Nothing is recorded, and `sync` returns an error: there is no snapshot driver, or no certificate. */
  predicate StageErrs(de: DataExport, a: Answers) {
    match de.status.stage
    case StageSnapshotScheduled | StageSnapshotInProgress | StageSnapshotRestore | StageSnapshotRestoreInProgress =>
      SnapshotDriver(de, a).Err?
    case StageTransferScheduled => a.certificateErr.Some?
    case _ => false
  }

  /** Before the transfer a stage ends in exactly one of four ways: success, by `Lifecycle.StageSucceedsWhenAllIsGood`; a
      recorded failure; an error; and otherwise it waits, for the snapshotter with its reason, or for a slot. */
  lemma StageOutcomes(de: DataExport, a: Answers)
    requires InStage(de)
    ensures var plan, good := SyncPlan(de, a), Lifecycle.AllAnswersGood(de, a);
            && (plan.Write? && plan.patch.status == StatusFailed <==> StageFails(de, a))
            && (plan.Stop? && plan.err <==> StageErrs(de, a))
            && (!good && !StageFails(de, a) && !StageErrs(de, a) <==>
                plan == Stop(true, false) || (plan.Write? && plan.patch == IN_PROGRESS.(reason := plan.patch.reason)))
            && !(StageFails(de, a) && StageErrs(de, a)) && (good ==> !StageFails(de, a) && !StageErrs(de, a))
            && (plan.requeue <==> good || plan == Stop(true, false)) // otherwise the next periodic sync looks again
  {
    hide Message, GetDriverType, SnapshotDriver, ToSnapshotPVCName, PlanTransferInProgress, RestoredClaimName;
  }

  /** The text of the first error a stage has met, in the order in which it asks. */
  function FirstErrorText(de: DataExport, a: Answers): string {
    var noDriver := if SnapshotDriver(de, a).Err? then Some(SnapshotDriver(de, a).msg) else None;
    var noClaim := if a.restoreClaim.ClaimFailed? then Some(a.restoreClaim.msg) else None;
    var noStart := if a.start.StartFailed? then Some(a.start.msg) else None;
    var localFailed := if a.localRestore.Err? then Some(a.localRestore.msg) else None;
    var text :=
      match de.status.stage
      case StageInitial => a.checkErr
      case StageSnapshotScheduled => MsgOf(a.createSnapshot)
      case StageSnapshotInProgress => Or(Or(MsgOf(a.snapshotStatus), SnapshotWord(a)), Or(a.backupLocationErr, a.uploadErr))
      case StageSnapshotRestore => Or(a.sourceClaimErr, noClaim)
      case StageSnapshotRestoreInProgress => Or(a.sourceClaimErr, Or(Or(MsgOf(a.restoreStatus), RestoreWord(a)), a.temporaryClaimErr))
      case StageLocalSnapshotRestore => Or(noDriver, Or(a.volumeBackupErr, Or(a.backupLocationErr, localFailed)))
      case StageLocalSnapshotRestoreInProgress => Or(noDriver, Or(MsgOf(a.restoreStatus), RestoreWord(a)))
      case _ =>
        var driver := GetDriverType(de.spec);
        if driver == Ok(KOPIA_BACKUP) then Or(a.credentialErr, noStart)
        else if driver == Ok(KOPIA_RESTORE) then
          Or(Or(a.volumeBackupErr, Or(a.createClaimErr, a.boundClaimErr)), Or(a.credentialErr, noStart))
        else noStart;
    if text.Some? then text.value else ""
  }

  function Or(first: Option<string>, second: Option<string>): Option<string> {
    if first.Some? then first else second
  }

  function MsgOf<T>(r: Result<T>): Option<string> {
    if r.Err? then Some(r.msg) else None
  }

  /** What the snapshotter says of a snapshot that has failed, and of a restore. */
  function SnapshotWord(a: Answers): Option<string> {
    if a.snapshotStatus.Ok? && a.snapshotStatus.value.0 == SnapshotFailed then Some(a.snapshotStatus.value.1) else None
  }

  function RestoreWord(a: Answers): Option<string> {
    if a.restoreStatus.Ok? && a.restoreStatus.value.state == SnapshotFailed then Some(a.restoreStatus.value.reason) else None
  }

  lemma ScheduledFailureNamesItsError(de: DataExport, a: Answers)
    requires InStage(de) && StageFails(de, a) && de.status.stage == StageTransferScheduled
    ensures SyncPlan(de, a).Write? && EndsWith(SyncPlan(de, a).patch.reason, FirstErrorText(de, a))
  {
    hide Message, GetDriverType, EndsWith, SnapshotDriver, SnapshotWord, RestoreWord, MsgOf;
    MessagesEndWithErrors();
  }

  lemma MessagesEndWithErrors()
    ensures forall cause, subject, err :: !IsFixedText(cause) ==> EndsWith(Message(cause, subject, err), err)
    ensures forall text :: EndsWith(text, text) && EndsWith(text, "")
  {
    hide Message, EndsWith;
    forall cause, subject, err | !IsFixedText(cause) ensures EndsWith(Message(cause, subject, err), err) {
      MessageEndsWithError(cause, subject, err);
    }
    forall text ensures EndsWith(text, text) && EndsWith(text, "") {
      EndsWithItself(text);
    }
  }

  /** A failure recorded before the transfer names the first error the stage has met. */
  lemma FailureNamesItsError(de: DataExport, a: Answers)
    requires InStage(de) && StageFails(de, a)
    ensures SyncPlan(de, a).Write? && EndsWith(SyncPlan(de, a).patch.reason, FirstErrorText(de, a))
  {
    hide Message, GetDriverType, SnapshotDriver, ToSnapshotPVCName, PlanTransferInProgress, PlanTransferScheduled, RestoredClaimName,
      EndsWith;
    if de.status.stage == StageTransferScheduled {
      ScheduledFailureNamesItsError(de, a);
    } else {
      MessagesEndWithErrors();
    }
  }

  /** What the stored status says after a stage before the transfer has succeeded is what that stage was told: the snapshot
      and where it is, the claim made from it, the size restored, the job. */
  lemma SuccessIsStored(de: DataExport, a: Answers)
    requires InStage(de) && Lifecycle.AllAnswersGood(de, a)
    ensures SyncPlan(de, a).Write? && SyncPlan(de, a).requeue
    ensures var now, was := Merge(de, SyncPlan(de, a).patch).status, de.status;
            && now.status == StatusSuccessful && now.stage == was.stage && now.progressPercentage == was.progressPercentage
            && (if was.stage == StageSnapshotScheduled && a.createSnapshot.value.0 != "" && a.createSnapshot.value.1 != "" then
                  && (now.snapshotID, now.snapshotNamespace) == a.createSnapshot.value
                  && now.volumeSnapshot == ToSnapshotPVCName(de.spec.source.name, de.uid)
                else if was.stage != StageSnapshotScheduled then
                  && now.snapshotID == was.snapshotID && now.snapshotNamespace == was.snapshotNamespace
                  && now.volumeSnapshot == was.volumeSnapshot
                else true)
            && (if was.stage == StageSnapshotRestore && a.restoreClaim.ClaimCreated? then
                  now.snapshotPVCName == ToSnapshotPVCName(de.spec.source.name, de.uid)
                  && (de.namespace != "" ==> now.snapshotPVCNamespace == de.namespace)
                else now.snapshotPVCName == was.snapshotPVCName && now.snapshotPVCNamespace == was.snapshotPVCNamespace)
            && now.size == (if was.stage == StageLocalSnapshotRestoreInProgress && a.restoreStatus.value.size != 0 then
                              a.restoreStatus.value.size else was.size)
            && now.transferID == (if was.stage == StageTransferScheduled && a.start.id != "" then a.start.id else was.transferID)
  {
    SnapshotNameIsNotEmpty(de.spec.source.name, de.uid);
    hide Message, GetDriverType, SnapshotDriver, ToSnapshotPVCName, PlanTransferInProgress;
  }

  /** What the snapshotter says of a snapshot or of a restore that is not ready; empty when it says nothing. */
  function NotReadyReason(de: DataExport, a: Answers): string {
    var restoreReason := if a.restoreStatus.Ok? && a.restoreStatus.value.state != SnapshotReady then a.restoreStatus.value.reason else "";
    match de.status.stage
    case StageSnapshotInProgress =>
      if a.snapshotStatus.Ok? && a.snapshotStatus.value.0 != SnapshotReady then a.snapshotStatus.value.1 else ""
    case StageSnapshotRestoreInProgress => if a.sourceClaimErr.None? then restoreReason else ""
    case StageLocalSnapshotRestoreInProgress => restoreReason
    case _ => ""
  }

  /** While a stage waits for the snapshotter, and when the snapshotter has failed, the stored reason is the snapshotter's. */
  lemma SnapshotterReasonIsStored(de: DataExport, a: Answers)
    requires InStage(de) && SnapshotDriver(de, a).Ok? && NotReadyReason(de, a) != ""
    ensures SyncPlan(de, a).Write? && Merge(de, SyncPlan(de, a).patch).status.reason == NotReadyReason(de, a)
  {
    hide Message, GetDriverType, SnapshotDriver, ToSnapshotPVCName, PlanTransferInProgress, PlanTransferScheduled, PlanInitial;
  }
}
