/** `sync` and its stage handlers. What a handler decides is a function of the object it was given and of the
    cluster's answers; what it changes goes through `updateStatus`, in the method `Controller.Sync`. */
module Reconciler {
  import opened Wrappers
  import opened KdmpApi
  import opened Naming
  import opened StatusStore
  import D = Drivers

  datatype SnapshotState = SnapshotReady | SnapshotFailed | SnapshotPending

  datatype RestoreInfo = RestoreInfo(state: SnapshotState, reason: string, size: nat)

  /** The answer of `VolumeSnapshotClasses().Get`. */
  datatype ClassLookup = ClassFound | ClassMissing | ClassLookupFailed | NoClusterConfig(msg: string)

  /** `RestoreVolumeClaim` of the CSI snapshotter: when the claim is already there, the claim it returns
      is the empty object of the failed create call. */
  datatype ClaimAnswer = ClaimCreated | ClaimExists | ClaimFailed(msg: string)

  datatype StartAnswer = Started(id: string) | JobAlreadyRunning | OutOfJobResources | StartFailed(msg: string)

  /** Everything one `sync` call may hear from the cluster, the drivers and the snapshotter. */
  datatype Answers = Answers(
    deleteOk: bool,
    cleanUps: seq<bool>, // whether each successive cleanUp attempt returned nil
    checkErr: Option<string>,
    classLookup: ClassLookup,
    snapshotDriverErr: Option<string>,
    createSnapshot: Result<(string, string)>,
    snapshotStatus: Result<(SnapshotState, string)>,
    backupLocationErr: Option<string>,
    uploadErr: Option<string>,
    sourceClaimErr: Option<string>,
    restoreClaim: ClaimAnswer,
    restoreStatus: Result<RestoreInfo>,
    temporaryClaimErr: Option<string>,
    volumeBackupErr: Option<string>,
    localRestore: Result<bool>,
    certificateErr: Option<string>,
    credentialErr: Option<string>,
    createClaimErr: Option<string>,
    boundClaimErr: Option<string>,
    start: StartAnswer,
    labelsShared: bool, // addJobLabels ran on the map the job options share with the object
    jobStatus: Result<D.JobStatus>,
    vbReads: seq<D.VolumeBackupAnswer>)

  datatype Plan =
    | Stop(requeue: bool, err: bool)
    | Write(requeue: bool, patch: Patch)
    | AwaitVolumeBackup(namespace: string, name: string, progressPercents: real)

  /** What a reason or an error text reports. */
  datatype Cause =
    | NoStorageClass | NoSupportedDriver | NoDriverName | NoSnapshotDriver | NoDriverType | NoDriver
    | CheckFailed | SnapshotNotCreated | SnapshotStatusUnread | BackupLocationUnread | UploadFailed
    | SnapshotNotRestored | RestoreClaimUnread | RestoreStatusUnread | RestoringFromBucket
    | VolumeBackupInaccessible | LocalBackupLocationUnread | LocalRestoreFailed | LocalRestoreImpossible
    | LocalRestoreStarted | LocalRestoreDone | CredentialsMissing | ClaimNotCreated | ClaimNotBound
    | JobNotStarted | JobStatusUnread | InternalError | JobFailed | JobIdMalformed | VolumeBackupUnreadable

  /** Only these texts leave out the error that was met. */
  predicate IsFixedText(cause: Cause) {
    cause in {NoStorageClass, NoSupportedDriver, LocalRestoreImpossible, LocalRestoreStarted, LocalRestoreDone, RestoringFromBucket,
              InternalError}
  }

  function Message(cause: Cause, subject: string, err: string): (r: string)
    ensures r != ""
  {
    Opening(cause, subject) + if IsFixedText(cause) then "" else err
  }

  function Opening(cause: Cause, subject: string): (r: string)
    ensures r != ""
  {
    match cause
    case NoStorageClass => "snapshot storage class not provided"
    case NoSupportedDriver => "did not find any supported snapshot driver for snapshot storage class " + subject
    case NoDriverName => "failed to get snapshot driver name: "
    case NoSnapshotDriver => "failed to get snapshot driver for " + subject + ": "
    case NoDriverType => "failed to get a driver type for " + subject + ": "
    case NoDriver => "failed to get a driver for a " + subject + " type: "
    case CheckFailed => "check failed: "
    case _ => SnapshotOpening(cause, subject)
  }

  function SnapshotOpening(cause: Cause, subject: string): (r: string)
    ensures r != ""
  {
    match cause
    case SnapshotNotCreated => "failed to create a snapshot: "
    case SnapshotStatusUnread => "failed to get a snapshot status: "
    case BackupLocationUnread => "backuplocation fetch error for " + subject + ": "
    case UploadFailed => "uploading snapshot objects failed with error : "
    case SnapshotNotRestored => "failed to restore a snapshot: "
    case RestoreClaimUnread => "failed to get restore pvc " + subject + ": "
    case RestoreStatusUnread => "failed to get a snapshot restore status: "
    case _ => LocalRestoreOpening(cause, subject)
  }

  function LocalRestoreOpening(cause: Cause, subject: string): (r: string)
    ensures r != ""
  {
    match cause
    case VolumeBackupInaccessible => "Error accessing volumebackup: "
    case LocalBackupLocationUnread => "Error while getting backuplocation: "
    case LocalRestoreFailed => "Error while restoring from local snapshot: "
    case LocalRestoreImpossible => "Restoring from local snapshot could not be done"
    case LocalRestoreStarted => "Started restore from local snapshot"
    case LocalRestoreDone => "Volume restore from local snapshot is successful"
    case _ => TransferOpening(cause, subject)
  }

  function TransferOpening(cause: Cause, subject: string): (r: string)
    ensures r != ""
  {
    match cause
    case RestoringFromBucket =>
      "switching to restore from objectstore bucket as" + " restoring from local snapshot did not happen"
    case CredentialsMissing => "failed to create cloud credential secret during kopia " + subject + ": "
    case ClaimNotCreated => "Error creating pvc for restore: "
    case ClaimNotBound => "Destination pvc is not bound yet: "
    case JobNotStarted => "failed to start a data transfer job, dataexport [" + subject + "]: "
    case _ => JobOpening(cause, subject)
  }

  function JobOpening(cause: Cause, subject: string): (r: string)
    ensures r != ""
  {
    match cause
    case JobStatusUnread => "failed to get " + subject + " job status: "
    case InternalError => "internal error from executor"
    case JobFailed => subject + " transfer job failed: "
    case JobIdMalformed => "failed to parse job ID " + subject + ": "
    case _ => "max retries done, failed to read VolumeBackup CR " + subject + ": "
  }

  function Fail(reason: string): Patch {
    EMPTY_PATCH.(status := StatusFailed, reason := reason)
  }

  const IN_PROGRESS: Patch := EMPTY_PATCH.(status := StatusInProgress)

  function Enter(stage: Stage, status: Status): Patch {
    EMPTY_PATCH.(stage := stage, status := status)
  }

  function Completed(vb: VolumeBackup, progressPercents: real): Patch {
    EMPTY_PATCH.(
      status := StatusSuccessful,
      snapshotID := vb.status.snapshotID,
      size := vb.status.totalBytes,
      progressPercentage := progressPercents.Floor)
  }

  /** The name is empty, with no error, when the class lookup itself fails. */
  function GetSnapshotDriverName(de: DataExport, lookup: ClassLookup): Result<string> {
    var class_ := de.spec.snapshotStorageClass;
    if class_ == "" then Err(Message(NoStorageClass, "", ""))
    else if class_ == "default" || class_ == "Default" then Ok("csi")
    else match lookup
         case NoClusterConfig(msg) => Err(msg)
         case ClassFound => Ok("csi")
         case ClassLookupFailed => Ok("")
         case ClassMissing => Err(Message(NoSupportedDriver, class_, ""))
  }

  function SnapshotDriver(de: DataExport, a: Answers): Result<string> {
    match GetSnapshotDriverName(de, a.classLookup)
    case Err(msg) => Err(Message(NoDriverName, "", msg))
    case Ok(name) =>
      if a.snapshotDriverErr.Some? then Err(Message(NoSnapshotDriver, name, a.snapshotDriverErr.value))
      else Ok(name)
  }

  function SyncPlan(de: DataExport, a: Answers): Plan {
    if de.status.stage == StageUnset then
      Write(true, Enter(StageInitial, StatusInitial))
    else if de.deleting && de.status.stage == StageInitial then
      if CLEANUP_FINALIZER !in de.finalizers then Stop(false, false)
      else if !a.deleteOk then Stop(true, true)
      else Write(true, EMPTY_PATCH.(removeFinalizer := true))
    else if GetDriverType(de.spec).Err? then
      Write(false, Fail(Message(NoDriverType, de.spec.exportType, GetDriverType(de.spec).msg)))
    else if GetDriverType(de.spec).value !in KNOWN_DRIVERS then
      Write(false, Fail(Message(NoDriver, de.spec.exportType, "not found")))
    else if de.deleting then
      if CLEANUP_FINALIZER !in de.finalizers then Stop(false, false)
      else if a.cleanUps == [] || !a.cleanUps[0] then Stop(true, true)
      else Write(true, EMPTY_PATCH.(removeFinalizer := true))
    else
      match de.status.stage
      case StageInitial => PlanInitial(de, a)
      case StageSnapshotScheduled => PlanSnapshotScheduled(de, a)
      case StageSnapshotInProgress => PlanSnapshotInProgress(de, a)
      case StageSnapshotRestore => PlanSnapshotRestore(de, a)
      case StageSnapshotRestoreInProgress => PlanSnapshotRestoreInProgress(de, a)
      case StageLocalSnapshotRestore => PlanLocalSnapshotRestore(de, a)
      case StageLocalSnapshotRestoreInProgress => PlanLocalSnapshotRestoreInProgress(de, a)
      case StageTransferScheduled => PlanTransferScheduled(de, a, GetDriverType(de.spec).value)
      case StageTransferInProgress => PlanTransferInProgress(de, a, GetDriverType(de.spec).value)
      case StageCleanup =>
        // retried until one attempt succeeds or time runs out
        var patch := EMPTY_PATCH.(stage := StageFinal);
        Write(true, if true in a.cleanUps then patch else patch.(status := StatusFailed))
      case _ => Stop(false, false)
  }

  function FirstWorkingStage(de: DataExport): Stage {
    if HasLocalRestoreStage(de) then StageLocalSnapshotRestore
    else if HasSnapshotStage(de) then StageSnapshotScheduled
    else StageTransferScheduled
  }

  function PlanInitial(de: DataExport, a: Answers): Plan
    requires Resolvable(de.spec)
  {
    if de.status.status == StatusSuccessful then
      Write(true, Enter(FirstWorkingStage(de), StatusInitial))
    else
      var checked := GetDriverType(de.spec).value in {RSYNC, RESTIC_BACKUP, RESTIC_RESTORE, KOPIA_BACKUP, KOPIA_RESTORE};
      if checked && a.checkErr.Some? then Write(false, Fail(Message(CheckFailed, "", a.checkErr.value)))
      else Write(true, EMPTY_PATCH.(status := StatusSuccessful))
  }

  function PlanSnapshotScheduled(de: DataExport, a: Answers): Plan {
    if de.status.status == StatusSuccessful then
      Write(true, Enter(StageSnapshotInProgress, StatusInitial))
    else if SnapshotDriver(de, a).Err? then Stop(false, true)
    else
      match a.createSnapshot
      case Err(msg) => Write(false, Fail(Message(SnapshotNotCreated, "", msg)))
      case Ok((name, namespace)) =>
        Write(true, EMPTY_PATCH.(
                snapshotID := name,
                snapshotNamespace := namespace,
                status := StatusSuccessful,
                volumeSnapshot := ToSnapshotPVCName(de.spec.source.name, de.uid)))
  }

  function PlanSnapshotInProgress(de: DataExport, a: Answers): Plan {
    if de.status.status == StatusSuccessful then
      Write(true, Enter(StageSnapshotRestore, StatusInitial))
    else if SnapshotDriver(de, a).Err? then Stop(false, true)
    else
      match a.snapshotStatus
      case Err(msg) => Write(false, Fail(Message(SnapshotStatusUnread, "", msg)))
      case Ok((state, reason)) =>
        if state == SnapshotFailed then Write(false, Fail(reason))
        else if state != SnapshotReady then Write(false, IN_PROGRESS.(reason := reason))
        else if a.backupLocationErr.Some? then
          Write(false, Fail(Message(BackupLocationUnread, de.spec.destination.name, a.backupLocationErr.value)))
        else if a.uploadErr.Some? then
          Write(false, Fail(Message(UploadFailed, "", a.uploadErr.value)))
        else Write(true, EMPTY_PATCH.(status := StatusSuccessful))
  }

  function PlanSnapshotRestore(de: DataExport, a: Answers): Plan {
    if de.status.status == StatusSuccessful then
      Write(true, Enter(StageSnapshotRestoreInProgress, StatusInitial))
    else if SnapshotDriver(de, a).Err? then Stop(false, true)
    else if a.sourceClaimErr.Some? then Write(false, Fail(Message(SnapshotNotRestored, "", a.sourceClaimErr.value)))
    else
      match a.restoreClaim
      case ClaimFailed(msg) => Write(false, Fail(Message(SnapshotNotRestored, "", msg)))
      case _ =>
        Write(true, EMPTY_PATCH.(
                snapshotPVCName := RestoredClaimName(de, a.restoreClaim),
                snapshotPVCNamespace := if a.restoreClaim.ClaimCreated? then de.namespace else "",
                status := StatusSuccessful))
  }

  function RestoredClaimName(de: DataExport, answer: ClaimAnswer): string {
    if answer.ClaimCreated? then ToSnapshotPVCName(de.spec.source.name, de.uid) else ""
  }

  function PlanSnapshotRestoreInProgress(de: DataExport, a: Answers): Plan {
    if SnapshotDriver(de, a).Err? then Stop(false, true)
    else if de.status.status == StatusSuccessful then
      Write(true, Enter(StageTransferScheduled, StatusInitial))
    else if a.sourceClaimErr.Some? then
      Write(false, Fail(Message(RestoreClaimUnread, de.spec.source.name, a.sourceClaimErr.value)))
    else
      match a.restoreStatus
      case Err(msg) => Write(false, Fail(Message(RestoreStatusUnread, "", msg)))
      case Ok(info) =>
        if info.state == SnapshotFailed then Write(false, Fail(info.reason))
        else if info.state != SnapshotReady then Write(false, IN_PROGRESS.(reason := info.reason))
        else if a.temporaryClaimErr.Some? then
          Write(false, Fail(Message(RestoreClaimUnread, de.spec.source.name, a.temporaryClaimErr.value)))
        else Write(true, EMPTY_PATCH.(status := StatusSuccessful, reason := info.reason))
  }

  function PlanLocalSnapshotRestore(de: DataExport, a: Answers): Plan {
    if de.status.status == StatusSuccessful then
      Write(true, Enter(StageLocalSnapshotRestoreInProgress, StatusInitial))
    else if de.status.status == StatusFailed then
      Write(false, Enter(StageTransferScheduled, StatusInitial).(
              reason := Message(RestoringFromBucket, "", "")))
    else if SnapshotDriver(de, a).Err? then Write(false, Fail(SnapshotDriver(de, a).msg))
    else if a.volumeBackupErr.Some? then Write(false, Fail(Message(VolumeBackupInaccessible, "", a.volumeBackupErr.value)))
    else if a.backupLocationErr.Some? then
      Write(false, Fail(Message(LocalBackupLocationUnread, "", a.backupLocationErr.value)))
    else
      match a.localRestore
      case Err(msg) => Write(false, Fail(Message(LocalRestoreFailed, "", msg)))
      case Ok(false) => Write(false, Fail(Message(LocalRestoreImpossible, "", "")))
      case Ok(true) => Write(true, EMPTY_PATCH.(status := StatusSuccessful, reason := Message(LocalRestoreStarted, "", "")))
  }

  function PlanLocalSnapshotRestoreInProgress(de: DataExport, a: Answers): Plan {
    if de.status.status == StatusSuccessful then
      Write(true, EMPTY_PATCH.(stage := StageCleanup))
    else if de.status.status == StatusFailed then
      Write(false, Enter(StageTransferScheduled, StatusInitial))
    else if SnapshotDriver(de, a).Err? then Write(false, Fail(SnapshotDriver(de, a).msg))
    else
      match a.restoreStatus
      case Err(msg) => Write(false, Fail(Message(RestoreStatusUnread, "", msg)))
      case Ok(info) =>
        if info.state == SnapshotFailed then Write(false, Fail(info.reason))
        else if info.state != SnapshotReady then Write(false, IN_PROGRESS.(reason := info.reason))
        else Write(true, EMPTY_PATCH.(
                     status := StatusSuccessful,
                     reason := Message(LocalRestoreDone, "", ""),
                     size := info.size))
  }

  /** What the transfer-scheduled handler returns without asking the driver for a job. */
  function BeforeStartJob(de: DataExport, a: Answers, driver: string): Option<Plan> {
    if de.status.status == StatusSuccessful then
      Some(Write(true, Enter(StageTransferInProgress, StatusInitial)))
    else if de.status.status == StatusFailed then
      Some(Write(false, Enter(StageCleanup, StatusFailed)))
    else if a.certificateErr.Some? then Some(Stop(false, true))
    else if driver == KOPIA_BACKUP && a.credentialErr.Some? then
      Some(Write(false, Fail(Message(CredentialsMissing, "backup", a.credentialErr.value))))
    else if driver == KOPIA_RESTORE && a.volumeBackupErr.Some? then
      Some(Write(false, Fail(Message(VolumeBackupInaccessible, "", a.volumeBackupErr.value))))
    else if driver == KOPIA_RESTORE && a.createClaimErr.Some? then
      Some(Write(false, Fail(Message(ClaimNotCreated, "", a.createClaimErr.value))))
    else if driver == KOPIA_RESTORE && a.boundClaimErr.Some? then
      Some(Write(false, Fail(Message(ClaimNotBound, "", a.boundClaimErr.value))))
    else if driver == KOPIA_RESTORE && a.credentialErr.Some? then
      Some(Write(false, Fail(Message(CredentialsMissing, "restore", a.credentialErr.value))))
    else None
  }

  function PlanTransferScheduled(de: DataExport, a: Answers, driver: string): Plan {
    match BeforeStartJob(de, a, driver)
    case Some(plan) => plan
    case None =>
      match a.start
      case StartFailed(msg) => Write(false, Fail(Message(JobNotStarted, de.name, msg)))
      case Started(id) => Write(true, EMPTY_PATCH.(status := StatusSuccessful, transferID := id))
      case _ => Stop(true, false) // no slot, or the claim is being backed up: come back later
  }

  function PlanTransferInProgress(de: DataExport, a: Answers, driver: string): Plan {
    var id := de.status.transferID;
    if de.status.status == StatusSuccessful || de.status.status == StatusFailed then
      Write(false, Enter(StageCleanup, de.status.status))
    else
      match a.jobStatus
      case Err(msg) => Write(false, Fail(Message(JobStatusUnread, id, msg)))
      case Ok(progress) =>
        if progress.status == D.JOB_FAILED then
          Write(true, Fail(if progress.reason == "" then Message(InternalError, "", "") else progress.reason))
        else if progress.status == "" then
          Write(true, IN_PROGRESS)
        else
          match progress.state
          case JobStateFailed => Write(true, Fail(Message(JobFailed, id, progress.reason)))
          case JobStateInProgress => Write(false, IN_PROGRESS)
          case JobStateCompleted =>
            if driver == KOPIA_BACKUP then
              match ParseJobID(id)
              case Err(msg) => Write(false, Fail(Message(JobIdMalformed, id + " from DataExport CR: " + de.name, msg)))
              case Ok((namespace, name)) => AwaitVolumeBackup(namespace, name, progress.progressPercents)
            else if driver == KOPIA_RESTORE then
              AwaitVolumeBackup(de.spec.source.namespace, de.spec.source.name, progress.progressPercents)
            else AwaitVolumeBackup("", "", progress.progressPercents)
  }

  function VolumeBackupUnread(name: string, msg: string): Patch {
    Fail(Message(VolumeBackupUnreadable, name, msg))
  }

  /** The patches one `sync` of `de` may write, given the answers it hears. */
  ghost predicate Decides(de: DataExport, a: Answers, p: Patch) {
    match SyncPlan(de, a)
    case Stop(_, _) => false
    case Write(_, patch) => p == patch
    case AwaitVolumeBackup(_, name, progressPercents) =>
      || p == IN_PROGRESS
      || (exists msg :: p == VolumeBackupUnread(name, msg))
      || (exists vb :: D.VbFound(vb) in a.vbReads && p == Completed(vb, progressPercents))
  }

  /** The claim and the repository a kopia backup of this object works on. */
  function SourceClaimName(de: DataExport): string {
    if de.status.snapshotPVCName != "" then de.status.snapshotPVCName else de.spec.source.name
  }

  /** The repository argument the backup job of this object is started with. */
  function RepositoryArgument(de: DataExport): string {
    ToRepoName(GetRepoPVCName(HasSnapshotStage(de), SourceClaimName(de)), de.spec.source.namespace)
  }

  function BackupRepository(de: DataExport): string {
    FrameBackupPath(RepositoryArgument(de))
  }

  predicate ReachesStartJob(de: DataExport, a: Answers) {
    && de.status.stage == StageTransferScheduled && Resolvable(de.spec) && !de.deleting
    && BeforeStartJob(de, a, GetDriverType(de.spec).value).None?
  }

  /** What the handlers have already written into the in-memory object when they call `updateStatus`. */
  function LocalCopy(de: DataExport, a: Answers): DataExport {
    match de.status.stage
    case StageUnset => if de.spec.exportType == "" then de.(spec := de.spec.(exportType := RSYNC)) else de
    case StageInitial =>
      if SyncPlan(de, a).Write? && SyncPlan(de, a).patch.stage != StageUnset then
        de.(status := de.status.(stage := SyncPlan(de, a).patch.stage))
      else de
    case StageSnapshotRestore =>
      if SyncPlan(de, a).Write? && SyncPlan(de, a).patch.status == StatusSuccessful then
        de.(status := de.status.(
          snapshotPVCName := SyncPlan(de, a).patch.snapshotPVCName,
          snapshotPVCNamespace := SyncPlan(de, a).patch.snapshotPVCNamespace))
      else de
    case StageTransferScheduled =>
      if !ReachesStartJob(de, a) then de
      else
        var labels := if a.labelsShared && de.labels != map[]
                      then de.labels[DRIVER_NAME_LABEL := GetDriverType(de.spec).value] else de.labels;
        if a.start.Started? then de.(labels := labels, status := de.status.(transferID := a.start.id))
        else de.(labels := labels)
    case _ => de
  }

  // ---------------------------------------------------------------- the write path

  predicate SameOwned(a: DataExport, b: DataExport) {
    a.name == b.name && a.namespace == b.namespace && a.uid == b.uid && a.spec == b.spec && a.status == b.status
  }

  function JobNamespace(spec: Spec): string {
    if GetDriverType(spec) == Ok(KOPIA_RESTORE) then spec.destination.namespace else spec.source.namespace
  }

  predicate IsKopia(spec: Spec) {
    GetDriverType(spec) == Ok(KOPIA_BACKUP) || GetDriverType(spec) == Ok(KOPIA_RESTORE)
  }

  /** `sync` read `in_`, heard `a`, and wrote `p` over `prev`, which differs from `in_` at most in metadata. */
  ghost predicate WriteOf(in_: DataExport, prev: DataExport, next: DataExport, a: Answers, p: Patch) {
    && Live(prev)
    && SameOwned(in_, prev)
    && Decides(in_, a, p)
    && (next == Merge(prev, p) || (prev == in_ && next == Merge(LocalCopy(in_, a), p)))
  }

  /** A kopia `StartJob` that succeeds names the job after the DataExport. `JobStarts.JointRunIsRun` derives this from
      the driver's protocol. */
  predicate Honest(de: DataExport, a: Answers) {
    IsKopia(de.spec) && a.start.Started? ==> a.start.id == NamespacedName(JobNamespace(de.spec), de.name)
  }

  ghost predicate SyncWrite(in_: DataExport, prev: DataExport, next: DataExport, a: Answers, p: Patch) {
    WriteOf(in_, prev, next, a, p) && Honest(in_, a)
  }

  /** One change of the stored object: someone else's edit of its metadata, or one write by `sync`. */
  ghost predicate Step(prev: DataExport, next: DataExport) {
    ForeignWrite(prev, next, true) || exists in_, a, p :: SyncWrite(in_, prev, next, a, p)
  }

  /** The same, with the answers one `sync` has heard and whether the object it read was being deleted. */
  ghost predicate StepOf(prev: DataExport, next: DataExport, a: Answers, deleting: bool) {
    ForeignWrite(prev, next, true) || exists in_, p :: SyncWrite(in_, prev, next, a, p) && in_.deleting == deleting
  }

  ghost predicate StepsOf(was: seq<DataExport>, now: seq<DataExport>, a: Answers, deleting: bool) {
    was <= now && forall i :: |was| <= i < |now| && i > 0 ==> StepOf(now[i - 1], now[i], a, deleting)
  }

  ghost predicate Steps(was: seq<DataExport>, now: seq<DataExport>) {
    was <= now && forall i :: |was| <= i < |now| && i > 0 ==> Step(now[i - 1], now[i])
  }
}
