/** The custom resources the controller and the executor pods exchange, and the driver choice made from them. */
module KdmpApi {
  import opened Wrappers

  datatype Stage =
    | StageUnset // the empty string of an object the controller has not touched yet
    | StageInitial
    | StageSnapshotScheduled
    | StageSnapshotInProgress
    | StageSnapshotRestore
    | StageSnapshotRestoreInProgress
    | StageLocalSnapshotRestore
    | StageLocalSnapshotRestoreInProgress
    | StageTransferScheduled
    | StageTransferInProgress
    | StageCleanup
    | StageFinal

  datatype Status =
    | StatusUnset
    | StatusInitial
    | StatusPending
    | StatusInProgress
    | StatusFailed
    | StatusSuccessful

  datatype ObjectReference = ObjectReference(apiVersion: string, kind: string, namespace: string, name: string)

  datatype Spec = Spec(
    exportType: string,
    snapshotStorageClass: string,
    source: ObjectReference,
    destination: ObjectReference)

  datatype ExportStatus = ExportStatus(
    stage: Stage,
    status: Status,
    reason: string,
    snapshotID: string,
    snapshotNamespace: string,
    snapshotPVCName: string,
    snapshotPVCNamespace: string,
    transferID: string,
    progressPercentage: int,
    size: nat,
    volumeSnapshot: string,
    localSnapshotRestore: bool)

  datatype DataExport = DataExport(
    name: string,
    namespace: string,
    uid: string,
    labels: map<string, string>,
    finalizers: set<string>,
    deleting: bool, // a deletion timestamp is set
    spec: Spec,
    status: ExportStatus)

  datatype VolumeBackupSpec = VolumeBackupSpec(repository: string, locationName: string, locationNamespace: string)

  datatype VolumeBackupStatus = VolumeBackupStatus(
    progressPercentage: real,
    totalBytes: nat,
    totalBytesProcessed: nat,
    snapshotID: string,
    lastKnownError: string)

  datatype VolumeBackup = VolumeBackup(spec: VolumeBackupSpec, status: VolumeBackupStatus)

  const EMPTY_VOLUME_BACKUP_STATUS := VolumeBackupStatus(0.0, 0, 0, "", "")

  const RSYNC := "rsync"
  const RESTIC_BACKUP := "resticbackup"
  const RESTIC_RESTORE := "resticrestore"
  const KOPIA_BACKUP := "kopiabackup"
  const KOPIA_RESTORE := "kopiarestore"
  const KOPIA_DELETE := "kopiadelete"
  const KOPIA_MAINTENANCE := "kopiamaintenance"
  const DRIVER_NAME_LABEL := "kdmp.portworx.com/driver-name"
  const CLEANUP_FINALIZER := "kdmp.portworx.com/finalizer-cleanup"

  const KNOWN_DRIVERS := {RSYNC, RESTIC_BACKUP, RESTIC_RESTORE, KOPIA_BACKUP, KOPIA_RESTORE, KOPIA_DELETE, KOPIA_MAINTENANCE}

  predicate IsPVCRef(ref: ObjectReference) {
    ref.kind == "PersistentVolumeClaim" && ref.apiVersion == "v1"
  }

  predicate IsBackupLocationRef(ref: ObjectReference) {
    ref.kind == "BackupLocation" && ref.apiVersion == "stork.libopenstorage.org/v1alpha1"
  }

  predicate IsVolumeBackupRef(ref: ObjectReference) {
    ref.kind == "VolumeBackup" && ref.apiVersion == "kdmp.portworx.com/v1alpha1"
  }

  predicate IsAPIVersionKindNotSetRef(ref: ObjectReference) {
    ref.kind == "" && ref.apiVersion == ""
  }

  predicate HasSnapshotStage(de: DataExport) {
    de.spec.snapshotStorageClass != ""
  }

  predicate HasLocalRestoreStage(de: DataExport) {
    de.status.localSnapshotRestore
  }

  function GetDriverType(spec: Spec): Result<string> {
    var sourceIsClaim := IsPVCRef(spec.source) || IsAPIVersionKindNotSetRef(spec.source);
    var destinationIsClaim := IsPVCRef(spec.destination) || IsAPIVersionKindNotSetRef(spec.destination);
    if sourceIsClaim && !IsBackupLocationRef(spec.destination) then
      Err("invalid kind for generic backup destination: expected BackupLocation")
    else if !sourceIsClaim && IsVolumeBackupRef(spec.source) && !destinationIsClaim then
      Err("invalid kind for generic restore destination: expected PersistentVolumeClaim")
    else
      var doBackup := sourceIsClaim;
      var doRestore := !sourceIsClaim && IsVolumeBackupRef(spec.source);
      var wrongSource: Result<string> := Err("invalid kind for generic source: expected PersistentVolumeClaim or VolumeBackup");
      if spec.exportType == "restic" then
        if doBackup then Ok(RESTIC_BACKUP) else if doRestore then Ok(RESTIC_RESTORE) else wrongSource
      else if spec.exportType == "kopia" then
        if doBackup then Ok(KOPIA_BACKUP) else if doRestore then Ok(KOPIA_RESTORE) else wrongSource
      else
        Ok(spec.exportType)
  }

  /** A reference to a claim; one whose kind is not set counts as one. */
  predicate IsClaim(ref: ObjectReference) {
    IsPVCRef(ref) || IsAPIVersionKindNotSetRef(ref)
  }

  /** The references say whether a generic export is a backup, from a claim to a backup location, or a restore, from a
      VolumeBackup to a claim, and it is neither when they say neither. Any other type is the driver's name itself, unless
      the references begin like a backup or a restore and do not go on like it. */
  lemma DriverFollowsReferences(spec: Spec)
    ensures var d := GetDriverType(spec);
            var backup := IsClaim(spec.source) && IsBackupLocationRef(spec.destination);
            var restore := IsVolumeBackupRef(spec.source) && IsClaim(spec.destination);
            && !(backup && restore)
            && (spec.exportType == "kopia" ==>
                  (d == Ok(KOPIA_BACKUP) <==> backup) && (d == Ok(KOPIA_RESTORE) <==> restore) && (d.Ok? <==> backup || restore))
            && (spec.exportType == "restic" ==>
                  (d == Ok(RESTIC_BACKUP) <==> backup) && (d == Ok(RESTIC_RESTORE) <==> restore) && (d.Ok? <==> backup || restore))
            && (spec.exportType !in {"kopia", "restic"} ==>
                  && (d.Ok? ==> d.value == spec.exportType)
                  && (d.Ok? <==> (IsClaim(spec.source) ==> backup) && (IsVolumeBackupRef(spec.source) ==> restore)))
  {
    assert "PersistentVolumeClaim"[0] != "VolumeBackup"[0];
    assert KOPIA_BACKUP[5] != KOPIA_RESTORE[5] && RESTIC_BACKUP[6] != RESTIC_RESTORE[6];
  }

  /** A driver name is found for the spec, and a driver is registered under it. */
  predicate Resolvable(spec: Spec) {
    GetDriverType(spec).Ok? && GetDriverType(spec).value in KNOWN_DRIVERS
  }

  predicate IsKopiaBackup(spec: Spec) {
    GetDriverType(spec) == Ok(KOPIA_BACKUP)
  }

  /** The API server keeps a deleted object only as long as some finalizer holds it. */
  predicate Live(de: DataExport) {
    de.deleting ==> de.finalizers != {}
  }
}
