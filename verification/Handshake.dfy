/** End to end for a kopia backup: the reconciler, the backup driver, the VolumeBackup, the backup pods that write it, and
    the pods of restore exports, which write the object they restore from; each taking its steps in any order. */
module Handshake {
  import opened Wrappers
  import opened KdmpApi
  import opened Naming
  import opened StatusStore
  import opened Reconciler
  import opened Runs
  import opened ExecutorApi
  import opened KopiaExecutors
  import opened VolumeBackups
  import opened OtherPods
  import Controller
  import D = Drivers

  /** Where the one `sync` of this export is: the object it works on, and what it has heard so far. */
  datatype Worker =
    | Idle
    | Syncing(in_: DataExport, heard: Option<Result<D.JobStatus>>, found: seq<D.VolumeBackupAnswer>)

  type ObjectKey = (string, string) // namespace and name

  /** One backup export, all VolumeBackups of the cluster, and the restore exports whose jobs may have a pod running. */
  datatype World = World(
    de: DataExport, vbs: map<ObjectKey, VolumeBackup>, ran: set<Process>, worker: Worker, restores: set<Spec>)

  function Look(vbs: map<ObjectKey, VolumeBackup>, key: ObjectKey): Option<VolumeBackup> {
    if key in vbs then Some(vbs[key]) else None
  }

  function Put(vbs: map<ObjectKey, VolumeBackup>, key: ObjectKey, vb: Option<VolumeBackup>): map<ObjectKey, VolumeBackup> {
    if vb.Some? then vbs[key := vb.value] else vbs - {key}
  }

  /** The namespace and the name under which the backup pods keep the VolumeBackup. */
  function BackupObject(de: DataExport): ObjectKey {
    (JobNamespace(de.spec), de.name)
  }

  /** The object a restore pod writes: the name is that of the source, the namespace that of the destination. */
  function RestoreTarget(spec: Spec): ObjectKey {
    (spec.destination.namespace, spec.source.name)
  }

  predicate Restores(spec: Spec, de: DataExport) {
    GetDriverType(spec) == Ok(KOPIA_RESTORE) && RestoreTarget(spec) == BackupObject(de)
  }

  /** The VolumeBackup of this export. */
  function Own(w: World): Option<VolumeBackup> {
    Look(w.vbs, BackupObject(w.de))
  }

  /** No restore export names the VolumeBackup of this export. */
  predicate Unshared(w: World) {
    forall spec :: spec in w.restores ==> !Restores(spec, w.de)
  }

  /** The API server answers with the object it has, with "not found", or with an error. */
  predicate Truthful(vb: Option<VolumeBackup>, answer: D.VolumeBackupAnswer) {
    answer.VbFound? ==> vb == Some(answer.vb)
  }

  /** `sync` asks the driver and reads the VolumeBackup only while the transfer is in progress. */
  predicate Transferring(de: DataExport) {
    de.status.stage == StageTransferInProgress && !de.deleting
  }

  /** What `sync` decides on is what it has heard. */
  ghost predicate Consistent(w: Worker, a: Answers) {
    w.Syncing? && Transferring(w.in_) && IsKopiaBackup(w.in_.spec) ==>
      && (w.heard.Some? ==> a.jobStatus == w.heard.value)
      && (w.heard.None? ==> a.jobStatus.Err?)
      && (forall vb :: D.VbFound(vb) in a.vbReads ==> D.VbFound(vb) in w.found)
  }

  ghost predicate ForeignStep(w: World, w': World) {
    ForeignWrite(w.de, w'.de, true) && w' == w.(de := w'.de)
  }

  function Stored(w: World): VbState {
    VbState(Own(w), w.ran)
  }

  /** The world with this export's VolumeBackup, and the commands that have ended, as given. */
  function WithOwn(w: World, s: VbState): World {
    w.(vbs := Put(w.vbs, BackupObject(w.de), s.vb), ran := s.ran)
  }

  lemma WithOwnHas(w: World, s: VbState, t: VbState)
    ensures Stored(WithOwn(w, s)) == s && WithOwn(w, Stored(w)) == w && WithOwn(WithOwn(w, s), t) == WithOwn(w, t)
  {
    hide BackupObject;
    var key := BackupObject(w.de);
    assert Put(w.vbs, key, Own(w)) == w.vbs;
    assert Put(Put(w.vbs, key, s.vb), key, t.vb) == Put(w.vbs, key, t.vb);
  }

  /** A backup pod creates or writes the VolumeBackup, or one of its kopia commands ends. */
  ghost predicate PodStep(decode: Decoder, w: World, w': World) {
    && w' == WithOwn(w, Stored(w'))
    && (Own(w).Some? ==> Own(w').Some?) && VbStep(decode, Stored(w), Stored(w'))
  }

  /** The pod of a restore export writes the status of the VolumeBackup that export names. */
  ghost predicate RestorePodStep(w: World, w': World) {
    exists spec, vb ::
      && spec in w.restores && GetDriverType(spec) == Ok(KOPIA_RESTORE)
      && RestoreWrite(Look(w.vbs, RestoreTarget(spec)), Some(vb))
      && w' == w.(vbs := w.vbs[RestoreTarget(spec) := vb])
  }

  /** Whatever happens to the VolumeBackups of other exports. */
  predicate OthersStep(w: World, w': World) {
    w' == w.(vbs := w'.vbs) && Own(w') == Own(w)
  }

  /** Restore exports come and go. */
  predicate RestoresStep(w: World, w': World) {
    w' == w.(restores := w'.restores)
  }

  ghost predicate BeginStep(w: World, w': World) {
    && w.worker.Idle? && w'.worker.Syncing? && w' == w.(worker := w'.worker)
    && SameOwned(w'.worker.in_, w.de) && w'.worker.heard.None? && w'.worker.found == []
  }

  ghost predicate HearJobStep(w: World, w': World) {
    && w.worker.Syncing? && Transferring(w.worker.in_) && w.worker.heard.None?
    && exists view, answer ::
         && (ParseJobID(w.worker.in_.status.transferID).Ok? ==>
               Truthful(Look(w.vbs, ParseJobID(w.worker.in_.status.transferID).value), answer))
         && w' == w.(worker := Syncing(w.worker.in_, Some(D.BackupJobStatus(w.worker.in_.status.transferID, view, answer)), []))
  }

  /** The object `sync` goes on to read, on the word of the driver. */
  ghost predicate AsksFor(w: Worker, key: ObjectKey) {
    && w.Syncing? && w.heard.Some?
    && exists a: Answers :: a.jobStatus == w.heard.value && SyncPlan(w.in_, a).AwaitVolumeBackup?
                   && key == (SyncPlan(w.in_, a).namespace, SyncPlan(w.in_, a).name)
  }

  ghost predicate HearVolumeBackupStep(w: World, w': World) {
    && w.worker.Syncing? && w.worker.heard.Some?
    && exists key, answer ::
         && AsksFor(w.worker, key) && Truthful(Look(w.vbs, key), answer)
         && w' == w.(worker := w.worker.(found := w.worker.found + [answer]))
  }

  /** Both are what `sync` has read, but for metadata others have changed since. */
  predicate SameRead(a: DataExport, b: DataExport) {
    SameOwned(a, b) && a.deleting == b.deleting
  }

  /** `sync` writes the export. It goes on with what it has written. */
  ghost predicate RecordStep(w: World, w': World) {
    && w.worker.Syncing? && w'.worker.Syncing?
    && w' == w.(de := w'.de, worker := w.worker.(in_ := w'.worker.in_))
    && SameOwned(w'.worker.in_, w'.de) && w'.worker.in_.deleting == w.worker.in_.deleting
    && exists in_, a, p :: SameRead(in_, w.worker.in_) && SyncWrite(in_, w.de, w'.de, a, p) && Consistent(w.worker, a)
  }

  /** A `sync` of this object comes to `cleanUp`: after the transfer, or for an export being deleted. */
  predicate CleansUp(de: DataExport) {
    de.deleting || de.status.stage == StageCleanup
  }

  /** `cleanUp` deletes the VolumeBackup the recorded transfer id names. */
  ghost predicate DeleteStep(w: World, w': World) {
    && w.worker.Syncing? && CleansUp(w.worker.in_) && ParseJobID(w.worker.in_.status.transferID).Ok?
    && w' == w.(vbs := w.vbs - {ParseJobID(w.worker.in_.status.transferID).value})
  }

  /** `sync` returns, or the controller crashes. */
  ghost predicate EndStep(w: World, w': World) {
    w' == w.(worker := Idle)
  }

  ghost predicate WorldStep(decode: Decoder, w: World, w': World) {
    || ForeignStep(w, w') || PodStep(decode, w, w') || RestorePodStep(w, w') || OthersStep(w, w') || RestoresStep(w, w')
    || BeginStep(w, w') || HearJobStep(w, w') || HearVolumeBackupStep(w, w') || RecordStep(w, w')
    || DeleteStep(w, w') || EndStep(w, w')
  }

  /** As the API server has it: no slash in the name of a namespace. */
  predicate PlainNamespace(de: DataExport) {
    '/' !in JobNamespace(de.spec)
  }

  ghost predicate Trace(decode: Decoder, ws: seq<World>) {
    && ws != [] && Fresh(ws[0].de) && PlainNamespace(ws[0].de)
    && Own(ws[0]).None? && ws[0].ran == {} && ws[0].worker.Idle?
    && forall i :: 0 <= i < |ws| - 1 ==> WorldStep(decode, ws[i], ws[i + 1])
  }

  // ---------------------------------------------------------------- the invariant

  /** A kopia backup has been recorded as transferred. */
  predicate Transferred(de: DataExport) {
    && IsKopiaBackup(de.spec) && !HasLocalRestoreStage(de) && de.status.status == StatusSuccessful
    && de.status.stage in {StageTransferInProgress, StageCleanup, StageFinal}
  }

  /** The recorded snapshot and size are those of a kopia snapshot command that ended well and whose summary was accepted. */
  ghost predicate NamesRealSnapshot(decode: Decoder, ran: set<Process>, de: DataExport) {
    exists p :: p in ran && Accepted(Backup, decode, p)
                && de.status.snapshotID == GetBackupSummary(decode, p.stdout).value.id
                && de.status.size == GetBackupSummary(decode, p.stdout).value.totalFileSize
                && de.status.progressPercentage == 100
  }

  predicate SizeInv(de: DataExport) {
    de.status.size != 0 ==>
      || Rank(de.status.stage) >= 8
      || (de.status.stage in {StageTransferInProgress, StageLocalSnapshotRestoreInProgress} && de.status.status == StatusSuccessful)
  }

  /** The driver has said Completed: the VolumeBackup it saw records a genuine snapshot, is still there unchanged, and is
      what every later read has found. */
  ghost predicate HeardInv(decode: Decoder, w: World) {
    w.worker.Syncing? && Transferring(w.worker.in_) && IsKopiaBackup(w.worker.in_.spec)
    && w.worker.heard.Some? && w.worker.heard.value.Ok? && w.worker.heard.value.value.state == D.JobStateCompleted ==>
      && w.worker.heard.value.value.progressPercents == 100.0
      && Own(w).Some? && Own(w).value.status.snapshotID != "" && Genuine(decode, w.ran, Own(w).value.status)
      && forall vb :: D.VbFound(vb) in w.worker.found ==> vb == Own(w).value
  }

  ghost predicate WorldInv(decode: Decoder, w: World) {
    && Invariant(w.de) && SizeInv(w.de) && PlainNamespace(w.de)
    && (Own(w).Some? ==> Sound(decode, w.ran, Own(w).value.status))
    && (w.worker.Syncing? ==> SameOwned(w.worker.in_, w.de))
    && (w.worker.Syncing? && w.worker.heard.Some? ==> Rank(w.de.status.stage) >= 7)
    && HeardInv(decode, w)
    && (Transferred(w.de) ==> NamesRealSnapshot(decode, w.ran, w.de))
  }

  // ---------------------------------------------------------------- its steps

  /** Putting in the default type does not move the job. */
  lemma ObjectIsKept(a: DataExport, b: DataExport)
    requires Continues(a, b)
    ensures BackupObject(a) == BackupObject(b)
  {
    hide GetDriverType;
    if b.spec != a.spec {
      DefaultTypeIsNoRestore(a.spec);
    }
  }

  lemma DefaultTypeIsNoRestore(spec: Spec)
    requires spec.exportType == ""
    ensures GetDriverType(spec) != Ok(KOPIA_RESTORE) && GetDriverType(spec.(exportType := RSYNC)) != Ok(KOPIA_RESTORE)
  {
    assert KOPIA_RESTORE[0] != RSYNC[0];
  }

  lemma ForeignKeeps(decode: Decoder, w: World, w': World)
    requires WorldInv(decode, w) && ForeignStep(w, w')
    ensures WorldInv(decode, w')
  {
    hide GetDriverType, Genuine, Sound, Accepted, GetBackupSummary;
    StepKeepsInvariant(w.de, w'.de);
    hide Invariant;
  }

  lemma PodKeeps(decode: Decoder, w: World, w': World)
    requires WorldInv(decode, w) && PodStep(decode, w, w')
    ensures WorldInv(decode, w')
  {
    hide GetDriverType, Accepted, GetBackupSummary, Invariant, Genuine, Own, JobNamespace;
    if Own(w).Some? {
      GenuineIsMonotone(decode, w.ran, w'.ran, Own(w).value.status);
    }
    TransferredOnMore(decode, w, w');
    hide NamesRealSnapshot;
  }

  lemma TransferredOnMore(decode: Decoder, w: World, w': World)
    requires w.ran <= w'.ran
    ensures NamesRealSnapshot(decode, w.ran, w.de) ==> NamesRealSnapshot(decode, w'.ran, w.de)
  {
    hide Accepted, GetBackupSummary;
  }

  /** While a kopia transfer is on, its id parses to the object the backup pods write. */
  lemma IdNamesOwnObject(de: DataExport)
    requires Invariant(de) && JobStarted(de) && IsKopia(de.spec) && PlainNamespace(de)
    ensures ParseJobID(de.status.transferID) == Ok(BackupObject(de))
  {
    hide ParseJobID, NamespacedName, GetDriverType, JobNamespace, StageInv, ClaimNameInv;
    ParseInvertsNamespacedName(JobNamespace(de.spec), de.name);
  }

  /** After the driver's Completed the reconciler reads, for a backup, the object its own pods write, and for a restore the
      one it restores from, by namespace and name. */
  lemma AwaitedObject(de: DataExport, a: Answers)
    requires Invariant(de) && PlainNamespace(de) && SyncPlan(de, a).AwaitVolumeBackup?
    ensures var key := (SyncPlan(de, a).namespace, SyncPlan(de, a).name);
            && (GetDriverType(de.spec) == Ok(KOPIA_BACKUP) ==> key == BackupObject(de) == (de.spec.source.namespace, de.name))
            && (GetDriverType(de.spec) == Ok(KOPIA_RESTORE) ==> key == (de.spec.source.namespace, de.spec.source.name))
            && (!IsKopia(de.spec) ==> key == ("", ""))
    ensures a.jobStatus.Ok? && SyncPlan(de, a).progressPercents == a.jobStatus.value.progressPercents
  {
    AwaitIsOfTransfer(de, a);
    if IsKopiaBackup(de.spec) {
      IdNamesOwnObject(de);
    }
    BackupIsNoRestore();
    hide SyncPlan, GetDriverType, Message, ParseJobID, Invariant;
  }

  lemma BackupIsNoRestore()
    ensures KOPIA_BACKUP != KOPIA_RESTORE
  {
    assert KOPIA_BACKUP[5] != KOPIA_RESTORE[5];
  }

  lemma AwaitIsOfTransfer(de: DataExport, a: Answers)
    requires SyncPlan(de, a).AwaitVolumeBackup?
    ensures de.status.stage == StageTransferInProgress && GetDriverType(de.spec).Ok?
    ensures SyncPlan(de, a) == PlanTransferInProgress(de, a, GetDriverType(de.spec).value)
  {
    hide Message, GetDriverType, PlanInitial, PlanSnapshotScheduled, PlanSnapshotInProgress, PlanSnapshotRestore,
      PlanSnapshotRestoreInProgress, PlanLocalSnapshotRestore, PlanLocalSnapshotRestoreInProgress, PlanTransferScheduled,
      PlanTransferInProgress;
    Controller.AwaitMeansTransferring(de, a);
  }

  lemma HearJobKeeps(decode: Decoder, w: World, w': World)
    requires WorldInv(decode, w) && HearJobStep(w, w')
    ensures WorldInv(decode, w')
  {
    hide GetDriverType, Accepted, GetBackupSummary, Genuine, D.BackupJobStatus, ParseJobID, JobNamespace, Look;
    var id := w.worker.in_.status.transferID;
    var view, answer :|
      && (ParseJobID(id).Ok? ==> Truthful(Look(w.vbs, ParseJobID(id).value), answer))
      && w' == w.(worker := Syncing(w.worker.in_, Some(D.BackupJobStatus(id, view, answer)), []));
    D.BackupJobCompleted(id, view, answer);
    if IsKopiaBackup(w.worker.in_.spec) {
      IdNamesOwnObject(w.de);
    }
    hide Invariant;
  }

  /** What `sync` reads on the word of the driver is this export's own VolumeBackup. */
  lemma HearVolumeBackupKeeps(decode: Decoder, w: World, w': World)
    requires WorldInv(decode, w) && HearVolumeBackupStep(w, w')
    ensures WorldInv(decode, w')
  {
    hide GetDriverType, Accepted, GetBackupSummary, Genuine, Sound, JobNamespace, Look, SyncPlan, JobIdInv, ClaimNameInv, StageInv;
    var key, answer :|
      && AsksFor(w.worker, key) && Truthful(Look(w.vbs, key), answer)
      && w' == w.(worker := w.worker.(found := w.worker.found + [answer]));
    var a: Answers :| a.jobStatus == w.worker.heard.value && SyncPlan(w.worker.in_, a).AwaitVolumeBackup?
             && key == (SyncPlan(w.worker.in_, a).namespace, SyncPlan(w.worker.in_, a).name);
    MetadataDoesNotMatter(w.worker.in_, w.de, a, EMPTY_PATCH);
    AwaitedObject(w.worker.in_, a);
  }

  lemma QuietStepKeeps(decode: Decoder, w: World, w': World)
    requires WorldInv(decode, w)
    requires OthersStep(w, w') || RestoresStep(w, w') || BeginStep(w, w') || DeleteStep(w, w') || EndStep(w, w')
    ensures WorldInv(decode, w')
  {
    hide GetDriverType, Accepted, GetBackupSummary, Invariant, Genuine, Sound, JobNamespace, ParseJobID;
  }

  /** A restore export that names another object leaves this one alone. */
  lemma UnsharedRestoreIsOthers(w: World, w': World)
    requires RestorePodStep(w, w') && Unshared(w)
    ensures OthersStep(w, w')
  {
    hide GetDriverType;
  }

  /** A transfer is recorded as successful only on the word of a read VolumeBackup, after the driver said Completed. */
  lemma SuccessNeedsVolumeBackup(de: DataExport, a: Answers, p: Patch)
    requires Decides(de, a, p) && p.status == StatusSuccessful && Resolvable(de.spec)
    requires de.status.stage == StageTransferInProgress && !Settled(de.status.status)
    ensures !de.deleting && a.jobStatus.Ok? && a.jobStatus.value.state == D.JobStateCompleted
    ensures SyncPlan(de, a).AwaitVolumeBackup?
    ensures exists vb ::
              && D.VbFound(vb) in a.vbReads && p == Completed(vb, a.jobStatus.value.progressPercents)
              && p.snapshotID == vb.status.snapshotID && p.size == vb.status.totalBytes
              && p.progressPercentage == a.jobStatus.value.progressPercents.Floor
  {
    hide Message, GetDriverType, ParseJobID;
  }

  /** A restore is recorded as successful only when the restore driver saw its job complete. */
  lemma RestoreSuccessNeedsCompleteJob(de: DataExport, a: Answers, p: Patch, view: D.JobView)
    requires Decides(de, a, p) && p.status == StatusSuccessful && GetDriverType(de.spec) == Ok(KOPIA_RESTORE)
    requires de.status.stage == StageTransferInProgress && !Settled(de.status.status)
    requires a.jobStatus == D.RestoreJobStatus(de.status.transferID, view)
    ensures view.job.Ok? && D.HasCondition(view.job.value, D.JOB_COMPLETE) && !D.HasCondition(view.job.value, D.JOB_FAILED)
  {
    hide GetDriverType, Decides, D.RestoreJobStatus;
    SuccessNeedsVolumeBackup(de, a, p);
    D.RestoreJobCompleted(de.status.transferID, view);
  }

  lemma CompletedRecordsSnapshot(
      decode: Decoder, ran: set<Process>, prev: DataExport, next: DataExport, vb: VolumeBackup)
    requires Lands(prev, next, Completed(vb, 100.0)) && prev.status.size == 0
    requires Genuine(decode, ran, vb.status)
    ensures NamesRealSnapshot(decode, ran, next)
  {
    var p :| p in ran && Accepted(Backup, decode, p) && vb.status == SummaryWritten(GetBackupSummary(decode, p.stdout).value);
    AcceptedSummaryHasId(decode, p);
    hide GetBackupSummary, Accepted;
  }

  /** The one step that records the transfer as successful. */
  lemma RecordedSuccessIsReal(decode: Decoder, w: World, in_: DataExport, next: DataExport, a: Answers, p: Patch)
    requires WorldInv(decode, w) && w.worker.Syncing? && SameRead(in_, w.worker.in_)
    requires SyncWrite(in_, w.de, next, a, p) && Consistent(w.worker, a)
    requires w.de.status.stage == StageTransferInProgress && !Settled(w.de.status.status) && IsKopiaBackup(w.de.spec)
    requires Lands(w.de, next, p) && p.status == StatusSuccessful
    ensures NamesRealSnapshot(decode, w.ran, next)
  {
    hide Decides, GetDriverType, LocalCopy, Genuine, NamesRealSnapshot, JobIdInv, ClaimNameInv, Sound, Lands, Completed;
    SuccessNeedsVolumeBackup(in_, a, p);
    var vb :| D.VbFound(vb) in a.vbReads && p == Completed(vb, a.jobStatus.value.progressPercents);
    CompletedRecordsSnapshot(decode, w.ran, w.de, next, vb);
  }

  predicate JustTransferred(prev: DataExport, p: Patch) {
    && prev.status.stage == StageTransferInProgress && !Settled(prev.status.status) && IsKopiaBackup(prev.spec)
    && p.status == StatusSuccessful
  }

  lemma EvidenceCarries(decode: Decoder, ran: set<Process>, prev: DataExport, next: DataExport, a: Answers, p: Patch)
    requires Lands(prev, next, p) && StageInv(prev) && SizeInv(prev)
    requires p == EMPTY_PATCH.(removeFinalizer := true) || Moves(prev, a, p)
    requires Transferred(prev) ==> NamesRealSnapshot(decode, ran, prev)
    requires JustTransferred(prev, p) ==> NamesRealSnapshot(decode, ran, next)
    ensures SizeInv(next)
    ensures Transferred(next) ==> NamesRealSnapshot(decode, ran, next)
  {
    SameNameSameEvidence(decode, ran, prev, next);
    hide GetDriverType, NamesRealSnapshot, RestoredClaimName;
  }

  lemma SameNameSameEvidence(decode: Decoder, ran: set<Process>, prev: DataExport, next: DataExport)
    ensures prev.status.snapshotID == next.status.snapshotID && prev.status.size == next.status.size
              && prev.status.progressPercentage == next.status.progressPercentage
              && NamesRealSnapshot(decode, ran, prev)
            ==> NamesRealSnapshot(decode, ran, next)
  {
    hide Accepted, GetBackupSummary;
  }

  lemma RecordKeepsEvidence(decode: Decoder, w: World, in_: DataExport, next: DataExport, a: Answers, p: Patch)
    requires WorldInv(decode, w) && w.worker.Syncing? && SameRead(in_, w.worker.in_)
    requires SyncWrite(in_, w.de, next, a, p) && Consistent(w.worker, a)
    ensures SizeInv(next)
    ensures Transferred(next) ==> NamesRealSnapshot(decode, w.ran, next)
  {
    hide SyncWrite, Consistent, GetDriverType, Sound, HeardInv, JobIdInv, ClaimNameInv, StageInv, SizeInv, Lands, Moves,
      Transferred, NamesRealSnapshot, SameRead;
    WriteLands(in_, w.de, next, a, p);
    if JustTransferred(w.de, p) {
      RecordedSuccessIsReal(decode, w, in_, next, a, p);
    }
    EvidenceCarries(decode, w.ran, w.de, next, a, p);
  }

  lemma RecordKeeps(decode: Decoder, w: World, w': World)
    requires WorldInv(decode, w) && RecordStep(w, w')
    ensures WorldInv(decode, w')
  {
    hide SyncWrite, Consistent, GetDriverType, Genuine, Sound, Invariant, NamesRealSnapshot, BackupObject, JobNamespace, Look;
    var in_, a, p :| SameRead(in_, w.worker.in_) && SyncWrite(in_, w.de, w'.de, a, p) && Consistent(w.worker, a);
    WriteKeepsInvariant(in_, w.de, w'.de, a, p);
    RecordKeepsEvidence(decode, w, in_, w'.de, a, p);
    ObjectIsKept(w.de, w'.de);
    NamespaceIsKept(w.de, w'.de);
    if Rank(w.de.status.stage) >= 7 {
      TransferStaysPut(w.de, w'.de);
    }
  }

  lemma NamespaceIsKept(a: DataExport, b: DataExport)
    requires BackupObject(a) == BackupObject(b)
    ensures PlainNamespace(a) <==> PlainNamespace(b)
  {
    hide JobNamespace;
  }

  /** What a write keeps of an export whose transfer goes on. */
  lemma TransferStaysPut(prev: DataExport, next: DataExport)
    requires SamePoint(prev, next) || Arrow(prev, next)
    requires Continues(prev, next) && Rank(prev.status.stage) >= 7
    ensures Rank(next.status.stage) >= 7 && next.spec == prev.spec
    ensures next.status.stage == StageTransferInProgress ==> prev.status.stage == StageTransferInProgress
  {
    hide GetDriverType;
  }

  lemma WorldStepKeeps(decode: Decoder, w: World, w': World)
    requires WorldInv(decode, w) && WorldStep(decode, w, w') && Unshared(w)
    ensures WorldInv(decode, w')
  {
    hide WorldInv, Unshared, ForeignStep, PodStep, RestorePodStep, OthersStep, RestoresStep, Restores, BeginStep, HearJobStep,
      HearVolumeBackupStep, RecordStep, DeleteStep, EndStep;
    if ForeignStep(w, w') {
      ForeignKeeps(decode, w, w');
    } else if PodStep(decode, w, w') {
      PodKeeps(decode, w, w');
    } else if HearJobStep(w, w') {
      HearJobKeeps(decode, w, w');
    } else if HearVolumeBackupStep(w, w') {
      HearVolumeBackupKeeps(decode, w, w');
    } else if RecordStep(w, w') {
      RecordKeeps(decode, w, w');
    } else if RestorePodStep(w, w') {
      UnsharedRestoreIsOthers(w, w');
      QuietStepKeeps(decode, w, w');
    } else {
      QuietStepKeeps(decode, w, w');
    }
  }

  /** Up to the `i`-th world no restore export has named the VolumeBackup. */
  predicate UnsharedUpTo(ws: seq<World>, i: nat) {
    forall m :: 0 <= m < i && m < |ws| ==> Unshared(ws[m])
  }

  lemma {:induction false} TraceKeepsInvariant(decode: Decoder, ws: seq<World>, i: nat)
    requires Trace(decode, ws) && i < |ws| && UnsharedUpTo(ws, i)
    ensures WorldInv(decode, ws[i])
    decreases i
  {
    hide WorldStep, Fresh, Invariant, Unshared;
    if i == 0 {
      FreshIsInvariant(ws[0].de);
      FreshIsUntransferred(ws[0].de);
    } else {
      TraceKeepsInvariant(decode, ws, i - 1);
      assert WorldStep(decode, ws[i - 1], ws[i - 1 + 1]);
      WorldStepKeeps(decode, ws[i - 1], ws[i]);
    }
  }

  lemma FreshIsUntransferred(de: DataExport)
    requires Fresh(de)
    ensures SizeInv(de) && !Transferred(de)
  {
  }

  /** In every trace in which no restore export has named its VolumeBackup so far, a kopia backup recorded as transferred,
      and one that ends successful, names a snapshot that a kopia command really made, without a fatal error, and carries
      its size. `Transfers` shows that the condition cannot be dropped. */
  lemma EndToEnd(decode: Decoder, ws: seq<World>, i: nat)
    requires Trace(decode, ws) && i < |ws| && UnsharedUpTo(ws, i) && Transferred(ws[i].de)
    ensures exists p :: p in ws[i].ran && p.exitOk && GetBackupSummary(decode, p.stdout).Ok?
                        && ws[i].de.status.snapshotID == GetBackupSummary(decode, p.stdout).value.id
                        && ws[i].de.status.size == GetBackupSummary(decode, p.stdout).value.totalFileSize
                        && ws[i].de.status.snapshotID != "" && ws[i].de.status.progressPercentage == 100
  {
    hide Trace, Transferred, GetBackupSummary, Invariant, SizeInv, HeardInv, Sound, UnsharedUpTo;
    TraceKeepsInvariant(decode, ws, i);
    var p :| p in ws[i].ran && Accepted(Backup, decode, p)
             && ws[i].de.status.snapshotID == GetBackupSummary(decode, p.stdout).value.id
             && ws[i].de.status.size == GetBackupSummary(decode, p.stdout).value.totalFileSize
             && ws[i].de.status.progressPercentage == 100;
    AcceptedSummaryHasId(decode, p);
  }

  lemma WriteKeepsObject(in_: DataExport, prev: DataExport, next: DataExport, a: Answers, p: Patch)
    requires SyncWrite(in_, prev, next, a, p)
    ensures next.name == prev.name && SpecContinues(prev, next) && BackupObject(next) == BackupObject(prev)
  {
    hide Decides, Honest, MergeStatus, SyncPlan, ReachesStartJob, GetDriverType;
    DefaultTypeIsNoRestore(prev.spec.(exportType := ""));
  }

  lemma StepKeepsObject(decode: Decoder, w: World, w': World)
    requires WorldStep(decode, w, w')
    ensures w'.de.name == w.de.name && SpecContinues(w.de, w'.de) && BackupObject(w'.de) == BackupObject(w.de)
  {
    hide SyncWrite, Consistent, VbStep, D.BackupJobStatus, Truthful, AsksFor, BackupObject, Own, RestoreWrite, ParseJobID;
    if RecordStep(w, w') {
      var in_, a, p :| SameRead(in_, w.worker.in_) && SyncWrite(in_, w.de, w'.de, a, p) && Consistent(w.worker, a);
      WriteKeepsObject(in_, w.de, w'.de, a, p);
    } else {
      SameSpecSameObject(w.de, w'.de);
    }
  }

  lemma SameSpecSameObject(a: DataExport, b: DataExport)
    ensures a.name == b.name && a.spec == b.spec ==> BackupObject(a) == BackupObject(b)
  {
    hide JobNamespace;
  }

  /** While no restore export names the object, a recorded snapshot stays as it is until the object is deleted. */
  lemma {:induction false} SnapshotOutlivesPods(decode: Decoder, ws: seq<World>, i: nat, j: nat)
    requires Trace(decode, ws) && i <= j < |ws|
    requires Own(ws[i]).Some? && Own(ws[i]).value.status.snapshotID != ""
    requires forall m :: i <= m <= j ==> Own(ws[m]).Some? && (m < j ==> Unshared(ws[m]))
    ensures Own(ws[j]) == Own(ws[i])
    decreases j
  {
    hide WorldStep, Unshared, Fresh, Own;
    if i < j {
      SnapshotOutlivesPods(decode, ws, i, j - 1);
      assert WorldStep(decode, ws[j - 1], ws[j - 1 + 1]);
      StepKeepsSnapshot(decode, ws[j - 1], ws[j]);
    }
  }

  lemma StepKeepsSnapshot(decode: Decoder, w: World, w': World)
    requires WorldStep(decode, w, w') && Unshared(w)
    requires Own(w).Some? && Own(w).value.status.snapshotID != "" && Own(w').Some?
    ensures Own(w') == Own(w)
  {
    hide Sound, Unshared, SyncWrite, Consistent, D.BackupJobStatus, RestorePodStep, BackupObject, AsksFor, Truthful, ParseJobID;
    StepKeepsObject(decode, w, w');
    if RestorePodStep(w, w') {
      UnsharedRestoreIsOthers(w, w');
    }
  }

  // ---------------------------------------------------------------- what the methods do is a trace

  lemma TraceGrows(decode: Decoder, ws: seq<World>, w: World)
    requires Trace(decode, ws) && WorldStep(decode, ws[|ws| - 1], w)
    ensures Trace(decode, ws + [w])
  {
    hide WorldStep, Fresh;
    var longer := ws + [w];
    forall i | 0 <= i < |longer| - 1 ensures WorldStep(decode, longer[i], longer[i + 1]) {
      if i < |ws| - 1 {
        assert longer[i] == ws[i] && longer[i + 1] == ws[i + 1];
      }
    }
  }

  /** The reconciler is cleaning up, or idle with an export to clean up, whose transfer id is recorded. */
  predicate MayDelete(w: World) {
    var de := if w.worker.Syncing? then w.worker.in_ else w.de;
    CleansUp(de) && ParseJobID(de.status.transferID) == Ok(BackupObject(w.de))
  }

  predicate Deletes(s: VbState, s': VbState) {
    s.vb.Some? && s'.vb.None?
  }

  /** Whatever one life of a backup pod does to the object, and whatever deletion comes in between (`Pod.RunBackup` ensures
      `VbSteps`), prolongs a trace; a deletion needs a reconciler that may clean up. */
  lemma {:induction false} PodLifeIsTraced(decode: Decoder, ws: seq<World>, was: seq<VbState>, now: seq<VbState>)
    returns (ws': seq<World>)
    requires ws != [] && Trace(decode, ws) && was != [] && Stored(ws[|ws| - 1]) == Last(was)
    requires VbSteps(decode, was, now)
    requires MayDelete(ws[|ws| - 1]) || forall i :: |was| <= i < |now| && i > 0 ==> !Deletes(now[i - 1], now[i])
    ensures Trace(decode, ws') && ws <= ws'
    ensures ws'[|ws'| - 1] == WithOwn(ws[|ws| - 1], Last(now))
    decreases |now|
  {
    hide VbStep, Fresh, WorldStep, Trace, MayDelete, Deletes, WithOwn, Stored;
    WithOwnHas(ws[|ws| - 1], Last(was), Last(now));
    if |now| == |was| {
      ws' := ws;
    } else {
      var n := |now| - 1;
      WithOwnHas(ws[|ws| - 1], now[n - 1], now[n]);
      OwnDoesNotMatter(ws[|ws| - 1], now[n - 1]);
      var before := PodLifeIsTraced(decode, ws, was, now[..n]);
      assert VbStep(decode, now[n - 1], now[n]);
      ws' := StoreStepIsTraced(decode, before, now[n - 1], now[n]);
    }
  }

  /** One change of the stored object in a trace: a step of the pod, or its command's end and then the deletion. */
  lemma StoreStepIsTraced(decode: Decoder, ws: seq<World>, s: VbState, s': VbState) returns (ws': seq<World>)
    requires ws != [] && Trace(decode, ws) && Stored(ws[|ws| - 1]) == s && VbStep(decode, s, s')
    requires MayDelete(ws[|ws| - 1]) || !Deletes(s, s')
    ensures Trace(decode, ws') && ws <= ws'
    ensures ws'[|ws'| - 1] == WithOwn(ws[|ws| - 1], s')
  {
    hide VbChange, WorldStep, Trace, MayDelete, WithOwn, Stored, Own;
    var w := ws[|ws| - 1];
    if Deletes(s, s') {
      var t := VbState(s.vb, s'.ran);
      var ended := WithOwn(w, t);
      WithOwnHas(w, t, s');
      OwnDoesNotMatter(w, t);
      OwnIsStored(w);
      OwnIsStored(ended);
      assert PodStep(decode, w, ended);
      PodStepIsStep(decode, w, ended);
      TraceGrows(decode, ws, ended);
      ws' := DeletionIsTraced(decode, ws + [ended]);
    } else {
      var w' := WithOwn(w, s');
      WithOwnHas(w, s', s');
      assert PodStep(decode, w, w') by { OwnIsStored(w); OwnIsStored(w'); }
      PodStepIsStep(decode, w, w');
      TraceGrows(decode, ws, w');
      ws' := ws + [w'];
    }
  }

  lemma OwnIsStored(w: World)
    ensures Stored(w).vb == Own(w) && Stored(w).ran == w.ran
  {
  }

  lemma OwnDoesNotMatter(w: World, s: VbState)
    ensures MayDelete(WithOwn(w, s)) <==> MayDelete(w)
  {
    hide CleansUp, ParseJobID, Put;
  }

  lemma DeletionIsTraced(decode: Decoder, ws: seq<World>) returns (ws': seq<World>)
    requires ws != [] && Trace(decode, ws) && MayDelete(ws[|ws| - 1])
    ensures Trace(decode, ws') && ws <= ws'
    ensures ws'[|ws'| - 1] == WithOwn(ws[|ws| - 1], VbState(None, ws[|ws| - 1].ran))
  {
    hide Trace, WorldStep, CleansUp, ParseJobID, BackupObject;
    var w := ws[|ws| - 1];
    var gone := WithOwn(w, VbState(None, w.ran));
    if w.worker.Syncing? {
      CleanUpSteps(decode, w);
      TraceGrows(decode, ws, gone);
      ws' := ws + [gone];
    } else {
      var worker := Syncing(w.de, None, []);
      var begun := w.(worker := worker);
      CleanUpSteps(decode, begun);
      TraceGrows(decode, ws, begun);
      TraceGrows(decode, ws + [begun], gone.(worker := worker));
      TraceGrows(decode, ws + [begun] + [gone.(worker := worker)], gone);
      ws' := ws + [begun] + [gone.(worker := worker)] + [gone];
    }
  }

  /** A `sync` begins, deletes and ends. */
  lemma CleanUpSteps(decode: Decoder, w: World)
    requires w.worker.Syncing? && MayDelete(w)
    ensures var gone := WithOwn(w, VbState(None, w.ran));
            && WorldStep(decode, w, gone)
            && (w.worker == Syncing(w.de, None, []) ==> WorldStep(decode, w.(worker := Idle), w))
            && WorldStep(decode, gone, gone.(worker := Idle))
  {
    hide PodStep, HearJobStep, RecordStep, CleansUp, BackupObject, ParseJobID;
    var gone := WithOwn(w, VbState(None, w.ran));
    assert DeleteStep(w, gone);
    assert EndStep(gone, gone.(worker := Idle));
    if w.worker == Syncing(w.de, None, []) {
      assert BeginStep(w.(worker := Idle), w);
    }
  }

  lemma PodStepIsStep(decode: Decoder, w: World, w': World)
    requires PodStep(decode, w, w')
    ensures WorldStep(decode, w, w')
  {
    hide PodStep;
  }

  /** The answers are what the worker has heard; what was not asked counts as an error. */
  ghost predicate Hears(w: Worker, a: Answers) {
    && w.Syncing?
    && (if w.heard.Some? then a.jobStatus == w.heard.value else a.jobStatus.Err?)
    && (forall vb :: D.VbFound(vb) in a.vbReads ==> D.VbFound(vb) in w.found)
  }

  /** A `sync` is under way on this object, as stored, with these answers. */
  ghost predicate InSync(w: World, a: Answers, deleting: bool) {
    Hears(w.worker, a) && SameOwned(w.worker.in_, w.de) && w.worker.in_.deleting == deleting
  }

  /** Everything one `Controller.Sync` appends to the history of the export prolongs a trace. */
  lemma {:induction false} SyncIsTraced(
      decode: Decoder, ws: seq<World>, was: seq<DataExport>, now: seq<DataExport>, a: Answers, deleting: bool)
    returns (ws': seq<World>)
    requires ws != [] && Trace(decode, ws) && was != [] && ws[|ws| - 1].de == was[|was| - 1]
    requires InSync(ws[|ws| - 1], a, deleting) && StepsOf(was, now, a, deleting)
    ensures Trace(decode, ws') && ws <= ws' && InSync(ws'[|ws'| - 1], a, deleting)
    ensures ws'[|ws'| - 1] == ws[|ws| - 1].(de := now[|now| - 1], worker := ws'[|ws'| - 1].worker)
    decreases |now|
  {
    hide StepOf, Fresh, WorldStep, Trace, InSync;
    if |now| == |was| {
      ws' := ws;
    } else {
      var n := |now| - 1;
      ws' := SyncIsTraced(decode, ws, was, now[..n], a, deleting);
      assert StepOf(now[n - 1], now[n], a, deleting);
      var w' := SyncWorldStep(decode, ws'[|ws'| - 1], now[n], a, deleting);
      TraceGrows(decode, ws', w');
      ws' := ws' + [w'];
    }
  }

  lemma SyncWorldStep(decode: Decoder, w: World, next: DataExport, a: Answers, deleting: bool) returns (w': World)
    requires InSync(w, a, deleting) && StepOf(w.de, next, a, deleting)
    ensures WorldStep(decode, w, w') && InSync(w', a, deleting)
    ensures w' == w.(de := next, worker := w'.worker)
  {
    hide SyncWrite, PodStep, HearJobStep, HearVolumeBackupStep;
    if ForeignWrite(w.de, next, true) {
      w' := w.(de := next);
    } else {
      var in_, p :| SyncWrite(in_, w.de, next, a, p) && in_.deleting == deleting;
      w' := w.(de := next, worker := w.worker.(in_ := next.(deleting := deleting)));
      WriteReadsCurrent(in_, w.de, next, a, p);
      assert SameRead(in_, w.worker.in_) && Consistent(w.worker, a);
      assert RecordStep(w, w');
    }
  }

  lemma WriteReadsCurrent(in_: DataExport, prev: DataExport, next: DataExport, a: Answers, p: Patch)
    requires SyncWrite(in_, prev, next, a, p)
    ensures SameOwned(in_, prev)
  {
  }

  // ---------------------------------------------------------------- the second read

  /** Whatever empties the VolumeBackup between the driver's read and the reconciler's own, a restore pod or a deletion and
      a new creation, the export is recorded as successful without a snapshot: the second read is not checked again. */
  lemma SecondReadIsNotChecked(de: DataExport, a: Answers, fresh_: VolumeBackup)
    requires fresh_.status == EMPTY_VOLUME_BACKUP_STATUS && de.status.snapshotID == ""
    requires SyncPlan(de, a).AwaitVolumeBackup? && a.vbReads == [D.VbFound(fresh_)]
    ensures exists p :: Decides(de, a, p) && Merge(de, p).status.status == StatusSuccessful && Merge(de, p).status.snapshotID == ""
  {
    hide SyncPlan;
    assert Decides(de, a, Completed(fresh_, SyncPlan(de, a).progressPercents));
  }
}
