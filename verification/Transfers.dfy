/** Two ways a kopia backup can go: to a recorded snapshot, and, when a restore export names its VolumeBackup, to a
    recorded success without one. */
module Transfers {
  import opened Wrappers
  import opened KdmpApi
  import opened Naming
  import opened StatusStore
  import opened Reconciler
  import opened Runs
  import opened Lifecycle
  import opened GoodRuns
  import opened ExecutorApi
  import opened KopiaExecutors
  import opened VolumeBackups
  import opened OtherPods
  import opened Handshake
  import D = Drivers

  predicate KopiaBackupAhead(start: DataExport) {
    Fresh(start) && !start.deleting && IsKopiaBackup(start.spec) && !HasLocalRestoreStage(start) && PlainNamespace(start)
  }

  /** A trace of this export, with these restore exports in the cluster all along. */
  ghost predicate TraceAmong(decode: Decoder, ws: seq<World>, start: DataExport, restores: set<Spec>) {
    && Trace(decode, ws) && ws[0].de == start
    && forall i :: 0 <= i < |ws| ==> ws[i].restores == restores
  }

  ghost predicate TraceTo(decode: Decoder, ws: seq<World>, start: DataExport, restores: set<Spec>, w: World) {
    TraceAmong(decode, ws, start, restores) && ws[|ws| - 1] == w
  }

  lemma On(decode: Decoder, ws: seq<World>, start: DataExport, restores: set<Spec>, w: World, w': World)
    returns (ws': seq<World>)
    requires TraceTo(decode, ws, start, restores, w) && WorldStep(decode, w, w') && w'.restores == restores
    ensures TraceTo(decode, ws', start, restores, w')
  {
    assert ws != [];
    hide WorldStep, Trace;
    TraceGrows(decode, ws, w');
    ws' := ws + [w'];
  }

  // ---------------------------------------------------------------- one sync that hears nothing of the transfer

  lemma OneSync(
      decode: Decoder, ws: seq<World>, start: DataExport, restores: set<Spec>, w: World, next: DataExport, a: Answers, p: Patch)
    returns (ws': seq<World>)
    requires TraceTo(decode, ws, start, restores, w) && w.worker.Idle? && w.restores == restores
    requires a.jobStatus.Err? && a.vbReads == [] && SyncWrite(w.de, w.de, next, a, p) && next.deleting == w.de.deleting
    ensures TraceTo(decode, ws', start, restores, w.(de := next))
  {
    hide TraceTo, SyncWrite, PodStep, HearJobStep, HearVolumeBackupStep, ForeignWrite;
    var w1 := w.(worker := Syncing(w.de, None, []));
    assert BeginStep(w, w1);
    ws' := On(decode, ws, start, restores, w, w1);
    var w2 := w.(de := next, worker := Syncing(next, None, []));
    assert SameRead(w.de, w1.worker.in_) && Consistent(w1.worker, a);
    assert RecordStep(w1, w2);
    ws' := On(decode, ws', start, restores, w1, w2);
    assert EndStep(w2, w.(de := next));
    ws' := On(decode, ws', start, restores, w2, w.(de := next));
  }

  /** What good syncs with this snapshot name keep of the export they started from. */
  predicate Onward(start: DataExport, de: DataExport, snapshot: string) {
    && Promising(de) && de.name == start.name && de.spec == start.spec
    && de.status.localSnapshotRestore == start.status.localSnapshotRestore
    && de.status.snapshotID in {"", snapshot}
  }

  function QuietAnswers(de: DataExport, snapshot: string): Answers {
    AllGood(StartedID(de)).(createSnapshot := Ok((snapshot, de.namespace)), jobStatus := Err("not asked"), vbReads := [])
  }

  lemma NamesTheSnapshot(de: DataExport, a: Answers, p: Patch)
    requires Decides(de, a, p) && a.createSnapshot.Ok? && a.vbReads == []
    ensures p.snapshotID in {"", a.createSnapshot.value.0}
  {
    hide Message, GetDriverType, SnapshotDriver, ToSnapshotPVCName, ParseJobID, FirstWorkingStage;
  }

  predicate AwaitsTransfer(de: DataExport) {
    de.status.stage == StageTransferInProgress && Open(de)
  }

  lemma OnwardByQuietSync(start: DataExport, de: DataExport, snapshot: string) returns (next: DataExport, a: Answers, p: Patch)
    requires Onward(start, de, snapshot) && !Finished(de) && !AwaitsTransfer(de)
    ensures a == QuietAnswers(de, snapshot) && SyncWrite(de, de, next, a, p) && next.deleting == de.deleting
    ensures Onward(start, next, snapshot) && Left(next) + 1 == Left(de)
  {
    a := QuietAnswers(de, snapshot);
    AllGoodIsGood(de, a);
    GoodSyncAdvances(de, a);
    hide Decides, LocalCopy, After, Left, Invariant, AllAnswersGood, GetDriverType, StartedID, Honest, Doomed, Open;
    p :| Decides(de, a, p) && After(de, a) == Merge(de, p) && !p.removeFinalizer;
    next := Merge(de, p);
    NamesTheSnapshot(de, a, p);
  }

  lemma LeftInTransfer(de: DataExport)
    requires Promising(de)
    ensures Finished(de) <==> Left(de) == 0
    ensures AwaitsTransfer(de) ==> Left(de) == 3
    ensures Left(de) == 3 && !HasLocalRestoreStage(de) ==> AwaitsTransfer(de)
  {
    hide Resolvable, JobIdInv, ClaimNameInv;
  }

  /** Sync after sync, as far as the transfer; or, from beyond it, to the end. */
  lemma GoOn(
      decode: Decoder, ws: seq<World>, start: DataExport, restores: set<Spec>, w: World, snapshot: string)
    returns (ws': seq<World>, de: DataExport)
    requires TraceTo(decode, ws, start, restores, w) && w.worker.Idle? && w.restores == restores
    requires Onward(start, w.de, snapshot)
    ensures TraceTo(decode, ws', start, restores, w.(de := de)) && Onward(start, de, snapshot)
    ensures Left(w.de) >= 3 && !HasLocalRestoreStage(w.de) ==> AwaitsTransfer(de)
    ensures Left(w.de) < 3 ==> Finished(de)
    decreases Left(w.de)
  {
    LeftInTransfer(w.de);
    assert HasLocalRestoreStage(w.de) <==> HasLocalRestoreStage(start);
    hide TraceTo, Left, Finished, AwaitsTransfer, SyncWrite, Promising;
    if Finished(w.de) || AwaitsTransfer(w.de) {
      ws', de := ws, w.de;
    } else {
      var next, a, p := OnwardByQuietSync(start, w.de, snapshot);
      ws' := OneSync(decode, ws, start, restores, w, next, a, p);
      ws', de := GoOn(decode, ws', start, restores, w.(de := next), snapshot);
    }
  }

  lemma AheadIsKopia(start: DataExport)
    requires KopiaBackupAhead(start)
    ensures IsKopiaBackup(start.spec) && !HasLocalRestoreStage(start) && PlainNamespace(start)
  {
  }

  lemma AheadIsOnward(start: DataExport, snapshot: string)
    requires KopiaBackupAhead(start)
    ensures Onward(start, start, snapshot)
  {
    FreshIsInvariant(start);
    hide GetDriverType, Invariant;
  }

  lemma StartsTrace(decode: Decoder, start: DataExport, restores: set<Spec>) returns (ws: seq<World>)
    requires KopiaBackupAhead(start)
    ensures TraceTo(decode, ws, start, restores, World(start, map[], {}, Idle, restores))
  {
    ws := [World(start, map[], {}, Idle, restores)];
    hide Fresh, WorldStep;
  }

  // ---------------------------------------------------------------- the transfer

  const VIEW := D.JobView(Ok(D.Job([D.JobCondition(D.JOB_COMPLETE, true)], "")), true, true, false)

  const COMPLETED := D.JobStatus(100.0, D.JobStateCompleted, "", D.JOB_COMPLETE)

  lemma DriverSaysCompleted(id: string, vb: VolumeBackup)
    requires '/' in id && vb.status.progressPercentage == 100.0 && vb.status.lastKnownError == ""
    ensures D.BackupJobStatus(id, VIEW, D.VbFound(vb)) == Ok(COMPLETED)
  {
    NamespacedNameInvertsParse(id);
    CompleteIsNotFailed();
    hide ParseJobID;
  }

  /** The spec the backup pod of this export gives its VolumeBackup (`Repositories.RunBackupJob`). */
  function RecordedSpec(de: DataExport): VolumeBackupSpec {
    VolumeBackupSpec(BackupRepository(de), de.spec.destination.name, de.spec.destination.namespace)
  }

  /** The VolumeBackup of the one snapshot command that has ended. */
  function MadeBy(decode: Decoder, p: Process, de: DataExport): VolumeBackup
    requires Accepted(Backup, decode, p)
  {
    VolumeBackup(RecordedSpec(de), SummaryWritten(GetBackupSummary(decode, p.stdout).value))
  }

  /** The cluster with this export's VolumeBackup and no other. */
  function Having(de: DataExport, vb: VolumeBackup): map<ObjectKey, VolumeBackup> {
    map[BackupObject(de) := vb]
  }

  /** A pod creates the VolumeBackup, its command ends, and the result is written. */
  lemma PodRecords(decode: Decoder, ws: seq<World>, start: DataExport, restores: set<Spec>, w: World, p: Process)
    returns (ws': seq<World>)
    requires TraceTo(decode, ws, start, restores, w) && w.vbs == map[] && w.ran == {} && w.restores == restores
    requires Accepted(Backup, decode, p)
    ensures TraceTo(decode, ws', start, restores, w.(vbs := Having(w.de, MadeBy(decode, p, w.de)), ran := {p}))
  {
    hide TraceTo, Accepted, GetBackupSummary, RecordedSpec, BackupObject;
    var w1 := w.(vbs := Having(w.de, MadeBy(decode, p, w.de).(status := EMPTY_VOLUME_BACKUP_STATUS)));
    assert PodStep(decode, w, w1);
    PodStepIsStep(decode, w, w1);
    ws' := On(decode, ws, start, restores, w, w1);
    var w2 := w.(vbs := Having(w.de, MadeBy(decode, p, w.de)), ran := {p});
    assert Sound(decode, {p}, MadeBy(decode, p, w.de).status) by { MadeIsSound(decode, p, w.de); }
    assert PodStep(decode, w1, w2);
    PodStepIsStep(decode, w1, w2);
    ws' := On(decode, ws', start, restores, w1, w2);
  }

  lemma MadeIsSound(decode: Decoder, p: Process, de: DataExport)
    requires Accepted(Backup, decode, p)
    ensures Sound(decode, {p}, MadeBy(decode, p, de).status) && Genuine(decode, {p}, MadeBy(decode, p, de).status)
  {
    AcceptedSummaryHasId(decode, p);
    assert p in {p};
  }

  function HeardAnswers(de: DataExport, read: VolumeBackup): Answers {
    AllGood(StartedID(de)).(jobStatus := Ok(COMPLETED), vbReads := [D.VbFound(read)])
  }

  lemma HeardIsGood(de: DataExport, read: VolumeBackup)
    requires Promising(de) && AwaitsTransfer(de)
    ensures GoodFor(de, HeardAnswers(de, read))
  {
    hide Promising, GoodFor, StartedID, Open;
    CompleteIsNotFailed();
    AllGoodIsGood(de, HeardAnswers(de, read));
  }

  lemma HeardDecision(de: DataExport, read: VolumeBackup) returns (p: Patch, progressPercents: real)
    requires Promising(de) && AwaitsTransfer(de)
    ensures var a := HeardAnswers(de, read);
            && Decides(de, a, p) && After(de, a) == Merge(de, p) && p == Completed(read, progressPercents)
            && Honest(de, a) && Promising(After(de, a)) && SyncPlan(de, a).AwaitVolumeBackup?
  {
    hide Decides, After, AllAnswersGood, StartedID, SyncPlan, AllGood, Merge, Completed;
    var a := HeardAnswers(de, read);
    HeardIsGood(de, read);
    GoodSyncAdvances(de, a);
    p := OpenSucceeds(de, a);
    hide GoodFor, Promising, Honest;
    SuccessNeedsVolumeBackup(de, a, p);
    progressPercents := a.jobStatus.value.progressPercents;
    var vb :| D.VbFound(vb) in a.vbReads && p == Completed(vb, progressPercents);
    assert a.vbReads == [D.VbFound(read)];
  }

  /** The sync that hears Completed and reads the VolumeBackup records what it has read. */
  lemma RecordsWhatItReads(start: DataExport, de: DataExport, read: VolumeBackup, snapshot: string)
    returns (next: DataExport, p: Patch)
    requires Onward(start, de, snapshot) && AwaitsTransfer(de) && IsKopiaBackup(de.spec) && !HasLocalRestoreStage(de)
    ensures SyncWrite(de, de, next, HeardAnswers(de, read), p) && next.deleting == de.deleting
    ensures Onward(start, next, next.status.snapshotID) && Transferred(next)
    ensures next.status.snapshotID ==
              if read.status.snapshotID != "" then read.status.snapshotID else de.status.snapshotID
  {
    assert Live(de);
    hide Decides, LocalCopy, After, HeardAnswers, Honest, Invariant, Merge, Completed, IsKopiaBackup, GetDriverType, Doomed;
    var progressPercents;
    p, progressPercents := HeardDecision(de, read);
    next := Merge(de, p);
    CompletedLands(de, read, progressPercents);
  }

  lemma CompletedLands(de: DataExport, vb: VolumeBackup, progressPercents: real)
    ensures var next := Merge(de, Completed(vb, progressPercents));
            && next.status.stage == de.status.stage && next.status.status == StatusSuccessful
            && next.name == de.name && next.spec == de.spec && next.deleting == de.deleting
            && next.status.localSnapshotRestore == de.status.localSnapshotRestore
            && next.status.snapshotID == (if vb.status.snapshotID != "" then vb.status.snapshotID else de.status.snapshotID)
  {
  }

  /** One export of `restores` names the VolumeBackup of `de`. */
  predicate Shared(restores: set<Spec>, de: DataExport) {
    exists spec :: spec in restores && Restores(spec, de)
  }

  lemma HearsCompleted(
      decode: Decoder, ws: seq<World>, start: DataExport, restores: set<Spec>, w: World, made: VolumeBackup, snapshot: string)
    returns (ws': seq<World>)
    requires TraceTo(decode, ws, start, restores, w) && w.worker.Idle? && w.restores == restores && Own(w) == Some(made)
    requires made.status.progressPercentage == 100.0 && made.status.lastKnownError == ""
    requires Onward(start, w.de, snapshot) && AwaitsTransfer(w.de) && IsKopiaBackup(w.de.spec) && PlainNamespace(w.de)
    ensures TraceTo(decode, ws', start, restores, w.(worker := Syncing(w.de, Some(Ok(COMPLETED)), [])))
  {
    StartedIdHasSlash(w.de);
    hide TraceTo, StartedID, GetDriverType, StageInv, ClaimNameInv, D.BackupJobStatus, PodStep, RecordStep, ParseJobID, BackupObject,
      Look;
    IdNamesOwnObject(w.de);
    var w1 := w.(worker := Syncing(w.de, None, []));
    assert BeginStep(w, w1);
    ws' := On(decode, ws, start, restores, w, w1);
    var id := w.de.status.transferID;
    DriverSaysCompleted(id, made);
    var w2 := w.(worker := Syncing(w.de, Some(D.BackupJobStatus(id, VIEW, D.VbFound(made))), []));
    assert Truthful(Look(w1.vbs, ParseJobID(id).value), D.VbFound(made));
    assert HearJobStep(w1, w2);
    ws' := On(decode, ws', start, restores, w1, w2);
  }

  lemma ReadIsStep(decode: Decoder, w: World, w': World, read: VolumeBackup)
    requires Own(w) == Some(read) && Promising(w.de) && AwaitsTransfer(w.de) && IsKopiaBackup(w.de.spec) && PlainNamespace(w.de)
    requires w.worker == Syncing(w.de, Some(Ok(COMPLETED)), [])
    requires w' == w.(worker := w.worker.(found := [D.VbFound(read)]))
    ensures WorldStep(decode, w, w')
  {
    var a := HeardAnswers(w.de, read);
    assert a.jobStatus == Ok(COMPLETED) && Invariant(w.de);
    hide PodStep, HearJobStep, RecordStep, Invariant, SyncPlan, HeardAnswers, GetDriverType, BackupObject, Look, Decides, After, Honest;
    var p, progressPercents := HeardDecision(w.de, read);
    AwaitedObject(w.de, a);
    assert AsksFor(w.worker, BackupObject(w.de));
    assert Truthful(Look(w.vbs, BackupObject(w.de)), D.VbFound(read)) && w.worker.found + [D.VbFound(read)] == [D.VbFound(read)];
    assert HearVolumeBackupStep(w, w');
  }

  lemma RecordIsStep(decode: Decoder, w: World, w': World, read: VolumeBackup, p: Patch)
    requires w.worker == Syncing(w.de, Some(Ok(COMPLETED)), [D.VbFound(read)])
    requires w' == w.(de := w'.de, worker := w.worker.(in_ := w'.de)) && w'.de.deleting == w.de.deleting
    requires SyncWrite(w.de, w.de, w'.de, HeardAnswers(w.de, read), p)
    ensures WorldStep(decode, w, w')
  {
    hide SyncWrite, PodStep, HearJobStep, AllGood, GetDriverType;
    assert SameRead(w.de, w.worker.in_) && Consistent(w.worker, HeardAnswers(w.de, read));
    assert RecordStep(w, w');
  }

  lemma EndIsStep(decode: Decoder, w: World, w': World)
    requires w' == w.(worker := Idle)
    ensures WorldStep(decode, w, w')
  {
    hide PodStep, HearJobStep, RecordStep;
    assert EndStep(w, w');
  }

  /** It then reads the VolumeBackup as it is by now, and records the transfer. */
  lemma ReadsAndRecords(
      decode: Decoder, ws: seq<World>, start: DataExport, restores: set<Spec>, w: World, read: VolumeBackup, snapshot: string)
    returns (ws': seq<World>, next: DataExport)
    requires TraceTo(decode, ws, start, restores, w) && w.restores == restores && Own(w) == Some(read)
    requires w.worker == Syncing(w.de, Some(Ok(COMPLETED)), []) && PlainNamespace(w.de)
    requires Onward(start, w.de, snapshot) && AwaitsTransfer(w.de) && IsKopiaBackup(w.de.spec) && !HasLocalRestoreStage(w.de)
    ensures TraceTo(decode, ws', start, restores, w.(de := next, worker := Idle))
    ensures Onward(start, next, next.status.snapshotID) && Transferred(next)
    ensures next.status.snapshotID == if read.status.snapshotID != "" then read.status.snapshotID else w.de.status.snapshotID
  {
    hide TraceTo, SyncWrite, PodStep, AllGood, Promising, Transferred, AwaitsTransfer, IsKopiaBackup, HearJobStep, WorldStep,
      BackupObject, Look, JobNamespace;
    var p;
    next, p := RecordsWhatItReads(start, w.de, read, snapshot);
    var w1 := w.(worker := w.worker.(found := [D.VbFound(read)]));
    var w2 := w1.(de := next, worker := w1.worker.(in_ := next));
    ReadIsStep(decode, w, w1, read);
    RecordIsStep(decode, w1, w2, read, p);
    hide WorldStep;
    ws' := On(decode, ws, start, restores, w, w1);
    ws' := On(decode, ws', start, restores, w1, w2);
    EndIsStep(decode, w2, w.(de := next, worker := Idle));
    ws' := On(decode, ws', start, restores, w2, w.(de := next, worker := Idle));
  }

  /** As far as the moment the driver has said Completed; the snapshot taken first, if any, has this name. */
  lemma ToCompleted(decode: Decoder, start: DataExport, restores: set<Spec>, p: Process, snapshot: string)
    returns (ws: seq<World>, de: DataExport)
    requires KopiaBackupAhead(start) && Accepted(Backup, decode, p)
    ensures Onward(start, de, snapshot) && AwaitsTransfer(de)
    ensures TraceTo(decode, ws, start, restores,
                    World(de, Having(de, MadeBy(decode, p, de)), {p}, Syncing(de, Some(Ok(COMPLETED)), []), restores))
  {
    AheadIsOnward(start, snapshot);
    assert IsKopiaBackup(start.spec) && Left(start) >= 3;
    hide TraceTo, Accepted, GetBackupSummary, AwaitsTransfer, IsKopiaBackup, Promising, Left;
    ws := StartsTrace(decode, start, restores);
    var w := World(start, map[], {}, Idle, restores);
    ws, de := GoOn(decode, ws, start, restores, w, snapshot);
    ws := PodRecords(decode, ws, start, restores, w.(de := de), p);
    ws := HearsCompleted(decode, ws, start, restores, w.(de := de, vbs := Having(de, MadeBy(decode, p, de)), ran := {p}),
                         MadeBy(decode, p, de), snapshot);
  }

  // ---------------------------------------------------------------- both ends

  /** The export has got to its end, recorded as successful. */
  ghost predicate Ends(decode: Decoder, ws: seq<World>, start: DataExport, restores: set<Spec>) {
    TraceAmong(decode, ws, start, restores) && Finished(ws[|ws| - 1].de) && Transferred(ws[|ws| - 1].de)
  }

  lemma ToTheEnd(decode: Decoder, ws: seq<World>, start: DataExport, restores: set<Spec>, w: World)
    returns (ws': seq<World>)
    requires KopiaBackupAhead(start) && TraceTo(decode, ws, start, restores, w) && w.worker.Idle? && w.restores == restores
    requires Onward(start, w.de, w.de.status.snapshotID) && Transferred(w.de)
    ensures Ends(decode, ws', start, restores) && ws'[|ws'| - 1].ran == w.ran
    ensures ws'[|ws'| - 1].de.status.snapshotID in {"", w.de.status.snapshotID}
  {
    hide *;
    var snapshot, de := w.de.status.snapshotID, w.de;
    TransferredIsNearTheEnd(w.de);
    ws', de := GoOn(decode, ws, start, restores, w, snapshot);
    FinishedEnds(decode, ws', start, restores, w.(de := de), snapshot);
  }

  lemma TransferredIsNearTheEnd(de: DataExport)
    requires Transferred(de)
    ensures Left(de) < 3
  {
    hide GetDriverType;
  }

  lemma FinishedEnds(
      decode: Decoder, ws: seq<World>, start: DataExport, restores: set<Spec>, w: World, snapshot: string)
    requires KopiaBackupAhead(start) && TraceTo(decode, ws, start, restores, w)
    requires Onward(start, w.de, snapshot) && Finished(w.de)
    ensures Ends(decode, ws, start, restores) && ws[|ws| - 1].ran == w.ran && ws[|ws| - 1].de.status.snapshotID in {"", snapshot}
  {
    AheadIsKopia(start);
    hide TraceAmong, Promising, GetDriverType, IsKopiaBackup, KopiaBackupAhead;
  }

  /** Every kopia backup has a trace to its end; without restore exports, it names the snapshot its pod has made. */
  lemma EveryBackupCanSucceed(decode: Decoder, start: DataExport, p: Process)
    returns (ws: seq<World>)
    requires KopiaBackupAhead(start) && Accepted(Backup, decode, p)
    ensures Ends(decode, ws, start, {})
    ensures ws[|ws| - 1].de.status.snapshotID == GetBackupSummary(decode, p.stdout).value.id
  {
    AcceptedSummaryHasId(decode, p);
    assert IsKopiaBackup(start.spec) && !HasLocalRestoreStage(start);
    hide Accepted, GetBackupSummary, Trace, Promising, KopiaBackupAhead, IsKopiaBackup, NamesRealSnapshot;
    var de, next;
    ws, de := ToCompleted(decode, start, {}, p, "");
    var made := MadeBy(decode, p, de);
    var w := World(de, Having(de, made), {p}, Syncing(de, Some(Ok(COMPLETED)), []), {});
    ws, next := ReadsAndRecords(decode, ws, start, {}, w, made, "");
    ws := ToTheEnd(decode, ws, start, {}, w.(de := next, worker := Idle));
    EndToEnd(decode, ws, |ws| - 1);
  }

  lemma RestorePodBlanks(decode: Decoder, w: World, w': World, start: DataExport, made: VolumeBackup)
    requires w.vbs == Having(w.de, made) && w' == w.(vbs := Having(w.de, made.(status := EMPTY_VOLUME_BACKUP_STATUS)))
    requires Shared(w.restores, start) && w.de.name == start.name && w.de.spec == start.spec
    ensures WorldStep(decode, w, w')
  {
    hide PodStep, HearJobStep, RecordStep, GetDriverType;
    var spec :| spec in w.restores && Restores(spec, start);
    var blank := made.(status := EMPTY_VOLUME_BACKUP_STATUS);
    assert RestoreTarget(spec) == BackupObject(w.de) && w'.vbs == w.vbs[RestoreTarget(spec) := blank];
    assert RestoreWrite(Look(w.vbs, RestoreTarget(spec)), Some(blank));
    assert RestorePodStep(w, w');
  }

  /** With a restore export that names its VolumeBackup it has another one to the same end: a restore pod writes the
      object after the driver has said Completed and before `sync` reads it, and success is recorded without the snapshot. */
  lemma SharedBackupCanLoseItsSnapshot(
      decode: Decoder, start: DataExport, p: Process, restores: set<Spec>, snapshot: string)
    returns (ws: seq<World>)
    requires KopiaBackupAhead(start) && Accepted(Backup, decode, p) && Shared(restores, start)
    requires snapshot != GetBackupSummary(decode, p.stdout).value.id // the name of a volume snapshot taken first, if any
    ensures Ends(decode, ws, start, restores)
    ensures ws[|ws| - 1].de.status.snapshotID in {"", snapshot} && ws[|ws| - 1].ran == {p}
    ensures !NamesRealSnapshot(decode, ws[|ws| - 1].ran, ws[|ws| - 1].de)
  {
    hide Accepted, GetBackupSummary, Trace, Promising, KopiaBackupAhead, IsKopiaBackup, GetDriverType, Ends, WorldStep,
      TraceTo, Shared, Transferred, AwaitsTransfer, RestorePodStep;
    AcceptedSummaryHasId(decode, p);
    AheadIsKopia(start);
    var de, next;
    ws, de := ToCompleted(decode, start, restores, p, snapshot);
    var made := MadeBy(decode, p, de);
    var blank := made.(status := EMPTY_VOLUME_BACKUP_STATUS);
    var w := World(de, Having(de, made), {p}, Syncing(de, Some(Ok(COMPLETED)), []), restores);
    var w' := w.(vbs := Having(de, blank));
    RestorePodBlanks(decode, w, w', start, made);
    ws := On(decode, ws, start, restores, w, w');
    ws, next := ReadsAndRecords(decode, ws, start, restores, w', blank, snapshot);
    ws := ToTheEnd(decode, ws, start, restores, w'.(de := next, worker := Idle));
  }

  // ---------------------------------------------------------------- the exact condition

  /** Every trace of this export, with these restore exports in the cluster, records a transfer only with a snapshot that
      was really made. */
  ghost predicate AlwaysReal(decode: Decoder, start: DataExport, restores: set<Spec>) {
    forall ws: seq<World>, i: nat :: TraceAmong(decode, ws, start, restores) && i < |ws| && Transferred(ws[i].de) ==>
      NamesRealSnapshot(decode, ws[i].ran, ws[i].de)
  }

  lemma {:induction false} TraceKeepsObject(decode: Decoder, ws: seq<World>, i: nat)
    requires Trace(decode, ws) && i < |ws|
    ensures BackupObject(ws[i].de) == BackupObject(ws[0].de)
    decreases i
  {
    hide Fresh, WorldStep, BackupObject;
    if i > 0 {
      TraceKeepsObject(decode, ws, i - 1);
      assert WorldStep(decode, ws[i - 1], ws[i - 1 + 1]);
      StepKeepsObject(decode, ws[i - 1], ws[i]);
    }
  }

  /** What it takes to name the VolumeBackup of a backup. */
  predicate NamesBackupOf(spec: Spec, start: DataExport) {
    && GetDriverType(spec) == Ok(KOPIA_RESTORE)
    && spec.destination.namespace == start.spec.source.namespace && spec.source.name == start.name
  }

  lemma SharedByName(restores: set<Spec>, start: DataExport)
    requires IsKopiaBackup(start.spec)
    ensures Shared(restores, start) <==> exists spec :: spec in restores && NamesBackupOf(spec, start)
  {
    assert KOPIA_BACKUP[5] != KOPIA_RESTORE[5];
    hide GetDriverType;
    forall spec ensures Restores(spec, start) <==> NamesBackupOf(spec, start) {
    }
  }

  /** A kopia backup is safe with the restore exports around it if and only if none of them names its VolumeBackup. */
  lemma SafeExactlyWhenUnshared(decode: Decoder, start: DataExport, p: Process, restores: set<Spec>)
    requires KopiaBackupAhead(start) && Accepted(Backup, decode, p)
    ensures AlwaysReal(decode, start, restores) <==> !exists spec :: spec in restores && NamesBackupOf(spec, start)
  {
    AcceptedSummaryHasId(decode, p);
    SharedByName(restores, start) by { assert IsKopiaBackup(start.spec); }
    hide Accepted, GetBackupSummary, Trace, KopiaBackupAhead, NamesRealSnapshot, Transferred;
    if Shared(restores, start) {
      var ws := SharedBackupCanLoseItsSnapshot(decode, start, p, restores, "");
    } else {
      forall ws: seq<World>, i: nat | TraceAmong(decode, ws, start, restores) && i < |ws| && Transferred(ws[i].de)
        ensures NamesRealSnapshot(decode, ws[i].ran, ws[i].de)
      {
        UnsharedAlong(decode, ws, i);
        TraceKeepsInvariant(decode, ws, i);
      }
    }
  }

  lemma UnsharedAlong(decode: Decoder, ws: seq<World>, i: nat)
    requires Trace(decode, ws) && i < |ws| && KopiaBackupAhead(ws[0].de) && !Shared(ws[0].restores, ws[0].de)
    requires TraceAmong(decode, ws, ws[0].de, ws[0].restores)
    ensures UnsharedUpTo(ws, i)
  {
    hide Trace, KopiaBackupAhead, GetDriverType, BackupObject;
    forall m | 0 <= m < i ensures Unshared(ws[m]) {
      TraceKeepsObject(decode, ws, m);
    }
  }
}
