/** `sync` as the controller runs it: decide, then write through `updateStatus`. */
module Controller {
  import opened Wrappers
  import opened KdmpApi
  import opened StatusStore
  import opened Reconciler
  import D = Drivers

  /** One `updateStatus(copy, p)` made by a `sync` that read `in_` and heard `a`. */
  datatype Call = Call(in_: DataExport, a: Answers, p: Patch, copy: DataExport)

  predicate SameIdentity(a: DataExport, b: DataExport) {
    a.name == b.name && a.namespace == b.namespace && a.uid == b.uid
  }

  /** Before the call's first write lands, or after it: later writes repeat the same patch. */
  predicate Underway(c: Call, de: DataExport) {
    && SameIdentity(c.in_, de)
    && (LocalCopy(c.in_, c.a).spec == c.in_.spec ==> de.spec == c.in_.spec)
    && (|| SameOwned(c.in_, de)
        || de.status == MergeStatus(c.in_.status, c.p)
        || (c.copy == LocalCopy(c.in_, c.a) && de.status == MergeStatus(c.copy.status, c.p)))
  }

  /** `sync` may make this call. */
  ghost predicate Permitted(c: Call) {
    Honest(c.in_, c.a) && Decides(c.in_, c.a, c.p)
  }

  /** The copy handed over is what `sync` has made of the version it read, or differs from its version
      only where the patch writes anyway. */
  ghost predicate CopyFits(c: Call, base: DataExport) {
    (c.copy == LocalCopy(c.in_, c.a) && base == c.in_) || Merge(c.copy, c.p) == Merge(base, c.p)
  }

  lemma MergeStatusIsIdempotent(s: ExportStatus, p: Patch)
    ensures MergeStatus(MergeStatus(s, p), p) == MergeStatus(s, p)
  {
  }

  lemma LocalCopyKeepsIdentity(de: DataExport, a: Answers)
    ensures SameIdentity(de, LocalCopy(de, a))
    ensures LocalCopy(de, a).finalizers == de.finalizers && LocalCopy(de, a).deleting == de.deleting
    ensures LocalCopy(de, a).spec == de.spec || (de.status.stage == StageUnset && de.spec.exportType == "")
  {
    hide SyncPlan;
  }

  lemma FirstWriteIsStep(c: Call, prev: DataExport, next: DataExport, ofBase: bool)
    requires Permitted(c) && SameOwned(c.in_, prev) && OwnWrite(prev, next, c.copy, ofBase, c.p)
    requires ofBase ==> CopyFits(c, prev)
    ensures StepOf(prev, next, c.a, c.in_.deleting) && Underway(c, next)
  {
    LocalCopyKeepsIdentity(c.in_, c.a);
    hide SyncPlan, LocalCopy, Decides;
    assert SyncWrite(c.in_, prev, next, c.a, c.p);
  }

  lemma RepeatedWriteIsStep(c: Call, prev: DataExport, next: DataExport, ofBase: bool)
    requires Underway(c, prev) && !SameOwned(c.in_, prev) && OwnWrite(prev, next, c.copy, ofBase, c.p)
    requires ofBase ==> CopyFits(c, prev)
    ensures StepOf(prev, next, c.a, c.in_.deleting) && Underway(c, next)
  {
    hide SyncPlan, LocalCopy;
    assert next == Merge(prev, c.p);
    MergeStatusIsIdempotent(c.in_.status, c.p);
    MergeStatusIsIdempotent(c.copy.status, c.p);
    assert next == ApplyEdit(prev, Edit(next.labels, next.finalizers, false, None, None));
  }

  lemma VersionIsStep(c: Call, prev: DataExport, next: DataExport, ofBase: bool)
    requires Permitted(c) && Underway(c, prev)
    requires ForeignWrite(prev, next, true) || OwnWrite(prev, next, c.copy, ofBase, c.p)
    requires ofBase ==> CopyFits(c, prev)
    ensures StepOf(prev, next, c.a, c.in_.deleting) && Underway(c, next)
  {
    hide LocalCopy, Decides, SyncPlan;
    if ForeignWrite(prev, next, true) {
    } else if SameOwned(c.in_, prev) {
      FirstWriteIsStep(c, prev, next, ofBase);
    } else {
      RepeatedWriteIsStep(c, prev, next, ofBase);
    }
  }

  /** Everything an `updateStatus` call appends is a step of `sync`. */
  lemma {:induction false} CallIsSteps(was: seq<DataExport>, now: seq<DataExport>, c: Call, version: nat)
    requires version < |was|
    requires OnlyEditedOrPatched(was, now, true, c.copy, version, c.p)
    requires Permitted(c) && Underway(c, was[|was| - 1]) && CopyFits(c, was[version])
    ensures StepsOf(was, now, c.a, c.in_.deleting) && Underway(c, now[|now| - 1])
    decreases |now|
  {
    hide Permitted, CopyFits, StepOf, Underway, OwnWrite, ForeignWrite;
    if |now| > |was| {
      var shorter := now[..|now| - 1];
      CallIsSteps(was, shorter, c, version);
      VersionIsStep(c, now[|now| - 2], now[|now| - 1], version == |now| - 2);
    }
  }

  /** The copy is a version of the object but for the progress word of its status. */
  predicate CopyUpToStatus(copy: DataExport, base: DataExport) {
    copy == base.(status := base.status.(status := copy.status.status))
  }

  lemma AwaitMeansTransferring(de: DataExport, a: Answers)
    requires SyncPlan(de, a).AwaitVolumeBackup?
    ensures de.status.stage == StageTransferInProgress && !de.deleting && Resolvable(de.spec)
    ensures de.status.status != StatusSuccessful && de.status.status != StatusFailed
  {
    hide Message, GetDriverType;
  }

  lemma TransferPlanIgnoresWaitingStatus(de: DataExport, a: Answers, now: DataExport, driver: string)
    requires de.status.status != StatusSuccessful && de.status.status != StatusFailed
    requires now == de.(status := de.status.(status := StatusInProgress))
    ensures PlanTransferInProgress(now, a, driver) == PlanTransferInProgress(de, a, driver)
  {
  }

  lemma LocalCopyInTransfer(de: DataExport, a: Answers)
    requires de.status.stage == StageTransferInProgress
    ensures LocalCopy(de, a) == de
  {
    hide SyncPlan;
  }

  /** While the transfer runs, the handler's decision does not depend on which waiting status was last recorded. */
  lemma WaitingKeepsPlan(in_: DataExport, a: Answers, now: DataExport)
    requires SyncPlan(in_, a).AwaitVolumeBackup?
    requires now == in_.(status := in_.status.(status := StatusInProgress))
    ensures SyncPlan(now, a) == SyncPlan(in_, a)
  {
    hide Message, PlanInitial, PlanSnapshotScheduled, PlanSnapshotInProgress, PlanSnapshotRestore,
      PlanSnapshotRestoreInProgress, PlanLocalSnapshotRestore, PlanLocalSnapshotRestoreInProgress, PlanTransferScheduled,
      PlanTransferInProgress, GetDriverType;
    AwaitMeansTransferring(in_, a);
    TransferPlanIgnoresWaitingStatus(in_, a, now, GetDriverType(in_.spec).value);
    assert SyncPlan(now, a) == PlanTransferInProgress(now, a, GetDriverType(now.spec).value);
    assert SyncPlan(in_, a) == PlanTransferInProgress(in_, a, GetDriverType(in_.spec).value);
  }

  /** Between two writes of one waiting `sync`: what it read, what is stored now, and the copy it holds. */
  ghost predicate Waiting(
      in_: DataExport, now: DataExport, a: Answers, versions: seq<DataExport>, copy: DataExport, version: nat) {
    && SyncPlan(in_, a).AwaitVolumeBackup? && Honest(in_, a)
    && (now == in_ || now == in_.(status := in_.status.(status := StatusInProgress)))
    && version < |versions|
    && SameOwned(now, versions[|versions| - 1])
    && CopyUpToStatus(copy, versions[version])
  }

  lemma WaitingPermits(
      in_: DataExport, now: DataExport, a: Answers, versions: seq<DataExport>, copy: DataExport, version: nat, p: Patch)
    requires Waiting(in_, now, a, versions, copy, version)
    requires Decides(in_, a, p) && p.status != StatusUnset
    ensures now.deleting == in_.deleting
    ensures versions != [] && version < |versions| && SameOwned(now, versions[|versions| - 1])
    ensures Permitted(Call(now, a, p, copy)) && CopyFits(Call(now, a, p, copy), versions[version])
  {
    if now != in_ {
      WaitingKeepsPlan(in_, a, now);
    }
    hide SyncPlan, LocalCopy;
  }

  lemma WaitingMayBeRecorded(
      in_: DataExport, now: DataExport, a: Answers, versions: seq<DataExport>, copy: DataExport, version: nat)
    requires Waiting(in_, now, a, versions, copy, version)
    ensures now.deleting == in_.deleting
    ensures versions != [] && version < |versions| && SameOwned(now, versions[|versions| - 1])
    ensures Permitted(Call(now, a, IN_PROGRESS, copy)) && CopyFits(Call(now, a, IN_PROGRESS, copy), versions[version])
  {
    hide LocalCopy;
    WaitingPermits(in_, now, a, versions, copy, version, IN_PROGRESS);
  }

  lemma StillWaiting(
      in_: DataExport, now: DataExport, a: Answers, was: seq<DataExport>, copy: DataExport, version: nat,
      versions: seq<DataExport>, copy': DataExport, version': nat)
    returns (now': DataExport)
    requires Waiting(in_, now, a, was, copy, version)
    requires was <= versions && Underway(Call(now, a, IN_PROGRESS, copy), versions[|versions| - 1])
    requires CopyInHand(versions, copy', version', copy, version, IN_PROGRESS)
    ensures Waiting(in_, now', a, versions, copy', version')
  {
    if now != in_ {
      WaitingKeepsPlan(in_, a, now);
    }
    AwaitMeansTransferring(now, a);
    LocalCopyInTransfer(now, a);
    OnlyTheWordChanges(now);
    OnlyTheWordChanges(copy);
    OnlyTheWordChanges(versions[version']);
    hide SyncPlan, Honest, LocalCopy, Merge, MergeStatus;
    var current := versions[|versions| - 1];
    assert versions[version] == was[version];
    now' := if SameOwned(in_, current) then in_ else in_.(status := in_.status.(status := StatusInProgress));
  }

  lemma OnlyTheWordChanges(de: DataExport)
    ensures MergeStatus(de.status, IN_PROGRESS) == de.status.(status := StatusInProgress)
    ensures Merge(de, IN_PROGRESS) == de.(status := de.status.(status := StatusInProgress))
  {
  }

  /** The turns of the `k`-th status update of one `sync`. */
  function TurnsOf(updates: seq<seq<Attempt>>, k: nat): seq<Attempt> {
    if k < |updates| then updates[k] else []
  }

  ghost predicate EndedUpdate(was: seq<DataExport>, now: seq<DataExport>, turns: seq<Attempt>) {
    GaveUp(was, now, turns) || Landed(was, now, turns)
  }

  /** The first `k` status updates of one `sync`, failed or not, took the history from `was` to `now`. */
  ghost predicate Updated(was: seq<DataExport>, now: seq<DataExport>, updates: seq<seq<Attempt>>, k: nat)
    decreases k
  {
    if k == 0 then now == was
    else
      var last := k - 1;
      exists mid :: Updated(was, mid, updates, last) && EndedUpdate(mid, now, TurnsOf(updates, last))
  }

  /** The status update after the first `k` ones failed, where they had left the history. */
  ghost predicate UpdateCut(was: seq<DataExport>, now: seq<DataExport>, updates: seq<seq<Attempt>>, k: nat) {
    exists mid, end :: Updated(was, mid, updates, k) && GaveUp(mid, end, TurnsOf(updates, k)) && end <= now
  }

  lemma NothingUpdated(was: seq<DataExport>, updates: seq<seq<Attempt>>)
    ensures Updated(was, was, updates, 0)
  {
  }

  lemma NextUpdate(was: seq<DataExport>, mid: seq<DataExport>, now: seq<DataExport>, updates: seq<seq<Attempt>>, k: nat)
    requires Updated(was, mid, updates, k) && EndedUpdate(mid, now, TurnsOf(updates, k))
    ensures Updated(was, now, updates, k + 1)
    ensures GaveUp(mid, now, TurnsOf(updates, k)) ==> UpdateCut(was, now, updates, k)
  {
    hide GaveUp, Landed, TurnsOf;
  }

  /** Reads fail until, at the `k`-th, the object is found, and the verdict is Successful with it; or it is not there, or
      there is no more time, or marking the export as running has failed after the read before, and the verdict is Failed. */
  ghost predicate VerdictAt(name: string, progressPercents: real, heard: seq<D.VolumeBackupAnswer>, verdict: Patch,
                            updates: seq<seq<Attempt>>, was: seq<DataExport>, now: seq<DataExport>, k: nat) {
    && k <= |heard| && (forall j :: 0 <= j < k ==> heard[j].VbError?)
    && (|| (k < |heard| && heard[k].VbFound? && verdict == Completed(heard[k].vb, progressPercents))
        || (&& (exists msg :: verdict == VolumeBackupUnread(name, msg))
            && (k == |heard| || heard[k].VbNotFound? || (k > 0 && UpdateCut(was, now, updates, k - 1)))))
  }

  ghost predicate VerdictOf(name: string, progressPercents: real, heard: seq<D.VolumeBackupAnswer>, verdict: Patch,
                            updates: seq<seq<Attempt>>, was: seq<DataExport>, now: seq<DataExport>) {
    exists k: nat :: VerdictAt(name, progressPercents, heard, verdict, updates, was, now, k)
  }

  lemma VerdictReached(name: string, progressPercents: real, heard: seq<D.VolumeBackupAnswer>, verdict: Patch,
                       updates: seq<seq<Attempt>>, was: seq<DataExport>, now: seq<DataExport>, k: nat)
    requires VerdictAt(name, progressPercents, heard, verdict, updates, was, now, k)
    ensures VerdictOf(name, progressPercents, heard, verdict, updates, was, now)
  {
    hide VerdictAt;
  }

  /** A verdict stays justified while the history grows. */
  lemma VerdictOutlasts(name: string, progressPercents: real, heard: seq<D.VolumeBackupAnswer>, verdict: Patch,
                        updates: seq<seq<Attempt>>, was: seq<DataExport>, mid: seq<DataExport>, now: seq<DataExport>)
    requires VerdictOf(name, progressPercents, heard, verdict, updates, was, mid) && mid <= now
    ensures VerdictOf(name, progressPercents, heard, verdict, updates, was, now)
  {
    hide GaveUp, Landed, Updated, Completed, VolumeBackupUnread;
    var k: nat :| VerdictAt(name, progressPercents, heard, verdict, updates, was, mid, k);
    if k > 0 && UpdateCut(was, mid, updates, k - 1) {
      assert UpdateCut(was, now, updates, k - 1);
    }
    assert VerdictAt(name, progressPercents, heard, verdict, updates, was, now, k);
  }

  lemma VerdictIsDecided(
      in_: DataExport, a: Answers, verdict: Patch, updates: seq<seq<Attempt>>, was: seq<DataExport>, now: seq<DataExport>)
    requires SyncPlan(in_, a).AwaitVolumeBackup?
    requires VerdictOf(SyncPlan(in_, a).name, SyncPlan(in_, a).progressPercents, a.vbReads, verdict, updates, was, now)
    ensures Decides(in_, a, verdict) && verdict.status != StatusUnset
  {
    hide SyncPlan, UpdateCut;
  }

  lemma PlannedWriteIsPermitted(in_: DataExport, a: Answers)
    requires SyncPlan(in_, a).Write? && Honest(in_, a)
    ensures Permitted(Call(in_, a, SyncPlan(in_, a).patch, LocalCopy(in_, a)))
    ensures CopyFits(Call(in_, a, SyncPlan(in_, a).patch, LocalCopy(in_, a)), in_)
  {
    hide LocalCopy, Merge;
  }

  lemma WaitingStarts(in_: DataExport, a: Answers, versions: seq<DataExport>, version: nat)
    requires version < |versions| && versions[version] == in_ && SameOwned(in_, versions[|versions| - 1])
    requires SyncPlan(in_, a).AwaitVolumeBackup? && Honest(in_, a)
    ensures Waiting(in_, in_, a, versions, in_, version)
  {
    hide SyncPlan;
  }

  /** What a `sync` of `in_` returns, and the history it leaves: the decided patch in place, or the verdict on the
      VolumeBackup, or an error because all turns of one of its status updates have failed. */
  ghost predicate SyncOutcome(
      in_: DataExport, a: Answers, updates: seq<seq<Attempt>>, was: seq<DataExport>, now: seq<DataExport>, requeue: bool, err: bool) {
    match SyncPlan(in_, a)
    case Stop(again, failed) => now == was && requeue == again && err == failed
    case Write(again, patch) =>
      && requeue == again
      && (!err ==> |now| > |was| && Merge(now[|now| - 1], patch) == now[|now| - 1])
      && (err ==> GaveUp(was, now, TurnsOf(updates, 0)))
    case AwaitVolumeBackup(_, name, progressPercents) =>
      && !requeue
      && (!err ==> now != [] && exists verdict ::
                     && VerdictOf(name, progressPercents, a.vbReads, verdict, updates, was, now)
                     && Merge(now[|now| - 1], verdict) == now[|now| - 1])
      && (err ==> exists k: nat :: UpdateCut(was, now, updates, k))
  }

  class Controller {
    const store: ExportStore

    constructor (store: ExportStore)
      ensures this.store == store
    {
      this.store := store;
    }

    /** `updateStatus(copy, p)` on behalf of a `sync` that read `in_` and heard `a`. */
    method Record(ghost in_: DataExport, ghost a: Answers, p: Patch, copy: DataExport, version: nat, attempts: seq<Attempt>)
      returns (failed: bool, copy': DataExport, version': nat)
      requires version < |store.versions| && EditsAreMetadata(attempts)
      requires Permitted(Call(in_, a, p, copy)) && SameOwned(in_, store.Current())
      requires CopyFits(Call(in_, a, p, copy), store.versions[version])
      modifies store
      ensures StepsOf(old(store.versions), store.versions, a, in_.deleting) && store.versions != []
      ensures Underway(Call(in_, a, p, copy), store.Current())
      ensures CopyInHand(store.versions, copy', version', copy, version, p)
      ensures old(store.versions) <= store.versions
      ensures !failed ==> |store.versions| > |old(store.versions)| && Merge(store.Current(), p) == store.Current()
      ensures if failed then GaveUp(old(store.versions), store.versions, attempts)
              else Landed(old(store.versions), store.versions, attempts)
    {
      hide GaveUp, Landed, Permitted, CopyFits, StepOf, ForeignWrite, OwnWrite, CopyInHand;
      ghost var was := store.versions;
      failed, copy', version' := store.UpdateStatus(copy, version, p, attempts);
      CallIsSteps(was, store.versions, Call(in_, a, p, copy), version);
    }

    /** Marks the export as running after a read that failed. */
    method RecordWaiting(ghost in_: DataExport, ghost now: DataExport, ghost a: Answers,
                         copy: DataExport, version: nat, attempts: seq<Attempt>)
      returns (failed: bool, copy': DataExport, version': nat, ghost now': DataExport)
      requires Waiting(in_, now, a, store.versions, copy, version) && EditsAreMetadata(attempts)
      modifies store
      ensures StepsOf(old(store.versions), store.versions, a, in_.deleting)
      ensures Waiting(in_, now', a, store.versions, copy', version')
      ensures old(store.versions) <= store.versions
      ensures if failed then GaveUp(old(store.versions), store.versions, attempts)
              else Landed(old(store.versions), store.versions, attempts)
    {
      hide GaveUp, Landed, Waiting, Underway, Permitted, CopyFits, CopyInHand, StepOf, Decides;
      ghost var was := store.versions;
      WaitingMayBeRecorded(in_, now, a, was, copy, version);
      failed, copy', version' := Record(now, a, IN_PROGRESS, copy, version, attempts);
      now' := StillWaiting(in_, now, a, was, copy, version, store.versions, copy', version');
    }

    method RecordVerdict(ghost in_: DataExport, ghost now: DataExport, ghost a: Answers, verdict: Patch,
                         copy: DataExport, version: nat, attempts: seq<Attempt>)
      returns (failed: bool)
      requires Waiting(in_, now, a, store.versions, copy, version) && EditsAreMetadata(attempts)
      requires Decides(in_, a, verdict) && verdict.status != StatusUnset
      modifies store
      ensures StepsOf(old(store.versions), store.versions, a, in_.deleting) && store.versions != []
      ensures !failed ==> Merge(store.Current(), verdict) == store.Current()
      ensures if failed then GaveUp(old(store.versions), store.versions, attempts)
              else Landed(old(store.versions), store.versions, attempts)
    {
      hide GaveUp, Landed, Waiting, Underway, Permitted, CopyFits, CopyInHand, StepOf, Decides;
      WaitingPermits(in_, now, a, store.versions, copy, version, verdict);
      var missed, _, _ := Record(now, a, verdict, copy, version, attempts);
      failed := missed;
    }

    /** Reads the VolumeBackup until an answer settles the verdict, marking the export as running after
        each failed read. */
    method AwaitVolumeBackup(in_: DataExport, version: nat, ghost a: Answers, name: string, progressPercents: real,
                             heard: seq<D.VolumeBackupAnswer>, updates: seq<seq<Attempt>>)
      returns (verdict: Patch, copy: DataExport, copyVersion: nat, calls: nat, ghost now: DataExport)
      requires Waiting(in_, in_, a, store.versions, in_, version)
      requires forall u :: u in updates ==> EditsAreMetadata(u)
      modifies store
      ensures StepsOf(old(store.versions), store.versions, a, in_.deleting)
      ensures Waiting(in_, now, a, store.versions, copy, copyVersion)
      ensures VerdictOf(name, progressPercents, heard, verdict, updates, old(store.versions), store.versions)
      ensures Updated(old(store.versions), store.versions, updates, calls)
    {
      hide GaveUp, Landed, Waiting, StepOf, Completed, VolumeBackupUnread, Updated, UpdateCut, VerdictOf;
      copy, copyVersion, now, calls := in_, version, in_, 0;
      ghost var was := store.versions;
      NothingUpdated(was, updates);
      verdict := VolumeBackupUnread(name, "");
      for k := 0 to |heard|
        invariant StepsOf(old(store.versions), store.versions, a, in_.deleting)
        invariant Waiting(in_, now, a, store.versions, copy, copyVersion)
        invariant forall j :: 0 <= j < k ==> heard[j].VbError?
        invariant calls == k && Updated(was, store.versions, updates, k)
        invariant exists msg :: verdict == VolumeBackupUnread(name, msg)
      {
        match heard[k]
        case VbNotFound =>
          verdict := VolumeBackupUnread(name, "not found");
          VerdictReached(name, progressPercents, heard, verdict, updates, was, store.versions, k);
          return;
        case VbFound(vb) =>
          verdict := Completed(vb, progressPercents);
          VerdictReached(name, progressPercents, heard, verdict, updates, was, store.versions, k);
          return;
        case VbError(msg) =>
          verdict := VolumeBackupUnread(name, msg);
          var missed;
          ghost var before := store.versions;
          missed, copy, copyVersion, now := RecordWaiting(in_, now, a, copy, copyVersion, TurnsOf(updates, calls));
          calls := calls + 1;
          NextUpdate(was, before, store.versions, updates, k);
          if missed {
            VerdictReached(name, progressPercents, heard, verdict, updates, was, store.versions, k + 1);
            return;
          }
      }
      VerdictReached(name, progressPercents, heard, verdict, updates, was, store.versions, |heard|);
    }

    /** The end of a `sync` whose driver said Completed: wait for the VolumeBackup, then record the verdict. */
    method RecordAwaited(in_: DataExport, version: nat, a: Answers, name: string, progressPercents: real,
                         updates: seq<seq<Attempt>>)
      returns (err: bool)
      requires version < |store.versions| && store.versions[version] == in_ && SameOwned(in_, store.Current())
      requires Honest(in_, a) && forall u :: u in updates ==> EditsAreMetadata(u)
      requires SyncPlan(in_, a).AwaitVolumeBackup?
      requires name == SyncPlan(in_, a).name && progressPercents == SyncPlan(in_, a).progressPercents
      modifies store
      ensures StepsOf(old(store.versions), store.versions, a, in_.deleting) && store.versions != []
      ensures !err ==> exists verdict ::
                         && VerdictOf(name, progressPercents, a.vbReads, verdict, updates, old(store.versions), store.versions)
                         && Merge(store.Current(), verdict) == store.Current()
      ensures err ==> exists k: nat :: UpdateCut(old(store.versions), store.versions, updates, k)
    {
      hide SyncPlan, LocalCopy, StepOf, Permitted, CopyFits, Waiting, VerdictOf, Decides, CopyInHand, Underway, Merge, GaveUp, Landed,
        Updated, Honest;
      ghost var was := store.versions;
      WaitingStarts(in_, a, store.versions, version);
      var verdict, copy, copyVersion, calls, now := AwaitVolumeBackup(in_, version, a, name, progressPercents, a.vbReads, updates);
      VerdictIsDecided(in_, a, verdict, updates, was, store.versions);
      ghost var before := store.versions;
      err := RecordVerdict(in_, now, a, verdict, copy, copyVersion, TurnsOf(updates, calls));
      VerdictOutlasts(name, progressPercents, a.vbReads, verdict, updates, was, before, store.versions);
      if err {
        assert GaveUp(before, store.versions, TurnsOf(updates, calls));
        assert UpdateCut(was, store.versions, updates, calls);
      }
    }

    /** `sync(in_)`, where `in_` is what the API server held at `version`, with the answers it hears and what
        happens to each of its status updates. */
    method Sync(in_: DataExport, version: nat, a: Answers, updates: seq<seq<Attempt>>) returns (requeue: bool, err: bool)
      requires version < |store.versions| && store.versions[version] == in_ && SameOwned(in_, store.Current())
      requires Honest(in_, a) && forall u :: u in updates ==> EditsAreMetadata(u)
      modifies store
      ensures StepsOf(old(store.versions), store.versions, a, in_.deleting) && store.versions != []
      ensures SyncOutcome(in_, a, updates, old(store.versions), store.versions, requeue, err)
    {
      hide LocalCopy, StepOf, Permitted, CopyFits, Waiting, VerdictOf, Decides, CopyInHand, Underway, Merge, GaveUp, UpdateCut, Landed;
      var plan := SyncPlan(in_, a);
      hide SyncPlan;
      match plan
      case Stop(r, e) =>
        return r, e;
      case Write(r, patch) =>
        PlannedWriteIsPermitted(in_, a);
        var failed, _, _ := Record(in_, a, patch, LocalCopy(in_, a), version, TurnsOf(updates, 0));
        return r, failed;
      case AwaitVolumeBackup(_, name, progressPercents) =>
        err := RecordAwaited(in_, version, a, name, progressPercents, updates);
        return false, err;
    }

    /** `Reconcile`: an object without the finalizer gets it first, and nothing else in that call. */
    method Reconcile(in_: DataExport, version: nat, fate: UpdateFate, a: Answers, updates: seq<seq<Attempt>>)
      returns (requeue: bool, err: bool)
      requires version < |store.versions| && store.versions[version] == in_ && SameOwned(in_, store.Current())
      requires Honest(in_, a) && forall u :: u in updates ==> EditsAreMetadata(u)
      modifies store
      ensures StepsOf(old(store.versions), store.versions, a, in_.deleting) && store.versions != []
      ensures CLEANUP_FINALIZER !in in_.finalizers ==>
                var marked := in_.(finalizers := in_.finalizers + {CLEANUP_FINALIZER});
                && requeue && (err || store.versions == old(store.versions) + [marked])
                && (store.versions == old(store.versions) || store.versions == old(store.versions) + [marked])
      ensures CLEANUP_FINALIZER !in in_.finalizers ==>
                forall i :: |old(store.versions)| <= i < |store.versions| ==> store.versions[i].status == in_.status
      ensures CLEANUP_FINALIZER in in_.finalizers ==>
                SyncOutcome(in_, a, updates, old(store.versions), store.versions, requeue, err)
    {
      hide LocalCopy, SyncPlan, Honest, Decides, SyncOutcome;
      if CLEANUP_FINALIZER !in in_.finalizers {
        var marked := in_.(finalizers := in_.finalizers + {CLEANUP_FINALIZER});
        var acknowledged := store.Put(marked, version, fate);
        assert marked == ApplyEdit(in_, Edit(in_.labels, marked.finalizers, false, None, None));
        return true, !acknowledged;
      }
      hide StepOf;
      requeue, err := Sync(in_, version, a, updates);
    }
  }
}
