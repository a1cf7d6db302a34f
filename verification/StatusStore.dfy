/** `updateStatus`: every status change of the controller goes through this read, merge, write loop. */
module StatusStore {
  import opened Wrappers
  import opened KdmpApi

  /** One `updateDataExportDetail`; an empty field asks for no change. */
  datatype Patch = Patch(
    stage: Stage,
    status: Status,
    transferID: string,
    reason: string,
    snapshotID: string,
    size: nat,
    progressPercentage: int,
    snapshotPVCName: string,
    snapshotPVCNamespace: string,
    snapshotNamespace: string,
    removeFinalizer: bool,
    volumeSnapshot: string)

  const EMPTY_PATCH := Patch(StageUnset, StatusUnset, "", "", "", 0, 0, "", "", "", false, "")

  function Overlay(asked: string, kept: string): string {
    if asked != "" then asked else kept
  }

  function MergeStatus(s: ExportStatus, p: Patch): ExportStatus {
    ExportStatus(
      stage := if p.stage != StageUnset then p.stage else s.stage,
      status := if p.status != StatusUnset then p.status else s.status,
      reason := Overlay(p.reason, s.reason),
      snapshotID := Overlay(p.snapshotID, s.snapshotID),
      snapshotNamespace := Overlay(p.snapshotNamespace, s.snapshotNamespace),
      snapshotPVCName := Overlay(p.snapshotPVCName, s.snapshotPVCName),
      snapshotPVCNamespace := Overlay(p.snapshotPVCNamespace, s.snapshotPVCNamespace),
      transferID := Overlay(p.transferID, s.transferID),
      progressPercentage := if p.progressPercentage != 0 then p.progressPercentage else s.progressPercentage,
      size := if p.size != 0 then p.size else s.size,
      volumeSnapshot := Overlay(p.volumeSnapshot, s.volumeSnapshot),
      localSnapshotRestore := s.localSnapshotRestore)
  }

  function Merge(de: DataExport, p: Patch): DataExport {
    de.(status := MergeStatus(de.status, p),
        finalizers := if p.removeFinalizer then de.finalizers - {CLEANUP_FINALIZER} else de.finalizers)
  }

  /** A text field of the status: what the patch asks for, and where it asks for nothing what was there. */
  predicate TextLands(asked: string, was: string, now: string) {
    (asked != "" ==> now == asked) && (asked == "" ==> now == was)
  }

  /** `now` is the object `was` with everything the patch asks for, and nothing else changed. */
  ghost predicate PatchLands(was: DataExport, p: Patch, now: DataExport) {
    && (p.stage != StageUnset ==> now.status.stage == p.stage) && (p.stage == StageUnset ==> now.status.stage == was.status.stage)
    && (p.status != StatusUnset ==> now.status.status == p.status)
    && (p.status == StatusUnset ==> now.status.status == was.status.status)
    && TextLands(p.reason, was.status.reason, now.status.reason)
    && TextLands(p.snapshotID, was.status.snapshotID, now.status.snapshotID)
    && TextLands(p.snapshotNamespace, was.status.snapshotNamespace, now.status.snapshotNamespace)
    && TextLands(p.snapshotPVCName, was.status.snapshotPVCName, now.status.snapshotPVCName)
    && TextLands(p.snapshotPVCNamespace, was.status.snapshotPVCNamespace, now.status.snapshotPVCNamespace)
    && TextLands(p.transferID, was.status.transferID, now.status.transferID)
    && TextLands(p.volumeSnapshot, was.status.volumeSnapshot, now.status.volumeSnapshot)
    && (p.progressPercentage != 0 ==> now.status.progressPercentage == p.progressPercentage)
    && (p.progressPercentage == 0 ==> now.status.progressPercentage == was.status.progressPercentage)
    && (p.size != 0 ==> now.status.size == p.size) && (p.size == 0 ==> now.status.size == was.status.size)
    && now.status.localSnapshotRestore == was.status.localSnapshotRestore
    && (forall f :: f in now.finalizers <==> f in was.finalizers && !(p.removeFinalizer && f == CLEANUP_FINALIZER))
    && now == was.(status := now.status, finalizers := now.finalizers)
  }

  /** The merge puts in exactly what the patch asks for; there is no other object of which that can be said. */
  lemma MergeIsThePatchedObject(was: DataExport, p: Patch, now: DataExport)
    ensures PatchLands(was, p, now) <==> now == Merge(was, p)
  {
    if PatchLands(was, p, now) {
      assert now.finalizers == Merge(was, p).finalizers;
    }
  }

  /** A change made by anyone else: users, the garbage collector, other controllers. */
  datatype Edit = Edit(
    labels: map<string, string>,
    finalizers: set<string>,
    delete: bool,
    spec: Option<Spec>,
    status: Option<ExportStatus>)

  function ApplyEdit(de: DataExport, e: Edit): DataExport {
    de.(labels := e.labels,
        finalizers := e.finalizers,
        deleting := de.deleting || e.delete,
        spec := if e.spec.Some? then e.spec.value else de.spec,
        status := if e.status.Some? then e.status.value else de.status)
  }

  /** The edit leaves alone what only the controller, or only the creator, writes. */
  predicate MetadataOnly(e: Edit) {
    e.spec.None? && e.status.None?
  }

  /** What one `Get` of the (cached, possibly stale) client answers. */
  datatype GetAnswer = GetFailed | GetNotFound | GetVersion(version: nat)

  /** What happens to one `Update` request that carries the current resource version. */
  datatype UpdateFate = NotDelivered | Acknowledged | AnswerLost

  /** One turn of the retry loop, with what others write before its read and before its write. */
  datatype Attempt = Attempt(before: seq<Edit>, get: GetAnswer, between: seq<Edit>, fate: UpdateFate)

  ghost predicate AllMetadata(edits: seq<Edit>) {
    forall e :: e in edits ==> MetadataOnly(e)
  }

  ghost predicate AttemptIsMetadata(a: Attempt) {
    AllMetadata(a.before) && AllMetadata(a.between)
  }

  ghost predicate EditsAreMetadata(attempts: seq<Attempt>) {
    forall a :: a in attempts ==> AttemptIsMetadata(a)
  }

  ghost predicate ForeignWrite(a: DataExport, b: DataExport, metadataOnly: bool) {
    Live(a) && exists e :: b == ApplyEdit(a, e) && (metadataOnly ==> MetadataOnly(e))
  }

  /** The write replaces `a` by the patch merged onto it, or onto the caller's copy of that same version. */
  ghost predicate OwnWrite(a: DataExport, b: DataExport, copy: DataExport, copyIsOfA: bool, p: Patch) {
    Live(a) && (b == Merge(a, p) || (copyIsOfA && b == Merge(copy, p)))
  }

  lemma OwnWriteIsPatched(a: DataExport, b: DataExport, copy: DataExport, copyIsOfA: bool, p: Patch)
    requires OwnWrite(a, b, copy, copyIsOfA, p)
    ensures PatchLands(a, p, b) || (copyIsOfA && PatchLands(copy, p, b))
  {
    MergeIsThePatchedObject(a, p, b);
    MergeIsThePatchedObject(copy, p, b);
    hide Merge, PatchLands;
  }

  /** `now` continues `was` with nothing but other writers' edits. */
  ghost predicate OnlyEdited(was: seq<DataExport>, now: seq<DataExport>, metadataOnly: bool) {
    && was <= now
    && forall i :: |was| <= i < |now| && i > 0 ==> ForeignWrite(now[i - 1], now[i], metadataOnly)
  }

  /** `now` continues `was` with other writers' edits and writes of one `updateStatus(de, p)` call. */
  ghost predicate OnlyEditedOrPatched(
      was: seq<DataExport>, now: seq<DataExport>, metadataOnly: bool, de: DataExport, version: nat, p: Patch) {
    && was <= now
    && forall i :: |was| <= i < |now| && i > 0 ==>
         ForeignWrite(now[i - 1], now[i], metadataOnly) || OwnWrite(now[i - 1], now[i], de, version == i - 1, p)
  }

  /** The read of the turn is answered, nobody else writes until its update, and that is answered too. */
  predicate Uncontested(a: Attempt) {
    a.get.GetVersion? && a.between == [] && a.fate == Acknowledged
  }

  /** One turn that did not put the patch in place took the history from `was` to `now`. An uncontested turn has failed only
      because its read was stale there and then, or because the object was gone, and has added nothing of its own. */
  predicate FailedTurn(was: seq<DataExport>, now: seq<DataExport>, a: Attempt) {
    && was != [] && was <= now && |now| <= |was| + |a.before| + |a.between| + 1
    && (Uncontested(a) ==> a.get.version < |now| - 1 || !Live(now[|now| - 1]))
    && (Uncontested(a) && a.before == [] ==> now == was)
  }

  /** Turn after turn failed, and together they took the history from `was` to `now`. */
  ghost predicate GaveUp(was: seq<DataExport>, now: seq<DataExport>, attempts: seq<Attempt>)
    decreases |attempts|
  {
    if attempts == [] then now == was
    else
      var last := |attempts| - 1;
      exists mid :: GaveUp(was, mid, attempts[..last]) && FailedTurn(mid, now, attempts[last])
  }

  /** Some turns failed, and the next one put the patch in place. */
  ghost predicate Landed(was: seq<DataExport>, now: seq<DataExport>, attempts: seq<Attempt>) {
    exists k: nat, mid :: k < |attempts| && GaveUp(was, mid, attempts[..k]) && LandedTurn(mid, now, attempts[k])
  }

  predicate LandedTurn(was: seq<DataExport>, now: seq<DataExport>, a: Attempt) {
    && was <= now && |was| < |now| <= |was| + |a.before| + |a.between| + 1
    && a.fate == Acknowledged && !a.get.GetFailed?
  }

  /** What the retry loop holds in memory: the copy it was called with, or a version it read or the
      caller's copy, patched. */
  ghost predicate CopyInHand(
      versions: seq<DataExport>, copy: DataExport, copyVersion: nat, de: DataExport, version: nat, p: Patch) {
    && copyVersion < |versions|
    && (|| copy == Merge(versions[copyVersion], p)
        || (copyVersion == version && (copy == de || copy == Merge(de, p))))
  }

  /** What one turn adds: others' edits before its read, others' edits before its write, and the write if it lands. */
  lemma TurnIsEditedOrPatched(
      was: seq<DataExport>, read: seq<DataExport>, found: seq<DataExport>, now: seq<DataExport>, a: Attempt,
      de: DataExport, version: nat, p: Patch)
    requires was != [] && OnlyEdited(was, read, AllMetadata(a.before)) && OnlyEdited(read, found, AllMetadata(a.between))
    requires now == found || (|now| == |found| + 1 && found <= now
                              && OwnWrite(found[|found| - 1], now[|found|], de, version == |found| - 1, p))
    ensures OnlyEditedOrPatched(was, now, AttemptIsMetadata(a), de, version, p)
  {
    hide ApplyEdit, OwnWrite;
  }

  lemma TurnsCompose(
      was: seq<DataExport>, mid: seq<DataExport>, now: seq<DataExport>, attempts: seq<Attempt>, a: Attempt,
      de: DataExport, version: nat, p: Patch)
    requires a in attempts
    requires OnlyEditedOrPatched(was, mid, EditsAreMetadata(attempts), de, version, p)
    requires OnlyEditedOrPatched(mid, now, AttemptIsMetadata(a), de, version, p)
    ensures OnlyEditedOrPatched(was, now, EditsAreMetadata(attempts), de, version, p)
  {
    hide ApplyEdit, OwnWrite, AttemptIsMetadata;
  }

  lemma PatchedCopyIsOwnWrite(found: DataExport, copy: DataExport, de: DataExport, ofBase: bool, p: Patch)
    requires Live(found) && (copy == Merge(found, p) || (ofBase && copy == Merge(de, p)))
    ensures OwnWrite(found, copy, de, ofBase, p)
  {
    hide Merge, Live;
  }

  lemma UnreadTurnFails(was: seq<DataExport>, read: seq<DataExport>, a: Attempt)
    requires was != [] && was <= read && |read| <= |was| + |a.before| && a.get.GetFailed?
    ensures FailedTurn(was, read, a)
  {
  }

  /** How a turn whose read was answered ends: `found` is the history its update met, `now` the one it left. */
  lemma TurnEnds(was: seq<DataExport>, read: seq<DataExport>, found: seq<DataExport>, now: seq<DataExport>, a: Attempt,
                 copyVersion: nat, acknowledged: bool)
    requires was != [] && was <= read && |read| <= |was| + |a.before| && (a.before == [] ==> read == was)
    requires read <= found && |found| <= |read| + |a.between| && (a.between == [] ==> found == read)
    requires !a.get.GetFailed? && (a.get.GetVersion? ==> copyVersion == Min(a.get.version, |read| - 1))
    requires var accepted := a.fate != NotDelivered && copyVersion == |found| - 1 && Live(found[|found| - 1]);
             && found <= now && |now| == (if accepted then |found| + 1 else |found|)
             && (acknowledged <==> accepted && a.fate == Acknowledged)
    ensures if acknowledged then LandedTurn(was, now, a) && |now| > |was| else FailedTurn(was, now, a)
  {
    hide Live;
  }

  lemma GaveUpAgain(was: seq<DataExport>, mid: seq<DataExport>, now: seq<DataExport>, attempts: seq<Attempt>, n: nat)
    requires n < |attempts| && GaveUp(was, mid, attempts[..n])
    ensures FailedTurn(mid, now, attempts[n]) ==> GaveUp(was, now, attempts[..n + 1])
    ensures LandedTurn(mid, now, attempts[n]) ==> Landed(was, now, attempts)
  {
    hide FailedTurn, LandedTurn;
    assert attempts[..n + 1][..n] == attempts[..n];
  }

  lemma {:induction false} GaveUpOnlyAppends(was: seq<DataExport>, now: seq<DataExport>, attempts: seq<Attempt>)
    requires GaveUp(was, now, attempts)
    ensures was <= now
    decreases |attempts|
  {
    if attempts != [] {
      var last := |attempts| - 1;
      var mid :| GaveUp(was, mid, attempts[..last]) && FailedTurn(mid, now, attempts[last]);
      GaveUpOnlyAppends(was, mid, attempts[..last]);
    }
  }

  lemma LandedGrows(was: seq<DataExport>, now: seq<DataExport>, attempts: seq<Attempt>)
    requires Landed(was, now, attempts)
    ensures was <= now && |was| < |now|
  {
    hide GaveUp;
    var k: nat, mid :| k < |attempts| && GaveUp(was, mid, attempts[..k]) && LandedTurn(mid, now, attempts[k]);
    GaveUpOnlyAppends(was, mid, attempts[..k]);
  }

  /** Before the first turn. */
  lemma TurnsStart(versions: seq<DataExport>, attempts: seq<Attempt>, de: DataExport, version: nat, p: Patch)
    requires version < |versions|
    ensures CopyInHand(versions, de, version, de, version, p)
    ensures OnlyEditedOrPatched(versions, versions, EditsAreMetadata(attempts), de, version, p)
    ensures GaveUp(versions, versions, attempts[..0])
  {
    hide Merge, EditsAreMetadata;
  }

  lemma CopyIsInHand(
      versions: seq<DataExport>, copy: DataExport, copyVersion: nat, de: DataExport, version: nat, p: Patch)
    requires copyVersion < |versions|
    requires || copy == Merge(versions[copyVersion], p) || (copyVersion == version && copy == Merge(de, p))
             || (copy == versions[copyVersion] && Merge(copy, p) == copy)
    ensures CopyInHand(versions, copy, copyVersion, de, version, p)
  {
    hide Merge;
  }

  lemma CopyStaysInHand(
      was: seq<DataExport>, now: seq<DataExport>, copy: DataExport, copyVersion: nat, de: DataExport, version: nat, p: Patch)
    requires CopyInHand(was, copy, copyVersion, de, version, p) && was <= now
    ensures CopyInHand(now, copy, copyVersion, de, version, p)
  {
    hide Merge;
  }

  /** What a turn whose read was answered has done, and what it leaves in the caller's hand. */
  lemma TurnIsOver(
      was: seq<DataExport>, read: seq<DataExport>, found: seq<DataExport>, now: seq<DataExport>, a: Attempt,
      copy: DataExport, copyVersion: nat, acknowledged: bool, de: DataExport, version: nat, p: Patch)
    requires was != [] && OnlyEdited(was, read, AllMetadata(a.before)) && OnlyEdited(read, found, AllMetadata(a.between))
    requires was <= read && |read| <= |was| + |a.before| && (a.before == [] ==> read == was)
    requires read <= found && |found| <= |read| + |a.between| && (a.between == [] ==> found == read)
    requires !a.get.GetFailed? && (a.get.GetVersion? ==> copyVersion == Min(a.get.version, |read| - 1))
    requires copyVersion < |read| && Merge(copy, p) == copy
    requires copy == Merge(read[copyVersion], p) || (copyVersion == version && copy == Merge(de, p))
    requires var accepted := a.fate != NotDelivered && copyVersion == |found| - 1 && Live(found[|found| - 1]);
             && now == (if accepted then found + [copy] else found)
             && (acknowledged <==> accepted && a.fate == Acknowledged)
    ensures OnlyEditedOrPatched(was, now, AttemptIsMetadata(a), de, version, p)
    ensures CopyInHand(now, copy, if acknowledged then copyVersion + 1 else copyVersion, de, version, p)
    ensures if acknowledged then LandedTurn(was, now, a) else FailedTurn(was, now, a)
    ensures acknowledged ==>
              && |now| > |was| && copy == now[|now| - 1] && copyVersion + 1 == |now| - 1
              && OwnWrite(now[|now| - 2], now[|now| - 1], de, version == |now| - 2, p)
  {
    hide OnlyEditedOrPatched, OnlyEdited, CopyInHand, AllMetadata, AttemptIsMetadata, Merge, Live, LandedTurn, FailedTurn,
      OwnWrite;
    if now != found {
      PatchedCopyIsOwnWrite(found[|found| - 1], copy, de, version == |found| - 1, p);
    }
    TurnEnds(was, read, found, now, a, copyVersion, acknowledged);
    TurnIsEditedOrPatched(was, read, found, now, a, de, version, p);
    CopyIsInHand(now, copy, copyVersion, de, version, p);
    if acknowledged {
      CopyIsInHand(now, copy, copyVersion + 1, de, version, p);
    }
  }

  /** The API server's versions of one DataExport, oldest first; the last is the current one and
      an index is a resource version. */
  class ExportStore {
    var versions: seq<DataExport>

    constructor (created: DataExport)
      ensures versions == [created]
    {
      versions := [created];
    }

    function Current(): DataExport
      requires versions != []
      reads this
    {
      versions[|versions| - 1]
    }

    /** Other writers' updates; none of them reaches an object that is already gone. */
    method Interfere(edits: seq<Edit>)
      requires versions != []
      modifies this
      ensures OnlyEdited(old(versions), versions, AllMetadata(edits))
      ensures old(versions) <= versions && |versions| <= |old(versions)| + |edits|
      ensures edits == [] ==> versions == old(versions)
    {
      for k := 0 to |edits|
        invariant OnlyEdited(old(versions), versions, AllMetadata(edits))
        invariant |versions| <= |old(versions)| + k
        invariant k == 0 ==> versions == old(versions)
      {
        if Live(Current()) {
          assert edits[k] in edits;
          versions := versions + [ApplyEdit(Current(), edits[k])];
        }
      }
    }

    /** `Update` of a copy read at `copyVersion`: refused unless that is still the current version. */
    method Put(copy: DataExport, copyVersion: nat, fate: UpdateFate) returns (acknowledged: bool)
      requires versions != []
      modifies this
      ensures var accepted := fate != NotDelivered && copyVersion == |old(versions)| - 1 && Live(old(Current()));
              && versions == (if accepted then old(versions) + [copy] else old(versions))
              && (acknowledged <==> accepted && fate == Acknowledged)
    {
      if fate != NotDelivered && copyVersion == |versions| - 1 && Live(Current()) {
        versions := versions + [copy];
        return fate == Acknowledged;
      }
      return false;
    }

    /** The read of one turn and the merge in memory. A missing object leaves the copy in hand as it is. */
    method ReadAndMerge(copy0: DataExport, version0: nat, data: Patch, answer: GetAnswer,
                        ghost de: DataExport, ghost version: nat)
      returns (copy: DataExport, copyVersion: nat)
      requires CopyInHand(versions, copy0, version0, de, version, data)
      ensures copyVersion < |versions|
      ensures answer.GetVersion? ==> copyVersion == Min(answer.version, |versions| - 1)
      ensures copy == Merge(versions[copyVersion], data) || (copyVersion == version && copy == Merge(de, data))
      ensures Merge(copy, data) == copy
    {
      copy, copyVersion := copy0, version0;
      if answer.GetVersion? {
        copyVersion := Min(answer.version, |versions| - 1);
        copy := versions[copyVersion];
      }
      MergeIsIdempotent(versions[copyVersion], data);
      MergeIsIdempotent(de, data);
      copy := Merge(copy, data);
    }

    /** The write of one turn, after whatever others write before it. */
    method WriteBack(copy: DataExport, copyVersion: nat, attempt: Attempt)
      returns (acknowledged: bool, ghost found: seq<DataExport>)
      requires versions != []
      modifies this
      ensures old(versions) <= found && |found| <= |old(versions)| + |attempt.between| && found <= versions
      ensures OnlyEdited(old(versions), found, AllMetadata(attempt.between))
      ensures attempt.between == [] ==> found == old(versions)
      ensures var accepted := attempt.fate != NotDelivered && copyVersion == |found| - 1 && Live(found[|found| - 1]);
              && versions == (if accepted then found + [copy] else found)
              && (acknowledged <==> accepted && attempt.fate == Acknowledged)
    {
      hide OnlyEdited, AllMetadata, Live;
      Interfere(attempt.between);
      found := versions;
      acknowledged := Put(copy, copyVersion, attempt.fate);
    }

    /** One turn of the retry loop: read, merge in memory, write back. */
    method TryUpdate(copy0: DataExport, version0: nat, data: Patch, attempt: Attempt,
                     ghost de: DataExport, ghost version: nat)
      returns (acknowledged: bool, copy: DataExport, copyVersion: nat)
      requires CopyInHand(versions, copy0, version0, de, version, data)
      modifies this
      ensures OnlyEditedOrPatched(old(versions), versions, AttemptIsMetadata(attempt), de, version, data)
      ensures CopyInHand(versions, copy, copyVersion, de, version, data)
      ensures acknowledged ==>
                && |versions| > |old(versions)|
                && copy == Current() && copyVersion == |versions| - 1 && Merge(copy, data) == copy
                && OwnWrite(versions[|versions| - 2], Current(), de, version == |versions| - 2, data)
      ensures if acknowledged then LandedTurn(old(versions), versions, attempt) else FailedTurn(old(versions), versions, attempt)
    {
      assert versions != [];
      hide OnlyEditedOrPatched, OnlyEdited, CopyInHand, AllMetadata, AttemptIsMetadata, Merge, Live, LandedTurn, FailedTurn, OwnWrite;
      copy, copyVersion := copy0, version0;
      ghost var was := versions;
      Interfere(attempt.before);
      ghost var read := versions;
      CopyStaysInHand(was, read, copy, copyVersion, de, version, data);
      if attempt.get.GetFailed? {
        UnreadTurnFails(was, read, attempt);
        TurnIsEditedOrPatched(was, read, read, read, attempt, de, version, data);
        return false, copy, copyVersion;
      }
      copy, copyVersion := ReadAndMerge(copy, copyVersion, data, attempt.get, de, version);
      ghost var found;
      acknowledged, found := WriteBack(copy, copyVersion, attempt);
      TurnIsOver(was, read, found, versions, attempt, copy, copyVersion, acknowledged, de, version, data);
      if acknowledged {
        copyVersion := copyVersion + 1;
      }
    }

    /** `updateStatus(de, data)`: `de` is the caller's in-memory copy, read at `version`.
        Returns the copy as the call leaves it. */
    method UpdateStatus(de: DataExport, version: nat, data: Patch, attempts: seq<Attempt>)
      returns (failed: bool, copy: DataExport, copyVersion: nat)
      requires version < |versions|
      modifies this
      ensures OnlyEditedOrPatched(old(versions), versions, EditsAreMetadata(attempts), de, version, data)
      ensures CopyInHand(versions, copy, copyVersion, de, version, data)
      // It fails only after every turn has failed, each for a reason of its own moment.
      ensures if failed then GaveUp(old(versions), versions, attempts) else Landed(old(versions), versions, attempts)
      // A nil return: the newest version is this call's, put directly on the one it was merged onto, which is the version
      // before it or the caller's copy of that; field by field it has what was asked for, and otherwise what was there.
      ensures !failed ==>
                && |versions| > |old(versions)|
                && (|| PatchLands(versions[|versions| - 2], data, Current())
                    || (version == |versions| - 2 && PatchLands(de, data, Current())))
      ensures !failed ==>
                && |versions| > |old(versions)|
                && copy == Current() && copyVersion == |versions| - 1 && Merge(copy, data) == copy
                && OwnWrite(versions[|versions| - 2], Current(), de, version == |versions| - 2, data)
    {
      hide *;
      TurnsStart(versions, attempts, de, version, data);
      copy, copyVersion := de, version;
      for n := 0 to |attempts|
        invariant OnlyEditedOrPatched(old(versions), versions, EditsAreMetadata(attempts), de, version, data)
        invariant CopyInHand(versions, copy, copyVersion, de, version, data)
        invariant GaveUp(old(versions), versions, attempts[..n])
      {
        ghost var before := versions;
        var acknowledged;
        acknowledged, copy, copyVersion := TryUpdate(copy, copyVersion, data, attempts[n], de, version);
        TurnsCompose(old(versions), before, versions, attempts, attempts[n], de, version, data);
        GaveUpAgain(old(versions), before, versions, attempts, n);
        if acknowledged {
          LandedGrows(old(versions), versions, attempts);
          OwnWriteIsPatched(versions[|versions| - 2], Current(), de, version == |versions| - 2, data);
          return false, copy, copyVersion;
        }
      }
      assert attempts[..|attempts|] == attempts;
      failed := true;
    }
  }

  lemma MergeIsIdempotent(de: DataExport, p: Patch)
    ensures Merge(Merge(de, p), p) == Merge(de, p)
  {
    var once := Merge(de, p);
    assert Merge(once, p).finalizers == once.finalizers;
  }

  /** The patches ask for no field of the status twice. */
  predicate DisjointPatches(p: Patch, q: Patch) {
    && (p.stage == StageUnset || q.stage == StageUnset) && (p.status == StatusUnset || q.status == StatusUnset)
    && (p.transferID == "" || q.transferID == "") && (p.reason == "" || q.reason == "")
    && (p.snapshotID == "" || q.snapshotID == "") && (p.size == 0 || q.size == 0)
    && (p.progressPercentage == 0 || q.progressPercentage == 0) && (p.snapshotPVCName == "" || q.snapshotPVCName == "")
    && (p.snapshotPVCNamespace == "" || q.snapshotPVCNamespace == "")
    && (p.snapshotNamespace == "" || q.snapshotNamespace == "") && (p.volumeSnapshot == "" || q.volumeSnapshot == "")
  }

  /** Two writers that ask for different fields both get theirs in, in whichever order their updates land: neither clears
      or overwrites what the other has put there. */
  lemma DisjointPatchesCommute(de: DataExport, p: Patch, q: Patch)
    requires DisjointPatches(p, q)
    ensures Merge(Merge(de, p), q) == Merge(Merge(de, q), p)
  {
    assert (de.finalizers - {CLEANUP_FINALIZER}) - {CLEANUP_FINALIZER} == de.finalizers - {CLEANUP_FINALIZER};
  }
}
