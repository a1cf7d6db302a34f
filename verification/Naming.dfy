/** Job ids, snapshot-claim names and repository paths, and what survives a round trip through them. */
module Naming {
  import opened Wrappers
  import opened Text

  const PVC_NAME_LEN_LIMIT: nat := 247
  const GENERIC_BACKUP_DIR: string := "generic-backup"

  // ---------------------------------------------------------------- job ids

  /** "<namespace>/<name>". */
  function NamespacedName(namespace: string, name: string): string {
    namespace + "/" + name
  }

  /** `strings.SplitN(id, "/", 2)`: cuts at the first slash only. */
  function ParseJobID(id: string): Result<(string, string)> {
    match CutAtSlash(id)
    case None => Err("invalid job id")
    case Some(pair) => Ok(pair)
  }

  function CutAtSlash(id: string): Option<(string, string)> {
    if id == [] then None
    else if id[0] == '/' then Some(([], id[1..]))
    else match CutAtSlash(id[1..])
         case None => None
         case Some(pair) => Some(([id[0]] + pair.0, pair.1))
  }

  lemma {:induction false} ParseInvertsNamespacedName(namespace: string, name: string)
    requires '/' !in namespace
    ensures ParseJobID(NamespacedName(namespace, name)) == Ok((namespace, name))
  {
    if namespace != [] {
      ParseInvertsNamespacedName(namespace[1..], name);
      assert NamespacedName(namespace, name)[1..] == NamespacedName(namespace[1..], name);
      assert namespace == [namespace[0]] + namespace[1..];
    } else {
      assert NamespacedName(namespace, name)[1..] == name;
    }
  }

  /** An id parses exactly when it holds a slash, and printing the parts gives the id back. */
  lemma {:induction false} NamespacedNameInvertsParse(id: string)
    ensures ParseJobID(id).Ok? <==> '/' in id
    ensures ParseJobID(id).Ok? ==>
              var (namespace, name) := ParseJobID(id).value;
              NamespacedName(namespace, name) == id && '/' !in namespace
  {
    if id != [] {
      assert id == [id[0]] + id[1..];
      if id[0] != '/' {
        NamespacedNameInvertsParse(id[1..]);
        if ParseJobID(id).Ok? {
          var (namespace, name) := ParseJobID(id[1..]).value;
          assert ParseJobID(id).value == ([id[0]] + namespace, name);
          assert NamespacedName([id[0]] + namespace, name) == [id[0]] + NamespacedName(namespace, name);
        }
      }
    }
  }

  // ---------------------------------------------------------------- claims and repositories

  /** Names the snapshot and its temporary claim: the (cut) claim name and the first group of the uid. */
  function ToSnapshotPVCName(pvcName: string, uid: string): string {
    TruncatedName(pvcName) + "-" + Split(uid, '-')[0]
  }

  /** Two exports of one claim use one snapshot name exactly when their uids begin with the same group. */
  lemma SnapshotNamesDiffer(pvcName: string, uid1: string, uid2: string)
    ensures ToSnapshotPVCName(pvcName, uid1) == ToSnapshotPVCName(pvcName, uid2) <==> Split(uid1, '-')[0] == Split(uid2, '-')[0]
  {
    var stem := TruncatedName(pvcName) + "-";
    assert ToSnapshotPVCName(pvcName, uid1)[|stem|..] == Split(uid1, '-')[0];
    assert ToSnapshotPVCName(pvcName, uid2)[|stem|..] == Split(uid2, '-')[0];
  }

  lemma SnapshotNameIsNotEmpty(pvcName: string, uid: string)
    ensures ToSnapshotPVCName(pvcName, uid) != ""
  {
  }

  function TruncatedName(pvcName: string): string {
    if |pvcName| > PVC_NAME_LEN_LIMIT then pvcName[..PVC_NAME_LEN_LIMIT] else pvcName
  }

  /** With a snapshot stage, drops the last dash-separated group of the name it is given. */
  function GetRepoPVCName(hasSnapshotStage: bool, pvcName: string): string {
    if hasSnapshotStage then
      var groups := Split(pvcName, '-');
      Join(groups[..|groups| - 1], '-')
    else
      pvcName
  }

  function ToRepoName(pvcName: string, pvcNamespace: string): string {
    pvcNamespace + "-" + pvcName
  }

  /** The path a backup or a delete puts in front of the `--repository` argument it was started with. */
  function FrameBackupPath(kopiaRepo: string): string {
    GENERIC_BACKUP_DIR + "/" + kopiaRepo + "/"
  }

  /** The path maintenance builds for one entry of the listing below "generic-backup/". */
  function GetBackupPathWithRepoName(listedName: string): string {
    GENERIC_BACKUP_DIR + "/" + listedName
  }

  /** What a listing with delimiter "/" below `prefix` shows for an object: up to its next slash. */
  function ListingKey(prefix: string, objectKey: string): Option<string>
    requires prefix <= objectKey
  {
    match CutAtSlash(objectKey[|prefix|..])
    case None => None
    case Some(pair) => Some(pair.0 + "/")
  }

  /** Taking the repository name of a snapshot claim gives the source claim back, cut to 247 bytes. */
  lemma SnapshotNameRoundTrip(pvcName: string, uid: string)
    ensures GetRepoPVCName(true, ToSnapshotPVCName(pvcName, uid)) == TruncatedName(pvcName)
    ensures GetRepoPVCName(true, ToSnapshotPVCName(pvcName, uid)) == pvcName <==> |pvcName| <= PVC_NAME_LEN_LIMIT
  {
    var stem, token := TruncatedName(pvcName), Split(uid, '-')[0];
    SplitPartsLackSeparator(uid, '-');
    SplitAppendToken(stem, '-', token);
    assert stem + "-" + token == stem + ['-'] + token;
    var groups := Split(stem, '-');
    assert (groups + [token])[..|groups + [token]| - 1] == groups;
    JoinInvertsSplit(stem, '-');
  }

  /** A claim name that is not a snapshot claim's name never survives: its last group is lost. */
  lemma RepoNameOfPlainClaimDiffers(pvcName: string)
    requires pvcName != []
    ensures GetRepoPVCName(true, pvcName) != pvcName
    ensures |GetRepoPVCName(true, pvcName)| < |pvcName| && GetRepoPVCName(true, pvcName) <= pvcName
  {
    var groups := Split(pvcName, '-');
    JoinInvertsSplit(pvcName, '-');
    var front := groups[..|groups| - 1];
    if |groups| > 1 {
      JoinSnoc(front, groups[|groups| - 1], '-');
      assert front + [groups[|groups| - 1]] == groups;
    } else {
      assert front == [];
    }
  }

  lemma {:induction false} JoinSnoc(front: seq<string>, last: string, c: char)
    requires front != []
    ensures Join(front + [last], c) == Join(front, c) + [c] + last
  {
    if |front| == 1 {
      assert (front + [last])[1..] == [last];
    } else {
      JoinSnoc(front[1..], last, c);
      assert (front + [last])[1..] == front[1..] + [last];
    }
  }

  /** Maintenance finds a repository's own path in the listing of the objects that repository holds. */
  lemma MaintenanceResolvesRepository(kopiaRepo: string, file: string)
    requires '/' !in kopiaRepo
    ensures GENERIC_BACKUP_DIR + "/" <= FrameBackupPath(kopiaRepo) + file
    ensures var key := ListingKey(GENERIC_BACKUP_DIR + "/", FrameBackupPath(kopiaRepo) + file);
            key.Some? && GetBackupPathWithRepoName(key.value) == FrameBackupPath(kopiaRepo)
  {
    var objectKey := FrameBackupPath(kopiaRepo) + file;
    var prefix := GENERIC_BACKUP_DIR + "/";
    assert objectKey == prefix + (kopiaRepo + "/" + file);
    assert objectKey[|prefix|..] == NamespacedName(kopiaRepo, file);
    ParseInvertsNamespacedName(kopiaRepo, file);
    assert GetBackupPathWithRepoName(kopiaRepo + "/") == prefix + kopiaRepo + "/";
  }

  /** Two claims share a repository exactly when their dashed "namespace-claim" texts agree;
      within one namespace that means the same claim. */
  lemma RepositorySharing(ns1: string, pvc1: string, ns2: string, pvc2: string)
    ensures FrameBackupPath(ToRepoName(pvc1, ns1)) == FrameBackupPath(ToRepoName(pvc2, ns2))
            <==> ns1 + "-" + pvc1 == ns2 + "-" + pvc2
    ensures |ns1| == |ns2| && FrameBackupPath(ToRepoName(pvc1, ns1)) == FrameBackupPath(ToRepoName(pvc2, ns2))
            ==> ns1 == ns2 && pvc1 == pvc2
  {
    var a, b := ToRepoName(pvc1, ns1), ToRepoName(pvc2, ns2);
    var prefix := GENERIC_BACKUP_DIR + "/";
    var pa, pb := FrameBackupPath(a), FrameBackupPath(b);
    assert pa == prefix + (a + "/") && pb == prefix + (b + "/");
    assert pa[|prefix|..|pa| - 1] == a && pb[|prefix|..|pb| - 1] == b;
    if |ns1| == |ns2| && a == b {
      assert a[..|ns1|] == ns1 && b[..|ns2|] == ns2;
      assert a[|ns1| + 1..] == pvc1 && b[|ns2| + 1..] == pvc2;
    }
  }

  /** The dash is ambiguous across namespaces: two different claims, one repository. */
  lemma RepositoryCollisionExists()
    ensures FrameBackupPath(ToRepoName("data", "team-a")) == FrameBackupPath(ToRepoName("a-data", "team"))
  {
    RepositorySharing("team-a", "data", "team", "a-data");
  }
}
