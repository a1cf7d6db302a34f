/** The maintenance pod: it goes through the repositories of a bucket and records the outcome of each. */
module Maintenance {
  import opened Wrappers
  import opened Naming

  datatype RepoStatus = Success | Failed(reason: string)

  // ---------------------------------------------------------------- the listing

  /** One turn of the bucket iterator: it fails, or yields a key whose repository file is looked up. */
  datatype Listed = ListingFailed | Entry(key: string, file: Lookup)

  datatype Lookup = LookupFailed | Found(exists_: bool)

  predicate IsRepository(l: Listed) {
    l.Entry? && l.file == Found(true)
  }

  function RepositoriesIn(items: seq<Listed>): seq<string> {
    if items == [] then []
    else
      var front, last := RepositoriesIn(items[..|items| - 1]), items[|items| - 1];
      if IsRepository(last) then front + [last.key] else front
  }

  /** Exactly the keys under which a repository file was found are listed. */
  lemma {:induction false} RepositoriesAreThoseFound(items: seq<Listed>, key: string)
    ensures key in RepositoriesIn(items) <==> exists l :: l in items && IsRepository(l) && l.key == key
  {
    if items != [] {
      var front, last := items[..|items| - 1], items[|items| - 1];
      RepositoriesAreThoseFound(front, key);
      assert items == front + [last];
    }
  }

  /** `getRepoList`: an entry that cannot be looked up is left out, a listing that fails ends the run. */
  method GetRepoList(items: seq<Listed>) returns (r: Result<seq<string>>)
    ensures r.Ok? <==> ListingFailed !in items
    ensures r.Ok? ==> r.value == RepositoriesIn(items)
  {
    var repoList: seq<string> := [];
    for k := 0 to |items|
      invariant ListingFailed !in items[..k]
      invariant repoList == RepositoriesIn(items[..k])
    {
      assert items[..k + 1][..k] == items[..k];
      match items[k] {
        case ListingFailed => return Err("listing failed");
        case Entry(key, file) =>
          if file.LookupFailed? {
            continue;
          }
          if file.exists_ {
            repoList := repoList + [key];
          }
      }
    }
    assert items[..|items|] == items;
    return Ok(repoList);
  }

  // ---------------------------------------------------------------- the outcomes

  /** What one repository's commands return, and whether the update that records it lands. */
  datatype RepoRun = RepoRun(
    connectErr: Option<string>,
    ownerErr: Option<string>,
    runErr: Option<string>,
    updateLands: bool,
    updateAnswered: bool)

  function OutcomeOf(r: RepoRun): RepoStatus {
    if r.connectErr.Some? then Failed(r.connectErr.value)
    else if r.ownerErr.Some? then Failed(r.ownerErr.value)
    else if r.runErr.Some? then Failed(r.runErr.value)
    else Success
  }

  /** The first of the three commands that failed did so with this error; those before it succeeded. */
  predicate FirstError(r: RepoRun, msg: string) {
    || r.connectErr == Some(msg)
    || (r.connectErr.None? && r.ownerErr == Some(msg))
    || (r.connectErr.None? && r.ownerErr.None? && r.runErr == Some(msg))
  }

  predicate Succeeded(r: RepoRun) {
    r.connectErr.None? && r.ownerErr.None? && r.runErr.None?
  }

  function StatusAfter(m: map<string, RepoStatus>, repos: seq<string>, runs: seq<RepoRun>): map<string, RepoStatus>
    requires |repos| <= |runs|
  {
    if repos == [] then m
    else
      var n := |repos| - 1;
      var before := StatusAfter(m, repos[..n], runs);
      if runs[n].updateLands then before[GetBackupPathWithRepoName(repos[n]) := OutcomeOf(runs[n])] else before
  }

  /** The `i`-th update is the last one that lands for its repository. */
  predicate LastLanding(repos: seq<string>, runs: seq<RepoRun>, i: nat)
    requires |repos| <= |runs|
  {
    && i < |repos| && runs[i].updateLands
    && forall j :: i < j < |repos| && runs[j].updateLands ==> repos[j] != repos[i]
  }

  lemma PathsDiffer(a: string, b: string)
    ensures GetBackupPathWithRepoName(a) == GetBackupPathWithRepoName(b) <==> a == b
  {
    var prefix := GENERIC_BACKUP_DIR + "/";
    assert GetBackupPathWithRepoName(a)[|prefix|..] == a && GetBackupPathWithRepoName(b)[|prefix|..] == b;
  }

  /** Each listed repository shows the outcome of its last recorded run. */
  lemma {:induction false} LastOutcomeShows(m: map<string, RepoStatus>, repos: seq<string>, runs: seq<RepoRun>, i: nat)
    requires |repos| <= |runs| && LastLanding(repos, runs, i)
    ensures var path := GetBackupPathWithRepoName(repos[i]);
            path in StatusAfter(m, repos, runs) && StatusAfter(m, repos, runs)[path] == OutcomeOf(runs[i])
  {
    hide GetBackupPathWithRepoName, OutcomeOf;
    var n := |repos| - 1;
    if i < n {
      assert LastLanding(repos[..n], runs, i);
      LastOutcomeShows(m, repos[..n], runs, i);
      PathsDiffer(repos[i], repos[n]);
    }
  }

  /** The path is that of a listed repository with a run whose update landed. */
  predicate Recorded(repos: seq<string>, runs: seq<RepoRun>, path: string)
    requires |repos| <= |runs|
  {
    exists j :: 0 <= j < |repos| && runs[j].updateLands && path == GetBackupPathWithRepoName(repos[j])
  }

  /** Everything else is as it was. */
  lemma {:induction false} OthersStay(m: map<string, RepoStatus>, repos: seq<string>, runs: seq<RepoRun>, path: string)
    requires |repos| <= |runs| && !Recorded(repos, runs, path)
    ensures path in StatusAfter(m, repos, runs) <==> path in m
    ensures path in m ==> StatusAfter(m, repos, runs)[path] == m[path]
  {
    hide GetBackupPathWithRepoName, OutcomeOf;
    if repos != [] {
      var n := |repos| - 1;
      assert !Recorded(repos[..n], runs, path);
      OthersStay(m, repos[..n], runs, path);
    }
  }

  predicate Distinct(repos: seq<string>) {
    forall i, j :: 0 <= i < j < |repos| ==> repos[i] != repos[j]
  }

  /** When every update lands and no repository is listed twice: Success for exactly the repositories all of whose
      commands succeeded, Failed with the first error for the other listed ones. */
  lemma EveryOutcomeIsRecorded(m: map<string, RepoStatus>, repos: seq<string>, runs: seq<RepoRun>, i: nat)
    requires |repos| <= |runs| && Distinct(repos) && i < |repos|
    requires forall j :: 0 <= j < |repos| ==> runs[j].updateLands
    ensures var path := GetBackupPathWithRepoName(repos[i]);
            && path in StatusAfter(m, repos, runs)
            && (StatusAfter(m, repos, runs)[path] == Success <==> Succeeded(runs[i]))
            && (forall msg :: StatusAfter(m, repos, runs)[path] == Failed(msg) <==> FirstError(runs[i], msg))
  {
    assert LastLanding(repos, runs, i);
    LastOutcomeShows(m, repos, runs, i);
    hide StatusAfter, GetBackupPathWithRepoName;
  }

  // ---------------------------------------------------------------- the pod

  class MaintenanceObject {
    var full: map<string, RepoStatus>
    var quick: map<string, RepoStatus>

    constructor ()
      ensures full == map[] && quick == map[]
    {
      full, quick := map[], map[];
    }

    /** `updateBackupLocationMaintenace`. */
    method Update(isFull: bool, status: RepoStatus, path: string, lands: bool, answered: bool) returns (failed: bool)
      modifies this
      ensures full == (if isFull && lands then old(full)[path := status] else old(full))
      ensures quick == (if !isFull && lands then old(quick)[path := status] else old(quick))
      ensures failed == !(lands && answered)
    {
      if lands {
        if isFull {
          full := full[path := status];
        } else {
          quick := quick[path := status];
        }
      }
      return !(lands && answered);
    }
  }

  class MaintenancePod {
    const status: MaintenanceObject
    var repoName: string // of the repository the commands work on

    constructor (status: MaintenanceObject)
      ensures this.status == status
    {
      this.status, repoName := status, "";
    }

    /** The loop of `runMaintenance`: an error on one repository, or in recording it, does not stop the others. */
    method RunMaintenance(isFull: bool, repoList: seq<string>, runs: seq<RepoRun>)
      requires |repoList| <= |runs|
      modifies this, status
      ensures status.full == if isFull then StatusAfter(old(status.full), repoList, runs) else old(status.full)
      ensures status.quick == if isFull then old(status.quick) else StatusAfter(old(status.quick), repoList, runs)
    {
      for k := 0 to |repoList|
        invariant status.full == if isFull then StatusAfter(old(status.full), repoList[..k], runs) else old(status.full)
        invariant status.quick == if isFull then old(status.quick) else StatusAfter(old(status.quick), repoList[..k], runs)
      {
        assert repoList[..k + 1][..k] == repoList[..k];
        var run := runs[k];
        repoName := GetBackupPathWithRepoName(repoList[k]);
        var missed;
        if run.connectErr.Some? {
          missed := status.Update(isFull, Failed(run.connectErr.value), repoName, run.updateLands, run.updateAnswered);
          continue;
        }
        if run.ownerErr.Some? {
          missed := status.Update(isFull, Failed(run.ownerErr.value), repoName, run.updateLands, run.updateAnswered);
          continue;
        }
        if run.runErr.Some? {
          missed := status.Update(isFull, Failed(run.runErr.value), repoName, run.updateLands, run.updateAnswered);
          continue;
        }
        missed := status.Update(isFull, Success, repoName, run.updateLands, run.updateAnswered);
      }
      assert repoList[..|repoList|] == repoList;
    }
  }
}
