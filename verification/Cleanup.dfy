/** `cleanUp` of a kopia backup that has neither a snapshot stage nor a local restore stage, retried over failures. */
module Cleanup {
  import opened Wrappers
  import opened Naming

  /** What a transfer leaves in the source namespace; all but the certificate secret are named after the export. */
  datatype Resource =
    | VolumeBackupObject
    | CredentialSecret
    | CertificateSecret
    | Role
    | RoleBinding
    | ServiceAccount
    | TransferJob

  const ALL: set<Resource> :=
    {VolumeBackupObject, CredentialSecret, CertificateSecret, Role, RoleBinding, ServiceAccount, TransferJob}

  lemma EveryResource(r: Resource)
    ensures r in ALL
  {
    match r
    case VolumeBackupObject | CredentialSecret | CertificateSecret => assert r in ALL;
    case Role | RoleBinding | ServiceAccount | TransferJob => assert r in ALL;
  }

  /** What a restarting pod of the job needs to be able to create its VolumeBackup. */
  const POD_NEEDS: set<Resource> := {Role, RoleBinding, ServiceAccount, TransferJob}

  /** One request to the API server, and whether a pod of the job starts just before it. */
  datatype Call = Call(podStarts: bool, answer: Answer)

  datatype Answer = Answered | Failed(applied: bool)

  datatype NodeState = NoNode | NodeReady | NodeNotReady

  /** One attempt: every request it may make. */
  datatype Attempt = Attempt(
    certificate: Call,
    volumeBackup: Call,
    credentials: Call,
    role: Call,
    roleBinding: Call,
    serviceAccount: Call,
    getJob: Call,
    node: NodeState,
    job: Call,
    pods: Call)

  predicate PodMayCreate(present: set<Resource>) {
    POD_NEEDS <= present
  }

  /** A pod comes back after its VolumeBackup has been deleted and before its role is. */
  predicate PodReturns(a: Attempt, present: set<Resource>) {
    (a.credentials.podStarts || a.role.podStarts) && PodMayCreate(present)
  }

  /** `DeleteJob` fails exactly when its id does not parse or one of its requests fails. */
  predicate DeleteFails(id: string, a: Attempt, present: set<Resource>) {
    || '/' !in id
    || a.volumeBackup.answer.Failed? || a.credentials.answer.Failed?
    || a.role.answer.Failed? || a.roleBinding.answer.Failed? || a.serviceAccount.answer.Failed?
    || a.getJob.answer.Failed? || a.job.answer.Failed?
    || (TransferJob in present && a.node.NodeNotReady? && a.pods.answer.Failed?)
  }

  /** The namespace as a deletion's request finds it. */
  function AtRequest(call: Call, present: set<Resource>): set<Resource> {
    if call.podStarts && PodMayCreate(present) then present + {VolumeBackupObject} else present
  }

  /** One `cleanUp` attempt: exactly when it fails, and what a nil return has left of the namespace. */
  predicate Attempted(transferID: string, a: Attempt, was: set<Resource>, now: set<Resource>, failed: bool) {
    && now <= was + {VolumeBackupObject}
    && (failed <==> a.certificate.answer.Failed? || (transferID != "" && DeleteFails(transferID, a, was)))
    && (!failed && transferID != "" ==> now == if PodReturns(a, was) then {VolumeBackupObject} else {})
    && (!failed && transferID == "" ==> now == AtRequest(a.certificate, was) - {CertificateSecret})
    && ('/' !in transferID ==> now - {CertificateSecret} == AtRequest(a.certificate, was) - {CertificateSecret})
  }

  /** Attempt after attempt, from the first of these states to the last. */
  predicate StageRun(transferID: string, attempts: seq<Attempt>, outcomes: seq<bool>, states: seq<set<Resource>>) {
    && |outcomes| <= |attempts| && |states| == |outcomes| + 1
    && forall k :: 0 <= k < |outcomes| ==> Attempted(transferID, attempts[k], states[k], states[k + 1], !outcomes[k])
  }

  class Namespace {
    var present: set<Resource>

    constructor (present: set<Resource>)
      ensures this.present == present
    {
      this.present := present;
    }

    /** A deletion that is answered, also with "not found", leaves the resource gone. */
    method Delete(r: Resource, call: Call) returns (failed: bool)
      modifies this
      ensures failed <==> call.answer.Failed?
      ensures var before := AtRequest(call, old(present));
              present == (if call.answer == Failed(false) then before else before - {r})
    {
      PodStarts(call.podStarts);
      if call.answer != Failed(false) {
        present := present - {r};
      }
      return call.answer.Failed?;
    }

    method PodStarts(starts: bool)
      modifies this
      ensures present == if starts && PodMayCreate(old(present)) then old(present) + {VolumeBackupObject} else old(present)
    {
      if starts && PodMayCreate(present) {
        present := present + {VolumeBackupObject};
      }
    }

    /** `CleanServiceAccount`: the first deletion that fails leaves the later ones undone. */
    method CleanServiceAccount(a: Attempt) returns (failed: bool)
      modifies this
      ensures old(present) - {Role, RoleBinding, ServiceAccount} <= present <= old(present) + {VolumeBackupObject}
      ensures failed <==> a.role.answer.Failed? || a.roleBinding.answer.Failed? || a.serviceAccount.answer.Failed?
      ensures !failed ==>
                present == AtRequest(a.role, old(present)) - {Role, RoleBinding, ServiceAccount}
      ensures a.role.answer.Failed? ==>
                present * {RoleBinding, ServiceAccount} == old(present) * {RoleBinding, ServiceAccount}
      ensures a.role.answer.Answered? && a.roleBinding.answer.Failed? ==>
                Role !in present && (ServiceAccount in present <==> ServiceAccount in old(present))
      ensures a.role.answer.Answered? && a.roleBinding.answer.Answered? ==> Role !in present && RoleBinding !in present
    {
      failed := Delete(Role, a.role);
      if failed {
        return;
      }
      failed := Delete(RoleBinding, a.roleBinding);
      if failed {
        return;
      }
      failed := Delete(ServiceAccount, a.serviceAccount);
    }

    /** The last part of `DeleteJob`: a job on a node that is not ready is deleted by force, and its pods with it. */
    method RemoveJob(a: Attempt) returns (failed: bool)
      requires !PodMayCreate(present)
      modifies this
      ensures old(present) - {TransferJob} <= present <= old(present)
      ensures !failed ==> present == old(present) - {TransferJob}
      ensures failed <==>
                || a.getJob.answer.Failed?
                || a.job.answer.Failed?
                || (TransferJob in old(present) && a.node.NodeNotReady? && a.pods.answer.Failed?)
    {
      if a.getJob.answer.Failed? {
        return true;
      }
      var node := if TransferJob in present then a.node else NoNode;
      failed := Delete(TransferJob, a.job);
      if !failed && node.NodeNotReady? {
        return a.pods.answer.Failed?;
      }
    }

    /** `DeleteJob` of the kopia backup driver. */
    method DeleteJob(id: string, a: Attempt) returns (failed: bool)
      modifies this
      ensures present <= old(present) + {VolumeBackupObject}
      ensures CertificateSecret in old(present) ==> CertificateSecret in present
      ensures failed <==> DeleteFails(id, a, old(present))
      ensures '/' !in id ==> present == old(present)
      ensures !failed ==>
                present - {CertificateSecret} == if PodReturns(a, old(present)) then {VolumeBackupObject} else {}
    {
      NamespacedNameInvertsParse(id);
      if ParseJobID(id).Err? {
        return true;
      }
      failed := Delete(VolumeBackupObject, a.volumeBackup);
      if failed {
        return;
      }
      failed := Delete(CredentialSecret, a.credentials);
      if failed {
        return;
      }
      assert PodMayCreate(present) <==> PodMayCreate(old(present));
      failed := CleanServiceAccount(a);
      if failed {
        return;
      }
      ghost var returned := PodReturns(a, old(present));
      assert VolumeBackupObject in present <==> returned;
      failed := RemoveJob(a);
      forall r | !failed && r in present ensures r in {VolumeBackupObject, CertificateSecret} {
        EveryResource(r);
      }
    }

    /** `cleanUp`. The certificate secret goes first; without a recorded transfer id nothing else is touched. */
    method CleanUp(transferID: string, a: Attempt) returns (failed: bool)
      modifies this
      ensures Attempted(transferID, a, old(present), present, failed)
    {
      failed := Delete(CertificateSecret, a.certificate);
      if failed {
        return;
      }
      if transferID != "" {
        failed := DeleteJob(transferID, a);
      }
    }

    /** The cleanup stage: attempts until one returns nil or the time is up. */
    method CleanUpStage(transferID: string, attempts: seq<Attempt>)
      returns (outcomes: seq<bool>, ghost states: seq<set<Resource>>)
      modifies this
      ensures StageRun(transferID, attempts, outcomes, states)
      ensures states[0] == old(present) && states[|states| - 1] == present
      // It stops at the first nil and nowhere else.
      ensures forall k :: 0 <= k < |outcomes| - 1 ==> !outcomes[k]
      ensures true !in outcomes ==> |outcomes| == |attempts|
    {
      hide Attempted;
      outcomes := [];
      states := [present];
      while |outcomes| < |attempts|
        invariant StageRun(transferID, attempts, outcomes, states) && true !in outcomes
        invariant states[0] == old(present) && states[|states| - 1] == present
        decreases |attempts| - |outcomes|
      {
        var failed := CleanUp(transferID, attempts[|outcomes|]);
        outcomes := outcomes + [!failed];
        states := states + [present];
        if !failed {
          return;
        }
      }
    }
  }

  /** Every request of the attempt is answered. */
  predicate AllAnswered(a: Attempt) {
    && a.certificate.answer.Answered? && a.volumeBackup.answer.Answered? && a.credentials.answer.Answered?
    && a.role.answer.Answered? && a.roleBinding.answer.Answered? && a.serviceAccount.answer.Answered?
    && a.getJob.answer.Answered? && a.job.answer.Answered? && a.pods.answer.Answered?
  }

  /** When the stage as a whole comes to a nil, and what it leaves: with an id that parses, one attempt all of whose
      requests are answered is enough; then nothing is left, unless a pod has come back just in the last attempt, and of its
      VolumeBackup alone. Without an id the last attempt leaves everything but the certificate secret as it was. */
  lemma {:induction false} StageOutcome(
      transferID: string, attempts: seq<Attempt>, outcomes: seq<bool>, states: seq<set<Resource>>, k: nat)
    requires StageRun(transferID, attempts, outcomes, states) && k < |outcomes|
    ensures AllAnswered(attempts[k]) ==> (outcomes[k] <==> transferID == "" || '/' in transferID)
    ensures outcomes[k] ==>
              states[k + 1] ==
              if transferID == "" then AtRequest(attempts[k].certificate, states[k]) - {CertificateSecret}
              else if PodReturns(attempts[k], states[k]) then {VolumeBackupObject} else {}
    ensures states[k] <= states[0] + {VolumeBackupObject}
    ensures outcomes[k] && transferID != "" && (PodsQuiet(attempts) || !PodMayCreate(states[0])) ==> states[k + 1] == {}
    decreases k
  {
    assert Attempted(transferID, attempts[k], states[k], states[k + 1], !outcomes[k]);
    if k > 0 {
      StageOutcome(transferID, attempts, outcomes, states, k - 1);
      assert Attempted(transferID, attempts[k - 1], states[k - 1], states[k - 1 + 1], !outcomes[k - 1]);
    }
    assert attempts[k] in attempts;
  }

  /** No pod starts while its VolumeBackup is already gone and its role is not. */
  ghost predicate PodsQuiet(attempts: seq<Attempt>) {
    forall a :: a in attempts ==> !a.credentials.podStarts && !a.role.podStarts
  }
}
