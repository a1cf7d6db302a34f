/** The rate limit can be exceeded: from an empty cluster, by one caller, after a single failed listing. */
module Overload {
  import opened Wrappers
  import opened KdmpApi
  import opened Naming
  import opened Admission

  const NAMESPACE := "ns"

  /** Names that differ in length. */
  function Name(k: nat): string {
    seq(k, _ => 'x')
  }

  /** The `k`-th order, fully labelled, for a claim of its own. */
  function OrderNo(driver: string, k: nat): Order {
    Order(driver, (NAMESPACE, Name(k)), Some(Name(k)), Some(Name(k)))
  }

  function JobsUpTo(driver: string, k: nat): map<Key, Job> {
    if k == 0 then map[] else JobsUpTo(driver, k - 1)[(NAMESPACE, Name(k - 1)) := NewJob(OrderNo(driver, k - 1))]
  }

  /** One caller, with `k` jobs created so far and an order it is working on. */
  function Busy(driver: string, k: nat, o: Order, pc: Pc): Cluster {
    Cluster({NAMESPACE}, JobsUpTo(driver, k), [Caller(o, pc)])
  }

  lemma {:induction false} JobsAre(driver: string, k: nat)
    ensures forall key :: key in JobsUpTo(driver, k) ==> key.0 == NAMESPACE && |key.1| < k
    ensures forall key :: key in JobsUpTo(driver, k) ==>
                            && JobsUpTo(driver, k)[key].driver == driver && !JobsUpTo(driver, k)[key].complete
                            && JobsUpTo(driver, k)[key].pvcName == Some(key.1)
    ensures |Active(JobsUpTo(driver, k), driver)| == k
    ensures ActiveIn(JobsUpTo(driver, k), driver, NAMESPACE) == Active(JobsUpTo(driver, k), driver)
  {
    if k == 0 {
      assert Active(JobsUpTo(driver, 0), driver) == {};
    } else {
      JobsAre(driver, k - 1);
      var o := OrderNo(driver, k - 1);
      assert o.key !in JobsUpTo(driver, k - 1);
      NewJobTakesOneSlot(JobsUpTo(driver, k - 1), o, driver);
      assert o.key !in Active(JobsUpTo(driver, k - 1), driver);
    }
  }

  lemma NextClaimIsFree(driver: string, k: nat)
    ensures OrderNo(driver, k).key !in JobsUpTo(driver, k) && !ClaimBusy(JobsUpTo(driver, k), OrderNo(driver, k))
  {
    JobsAre(driver, k);
    hide JobsUpTo;
  }

  ghost function FailedListings(cs: seq<Cluster>): nat {
    if |cs| <= 1 then 0
    else FailedListings(cs[..|cs| - 1]) + (if FailsListing(cs[|cs| - 2], cs[|cs| - 1]) then 1 else 0)
  }

  /** A run from an empty cluster that ends in `c`, with so many failed listings. */
  ghost predicate RunTo(cs: seq<Cluster>, limit: string -> int, c: Cluster, failures: nat) {
    AnyRun(cs, limit) && cs[0].jobs == map[] && cs[|cs| - 1] == c && FailedListings(cs) == failures
  }

  lemma StepOn(cs: seq<Cluster>, limit: string -> int, c: Cluster, c': Cluster, failures: nat) returns (cs': seq<Cluster>)
    requires RunTo(cs, limit, c, failures) && Admission.Step(c, c', limit)
    ensures cs' == cs + [c'] && RunTo(cs', limit, c', failures + (if FailsListing(c, c') then 1 else 0))
  {
    hide Admission.Step, FailsListing, Start;
    cs' := cs + [c'];
    assert cs'[..|cs'| - 1] == cs;
    forall i | 0 <= i < |cs'| - 1 ensures Admission.Step(cs'[i], cs'[i + 1], limit) {
      if i < |cs| - 1 {
        assert cs'[i] == cs[i] && cs'[i + 1] == cs[i + 1];
      }
    }
  }

  lemma PlainStep(c: Cluster, c': Cluster, limit: string -> int)
    requires CallerStep(c, c', limit, 0) && |c'.callers| == 1
    requires c'.callers[0].pc.Counting? ==> c'.callers[0].pc.listed
    ensures Admission.Step(c, c', limit) && !FailsListing(c, c')
  {
    hide CallerStep;
  }

  /** From any order that is done, the caller takes the next one as far as the listing of the namespaces. */
  lemma ReachListing(cs: seq<Cluster>, limit: string -> int, driver: string, k: nat, before: Order, failures: nat)
    returns (cs': seq<Cluster>)
    requires driver in DRIVERS && RunTo(cs, limit, Busy(driver, k, before, Out), failures)
    ensures RunTo(cs', limit, Busy(driver, k, OrderNo(driver, k), ListNamespaces), failures)
  {
    hide RunTo, JobsUpTo, ClaimBusy;
    NextClaimIsFree(driver, k);
    var o := OrderNo(driver, k);
    var c := Busy(driver, k, before, Out);
    var c1 := Busy(driver, k, o, if driver == KOPIA_BACKUP then CheckPresent else ListNamespaces);
    assert Acquire(c, c1, 0) by { assert o.driver in DRIVERS && LockFree(c, o.driver); }
    PlainStep(c, c1, limit);
    cs' := StepOn(cs, limit, c, c1, failures);
    if driver == KOPIA_BACKUP {
      var c2 := Busy(driver, k, o, CheckClaim);
      assert LookForJob(c1, c2, 0);
      PlainStep(c1, c2, limit);
      cs' := StepOn(cs', limit, c1, c2, failures);
      var c3 := Busy(driver, k, o, ListNamespaces);
      assert LookForClaim(c2, c3, 0);
      PlainStep(c2, c3, limit);
      cs' := StepOn(cs', limit, c2, c3, failures);
    }
  }

  /** Once admitted, the caller creates its job. */
  lemma CreateNext(cs: seq<Cluster>, limit: string -> int, driver: string, k: nat, listed: bool, failures: nat)
    returns (cs': seq<Cluster>)
    requires RunTo(cs, limit, Busy(driver, k, OrderNo(driver, k), Creating(listed)), failures)
    ensures RunTo(cs', limit, Busy(driver, k + 1, OrderNo(driver, k), Out), failures)
  {
    hide RunTo;
    NextClaimIsFree(driver, k);
    var o := OrderNo(driver, k);
    var c := Busy(driver, k, o, Creating(listed));
    var c1 := Busy(driver, k + 1, o, Returning(Started(NamespacedName(o.key.0, o.key.1))));
    assert Create(c, c1, 0);
    PlainStep(c, c1, limit);
    cs' := StepOn(cs, limit, c, c1, failures);
    var c2 := Busy(driver, k + 1, o, Out);
    assert Release(c1, c2, 0);
    PlainStep(c1, c2, limit);
    cs' := StepOn(cs', limit, c1, c2, failures);
  }

  /** An honest round fills one more slot. */
  lemma FillSlot(cs: seq<Cluster>, limit: string -> int, driver: string, k: nat, before: Order)
    returns (cs': seq<Cluster>)
    requires driver in DRIVERS && k < limit(driver) && RunTo(cs, limit, Busy(driver, k, before, Out), 0)
    ensures RunTo(cs', limit, Busy(driver, k + 1, OrderNo(driver, k), Out), 0)
  {
    hide RunTo, JobsUpTo, Active, ActiveIn;
    cs' := ReachListing(cs, limit, driver, k, before, 0);
    JobsAre(driver, k);
    var o := OrderNo(driver, k);
    var c := Busy(driver, k, o, ListNamespaces);
    var todo: seq<string> := [NAMESPACE];
    assert (set n | n in todo) == c.namespaces;
    var c1 := Busy(driver, k, o, Counting(todo, 0, true));
    assert ListAnswered(c, c1, 0);
    PlainStep(c, c1, limit);
    cs' := StepOn(cs', limit, c, c1, 0);
    var c2 := Busy(driver, k, o, Counting([], k, true));
    assert CountNamespace(c1, c2, 0) by { assert todo[1..] == []; }
    PlainStep(c1, c2, limit);
    cs' := StepOn(cs', limit, c1, c2, 0);
    var c3 := Busy(driver, k, o, Creating(true));
    assert Decide(c2, c3, 0, limit);
    PlainStep(c2, c3, limit);
    cs' := StepOn(cs', limit, c2, c3, 0);
    cs' := CreateNext(cs', limit, driver, k, true, 0);
  }

  lemma {:induction false} FillSlots(limit: string -> int, driver: string, k: nat)
    returns (cs: seq<Cluster>, before: Order)
    requires driver in DRIVERS && k <= limit(driver)
    ensures RunTo(cs, limit, Busy(driver, k, before, Out), 0)
  {
    if k == 0 {
      before := OrderNo(driver, 0);
      cs := [Busy(driver, 0, before, Out)];
    } else {
      var shorter, earlier := FillSlots(limit, driver, k - 1);
      cs := FillSlot(shorter, limit, driver, k - 1, earlier);
      before := OrderNo(driver, k - 1);
    }
  }

  /** For every driver and every positive limit there is a run, from a cluster without jobs and with a single failed
      listing of the namespaces, that ends with more incomplete jobs than the limit allows. */
  lemma LimitCanBeExceeded(limit: string -> int, driver: string)
    returns (cs: seq<Cluster>)
    requires driver in DRIVERS && limit(driver) > 0
    ensures AnyRun(cs, limit) && cs[0].jobs == map[] && FailedListings(cs) == 1
    ensures |Active(cs[|cs| - 1].jobs, driver)| > Cap(limit(driver))
  {
    var k := limit(driver);
    JobsAre(driver, k + 1);
    hide JobsUpTo, Active, AnyRun, FailedListings;
    var before;
    cs, before := FillSlots(limit, driver, k);
    cs := ReachListing(cs, limit, driver, k, before, 0);
    var o := OrderNo(driver, k);
    var c := Busy(driver, k, o, ListNamespaces);
    var c1 := Busy(driver, k, o, Counting([], 0, false));
    assert ListFailed(c, c1, 0) && FailsListing(c, c1) && Admission.Step(c, c1, limit);
    cs := StepOn(cs, limit, c, c1, 0);
    var c2 := Busy(driver, k, o, Creating(false));
    assert Decide(c1, c2, 0, limit);
    PlainStep(c1, c2, limit);
    cs := StepOn(cs, limit, c1, c2, 1);
    cs := CreateNext(cs, limit, driver, k, false, 1);
  }
}
