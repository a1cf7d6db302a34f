/** `StartJob` of the kopia backup, restore and delete drivers as an interleaved protocol: any number of callers, each
    driver with its own lock, and jobs and namespaces that come and go at any moment. */
module Admission {
  import opened Wrappers
  import opened KdmpApi
  import opened Naming
  import D = Drivers
  import J = JobRateLimit

  type Key = (string, string) // namespace and name

  datatype Job = Job(driver: string, pvcName: Option<string>, pvcUid: Option<string>, complete: bool)

  const DRIVERS := {KOPIA_BACKUP, KOPIA_RESTORE, KOPIA_DELETE}

  /** What a caller asks for: the driver, the job's key, and the two claim labels as far as it supplies them. */
  datatype Order = Order(driver: string, key: Key, pvcName: Option<string>, pvcUid: Option<string>)

  datatype Outcome = Started(id: string) | AlreadyRunning | OutOfResources | StartFailed

  /** Where a caller is in `StartJob`; everything but `Out` holds the driver's lock. */
  datatype Pc =
    | Out
    | CheckPresent
    | CheckClaim
    | ListNamespaces
    | Counting(todo: seq<string>, count: nat, listed: bool) // whether the listing was answered; the code does not ask
    | Creating(listed: bool)
    | Returning(outcome: Outcome)

  datatype Caller = Caller(order: Order, pc: Pc)

  datatype Cluster = Cluster(namespaces: set<string>, jobs: map<Key, Job>, callers: seq<Caller>)

  // ---------------------------------------------------------------- what the API server answers

  predicate Occupies(job: Job, driver: string) {
    job.driver == driver && !job.complete
  }

  function Active(jobs: map<Key, Job>, driver: string): set<Key> {
    set k | k in jobs && Occupies(jobs[k], driver)
  }

  function ActiveIn(jobs: map<Key, Job>, driver: string, namespace: string): set<Key> {
    set k | k in jobs && Occupies(jobs[k], driver) && k.0 == namespace
  }

  /** A selector "key=value" matches a job that has the label with that value; a label the caller does not have is
      selected by as the empty value. */
  predicate Selected(job: Job, o: Order) {
    && job.driver == o.driver
    && job.pvcName == Some(if o.pvcName.Some? then o.pvcName.value else "")
    && job.pvcUid == Some(if o.pvcUid.Some? then o.pvcUid.value else "")
  }

  predicate ClaimBusy(jobs: map<Key, Job>, o: Order) {
    exists k :: k in jobs && k.0 == o.key.0 && Selected(jobs[k], o)
  }

  function NewJob(o: Order): Job {
    Job(o.driver, o.pvcName, o.pvcUid, false)
  }

  /** The listing of a namespace: each of its jobs with the driver's label once, with its conditions. */
  ghost predicate Lists(jobs: map<Key, Job>, driver: string, namespace: string, keys: seq<Key>, items: seq<D.Job>) {
    && |keys| == |items|
    && (forall i, j :: 0 <= i < j < |keys| ==> keys[i] != keys[j])
    && (forall k :: k in keys <==> k in jobs && jobs[k].driver == driver && k.0 == namespace)
    && (forall i :: 0 <= i < |keys| ==> (J.IsComplete(items[i]) <==> jobs[keys[i]].complete))
  }

  function Incomplete(jobs: map<Key, Job>, keys: seq<Key>): set<Key> {
    set k | k in keys && k in jobs && !jobs[k].complete
  }

  lemma {:induction false} ListingCountsPrefix(jobs: map<Key, Job>, keys: seq<Key>, items: seq<D.Job>)
    requires |keys| == |items| && (forall i, j :: 0 <= i < j < |keys| ==> keys[i] != keys[j])
    requires forall i :: 0 <= i < |keys| ==> keys[i] in jobs && (J.IsComplete(items[i]) <==> jobs[keys[i]].complete)
    ensures J.CountActive(items) == |Incomplete(jobs, keys)|
    decreases |keys|
  {
    hide J.IsComplete, Active, ActiveIn;
    if keys == [] {
      assert Incomplete(jobs, keys) == {};
    } else {
      var n := |keys| - 1;
      ListingCountsPrefix(jobs, keys[..n], items[..n]);
      IncompleteGrows(jobs, keys);
      hide Incomplete;
    }
  }

  lemma IncompleteGrows(jobs: map<Key, Job>, keys: seq<Key>)
    requires keys != [] && keys[|keys| - 1] in jobs && keys[|keys| - 1] !in keys[..|keys| - 1]
    ensures var last, front := keys[|keys| - 1], Incomplete(jobs, keys[..|keys| - 1]);
            Incomplete(jobs, keys) == (if jobs[last].complete then front else front + {last}) && last !in front
  {
    assert keys == keys[..|keys| - 1] + [keys[|keys| - 1]];
  }

  /** What the nested loops count in a namespace's listing is the number of slots its jobs occupy. */
  lemma ListingCountsSlots(jobs: map<Key, Job>, driver: string, namespace: string, keys: seq<Key>, items: seq<D.Job>)
    requires Lists(jobs, driver, namespace, keys, items)
    ensures J.CountActive(items) == |ActiveIn(jobs, driver, namespace)|
  {
    ListingCountsPrefix(jobs, keys, items);
    assert Incomplete(jobs, keys) == ActiveIn(jobs, driver, namespace);
  }

  // ---------------------------------------------------------------- steps

  predicate LockFree(c: Cluster, driver: string) {
    forall i :: 0 <= i < |c.callers| && c.callers[i].order.driver == driver ==> c.callers[i].pc.Out?
  }

  function At(c: Cluster, i: nat, pc: Pc): Cluster
    requires i < |c.callers|
  {
    c.(callers := c.callers[i := c.callers[i].(pc := pc)])
  }

  /** A caller of `StartJob`, with a new order, gets its driver's lock. */
  ghost predicate Acquire(c: Cluster, c': Cluster, i: nat) {
    && i < |c.callers| && c.callers[i].pc.Out?
    && exists o: Order ::
         && o.driver in DRIVERS && LockFree(c, o.driver)
         && c' == c.(callers := c.callers[i := Caller(o, if o.driver == KOPIA_BACKUP then CheckPresent else ListNamespaces)])
  }

  /** `IsJobAlreadyPresent`: a read that fails counts as "not there". */
  predicate LookForJob(c: Cluster, c': Cluster, i: nat) {
    && i < |c.callers| && c.callers[i].pc.CheckPresent?
    && var o := c.callers[i].order;
       || (o.key in c.jobs && c' == At(c, i, Returning(Started(NamespacedName(o.key.0, o.key.1)))))
       || c' == At(c, i, CheckClaim)
  }

  predicate LookForClaim(c: Cluster, c': Cluster, i: nat) {
    && i < |c.callers| && c.callers[i].pc.CheckClaim?
    && (|| c' == At(c, i, Returning(StartFailed))
        || c' == At(c, i, if ClaimBusy(c.jobs, c.callers[i].order) then Returning(AlreadyRunning) else ListNamespaces))
  }

  predicate Distinct(todo: seq<string>) {
    forall a, b :: 0 <= a < b < |todo| ==> todo[a] != todo[b]
  }

  /** Every namespace is listed once. */
  ghost predicate ListAnswered(c: Cluster, c': Cluster, i: nat) {
    && i < |c.callers| && c.callers[i].pc.ListNamespaces?
    && exists todo: seq<string> ::
         Distinct(todo) && (set n | n in todo) == c.namespaces && c' == At(c, i, Counting(todo, 0, true))
  }

  /** The client returns an empty list along with an error, and the error is only logged. */
  predicate ListFailed(c: Cluster, c': Cluster, i: nat) {
    && i < |c.callers| && c.callers[i].pc.ListNamespaces?
    && c' == At(c, i, Counting([], 0, false))
  }

  predicate CountNamespace(c: Cluster, c': Cluster, i: nat) {
    && i < |c.callers| && c.callers[i].pc.Counting? && c.callers[i].pc.todo != []
    && var pc := c.callers[i].pc;
       var here := |ActiveIn(c.jobs, c.callers[i].order.driver, pc.todo[0])|;
       || c' == At(c, i, Returning(StartFailed))
       || c' == At(c, i, pc.(todo := pc.todo[1..], count := pc.count + here))
  }

  predicate Decide(c: Cluster, c': Cluster, i: nat, limit: string -> int) {
    && i < |c.callers| && c.callers[i].pc.Counting? && c.callers[i].pc.todo == []
    && var pc := c.callers[i].pc;
       c' == At(c, i, if pc.count >= limit(c.callers[i].order.driver) then Returning(OutOfResources) else Creating(pc.listed))
  }

  /** Validation, building the job, or its creation fails; or it is created, with or without the answer getting
      through; or it is there already, which counts as created. */
  predicate Create(c: Cluster, c': Cluster, i: nat) {
    && i < |c.callers| && c.callers[i].pc.Creating?
    && var o := c.callers[i].order;
       var created := c.(jobs := c.jobs[o.key := NewJob(o)]);
       var started := Returning(Started(NamespacedName(o.key.0, o.key.1)));
       || c' == At(c, i, Returning(StartFailed))
       || (o.key in c.jobs && c' == At(c, i, started))
       || (&& o.key !in c.jobs && o.key.0 in c.namespaces
           && (c' == At(created, i, started) || c' == At(created, i, Returning(StartFailed))))
  }

  predicate Release(c: Cluster, c': Cluster, i: nat) {
    && i < |c.callers| && c.callers[i].pc.Returning?
    && c' == At(c, i, Out)
  }

  /** The process dies, and its locks with it. */
  predicate Crash(c: Cluster, c': Cluster) {
    && c'.namespaces == c.namespaces && c'.jobs == c.jobs
    && |c'.callers| == |c.callers|
    && forall i :: 0 <= i < |c'.callers| ==> c'.callers[i].pc.Out?
  }

  /** A job completes or is deleted; others create jobs that do not carry a label of these drivers. */
  ghost predicate JobsChange(c: Cluster, c': Cluster) {
    && c' == c.(jobs := c'.jobs)
    && (forall k :: k in c.jobs && k in c'.jobs ==>
                      c'.jobs[k] == c.jobs[k] || c'.jobs[k] == c.jobs[k].(complete := true))
    && (forall k :: k in c'.jobs && k !in c.jobs ==> c'.jobs[k].driver !in DRIVERS && k.0 in c.namespaces)
  }

  /** A namespace is created, or removed after everything in it is gone. */
  ghost predicate NamespacesChange(c: Cluster, c': Cluster) {
    && c' == c.(namespaces := c'.namespaces)
    && forall k :: k in c.jobs ==> k.0 in c'.namespaces
  }

  ghost predicate CallerStep(c: Cluster, c': Cluster, limit: string -> int, i: nat) {
    || Acquire(c, c', i) || LookForJob(c, c', i) || LookForClaim(c, c', i) || ListAnswered(c, c', i)
    || CountNamespace(c, c', i) || Decide(c, c', i, limit) || Create(c, c', i) || Release(c, c', i)
  }

  ghost predicate Step(c: Cluster, c': Cluster, limit: string -> int) {
    || (exists i: nat :: CallerStep(c, c', limit, i) || ListFailed(c, c', i))
    || Crash(c, c') || JobsChange(c, c') || NamespacesChange(c, c')
  }

  ghost predicate Start(c: Cluster) {
    && (forall i :: 0 <= i < |c.callers| ==> c.callers[i].pc.Out?)
    && (forall k :: k in c.jobs ==> k.0 in c.namespaces && c.jobs[k].driver !in DRIVERS)
  }

  // ---------------------------------------------------------------- the limit

  function Cap(limit: int): nat {
    if limit > 0 then limit else 0
  }

  /** The occupied slots in namespaces that are not on the list any more. */
  function Counted(jobs: map<Key, Job>, driver: string, todo: seq<string>): set<Key> {
    set k | k in jobs && Occupies(jobs[k], driver) && k.0 !in todo
  }

  /** The lock holder knows of every occupied slot outside the namespaces still to be counted. */
  predicate CountIsSafe(c: Cluster, limit: string -> int, caller: Caller) {
    var d := caller.order.driver;
    && (!caller.pc.Out? ==> d in DRIVERS)
    && (caller.pc.Counting? && caller.pc.listed ==> |Counted(c.jobs, d, caller.pc.todo)| <= caller.pc.count)
    && (caller.pc.Creating? && caller.pc.listed ==> |Active(c.jobs, d)| < limit(d))
  }

  predicate LocksHeld(c: Cluster) {
    forall i, j :: 0 <= i < j < |c.callers| && !c.callers[i].pc.Out? && !c.callers[j].pc.Out? ==>
                     c.callers[i].order.driver != c.callers[j].order.driver
  }

  predicate WithinLimits(jobs: map<Key, Job>, limit: string -> int) {
    forall d :: d in DRIVERS ==> |Active(jobs, d)| <= Cap(limit(d))
  }

  predicate JobsHaveNamespaces(c: Cluster) {
    forall k :: k in c.jobs ==> k.0 in c.namespaces
  }

  predicate LimitInv(c: Cluster, limit: string -> int) {
    && WithinLimits(c.jobs, limit) && LocksHeld(c) && JobsHaveNamespaces(c)
    && forall i :: 0 <= i < |c.callers| ==> CountIsSafe(c, limit, c.callers[i])
  }

  lemma {:induction false} SubsetIsSmaller<T>(a: set<T>, b: set<T>)
    requires a <= b
    ensures |a| <= |b|
    decreases |a|
  {
    if a != {} {
      var x :| x in a;
      SubsetIsSmaller(a - {x}, b - {x});
    }
  }

  lemma UnionIsAtMostSum<T>(a: set<T>, b: set<T>)
    ensures |a + b| <= |a| + |b|
  {
    SubsetIsSmaller(b - a, b);
    assert a + b == a + (b - a);
  }

  /** When only the callers' places change, the jobs' part of the invariant stays. */
  lemma OneCallerMoves(c: Cluster, c': Cluster, limit: string -> int, i: nat, caller: Caller)
    requires LimitInv(c, limit) && i < |c.callers|
    requires c' == c.(callers := c.callers[i := caller]) && CountIsSafe(c', limit, caller)
    requires !caller.pc.Out? ==>
               (caller.order == c.callers[i].order && !c.callers[i].pc.Out?) || LockFree(c, caller.order.driver)
    ensures LimitInv(c', limit)
  {
    hide Active, Counted, WithinLimits;
    forall j | 0 <= j < |c'.callers| ensures CountIsSafe(c', limit, c'.callers[j]) {
      assert j != i ==> c'.callers[j] == c.callers[j] && CountIsSafe(c, limit, c.callers[j]);
    }
    assert CountIsSafe(c, limit, c.callers[i]);
  }

  lemma CountingStartsSafe(c: Cluster, driver: string, todo: seq<string>)
    requires JobsHaveNamespaces(c) && (set n | n in todo) == c.namespaces
    ensures Counted(c.jobs, driver, todo) == {}
  {
  }

  lemma CountingGoesOn(jobs: map<Key, Job>, driver: string, todo: seq<string>, count: nat)
    requires todo != [] && |Counted(jobs, driver, todo)| <= count
    ensures |Counted(jobs, driver, todo[1..])| <= count + |ActiveIn(jobs, driver, todo[0])|
  {
    var now, was, here := Counted(jobs, driver, todo[1..]), Counted(jobs, driver, todo), ActiveIn(jobs, driver, todo[0]);
    assert todo == [todo[0]] + todo[1..];
    SubsetIsSmaller(now, was + here);
    UnionIsAtMostSum(was, here);
  }

  lemma CountingEnds(jobs: map<Key, Job>, driver: string)
    ensures Counted(jobs, driver, []) == Active(jobs, driver)
  {
  }

  /** A caller that keeps the lock it has, or takes a free one, still knows enough. */
  lemma CallerStaysSafe(c: Cluster, c': Cluster, limit: string -> int, i: nat)
    requires LimitInv(c, limit) && (ListFailed(c, c', i) || (CallerStep(c, c', limit, i) && !Create(c, c', i)))
    ensures i < |c.callers| == |c'.callers| && CountIsSafe(c', limit, c'.callers[i])
  {
    assert CountIsSafe(c, limit, c.callers[i]);
    var caller := c'.callers[i];
    if caller.pc.Counting? && caller.pc.listed {
      if ListAnswered(c, c', i) {
        CountingStartsSafe(c, caller.order.driver, caller.pc.todo);
      } else {
        CountingGoesOn(c.jobs, caller.order.driver, c.callers[i].pc.todo, c.callers[i].pc.count);
      }
    } else if caller.pc.Creating? {
      CountingEnds(c.jobs, caller.order.driver);
    }
    hide Active, ActiveIn, Counted, ClaimBusy, LockFree, WithinLimits, LocksHeld, JobsHaveNamespaces;
  }

  lemma CallerMoveKeeps(c: Cluster, c': Cluster, limit: string -> int, i: nat)
    requires LimitInv(c, limit) && (ListFailed(c, c', i) || (CallerStep(c, c', limit, i) && !Create(c, c', i)))
    ensures LimitInv(c', limit)
  {
    CallerStaysSafe(c, c', limit, i);
    hide Active, ActiveIn, Counted, ClaimBusy, LimitInv, LockFree, CountIsSafe;
    OneCallerMoves(c, c', limit, i, c'.callers[i]);
  }

  /** Nobody else's count is disturbed when the occupied slots of the other drivers only shrink. */
  lemma FewerSlots(jobs: map<Key, Job>, jobs': map<Key, Job>, driver: string, todo: seq<string>)
    requires Active(jobs', driver) <= Active(jobs, driver)
    ensures |Active(jobs', driver)| <= |Active(jobs, driver)|
    ensures |Counted(jobs', driver, todo)| <= |Counted(jobs, driver, todo)|
  {
    SubsetIsSmaller(Active(jobs', driver), Active(jobs, driver));
    forall k | k in Counted(jobs', driver, todo) ensures k in Counted(jobs, driver, todo) {
      assert k in Active(jobs', driver);
    }
    SubsetIsSmaller(Counted(jobs', driver, todo), Counted(jobs, driver, todo));
  }

  lemma CallerKeepsCount(c: Cluster, c': Cluster, limit: string -> int, caller: Caller)
    requires CountIsSafe(c, limit, caller)
    requires caller.pc.Out? || Active(c'.jobs, caller.order.driver) <= Active(c.jobs, caller.order.driver)
    ensures CountIsSafe(c', limit, caller)
  {
    if !caller.pc.Out? {
      FewerSlots(c.jobs, c'.jobs, caller.order.driver, if caller.pc.Counting? then caller.pc.todo else []);
    }
  }

  lemma NewJobTakesOneSlot(jobs: map<Key, Job>, o: Order, driver: string)
    requires o.key !in jobs
    ensures var jobs' := jobs[o.key := NewJob(o)];
            Active(jobs', driver) == (if driver == o.driver then Active(jobs, driver) + {o.key} else Active(jobs, driver))
  {
  }

  /** A job is created by a caller whose listing of the namespaces failed, when all the slots are taken already. */
  predicate BlindCreate(c: Cluster, c': Cluster, limit: string -> int, i: nat) {
    && Create(c, c', i) && c'.jobs != c.jobs && !c.callers[i].pc.listed
    && |Active(c.jobs, c.callers[i].order.driver)| >= limit(c.callers[i].order.driver)
  }

  ghost predicate Harmful(c: Cluster, c': Cluster, limit: string -> int) {
    exists i: nat :: BlindCreate(c, c', limit, i)
  }

  lemma CreateKeeps(c: Cluster, c': Cluster, limit: string -> int, i: nat)
    requires LimitInv(c, limit) && Create(c, c', i) && !BlindCreate(c, c', limit, i)
    ensures LimitInv(c', limit)
  {
    var o := c.callers[i].order;
    assert CountIsSafe(c, limit, c.callers[i]);
    if c'.jobs == c.jobs {
      assert CountIsSafe(c', limit, c'.callers[i]);
      OneCallerMoves(c, c', limit, i, c'.callers[i]);
    } else {
      forall d ensures Active(c'.jobs, d) == (if d == o.driver then Active(c.jobs, d) + {o.key} else Active(c.jobs, d)) {
        NewJobTakesOneSlot(c.jobs, o, d);
      }
      hide Active, Counted;
      forall j | 0 <= j < |c'.callers| ensures CountIsSafe(c', limit, c'.callers[j]) {
        if j != i {
          assert c'.callers[j] == c.callers[j] && CountIsSafe(c, limit, c.callers[j]);
          assert c.callers[j].pc.Out? || c.callers[j].order.driver != o.driver;
          CallerKeepsCount(c, c', limit, c.callers[j]);
        }
      }
    }
  }

  lemma EnvironmentKeeps(c: Cluster, c': Cluster, limit: string -> int)
    requires LimitInv(c, limit) && (Crash(c, c') || JobsChange(c, c') || NamespacesChange(c, c'))
    ensures LimitInv(c', limit)
  {
    if JobsChange(c, c') {
      forall d | d in DRIVERS ensures |Active(c'.jobs, d)| <= |Active(c.jobs, d)| && Active(c'.jobs, d) <= Active(c.jobs, d) {
        assert Active(c'.jobs, d) <= Active(c.jobs, d);
        FewerSlots(c.jobs, c'.jobs, d, []);
      }
      hide Active, Counted;
      forall j | 0 <= j < |c'.callers| ensures CountIsSafe(c', limit, c'.callers[j]) {
        assert CountIsSafe(c, limit, c.callers[j]);
        CallerKeepsCount(c, c', limit, c.callers[j]);
      }
    } else if NamespacesChange(c, c') {
      hide Active, Counted;
      forall j | 0 <= j < |c'.callers| ensures CountIsSafe(c', limit, c'.callers[j]) {
        assert CountIsSafe(c, limit, c.callers[j]);
      }
    }
  }

  ghost predicate AnyRun(cs: seq<Cluster>, limit: string -> int) {
    cs != [] && Start(cs[0]) && forall i :: 0 <= i < |cs| - 1 ==> Step(cs[i], cs[i + 1], limit)
  }

  lemma HarmlessStepKeeps(c: Cluster, c': Cluster, limit: string -> int)
    requires LimitInv(c, limit) && Step(c, c', limit) && !Harmful(c, c', limit)
    ensures LimitInv(c', limit)
  {
    hide LimitInv, Crash, JobsChange, NamespacesChange, CallerStep, Create, ListFailed, BlindCreate;
    if exists i: nat :: CallerStep(c, c', limit, i) || ListFailed(c, c', i) {
      var i: nat :| CallerStep(c, c', limit, i) || ListFailed(c, c', i);
      if Create(c, c', i) {
        assert !BlindCreate(c, c', limit, i);
        CreateKeeps(c, c', limit, i);
      } else {
        CallerMoveKeeps(c, c', limit, i);
      }
    } else {
      EnvironmentKeeps(c, c', limit);
    }
  }

  lemma HarmfulStepExceeds(c: Cluster, c': Cluster, limit: string -> int)
    requires LimitInv(c, limit) && Harmful(c, c', limit)
    ensures !WithinLimits(c'.jobs, limit)
  {
    var i: nat :| BlindCreate(c, c', limit, i);
    var o := c.callers[i].order;
    assert CountIsSafe(c, limit, c.callers[i]);
    NewJobTakesOneSlot(c.jobs, o, o.driver);
    assert o.key !in Active(c.jobs, o.driver);
    hide Active, LimitInv, BlindCreate;
  }

  lemma StartKeeps(c: Cluster, limit: string -> int)
    requires Start(c)
    ensures LimitInv(c, limit)
  {
    forall d | d in DRIVERS ensures |Active(c.jobs, d)| == 0 {
      assert Active(c.jobs, d) == {};
    }
  }

  ghost predicate NoHarmBefore(cs: seq<Cluster>, limit: string -> int, n: nat) {
    forall m :: 0 <= m < n < |cs| ==> !Harmful(cs[m], cs[m + 1], limit)
  }

  lemma {:induction false} HarmlessRunIsSafe(cs: seq<Cluster>, limit: string -> int, n: nat)
    requires AnyRun(cs, limit) && n < |cs| && NoHarmBefore(cs, limit, n)
    ensures LimitInv(cs[n], limit)
    decreases n
  {
    hide LimitInv, Start, Step, Harmful;
    if n == 0 {
      StartKeeps(cs[0], limit);
    } else {
      HarmlessRunIsSafe(cs, limit, n - 1);
      assert Step(cs[n - 1], cs[n - 1 + 1], limit) && !Harmful(cs[n - 1], cs[n - 1 + 1], limit);
      HarmlessStepKeeps(cs[n - 1], cs[n], limit);
    }
  }

  lemma {:induction false} FirstHarm(cs: seq<Cluster>, limit: string -> int, n: nat)
    returns (m: nat)
    requires n < |cs| && !NoHarmBefore(cs, limit, n)
    ensures m < n && NoHarmBefore(cs, limit, m) && Harmful(cs[m], cs[m + 1], limit)
    decreases n
  {
    hide Harmful;
    if NoHarmBefore(cs, limit, n - 1) {
      m := n - 1;
    } else {
      m := FirstHarm(cs, limit, n - 1);
    }
  }

  /** In every run, with any number of callers and whatever else comes and goes, no driver has more incomplete jobs than
      its limit allows at any point up to `n`, if and only if no caller whose listing of the namespaces failed has created
      a job while all the slots were taken. In particular a run in which every listing is answered keeps the limits. */
  lemma RateLimit(cs: seq<Cluster>, limit: string -> int, n: nat)
    requires AnyRun(cs, limit) && n < |cs|
    ensures (forall m :: 0 <= m <= n ==> WithinLimits(cs[m].jobs, limit)) <==> NoHarmBefore(cs, limit, n)
  {
    hide AnyRun, Harmful, WithinLimits, CountIsSafe, LocksHeld;
    if NoHarmBefore(cs, limit, n) {
      forall m | 0 <= m <= n ensures WithinLimits(cs[m].jobs, limit) {
        HarmlessRunIsSafe(cs, limit, m);
      }
    } else {
      var m := FirstHarm(cs, limit, n);
      HarmlessRunIsSafe(cs, limit, m);
      HarmfulStepExceeds(cs[m], cs[m + 1], limit);
    }
  }

  /** After a failed listing, the job that is created is one too many if and only if the slots were all taken. */
  lemma BlindCreateExceeds(c: Cluster, c': Cluster, limit: string -> int, i: nat)
    requires LimitInv(c, limit) && Create(c, c', i) && c'.jobs != c.jobs && !c.callers[i].pc.listed
    ensures var d := c.callers[i].order.driver;
            |Active(c'.jobs, d)| > Cap(limit(d)) <==> |Active(c.jobs, d)| >= limit(d)
  {
    var o := c.callers[i].order;
    NewJobTakesOneSlot(c.jobs, o, o.driver);
    assert o.key !in Active(c.jobs, o.driver);
    hide Active, LimitInv;
  }

  ghost predicate FailsListing(c: Cluster, c': Cluster) {
    exists i: nat :: ListFailed(c, c', i)
  }

  predicate AllListed(c: Cluster) {
    forall i :: 0 <= i < |c.callers| ==>
      (c.callers[i].pc.Counting? || c.callers[i].pc.Creating? ==> c.callers[i].pc.listed)
  }

  lemma AnsweredListingStaysListed(c: Cluster, c': Cluster, limit: string -> int)
    requires AllListed(c) && Step(c, c', limit) && !FailsListing(c, c')
    ensures AllListed(c') && !Harmful(c, c', limit)
  {
    hide Active, ActiveIn, ClaimBusy, LockFree, AllListed, Harmful, CallerStep, Crash, JobsChange, NamespacesChange;
    if exists i: nat :: CallerStep(c, c', limit, i) {
      var i: nat :| CallerStep(c, c', limit, i);
      assert !ListFailed(c, c', i);
      CallerStaysListed(c, c', limit, i);
    } else {
      EnvironmentKeepsListed(c, c');
    }
    ListedDoesNoHarm(c, c', limit);
  }

  lemma CallerStaysListed(c: Cluster, c': Cluster, limit: string -> int, i: nat)
    requires AllListed(c) && CallerStep(c, c', limit, i) && !ListFailed(c, c', i)
    ensures AllListed(c')
  {
    hide Active, ActiveIn, ClaimBusy, LockFree;
  }

  lemma EnvironmentKeepsListed(c: Cluster, c': Cluster)
    requires AllListed(c) && (Crash(c, c') || JobsChange(c, c') || NamespacesChange(c, c'))
    ensures AllListed(c')
  {
  }

  lemma ListedDoesNoHarm(c: Cluster, c': Cluster, limit: string -> int)
    requires AllListed(c)
    ensures !Harmful(c, c', limit)
  {
    hide Active;
  }

  /** Where every listing is answered no harm is done. */
  lemma {:induction false} AnsweredListingsDoNoHarm(cs: seq<Cluster>, limit: string -> int, n: nat)
    requires AnyRun(cs, limit) && n < |cs|
    requires forall m :: 0 <= m < n ==> !FailsListing(cs[m], cs[m + 1])
    ensures AllListed(cs[n]) && NoHarmBefore(cs, limit, n)
    decreases n
  {
    hide Step, Harmful, FailsListing;
    if n > 0 {
      AnsweredListingsDoNoHarm(cs, limit, n - 1);
      assert Step(cs[n - 1], cs[n - 1 + 1], limit) && !FailsListing(cs[n - 1], cs[n - 1 + 1]);
      AnsweredListingStaysListed(cs[n - 1], cs[n], limit);
    }
  }

  // ---------------------------------------------------------------- one job per claim

  predicate SameClaim(a: Job, b: Job) {
    a.pvcName.Some? && a.pvcUid.Some? && a.pvcName == b.pvcName && a.pvcUid == b.pvcUid
  }

  predicate Exclusive(jobs: map<Key, Job>) {
    forall k1, k2 :: k1 in jobs && k2 in jobs && k1 != k2 && k1.0 == k2.0 && jobs[k1].driver == jobs[k2].driver == KOPIA_BACKUP ==>
                       !SameClaim(jobs[k1], jobs[k2])
  }

  /** Past the claim check no backup job of the claim is there, as long as the caller has both labels. */
  predicate ClaimIsFree(c: Cluster, caller: Caller) {
    && (caller.order.driver == KOPIA_BACKUP && (caller.pc.ListNamespaces? || caller.pc.Counting? || caller.pc.Creating?) ==>
          forall k :: k in c.jobs && k.0 == caller.order.key.0 && c.jobs[k].driver == KOPIA_BACKUP ==>
                        !SameClaim(NewJob(caller.order), c.jobs[k]))
    && (!caller.pc.Out? ==> caller.order.driver in DRIVERS)
  }

  predicate ClaimInv(c: Cluster) {
    Exclusive(c.jobs) && LocksHeld(c) && forall i :: 0 <= i < |c.callers| ==> ClaimIsFree(c, c.callers[i])
  }

  lemma OneClaimantMoves(c: Cluster, c': Cluster, i: nat, caller: Caller)
    requires ClaimInv(c) && i < |c.callers|
    requires c' == c.(callers := c.callers[i := caller]) && ClaimIsFree(c', caller)
    requires !caller.pc.Out? ==>
               (caller.order == c.callers[i].order && !c.callers[i].pc.Out?) || LockFree(c, caller.order.driver)
    ensures ClaimInv(c')
  {
    hide Exclusive, SameClaim;
    forall j | 0 <= j < |c'.callers| ensures ClaimIsFree(c', c'.callers[j]) {
      assert j != i ==> c'.callers[j] == c.callers[j] && ClaimIsFree(c, c.callers[j]);
    }
  }

  lemma ClaimCallerMoves(c: Cluster, c': Cluster, i: nat, limit: string -> int)
    requires ClaimInv(c) && (ListFailed(c, c', i) || (CallerStep(c, c', limit, i) && !Create(c, c', i)))
    ensures ClaimInv(c')
  {
    hide Active, ActiveIn, Exclusive, LockFree, LocksHeld;
    assert ClaimIsFree(c, c.callers[i]);
    OneClaimantMoves(c, c', i, c'.callers[i]);
  }

  lemma ClaimCreate(c: Cluster, c': Cluster, i: nat)
    requires ClaimInv(c) && Create(c, c', i)
    ensures ClaimInv(c')
  {
    assert ClaimIsFree(c, c.callers[i]);
    forall j | 0 <= j < |c'.callers| ensures ClaimIsFree(c', c'.callers[j]) {
      if j != i {
        assert c'.callers[j] == c.callers[j] && ClaimIsFree(c, c.callers[j]);
      }
    }
  }

  lemma ClaimEnvironment(c: Cluster, c': Cluster)
    requires ClaimInv(c) && (Crash(c, c') || JobsChange(c, c') || NamespacesChange(c, c'))
    ensures ClaimInv(c')
  {
    forall j | 0 <= j < |c'.callers| ensures ClaimIsFree(c', c'.callers[j]) {
      assert ClaimIsFree(c, c.callers[j]);
    }
  }

  lemma ClaimStep(c: Cluster, c': Cluster, limit: string -> int)
    requires ClaimInv(c) && Step(c, c', limit)
    ensures ClaimInv(c')
  {
    hide ClaimInv, Crash, JobsChange, NamespacesChange, CallerStep, Create, ListFailed;
    if exists i: nat :: CallerStep(c, c', limit, i) || ListFailed(c, c', i) {
      var i: nat :| CallerStep(c, c', limit, i) || ListFailed(c, c', i);
      if Create(c, c', i) {
        ClaimCreate(c, c', i);
      } else {
        ClaimCallerMoves(c, c', i, limit);
      }
    } else {
      ClaimEnvironment(c, c');
    }
  }

  /** In every run, failed listings included, no two kopia backup jobs of a namespace carry the same claim labels. */
  lemma {:induction false} OneBackupPerClaim(cs: seq<Cluster>, limit: string -> int, n: nat)
    requires AnyRun(cs, limit) && n < |cs|
    ensures ClaimInv(cs[n])
    ensures Exclusive(cs[n].jobs)
    decreases n
  {
    if n == 0 {
      assert Exclusive(cs[0].jobs);
    } else {
      hide Start, Step, Exclusive, ClaimIsFree, LocksHeld;
      OneBackupPerClaim(cs, limit, n - 1);
      assert Step(cs[n - 1], cs[n - 1 + 1], limit);
      ClaimStep(cs[n - 1], cs[n], limit);
    }
  }

  /** A caller without one of the labels marks its job so that no later check for its claim ever finds it. */
  lemma UnlabelledJobIsInvisible(jobs: map<Key, Job>, o: Order, later: Order)
    requires o.pvcName.None? || o.pvcUid.None?
    requires !ClaimBusy(jobs, later) && o.key !in jobs
    ensures !ClaimBusy(jobs[o.key := NewJob(o)], later)
  {
  }

  lemma StepKeepsCallers(c: Cluster, c': Cluster, limit: string -> int)
    requires Step(c, c', limit)
    ensures |c'.callers| == |c.callers|
  {
    hide ActiveIn, ClaimBusy, LockFree;
  }

  // ---------------------------------------------------------------- one job per export

  /** A caller that comes back for an export whose job exists leaves every job and slot as it is, and if it succeeds
      it gets the id it got before. */
  lemma ReentryChangesNothing(c: Cluster, c': Cluster, limit: string -> int, i: nat)
    requires CallerStep(c, c', limit, i) && !Acquire(c, c', i) && c.callers[i].order.key in c.jobs
    ensures c'.jobs == c.jobs && c'.callers[i].order == c.callers[i].order
    ensures forall id :: c'.callers[i].pc == Returning(Started(id)) && !c.callers[i].pc.Returning? ==>
                           ParsesToKey(id, c.callers[i].order.key)
  {
    hide ActiveIn, Active, ClaimBusy;
    if c'.callers[i].pc.Returning? && c'.callers[i].pc.outcome.Started? {
      StartedJobId(c, c', limit, i);
    }
    hide ParsesToKey;
  }

  predicate ParsesToKey(id: string, key: Key) {
    id == NamespacedName(key.0, key.1) && ('/' !in key.0 ==> ParseJobID(id) == Ok(key))
  }

  /** Success always means that the ordered job is there, and its id is that of the order, whichever way it was found. */
  lemma StartedJobId(c: Cluster, c': Cluster, limit: string -> int, i: nat)
    requires CallerStep(c, c', limit, i) && c'.callers[i].pc.Returning? && c'.callers[i].pc.outcome.Started?
    ensures c.callers[i].order.key in c'.jobs
    ensures ParsesToKey(c'.callers[i].pc.outcome.id, c.callers[i].order.key)
  {
    var key := c.callers[i].order.key;
    if '/' !in key.0 {
      ParseInvertsNamespacedName(key.0, key.1);
    }
    hide ActiveIn, Active, ClaimBusy, ParseJobID, NamespacedName;
  }
}
