/** Nobody is turned away without cause: what a refusal for lack of slots means, and when a call gets its job. */
module Slots {
  import opened Wrappers
  import opened KdmpApi
  import opened Naming
  import opened Admission

  // ---------------------------------------------------------------- a refusal means that the slots were taken

  /** The occupied slots, of those in `was`, in namespaces that have been counted. */
  function CountedOf(was: set<Key>, todo: seq<string>): set<Key> {
    set k | k in was && k.0 !in todo
  }

  /** What has been counted was occupied at the listing, and has been counted once. */
  predicate Grounded(was: set<Key>, pc: Pc) {
    pc.Counting? && pc.listed && Distinct(pc.todo) && pc.count <= |CountedOf(was, pc.todo)|
  }

  /** Locks are exclusive, and their holders are callers of these drivers. */
  predicate LockInv(c: Cluster) {
    LocksHeld(c) && forall i :: 0 <= i < |c.callers| && !c.callers[i].pc.Out? ==> c.callers[i].order.driver in DRIVERS
  }

  lemma RunKeepsLocks(cs: seq<Cluster>, limit: string -> int, n: nat)
    requires AnyRun(cs, limit) && n < |cs|
    ensures LockInv(cs[n])
  {
    OneBackupPerClaim(cs, limit, n);
    hide AnyRun, Exclusive;
    forall i | 0 <= i < |cs[n].callers| && !cs[n].callers[i].pc.Out? ensures cs[n].callers[i].order.driver in DRIVERS {
      assert ClaimIsFree(cs[n], cs[n].callers[i]);
    }
  }

  lemma CallerChangesOwnSlots(c: Cluster, c': Cluster, limit: string -> int, j: nat, driver: string)
    requires CallerStep(c, c', limit, j) || ListFailed(c, c', j)
    requires Create(c, c', j) ==> c.callers[j].order.driver != driver
    ensures Active(c'.jobs, driver) == Active(c.jobs, driver)
  {
    if Create(c, c', j) && c'.jobs != c.jobs {
      NewJobTakesOneSlot(c.jobs, c.callers[j].order, driver);
    }
    hide Active, ActiveIn, ClaimBusy, LockFree, NamespacedName;
  }

  lemma EnvironmentFreesSlots(c: Cluster, c': Cluster, driver: string)
    requires Crash(c, c') || JobsChange(c, c') || NamespacesChange(c, c')
    requires driver in DRIVERS
    ensures Active(c'.jobs, driver) <= Active(c.jobs, driver)
  {
  }

  /** While a caller holds its driver's lock and does not create, that driver's occupied slots only become fewer. */
  lemma OthersOnlyFreeSlots(c: Cluster, c': Cluster, limit: string -> int, i: nat)
    requires LockInv(c) && Step(c, c', limit) && i < |c.callers| && i < |c'.callers|
    requires !c.callers[i].pc.Out? && !c.callers[i].pc.Creating?
    ensures Active(c'.jobs, c.callers[i].order.driver) <= Active(c.jobs, c.callers[i].order.driver)
  {
    hide Active, CallerStep, ListFailed, Crash, JobsChange, NamespacesChange;
    var d := c.callers[i].order.driver;
    if exists j: nat :: CallerStep(c, c', limit, j) || ListFailed(c, c', j) {
      var j: nat :| CallerStep(c, c', limit, j) || ListFailed(c, c', j);
      CallerChangesOwnSlots(c, c', limit, j, d);
    } else {
      EnvironmentFreesSlots(c, c', d);
    }
  }

  /** The caller has been counting, for one order, since its listing was answered at `l`. */
  ghost predicate CountingSince(cs: seq<Cluster>, l: nat, n: nat, i: nat) {
    && l < n < |cs| && i < |cs[n].callers| && i < |cs[l].callers|
    && ListAnswered(cs[l], cs[l + 1], i)
    && cs[n].callers[i].order == cs[l].callers[i].order
    && forall m :: l < m <= n ==> i < |cs[m].callers| && cs[m].callers[i].pc.Counting? && cs[m].callers[i].order == cs[l].callers[i].order
  }

  lemma CountedGrows(was: set<Key>, jobs: map<Key, Job>, driver: string, todo: seq<string>, count: nat)
    requires todo != [] && Distinct(todo) && count <= |CountedOf(was, todo)| && Active(jobs, driver) <= was
    ensures count + |ActiveIn(jobs, driver, todo[0])| <= |CountedOf(was, todo[1..])| && Distinct(todo[1..])
  {
    var before, here, now := CountedOf(was, todo), ActiveIn(jobs, driver, todo[0]), CountedOf(was, todo[1..]);
    assert todo == [todo[0]] + todo[1..];
    assert todo[0] !in todo[1..];
    forall k | k in here ensures k in was && k !in before {
      assert k in Active(jobs, driver);
    }
    assert before * here == {};
    SubsetIsSmaller(before + here, now);
  }

  /** What the counter holds was occupied when the namespaces were listed. */
  lemma {:induction false} CountIsGrounded(cs: seq<Cluster>, limit: string -> int, n: nat, i: nat)
    returns (l: nat)
    requires AnyRun(cs, limit) && n < |cs| && i < |cs[n].callers|
    requires cs[n].callers[i].pc.Counting? && cs[n].callers[i].pc.listed
    ensures l < n && CountingSince(cs, l, n, i)
    ensures var d := cs[l].callers[i].order.driver;
            && Active(cs[n].jobs, d) <= Active(cs[l].jobs, d)
            && Grounded(Active(cs[l].jobs, d), cs[n].callers[i].pc)
    decreases n
  {
    hide Active, AnyRun, Step, LockInv, CountingSince, Grounded, CountsOn, ListAnswered;
    NotCountingAtFirst(cs, limit, i);
    var c, c' := cs[n - 1], cs[n];
    RunHasStep(cs, limit, n - 1);
    StepKeepsCallers(c, c', limit);
    RunKeepsLocks(cs, limit, n - 1);
    CountingStep(c, c', limit, i);
    if c.callers[i].pc.Counting? {
      l := CountIsGrounded(cs, limit, n - 1, i);
      OthersOnlyFreeSlots(c, c', limit, i);
      CountingGoesOn(cs, l, n, i);
      GroundGoesOn(Active(cs[l].jobs, c.callers[i].order.driver), c, c', i);
    } else {
      l := n - 1;
      CountingStarts(cs, n, i);
    }
  }

  lemma RunHasStep(cs: seq<Cluster>, limit: string -> int, m: nat)
    requires AnyRun(cs, limit) && m + 1 < |cs|
    ensures Step(cs[m], cs[m + 1], limit)
  {
    hide Step, Start;
  }

  lemma NotCountingAtFirst(cs: seq<Cluster>, limit: string -> int, i: nat)
    requires AnyRun(cs, limit)
    ensures cs != [] && (i < |cs[0].callers| ==> !cs[0].callers[i].pc.Counting?)
  {
    hide Step;
  }

  lemma CountingGoesOn(cs: seq<Cluster>, l: nat, n: nat, i: nat)
    requires 0 < n < |cs| && CountingSince(cs, l, n - 1, i)
    requires i < |cs[n].callers| && cs[n].callers[i].pc.Counting? && cs[n].callers[i].order == cs[n - 1].callers[i].order
    ensures CountingSince(cs, l, n, i) && cs[l].callers[i].order == cs[n - 1].callers[i].order
  {
    hide ListAnswered;
  }

  lemma CountingStarts(cs: seq<Cluster>, n: nat, i: nat)
    requires 0 < n < |cs| && i < |cs[n].callers| == |cs[n - 1].callers| && ListAnswered(cs[n - 1], cs[n], i)
    requires cs[n].callers[i].pc.Counting? && cs[n].callers[i].order == cs[n - 1].callers[i].order
    ensures CountingSince(cs, n - 1, n, i)
  {
    hide ListAnswered;
  }

  lemma GroundGoesOn(was: set<Key>, c: Cluster, c': Cluster, i: nat)
    requires i < |c.callers| && i < |c'.callers| && c.callers[i].pc.Counting? && c'.callers[i].pc.Counting?
    requires Grounded(was, c.callers[i].pc) && Active(c.jobs, c.callers[i].order.driver) <= was
    requires CountsOn(c, c.callers[i], c'.callers[i].pc)
    ensures Grounded(was, c'.callers[i].pc)
  {
    hide Active, ActiveIn;
    if c'.callers[i].pc != c.callers[i].pc {
      CountedGrows(was, c.jobs, c.callers[i].order.driver, c.callers[i].pc.todo, c.callers[i].pc.count);
    }
  }

  /** The place stays, or the next namespace has been counted. */
  predicate CountsOn(c: Cluster, caller: Caller, pc: Pc)
    requires caller.pc.Counting?
  {
    || pc == caller.pc
    || (&& caller.pc.todo != []
        && pc == caller.pc.(todo := caller.pc.todo[1..],
                            count := caller.pc.count + |ActiveIn(c.jobs, caller.order.driver, caller.pc.todo[0])|))
  }

  /** How a caller comes to be counting after an answered listing. */
  ghost predicate Counts(c: Cluster, c': Cluster, i: nat)
    requires i < |c.callers| && i < |c'.callers|
  {
    var was, now, d := c.callers[i], c'.callers[i], c.callers[i].order.driver;
    && now.order == was.order && !was.pc.Out? && !was.pc.Creating?
    && if was.pc.Counting? then was.pc.listed && CountsOn(c, was, now.pc)
       else ListAnswered(c, c', i) && Active(c'.jobs, d) == Active(c.jobs, d) && Grounded(Active(c.jobs, d), now.pc)
  }

  lemma OwnCountingStep(c: Cluster, c': Cluster, limit: string -> int, i: nat)
    requires CallerStep(c, c', limit, i) || ListFailed(c, c', i)
    requires i < |c.callers| == |c'.callers| && c'.callers[i].pc.Counting? && c'.callers[i].pc.listed
    ensures Counts(c, c', i)
  {
    hide ActiveIn, Active, ClaimBusy, LockFree, NamespacedName;
  }

  lemma CountingStep(c: Cluster, c': Cluster, limit: string -> int, i: nat)
    requires Step(c, c', limit) && i < |c.callers| == |c'.callers|
    requires c'.callers[i].pc.Counting? && c'.callers[i].pc.listed
    ensures Counts(c, c', i)
  {
    if CallerStep(c, c', limit, i) || ListFailed(c, c', i) {
      OwnCountingStep(c, c', limit, i);
    } else {
      PlaceStays(c, c', limit, i);
    }
    hide Step, CallerStep, ListFailed;
  }

  lemma PlaceStays(c: Cluster, c': Cluster, limit: string -> int, i: nat)
    requires Step(c, c', limit) && i < |c.callers| == |c'.callers| && !c'.callers[i].pc.Out?
    requires !CallerStep(c, c', limit, i) && !ListFailed(c, c', i)
    ensures c'.callers[i] == c.callers[i]
  {
    hide CallerStep, ListFailed, Active;
    if j: nat :| CallerStep(c, c', limit, j) || ListFailed(c, c', j) {
      OthersKeepTheirPlace(c, c', limit, i, j);
    }
  }

  lemma OthersKeepTheirPlace(c: Cluster, c': Cluster, limit: string -> int, i: nat, j: nat)
    requires (CallerStep(c, c', limit, j) || ListFailed(c, c', j)) && j != i && i < |c.callers| == |c'.callers|
    ensures c'.callers[i] == c.callers[i]
  {
    hide ActiveIn, Active, ClaimBusy, LockFree, NamespacedName;
  }

  /** In every run: a call whose listing of the namespaces was answered is refused for lack of slots only if its own driver
      had as many incomplete jobs as the limit allows at the moment of that listing. */
  lemma RefusalMeansFull(cs: seq<Cluster>, limit: string -> int, n: nat, i: nat)
    returns (l: nat)
    requires AnyRun(cs, limit) && n + 1 < |cs| && i < |cs[n].callers| && i < |cs[n + 1].callers|
    requires cs[n].callers[i].pc.Counting? && cs[n].callers[i].pc.listed
    requires cs[n + 1].callers[i].pc == Returning(OutOfResources)
    ensures CountingSince(cs, l, n, i)
    ensures var d := cs[n].callers[i].order.driver; |Active(cs[l].jobs, d)| >= limit(d)
  {
    l := CountIsGrounded(cs, limit, n, i);
    assert Step(cs[n], cs[n + 1], limit);
    RefusalNeedsCount(cs[n], cs[n + 1], limit, i);
    var d := cs[n].callers[i].order.driver;
    SubsetIsSmaller(CountedOf(Active(cs[l].jobs, d), []), Active(cs[l].jobs, d));
    hide Step, AnyRun, Active;
  }

  lemma RefusalNeedsCount(c: Cluster, c': Cluster, limit: string -> int, i: nat)
    requires Step(c, c', limit) && i < |c.callers| && i < |c'.callers|
    requires c.callers[i].pc.Counting? && c'.callers[i].pc == Returning(OutOfResources)
    ensures c.callers[i].pc.todo == [] && c.callers[i].pc.count >= limit(c.callers[i].order.driver)
  {
    hide ActiveIn, Active, ClaimBusy, LockFree;
  }

  // ---------------------------------------------------------------- nor is a claim called busy that is not

  /** A label the order does not carry stands for the empty value. */
  function LabelValue(claimLabel: Option<string>): string {
    if claimLabel.Some? then claimLabel.value else ""
  }

  /** A call that is told its claim is being backed up has been told so because of a job of its own driver, in its own
      namespace, that carries just the labels of its claim. */
  lemma AlreadyRunningNamesAJob(c: Cluster, c': Cluster, limit: string -> int, i: nat) returns (k: Key)
    requires Step(c, c', limit) && i < |c.callers| && i < |c'.callers|
    requires !c.callers[i].pc.Returning? && c'.callers[i].pc == Returning(AlreadyRunning)
    ensures var o := c.callers[i].order;
            && c.callers[i].pc.CheckClaim? && k in c.jobs && k.0 == o.key.0 && c.jobs[k].driver == o.driver
            && c.jobs[k].pvcName == Some(LabelValue(o.pvcName)) && c.jobs[k].pvcUid == Some(LabelValue(o.pvcUid))
  {
    hide Step, CallerStep, ListFailed, ClaimBusy;
    StepKeepsCallers(c, c', limit);
    if CallerStep(c, c', limit, i) || ListFailed(c, c', i) {
      BusyIsAnswered(c, c', limit, i);
    } else {
      PlaceStays(c, c', limit, i);
    }
    k := BusyClaimHasJob(c.jobs, c.callers[i].order);
  }

  lemma BusyIsAnswered(c: Cluster, c': Cluster, limit: string -> int, i: nat)
    requires CallerStep(c, c', limit, i) || ListFailed(c, c', i)
    requires i < |c.callers| && i < |c'.callers| && !c.callers[i].pc.Returning? && c'.callers[i].pc == Returning(AlreadyRunning)
    ensures c.callers[i].pc.CheckClaim? && ClaimBusy(c.jobs, c.callers[i].order)
  {
    hide ActiveIn, Active, LockFree, NamespacedName, ClaimBusy;
  }

  lemma BusyClaimHasJob(jobs: map<Key, Job>, o: Order) returns (k: Key)
    requires ClaimBusy(jobs, o)
    ensures k in jobs && k.0 == o.key.0 && jobs[k].driver == o.driver
    ensures jobs[k].pvcName == Some(LabelValue(o.pvcName)) && jobs[k].pvcUid == Some(LabelValue(o.pvcUid))
  {
    k :| k in jobs && k.0 == o.key.0 && Selected(jobs[k], o);
  }

  // ---------------------------------------------------------------- an undisturbed call gets its job

  /** A step of the caller whose requests are answered, for this order. */
  ghost predicate AnsweredStep(c: Cluster, c': Cluster, limit: string -> int, i: nat, o: Order) {
    && i < |c.callers| && (c.callers[i].pc.Out? || c.callers[i].order == o)
    && match c.callers[i].pc
       case Out => c' == c.(callers := c.callers[i := Caller(o, FirstPlace(o))]) && LockFree(c, o.driver)
       case CheckPresent =>
         c' == At(c, i, if o.key in c.jobs then Returning(Started(NamespacedName(o.key.0, o.key.1))) else CheckClaim)
       case CheckClaim => c' == At(c, i, if ClaimBusy(c.jobs, o) then Returning(AlreadyRunning) else ListNamespaces)
       case ListNamespaces => ListAnswered(c, c', i)
       case Counting(_, _, _) => (CountNamespace(c, c', i) && !c'.callers[i].pc.Returning?) || Decide(c, c', i, limit)
       case Creating(_) => Create(c, c', i) && c'.callers[i].pc != Returning(StartFailed)
       case Returning(_) => false
  }

  function FirstPlace(o: Order): Pc {
    if o.driver == KOPIA_BACKUP then CheckPresent else ListNamespaces
  }

  lemma AnsweredStepIsStep(c: Cluster, c': Cluster, limit: string -> int, i: nat, o: Order)
    requires AnsweredStep(c, c', limit, i, o) && o.driver in DRIVERS
    ensures CallerStep(c, c', limit, i)
  {
    hide ActiveIn, ClaimBusy, LockFree, NamespacedName;
  }

  /** A cluster where this order's driver is free, its claim is free, its job is not there, and a slot is left. */
  predicate MayStart(c: Cluster, limit: string -> int, i: nat, o: Order) {
    && i < |c.callers| && c.callers[i].pc.Out? && o.driver in DRIVERS && LockFree(c, o.driver)
    && o.key !in c.jobs && o.key.0 in c.namespaces && (o.driver == KOPIA_BACKUP ==> !ClaimBusy(c.jobs, o))
    && |Active(c.jobs, o.driver)| < limit(o.driver)
  }

  /** Where an undisturbed call can be that began in `c0`. */
  predicate OnTheWay(c0: Cluster, c: Cluster, i: nat, o: Order) {
    && i < |c0.callers| == |c.callers|
    && var pc := c.callers[i].pc;
       var done := Returning(Started(NamespacedName(o.key.0, o.key.1)));
       && c == c0.(jobs := c.jobs, callers := c0.callers[i := c.callers[i]])
       && c.jobs == (if pc == done then c0.jobs[o.key := NewJob(o)] else c0.jobs)
       && (pc.Out? ==> c == c0) && (!pc.Out? ==> c.callers[i].order == o)
       && (pc.Counting? ==> pc.listed && Distinct(pc.todo) && (forall n :: n in pc.todo ==> n in c0.namespaces)
                            && pc.count <= |CountedOf(Active(c0.jobs, o.driver), pc.todo)|)
       && (pc.Creating? ==> pc.listed) && (pc.CheckPresent? || pc.CheckClaim? ==> o.driver == KOPIA_BACKUP)
       && (pc.Returning? ==> pc == done)
  }

  /** How many steps are left at most. */
  function Rest(c: Cluster, i: nat): nat
    requires i < |c.callers|
  {
    match c.callers[i].pc
    case Out => |c.namespaces| + 6
    case CheckPresent => |c.namespaces| + 5
    case CheckClaim => |c.namespaces| + 4
    case ListNamespaces => |c.namespaces| + 3
    case Counting(todo, _, _) => |todo| + 2
    case Creating(_) => 1
    case Returning(_) => 0
  }

  lemma {:induction false} DistinctLength(todo: seq<string>)
    requires Distinct(todo)
    ensures |set n | n in todo| == |todo|
    decreases |todo|
  {
    if todo != [] {
      var front, last := todo[..|todo| - 1], todo[|todo| - 1];
      DistinctLength(front);
      assert todo == front + [last] && last !in front;
      assert (set n | n in todo) == (set n | n in front) + {last};
    }
  }

  lemma {:induction false} ListingExists(namespaces: set<string>) returns (todo: seq<string>)
    ensures Distinct(todo) && (set n | n in todo) == namespaces
    decreases |namespaces|
  {
    if namespaces == {} {
      todo := [];
    } else {
      var last :| last in namespaces;
      var front := ListingExists(namespaces - {last});
      todo := front + [last];
      assert last !in front by {
        assert last in front ==> last in (set n | n in front);
      }
      assert (set n | n in todo) == (set n | n in front) + {last};
    }
  }

  lemma AnsweredListingAdvances(c0: Cluster, c: Cluster, c': Cluster, i: nat, o: Order)
    requires OnTheWay(c0, c, i, o) && ListAnswered(c, c', i)
    ensures OnTheWay(c0, c', i, o) && Rest(c', i) < Rest(c, i)
  {
    var todo: seq<string> :| Distinct(todo) && (set n | n in todo) == c.namespaces && c' == At(c, i, Counting(todo, 0, true));
    DistinctLength(todo);
    forall n | n in todo ensures n in c0.namespaces {
      assert n in (set n | n in todo);
    }
    hide Active;
  }

  lemma AnsweredCountAdvances(c0: Cluster, c: Cluster, c': Cluster, i: nat, o: Order)
    requires OnTheWay(c0, c, i, o) && CountNamespace(c, c', i) && !c'.callers[i].pc.Returning?
    ensures OnTheWay(c0, c', i, o) && Rest(c', i) < Rest(c, i)
  {
    var pc := c.callers[i].pc;
    CountedGrows(Active(c0.jobs, o.driver), c0.jobs, o.driver, pc.todo, pc.count);
    hide Active, ActiveIn, CountedOf;
  }

  /** Fewer slots are counted than there are, so the call is let in. */
  lemma AnsweredDecisionAdvances(c0: Cluster, c: Cluster, c': Cluster, limit: string -> int, i: nat, o: Order)
    requires MayStart(c0, limit, i, o) && OnTheWay(c0, c, i, o) && Decide(c, c', i, limit)
    ensures OnTheWay(c0, c', i, o) && Rest(c', i) < Rest(c, i)
  {
    SubsetIsSmaller(CountedOf(Active(c0.jobs, o.driver), []), Active(c0.jobs, o.driver));
    hide Active, ActiveIn, ClaimBusy, LockFree;
  }

  lemma AnsweredStepAdvances(c0: Cluster, c: Cluster, c': Cluster, limit: string -> int, i: nat, o: Order)
    requires MayStart(c0, limit, i, o) && OnTheWay(c0, c, i, o) && AnsweredStep(c, c', limit, i, o)
    ensures OnTheWay(c0, c', i, o) && Rest(c', i) < Rest(c, i)
  {
    match c.callers[i].pc
    case ListNamespaces => AnsweredListingAdvances(c0, c, c', i, o);
    case Counting(_, _, _) =>
      if Decide(c, c', i, limit) {
        AnsweredDecisionAdvances(c0, c, c', limit, i, o);
      } else {
        AnsweredCountAdvances(c0, c, c', i, o);
      }
    case _ => PlainStepAdvances(c0, c, c', limit, i, o);
  }

  lemma PlainStepAdvances(c0: Cluster, c: Cluster, c': Cluster, limit: string -> int, i: nat, o: Order)
    requires MayStart(c0, limit, i, o) && OnTheWay(c0, c, i, o) && AnsweredStep(c, c', limit, i, o)
    requires !c.callers[i].pc.ListNamespaces? && !c.callers[i].pc.Counting?
    ensures OnTheWay(c0, c', i, o) && Rest(c', i) < Rest(c, i)
  {
    hide Active, ActiveIn, ClaimBusy, LockFree, NamespacedName, CountedOf, ListAnswered, CountNamespace, Decide, Distinct;
  }

  /** Until it is back, the call can always go on. */
  lemma AnsweredStepExists(c0: Cluster, c: Cluster, limit: string -> int, i: nat, o: Order) returns (c': Cluster)
    requires MayStart(c0, limit, i, o) && OnTheWay(c0, c, i, o) && !c.callers[i].pc.Returning?
    ensures AnsweredStep(c, c', limit, i, o)
  {
    hide Active, ActiveIn, ClaimBusy, NamespacedName, CountedOf;
    var pc := c.callers[i].pc;
    match pc
    case Out => c' := c.(callers := c.callers[i := Caller(o, FirstPlace(o))]);
    case CheckPresent => c' := At(c, i, CheckClaim);
    case CheckClaim => c' := At(c, i, ListNamespaces);
    case ListNamespaces =>
      var todo := ListingExists(c.namespaces);
      c' := At(c, i, Counting(todo, 0, true));
      assert ListAnswered(c, c', i);
    case Counting(todo, count, listed) =>
      if todo == [] {
        c' := At(c, i, if count >= limit(o.driver) then Returning(OutOfResources) else Creating(listed));
        assert Decide(c, c', i, limit);
      } else {
        c' := At(c, i, pc.(todo := todo[1..], count := count + |ActiveIn(c.jobs, o.driver, todo[0])|));
        assert CountNamespace(c, c', i);
      }
    case Creating(_) =>
      c' := At(c.(jobs := c.jobs[o.key := NewJob(o)]), i, Returning(Started(NamespacedName(o.key.0, o.key.1))));
      assert Create(c, c', i);
    case Returning(_) =>
  }

  /** The caller goes on alone, and every request is answered. */
  ghost predicate Undisturbed(cs: seq<Cluster>, limit: string -> int, i: nat, o: Order) {
    cs != [] && forall k :: 0 <= k < |cs| - 1 ==> AnsweredStep(cs[k], cs[k + 1], limit, i, o)
  }

  /** From every cluster where the driver's lock, the claim and a slot are free, whatever came before: an undisturbed call
      whose requests are answered ends after finitely many steps, and when it does it has created its job. */
  lemma {:induction false} UndisturbedCallGetsItsJob(cs: seq<Cluster>, limit: string -> int, i: nat, o: Order)
    requires Undisturbed(cs, limit, i, o) && MayStart(cs[0], limit, i, o)
    ensures OnTheWay(cs[0], cs[|cs| - 1], i, o) && |cs| + Rest(cs[|cs| - 1], i) <= |cs[0].namespaces| + 7
    ensures var last := cs[|cs| - 1];
            && (last.callers[i].pc.Returning? ==>
                  && last.callers[i].pc == Returning(Started(NamespacedName(o.key.0, o.key.1)))
                  && last.jobs == cs[0].jobs[o.key := Job(o.driver, o.pvcName, o.pvcUid, false)])
            && (!last.callers[i].pc.Returning? ==> exists c' :: AnsweredStep(last, c', limit, i, o))
    decreases |cs|
  {
    var n := |cs| - 1;
    if n == 0 {
      StartsOnTheWay(cs[0], limit, i, o);
    } else {
      var shorter := cs[..n];
      forall k | 0 <= k < |shorter| - 1 ensures AnsweredStep(shorter[k], shorter[k + 1], limit, i, o) {
        assert shorter[k] == cs[k] && shorter[k + 1] == cs[k + 1];
      }
      UndisturbedCallGetsItsJob(shorter, limit, i, o);
      assert AnsweredStep(cs[n - 1], cs[n - 1 + 1], limit, i, o);
      AnsweredStepAdvances(cs[0], cs[n - 1], cs[n], limit, i, o);
    }
    hide AnsweredStep, MayStart;
    if !cs[n].callers[i].pc.Returning? {
      var c' := AnsweredStepExists(cs[0], cs[n], limit, i, o);
    }
  }

  lemma StartsOnTheWay(c: Cluster, limit: string -> int, i: nat, o: Order)
    requires MayStart(c, limit, i, o)
    ensures OnTheWay(c, c, i, o) && Rest(c, i) == |c.namespaces| + 6
  {
  }
}
