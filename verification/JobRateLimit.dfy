/** Counting the jobs that occupy a slot. */
module JobRateLimit {
  import opened Wrappers
  import D = Drivers

  /** A job no longer occupies a slot once it carries a true Complete condition; a failed job still does. */
  predicate IsComplete(job: D.Job) {
    D.HasCondition(job, D.JOB_COMPLETE)
  }

  function CountActive(items: seq<D.Job>): nat {
    if items == [] then 0
    else CountActive(items[..|items| - 1]) + (if IsComplete(items[|items| - 1]) then 0 else 1)
  }

  /** The listings of all namespaces, one after the other; the first one that fails ends the count. */
  function CountAll(listings: seq<Result<seq<D.Job>>>): Result<nat> {
    if listings == [] then Ok(0)
    else
      match CountAll(listings[..|listings| - 1])
      case Err(msg) => Err(msg)
      case Ok(count) =>
        match listings[|listings| - 1]
        case Err(msg) => Err("failed to get job list: " + msg)
        case Ok(items) => Ok(count + CountActive(items))
  }

  /** A count is returned exactly when every listing was answered. */
  lemma {:induction false} CountNeedsEveryListing(listings: seq<Result<seq<D.Job>>>)
    ensures CountAll(listings).Ok? <==> forall l :: l in listings ==> l.Ok?
  {
    if listings != [] {
      var front, last := listings[..|listings| - 1], listings[|listings| - 1];
      CountNeedsEveryListing(front);
      assert listings == front + [last];
    }
  }

  lemma {:induction false} FailedPrefixFails(listings: seq<Result<seq<D.Job>>>, n: nat)
    requires n <= |listings| && CountAll(listings[..n]).Err?
    ensures CountAll(listings) == CountAll(listings[..n])
    decreases |listings| - n
  {
    if n == |listings| {
      assert listings[..n] == listings;
    } else {
      assert listings[..n + 1][..n] == listings[..n];
      FailedPrefixFails(listings, n + 1);
    }
  }

  /** `getJobCountByType`: starts from all listed jobs and takes the complete ones off, each at its first matching
      condition. */
  method GetJobCountByType(listings: seq<Result<seq<D.Job>>>) returns (r: Result<int>)
    ensures r.Ok? <==> CountAll(listings).Ok?
    ensures r.Ok? ==> r.value == CountAll(listings).value
  {
    var count := 0;
    for k := 0 to |listings|
      invariant CountAll(listings[..k]) == Ok(count)
    {
      assert listings[..k + 1][..k] == listings[..k];
      match listings[k] {
        case Err(msg) =>
          FailedPrefixFails(listings, k + 1);
          return Err("failed to get job list: " + msg);
        case Ok(items) =>
          var jobCount := |items|;
          for i := 0 to |items|
            invariant jobCount == |items| - i + CountActive(items[..i])
          {
            assert items[..i + 1][..i] == items[..i];
            var conditions := items[i].conditions;
            var j := 0;
            while j < |conditions|
              invariant 0 <= j <= |conditions|
              invariant forall c :: c in conditions[..j] ==> !(c.kind == D.JOB_COMPLETE && c.isTrue)
              invariant jobCount == |items| - i + CountActive(items[..i])
            {
              if conditions[j].kind == D.JOB_COMPLETE && conditions[j].isTrue {
                jobCount := jobCount - 1;
                assert conditions[j] in conditions;
                break;
              }
              j := j + 1;
            }
            assert j == |conditions| ==> conditions[..j] == conditions;
          }
          assert items[..|items|] == items;
          count := count + jobCount;
      }
    }
    assert listings[..|listings|] == listings;
    return Ok(count);
  }
}
