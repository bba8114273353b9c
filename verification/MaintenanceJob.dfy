/** `_run_maintenance_job` of src/container_manager.py: the row that spaces out the runs of one
    maintenance job over all worker processes. */
module MaintenanceJob {
  import opened Support

  // Starts follow each other at least n apart, whichever process's clock gave them.
  ghost predicate Spaced(starts: seq<int>, n: int) {
    forall i | 0 < i < |starts| :: starts[i] >= starts[i - 1] + n
  }

  lemma {:induction false} SpacedSum(starts: seq<int>, n: nat, i: nat, j: nat)
    requires Spaced(starts, n) && i <= j < |starts|
    ensures starts[j] >= starts[i] + (j - i) * n
  {
    if i < j {
      SpacedSum(starts, n, i, j - 1);
      assert (j - i) * n == (j - 1 - i) * n + n;
    }
  }

  class Job {
    var lastStarted: Option<int>  // None until the row exists
    ghost var starts: seq<int>

    ghost predicate Valid(n: int)
      reads this
    {
      && Spaced(starts, n)
      && lastStarted == if starts == [] then None else Some(starts[|starts| - 1])
    }

    constructor ()
      ensures Valid(0) && starts == []
    {
      lastStarted, starts := None, [];
    }

    /** One tick, with the lock taken if `acquired`: the start is recorded before the operation
        runs, so a failing operation still counts as a start. */
    method Run(acquired: bool, interval: int, now: int, ghost n: int) returns (started: bool, done: bool)
      requires Valid(n) && n <= interval
      modifies this
      ensures Valid(n)
      ensures started <==> acquired && (old(lastStarted).Some? ==> now >= old(lastStarted).value + interval)
      ensures starts == old(starts) + if started then [now] else []
      ensures done ==> started
    {
      started, done := false, false;
      if !acquired {
        return;
      }
      if lastStarted.Some? && lastStarted.value > now - interval {
        return;
      }
      lastStarted := Some(now);
      starts := starts + [now];
      started := true;
      done := *;
    }
  }
}
