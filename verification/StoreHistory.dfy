/** Whole runs of the artifact directory: sequences of disk states in which each
    state follows from the one before by an allowed write, whoever issued it. */
module StoreHistory {
  import opened Support
  import opened StoreDisk

  ghost predicate Step(a: Disk, b: Disk) {
    exists w :: Allowed(a, w) && b == Apply(a, w)
  }

  ghost predicate StepAt(past: seq<Disk>, i: nat)
    requires i < |past| - 1
  {
    Step(past[i], past[i + 1])
  }

  ghost predicate Linked(past: seq<Disk>) {
    && past != []
    && past[0] == Empty(past[0].config)
    && forall i: nat | i < |past| - 1 :: StepAt(past, i)
  }

  lemma {:induction false} InvThroughout(past: seq<Disk>, i: nat)
    requires Linked(past) && i < |past|
    ensures Inv(past[i])
  {
    if i == 0 {
      EmptyDisk(past[0].config);
    } else {
      InvThroughout(past, i - 1);
      StepKeepsInv(past, i);
    }
  }

  lemma {:induction false} StepKeepsInv(past: seq<Disk>, i: nat)
    requires Linked(past) && 0 < i < |past| && Inv(past[i - 1])
    ensures Inv(past[i])
  {
    var w := TakenStep(past, i - 1);
    WriteKeepsInv(past[i - 1], w);
  }

  // The write between two consecutive states.
  lemma {:induction false} TakenStep(past: seq<Disk>, i: nat) returns (w: Write)
    requires Linked(past) && i < |past| - 1
    ensures Allowed(past[i], w) && past[i + 1] == Apply(past[i], w)
  {
    assert StepAt(past, i);
    w :| Allowed(past[i], w) && past[i + 1] == Apply(past[i], w);
  }

  lemma {:induction false} Extend(past: seq<Disk>, d: Disk, w: Write, e: Disk)
    requires Linked(past) && d == past[|past| - 1] && Allowed(d, w) && e == Apply(d, w)
    ensures Linked(past + [e])
  {
    assert Step(d, e);
    ExtendByStep(past, e);
  }

  lemma {:induction false} ExtendByStep(past: seq<Disk>, e: Disk)
    requires Linked(past) && Step(past[|past| - 1], e)
    ensures Linked(past + [e])
  {
    var longer := past + [e];
    forall i: nat | i < |longer| - 1
      ensures StepAt(longer, i)
    {
      if i < |past| - 1 {
        assert StepAt(past, i);
      }
    }
  }

  // ----- the life of one generation

  ghost predicate Holds(d: Disk, k: Key, g: Generation) {
    k in d.jobs && d.jobs[k].generation == Some(g)
  }

  // 0 not drawn, 1 running, 2 ready, 3 over.
  ghost function Phase(d: Disk, k: Key, g: Generation): nat {
    if g !in d.drawn then 0
    else if Holds(d, k, g) && d.jobs[k].state == Running then 1
    else if Holds(d, k, g) && d.jobs[k].state == Ready then 2
    else 3
  }

  // The same document, except that a background job may have become a foreground one.
  ghost predicate OnlyPromoted(a: Job, b: Job) {
    b == a.(demand := b.demand) && (a.demand.Foreground? ==> b.demand == a.demand)
  }

  // What the passage of time may do to generation g of job k.
  ghost predicate Later(a: Disk, b: Disk, k: Key, g: Generation) {
    && Phase(a, k, g) <= Phase(b, k, g)
    && (Phase(a, k, g) == 1 && Phase(b, k, g) == 1 ==> OnlyPromoted(a.jobs[k], b.jobs[k]))
    && (Phase(a, k, g) == 2 && Phase(b, k, g) == 2 ==> b.jobs[k] == a.jobs[k])
  }

  lemma {:induction false} WriteAdvancesPhase(d: Disk, w: Write, k: Key, g: Generation)
    requires Provenance(d) && Allowed(d, w)
    ensures Later(d, Apply(d, w), k, g)
  {
    if WritesJob(w) && w.key == k && k in d.jobs {
      var was := d.jobs[k];
      var job := Written(d, w);
      assert job.state == Running ==> w.Claim? || (w.Promote? && was.state == Running && OnlyPromoted(was, job));
      assert job.state == Ready ==> w.Publish?;
    }
  }

  lemma {:induction false} StepIsLater(past: seq<Disk>, m: nat, k: Key, g: Generation)
    requires Linked(past) && m < |past| - 1
    ensures Later(past[m], past[m + 1], k, g)
  {
    InvThroughout(past, m);
    var w := TakenStep(past, m);
    WriteAdvancesPhase(past[m], w, k, g);
  }

  lemma {:induction false} PhaseAdvances(past: seq<Disk>, i: nat, j: nat, k: Key, g: Generation)
    requires Linked(past) && i <= j < |past|
    ensures Later(past[i], past[j], k, g)
  {
    forall m | 0 <= m < |past| - 1
      ensures Later(past[m], past[m + 1], k, g)
    {
      StepIsLater(past, m, k, g);
    }
    Chain(past, (a, b) => Later(a, b, k, g), i, j);
  }

  ghost predicate ReadyAs(d: Disk, k: Key, g: Generation) {
    Holds(d, k, g) && d.jobs[k].state == Ready
  }

  ghost predicate RunningAs(d: Disk, k: Key, g: Generation) {
    Holds(d, k, g) && d.jobs[k].state == Running
  }

  lemma {:induction false} HeldIsDrawn(past: seq<Disk>, i: nat, k: Key, g: Generation)
    requires Linked(past) && i < |past| && Holds(past[i], k, g)
    ensures g in past[i].drawn
  {
    InvThroughout(past, i);
  }

  /** A job document that names generation g as ready never comes back once it is gone:
      between two moments at which it is on disk it was there all the time, unchanged. */
  lemma {:induction false} ReadyNeverRecurs(past: seq<Disk>, i: nat, j: nat, l: nat, k: Key, g: Generation)
    requires Linked(past) && i <= j <= l < |past|
    requires ReadyAs(past[i], k, g) && ReadyAs(past[l], k, g)
    ensures ReadyAs(past[j], k, g) && past[j].jobs[k] == past[i].jobs[k]
  {
    HeldIsDrawn(past, i, k, g);
    HeldIsDrawn(past, l, k, g);
    PhaseAdvances(past, i, j, k, g);
    PhaseAdvances(past, j, l, k, g);
  }

  /** Fencing: while the document on disk is running under the generation of a claim, nothing
      but a promotion has touched it since that claim: it is the same up to its demand. */
  lemma {:induction false} ClaimUndisturbed(past: seq<Disk>, i: nat, j: nat, l: nat, k: Key, g: Generation)
    requires Linked(past) && i <= j <= l < |past|
    requires RunningAs(past[i], k, g) && RunningAs(past[l], k, g)
    ensures RunningAs(past[j], k, g) && OnlyPromoted(past[i].jobs[k], past[j].jobs[k])
  {
    HeldIsDrawn(past, i, k, g);
    HeldIsDrawn(past, l, k, g);
    PhaseAdvances(past, i, j, k, g);
    PhaseAdvances(past, j, l, k, g);
  }

  ghost predicate BecomesReady(past: seq<Disk>, i: nat, k: Key, g: Generation) {
    i + 1 < |past| && !ReadyAs(past[i], k, g) && ReadyAs(past[i + 1], k, g)
  }

  /** Each generation becomes ready at most once in a whole run. */
  lemma {:induction false} ReadyAtMostOnce(past: seq<Disk>, i: nat, j: nat, k: Key, g: Generation)
    requires Linked(past) && BecomesReady(past, i, k, g) && BecomesReady(past, j, k, g)
    ensures i == j
  {
    if i < j {
      ReadyNeverRecurs(past, i + 1, j, j + 1, k, g);
    } else if j < i {
      ReadyNeverRecurs(past, j + 1, i, i + 1, k, g);
    }
  }

  /** The two document reads of the lock-free path pin the file opened between them:
      it was installed by the generation the document names. */
  lemma {:induction false} OpenedFileBelongs(past: seq<Disk>, i: nat, j: nat, l: nat, k: Key, g: Generation)
    requires Linked(past) && i <= j <= l < |past|
    requires ReadyAs(past[i], k, g)
    requires k in past[l].jobs && past[l].jobs[k] == past[i].jobs[k]
    requires k in past[j].artifacts
    ensures past[j].artifacts[k].generation == g
    ensures ReadyAs(past[j], k, g) && past[j].jobs[k] == past[i].jobs[k]
  {
    ReadyNeverRecurs(past, i, j, l, k, g);
    InvThroughout(past, j);
  }

  // ----- request orders

  ghost predicate Ordered(d: Disk, k: Key, order: nat) {
    k in d.jobs && d.jobs[k].demand == Foreground(order)
  }

  // The step from a to b gives job k the foreground order `order`.
  ghost predicate Assigns(a: Disk, b: Disk, k: Key, order: nat) {
    Ordered(b, k, order) && !Ordered(a, k, order)
  }

  lemma {:induction false} WriteIssues(d: Disk, w: Write, k: Key, order: nat)
    requires OrdersDistinct(d) && Allowed(d, w)
    ensures d.issued <= Apply(d, w).issued
    ensures Assigns(d, Apply(d, w), k, order) ==> d.issued < order
  {
    if WritesJob(w) && w.key == k {
      var job := Written(d, w);
      assert !w.Enqueue? && !w.Promote? ==> job.demand == d.jobs[k].demand;
    }
  }

  lemma {:induction false} StepIssues(past: seq<Disk>, m: nat, k: Key, order: nat)
    requires Linked(past) && m < |past| - 1
    ensures past[m].issued <= past[m + 1].issued
    ensures Assigns(past[m], past[m + 1], k, order) ==> past[m].issued < order
  {
    InvThroughout(past, m);
    var w := TakenStep(past, m);
    WriteIssues(past[m], w, k, order);
  }

  lemma {:induction false} IssuedGrows(past: seq<Disk>, i: nat, j: nat, k: Key)
    requires Linked(past) && i <= j < |past|
    ensures past[i].issued <= past[j].issued
  {
    forall m | 0 <= m < |past| - 1
      ensures past[m].issued <= past[m + 1].issued
    {
      StepIssues(past, m, k, 0);
    }
    Chain(past, (a: Disk, b: Disk) => a.issued <= b.issued, i, j);
  }

  /** A foreground request or promotion gets an order greater than every order that any
      job held at any earlier moment of the run. */
  lemma {:induction false} OrdersIncrease(past: seq<Disk>, i: nat, j: nat, k: Key, order: nat, other: Key, earlier: nat)
    requires Linked(past) && i <= j < |past| - 1
    requires Assigns(past[j], past[j + 1], k, order)
    requires Ordered(past[i], other, earlier)
    ensures earlier < order
  {
    InvThroughout(past, i);
    IssuedGrows(past, i, j, k);
    StepIssues(past, j, k, order);
  }

  // ----- the recorded demand order

  lemma {:induction false} StepKeepsDemand(past: seq<Disk>, m: nat)
    requires Linked(past) && m < |past| - 1
    ensures past[m].demand <= past[m + 1].demand
  {
    var w := TakenStep(past, m);
  }

  /** If the recorded order has grown between two moments, some write in between drew it. */
  lemma {:induction false} DrawnBetween(past: seq<Disk>, i: nat, j: nat) returns (m: nat)
    requires Linked(past) && i <= j < |past| && past[i].demand < past[j].demand
    ensures i <= m < j && past[i].demand <= past[m].demand < past[m + 1].demand <= past[j].demand
    decreases j
  {
    StepKeepsDemand(past, j - 1);
    if past[i].demand < past[j - 1].demand {
      m := DrawnBetween(past, i, j - 1);
    } else {
      DemandGrows(past, i, j - 1);
      m := j - 1;
    }
  }

  lemma {:induction false} DemandGrows(past: seq<Disk>, i: nat, j: nat)
    requires Linked(past) && i <= j < |past|
    ensures past[i].demand <= past[j].demand
    decreases j
  {
    if i < j {
      DemandGrows(past, i, j - 1);
      StepKeepsDemand(past, j - 1);
    }
  }

  // ----- termination of an enqueued job

  ghost predicate Waiting(d: Disk, k: Key) {
    k in d.jobs && Pending(d.jobs[k])
  }

  ghost predicate RunningNow(d: Disk, k: Key) {
    k in d.jobs && d.jobs[k].state == Running
  }

  ghost function Attempts(d: Disk, k: Key): nat {
    if k in d.jobs then d.jobs[k].attempts else 0
  }

  // k is queued in a and running in b.
  ghost predicate Starts(a: Disk, b: Disk, k: Key) {
    k in a.jobs && a.jobs[k].state == Queued && k in b.jobs && b.jobs[k].state == Running
  }

  ghost function StartsIn(run: seq<Disk>, k: Key): nat
  {
    if |run| < 2 then 0
    else StartsIn(run[..|run| - 1], k) + (if Starts(run[|run| - 2], run[|run| - 1], k) then 1 else 0)
  }

  lemma {:induction false} WriteCountsAttempts(d: Disk, w: Write, k: Key)
    requires Allowed(d, w) && Waiting(d, k) && Waiting(Apply(d, w), k)
    ensures Attempts(Apply(d, w), k) == Attempts(d, k) + if Starts(d, Apply(d, w), k) then 1 else 0
  {
  }

  lemma {:induction false} StepCountsAttempts(past: seq<Disk>, m: nat, k: Key)
    requires Linked(past) && m < |past| - 1 && Waiting(past[m], k) && Waiting(past[m + 1], k)
    ensures Attempts(past[m + 1], k) == Attempts(past[m], k) + if Starts(past[m], past[m + 1], k) then 1 else 0
  {
    var w := TakenStep(past, m);
    WriteCountsAttempts(past[m], w, k);
  }

  lemma {:induction false} AttemptsCountStarts(run: seq<Disk>, k: Key)
    requires run != []
    requires forall m | 0 <= m < |run| - 1 ::
               Attempts(run[m + 1], k) == Attempts(run[m], k) + if Starts(run[m], run[m + 1], k) then 1 else 0
    ensures Attempts(run[|run| - 1], k) == Attempts(run[0], k) + StartsIn(run, k)
  {
    var n := |run| - 1;
    if n > 0 {
      assert run[n - 1 + 1] == run[n];
      AttemptsCountStarts(run[..n], k);
    }
  }

  lemma {:induction false} StartsAreAttempts(past: seq<Disk>, i: nat, j: nat, k: Key)
    requires Linked(past) && i <= j < |past|
    requires forall m | i <= m <= j :: Waiting(past[m], k)
    ensures Attempts(past[j], k) == Attempts(past[i], k) + StartsIn(past[i..j + 1], k)
  {
    var run := past[i..j + 1];
    forall m | 0 <= m < |run| - 1
      ensures Attempts(run[m + 1], k) == Attempts(run[m], k) + if Starts(run[m], run[m + 1], k) then 1 else 0
    {
      StepCountsAttempts(past, i + m, k);
    }
    AttemptsCountStarts(run, k);
  }

  lemma {:induction false} AttemptsInRange(past: seq<Disk>, m: nat, k: Key)
    requires Linked(past) && m < |past| && Waiting(past[m], k)
    ensures Attempts(past[m], k) <= 3 && (Attempts(past[m], k) == 3 ==> RunningNow(past[m], k))
  {
    InvThroughout(past, m);
  }

  /** As long as a job stays in the queue it starts at most three times, and once it has
      started three times the only ways out are ready, failed, or removal. */
  lemma {:induction false} AtMostThreeStarts(past: seq<Disk>, i: nat, j: nat, k: Key)
    requires Linked(past) && i <= j < |past|
    requires forall m | i <= m <= j :: Waiting(past[m], k)
    ensures StartsIn(past[i..j + 1], k) <= 3
    ensures StartsIn(past[i..j + 1], k) == 3 ==> RunningNow(past[j], k)
    ensures StartsIn(past[i..j + 1], k) == 3 && j < |past| - 1 && k in past[j + 1].jobs ==>
              past[j + 1].jobs[k].state != Queued
  {
    StartsAreAttempts(past, i, j, k);
    AttemptsInRange(past, j, k);
    if j < |past| - 1 && k in past[j + 1].jobs && past[j + 1].jobs[k].state == Queued {
      AttemptsInRange(past, j + 1, k);
      StepCountsAttempts(past, j, k);
    }
  }
}
