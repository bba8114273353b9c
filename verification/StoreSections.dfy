/** What the locked sections of the store do to the directory as a whole. */
module StoreSections {
  import opened Support
  import opened StoreDisk
  import opened StoreHistory

  function FilesOf(d: Disk, k: Key): set<string> {
    if k in d.artifacts then d.artifacts[k].files else {}
  }

  predicate Complete(d: Disk, k: Key) {
    Names(k.recipe.outputs) <= FilesOf(d, k)
  }

  predicate Reusable(d: Disk, k: Key) {
    && k in d.jobs
    && !(d.jobs[k].state == Failed && d.jobs[k].fault == ConfigurationChanged)
    && (d.jobs[k].state != Ready || Complete(d, k))
  }

  // ----- retirement

  /** Running jobs in `hit` are failed (and flagged when `mark`), all others in it are
      removed together with their files. */
  function AfterRetire(d: Disk, hit: set<Key>, mark: bool, now: int): Disk {
    d.(jobs := map k | k in d.jobs && (k in hit ==> d.jobs[k].state == Running) ::
                 if k in hit then Retired(d.jobs[k], mark, now) else d.jobs[k],
       artifacts := map k | k in d.artifacts && !(k in hit && k in d.jobs && d.jobs[k].state != Running) ::
                 d.artifacts[k])
  }

  function RetiredOne(d: Disk, k: Key, mark: bool, now: int): Disk
    requires k in d.jobs
  {
    if d.jobs[k].state == Running then d.(jobs := d.jobs[k := Retired(d.jobs[k], mark, now)])
    else d.(jobs := d.jobs - {k}, artifacts := d.artifacts - {k})
  }

  lemma {:induction false} RetireNothing(d: Disk, mark: bool, now: int)
    ensures AfterRetire(d, {}, mark, now) == d
  {
  }

  lemma {:induction false} RetireOne(d: Disk, done: set<Key>, k: Key, mark: bool, now: int)
    requires k in d.jobs && k !in done
    ensures var e := AfterRetire(d, done, mark, now);
            k in e.jobs && AfterRetire(d, done + {k}, mark, now) == RetiredOne(e, k, mark, now)
  {
  }

  function ObsoleteKeys(d: Disk, challenge: int, recipe: Option<Recipe>): set<Key> {
    set k | k in d.jobs && k.challenge == challenge && Some(k.recipe) != recipe && d.jobs[k].state != Ready
  }

  function RivalKeys(d: Disk, key: Key): set<Key> {
    set k | k in d.jobs && SameIdentity(k, key) && k != key
  }

  function ForeignKeys(d: Disk, kind: Kind): set<Key> {
    set k | k in d.jobs && k.owner.kind != kind
  }

  /** The owner mode names `kind`: foreign jobs are withdrawn, and a change of mode takes
      a request order of its own. */
  function AfterReconcile(d: Disk, kind: Kind, now: int): Disk {
    var e := AfterRetire(d, ForeignKeys(d, kind), true, now);
    if ModeIs(d, kind) then e else e.(demand := d.demand + 1, modes := d.modes + [kind])
  }

  // ----- collection

  predicate Expired(j: Job, retention: Option<nat>, now: int) {
    retention.Some? && now - j.updated >= retention.value
  }

  // A finished job that collection removes whether or not there is pressure.
  predicate Doomed(d: Disk, k: Key, retention: Option<nat>, now: int)
    requires k in d.jobs
  {
    !Pending(d.jobs[k]) && (Expired(d.jobs[k], retention, now) || !Current(d, k) || d.jobs[k].obsolete)
  }

  function Without(d: Disk, gone: set<Key>): Disk {
    d.(jobs := d.jobs - gone, artifacts := d.artifacts - gone)
  }

  lemma {:induction false} WithoutNothing(d: Disk)
    ensures Without(d, {}) == d
  {
  }

  lemma {:induction false} WithoutOne(d: Disk, gone: set<Key>, k: Key)
    ensures var e := Without(d, gone);
            e.(jobs := e.jobs - {k}, artifacts := e.artifacts - {k}) == Without(d, gone + {k})
  {
    assert d.jobs - gone - {k} == d.jobs - (gone + {k});
    assert d.artifacts - gone - {k} == d.artifacts - (gone + {k});
  }

  ghost function DoomedIn(d: Disk, keys: set<Key>, retention: Option<nat>, now: int): set<Key> {
    set k | k in keys && k in d.jobs && Doomed(d, k, retention, now)
  }

  lemma {:induction false} DoomedGrows(d: Disk, keys: set<Key>, k: Key, retention: Option<nat>, now: int)
    requires k in d.jobs && k !in keys
    ensures |DoomedIn(d, keys + {k}, retention, now)| ==
            |DoomedIn(d, keys, retention, now)| + if Doomed(d, k, retention, now) then 1 else 0
  {
    if Doomed(d, k, retention, now) {
      assert DoomedIn(d, keys + {k}, retention, now) == DoomedIn(d, keys, retention, now) + {k};
    } else {
      assert DoomedIn(d, keys + {k}, retention, now) == DoomedIn(d, keys, retention, now);
    }
  }

  /** What collection promises: it removes whole finished jobs and nothing else; all doomed
      ones; and beyond those only the least recently updated, only under pressure, no more
      than the pressure asks for, and until the catalog has room or only pending jobs. */
  ghost predicate Collected(a: Disk, b: Disk, evict: bool, retention: Option<nat>, now: int) {
    var gone := a.jobs.Keys - b.jobs.Keys;
    && b == Without(a, gone)
    && (forall k | k in gone :: !Pending(a.jobs[k]))
    && (forall k | k in a.jobs && Doomed(a, k, retention, now) :: k in gone)
    && (forall k | k in gone && !Doomed(a, k, retention, now) ::
          && evict && a.config.maxJobs > 0
          && |b.jobs| + |DoomedIn(a, gone, retention, now)| + 1 >= a.config.maxJobs
          && forall j | j in b.jobs && !Pending(b.jobs[j]) :: a.jobs[k].updated <= b.jobs[j].updated)
    && (evict && a.config.maxJobs > 0 && |b.jobs| >= a.config.maxJobs ==>
          forall k | k in b.jobs :: Pending(b.jobs[k]))
  }

  ghost predicate Pressed(d: Disk, gone: set<Key>, evict: bool) {
    evict && d.config.maxJobs > 0 && |d.jobs| - |gone| >= d.config.maxJobs
  }

  ghost predicate OldestFirst(d: Disk, candidates: seq<Key>) {
    && (forall k :: k in candidates <==> k in d.jobs && !Pending(d.jobs[k]))
    && Distinct(candidates)
    && (forall i, j | 0 <= i < j < |candidates| :: d.jobs[candidates[i]].updated <= d.jobs[candidates[j]].updated)
  }

  // The first i candidates have been dealt with, and those in `gone` removed.
  ghost predicate Sweeping(d: Disk, candidates: seq<Key>, i: nat, gone: set<Key>, evict: bool, retention: Option<nat>,
                           now: int)
    requires i <= |candidates| && OldestFirst(d, candidates)
  {
    && (forall k | k in gone :: k in d.jobs && !Pending(d.jobs[k]))
    && (forall p | i <= p < |candidates| :: candidates[p] !in gone)
    && (forall p | 0 <= p < i && Doomed(d, candidates[p], retention, now) :: candidates[p] in gone)
    && (forall p, q | 0 <= p < q < i && candidates[p] !in gone && candidates[q] in gone ::
          Doomed(d, candidates[q], retention, now))
    && (forall p | 0 <= p < i && candidates[p] !in gone :: !Pressed(d, gone, evict))
    && (forall k | k in gone && !Doomed(d, k, retention, now) ::
          evict && d.config.maxJobs > 0
          && |d.jobs| - |gone| + |DoomedIn(d, gone, retention, now)| + 1 >= d.config.maxJobs)
  }

  lemma {:induction false} SweepSkips(d: Disk, candidates: seq<Key>, i: nat, gone: set<Key>, evict: bool,
                                      retention: Option<nat>, now: int)
    requires i < |candidates| && OldestFirst(d, candidates)
    requires Sweeping(d, candidates, i, gone, evict, retention, now)
    requires !Doomed(d, candidates[i], retention, now) && !Pressed(d, gone, evict)
    ensures Sweeping(d, candidates, i + 1, gone, evict, retention, now)
  {
  }

  lemma {:induction false} SweepRemoves(d: Disk, candidates: seq<Key>, i: nat, gone: set<Key>, evict: bool,
                                        retention: Option<nat>, now: int)
    requires i < |candidates| && OldestFirst(d, candidates)
    requires Sweeping(d, candidates, i, gone, evict, retention, now)
    requires Doomed(d, candidates[i], retention, now) || Pressed(d, gone, evict)
    ensures candidates[i] in d.jobs && candidates[i] !in gone
    ensures Sweeping(d, candidates, i + 1, gone + {candidates[i]}, evict, retention, now)
  {
    var k := candidates[i];
    NextCandidate(d, candidates, i, gone, evict, retention, now);
    DoomedGrows(d, gone, k, retention, now);
    SkippedStay(d, candidates, i, gone, evict, retention, now);
  }

  lemma {:induction false} NextCandidate(d: Disk, candidates: seq<Key>, i: nat, gone: set<Key>, evict: bool,
                                         retention: Option<nat>, now: int)
    requires i < |candidates| && OldestFirst(d, candidates)
    requires Sweeping(d, candidates, i, gone, evict, retention, now)
    ensures var k := candidates[i];
            k in d.jobs && !Pending(d.jobs[k]) && k !in gone
  {
    assert candidates[i] in candidates;
  }

  lemma {:induction false} SkippedStay(d: Disk, candidates: seq<Key>, i: nat, gone: set<Key>, evict: bool,
                                       retention: Option<nat>, now: int)
    requires i < |candidates| && OldestFirst(d, candidates)
    requires Sweeping(d, candidates, i, gone, evict, retention, now)
    requires Doomed(d, candidates[i], retention, now) || Pressed(d, gone, evict)
    ensures var more := gone + {candidates[i]};
            forall p, q | 0 <= p < q < i + 1 && candidates[p] !in more && candidates[q] in more ::
              candidates[q] in d.jobs && Doomed(d, candidates[q], retention, now)
  {
  }

  lemma {:induction false} WithoutCount(d: Disk, gone: set<Key>)
    requires gone <= d.jobs.Keys
    ensures |Without(d, gone).jobs| == |d.jobs| - |gone|
    ensures d.jobs.Keys - Without(d, gone).jobs.Keys == gone
  {
    MinusSize(d.jobs, gone);
  }

  lemma {:induction false} OldestWent(d: Disk, candidates: seq<Key>, gone: set<Key>, evict: bool,
                                      retention: Option<nat>, now: int, k: Key, j: Key)
    requires OldestFirst(d, candidates) && Sweeping(d, candidates, |candidates|, gone, evict, retention, now)
    requires k in gone && !Doomed(d, k, retention, now) && j in d.jobs && j !in gone && !Pending(d.jobs[j])
    ensures d.jobs[k].updated <= d.jobs[j].updated
  {
    assert k in candidates && j in candidates;
    var q :| 0 <= q < |candidates| && candidates[q] == k;
    var p :| 0 <= p < |candidates| && candidates[p] == j;
  }

  lemma {:induction false} SweepDone(d: Disk, candidates: seq<Key>, gone: set<Key>, evict: bool,
                                     retention: Option<nat>, now: int)
    requires OldestFirst(d, candidates) && Sweeping(d, candidates, |candidates|, gone, evict, retention, now)
    ensures Collected(d, Without(d, gone), evict, retention, now)
  {
    assert gone <= d.jobs.Keys;
    WithoutCount(d, gone);
    var e := Without(d, gone);
    forall k, j | k in gone && !Doomed(d, k, retention, now) && j in e.jobs && !Pending(e.jobs[j])
      ensures d.jobs[k].updated <= e.jobs[j].updated
    {
      OldestWent(d, candidates, gone, evict, retention, now, k, j);
    }
    forall k | k in e.jobs && evict && d.config.maxJobs > 0 && |e.jobs| >= d.config.maxJobs
      ensures Pending(e.jobs[k])
    {
      assert k !in gone && (k in candidates <==> !Pending(d.jobs[k]));
    }
  }

  // ----- claiming and retrying

  // The sort key of claim and retry_failed; the digest is the order of the hashed keys.
  predicate RankedBefore(digest: Key -> nat, j: Key, a: Job, k: Key, b: Job) {
    match (a.demand, b.demand)
    case (Foreground(m), Foreground(n)) => m < n || (m == n && digest(j) <= digest(k))
    case (Foreground(_), Background) => true
    case (Background, Foreground(_)) => false
    case (Background, Background) => a.created < b.created || (a.created == b.created && digest(j) <= digest(k))
  }

  predicate Ranks(d: Disk, digest: Key -> nat, j: Key, k: Key) {
    j in d.jobs && k in d.jobs && RankedBefore(digest, j, d.jobs[j], k, d.jobs[k])
  }

  predicate Due(d: Disk, k: Key, now: int) {
    k in d.jobs && d.jobs[k].state == Queued && d.jobs[k].nextAttempt <= now
  }

  function DueKeys(d: Disk, now: int): set<Key> {
    set k | k in d.jobs && Due(d, k, now)
  }

  lemma {:induction false} BestRanked(d: Disk, digest: Key -> nat, candidates: seq<Key>, i: nat, now: int,
                                      available: int)
    requires forall k :: k in candidates <==> k in DueKeys(d, now)
    requires forall p, q | 0 <= p < q < |candidates| :: Ranks(d, digest, candidates[p], candidates[q])
    requires i < |candidates| && forall p | 0 <= p < i :: !Eligible(d, candidates[p], now, available)
    ensures forall j | Eligible(d, j, now, available) :: Ranks(d, digest, candidates[i], j)
    ensures forall j | j in candidates[..i] :: Ranks(d, digest, j, candidates[i])
  {
    forall j | Eligible(d, j, now, available)
      ensures Ranks(d, digest, candidates[i], j)
    {
      assert j in DueKeys(d, now) && j in candidates;
      var p :| 0 <= p < |candidates| && candidates[p] == j;
      assert i <= p;
      assert candidates[i] in candidates;
    }
  }

  predicate Eligible(d: Disk, k: Key, now: int, available: int) {
    Due(d, k, now) && Current(d, k) && k.recipe.maxOutputBytes <= available
  }

  /** The best ranked eligible job is the earliest foreground request; a background job is
      best only when no foreground job is eligible, and then it is the oldest one, and among
      the oldest the one with the smallest hash. */
  lemma {:induction false} ForegroundFirst(d: Disk, digest: Key -> nat, k: Key, now: int, available: int)
    requires Inv(d) && Eligible(d, k, now, available)
    requires forall j | Eligible(d, j, now, available) :: Ranks(d, digest, k, j)
    ensures d.jobs[k].demand == Background ==>
              forall j | Eligible(d, j, now, available) ::
                && d.jobs[j].demand == Background
                && d.jobs[k].created <= d.jobs[j].created
                && (d.jobs[k].created == d.jobs[j].created ==> digest(k) <= digest(j))
    ensures d.jobs[k].demand.Foreground? ==>
              forall j | Eligible(d, j, now, available) && j != k && d.jobs[j].demand.Foreground? ::
                d.jobs[k].demand.order < d.jobs[j].demand.order
  {
  }

  /** The due jobs in `seen` whose recipe is no longer configured have been failed. */
  function AfterRefusals(d: Disk, seen: set<Key>, now: int): Disk {
    d.(jobs := map k | k in d.jobs ::
         if k in seen && d.jobs[k].state == Queued && !Current(d, k) then Refused(d.jobs[k], now) else d.jobs[k])
  }

  lemma {:induction false} RefuseOne(d: Disk, seen: set<Key>, k: Key, now: int)
    requires k in d.jobs && k !in seen && d.jobs[k].state == Queued
    ensures var e := AfterRefusals(d, seen, now);
            && k in e.jobs && e.jobs[k] == d.jobs[k] && e.recipes == d.recipes
            && AfterRefusals(d, seen + {k}, now) ==
               if Current(d, k) then e else e.(jobs := e.jobs[k := Refused(d.jobs[k], now)])
  {
    var e := AfterRefusals(d, seen, now);
    if Current(d, k) {
      assert AfterRefusals(d, seen + {k}, now).jobs == e.jobs;
    } else {
      assert AfterRefusals(d, seen + {k}, now).jobs == e.jobs[k := Refused(d.jobs[k], now)];
    }
  }

  lemma {:induction false} RefuseNothing(d: Disk, now: int)
    ensures AfterRefusals(d, {}, now) == d
  {
    assert AfterRefusals(d, {}, now).jobs == d.jobs;
  }

  lemma {:induction false} RefusalsStartNothing(d: Disk, seen: set<Key>, now: int)
    ensures RunningKeys(AfterRefusals(d, seen, now)) == RunningKeys(d)
  {
  }

  function OutputBytes(k: Key): int {
    k.recipe.maxOutputBytes
  }

  // The bytes that the given jobs may come to occupy.
  ghost function Reserved(keys: set<Key>): int {
    SumOver(keys, OutputBytes)
  }

  // What retry_failed considers.
  predicate RetryCandidate(d: Disk, k: Key, kind: Kind) {
    Retriable(d, k) && k.owner.kind == kind && Current(d, k)
  }

  function AfterRequeues(d: Disk, again: set<Key>, now: int): Disk {
    d.(jobs := map k | k in d.jobs :: if k in again then Requeued(d.jobs[k], now) else d.jobs[k])
  }

  function RetryCandidates(d: Disk, kind: Kind): set<Key> {
    set k | k in d.jobs && RetryCandidate(d, k, kind)
  }

  lemma {:induction false} RequeueOne(d: Disk, again: set<Key>, k: Key, now: int)
    requires k in d.jobs && k !in again && !Pending(d.jobs[k])
    ensures var e := AfterRequeues(d, again, now);
            && k in e.jobs && e.jobs[k] == d.jobs[k] && e.recipes == d.recipes
            && AfterRequeues(d, again + {k}, now) == e.(jobs := e.jobs[k := Requeued(d.jobs[k], now)])
            && k !in PendingKeys(e)
            && PendingKeys(AfterRequeues(d, again + {k}, now)) == PendingKeys(e) + {k}
  {
    var e := AfterRequeues(d, again, now);
    assert AfterRequeues(d, again + {k}, now).jobs == e.jobs[k := Requeued(d.jobs[k], now)];
  }

  lemma {:induction false} RequeueNothing(d: Disk, now: int)
    ensures AfterRequeues(d, {}, now) == d
  {
    assert AfterRequeues(d, {}, now).jobs == d.jobs;
  }

  // A failed job finds the queue or the disk too full to be retried.
  predicate NoRoom(d: Disk, k: Key, pending: int, reserved: int, available: int) {
    k in d.jobs && (pending >= PendingLimit(d, d.jobs[k].demand) || reserved + OutputBytes(k) > available)
  }

  // retry_failed has dealt with the first i failed jobs and requeued those in `again`.
  ghost predicate Retrying(d: Disk, kind: Kind, failed: seq<Key>, i: nat, again: set<Key>,
                           pending: int, reserved: int, available: int, now: int)
    requires i <= |failed|
  {
    var e := AfterRequeues(d, again, now);
    && again <= RetryCandidates(d, kind)
    && (forall j | 0 <= j < |failed| :: failed[j] in RetryCandidates(d, kind))
    && (forall j | i <= j < |failed| :: failed[j] !in again)
    && pending == |PendingKeys(e)| && reserved == Reserved(PendingKeys(e))
    && (again != {} ==> reserved <= available)
    && Skippers(d, failed, i, again, pending, reserved, available)
  }

  lemma {:induction false} RetrySkips(d: Disk, kind: Kind, failed: seq<Key>, i: nat, again: set<Key>,
                   pending: int, reserved: int, available: int, now: int)
    requires i < |failed| && Distinct(failed)
    requires Retrying(d, kind, failed, i, again, pending, reserved, available, now)
    requires NoRoom(d, failed[i], pending, reserved, available)
    ensures Retrying(d, kind, failed, i + 1, again, pending, reserved, available, now)
  {
  }

  lemma {:induction false} RetryTakes(d: Disk, kind: Kind, failed: seq<Key>, i: nat, again: set<Key>,
                   pending: int, reserved: int, available: int, now: int)
    requires i < |failed| && Distinct(failed)
    requires Retrying(d, kind, failed, i, again, pending, reserved, available, now)
    requires !NoRoom(d, failed[i], pending, reserved, available)
    ensures Retrying(d, kind, failed, i + 1, again + {failed[i]}, pending + 1, reserved + OutputBytes(failed[i]),
              available, now)
  {
    var k := failed[i];
    RequeueOne(d, again, k, now);
    SumAdd(PendingKeys(AfterRequeues(d, again, now)), k, OutputBytes);
    assert |PendingKeys(AfterRequeues(d, again + {k}, now))| == pending + 1;
    assert Reserved(PendingKeys(AfterRequeues(d, again + {k}, now))) == reserved + OutputBytes(k);
    assert Skippers(d, failed, i, again, pending, reserved, available);
    SkippersGrow(d, failed, i, again, pending, reserved, available);
  }

  // The jobs among the first i that were not requeued found no room.
  ghost predicate Skippers(d: Disk, failed: seq<Key>, i: nat, again: set<Key>, pending: int, reserved: int,
                           available: int)
    requires i <= |failed|
  {
    forall j | 0 <= j < i && failed[j] !in again :: NoRoom(d, failed[j], pending, reserved, available)
  }

  lemma {:induction false} SkippersGrow(d: Disk, failed: seq<Key>, i: nat, again: set<Key>, pending: int,
                                        reserved: int, available: int)
    requires i < |failed| && Skippers(d, failed, i, again, pending, reserved, available)
    ensures Skippers(d, failed, i + 1, again + {failed[i]}, pending + 1, reserved + OutputBytes(failed[i]), available)
  {
  }

  predicate Listed(d: Disk, failed: seq<Key>) {
    forall i | 0 <= i < |failed| :: failed[i] in d.jobs
  }

  datatype Retry = Retry(again: set<Key>, pending: int, reserved: int)

  // The accumulators of the retry_failed loop after the first i failed jobs.
  function RetryLoop(d: Disk, failed: seq<Key>, i: nat, pending: int, reserved: int, available: int): (r: Retry)
    requires i <= |failed| && Listed(d, failed)
  {
    if i == 0 then Retry({}, pending, reserved)
    else
      RetryNext(d, RetryLoop(d, failed, i - 1, pending, reserved, available), failed[i - 1], available)
  }

  function RetryNext(d: Disk, r: Retry, k: Key, available: int): Retry
    requires k in d.jobs
  {
    if r.pending >= PendingLimit(d, d.jobs[k].demand) || r.reserved + OutputBytes(k) > available then r
    else Retry(r.again + {k}, r.pending + 1, r.reserved + OutputBytes(k))
  }

  lemma {:induction false} RetryLoopCorrect(d: Disk, kind: Kind, failed: seq<Key>, i: nat, pending: int, reserved: int,
                                            available: int, now: int)
    requires i <= |failed| && Distinct(failed) && Listed(d, failed)
    requires forall k | k in failed :: k in RetryCandidates(d, kind)
    requires pending == |PendingKeys(d)| && reserved == Reserved(PendingKeys(d))
    ensures var r := RetryLoop(d, failed, i, pending, reserved, available);
            Retrying(d, kind, failed, i, r.again, r.pending, r.reserved, available, now)
  {
    if i == 0 {
      RetryNone(d, kind, failed, RetryLoop(d, failed, i, pending, reserved, available), available, now);
    } else {
      RetryLoopCorrect(d, kind, failed, i - 1, pending, reserved, available, now);
      var r := RetryLoop(d, failed, i - 1, pending, reserved, available);
      RetryStep(d, kind, failed, i - 1, r, RetryLoop(d, failed, i, pending, reserved, available), available, now);
    }
  }

  lemma {:induction false} RetryNone(d: Disk, kind: Kind, failed: seq<Key>, r: Retry, available: int, now: int)
    requires forall k | k in failed :: k in RetryCandidates(d, kind)
    requires r == Retry({}, |PendingKeys(d)|, Reserved(PendingKeys(d)))
    ensures Retrying(d, kind, failed, 0, r.again, r.pending, r.reserved, available, now)
  {
    RequeueNothing(d, now);
  }

  lemma {:induction false} RetryStep(d: Disk, kind: Kind, failed: seq<Key>, i: nat, r: Retry, s: Retry, available: int,
                                     now: int)
    requires i < |failed| && Distinct(failed) && failed[i] in d.jobs && s == RetryNext(d, r, failed[i], available)
    requires Retrying(d, kind, failed, i, r.again, r.pending, r.reserved, available, now)
    ensures Retrying(d, kind, failed, i + 1, s.again, s.pending, s.reserved, available, now)
  {
    if NoRoom(d, failed[i], r.pending, r.reserved, available) {
      RetrySkips(d, kind, failed, i, r.again, r.pending, r.reserved, available, now);
    } else {
      RetryTakes(d, kind, failed, i, r.again, r.pending, r.reserved, available, now);
    }
  }

  lemma {:induction false} RetryRoom(d: Disk, kind: Kind, failed: seq<Key>, i: nat, pending: int, reserved: int,
                                     available: int, now: int)
    requires i < |failed| && Distinct(failed) && Listed(d, failed)
    requires forall k | k in failed :: k in RetryCandidates(d, kind)
    requires pending == |PendingKeys(d)| && reserved == Reserved(PendingKeys(d))
    ensures var r := RetryLoop(d, failed, i, pending, reserved, available);
            && failed[i] in d.jobs && failed[i] !in r.again && Retriable(d, failed[i])
            && r.pending == |PendingKeys(AfterRequeues(d, r.again, now))|
            && RetryLoop(d, failed, i + 1, pending, reserved, available) == RetryNext(d, r, failed[i], available)
  {
    RetryLoopCorrect(d, kind, failed, i, pending, reserved, available, now);
    assert failed[i] in failed;
  }

  lemma {:induction false} RetryDone(d: Disk, kind: Kind, failed: seq<Key>, pending: int, reserved: int,
                                     available: int, now: int)
    requires Distinct(failed) && Listed(d, failed) && forall k :: k in failed <==> k in RetryCandidates(d, kind)
    requires |failed| == |RetryCandidates(d, kind)|
    requires pending == |PendingKeys(d)| && reserved == Reserved(PendingKeys(d))
    ensures var r := RetryLoop(d, failed, |failed|, pending, reserved, available);
            var e := AfterRequeues(d, r.again, now);
            && r.again <= RetryCandidates(d, kind)
            && |r.again| + |RetryCandidates(d, kind) - r.again| == |failed|
            && (r.again != {} ==> Reserved(PendingKeys(e)) <= available)
            && (forall k | k in RetryCandidates(d, kind) && k !in r.again ::
                  NoRoom(d, k, |PendingKeys(e)|, Reserved(PendingKeys(e)), available))
  {
    var r := RetryLoop(d, failed, |failed|, pending, reserved, available);
    RetryLoopCorrect(d, kind, failed, |failed|, pending, reserved, available, now);
    SplitSize(r.again, RetryCandidates(d, kind));
    assert Skippers(d, failed, |failed|, r.again, r.pending, r.reserved, available);
    assert forall k | k in RetryCandidates(d, kind) :: k in failed;
  }

  // ----- retrying in rank order

  // The jobs requeued among the first i of the list.
  ghost function Before(failed: seq<Key>, again: set<Key>, i: nat): set<Key>
    requires i <= |failed|
  {
    set k | k in again && k in failed[..i]
  }

  lemma {:induction false} RetryPrefix(d: Disk, failed: seq<Key>, i: nat, n: nat, pending: int, reserved: int,
                                       available: int)
    requires i <= n <= |failed| && Distinct(failed) && Listed(d, failed)
    ensures var r, s := RetryLoop(d, failed, i, pending, reserved, available),
              RetryLoop(d, failed, n, pending, reserved, available);
            && r.pending <= s.pending && r.reserved <= s.reserved
            && (forall k :: k in r.again <==> k in s.again && k in failed[..i])
    decreases n
  {
    if i < n {
      RetryPrefix(d, failed, i, n - 1, pending, reserved, available);
      assert failed[n - 1] !in failed[..i];
    } else {
      RetriedAreListed(d, failed, i, pending, reserved, available);
    }
  }

  lemma {:induction false} RetriedAreListed(d: Disk, failed: seq<Key>, i: nat, pending: int, reserved: int,
                                            available: int)
    requires i <= |failed| && Listed(d, failed)
    ensures forall k | k in RetryLoop(d, failed, i, pending, reserved, available).again :: k in failed[..i]
  {
    if i > 0 {
      RetriedAreListed(d, failed, i - 1, pending, reserved, available);
      assert failed[..i] == failed[..i - 1] + [failed[i - 1]];
    }
  }

  // The turn of job i decides for good.
  lemma {:induction false} RetryDecides(d: Disk, failed: seq<Key>, i: nat, pending: int, reserved: int, available: int)
    requires i < |failed| && Distinct(failed) && Listed(d, failed)
    ensures var r := RetryLoop(d, failed, i, pending, reserved, available);
            failed[i] in RetryLoop(d, failed, |failed|, pending, reserved, available).again <==>
            r.pending < PendingLimit(d, d.jobs[failed[i]].demand) && r.reserved + OutputBytes(failed[i]) <= available
  {
    RetryPrefix(d, failed, i + 1, |failed|, pending, reserved, available);
    RetriedAreListed(d, failed, i, pending, reserved, available);
    assert failed[i] in failed[..i + 1] && failed[i] !in failed[..i];
  }

  // Job i of the list is requeued exactly if there is room besides the jobs that are pending
  // and those requeued before it.
  ghost predicate TakenInTurn(d: Disk, failed: seq<Key>, again: set<Key>, i: nat, available: int, now: int)
    requires i < |failed|
  {
    var pending := PendingKeys(AfterRequeues(d, Before(failed, again, i), now));
    failed[i] in again <==> !NoRoom(d, failed[i], |pending|, Reserved(pending), available)
  }

  lemma {:induction false} RetryTurn(d: Disk, kind: Kind, failed: seq<Key>, i: nat, pending: int, reserved: int,
                                     available: int, now: int)
    requires i < |failed| && Distinct(failed) && Listed(d, failed)
    requires forall k | k in failed :: k in RetryCandidates(d, kind)
    requires pending == |PendingKeys(d)| && reserved == Reserved(PendingKeys(d))
    ensures TakenInTurn(d, failed, RetryLoop(d, failed, |failed|, pending, reserved, available).again, i,
                        available, now)
  {
    var r := RetryLoop(d, failed, i, pending, reserved, available);
    var again := RetryLoop(d, failed, |failed|, pending, reserved, available).again;
    RetryPrefix(d, failed, i, |failed|, pending, reserved, available);
    assert r.again == Before(failed, again, i);
    RetryRoom(d, kind, failed, i, pending, reserved, available, now);
    RetryLoopCorrect(d, kind, failed, i, pending, reserved, available, now);
    RetryDecides(d, failed, i, pending, reserved, available);
  }

  /** Of two failed jobs the better ranked one is retried if the other is, unless it needs
      more space. */
  ghost predicate RankRespected(d: Disk, digest: Key -> nat, kind: Kind, again: set<Key>) {
    forall a, b | a in RetryCandidates(d, kind) && b in again && !Ranks(d, digest, b, a)
      && OutputBytes(a) <= OutputBytes(b) ::
      a in again
  }

  lemma {:induction false} RetryInOrder(d: Disk, digest: Key -> nat, kind: Kind, failed: seq<Key>, pending: int,
                                        reserved: int, available: int)
    requires Distinct(failed) && Listed(d, failed) && forall k :: k in failed <==> k in RetryCandidates(d, kind)
    requires forall i, j | 0 <= i < j < |failed| :: Ranks(d, digest, failed[i], failed[j])
    ensures RankRespected(d, digest, kind, RetryLoop(d, failed, |failed|, pending, reserved, available).again)
  {
    var again := RetryLoop(d, failed, |failed|, pending, reserved, available).again;
    RetriedAreListed(d, failed, |failed|, pending, reserved, available);
    forall a, b | a in RetryCandidates(d, kind) && b in again && !Ranks(d, digest, b, a)
      && OutputBytes(a) <= OutputBytes(b)
      ensures a in again
    {
      var i :| 0 <= i < |failed| && failed[i] == a;
      var j :| 0 <= j < |failed| && failed[j] == b;
      if i != j {
        assert i < j;
        RetryEarlier(d, digest, failed, i, j, pending, reserved, available);
      }
    }
  }

  lemma {:induction false} RetryEarlier(d: Disk, digest: Key -> nat, failed: seq<Key>, i: nat, j: nat, pending: int,
                                        reserved: int, available: int)
    requires i < j < |failed| && Distinct(failed) && Listed(d, failed) && Ranks(d, digest, failed[i], failed[j])
    requires failed[j] in RetryLoop(d, failed, |failed|, pending, reserved, available).again
    requires OutputBytes(failed[i]) <= OutputBytes(failed[j])
    ensures failed[i] in RetryLoop(d, failed, |failed|, pending, reserved, available).again
  {
    RetryDecides(d, failed, i, pending, reserved, available);
    RetryDecides(d, failed, j, pending, reserved, available);
    RetryPrefix(d, failed, i, j, pending, reserved, available);
  }

  lemma {:induction false} CandidatesListed(d: Disk, kind: Kind, failed: seq<Key>)
    requires forall k :: k in failed <==> k in RetryCandidates(d, kind)
    ensures Listed(d, failed)
  {
    assert forall i | 0 <= i < |failed| :: failed[i] in failed;
  }

  // All that `retry_failed` promises about the jobs it takes from its sorted list.
  lemma {:induction false} RetryProperties(d: Disk, digest: Key -> nat, kind: Kind, failed: seq<Key>, pending: int,
                                           reserved: int, available: int, now: int)
    requires Distinct(failed) && Listed(d, failed) && forall k :: k in failed <==> k in RetryCandidates(d, kind)
    requires |failed| == |RetryCandidates(d, kind)|
    requires forall i, j | 0 <= i < j < |failed| :: Ranks(d, digest, failed[i], failed[j])
    requires pending == |PendingKeys(d)| && reserved == Reserved(PendingKeys(d))
    ensures var again := RetryLoop(d, failed, |failed|, pending, reserved, available).again;
            var e := AfterRequeues(d, again, now);
            && again <= RetryCandidates(d, kind) && |again| <= |failed|
            && (again != {} ==> Reserved(PendingKeys(e)) <= available)
            && (forall k | k in RetryCandidates(d, kind) && k !in again ::
                  NoRoom(d, k, |PendingKeys(e)|, Reserved(PendingKeys(e)), available))
            && (forall i: nat | i < |failed| :: TakenInTurn(d, failed, again, i, available, now))
            && RankRespected(d, digest, kind, again)
  {
    RetryDone(d, kind, failed, pending, reserved, available, now);
    RetryInOrder(d, digest, kind, failed, pending, reserved, available);
    forall i: nat | i < |failed|
      ensures TakenInTurn(d, failed, RetryLoop(d, failed, |failed|, pending, reserved, available).again, i,
                        available, now)
    {
      RetryTurn(d, kind, failed, i, pending, reserved, available, now);
    }
  }

  // ----- requests

  // An owner-mode change that loses against demand the caller has not seen.
  predicate NewerDemand(d: Disk, kind: Kind, background: bool, observed: Option<nat>) {
    || (background && observed.None? && !ModeIs(d, kind) && d.demand > 0)
    || (background && observed.None? && exists k :: k in d.jobs && d.jobs[k].demand.Foreground? && k.owner.kind != kind)
    || (observed.Some? && d.demand > observed.value && (background || !ModeIs(d, kind)))
    || (observed.Some? && d.demand > observed.value && exists k :: k in d.jobs && k.owner.kind != kind)
  }

  /** A request that observed no order is never refused when it is a download; and one that
      observed the order of moment i is refused at moment j only if somebody drew a new order
      in between. */
  lemma {:induction false} RefusedOnlyForNewOrder(past: seq<Disk>, i: nat, j: nat, kind: Kind, background: bool)
    returns (m: nat)
    requires Linked(past) && i <= j < |past|
    ensures !NewerDemand(past[j], kind, false, None)
    ensures NewerDemand(past[j], kind, background, Some(past[i].demand)) ==>
              i <= m < j && past[m].demand < past[m + 1].demand
  {
    m := 0;
    if past[i].demand < past[j].demand {
      m := DrawnBetween(past, i, j);
    }
  }

  // The identity already has a download under way that a background request must not replace.
  predicate ActiveDownload(d: Disk, key: Key, observed: Option<nat>) {
    exists k :: k in d.jobs && SameIdentity(k, key) && k != key && d.jobs[k].demand.Foreground?
      && (Pending(d.jobs[k])
          || (observed.Some? && d.jobs[k].state == Ready && d.jobs[k].demand.order > observed.value))
  }

  // Jobs that a request for `key` may withdraw.
  predicate Superseded(d: Disk, k: Key, key: Key)
    requires k in d.jobs
  {
    || k.owner.kind != key.owner.kind
    || (k.challenge == key.challenge && k.recipe != key.recipe && d.jobs[k].state != Ready)
    || (SameIdentity(k, key) && k != key)
  }

  /** Every job other than `key` is left as it was, unless the request supersedes it or it
      was finished and has been collected. */
  ghost predicate Spares(a: Disk, b: Disk, key: Key) {
    forall k | k in a.jobs && k != key ::
      || (k in b.jobs && b.jobs[k] == a.jobs[k])
      || Superseded(a, k, key)
      || (!Pending(a.jobs[k]) && k !in b.jobs)
  }

  lemma {:induction false} SparesTransitive(a: Disk, b: Disk, c: Disk, key: Key)
    requires Spares(a, b, key) && Spares(b, c, key) && c.jobs.Keys <= b.jobs.Keys + {key}
    ensures Spares(a, c, key)
  {
  }

  lemma {:induction false} RetireSpares(d: Disk, hit: set<Key>, mark: bool, now: int, key: Key)
    requires forall k | k in hit && k in d.jobs && k != key :: Superseded(d, k, key)
    ensures Spares(d, AfterRetire(d, hit, mark, now), key)
  {
  }

  function AfterRivals(d: Disk, key: Key, now: int): Disk {
    var e := AfterRetire(d, ObsoleteKeys(d, key.challenge, Some(key.recipe)), false, now);
    AfterRetire(e, RivalKeys(e, key), true, now)
  }

  lemma {:induction false} ReconcileSpares(d: Disk, key: Key, now: int)
    ensures Spares(d, AfterReconcile(d, key.owner.kind, now), key)
    ensures AfterReconcile(d, key.owner.kind, now).jobs.Keys <= d.jobs.Keys
  {
    RetireSpares(d, ForeignKeys(d, key.owner.kind), true, now, key);
  }

  lemma {:induction false} RivalsSpares(d: Disk, key: Key, now: int)
    ensures var e := AfterRivals(d, key, now);
            && Spares(d, e, key) && e.jobs.Keys <= d.jobs.Keys
            && (key in d.jobs && !Pending(d.jobs[key]) ==> key in e.jobs && e.jobs[key] == d.jobs[key])
            && (forall k | k in e.jobs && SameIdentity(k, key) && k != key :: e.jobs[k].obsolete)
  {
    var keys := ObsoleteKeys(d, key.challenge, Some(key.recipe));
    var e := AfterRetire(d, keys, false, now);
    RetireSpares(d, keys, false, now, key);
    RetireSpares(e, RivalKeys(e, key), true, now, key);
    SparesTransitive(d, e, AfterRivals(d, key, now), key);
  }

  /** The request is served: the job on disk is the one returned, the only one of its
      identity that counts; it is not known to be unusable; and a download is never left
      waiting in the background queue. */
  ghost predicate Served(d: Disk, key: Key, job: Job, background: bool) {
    && key in d.jobs && d.jobs[key] == job
    && Current(d, key) && ModeIs(d, key.owner.kind)
    && !job.obsolete && !(job.state == Failed && job.fault == ConfigurationChanged)
    && (job.state == Ready ==> Complete(d, key))
    && (forall k | k in d.jobs && SameIdentity(k, key) && k != key :: d.jobs[k].obsolete)
    && (!background && Pending(job) ==> job.demand.Foreground?)
  }

  // The queue is full, or the catalog holds nothing but pending jobs.
  ghost predicate NoCapacity(d: Disk, key: Key) {
    || |PendingKeys(d)| >= d.config.maxPending
    || (d.config.maxJobs > 0 && |d.jobs| >= d.config.maxJobs && forall k | k in d.jobs && k != key ::
       Pending(d.jobs[k]))
  }

  // There is no place for a new job of this kind of demand.
  ghost predicate NoPlace(d: Disk, key: Key, background: bool) {
    if background then
      |PendingKeys(d)| >= d.config.maxPending / 2 || (d.config.maxJobs > 0 && |d.jobs| >= d.config.maxJobs)
    else NoCapacity(d, key)
  }

  // The three reasons for a full-queue answer.
  ghost predicate FullFor(d: Disk, key: Key, background: bool, observed: Option<nat>) {
    || NewerDemand(d, key.owner.kind, background, observed)
    || (background && ActiveDownload(d, key, observed))
    || NoPlace(d, key, background)
  }

  // A file that may be handed out without the lock.
  ghost predicate Servable(d: Disk, key: Key, filename: string) {
    && key in d.jobs && d.jobs[key].state == Ready && Current(d, key)
    && key in d.artifacts && filename in d.artifacts[key].files
  }

  // The document with which `request` re-queues a job it cannot reuse.
  function Renewed(j: Job, demand: Demand, now: int): Job {
    j.(state := Queued, attempts := 0, nextAttempt := 0, created := now, updated := now,
       fault := NoFault, demand := demand, obsolete := false)
  }

  lemma {:induction false} CollectionSpares(a: Disk, b: Disk, evict: bool, retention: Option<nat>, now: int, key: Key)
    requires Collected(a, b, evict, retention, now)
    ensures Spares(a, b, key) && b.jobs.Keys <= a.jobs.Keys
    ensures forall k | k in b.jobs :: b.jobs[k] == a.jobs[k]
  {
  }

  ghost predicate RoomMade(a: Disk, b: Disk, key: Key, background: bool) {
    && Spares(a, b, key) && b.jobs.Keys <= a.jobs.Keys
    && (key in a.jobs && !Pending(a.jobs[key]) && key in b.jobs ==> b.jobs[key] == a.jobs[key])
    && (forall k | k in b.jobs && SameIdentity(k, key) && k != key :: b.jobs[k].obsolete)
    && b == a.(jobs := b.jobs, artifacts := b.artifacts)
    && (!background && b.config.maxJobs > 0 && |b.jobs| >= b.config.maxJobs ==>
       forall k | k in b.jobs :: Pending(b.jobs[k]))
  }

  lemma {:induction false} CatalogHasRoom(a: Disk, b: Disk, key: Key)
    requires QueueBounded(a) && b.jobs.Keys <= a.jobs.Keys && b.config == a.config
    ensures key in a.jobs && key !in b.jobs && b.config.maxJobs > 0 ==> |b.jobs| < b.config.maxJobs
  {
    assert |a.jobs| == |a.jobs.Keys| && |b.jobs| == |b.jobs.Keys|;
    if key in a.jobs && key !in b.jobs {
      Smaller(b.jobs.Keys, a.jobs.Keys, key);
    }
  }

  // A document fit to be enqueued for `key`.
  predicate NewFor(d: Disk, job: Job, background: bool) {
    && job.state == Queued && job.attempts == 0 && job.nextAttempt == 0 && job.fault == NoFault && !job.obsolete
    && job.demand == (if background then Background else Foreground(d.demand))
    && (job.generation.Some? ==> job.generation.value in d.drawn)
  }

  // Room has been made and an order drawn: the job may be written.
  lemma {:induction false} EnlistAllowed(start: Disk, roomy: Disk, d: Disk, key: Key, job: Job, background: bool)
    requires OrdersDistinct(start) && RoomMade(start, roomy, key, background)
    requires d == roomy.(demand := if background then roomy.demand else roomy.demand + 1)
    requires Current(start, key) && ModeIs(start, key.owner.kind) && !Reusable(start, key)
    requires NewFor(d, job, background)
    requires |PendingKeys(roomy)| < PendingLimit(roomy, job.demand)
    requires key !in roomy.jobs && roomy.config.maxJobs > 0 ==> |roomy.jobs| < roomy.config.maxJobs
    ensures Allowed(d, Enqueue(key, job))
  {
    EnlistCounts(roomy, d, key, job);
    EnlistFresh(start, roomy, d, key, job, background);
    EnlistAlone(start, roomy, d, key, background);
  }

  lemma {:induction false} EnlistAlone(start: Disk, roomy: Disk, d: Disk, key: Key, background: bool)
    requires RoomMade(start, roomy, key, background) && d == roomy.(demand := d.demand)
    requires Current(start, key) && ModeIs(start, key.owner.kind) && !Reusable(start, key)
    ensures Current(d, key) && ModeIs(d, key.owner.kind) && Unrivalled(d, key)
  {
  }

  lemma {:induction false} EnlistCounts(roomy: Disk, d: Disk, key: Key, job: Job)
    requires d == roomy.(demand := d.demand) && |PendingKeys(roomy)| < PendingLimit(roomy, job.demand)
    requires key !in roomy.jobs && roomy.config.maxJobs > 0 ==> |roomy.jobs| < roomy.config.maxJobs
    ensures CountsAllow(d, key, job)
  {
    assert PendingKeys(d) == PendingKeys(roomy);
  }

  lemma {:induction false} EnlistFresh(start: Disk, roomy: Disk, d: Disk, key: Key, job: Job, background: bool)
    requires OrdersDistinct(start) && RoomMade(start, roomy, key, background) && NewFor(d, job, background)
    requires d == roomy.(demand := if background then roomy.demand else roomy.demand + 1)
    ensures FreshlyQueued(d, key, job)
  {
  }

  // And once it is written the request is served.
  lemma {:induction false} EnlistServes(start: Disk, roomy: Disk, e: Disk, key: Key, job: Job, background: bool)
    requires RoomMade(start, roomy, key, background)
    requires e == roomy.(demand := e.demand, issued := e.issued, jobs := roomy.jobs[key := job])
    requires Current(start, key) && ModeIs(start, key.owner.kind)
    requires job.state == Queued && !job.obsolete && (!background ==> job.demand.Foreground?)
    ensures Spares(start, e, key) && e.jobs.Keys <= start.jobs.Keys + {key}
    ensures Served(e, key, job, background)
  {
  }
}
