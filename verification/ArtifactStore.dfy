/** The artifact store of src/files/store.py.  A `Volume` is the shared directory; a
    `Store` is one process's object on it.  The queue lock makes each locked section
    atomic; `Volume.Others` is what the rest of the world may do in between. */
module ArtifactStore {
  import opened Support
  import opened StoreDisk
  import opened StoreHistory
  import opened StoreSections

  // The documents that run in b already ran in a, under the same claim.
  ghost predicate NoNewRunning(a: Disk, b: Disk) {
    forall k | k in RunningKeys(b) ::
      k in RunningKeys(a) && b.jobs[k].generation == a.jobs[k].generation && b.jobs[k].attempts == a.jobs[k].attempts
  }

  // What no write ever changes or takes back.
  ghost predicate Forward(a: Disk, b: Disk) {
    b.config == a.config && a.modes <= b.modes && a.demand <= b.demand && a.drawn <= b.drawn
  }

  class Volume {
    var disk: Disk
    ghost var past: seq<Disk>    // every state of the directory so far, oldest first
    ghost var claims: seq<Disk>  // the states in which a job was claimed

    ghost predicate Valid()
      reads this
    {
      Linked(past) && disk == past[|past| - 1]
    }

    constructor (config: Config)
      ensures Valid() && past == [disk] && claims == []
      ensures disk == Empty(config)
    {
      disk := Empty(config);
      past := [Empty(config)];
      claims := [];
    }

    lemma {:induction false} Sound()
      requires Valid()
      ensures Inv(disk)
    {
      InvThroughout(past, |past| - 1);
    }

    /** One atomic file operation. */
    method Commit(w: Write)
      requires Valid() && Allowed(disk, w)
      modifies this
      ensures Valid() && disk == Apply(old(disk), w)
      ensures past == old(past) + [disk]
      ensures claims == if w.Claim? then old(claims) + [old(disk)] else old(claims)
    {
      var next := Apply(disk, w);
      Extend(past, disk, w, next);
      claims := if w.Claim? then claims + [disk] else claims;
      past := past + [next];
      disk := next;
    }

    /** What other processes may do between two steps: any number of allowed writes. */
    method Others()
      requires Valid()
      modifies this
      ensures Valid() && old(past) <= past && Forward(old(disk), disk)
    {
      var steps: nat :| true;
      while steps > 0
        invariant Valid() && old(past) <= past && Forward(old(disk), disk)
      {
        assert Allowed(disk, PutRecipe(0, Recipe("", "", [], 0, 0)));
        var w: Write :| Allowed(disk, w);
        Commit(w);
        steps := steps - 1;
      }
    }

    /** The same for every process but the worker, which alone claims jobs. */
    method OthersExceptWorker()
      requires Valid()
      modifies this
      ensures Valid() && old(past) <= past && Forward(old(disk), disk)
      ensures NoNewRunning(old(disk), disk) && claims == old(claims)
    {
      var steps: nat :| true;
      while steps > 0
        invariant Valid() && old(past) <= past && Forward(old(disk), disk)
        invariant NoNewRunning(old(disk), disk) && claims == old(claims)
      {
        assert Allowed(disk, PutRecipe(0, Recipe("", "", [], 0, 0)));
        var w: Write :| Allowed(disk, w) && !w.Claim?;
        ghost var before := disk;
        OnlyClaimsStart(disk, w);
        Commit(w);
        NoNewRunningTransitive(old(disk), before, disk);
        steps := steps - 1;
      }
    }
  }

  lemma {:induction false} OnlyClaimsStart(d: Disk, w: Write)
    requires Allowed(d, w) && !w.Claim?
    ensures NoNewRunning(d, Apply(d, w))
  {
  }

  lemma {:induction false} NoNewRunningTransitive(a: Disk, b: Disk, c: Disk)
    requires NoNewRunning(a, b) && NoNewRunning(b, c)
    ensures NoNewRunning(a, c)
  {
  }

  // The owner-mode file as one process last saw it: its kind and its stat stamp.
  datatype Stamp = Stamp(kind: Kind, position: nat)

  ghost predicate StampSound(d: Disk, seen: Option<Stamp>) {
    seen.Some? ==> 0 < seen.value.position <= |d.modes| && d.modes[seen.value.position - 1] == seen.value.kind
  }

  // What an answer of `open_file` says about moment `at` of the call, which began at `from`.
  ghost predicate Warranted(past: seq<Disk>, from: int, key: Key, filename: string, regular: bool, opening: Opening,
                            seen: Option<Job>, at: nat)
    requires 0 <= from < |past|
  {
    opening != Unavailable ==>
      && from <= at < |past|
      && var d := past[at];
      match opening
      case NotNow =>
        || !Servable(d, key, filename)
        || (key in past[from].jobs && (key !in d.jobs || d.jobs[key] != past[from].jobs[key]))
      case NotRegular =>
        !regular && key in d.artifacts && filename in d.artifacts[key].files
      case Opened(g) =>
        && regular
        && seen.Some? && seen.value.state == Ready && seen.value.generation == Some(g)
        && key in d.jobs && d.jobs[key] == seen.value
        && key in d.artifacts && d.artifacts[key].generation == g && filename in d.artifacts[key].files
      case Unavailable => true
  }

  class Store {
    const volume: Volume
    const retentionSeconds: Option<nat>
    const digest: Key -> nat  // the order of the hashed keys
    var ownerMode: Option<Stamp>

    ghost predicate Valid()
      reads this, volume
    {
      volume.Valid() && StampSound(volume.disk, ownerMode)
    }

    constructor (volume: Volume, retentionSeconds: Option<nat>, digest: Key -> nat)
      requires volume.Valid()
      ensures Valid() && this.volume == volume && this.retentionSeconds == retentionSeconds && ownerMode == None
      ensures this.digest == digest
    {
      this.volume := volume;
      this.retentionSeconds := retentionSeconds;
      this.digest := digest;
      ownerMode := None;
    }

    predicate OwnerModeCurrent(kind: Kind)
      reads this, volume
    {
      volume.disk.modes != [] && ownerMode == Some(Stamp(kind, |volume.disk.modes|))
    }

    /** A stamp that still matches the file vouches for its content, however many
        processes have rewritten the file in the meantime. */
    lemma {:induction false} StampVouches(kind: Kind)
      requires Valid() && OwnerModeCurrent(kind)
      ensures ModeIs(volume.disk, kind)
      ensures forall k | k in volume.disk.jobs && !volume.disk.jobs[k].obsolete :: k.owner.kind == kind
    {
      volume.Sound();
    }

    // ----- helpers of the locked sections

    /** `remove_if_exists` on an artifact directory: file by file, then the directory. */
    method RemoveTree(k: Key)
      requires Valid()
      modifies volume
      ensures Valid() && old(volume.past) <= volume.past && volume.claims == old(volume.claims)
      ensures volume.disk == old(volume.disk).(artifacts := old(volume.disk).artifacts - {k})
    {
      if k in volume.disk.artifacts {
        while volume.disk.artifacts[k].files != {}
          invariant Valid() && old(volume.past) <= volume.past && volume.claims == old(volume.claims)
          invariant k in volume.disk.artifacts
          invariant volume.disk.(artifacts := volume.disk.artifacts - {k}) ==
                    old(volume.disk).(artifacts := old(volume.disk).artifacts - {k})
          decreases |volume.disk.artifacts[k].files|
        {
          var name :| name in volume.disk.artifacts[k].files;
          volume.Commit(RemoveFile(k, name));
        }
        volume.Commit(RemoveDirectory(k));
      }
    }

    method RetireJob(k: Key, mark: bool, now: int)
      requires Valid() && k in volume.disk.jobs
      modifies volume
      ensures Valid() && old(volume.past) <= volume.past && volume.claims == old(volume.claims)
      ensures volume.disk == RetiredOne(old(volume.disk), k, mark, now)
    {
      if volume.disk.jobs[k].state == Running {
        volume.Commit(StoreDisk.Retire(k, mark, now));
      } else {
        Discard(k);
      }
    }

    method Discard(k: Key)
      requires Valid() && k in volume.disk.jobs && volume.disk.jobs[k].state != Running
      modifies volume
      ensures Valid() && old(volume.past) <= volume.past && volume.claims == old(volume.claims)
      ensures volume.disk ==
                old(volume.disk).(jobs := old(volume.disk).jobs - {k}, artifacts := old(volume.disk).artifacts - {k})
    {
      RemoveTree(k);
      volume.Commit(Unlink(k));
    }

    /** The loops of `_retire_obsolete` (mark false) and `_retire_matching` (mark true). */
    method RetireAll(hit: set<Key>, mark: bool, now: int)
      requires Valid() && hit <= volume.disk.jobs.Keys
      modifies volume
      ensures Valid() && old(volume.past) <= volume.past && volume.claims == old(volume.claims)
      ensures volume.disk == AfterRetire(old(volume.disk), hit, mark, now)
    {
      ghost var start := volume.disk;
      RetireNothing(start, mark, now);
      var todo := hit;
      while todo != {}
        invariant Valid() && old(volume.past) <= volume.past && volume.claims == old(volume.claims)
        invariant todo <= hit
        invariant volume.disk == AfterRetire(start, hit - todo, mark, now)
        decreases |todo|
      {
        var k :| k in todo;
        RetireOne(start, hit - todo, k, mark, now);
        RetireJob(k, mark, now);
        assert hit - (todo - {k}) == hit - todo + {k};
        todo := todo - {k};
      }
      assert hit - todo == hit;
    }

    /** `_foreground_order`: the highest order held by a foreground job. */
    method ForegroundOrder() returns (order: nat)
      requires Valid()
      ensures forall k | k in volume.disk.jobs && volume.disk.jobs[k].demand.Foreground? ::
                volume.disk.jobs[k].demand.order <= order
      ensures order == 0 || exists k :: Ordered(volume.disk, k, order)
      ensures order <= volume.disk.demand
    {
      volume.Sound();
      order := 0;
      var todo := volume.disk.jobs.Keys;
      while todo != {}
        invariant todo <= volume.disk.jobs.Keys
        invariant forall k | k in volume.disk.jobs && k !in todo && volume.disk.jobs[k].demand.Foreground? ::
                    volume.disk.jobs[k].demand.order <= order
        invariant order == 0 || exists k :: Ordered(volume.disk, k, order)
        decreases |todo|
      {
        var k :| k in todo;
        if volume.disk.jobs[k].demand.Foreground? && order < volume.disk.jobs[k].demand.order {
          order := volume.disk.jobs[k].demand.order;
          assert Ordered(volume.disk, k, order);
        }
        todo := todo - {k};
      }
    }

    /** `_next_request_order`: a new order, recorded before it is used. */
    method NextRequestOrder(minimum: nat) returns (order: nat)
      requires Valid()
      modifies volume
      ensures Valid() && old(volume.past) <= volume.past && volume.claims == old(volume.claims)
      ensures order > old(volume.disk.demand) && order > minimum
      ensures minimum <= old(volume.disk.demand) ==> order == old(volume.disk.demand) + 1
      ensures volume.disk == old(volume.disk).(demand := order)
    {
      var highest := ForegroundOrder();
      order := Max(Max(volume.disk.demand, highest), minimum) + 1;
      volume.Commit(PutDemand(order));
    }

    // ----- owner mode

    /** The refusals at the head of `_reconcile_owner_mode`, with the order they compare. */
    method CompareDemand(kind: Kind, background: bool, observed: Option<nat>) returns (refuse: bool, order: nat)
      requires Valid()
      ensures refuse <==> NewerDemand(volume.disk, kind, background, observed)
      ensures order == volume.disk.demand
    {
      var d := volume.disk;
      var highest := ForegroundOrder();
      order := Max(d.demand, highest);
      if background && observed.None? {
        if !ModeIs(d, kind) && order > 0 {
          return true, order;
        }
        if exists k :: k in d.jobs && d.jobs[k].demand.Foreground? && k.owner.kind != kind {
          return true, order;
        }
      }
      if observed.Some? && order > observed.value {
        if background || !ModeIs(d, kind) {
          return true, order;
        }
        if exists k :: k in d.jobs && k.owner.kind != kind {
          return true, order;
        }
      }
      refuse := false;
    }

    method ReconcileOwnerMode(kind: Kind, background: bool, observed: Option<nat>, now: int) returns (ok: bool)
      requires Valid()
      modifies this`ownerMode, volume
      ensures Valid() && old(volume.past) <= volume.past && volume.claims == old(volume.claims)
      ensures ok <==> !NewerDemand(old(volume.disk), kind, background, observed)
      ensures !ok ==> volume.disk == old(volume.disk) && ownerMode == old(ownerMode)
      ensures ok ==> OwnerModeCurrent(kind) && ModeIs(volume.disk, kind)
      ensures ok ==> volume.disk == AfterReconcile(old(volume.disk), kind, now)
    {
      var refuse, order := CompareDemand(kind, background, observed);
      if refuse {
        return false;
      }
      ghost var before := volume.disk;
      RetireAll(ForeignKeys(volume.disk, kind), true, now);
      if !ModeIs(volume.disk, kind) {
        var next := NextRequestOrder(order);
        RetiredMatch(before, kind, now);
        volume.Commit(PutMode(kind));
      }
      ownerMode := Some(Stamp(kind, |volume.disk.modes|));
      ok := true;
    }

    // ----- collection

    method FinishedByAge() returns (candidates: seq<Key>)
      ensures OldestFirst(volume.disk, candidates)
    {
      var jobs := volume.disk.jobs;
      var finished := set k | k in jobs && !Pending(jobs[k]);
      var age := (k: Key) => if k in jobs then jobs[k].updated else 0;
      candidates := Sorted(finished, (j, k) => age(j) <= age(k));
      assert forall k | k in candidates :: age(k) == jobs[k].updated;
    }

    /** `_collect`: finished jobs from the least recently updated one on. */
    method Collect(evict: bool, now: int)
      requires Valid()
      modifies volume
      ensures Valid() && old(volume.past) <= volume.past && volume.claims == old(volume.claims)
      ensures Collected(old(volume.disk), volume.disk, evict, retentionSeconds, now)
    {
      ghost var start := volume.disk;
      var jobs, maxJobs := volume.disk.jobs, volume.disk.config.maxJobs;
      var candidates := FinishedByAge();
      var remaining := |jobs|;
      ghost var gone := {};
      WithoutNothing(start);
      for i := 0 to |candidates|
        invariant Valid() && old(volume.past) <= volume.past && volume.claims == old(volume.claims)
        invariant volume.disk == Without(start, gone)
        invariant remaining == |jobs| - |gone|
        invariant Sweeping(start, candidates, i, gone, evict, retentionSeconds, now)
      {
        var k := candidates[i];
        NextCandidate(start, candidates, i, gone, evict, retentionSeconds, now);
        var obsolete := !Current(volume.disk, k) || jobs[k].obsolete;
        var pressure := evict && maxJobs > 0 && remaining >= maxJobs;
        if Expired(jobs[k], retentionSeconds, now) || obsolete || pressure {
          SweepRemoves(start, candidates, i, gone, evict, retentionSeconds, now);
          WithoutOne(start, gone, k);
          Discard(k);
          remaining := remaining - 1;
          gone := gone + {k};
        } else {
          SweepSkips(start, candidates, i, gone, evict, retentionSeconds, now);
        }
      }
      SweepDone(start, candidates, gone, evict, retentionSeconds, now);
    }

    // ----- claiming, finishing and retrying

    method ByRank(keys: set<Key>) returns (s: seq<Key>)
      requires keys <= volume.disk.jobs.Keys
      ensures (forall k :: k in s <==> k in keys) && Distinct(s) && |s| == |keys|
      ensures forall i, j | 0 <= i < j < |s| :: Ranks(volume.disk, digest, s[i], s[j])
    {
      var jobs, order := volume.disk.jobs, digest;
      var before := (j: Key, k: Key) =>
        if j in jobs && k in jobs then RankedBefore(order, j, jobs[j], k, jobs[k]) else k !in jobs;
      s := Sorted(keys, before);
      assert forall i, j | 0 <= i < j < |s| :: before(s[i], s[j]) && s[i] in keys && s[j] in keys;
    }

    /** The first look of `claim`, under the shared lock. */
    method AnyDue(now: int) returns (pending: bool)
      ensures pending <==> exists k :: Due(volume.disk, k, now)
    {
      var due := DueKeys(volume.disk, now);
      pending := due != {};
      assert forall k :: k in due <==> Due(volume.disk, k, now);
    }

    /** `claim` under the lock: the best ranked eligible job starts running under a fresh generation; due
        jobs before it whose recipe has changed are failed on the way. */
    method Claim(now: int, available: int, token: Generation) returns (job: Option<Key>, ghost seen: set<Key>)
      requires Valid() && token !in volume.disk.drawn
      modifies volume
      ensures Valid() && old(volume.past) <= volume.past
      ensures seen <= DueKeys(old(volume.disk), now)
      ensures job.None? ==>
        && volume.disk == AfterRefusals(old(volume.disk), seen, now)
        && (forall k | Due(old(volume.disk), k, now) :: k in seen && !Eligible(old(volume.disk), k, now, available))
        && volume.claims == old(volume.claims)
      ensures job.Some? ==>
        var d, k := old(volume.disk), job.value;
        && Eligible(d, k, now, available) && k !in seen
        && (forall j | Eligible(d, j, now, available) :: Ranks(d, digest, k, j))
        && (forall j | j in seen :: Ranks(d, digest, j, k))
        && var e := AfterRefusals(d, seen, now);
        && volume.disk == e.(jobs := e.jobs[k := Claimed(d.jobs[k], token, now)], drawn := d.drawn + {token})
        && volume.claims == old(volume.claims) + [e]
    {
      ghost var start := volume.disk;
      var jobs := volume.disk.jobs;
      var candidates := ByRank(DueKeys(volume.disk, now));
      seen := {};
      RefuseNothing(start, now);
      for i := 0 to |candidates|
        invariant Valid() && old(volume.past) <= volume.past && volume.claims == old(volume.claims)
        invariant volume.disk == AfterRefusals(start, seen, now)
        invariant forall k :: k in seen <==> k in candidates[..i]
        invariant forall k | k in seen :: !Eligible(start, k, now, available)
      {
        var k := candidates[i];
        assert candidates[..i + 1] == candidates[..i] + [k];
        assert k in candidates && Due(start, k, now);
        assert k !in seen;
        RefuseOne(start, seen, k, now);
        if !Current(volume.disk, k) {
          RefuseJob(k, now);
        } else if k.recipe.maxOutputBytes <= available {
          BestRanked(start, digest, candidates, i, now, available);
          StartJob(k, token, now);
          return Some(k), seen;
        }
        seen := seen + {k};
      }
      assert candidates[..|candidates|] == candidates;
      job := None;
    }

    method RefuseJob(k: Key, now: int)
      requires Valid() && Allowed(volume.disk, Refuse(k, now))
      modifies volume
      ensures Valid() && old(volume.past) <= volume.past && volume.claims == old(volume.claims)
      ensures volume.disk == Apply(old(volume.disk), Refuse(k, now))
    {
      volume.Commit(Refuse(k, now));
    }

    method StartJob(k: Key, token: Generation, now: int)
      requires Valid() && Allowed(volume.disk, StoreDisk.Claim(k, token, now))
      modifies volume
      ensures Valid() && old(volume.past) <= volume.past && volume.claims == old(volume.claims) + [old(volume.disk)]
      ensures volume.disk ==
                old(volume.disk).(jobs := old(volume.disk).jobs[k := Claimed(old(volume.disk).jobs[k], token, now)],
                                  drawn := old(volume.disk).drawn + {token})
    {
      volume.Commit(StoreDisk.Claim(k, token, now));
    }

    /** The check `publish` and `fail` make before they touch a job. */
    predicate ClaimStands(k: Key, claim: Job)
      reads volume
    {
      && k in volume.disk.jobs && volume.disk.jobs[k].state == Running
      && volume.disk.jobs[k].attempts == claim.attempts && volume.disk.jobs[k].generation == claim.generation
    }

    method Fail(k: Key, claim: Job, text: string, now: int)
      requires Valid()
      modifies volume
      ensures Valid() && old(volume.past) <= volume.past && volume.claims == old(volume.claims)
      ensures volume.disk == if old(ClaimStands(k, claim))
                             then old(volume.disk).(jobs := old(volume.disk).jobs[
                               k := Faulted(old(volume.disk), k, old(volume.disk).jobs[k], text, now)])
                             else old(volume.disk)
    {
      if ClaimStands(k, claim) {
        volume.Commit(StoreDisk.Fail(k, text, now));
      }
    }

    /** `publish` after the checks on the stage; `files` are the regular files in it. */
    method Publish(k: Key, claim: Job, files: set<string>, bytes: nat, now: int) returns (outcome: Publication)
      requires Valid()
      modifies volume
      ensures Valid() && old(volume.past) <= volume.past && volume.claims == old(volume.claims)
      ensures outcome == Unusable <==> files != Names(k.recipe.outputs) || bytes > k.recipe.maxOutputBytes
      ensures outcome == Published <==>
                files == Names(k.recipe.outputs) && bytes <= k.recipe.maxOutputBytes
                && old(ClaimStands(k, claim)) && Current(old(volume.disk), k)
      ensures outcome != Published ==> volume.disk == old(volume.disk)
      ensures outcome == Published ==>
                && volume.disk.jobs ==
                  old(volume.disk).jobs[
                    k := old(volume.disk).jobs[k].(state := Ready, updated := now, fault := NoFault)]
                && old(volume.disk).jobs[k].generation.Some?
                && volume.disk.artifacts ==
                  old(volume.disk).artifacts[k := Artifact(old(volume.disk).jobs[k].generation.value, files)]
                && volume.disk == old(volume.disk).(jobs := volume.disk.jobs, artifacts := volume.disk.artifacts)
    {
      if files != Names(k.recipe.outputs) || bytes > k.recipe.maxOutputBytes {
        return Unusable;
      }
      if !ClaimStands(k, claim) || !Current(volume.disk, k) {
        return Outdated;
      }
      volume.Sound();
      RemoveTree(k);
      InstallFiles(k, files);
      MarkReady(k, now);
      outcome := Published;
    }

    // The stage takes the place of the artifact directory.
    method InstallFiles(k: Key, files: set<string>)
      requires Valid() && Allowed(volume.disk, Install(k, files))
      modifies volume
      ensures Valid() && old(volume.past) <= volume.past && volume.claims == old(volume.claims)
      ensures old(volume.disk).jobs[k].generation.Some?
      ensures volume.disk ==
                old(volume.disk).(artifacts := old(volume.disk).artifacts[
                  k := Artifact(old(volume.disk).jobs[k].generation.value, files)])
    {
      volume.Commit(Install(k, files));
    }

    method MarkReady(k: Key, now: int)
      requires Valid() && Allowed(volume.disk, StoreDisk.Publish(k, now))
      modifies volume
      ensures Valid() && old(volume.past) <= volume.past && volume.claims == old(volume.claims)
      ensures volume.disk ==
                old(volume.disk).(jobs := old(volume.disk).jobs[
                  k := old(volume.disk).jobs[k].(state := Ready, updated := now, fault := NoFault)])
    {
      volume.Commit(StoreDisk.Publish(k, now));
    }

    method RequeueJob(k: Key, now: int)
      requires Valid() && Retriable(volume.disk, k)
      requires |PendingKeys(volume.disk)| < PendingLimit(volume.disk, volume.disk.jobs[k].demand)
      modifies volume
      ensures Valid() && old(volume.past) <= volume.past && volume.claims == old(volume.claims)
      ensures volume.disk ==
                old(volume.disk).(jobs := old(volume.disk).jobs[k := Requeued(old(volume.disk).jobs[k], now)])
    {
      volume.Commit(Requeue(k, now));
    }

    /** `retry_failed`: failed jobs go back to the queue in rank order while queue and disk
        allow; `failed` is the sorted list, and each of its jobs is taken in its turn exactly
        if there is room besides the pending jobs and those taken before it. */
    method RetryFailed(kind: Kind, available: int, now: int)
      returns (outcome: Option<(nat, nat)>, ghost again: set<Key>, ghost failed: seq<Key>)
      requires Valid()
      modifies volume
      ensures Valid() && old(volume.past) <= volume.past && volume.claims == old(volume.claims)
      ensures outcome.None? <==> !ModeIs(old(volume.disk), kind)
      ensures volume.disk == AfterRequeues(old(volume.disk), again, now)
      ensures again <= if outcome.None? then {} else RetryCandidates(old(volume.disk), kind)
      ensures outcome.Some? ==>
        && (forall k :: k in failed <==> k in RetryCandidates(old(volume.disk), kind)) && Distinct(failed)
        && (forall i, j | 0 <= i < j < |failed| :: Ranks(old(volume.disk), digest, failed[i], failed[j]))
        && (forall i: nat | i < |failed| :: TakenInTurn(old(volume.disk), failed, again, i, available, now))
        && RankRespected(old(volume.disk), digest, kind, again)
      ensures outcome.Some? ==>
        && outcome.value.0 == |again|
        && outcome.value.0 + outcome.value.1 == |RetryCandidates(old(volume.disk), kind)|
        && (again != {} ==> Reserved(PendingKeys(volume.disk)) <= available)
        && (forall k | k in RetryCandidates(old(volume.disk), kind) && k !in again ::
              NoRoom(old(volume.disk), k, |PendingKeys(volume.disk)|, Reserved(PendingKeys(volume.disk)), available))
    {
      again, failed := {}, [];
      RequeueNothing(volume.disk, now);
      if !ModeIs(volume.disk, kind) {
        outcome := None;
        return;
      }
      ghost var start := volume.disk;
      var sorted := ByRank(RetryCandidates(volume.disk, kind));
      failed := sorted;
      CandidatesListed(start, kind, sorted);
      var reserved := TotalBytes(PendingKeys(volume.disk));
      var loop := RequeueWhileRoom(kind, sorted, reserved, available, now);
      RetryProperties(start, digest, kind, sorted, |PendingKeys(start)|, Reserved(PendingKeys(start)), available, now);
      again := loop.again;
      outcome := Some((|loop.again|, |sorted| - |loop.again|));
    }

    // The loop of `retry_failed`, proved against the function that describes it.
    method RequeueWhileRoom(kind: Kind, failed: seq<Key>, reserved0: int, available: int, now: int) returns (r: Retry)
      requires Valid() && Distinct(failed) && Listed(volume.disk, failed)
      requires forall k | k in failed :: k in RetryCandidates(volume.disk, kind)
      requires reserved0 == Reserved(PendingKeys(volume.disk))
      modifies volume
      ensures Valid() && old(volume.past) <= volume.past && volume.claims == old(volume.claims)
      ensures r == RetryLoop(old(volume.disk), failed, |failed|, |PendingKeys(old(volume.disk))|, reserved0, available)
      ensures volume.disk == AfterRequeues(old(volume.disk), r.again, now)
    {
      ghost var start, pending := volume.disk, |PendingKeys(volume.disk)|;
      r := Retry({}, |PendingKeys(volume.disk)|, reserved0);
      RequeueNothing(start, now);
      for i := 0 to |failed|
        invariant Valid() && old(volume.past) <= volume.past && volume.claims == old(volume.claims)
        invariant r == RetryLoop(start, failed, i, pending, reserved0, available)
        invariant volume.disk == AfterRequeues(start, r.again, now)
      {
        var k := failed[i];
        RetryRoom(start, kind, failed, i, pending, reserved0, available, now);
        r := RequeueTurn(k, r, start, available, now);
      }
    }

    // The turn of one failed job.
    method RequeueTurn(k: Key, r: Retry, ghost start: Disk, available: int, now: int) returns (s: Retry)
      requires Valid() && volume.disk == AfterRequeues(start, r.again, now)
      requires Retriable(start, k) && k !in r.again && r.pending == |PendingKeys(volume.disk)|
      modifies volume
      ensures Valid() && old(volume.past) <= volume.past && volume.claims == old(volume.claims)
      ensures s == RetryNext(start, r, k, available) && volume.disk == AfterRequeues(start, s.again, now)
    {
      RequeueOne(start, r.again, k, now);
      var limit := PendingLimit(volume.disk, volume.disk.jobs[k].demand);
      s := r;
      if r.pending < limit && r.reserved + OutputBytes(k) <= available {
        RequeueJob(k, now);
        s := Retry(r.again + {k}, r.pending + 1, r.reserved + OutputBytes(k));
      }
    }

    // ----- recipes

    /** `set_recipe`, false when the recipe catalog is full. */
    method SetRecipe(challenge: int, recipe: Recipe, now: int) returns (ok: bool)
      requires Valid()
      modifies volume
      ensures Valid() && old(volume.past) <= volume.past && volume.claims == old(volume.claims)
      ensures ok <==> challenge in old(volume.disk).recipes || |old(volume.disk).recipes| < MAX_RECIPES
      ensures var d := old(volume.disk);
              var e := d.(recipes := d.recipes[challenge := recipe]);
              volume.disk == if !ok || (challenge in d.recipes && d.recipes[challenge] == recipe) then d
                             else AfterRetire(e, ObsoleteKeys(e, challenge, Some(recipe)), false, now)
    {
      var d := volume.disk;
      if challenge in d.recipes && d.recipes[challenge] == recipe {
        return true;
      }
      if challenge !in d.recipes && |d.recipes| >= MAX_RECIPES {
        return false;
      }
      volume.Commit(PutRecipe(challenge, recipe));
      RetireAll(ObsoleteKeys(volume.disk, challenge, Some(recipe)), false, now);
      ok := true;
    }

    method DeleteRecipe(challenge: int, now: int)
      requires Valid()
      modifies volume
      ensures Valid() && old(volume.past) <= volume.past && volume.claims == old(volume.claims)
      ensures var d := old(volume.disk);
              var e := d.(recipes := d.recipes - {challenge});
              volume.disk == AfterRetire(e, ObsoleteKeys(e, challenge, None), false, now)
    {
      if challenge in volume.disk.recipes {
        volume.Commit(DropRecipe(challenge));
      } else {
        assert volume.disk.recipes - {challenge} == volume.disk.recipes;
      }
      RetireAll(ObsoleteKeys(volume.disk, challenge, None), false, now);
    }

    // ----- reading without the lock

    /** `open_file`.  Between any two of its reads other processes may do what they like;
        `seen` is the document the decision rests on.  A file that is opened was installed
        by the claim that document names.  `regular` says whether the opened path is a regular file. */
    method OpenFile(key: Key, filename: string, regular: bool)
      returns (opening: Opening, ghost seen: Option<Job>, ghost at: nat)
      requires Valid()
      modifies volume
      ensures Valid() && old(volume.past) <= volume.past
      ensures opening == Unavailable <==> filename !in key.recipe.outputs
      ensures Warranted(volume.past, |old(volume.past)| - 1, key, filename, regular, opening, seen, at)
    {
      seen, at := None, 0;
      if filename !in key.recipe.outputs {
        return Unavailable, seen, at;
      }
      if key !in volume.disk.jobs || volume.disk.jobs[key].generation.None? {
        volume.Others();
        opening := OpenUnderLock(key, filename, regular);
        at := |volume.past| - 1;
        if opening.Opened? {
          seen := Some(volume.disk.jobs[key]);
        }
        return;
      }
      opening, seen, at := OpenTracked(key, filename, regular);
    }

    // The branch for documents with a generation, which reads the document before and after.
    method OpenTracked(key: Key, filename: string, regular: bool)
      returns (opening: Opening, ghost seen: Option<Job>, ghost at: nat)
      requires Valid() && key in volume.disk.jobs && volume.disk.jobs[key].generation.Some?
      modifies volume
      ensures Valid() && old(volume.past) <= volume.past && opening != Unavailable
      ensures Warranted(volume.past, |old(volume.past)| - 1, key, filename, regular, opening, seen, at)
    {
      seen, at := None, 0;
      var current := volume.disk.jobs[key];
      ghost var first := |volume.past| - 1;
      if current.state != Ready {
        return NotNow, None, first;
      }
      volume.Others();
      if !Current(volume.disk, key) {
        return NotNow, None, |volume.past| - 1;
      }
      volume.Others();
      if key !in volume.disk.artifacts || filename !in volume.disk.artifacts[key].files {
        return NotNow, None, |volume.past| - 1;
      }
      opening := Opened(volume.disk.artifacts[key].generation);
      at := |volume.past| - 1;
      if !regular {
        return NotRegular, None, at;
      }
      opening, seen, at := Confirm(key, filename, current, opening.generation, first, at);
    }

    // The second look at document and recipe, after the file has been opened at moment `mid`.
    method Confirm(key: Key, filename: string, current: Job, g: Generation, ghost first: nat, ghost mid: nat)
      returns (opening: Opening, ghost seen: Option<Job>, ghost at: nat)
      requires Valid() && first <= mid < |volume.past|
      requires key in volume.past[first].jobs && volume.past[first].jobs[key] == current
      requires current.state == Ready && current.generation.Some?
      requires var d := volume.past[mid];
               key in d.artifacts && d.artifacts[key].generation == g && filename in d.artifacts[key].files
      modifies volume
      ensures Valid() && old(volume.past) <= volume.past
      ensures opening == NotNow || opening == Opened(g)
      ensures Warranted(volume.past, first, key, filename, true, opening, seen, at)
    {
      volume.Others();
      if key !in volume.disk.jobs || volume.disk.jobs[key] != current {
        return NotNow, None, |volume.past| - 1;
      }
      ghost var last := |volume.past| - 1;
      volume.Others();
      if !Current(volume.disk, key) {
        return NotNow, None, |volume.past| - 1;
      }
      OpenedFileBelongs(volume.past, first, mid, last, key, current.generation.value);
      opening, seen, at := Opened(g), Some(current), mid;
    }

    // The branch for documents without a generation, which takes the shared lock.
    method OpenUnderLock(key: Key, filename: string, regular: bool) returns (opening: Opening)
      requires Valid()
      ensures opening != Unavailable
      ensures opening == NotNow ==> !Servable(volume.disk, key, filename)
      ensures opening == NotRegular ==>
                !regular && key in volume.disk.artifacts && filename in volume.disk.artifacts[key].files
      ensures opening.Opened? ==>
                && regular
                && key in volume.disk.jobs && volume.disk.jobs[key].state == Ready
                && volume.disk.jobs[key].generation == Some(opening.generation)
                && key in volume.disk.artifacts && volume.disk.artifacts[key].generation == opening.generation
                && filename in volume.disk.artifacts[key].files
    {
      if key !in volume.disk.jobs || volume.disk.jobs[key].state != Ready || !Current(volume.disk, key) {
        return NotNow;
      }
      if key !in volume.disk.artifacts || filename !in volume.disk.artifacts[key].files {
        return NotNow;
      }
      if !regular {
        return NotRegular;
      }
      volume.Sound();
      opening := Opened(volume.disk.artifacts[key].generation);
    }

    // ----- requests

    method Reuse(key: Key, background: bool) returns (job: Job)
      requires Valid() && Reusable(volume.disk, key)
      modifies volume
      ensures Valid() && old(volume.past) <= volume.past && volume.claims == old(volume.claims)
      ensures key in volume.disk.jobs && volume.disk.jobs[key] == job
      ensures var d := old(volume.disk);
              var promote := !background && d.jobs[key].demand == Background && Pending(d.jobs[key]);
              volume.disk == if promote
                             then d.(jobs := d.jobs[key := d.jobs[key].(demand := Foreground(d.demand + 1))],
                                     demand := d.demand + 1, issued := d.demand + 1)
                             else d
    {
      if !background && volume.disk.jobs[key].demand == Background && Pending(volume.disk.jobs[key]) {
        volume.Sound();
        var order := NextRequestOrder(0);
        PromoteJob(key, order);
      }
      job := volume.disk.jobs[key];
    }

    method PromoteJob(key: Key, order: nat)
      requires Valid() && Allowed(volume.disk, Promote(key, order))
      modifies volume
      ensures Valid() && old(volume.past) <= volume.past && volume.claims == old(volume.claims)
      ensures volume.disk ==
                old(volume.disk).(jobs := old(volume.disk).jobs[
                                    key := old(volume.disk).jobs[key].(demand := Foreground(order))],
                                  issued := order)
    {
      volume.Commit(Promote(key, order));
    }

    /** Withdraw what stands in the way of a job for `key`: jobs of the challenge made for
        another recipe, then other jobs of the same identity. */
    method RetireRivals(key: Key, now: int)
      requires Valid()
      modifies volume
      ensures Valid() && old(volume.past) <= volume.past && volume.claims == old(volume.claims)
      ensures volume.disk == AfterRivals(old(volume.disk), key, now)
    {
      RetireAll(ObsoleteKeys(volume.disk, key.challenge, Some(key.recipe)), false, now);
      RetireAll(RivalKeys(volume.disk, key), true, now);
    }

    // Bring the owner mode up to date; false when newer demand forbids it.
    method SettleOwnerMode(key: Key, background: bool, observed: Option<nat>, now: int) returns (ok: bool)
      requires Valid()
      modifies this`ownerMode, volume
      ensures Valid() && old(volume.past) <= volume.past && volume.claims == old(volume.claims)
      ensures !ok ==> !old(OwnerModeCurrent(key.owner.kind)) && volume.disk == old(volume.disk)
      ensures !ok ==> NewerDemand(old(volume.disk), key.owner.kind, background, observed)
      ensures ok ==> OwnerModeCurrent(key.owner.kind) && ModeIs(volume.disk, key.owner.kind)
      ensures Spares(old(volume.disk), volume.disk, key) && volume.disk.jobs.Keys <= old(volume.disk).jobs.Keys
      ensures volume.disk.recipes == old(volume.disk).recipes
    {
      if OwnerModeCurrent(key.owner.kind) {
        StampVouches(key.owner.kind);
        return true;
      }
      ReconcileSpares(volume.disk, key, now);
      ok := ReconcileOwnerMode(key.owner.kind, background, observed, now);
    }

    method ServeExisting(key: Key, background: bool) returns (job: Job)
      requires Valid() && Reusable(volume.disk, key) && Current(volume.disk, key) && ModeIs(volume.disk, key.owner.kind)
      modifies volume
      ensures Valid() && old(volume.past) <= volume.past && volume.claims == old(volume.claims)
      ensures Spares(old(volume.disk), volume.disk, key) && volume.disk.jobs.Keys == old(volume.disk).jobs.Keys
      ensures Served(volume.disk, key, job, background)
    {
      job := Reuse(key, background);
      volume.Sound();
    }

    /** The locked part of `request`. */
    method RequestLocked(key: Key, background: bool, observed: Option<nat>, now: int) returns (answer: Answer)
      requires Valid()
      modifies this`ownerMode, volume
      ensures Valid() && old(volume.past) <= volume.past && volume.claims == old(volume.claims)
      ensures answer == RecipeChanged <==> !Current(old(volume.disk), key)
      ensures answer == RecipeChanged ==> volume.disk == old(volume.disk)
      ensures Spares(old(volume.disk), volume.disk, key)
      ensures answer.Answered? ==> Served(volume.disk, key, answer.job, background)
      ensures answer == QueueFull ==> FullFor(volume.disk, key, background, observed)
      ensures answer == QueueFull && old(OwnerModeCurrent(key.owner.kind)) && !background ==>
                NoCapacity(volume.disk, key)
    {
      ghost var start := volume.disk;
      if !Current(volume.disk, key) {
        return RecipeChanged;
      }
      var ok := SettleOwnerMode(key, background, observed, now);
      if !ok {
        return QueueFull;
      }
      ghost var settled := volume.disk;
      if Reusable(volume.disk, key) {
        var job := ServeExisting(key, background);
        SparesTransitive(start, settled, volume.disk, key);
        return Answered(job);
      }
      if background && ActiveDownload(volume.disk, key, observed) {
        return QueueFull;
      }
      var held := if key in volume.disk.jobs then Some(volume.disk.jobs[key]) else None;
      answer := Enlist(key, held, background, now);
      SparesTransitive(start, settled, volume.disk, key);
    }

    /** Withdraw rivals and, if the catalog is full or holds obsolete jobs, collect. */
    method MakeRoom(key: Key, background: bool, now: int)
      requires Valid()
      modifies volume
      ensures Valid() && old(volume.past) <= volume.past && volume.claims == old(volume.claims)
      ensures RoomMade(old(volume.disk), volume.disk, key, background)
    {
      ghost var start := volume.disk;
      RetireRivals(key, now);
      RivalsSpares(start, key, now);
      ghost var cleared := volume.disk;
      if (volume.disk.config.maxJobs > 0 && |volume.disk.jobs| >= volume.disk.config.maxJobs)
         || exists k :: k in volume.disk.jobs && volume.disk.jobs[k].obsolete {
        Collect(!background, now);
        CollectionSpares(cleared, volume.disk, !background, retentionSeconds, now, key);
        SparesTransitive(start, cleared, volume.disk, key);
      }
    }

    /** Queue a job for `key`, which is not there or cannot be reused. */
    method Enlist(key: Key, held: Option<Job>, background: bool, now: int) returns (answer: Answer)
      requires Valid() && Current(volume.disk, key) && ModeIs(volume.disk, key.owner.kind)
                 && !Reusable(volume.disk, key)
      requires held == if key in volume.disk.jobs then Some(volume.disk.jobs[key]) else None
      modifies volume
      ensures Valid() && old(volume.past) <= volume.past && volume.claims == old(volume.claims)
      ensures Spares(old(volume.disk), volume.disk, key) && volume.disk.jobs.Keys <= old(volume.disk).jobs.Keys + {key}
      ensures answer != RecipeChanged
      ensures answer.Answered? ==> Served(volume.disk, key, answer.job, background)
      ensures answer.Answered? ==> answer.job.state == Queued && answer.job.attempts == 0
      ensures answer.Answered? ==>
                answer.job.demand == if background then Background else Foreground(old(volume.disk.demand) + 1)
      ensures answer == QueueFull ==> NoPlace(volume.disk, key, background)
    {
      ghost var start := volume.disk;
      volume.Sound();
      var previous := ForegroundOrder();
      if !background {
        previous := Max(previous, volume.disk.demand);
      }
      MakeRoom(key, background, now);
      var catalogFull :=
        volume.disk.config.maxJobs > 0 && held.None? && |volume.disk.jobs| >= volume.disk.config.maxJobs;
      var limit := if background then volume.disk.config.maxPending / 2 else volume.disk.config.maxPending;
      if catalogFull || |PendingKeys(volume.disk)| >= limit {
        return QueueFull;
      }
      CatalogHasRoom(start, volume.disk, key);
      var job := Append(start, key, held, background, previous, now);
      answer := Answered(job);
    }

    // Room has been made since `start`: draw the order and write the document.
    method Append(ghost start: Disk, key: Key, held: Option<Job>, background: bool, previous: nat, now: int)
      returns (job: Job)
      requires Valid() && RoomMade(start, volume.disk, key, background) && OrdersDistinct(start)
      requires Current(start, key) && ModeIs(start, key.owner.kind) && !Reusable(start, key)
      requires |PendingKeys(volume.disk)| < PendingLimit(volume.disk, if background then Background else Foreground(0))
      requires key !in volume.disk.jobs && volume.disk.config.maxJobs > 0 ==>
                 |volume.disk.jobs| < volume.disk.config.maxJobs
      requires previous <= volume.disk.demand
      requires held.Some? && held.value.generation.Some? ==> held.value.generation.value in volume.disk.drawn
      modifies volume
      ensures Valid() && old(volume.past) <= volume.past && volume.claims == old(volume.claims)
      ensures Spares(start, volume.disk, key) && volume.disk.jobs.Keys <= start.jobs.Keys + {key}
      ensures Served(volume.disk, key, job, background)
      ensures job.state == Queued && job.attempts == 0
      ensures job.demand == if background then Background else Foreground(start.demand + 1)
    {
      ghost var roomy := volume.disk;
      job := NewDocument(held, background, previous, now);
      EnlistAllowed(start, roomy, volume.disk, key, job, background);
      EnqueueJob(key, job);
      EnlistServes(start, roomy, volume.disk, key, job, background);
    }

    // The document to be written, with its request order drawn and recorded.
    method NewDocument(held: Option<Job>, background: bool, previous: nat, now: int) returns (job: Job)
      requires Valid() && previous <= volume.disk.demand
      requires held.Some? && held.value.generation.Some? ==> held.value.generation.value in volume.disk.drawn
      modifies volume
      ensures Valid() && old(volume.past) <= volume.past && volume.claims == old(volume.claims)
      ensures volume.disk ==
                old(volume.disk).(demand := old(volume.disk.demand) + if background then 0 else 1)
      ensures NewFor(volume.disk, job, background)
    {
      var demand := Background;
      if !background {
        var order := NextRequestOrder(previous);
        demand := Foreground(order);
      }
      job := if held.Some? then Renewed(held.value, demand, now)
             else Job(Queued, 0, 0, now, now, demand, None, NoFault, false);
    }

    method EnqueueJob(key: Key, job: Job)
      requires Valid() && Allowed(volume.disk, Enqueue(key, job))
      modifies volume
      ensures Valid() && old(volume.past) <= volume.past && volume.claims == old(volume.claims)
      ensures var d := old(volume.disk);
              volume.disk == d.(jobs := d.jobs[key := job],
                                issued := if job.demand.Foreground? then job.demand.order else d.issued)
    {
      volume.Commit(Enqueue(key, job));
    }

    /** `request`: an unlocked look first, then the locked section.  The job returned was on
        disk, under the recipe and identity asked for, at the moment `at` of this call. */
    method Request(challenge: int, owner: Owner, fingerprint: string, expected: Option<Recipe>,
                   background: bool, observed: Option<nat>, now: int)
      returns (answer: Answer, ghost key: Key, ghost at: nat)
      requires Valid()
      modifies this`ownerMode, volume
      ensures Valid() && old(volume.past) <= volume.past
      ensures answer.Answered? ==>
                && key.challenge == challenge && key.owner == owner && key.fingerprint == fingerprint
                && (expected.Some? ==> key.recipe == expected.value)
                && |old(volume.past)| - 1 <= at < |volume.past|
                && key in volume.past[at].jobs && volume.past[at].jobs[key] == answer.job
                && !(answer.job.state == Failed && answer.job.fault == ConfigurationChanged)
      ensures challenge in old(volume.disk).recipes ==> key.recipe == old(volume.disk).recipes[challenge]
      ensures answer == RecipeChanged ==>
                && |old(volume.past)| - 1 <= at < |volume.past|
                && var d := volume.past[at];
                || challenge !in d.recipes
                || (expected.Some? && d.recipes[challenge] != expected.value)
                || (challenge in old(volume.disk).recipes
                   && d.recipes[challenge] != old(volume.disk).recipes[challenge])
      ensures answer == QueueFull ==> FullFor(volume.disk, key, background, observed)
    {
      var recipe :=
        if challenge in volume.disk.recipes then volume.disk.recipes[challenge] else Recipe("", "", [], 0, 0);
      var wanted := Key(challenge, owner, fingerprint, recipe);
      key, at := wanted, |volume.past| - 1;
      if challenge !in volume.disk.recipes || (expected.Some? && recipe != expected.value) {
        return RecipeChanged, key, at;
      }
      volume.Others();
      var job;
      job, at := Peek(wanted, background);
      if job.Some? {
        return Answered(job.value), key, at;
      }
      volume.Others();
      at := |volume.past| - 1;
      ghost var before := volume.past;
      answer := RequestLocked(wanted, background, observed, now);
      assert volume.past[at] == before[at];
      at := if answer == RecipeChanged then at else |volume.past| - 1;
    }

    // The look without the lock: document, files and owner mode are read at different moments.
    method Peek(key: Key, background: bool) returns (job: Option<Job>, ghost at: nat)
      requires Valid()
      modifies volume
      ensures Valid() && old(volume.past) <= volume.past && ownerMode == old(ownerMode)
      ensures job.Some? ==>
                && |old(volume.past)| - 1 <= at < |volume.past|
                && key in volume.past[at].jobs && volume.past[at].jobs[key] == job.value
                && !(job.value.state == Failed && job.value.fault == ConfigurationChanged)
    {
      at := |volume.past| - 1;
      if key !in volume.disk.jobs {
        return None, at;
      }
      var found := volume.disk.jobs[key];
      if found.state == Failed && found.fault == ConfigurationChanged {
        return None, at;
      }
      if !background && found.demand == Background && Pending(found) {
        return None, at;
      }
      volume.Others();
      if found.state == Ready && !Complete(volume.disk, key) {
        return None, at;
      }
      volume.Others();
      job := if OwnerModeCurrent(key.owner.kind) then Some(found) else None;
    }

    /** `interrupted`: the jobs left running. */
    method Interrupted() returns (keys: set<Key>)
      ensures keys == RunningKeys(volume.disk)
    {
      keys := RunningKeys(volume.disk);
    }
  }

  datatype Opening = Opened(generation: Generation) | NotNow | NotRegular | Unavailable
  datatype Answer = Answered(job: Job) | RecipeChanged | QueueFull

  const MAX_RECIPES := 2048

  datatype Publication = Published | Outdated | Unusable

  method TotalBytes(keys: set<Key>) returns (total: int)
    ensures total == Reserved(keys)
  {
    total := 0;
    var todo := keys;
    while todo != {}
      invariant todo <= keys && total + Reserved(todo) == Reserved(keys)
      decreases |todo|
    {
      var k :| k in todo;
      SumSplit(todo, k, OutputBytes);
      total := total + OutputBytes(k);
      todo := todo - {k};
    }
  }

  lemma {:induction false} RetiredMatch(d: Disk, kind: Kind, now: int)
    ensures var e := AfterRetire(d, ForeignKeys(d, kind), true, now);
            forall k | k in e.jobs && !e.jobs[k].obsolete :: k.owner.kind == kind
  {
  }
}
