/** The worker of src/files/worker.py.  One process runs `RunOnce` again and again while
    web processes keep using the store; exceptions, lock timeouts and the death of the
    process are choices the model leaves open. */
module Worker {
  import opened Support
  import opened StoreDisk
  import opened StoreSections
  import opened ArtifactStore

  datatype Tick = Idle | Worked | Raised

  ghost predicate AtMostOneRunning(d: Disk) {
    forall j, k | j in RunningKeys(d) && k in RunningKeys(d) :: j == k
  }

  // Every claim so far was made at a moment when no job was running.
  ghost predicate ClaimsExclusive(claims: seq<Disk>) {
    forall i | 0 <= i < |claims| :: RunningKeys(claims[i]) == {}
  }

  // The documents in `left` are the only ones that may still be running.
  ghost predicate OnlyLeft(d: Disk, left: map<Key, Job>) {
    forall k | k in RunningKeys(d) ::
      k in left && left[k].attempts == d.jobs[k].attempts && left[k].generation == d.jobs[k].generation
  }

  lemma {:induction false} OnlyLeftPersists(a: Disk, b: Disk, left: map<Key, Job>)
    requires OnlyLeft(a, left) && NoNewRunning(a, b)
    ensures OnlyLeft(b, left)
  {
  }

  ghost predicate NoneEligible(past: seq<Disk>, i: nat, now: int, available: int) {
    i < |past| && forall k :: !Eligible(past[i], k, now, available)
  }

  class Worker {
    const store: Store
    var next: int  // maintenance["next"]

    constructor (store: Store)
      ensures this.store == store && next == 0
    {
      this.store := store;
      next := 0;
    }

    ghost predicate Valid()
      reads this, store, store.volume
    {
      store.Valid() && ClaimsExclusive(store.volume.claims) && AtMostOneRunning(store.volume.disk)
    }

    // A job left running makes the recovery sweep due.
    ghost predicate SweepDue(clock: nat)
      reads this, store, store.volume
    {
      RunningKeys(store.volume.disk) != {} ==> next <= clock
    }

    // Other processes get their turn.
    method Yield(ghost left: map<Key, Job>)
      requires Valid() && OnlyLeft(store.volume.disk, left)
      modifies store.volume
      ensures Valid() && old(store.volume.past) <= store.volume.past && OnlyLeft(store.volume.disk, left)
      ensures store.volume.claims == old(store.volume.claims)
      ensures RunningKeys(store.volume.disk) <= RunningKeys(old(store.volume.disk))
    {
      ghost var before := store.volume.disk;
      store.volume.OthersExceptWorker();
      OnlyLeftPersists(before, store.volume.disk, left);
    }

    method FailOne(k: Key, claim: Job, text: string, now: int, ghost left: map<Key, Job>)
      requires Valid() && OnlyLeft(store.volume.disk, left) && k in left && left[k] == claim
      modifies store.volume
      ensures Valid() && old(store.volume.past) <= store.volume.past && OnlyLeft(store.volume.disk, left - {k})
    {
      ghost var before := store.volume.disk;
      store.Fail(k, claim, text, now);
      assert RunningKeys(store.volume.disk) <= RunningKeys(before);
    }

    /** The recovery sweep: every job left running is failed or put back in the queue. */
    method Sweep(now: int, smooth: bool) returns (tick: Tick)
      requires Valid()
      modifies store.volume
      ensures Valid() && old(store.volume.past) <= store.volume.past
      ensures tick == Worked ==> RunningKeys(store.volume.disk) == {}
      ensures smooth ==> tick == Worked
    {
      var keys := store.Interrupted();
      var left := map k | k in keys && k in store.volume.disk.jobs :: store.volume.disk.jobs[k];
      while left.Keys != {}
        invariant Valid() && old(store.volume.past) <= store.volume.past && OnlyLeft(store.volume.disk, left)
        decreases |left.Keys|
      {
        var k :| k in left.Keys;
        Yield(left);
        var trouble: Tick := *;
        if !smooth && trouble != Worked {
          return trouble;
        }
        FailOne(k, left[k], "previous worker interrupted", now, left);
        assert (left - {k}).Keys == left.Keys - {k};
        left := left - {k};
      }
      tick := Worked;
    }

    method CollectIdle(now: int)
      requires Valid() && RunningKeys(store.volume.disk) == {}
      modifies store.volume
      ensures Valid() && old(store.volume.past) <= store.volume.past && RunningKeys(store.volume.disk) == {}
    {
      ghost var before := store.volume.disk;
      store.Collect(false, now);
      assert RunningKeys(store.volume.disk) <= RunningKeys(before);
    }

    /** The maintenance part of `run_once`: afterwards no job is running. */
    method Maintain(clock: nat, now: int, smooth: bool) returns (tick: Tick)
      requires Valid() && SweepDue(clock)
      modifies this`next, store.volume
      ensures Valid() && old(store.volume.past) <= store.volume.past
      ensures tick == Idle ==> SweepDue(clock)
      ensures tick == Worked ==> RunningKeys(store.volume.disk) == {}
      ensures smooth ==> tick == Worked
    {
      if clock < next {
        return Worked;
      }
      var cleaned: bool, locked: bool := *, *;
      if !smooth && !cleaned {
        return Raised;
      }
      tick := Sweep(now, smooth);
      if tick != Worked {
        return;
      }
      Yield(map[]);
      if !smooth && !locked {
        return Idle;
      }
      CollectIdle(now);
      next := clock + 60;
    }

    method Claim(now: int, available: int) returns (job: Option<Key>)
      requires Valid() && RunningKeys(store.volume.disk) == {}
      modifies store.volume
      ensures Valid() && old(store.volume.past) <= store.volume.past
      ensures RunningKeys(store.volume.disk) == if job.Some? then {job.value} else {}
      ensures job.Some? <==> exists k :: Eligible(old(store.volume.disk), k, now, available)
      ensures store.volume.claims == old(store.volume.claims) ||
              (|store.volume.claims| == |old(store.volume.claims)| + 1
                && old(store.volume.claims) <= store.volume.claims)
    {
      ghost var before := store.volume.disk;
      var token := DrawToken(store.volume.disk.drawn);
      ghost var seen;
      job, seen := store.Claim(now, available, token);
      RefusalsStartNothing(before, seen, now);
      assert RunningKeys(store.volume.disk) == if job.Some? then {job.value} else {};
    }

    // At some moment since `from` no job was eligible.
    ghost predicate NothingToDo(from: nat, now: int, available: int)
      reads store, store.volume
    {
      exists i: nat :: from <= i && NoneEligible(store.volume.past, i, now, available)
    }

    /** `run_once`.  `smooth` says that no lock times out, nothing raises and the process
        survives; then the round does some work unless there is none.  `Raised` also stands for
        the death of the process; the main loop then starts over with the sweep due. */
    method RunOnce(clock: nat, now: int, available: int, smooth: bool) returns (tick: Tick)
      requires Valid() && SweepDue(clock)
      modifies this`next, store.volume
      ensures Valid() && old(store.volume.past) <= store.volume.past
      ensures tick != Raised ==> SweepDue(clock)
      ensures smooth ==> tick == Worked || (tick == Idle && NothingToDo(|old(store.volume.past)| - 1, now, available))
    {
      tick := Maintain(clock, now, smooth);
      if tick != Worked {
        return;
      }
      Yield(map[]);
      var locked: bool := *;
      if !smooth && !locked {
        return Idle;
      }
      var job := TakeJob(now, available);
      if job.None? {
        return Idle;
      }
      tick := Generate(job.value, now, smooth);
    }

    /** `claim` as the worker calls it: a look under the shared lock, and if anything is due the
        claim itself, with time for others in between. */
    method TakeJob(now: int, available: int) returns (job: Option<Key>)
      requires Valid() && RunningKeys(store.volume.disk) == {}
      modifies store.volume
      ensures Valid() && old(store.volume.past) <= store.volume.past
      ensures RunningKeys(store.volume.disk) == if job.Some? then {job.value} else {}
      ensures job.None? ==> NothingToDo(|old(store.volume.past)| - 1, now, available)
    {
      var pending := store.AnyDue(now);
      ghost var before := store.volume.past;
      if !pending {
        assert NoneEligible(store.volume.past, |before| - 1, now, available);
        return None;
      }
      Yield(map[]);
      before := store.volume.past;
      job := Claim(now, available);
      if job.None? {
        assert store.volume.past[|before| - 1] == before[|before| - 1];
        assert NoneEligible(store.volume.past, |before| - 1, now, available);
      }
    }

    // A step during generation: other processes move, and the worker may die.
    method Interlude(k: Key, claim: Job, smooth: bool) returns (alive: bool)
      requires Valid() && OnlyLeft(store.volume.disk, map[k := claim])
      modifies store.volume
      ensures Valid() && old(store.volume.past) <= store.volume.past && OnlyLeft(store.volume.disk, map[k := claim])
      ensures smooth ==> alive
    {
      Yield(map[k := claim]);
      var survives: bool := *;
      alive := smooth || survives;
    }

    /** Clear old files, make room, generate and publish; anything that goes wrong fails the job. */
    method Generate(k: Key, now: int, smooth: bool) returns (tick: Tick)
      requires Valid() && RunningKeys(store.volume.disk) == {k}
      modifies this`next, store.volume
      ensures Valid() && old(store.volume.past) <= store.volume.past
      ensures tick == Worked ==> RunningKeys(store.volume.disk) == {}
      ensures tick == Idle ==> next == 0
      ensures smooth ==> tick == Worked
    {
      var claim := store.volume.disk.jobs[k];
      var alive := Interlude(k, claim, smooth);
      if !alive {
        return Raised;
      }
      var published := Produce(k, claim, now, smooth);
      if published {
        return Worked;
      }
      next := 0;
      alive := Interlude(k, claim, smooth);
      if !alive {
        return Raised;
      }
      var locked: bool := *;
      if !smooth && !locked {
        return Idle;
      }
      FailOne(k, claim, "generation failed", now, map[k := claim]);
      tick := Worked;
    }

    // Old files of the job go, and room is made, before generation starts.
    method Prepare(k: Key, claim: Job, now: int, smooth: bool) returns (alive: bool)
      requires Valid() && OnlyLeft(store.volume.disk, map[k := claim])
      modifies store.volume
      ensures Valid() && old(store.volume.past) <= store.volume.past && OnlyLeft(store.volume.disk, map[k := claim])
    {
      ghost var before := store.volume.disk;
      store.RemoveTree(k);
      assert RunningKeys(store.volume.disk) == RunningKeys(before);
      alive := Interlude(k, claim, smooth);
      if alive {
        MakeRoom(k, claim, now);
        alive := Interlude(k, claim, smooth);
      }
    }

    method MakeRoom(k: Key, claim: Job, now: int)
      requires Valid() && OnlyLeft(store.volume.disk, map[k := claim])
      modifies store.volume
      ensures Valid() && old(store.volume.past) <= store.volume.past && OnlyLeft(store.volume.disk, map[k := claim])
    {
      ghost var before := store.volume.disk;
      store.Collect(claim.demand.Foreground?, now);
      assert RunningKeys(store.volume.disk) <= RunningKeys(before);
    }

    method Produce(k: Key, claim: Job, now: int, smooth: bool) returns (published: bool)
      requires Valid() && OnlyLeft(store.volume.disk, map[k := claim])
      modifies store.volume
      ensures Valid() && old(store.volume.past) <= store.volume.past && OnlyLeft(store.volume.disk, map[k := claim])
      ensures published ==> RunningKeys(store.volume.disk) == {}
    {
      var alive := Prepare(k, claim, now, smooth);
      if !alive {
        return false;
      }
      ghost var before := store.volume.disk;
      var files: set<string>, bytes: nat := *, *;
      var outcome := store.Publish(k, claim, files, bytes, now);
      published := outcome == Published;
      assert RunningKeys(store.volume.disk) <= RunningKeys(before);
    }
  }

  /** The main loop for any number of rounds: every claim the worker ever makes is made
      while no job is running, so at most one job runs at a time. */
  method MainLoop(store: Store, rounds: nat)
    requires store.Valid() && AtMostOneRunning(store.volume.disk) && ClaimsExclusive(store.volume.claims)
    modifies store.volume
    ensures store.Valid() && ClaimsExclusive(store.volume.claims) && AtMostOneRunning(store.volume.disk)
  {
    var worker := new Worker(store);
    var clock: nat := 0;
    for round := 0 to rounds
      invariant worker.store == store && worker.Valid() && worker.SweepDue(clock)
      invariant fresh(worker)
    {
      var now: int, space: int, smooth: bool := *, *, *;
      var tick := worker.RunOnce(clock, now, space, smooth);
      if tick == Raised {
        worker.next := 0;
      }
      worker.Yield(store.volume.disk.jobs);
      var later: nat :| clock <= later;
      clock := later;
    }
  }
}
