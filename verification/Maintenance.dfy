/** The flows that end instances: cleaning one up on request, the maintenance pass over expired
    and abandoned rows, and the reaper of orphaned docker resources.  Docker calls succeed or fail
    arbitrarily, and other transactions may commit before each step. */
module Maintenance {
  import opened Support
  import opened CoordinationTables
  import opened CoordinationRuns
  import opened Coordinator

  const SAFETY_AGE := 300
  const LEASE := 120

  // ----- claims and deletions in a run

  ghost predicate ClaimedAt(past: seq<Db>, log: seq<Event>, i: nat, id: nat, token: nat)
    requires |past| == |log| + 1
  {
    i < |log| && Effective(past, log, i) && log[i].Claim? && log[i].id == id && log[i].token == token
  }

  ghost predicate DeletedAt(past: seq<Db>, log: seq<Event>, j: nat, id: nat, token: nat)
    requires |past| == |log| + 1
  {
    j < |log| && Effective(past, log, j) && log[j] == Event.Delete(id, None, Some(token))
  }

  /** A deletion under the token of a claim acts for that very claim: from the claim to the
      deletion the row carried the token, and nobody else wrote its lifecycle. */
  lemma {:induction false} CleanupUndisturbed(past: seq<Db>, log: seq<Event>, i: nat, k: nat, j: nat, id: nat,
                                              token: nat)
    requires Recorded(past, log) && i < k <= j && ClaimedAt(past, log, i, id, token)
               && DeletedAt(past, log, j, id, token)
    ensures HeldBy(past[k], id, token) && Writes(past, log, id, k, j) == 0
    ensures LifecycleOf(past[k].rows[id]) == LifecycleOf(past[j].rows[id])
  {
    assert StepAt(past, log, i);
    assert Issued(past[i + 1], id) by {
      InvThroughout(past, log, i + 1);
      RowIssued(past[i + 1], id);
    }
    Ages(past, log, i + 1, k);
    assert Issued(past[k], id);
    TokenFences(past, log, id, token, k, j);
  }

  // ----- cleanup on request

  datatype Cleanup = NotFound | AlreadyRunning | HostUnavailable | Finalizing | Cleaned

  ghost predicate CleanedSince(past: seq<Db>, log: seq<Event>, from: nat, id: nat)
    requires |past| == |log| + 1
  {
    exists i: nat, j: nat, token: nat ::
      from <= i < j && ClaimedAt(past, log, i, id, token) && DeletedAt(past, log, j, id, token)
  }

  lemma {:induction false} AnyState(s: State)
    ensures s in {Running, Provisioning, CleanupPending}
  {
    match s
    case Running =>
    case Provisioning =>
    case CleanupPending =>
  }

  /** `cleanup_instance`: the row goes only after a claim of our own and a confirmed removal
      (`removed`); without one the claim is given back and the row stays. */
  method CleanupInstance(c: InstanceCoordinator, id: nat, now: int, removed: bool)
    returns (r: Cleanup, ghost token: Option<nat>)
    requires c.Valid()
    modifies c
    ensures c.Valid() && old(c.past) <= c.past && old(c.log) <= c.log
    ensures r.NotFound? ==> id !in old(c.db).rows
    ensures r.AlreadyRunning? ==>
              id !in c.db.rows || (c.db.rows[id].operationToken.Some? && c.db.rows[id].updatedAt >= now - LEASE)
    ensures r.Cleaned? ==> removed && id !in c.db.rows && CleanedSince(c.past, c.log, |old(c.log)|, id)
    ensures r.HostUnavailable? ==> !removed
    ensures r.Finalizing? ==> removed
    ensures r.HostUnavailable? || r.Finalizing? ==> token.Some? && !HeldBy(c.db, id, token.value)
  {
    token := None;
    if id !in c.db.rows {
      r := NotFound;
      return;
    }
    c.Others();
    var claimed := c.ClaimOperation(id, {Running, Provisioning, CleanupPending}, None, None, LEASE, now);
    token := claimed;
    if claimed.None? {
      if id in c.db.rows {
        AnyState(c.db.rows[id].state);
      }
      r := AlreadyRunning;
      return;
    }
    ghost var i := |c.log| - 1;
    assert ClaimedAt(c.past, c.log, i, id, claimed.value);
    c.Others();
    r := FinishCleanup(c, id, claimed.value, now, removed, i);
    assert r.Cleaned? ==>
             ClaimedAt(c.past, c.log, i, id, claimed.value)
             && DeletedAt(c.past, c.log, |c.log| - 1, id, claimed.value);
  }

  /** What follows a claim: the row is deleted under its token if the removal succeeded, and
      otherwise the token is given back. */
  method FinishCleanup(c: InstanceCoordinator, id: nat, token: nat, now: int, removed: bool, ghost i: nat)
    returns (r: Cleanup)
    requires c.Valid() && ClaimedAt(c.past, c.log, i, id, token)
    modifies c
    ensures c.Valid() && old(c.past) <= c.past && old(c.log) <= c.log && ClaimedAt(c.past, c.log, i, id, token)
    ensures r.HostUnavailable? || r.Finalizing? || r.Cleaned?
    ensures r.HostUnavailable? <==> !removed
    ensures r.Cleaned? ==> id !in c.db.rows && i < |c.log| - 1 && DeletedAt(c.past, c.log, |c.log| - 1, id, token)
    ensures !r.Cleaned? ==> !HeldBy(c.db, id, token)
  {
    if !removed {
      GiveBack(c, id, token, now);
      assert ClaimedAt(c.past, c.log, i, id, token);
      return HostUnavailable;
    }
    var deleted := c.DeleteAfterConfirmedCleanup(id, None, Some(token));
    r := if deleted then Cleaned else Finalizing;
  }

  method GiveBack(c: InstanceCoordinator, id: nat, token: nat, now: int)
    requires c.Valid()
    modifies c
    ensures c.Valid() && old(c.past) <= c.past && old(c.log) <= c.log && !HeldBy(c.db, id, token)
  {
    c.Sound();
    assert HeldBy(c.db, id, token) ==> Shaped(c.db.rows[id]);
    var released := c.ReleaseOperation(id, token, now);
  }

  // ----- the maintenance pass

  // A row of the scan at moment `start` that was cleaned up as it had been scanned.
  ghost predicate SweptAway(past: seq<Db>, log: seq<Event>, start: nat, sweep: Sweep, id: nat)
    requires |past| == |log| + 1
  {
    && start < |past| && id in past[start].rows && Scanned(past[start].rows[id], sweep)
    && exists i: nat, j: nat, token: nat ::
         && start <= i < j && ClaimedAt(past, log, i, id, token) && DeletedAt(past, log, j, id, token)
         && id in past[i].rows && LifecycleOf(past[i].rows[id]) == LifecycleOf(past[start].rows[id])
  }

  ghost predicate Differs(past: seq<Db>, start: nat, id: nat, k: nat) {
    start < |past| && k < |past| && id in past[start].rows
      && (id !in past[k].rows || past[k].rows[id] != past[start].rows[id])
  }

  // Somebody else changed or removed the row after the scan.
  ghost predicate Overtaken(past: seq<Db>, start: nat, id: nat) {
    exists k: nat :: start <= k && Differs(past, start, id, k)
  }

  lemma {:induction false} SweptAwayLater(past: seq<Db>, log: seq<Event>, past2: seq<Db>, log2: seq<Event>,
                                          start: nat, sweep: Sweep, id: nat)
    requires |past| == |log| + 1 && |past2| == |log2| + 1 && past <= past2 && log <= log2
               && SweptAway(past, log, start, sweep, id)
    ensures SweptAway(past2, log2, start, sweep, id)
  {
    var i: nat, j: nat, token: nat :|
      && start <= i < j && ClaimedAt(past, log, i, id, token) && DeletedAt(past, log, j, id, token)
      && id in past[i].rows && LifecycleOf(past[i].rows[id]) == LifecycleOf(past[start].rows[id]);
    assert ClaimedAt(past2, log2, i, id, token) && DeletedAt(past2, log2, j, id, token);
  }

  lemma {:induction false} OvertakenLater(past: seq<Db>, past2: seq<Db>, start: nat, id: nat)
    requires past <= past2 && Overtaken(past, start, id)
    ensures Overtaken(past2, start, id)
  {
    var k: nat :| start <= k && Differs(past, start, id, k);
    assert Differs(past2, start, id, k);
  }

  // The claim made for the row was given back, or taken over by somebody else.
  ghost predicate ClaimOver(past: seq<Db>, log: seq<Event>, start: nat, id: nat)
    requires |past| == |log| + 1
  {
    exists i: nat, k: nat, token: nat ::
      start <= i < k && ClaimedAt(past, log, i, id, token) && NotHeldAt(past, k, id, token)
  }

  ghost predicate NotHeldAt(past: seq<Db>, k: nat, id: nat, token: nat) {
    k < |past| && !HeldBy(past[k], id, token)
  }

  lemma {:induction false} ClaimOverLater(past: seq<Db>, log: seq<Event>, past2: seq<Db>, log2: seq<Event>,
                                          start: nat, id: nat)
    requires |past| == |log| + 1 && |past2| == |log2| + 1 && past <= past2 && log <= log2
               && ClaimOver(past, log, start, id)
    ensures ClaimOver(past2, log2, start, id)
  {
    var i: nat, k: nat, token: nat :| start <= i < k && ClaimedAt(past, log, i, id, token)
      && NotHeldAt(past, k, id, token);
    assert ClaimedAt(past2, log2, i, id, token) && NotHeldAt(past2, k, id, token);
  }

  datatype Sweeping = Swept | Retained | Lost

  /** The claim for one scanned row: refused only if the row is no longer as scanned. */
  method ClaimScanned(c: InstanceCoordinator, id: nat, scanned: Row, ghost start: nat, now: int)
    returns (token: Option<nat>)
    requires c.Valid() && start < |c.past| && id in c.past[start].rows && c.past[start].rows[id] == scanned
    requires Scanned(scanned, Sweep(now, SAFETY_AGE))
    modifies c
    ensures c.Valid() && old(c.past) <= c.past && old(c.log) <= c.log
    ensures token.None? ==> Overtaken(c.past, start, id)
    ensures token.Some? ==>
              && start < |c.log| && ClaimedAt(c.past, c.log, |c.log| - 1, id, token.value)
              && id in c.past[|c.log| - 1].rows && LifecycleOf(c.past[|c.log| - 1].rows[id]) == LifecycleOf(scanned)
  {
    var clock: int :| clock >= now;
    ghost var past0, log0 := c.past, c.log;
    token := c.ClaimOperation(id, {scanned.state}, Some(scanned.version), Some(Sweep(now, SAFETY_AGE)), LEASE, clock);
    if token.None? {
      RefusedIfChanged(past0, log0, start, id, now, clock);
    } else {
      ClaimFollowsScan(c.past, c.log, start, id, token.value, now, clock);
    }
  }

  ghost function ClaimFor(id: nat, r: Row, now: int, token: nat, clock: int): Event {
    Event.Claim(id, {r.state}, Some(r.version), Some(Sweep(now, SAFETY_AGE)), LEASE, token, clock)
  }

  lemma {:induction false} RefusedIfChanged(past: seq<Db>, log: seq<Event>, start: nat, id: nat, now: int, clock: int)
    requires Recorded(past, log) && start < |past| && id in past[start].rows
    requires Scanned(past[start].rows[id], Sweep(now, SAFETY_AGE)) && now <= clock
    requires id in past[|past| - 1].rows ==>
               !Matches(past[|past| - 1].rows[id], ClaimFor(id, past[start].rows[id], now, 0, clock))
    ensures Overtaken(past, start, id)
  {
    var k := |past| - 1;
    InvThroughout(past, log, k);
    if id in past[k].rows && past[k].rows[id] == past[start].rows[id] {
      ScannedIsClaimable(past[k], id, now, clock);
    }
    assert Differs(past, start, id, k);
  }

  lemma {:induction false} ClaimFollowsScan(past: seq<Db>, log: seq<Event>, start: nat, id: nat, token: nat, now: int,
                                            clock: int)
    requires Recorded(past, log) && start < |log| && id in past[start].rows
    requires log[|log| - 1] == ClaimFor(id, past[start].rows[id], now, token, clock) && Effective(past, log, |log| - 1)
    ensures ClaimedAt(past, log, |log| - 1, id, token)
    ensures id in past[|log| - 1].rows && LifecycleOf(past[|log| - 1].rows[id]) == LifecycleOf(past[start].rows[id])
  {
    StaleScanFails(past, log, start, |log| - 1);
  }

  /** One row of the pass. */
  method SweepRow(c: InstanceCoordinator, id: nat, scanned: Row, ghost start: nat, now: int, removed: bool)
    returns (r: Sweeping)
    requires c.Valid() && start < |c.past| && id in c.past[start].rows && c.past[start].rows[id] == scanned
    requires Scanned(scanned, Sweep(now, SAFETY_AGE))
    modifies c
    ensures c.Valid() && old(c.past) <= c.past && old(c.log) <= c.log
    ensures r.Swept? ==> removed && SweptAway(c.past, c.log, start, Sweep(now, SAFETY_AGE), id)
    ensures r.Retained? ==> ClaimOver(c.past, c.log, start, id)
    ensures r.Lost? ==> Overtaken(c.past, start, id)
  {
    c.Others();
    var token := ClaimScanned(c, id, scanned, start, now);
    if token.None? {
      return Sweeping.Lost;
    }
    ghost var i, past0 := |c.log| - 1, c.past;
    c.Others();
    assert c.past[i] == past0[i] && ClaimedAt(c.past, c.log, i, id, token.value);
    r := FinishRow(c, id, start, i, token.value, now, removed);
  }

  lemma {:induction false} ScannedIsClaimable(d: Db, id: nat, now: int, clock: int)
    requires Inv(d) && id in d.rows && Scanned(d.rows[id], Sweep(now, SAFETY_AGE)) && now <= clock
    ensures var r := d.rows[id];
            Matches(r, Event.Claim(id, {r.state}, Some(r.version), Some(Sweep(now, SAFETY_AGE)), LEASE, 0, clock))
  {
    assert Shaped(d.rows[id]);
  }

  method FinishRow(c: InstanceCoordinator, id: nat, ghost start: nat, ghost i: nat, token: nat, now: int, removed: bool)
    returns (r: Sweeping)
    requires c.Valid() && start <= i < |c.log| && ClaimedAt(c.past, c.log, i, id, token)
    requires id in c.past[start].rows && Scanned(c.past[start].rows[id], Sweep(now, SAFETY_AGE))
    requires id in c.past[i].rows && LifecycleOf(c.past[i].rows[id]) == LifecycleOf(c.past[start].rows[id])
    modifies c
    ensures c.Valid() && old(c.past) <= c.past && old(c.log) <= c.log && !r.Lost?
    ensures r.Swept? ==> removed && SweptAway(c.past, c.log, start, Sweep(now, SAFETY_AGE), id)
    ensures r.Retained? ==> ClaimOver(c.past, c.log, start, id)
  {
    var clock: int := *;
    var done := FinishCleanup(c, id, token, clock, removed, i);
    if done.Cleaned? {
      assert DeletedAt(c.past, c.log, |c.log| - 1, id, token);
      r := Swept;
    } else {
      assert ClaimedAt(c.past, c.log, i, id, token) && NotHeldAt(c.past, |c.past| - 1, id, token);
      r := Retained;
    }
  }

  // What has become of the rows in `done`.
  ghost predicate Handled(past: seq<Db>, log: seq<Event>, start: nat, sweep: Sweep, removed: nat -> bool,
                          done: set<nat>, swept: set<nat>, retained: set<nat>)
    requires |past| == |log| + 1
  {
    && (forall id | id in swept :: removed(id) && SweptAway(past, log, start, sweep, id))
    && (forall id | id in retained :: ClaimOver(past, log, start, id))
    && (forall id | id in done :: id in swept || id in retained || Overtaken(past, start, id))
  }

  lemma {:induction false} HandledLater(past: seq<Db>, log: seq<Event>, past2: seq<Db>, log2: seq<Event>, start: nat,
                                        sweep: Sweep, removed: nat -> bool, done: set<nat>, swept: set<nat>,
                                        retained: set<nat>)
    requires |past| == |log| + 1 && |past2| == |log2| + 1 && past <= past2 && log <= log2
    requires Handled(past, log, start, sweep, removed, done, swept, retained)
    ensures Handled(past2, log2, start, sweep, removed, done, swept, retained)
  {
    forall id | id in swept
      ensures SweptAway(past2, log2, start, sweep, id)
    {
      SweptAwayLater(past, log, past2, log2, start, sweep, id);
    }
    forall id | id in retained
      ensures ClaimOver(past2, log2, start, id)
    {
      ClaimOverLater(past, log, past2, log2, start, id);
    }
    forall id | id in done && id !in swept && id !in retained
      ensures Overtaken(past2, start, id)
    {
      OvertakenLater(past, past2, start, id);
    }
  }

  // The query of the pass.
  function Selected(rows: map<nat, Row>, sweep: Sweep): set<nat> {
    set id | id in rows && Scanned(rows[id], sweep)
  }

  /** `_kill_expired_containers_inner`, where `removed` says for which instances the removal of
      the resources succeeds.  Every row the scan selects is deleted exactly as it was scanned;
      or it was claimed so and the claim is over, given back or lost; or it had changed before. */
  method KillExpired(c: InstanceCoordinator, now: int, removed: nat -> bool)
    returns (ghost start: nat, swept: set<nat>, retained: set<nat>)
    requires c.Valid()
    modifies c
    ensures c.Valid() && old(c.past) <= c.past && old(c.log) <= c.log && start < |c.past|
    ensures Handled(c.past, c.log, start, Sweep(now, SAFETY_AGE), removed,
                    Selected(c.past[start].rows, Sweep(now, SAFETY_AGE)), swept, retained)
  {
    var sweep := Sweep(now, SAFETY_AGE);
    var rows := c.db.rows;
    start := |c.past| - 1;
    var selected := Selected(rows, sweep);
    var todo := selected;
    swept, retained := {}, {};
    while todo != {}
      invariant c.Valid() && old(c.past) <= c.past && old(c.log) <= c.log
      invariant todo <= selected && start < |c.past| && c.past[start].rows == rows
      invariant Handled(c.past, c.log, start, sweep, removed, selected - todo, swept, retained)
      decreases |todo|
    {
      var id :| id in todo;
      ghost var past0, log0 := c.past, c.log;
      var r := SweepRow(c, id, rows[id], start, now, removed(id));
      HandledLater(past0, log0, c.past, c.log, start, sweep, removed, selected - todo, swept, retained);
      match r {
        case Swept => swept := swept + {id};
        case Retained => retained := retained + {id};
        case Lost =>
      }
      todo := todo - {id};
    }
    assert selected - todo == selected;
  }

  // ----- the orphan reaper

  // One labelled docker resource: its instance id if well formed, its age stamp if a number.
  datatype Resource = Resource(instance: Option<nat>, created: Option<int>)

  predicate AgeKnown(e: Resource, now: int) {
    e.created.Some? && 0 < e.created.value <= now
  }

  predicate Belongs(e: Resource, id: nat) {
    e.instance == Some(id)
  }

  // Something is listed for the id, every age is known, and even the youngest is old.
  ghost predicate OldEnough(entries: seq<Resource>, id: nat, now: int) {
    && (exists i :: 0 <= i < |entries| && Belongs(entries[i], id))
    && (forall i | 0 <= i < |entries| && Belongs(entries[i], id) ::
          AgeKnown(entries[i], now) && now - entries[i].created.value >= SAFETY_AGE)
  }

  // The dictionary and the set that the first loop of `_reconcile_orphans` fills.
  ghost predicate Surveyed(entries: seq<Resource>, active: set<nat>, now: int, n: nat, youngest: map<nat, int>,
                           invalid: set<nat>)
    requires n <= |entries|
  {
    && (forall i, id | 0 <= i < n && Belongs(entries[i], id) && id !in active ::
          if AgeKnown(entries[i], now) then id in youngest && entries[i].created.value <= youngest[id]
          else id in invalid)
    && (forall id | id in youngest ::
          id !in active
          && exists i ::
               0 <= i < n && Belongs(entries[i], id) && AgeKnown(entries[i], now)
               && entries[i].created.value == youngest[id])
    && (forall id | id in invalid :: exists i :: 0 <= i < n && Belongs(entries[i], id) && !AgeKnown(entries[i], now))
  }

  method Survey(entries: seq<Resource>, active: set<nat>, now: int) returns (youngest: map<nat, int>, invalid: set<nat>)
    ensures Surveyed(entries, active, now, |entries|, youngest, invalid)
  {
    youngest, invalid := map[], {};
    for n := 0 to |entries|
      invariant Surveyed(entries, active, now, n, youngest, invalid)
    {
      var e := entries[n];
      if e.instance.None? || e.instance.value in active {
        continue;
      }
      var id := e.instance.value;
      if !AgeKnown(e, now) {
        invalid := invalid + {id};
      } else if id !in youngest || e.created.value > youngest[id] {
        youngest := youngest[id := e.created.value];
      }
    }
  }

  lemma {:induction false} SurveyDecides(entries: seq<Resource>, active: set<nat>, now: int, youngest: map<nat, int>,
                                         invalid: set<nat>, id: nat)
    requires Surveyed(entries, active, now, |entries|, youngest, invalid)
    ensures id !in active && OldEnough(entries, id, now) <==>
            id in youngest && id !in invalid && now - youngest[id] >= SAFETY_AGE
  {
  }

  ghost predicate HadRow(past: seq<Db>, k: nat, id: nat) {
    k < |past| && id in past[k].rows
  }

  // The id had a row at some moment since `from`.
  ghost predicate SeenSince(past: seq<Db>, from: nat, id: nat) {
    exists k: nat :: from <= k && HadRow(past, k, id)
  }

  lemma {:induction false} StillGone(past: seq<Db>, log: seq<Event>, i: nat, reaped: set<nat>)
    requires Recorded(past, log) && i < |past| && forall id | id in reaped :: id in past[i].homes && id !in past[i].rows
    ensures forall id | id in reaped :: id in past[|past| - 1].homes && id !in past[|past| - 1].rows
  {
    forall id | id in reaped
      ensures id in past[|past| - 1].homes && id !in past[|past| - 1].rows
    {
      GoneForGood(past, log, i, |past| - 1, id);
      Ages(past, log, i, |past| - 1);
      assert Issued(past[i], id);
    }
  }

  // A listing holds only resources that were created for some instance.
  predicate Listed(entries: seq<Resource>, labelled: set<nat>) {
    forall i | 0 <= i < |entries| && entries[i].instance.Some? :: entries[i].instance.value in labelled
  }

  lemma {:induction false} NothingListed(labelled: set<nat>)
    ensures Listed([], labelled)
  {
  }

  /** The body of `_reconcile_orphans` for one host.  An id is reaped if and only if it was not
      active, all its resources are old enough, and the second look found no row for it; and
      then no row exists for it any more, now or ever.  `works` says which removals succeed. */
  method ReapHost(c: InstanceCoordinator, active: set<nat>, now: int, entries: seq<Resource>, works: nat -> bool)
    returns (reaped: set<nat>, removed: set<nat>)
    requires c.Valid() && Listed(entries, c.db.labelled)
    modifies c
    ensures c.Valid() && old(c.past) <= c.past && old(c.log) <= c.log
    ensures forall id | id in reaped ::
              id !in active && OldEnough(entries, id, now) && id in c.db.homes && id !in c.db.rows
    ensures HostDone(entries, active, now, reaped, c.past, |old(c.past)| - 1)
    ensures forall id :: id in removed <==> id in reaped && works(id)
  {
    c.Sound();
    var youngest, invalid := Survey(entries, active, now);
    forall id
      ensures id !in active && OldEnough(entries, id, now) <==>
              id in youngest && id !in invalid && now - youngest[id] >= SAFETY_AGE
    {
      SurveyDecides(entries, active, now, youngest, invalid, id);
    }
    var old0 := set id | id in youngest && id !in invalid && now - youngest[id] >= SAFETY_AGE;
    forall id | id in old0
      ensures id in c.db.homes
    {
      var i :| 0 <= i < |entries| && Belongs(entries[i], id);
    }
    reaped, removed := ReapAll(c, old0, works);
  }

  /** The second loop of `_reconcile_orphans`. */
  method ReapAll(c: InstanceCoordinator, candidates: set<nat>, works: nat -> bool)
    returns (reaped: set<nat>, removed: set<nat>)
    requires c.Valid() && forall id | id in candidates :: id in c.db.homes
    modifies c
    ensures c.Valid() && old(c.past) <= c.past && old(c.log) <= c.log && reaped <= candidates
    ensures forall id | id in reaped :: id in c.db.homes && id !in c.db.rows
    ensures forall id | id in candidates && id !in reaped :: SeenSince(c.past, |old(c.past)| - 1, id)
    ensures forall id :: id in removed <==> id in reaped && works(id)
  {
    var todo := candidates;
    ghost var from := |c.past| - 1;
    reaped, removed := {}, {};
    while todo != {}
      invariant c.Valid() && old(c.past) <= c.past && old(c.log) <= c.log && reaped + todo <= candidates
      invariant forall id | id in candidates :: id in c.past[from].homes
      invariant forall id | id in reaped :: id in c.db.homes && id !in c.db.rows
      invariant forall id | id in candidates && id !in reaped && id !in todo :: SeenSince(c.past, from, id)
      invariant forall id :: id in removed <==> id in reaped && works(id)
      decreases |todo|
    {
      var id :| id in todo;
      var present := LookAgain(c, id, reaped, candidates - reaped - todo, from);
      if !present {
        reaped := reaped + {id};
        if works(id) {
          removed := removed + {id};
        }
      }
      todo := todo - {id};
    }
  }

  /** The second look for a row, some time after the first. */
  method LookAgain(c: InstanceCoordinator, id: nat, ghost reaped: set<nat>, ghost spared: set<nat>, ghost from: nat)
    returns (present: bool)
    requires c.Valid() && from < |c.past| && id in c.past[from].homes
    requires forall x | x in reaped :: x in c.db.homes && x !in c.db.rows
    requires forall x | x in spared :: SeenSince(c.past, from, x)
    modifies c
    ensures c.Valid() && old(c.past) <= c.past && old(c.log) <= c.log
    ensures forall x | x in reaped :: x in c.db.homes && x !in c.db.rows
    ensures forall x | x in spared :: SeenSince(c.past, from, x)
    ensures id in c.db.homes && (present <==> id in c.db.rows)
    ensures present ==> SeenSince(c.past, from, id)
  {
    ghost var at, before := |c.past| - 1, c.past;
    c.Others();
    StillGone(c.past, c.log, at, reaped);
    SeenLater(before, c.past, from, spared);
    IssuedLater(c.past, c.log, from, id);
    present := id in c.db.rows;
    assert present ==> HadRow(c.past, |c.past| - 1, id);
  }

  lemma {:induction false} SeenLater(past: seq<Db>, past2: seq<Db>, from: nat, ids: set<nat>)
    requires past <= past2 && forall id | id in ids :: SeenSince(past, from, id)
    ensures forall id | id in ids :: SeenSince(past2, from, id)
  {
    forall id | id in ids
      ensures SeenSince(past2, from, id)
    {
      var k: nat :| from <= k && HadRow(past, k, id);
      assert HadRow(past2, k, id);
    }
  }

  lemma {:induction false} IssuedLater(past: seq<Db>, log: seq<Event>, i: nat, id: nat)
    requires Recorded(past, log) && i < |past| && id in past[i].homes
    ensures id in past[|past| - 1].homes
  {
    Ages(past, log, i, |past| - 1);
    assert Issued(past[i], id);
  }

  // Everything old enough in a listing was reaped, or active at first, or had a row at some moment.
  ghost predicate HostDone(entries: seq<Resource>, active: set<nat>, now: int, reaped: set<nat>, past: seq<Db>,
                           from: nat) {
    forall id | id !in active && OldEnough(entries, id, now) && id !in reaped :: SeenSince(past, from, id)
  }

  ghost predicate HostsDone(lists: seq<seq<Resource>>, active: set<nat>, now: int, reaped: set<nat>, past: seq<Db>,
                            from: nat) {
    forall h | 0 <= h < |lists| :: HostDone(lists[h], active, now, reaped, past, from)
  }

  lemma {:induction false} HostsDoneLater(lists: seq<seq<Resource>>, active: set<nat>, now: int, reaped: set<nat>,
                                          past: seq<Db>, from: nat, more: set<nat>, past2: seq<Db>)
    requires HostsDone(lists, active, now, reaped, past, from) && past <= past2
    ensures HostsDone(lists, active, now, reaped + more, past2, from)
  {
    forall h | 0 <= h < |lists|
      ensures HostDone(lists[h], active, now, reaped + more, past2, from)
    {
      forall id | id !in active && OldEnough(lists[h], id, now) && id !in reaped + more
        ensures SeenSince(past2, from, id)
      {
        assert HostDone(lists[h], active, now, reaped, past, from) && SeenSince(past, from, id);
        SeenLater(past, past2, from, {id});
      }
    }
  }

  lemma {:induction false} SeenEarlier(past: seq<Db>, from: nat, later: nat, id: nat)
    requires from <= later && SeenSince(past, later, id)
    ensures SeenSince(past, from, id)
  {
    var k: nat :| later <= k && HadRow(past, k, id);
    assert HadRow(past, k, id);
  }

  /** `_reconcile_orphans` over all connected hosts; `lists` are the listings it got, those
      that failed left out.  What it reaped has no row and never will; what it should have
      reaped and did not had a row when it looked. */
  method ReconcileOrphans(c: InstanceCoordinator, hosts: nat, now: int, works: nat -> nat -> bool)
    returns (reaped: set<nat>, lists: seq<seq<Resource>>, removed: set<(nat, nat)>)
    requires c.Valid()
    modifies c
    ensures c.Valid() && old(c.past) <= c.past && old(c.log) <= c.log
    ensures forall id | id in reaped :: id !in old(c.db).rows && id in c.db.homes && id !in c.db.rows
    ensures HostsDone(lists, old(c.db).rows.Keys, now, reaped, c.past, |old(c.past)| - 1)
    ensures forall h, id | (h, id) in removed :: id in reaped && works(h)(id)
  {
    var active := c.db.rows.Keys;
    ghost var from := |c.past| - 1;
    reaped, lists, removed := {}, [], {};
    for h := 0 to hosts
      invariant c.Valid() && old(c.past) <= c.past && old(c.log) <= c.log
      invariant forall id | id in reaped :: id !in active && id in c.db.homes && id !in c.db.rows
      invariant HostsDone(lists, active, now, reaped, c.past, from)
      invariant forall x, id | (x, id) in removed :: id in reaped && works(x)(id)
    {
      var entries, more, gone;
      var listed: bool := *;
      entries := ListHost(c, reaped, lists, active, now, from);
      if listed {
        more, gone := ReapListed(c, active, now, entries, works(h), reaped, lists, from);
        reaped, lists := reaped + more, lists + [entries];
        removed := removed + set id | id in gone :: (h, id);
      }
    }
  }

  // One more host is reaped, while what was done for the others stays true.
  method ReapListed(c: InstanceCoordinator, active: set<nat>, now: int, entries: seq<Resource>, works: nat -> bool,
                    ghost reaped: set<nat>, ghost lists: seq<seq<Resource>>, ghost from: nat)
    returns (more: set<nat>, gone: set<nat>)
    requires c.Valid() && Listed(entries, c.db.labelled) && from < |c.past|
    requires forall id | id in reaped :: id in c.db.homes && id !in c.db.rows
    requires HostsDone(lists, active, now, reaped, c.past, from)
    modifies c
    ensures c.Valid() && old(c.past) <= c.past && old(c.log) <= c.log
    ensures forall id | id in reaped + more :: id in c.db.homes && id !in c.db.rows
    ensures forall id | id in more :: id !in active
    ensures forall id | id in gone :: id in more && works(id)
    ensures HostsDone(lists + [entries], active, now, reaped + more, c.past, from)
  {
    ghost var at, before := |c.past| - 1, c.past;
    more, gone := ReapHost(c, active, now, entries, works);
    StillGone(c.past, c.log, at, reaped);
    HostsDoneLater(lists, active, now, reaped, before, from, more, c.past);
    JustDone(entries, active, now, reaped, more, c.past, from, at);
  }

  lemma {:induction false} JustDone(entries: seq<Resource>, active: set<nat>, now: int, reaped: set<nat>,
                                    more: set<nat>, past: seq<Db>, from: nat, at: nat)
    requires from <= at && HostDone(entries, active, now, more, past, at)
    ensures HostDone(entries, active, now, reaped + more, past, from)
  {
    forall id | id !in active && OldEnough(entries, id, now) && id !in reaped + more
      ensures SeenSince(past, from, id)
    {
      SeenEarlier(past, from, at, id);
    }
  }

  // The listing of one host, some time later.
  method ListHost(c: InstanceCoordinator, ghost reaped: set<nat>, ghost lists: seq<seq<Resource>>,
                  ghost active: set<nat>, now: int, ghost from: nat)
    returns (entries: seq<Resource>)
    requires c.Valid() && forall id | id in reaped :: id in c.db.homes && id !in c.db.rows
    requires HostsDone(lists, active, now, reaped, c.past, from)
    modifies c
    ensures c.Valid() && old(c.past) <= c.past && old(c.log) <= c.log && Listed(entries, c.db.labelled)
    ensures forall id | id in reaped :: id in c.db.homes && id !in c.db.rows
    ensures HostsDone(lists, active, now, reaped, c.past, from)
  {
    ghost var at, before := |c.past| - 1, c.past;
    c.Others();
    StillGone(c.past, c.log, at, reaped);
    HostsDoneLater(lists, active, now, reaped, before, from, {}, c.past);
    assert reaped + {} == reaped;
    NothingListed(c.db.labelled);
    entries :| Listed(entries, c.db.labelled);
  }
}
