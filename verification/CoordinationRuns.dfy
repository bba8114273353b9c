/** Whole runs of the instance tables: any interleaving of requesters, cleaners, maintenance
    workers and administrators, one committed transaction after the other. */
module CoordinationRuns {
  import opened Support
  import opened CoordinationTables

  ghost predicate StepAt(past: seq<Db>, log: seq<Event>, i: nat)
    requires i < |log| && |past| == |log| + 1
  {
    past[i + 1] == Apply(past[i], log[i])
  }

  ghost predicate Recorded(past: seq<Db>, log: seq<Event>) {
    && |past| == |log| + 1
    && past[0] == EMPTY
    && forall i: nat | i < |log| :: StepAt(past, log, i)
  }

  lemma {:induction false} InvThroughout(past: seq<Db>, log: seq<Event>, i: nat)
    requires Recorded(past, log) && i < |past|
    ensures Inv(past[i])
  {
    if i == 0 {
      EmptyDb();
    } else {
      InvThroughout(past, log, i - 1);
      assert StepAt(past, log, i - 1);
      EventKeepsInv(past[i - 1], log[i - 1]);
    }
  }

  lemma {:induction false} Extended(past: seq<Db>, log: seq<Event>, e: Event, d: Db)
    requires Recorded(past, log) && d == Apply(past[|past| - 1], e)
    ensures Recorded(past + [d], log + [e])
  {
    var p, l := past + [d], log + [e];
    forall i: nat | i < |l|
      ensures StepAt(p, l, i)
    {
      if i < |log| {
        assert StepAt(past, log, i);
      }
    }
  }

  // The event at position i took effect.
  ghost predicate Effective(past: seq<Db>, log: seq<Event>, i: nat)
    requires i < |log| && |past| == |log| + 1
  {
    Enabled(past[i], log[i])
  }

  // ----- the life of one instance

  // What a maintenance decision is based on.
  datatype Lifecycle = Lifecycle(state: State, expires: int, solvedAt: Option<int>, renewals: nat,
                                 createSlot: Option<nat>)

  function LifecycleOf(r: Row): Lifecycle {
    Lifecycle(r.state, r.expires, r.solvedAt, r.renewals, r.createSlot)
  }

  function Stage(s: State): nat {
    match s case Provisioning => 0 case Running => 1 case CleanupPending => 2
  }

  // What may become of a row: its identity stays, its stage and version only go up, equal
  // versions mean an equal lifecycle, and a solve mark is final.
  ghost predicate Successor(r: Row, s: Row) {
    && s.owner == r.owner && s.challenge == r.challenge && s.quotaSlot == r.quotaSlot && s.context == r.context
    && s.units == r.units && s.provisionToken == r.provisionToken && s.createdAt == r.createdAt
    && Stage(r.state) <= Stage(s.state)
    && r.version <= s.version
    && (r.version == s.version ==> LifecycleOf(r) == LifecycleOf(s))
    && (r.solvedAt.Some? ==> s.solvedAt == r.solvedAt && s.renewals == r.renewals)
  }

  ghost predicate Issued(d: Db, i: nat) {
    i in d.homes
  }

  // From a to b: ids are never reused, their first hostname is never forgotten.
  ghost predicate Aged(a: Db, b: Db) {
    && (forall i | Issued(a, i) :: Issued(b, i) && b.homes[i] == a.homes[i])
    && (forall i | i in b.rows && Issued(a, i) :: i in a.rows && Successor(a.rows[i], b.rows[i]))
    && (forall i | i in a.rows :: Issued(a, i))
    && a.drawn <= b.drawn && a.contextIds <= b.contextIds
  }

  // The event updates the row of this instance.
  ghost predicate Acts(d: Db, e: Event, id: nat) {
    Enabled(d, e) && WritesRow(e) && !e.Reserve? && e.id == id
  }

  ghost function RowAfter(d: Db, e: Event, id: nat): Row
    requires id in d.rows
  {
    if Acts(d, e, id) then Updated(d.rows[id], e) else d.rows[id]
  }

  // What one event does to the row and the first hostname of an issued id.
  lemma {:induction false} RowStep(d: Db, e: Event, id: nat)
    requires Issued(d, id)
    ensures id in Apply(d, e).rows ==> id in d.rows && Apply(d, e).rows[id] == RowAfter(d, e, id)
  {
  }

  lemma {:induction false} HomeStep(d: Db, e: Event, id: nat)
    requires Issued(d, id)
    ensures Issued(Apply(d, e), id) && Apply(d, e).homes[id] == d.homes[id]
  {
  }

  lemma {:induction false} RowIssued(d: Db, id: nat)
    requires AllAtHome(d) && id in d.rows
    ensures Issued(d, id)
  {
    assert AtHome(d, id);
  }

  lemma {:induction false} UpdateSucceeds(d: Db, e: Event, id: nat)
    requires id in d.rows
    ensures Successor(d.rows[id], RowAfter(d, e, id))
  {
  }

  lemma {:induction false} SetsGrow(d: Db, e: Event)
    ensures d.drawn <= Apply(d, e).drawn && d.contextIds <= Apply(d, e).contextIds
  {
  }

  lemma {:induction false} EventAges(d: Db, e: Event, f: Db)
    requires AllAtHome(d) && f == Apply(d, e)
    ensures Aged(d, f)
  {
    SetsGrow(d, e);
    forall i | Issued(d, i)
      ensures Issued(f, i) && f.homes[i] == d.homes[i]
      ensures i in f.rows ==> i in d.rows && Successor(d.rows[i], f.rows[i])
    {
      HomeStep(d, e, i);
      RowStep(d, e, i);
      if i in d.rows {
        UpdateSucceeds(d, e, i);
      }
    }
    forall i | i in d.rows
      ensures Issued(d, i)
    {
      RowIssued(d, i);
    }
  }

  lemma {:induction false} AgedTransitive(a: Db, b: Db, c: Db)
    requires Aged(a, b) && Aged(b, c)
    ensures Aged(a, c)
  {
  }

  /** From any moment of a run to any later one. */
  lemma {:induction false} Ages(past: seq<Db>, log: seq<Event>, i: nat, j: nat)
    requires Recorded(past, log) && i <= j < |past|
    ensures Aged(past[i], past[j])
    decreases j
  {
    if i == j {
      InvThroughout(past, log, i);
      forall k | k in past[i].rows
        ensures Issued(past[i], k)
      {
        RowIssued(past[i], k);
      }
    } else {
      Ages(past, log, i, j - 1);
      InvThroughout(past, log, j - 1);
      assert StepAt(past, log, j - 1);
      EventAges(past[j - 1], log[j - 1], past[j]);
      AgedTransitive(past[i], past[j - 1], past[j]);
    }
  }

  /** An id that was issued and has no row any more never has a row again. */
  lemma {:induction false} GoneForGood(past: seq<Db>, log: seq<Event>, i: nat, j: nat, id: nat)
    requires Recorded(past, log) && i <= j < |past| && id in past[i].homes && id !in past[i].rows
    ensures id !in past[j].rows
  {
    Ages(past, log, i, j);
    assert Issued(past[i], id);
  }

  lemma {:induction false} AliveBetween(past: seq<Db>, log: seq<Event>, i: nat, k: nat, j: nat, id: nat)
    requires Recorded(past, log) && i <= k <= j < |past| && id in past[i].rows && id in past[j].rows
    ensures id in past[k].rows
  {
    Ages(past, log, i, k);
    Ages(past, log, k, j);
    assert Issued(past[i], id) && Issued(past[k], id);
  }

  // The same along a run.
  lemma {:induction false} RowAt(past: seq<Db>, log: seq<Event>, k: nat, id: nat)
    requires Recorded(past, log) && k < |log| && Issued(past[k], id) && id in past[k + 1].rows
    ensures id in past[k].rows && past[k + 1].rows[id] == RowAfter(past[k], log[k], id)
  {
    InvThroughout(past, log, k);
    assert StepAt(past, log, k);
    RowStep(past[k], log[k], id);
  }

  // ----- version discipline

  // Everything but a release is a lifecycle write.
  ghost predicate LifecycleWrite(d: Db, e: Event, id: nat) {
    Acts(d, e, id) && !e.Release?
  }

  /** A transaction changes the lifecycle of a row only as a lifecycle write, and each of
      those adds exactly one to the version. */
  lemma {:induction false} VersionStep(d: Db, e: Event, id: nat)
    requires id in d.rows
    ensures RowAfter(d, e, id).version == d.rows[id].version + if LifecycleWrite(d, e, id) then 1 else 0
    ensures !LifecycleWrite(d, e, id) ==> LifecycleOf(RowAfter(d, e, id)) == LifecycleOf(d.rows[id])
  {
  }

  // How many lifecycle writes to the row took effect from moment i to moment j.
  ghost function Writes(past: seq<Db>, log: seq<Event>, id: nat, i: nat, j: nat): nat
    requires |past| == |log| + 1 && i <= j <= |log|
    decreases j
  {
    if i == j then 0
    else Writes(past, log, id, i, j - 1) + if LifecycleWrite(past[j - 1], log[j - 1], id) then 1 else 0
  }

  lemma {:induction false} VersionCountsWrites(past: seq<Db>, log: seq<Event>, id: nat, i: nat, j: nat)
    requires Recorded(past, log) && i <= j < |past| && id in past[i].rows && id in past[j].rows
    ensures past[j].rows[id].version == past[i].rows[id].version + Writes(past, log, id, i, j)
    decreases j
  {
    if i < j {
      AliveBetween(past, log, i, j - 1, j, id);
      VersionCountsWrites(past, log, id, i, j - 1);
      InvThroughout(past, log, j - 1);
      RowIssued(past[j - 1], id);
      RowAt(past, log, j - 1, id);
      VersionStep(past[j - 1], log[j - 1], id);
    }
  }

  /** A maintenance claim based on a scan at moment i takes effect at moment j only if the
      row has not been renewed, extended, shortened or claimed in between. */
  lemma {:induction false} StaleScanFails(past: seq<Db>, log: seq<Event>, i: nat, j: nat)
    requires Recorded(past, log) && i <= j < |log| && Effective(past, log, j)
    requires log[j].Claim? && log[j].id in past[i].rows && log[j].version == Some(past[i].rows[log[j].id].version)
    ensures Writes(past, log, log[j].id, i, j) == 0
    ensures LifecycleOf(past[j].rows[log[j].id]) == LifecycleOf(past[i].rows[log[j].id])
  {
    var id := log[j].id;
    VersionCountsWrites(past, log, id, i, j);
    Ages(past, log, i, j);
    assert Issued(past[i], id);
  }

  /** Once a row is marked solved, its expiry rises only by an administrator's extension. */
  lemma {:induction false} OnlyExtensionProlongs(past: seq<Db>, log: seq<Event>, id: nat, i: nat, j: nat)
    requires Recorded(past, log) && i <= j < |past| && id in past[i].rows && id in past[j].rows
    requires past[i].rows[id].solvedAt.Some? && past[j].rows[id].expires > past[i].rows[id].expires
    ensures exists k :: i <= k < j && Effective(past, log, k) && log[k].Extend? && log[k].id == id
    decreases j
  {
    if i < j {
      AliveBetween(past, log, i, j - 1, j, id);
      if past[j - 1].rows[id].expires > past[i].rows[id].expires {
        OnlyExtensionProlongs(past, log, id, i, j - 1);
      } else {
        LastStepProlongs(past, log, id, i, j - 1);
      }
    }
  }

  lemma {:induction false} LastStepProlongs(past: seq<Db>, log: seq<Event>, id: nat, i: nat, k: nat)
    requires Recorded(past, log) && i <= k < |log| && id in past[i].rows && id in past[k].rows && id in past[k + 1].rows
    requires past[i].rows[id].solvedAt.Some? && past[k + 1].rows[id].expires > past[k].rows[id].expires
    ensures Effective(past, log, k) && log[k].Extend? && log[k].id == id
  {
    Ages(past, log, i, k);
    assert Issued(past[i], id) && Issued(past[k], id);
    RowAt(past, log, k, id);
    SolvedStep(past[k], log[k], id);
  }

  lemma {:induction false} SolvedStep(d: Db, e: Event, id: nat)
    requires id in d.rows && d.rows[id].solvedAt.Some? && RowAfter(d, e, id).expires > d.rows[id].expires
    ensures Enabled(d, e) && e.Extend? && e.id == id
  {
  }

  // ----- operation tokens

  ghost predicate HeldBy(d: Db, id: nat, token: nat) {
    id in d.rows && d.rows[id].operationToken == Some(token)
  }

  lemma {:induction false} TokenStep(d: Db, e: Event, id: nat, token: nat)
    requires id in d.rows && Shaped(d.rows[id]) && token in d.drawn && RowAfter(d, e, id).operationToken == Some(token)
    ensures HeldBy(d, id, token) && !LifecycleWrite(d, e, id)
  {
  }

  /** A token, once drawn, identifies one claim: while a row carries it, nobody has claimed,
      renewed or otherwise written the row since, and a row that lost it never carries it
      again. So a delete or release that presents it acts for the latest claim. */
  lemma {:induction false} TokenFences(past: seq<Db>, log: seq<Event>, id: nat, token: nat, i: nat, j: nat)
    requires Recorded(past, log) && i <= j < |past| && token in past[i].drawn && Issued(past[i], id)
               && HeldBy(past[j], id, token)
    ensures HeldBy(past[i], id, token) && Writes(past, log, id, i, j) == 0
    ensures LifecycleOf(past[j].rows[id]) == LifecycleOf(past[i].rows[id])
    decreases j
  {
    if i < j {
      Ages(past, log, i, j - 1);
      InvThroughout(past, log, j - 1);
      assert Issued(past[j - 1], id);
      RowAt(past, log, j - 1, id);
      TokenStep(past[j - 1], log[j - 1], id, token);
      VersionStep(past[j - 1], log[j - 1], id);
      TokenFences(past, log, id, token, i, j - 1);
    }
  }

  // ----- admission

  ghost function OwnedBy(d: Db, owner: Owner): set<nat> {
    set i | i in d.rows && d.rows[i].owner == owner
  }

  ghost function Creating(d: Db, context: nat): set<nat> {
    set i | i in d.rows && d.rows[i].context == context && d.rows[i].createSlot.Some?
  }

  ghost predicate QuotaAtMost(log: seq<Event>, owner: Owner, n: nat) {
    forall i | 0 <= i < |log| && log[i].Reserve? && log[i].plan.owner == owner :: log[i].plan.maxInstances <= n
  }

  ghost predicate CreatesAtMost(log: seq<Event>, context: nat, n: nat) {
    forall i | 0 <= i < |log| && log[i].Reserve? && log[i].plan.context == context :: log[i].plan.maxCreates <= n
  }

  lemma {:induction false} SlotsBelow(past: seq<Db>, log: seq<Event>, owner: Owner, n: nat, j: nat)
    requires Recorded(past, log) && j < |past| && QuotaAtMost(log, owner, n)
    ensures forall i | i in past[j].rows && past[j].rows[i].owner == owner :: past[j].rows[i].quotaSlot < n
  {
    if j > 0 {
      SlotsBelow(past, log, owner, n, j - 1);
      assert StepAt(past, log, j - 1);
    }
  }

  lemma {:induction false} CreateSlotsBelow(past: seq<Db>, log: seq<Event>, context: nat, n: nat, j: nat)
    requires Recorded(past, log) && j < |past| && CreatesAtMost(log, context, n)
    ensures forall i | i in past[j].rows && past[j].rows[i].context == context && past[j].rows[i].createSlot.Some? ::
              past[j].rows[i].createSlot.value < n
  {
    if j > 0 {
      CreateSlotsBelow(past, log, context, n, j - 1);
      assert StepAt(past, log, j - 1);
    }
  }

  /** Whatever the interleaving, an owner never has more rows than the largest quota used
      for it, and never two for one challenge. */
  lemma {:induction false} OwnerAdmission(past: seq<Db>, log: seq<Event>, owner: Owner, n: nat, j: nat)
    requires Recorded(past, log) && j < |past| && QuotaAtMost(log, owner, n)
    ensures |OwnedBy(past[j], owner)| <= n
    ensures forall a, b | a in OwnedBy(past[j], owner) && b in OwnedBy(past[j], owner) && a != b ::
              past[j].rows[a].challenge != past[j].rows[b].challenge
  {
    InvThroughout(past, log, j);
    SlotsBelow(past, log, owner, n, j);
    var d := past[j];
    Pigeonhole(OwnedBy(d, owner), map i | i in d.rows :: d.rows[i].quotaSlot, n);
  }

  /** And a context never has more rows holding a create slot than the largest number of
      concurrent creates used for it; they are exactly the rows not yet running and those
      that never ran. */
  lemma {:induction false} CreateAdmission(past: seq<Db>, log: seq<Event>, context: nat, n: nat, j: nat)
    requires Recorded(past, log) && j < |past| && CreatesAtMost(log, context, n)
    ensures |Creating(past[j], context)| <= n
    ensures forall i | i in past[j].rows && past[j].rows[i].context == context ::
              && (i in Creating(past[j], context) <==> past[j].rows[i].entry.None?)
              && (past[j].rows[i].state == Provisioning ==> i in Creating(past[j], context))
              && (past[j].rows[i].state == Running ==> i !in Creating(past[j], context))
  {
    InvThroughout(past, log, j);
    CreateSlotsBelow(past, log, context, n, j);
    var d := past[j];
    assert forall i | i in d.rows :: Shaped(d.rows[i]);
    Pigeonhole(Creating(d, context),
               map i | i in d.rows && d.rows[i].createSlot.Some? :: d.rows[i].createSlot.value, n);
  }

  // ----- endpoints

  // How many reservations were placed on the context from moment i to moment j.
  ghost function Placements(past: seq<Db>, log: seq<Event>, context: nat, i: nat, j: nat): nat
    requires |past| == |log| + 1 && i <= j <= |log|
    decreases j
  {
    if i == j then 0
    else Placements(past, log, context, i, j - 1) + if PlacesOn(past[j - 1], log[j - 1], context) then 1 else 0
  }

  ghost predicate PlacesOn(d: Db, e: Event, c: nat) {
    Enabled(d, e) && e.Reserve? && e.plan.context == c
  }

  lemma {:induction false} PlacementStep(d: Db, e: Event, c: nat)
    requires ContextsDistinct(d.contexts, d.contextIds) && c in d.contextIds && c in Apply(d, e).contexts
    ensures c in d.contexts
    ensures Apply(d, e).contexts[c].placementVersion ==
              d.contexts[c].placementVersion + if PlacesOn(d, e, c) then 1 else 0
  {
  }

  lemma {:induction false} PlacementVersionCounts(past: seq<Db>, log: seq<Event>, c: nat, i: nat, j: nat)
    requires Recorded(past, log) && i <= j < |past| && c in past[i].contexts && c in past[j].contexts
    ensures past[j].contexts[c].placementVersion ==
              past[i].contexts[c].placementVersion + Placements(past, log, c, i, j)
    decreases j
  {
    if i < j {
      InvThroughout(past, log, i);
      InvThroughout(past, log, j - 1);
      Ages(past, log, i, j - 1);
      assert StepAt(past, log, j - 1);
      PlacementStep(past[j - 1], log[j - 1], c);
      PlacementVersionCounts(past, log, c, i, j - 1);
    }
  }

  /** An endpoint change that commits at moment j after its handler first read the context at
      moment i: no reservation was placed there in between, however often the context was
      activated and drained again, and no instance refers to it. */
  lemma {:induction false} EndpointChangeIsolated(past: seq<Db>, log: seq<Event>, i: nat, j: nat)
    requires Recorded(past, log) && i <= j < |log| && Effective(past, log, j) && log[j].ChangeEndpoint?
    requires log[j].context in past[i].contexts && log[j].seen == past[i].contexts[log[j].context]
    ensures Placements(past, log, log[j].context, i, j) == 0
    ensures forall x | x in past[j].rows :: past[j].rows[x].context != log[j].context
    ensures AllAtHome(past[j + 1])
  {
    PlacementVersionCounts(past, log, log[j].context, i, j);
    InvThroughout(past, log, j + 1);
  }

  /** As long as an instance has a row, its context has the hostname it was reserved against. */
  lemma {:induction false} HostnameKept(past: seq<Db>, log: seq<Event>, id: nat, i: nat, j: nat)
    requires Recorded(past, log) && i <= j < |past| && id in past[i].rows && id in past[j].rows
    ensures past[j].rows[id].context == past[i].rows[id].context
    ensures past[i].rows[id].context in past[i].contexts && past[i].rows[id].context in past[j].contexts
    ensures past[j].contexts[past[i].rows[id].context].hostname == past[i].contexts[past[i].rows[id].context].hostname
  {
    InvThroughout(past, log, i);
    InvThroughout(past, log, j);
    Ages(past, log, i, j);
    assert AtHome(past[i], id) && AtHome(past[j], id) && Issued(past[i], id);
  }

  // ----- nothing is stuck

  // The first cutoff at which a maintenance pass selects the row.
  function Due(r: Row, safetyAge: int): int {
    match r.state
    case Running => r.expires + 1
    case CleanupPending => r.updatedAt + safetyAge + 1
    case Provisioning => (if r.deadline.Some? then r.deadline.value else 0) + safetyAge + 1
  }

  /** Every row of every reachable state is due at some time, and from then on the maintenance
      claim made at its current version takes effect: never before, and at no other version. */
  lemma {:induction false} NothingStuck(d: Db, id: nat, version: nat, sweep: Sweep, stale: int, token: nat, now: int)
    requires Inv(d) && id in d.rows && token !in d.drawn
    requires 0 < stale <= sweep.safetyAge && sweep.cutoff <= now
    ensures var r := d.rows[id];
            Enabled(d, Event.Claim(id, {r.state}, Some(version), Some(sweep), stale, token, now)) <==>
            sweep.cutoff >= Due(r, sweep.safetyAge) && version == r.version
  {
    assert Shaped(d.rows[id]);
  }

  /** A release keeps the version but renews the age: a claim for a scanned row at its scanned
      version still takes effect after it if and only if the release itself is old enough. */
  lemma {:induction false} ReleaseOutdatesScan(d: Db, id: nat, held: nat, at: int, sweep: Sweep, stale: int, token: nat,
                                               now: int)
    requires AllShaped(d) && Enabled(d, Release(id, held, at)) && Scanned(d.rows[id], sweep)
    requires sweep.safetyAge > 0 && stale > 0 && token !in d.drawn
    ensures var r, e := d.rows[id], Apply(d, Release(id, held, at));
            && id in e.rows && e.rows[id].version == r.version && LifecycleOf(e.rows[id]) == LifecycleOf(r)
            && (Enabled(e, Event.Claim(id, {r.state}, Some(r.version), Some(sweep), stale, token, now)) <==>
                at < sweep.cutoff - sweep.safetyAge)
  {
    var r := d.rows[id];
    assert Shaped(r);
    assert Apply(d, Release(id, held, at)).rows[id] == Updated(r, Release(id, held, at));
  }

  // A pass that selects the row finds its lease expired.
  ghost predicate SelectedFree(r: Row, cutoff: int, now: int, stale: int, safetyAge: int) {
    Shaped(r) && cutoff <= now && Scanned(r, Sweep(cutoff, safetyAge)) ==>
      r.operationToken.None? || r.updatedAt < now - stale
  }

  /** The safety age must be at least the lease for this: with a shorter one a pass may select
      a row whose lease still runs. */
  lemma {:induction false} SafetyAgeCoversLease(stale: int, safetyAge: int)
    requires stale > 0 && safetyAge > 0
    ensures safetyAge >= stale <==>
            forall r: Row, cutoff: int, now: int :: SelectedFree(r, cutoff, now, stale, safetyAge)
  {
    if safetyAge < stale {
      var r := Row(Owner.User(1), 1, 0, CleanupPending, 1, 0, Some(0), 1, None, 0, Some(0), Some(0), 0, 0, 0, 0, None);
      assert !SelectedFree(r, safetyAge + 1, safetyAge + 1, stale, safetyAge);
    }
  }
}
