/** `create_container` and its failure path in src/views/helpers.py, and the context update of
    src/views/routes_admin.py, as sequences of coordinator transactions with arbitrary docker
    outcomes and arbitrary other transactions in between. */
module Provisioning {
  import opened Support
  import opened CoordinationTables
  import opened CoordinationRuns
  import opened Placement
  import opened Coordinator

  // ----- what a caller may rely on while others work

  // The row of an issued id, if it still exists, carries this provision token.
  ghost predicate OwnRow(d: Db, id: nat, token: nat) {
    id in d.homes && (id in d.rows ==> d.rows[id].provisionToken == token)
  }

  // The reservation is no longer waiting for its containers.
  ghost predicate PastProvisioning(d: Db, id: nat) {
    id in d.homes && (id in d.rows ==> d.rows[id].state != Provisioning)
  }

  lemma {:induction false} OwnRowLater(past: seq<Db>, log: seq<Event>, i: nat, id: nat, token: nat)
    requires Recorded(past, log) && i < |past| && OwnRow(past[i], id, token)
    ensures OwnRow(past[|past| - 1], id, token)
    ensures PastProvisioning(past[i], id) ==> PastProvisioning(past[|past| - 1], id)
  {
    Ages(past, log, i, |past| - 1);
    assert Issued(past[i], id);
  }

  // ----- creation

  datatype Creation = Denied(why: Reservation) | Created(row: Row, port: nat) | Failed

  // What the docker side does during one call: which steps succeed, whether a removal of the
  // labelled resources does, and which containers come up.
  datatype Outside = Outside(contextsLoaded: bool, volumesResolved: bool, started: bool, portFound: bool, removed: bool,
                             entry: nat, parts: seq<Part>)

  // After a failure: no longer provisioning, and gone if the resources are known to be removed.
  ghost predicate Settled(d: Db, id: nat, o: Outside) {
    PastProvisioning(d, id) && (o.contextsLoaded && o.started && o.removed ==> id !in d.rows)
  }

  // The instance runs, as the reservation r it was made from, and its entry has the given port.
  ghost predicate RunsAs(d: Db, id: nat, token: nat, r: Row, port: nat) {
    && id in d.rows && d.rows[id].state == Running && d.rows[id].entry.Some?
    && d.rows[id].entry.value in d.members && d.members[d.rows[id].entry.value].port == port
    && d.rows[id].owner == r.owner && d.rows[id].challenge == r.challenge && d.rows[id].provisionToken == token
  }

  method LetOthersWork(c: InstanceCoordinator, id: nat, token: nat)
    requires c.Valid() && OwnRow(c.db, id, token)
    modifies c
    ensures c.Valid() && old(c.past) <= c.past && old(c.log) <= c.log && OwnRow(c.db, id, token)
    ensures PastProvisioning(old(c.db), id) ==> PastProvisioning(c.db, id)
  {
    ghost var i := |c.past| - 1;
    c.Others();
    OwnRowLater(c.past, c.log, i, id, token);
  }

  /** `_cleanup_failed_reservation`: the reservation does not stay in provisioning, and after a
      removal that is known to have succeeded no row of it is left. */
  method CleanupFailedReservation(c: InstanceCoordinator, id: nat, token: nat, ambiguous: bool, removed: bool, now: int)
    returns (done: bool)
    requires c.Valid() && OwnRow(c.db, id, token)
    modifies c
    ensures c.Valid() && old(c.past) <= c.past && old(c.log) <= c.log
    ensures OwnRow(c.db, id, token) && PastProvisioning(c.db, id)
    ensures !ambiguous && removed ==> id !in c.db.rows
    ensures done ==> !ambiguous && removed
  {
    done := false;
    ghost var i := |c.past| - 1;
    if !ambiguous {
      LetOthersWork(c, id, token);
      i := |c.past| - 1;
      if removed {
        done := c.DeleteAfterConfirmedCleanup(id, Some(token), None);
        OwnRowLater(c.past, c.log, i, id, token);
        return;
      }
    }
    var marked := c.MarkCleanupPending(id, token, now);
    OwnRowLater(c.past, c.log, i, id, token);
  }

  /** The docker call that creates labelled resources: it comes after the row has committed. */
  method CreateResources(c: InstanceCoordinator, id: nat, token: nat)
    requires c.Valid() && OwnRow(c.db, id, token)
    modifies c
    ensures c.Valid() && old(c.past) <= c.past && old(c.log) <= c.log && OwnRow(c.db, id, token)
    ensures id in c.db.labelled && id in old(c.db).homes
  {
    c.Commit(Label(id), c.db.(labelled := c.db.labelled + {id}));
  }

  /** `create_container`: success means the reservation became running with the containers that
      came up; after any failure the reservation is gone or handed over to cleanup. */
  method CreateContainer(c: InstanceCoordinator, q: Request, id: nat, token: nat, now: int, locked: nat -> bool,
                         o: Outside)
    returns (r: Creation)
    requires c.Valid()
    modifies c
    ensures c.Valid() && old(c.past) <= c.past && old(c.log) <= c.log
    ensures r.Denied? ==> !r.why.Made?
    ensures r.Failed? ==> Settled(c.db, id, o)
    ensures r.Created? ==> o.contextsLoaded && o.volumesResolved && o.started && o.portFound
    ensures r.Created? ==>
              RunsAs(c.db, id, token, r.row, r.port) && c.db.rows[id].entry == Some(o.entry)
              && |o.parts| == r.row.units
  {
    var reservation := ReserveOwned(c, q, id, token, now, locked);
    if !reservation.Made? {
      return Denied(reservation);
    }
    LetOthersWork(c, id, token);
    r := FillReservation(c, id, token, now, o);
  }

  method ReserveOwned(c: InstanceCoordinator, q: Request, id: nat, token: nat, now: int, locked: nat -> bool)
    returns (r: Reservation)
    requires c.Valid()
    modifies c
    ensures c.Valid() && old(c.past) <= c.past && old(c.log) <= c.log
    ensures r.Made? ==> OwnRow(c.db, id, token)
  {
    ghost var from := |c.past| - 1;
    r := c.ReserveInstance(q, id, token, now, locked);
    if r.Made? {
      JustOwned(c.past, c.log, from, q, r);
    }
  }

  lemma {:induction false} JustOwned(past: seq<Db>, log: seq<Event>, from: nat, q: Request, r: Reservation)
    requires Recorded(past, log) && r.Made? && JustReserved(past, log, from, q, r)
    ensures OwnRow(past[|past| - 1], r.id, r.token)
  {
    assert StepAt(past, log, |log| - 1);
  }

  method FillReservation(c: InstanceCoordinator, id: nat, token: nat, now: int, o: Outside) returns (r: Creation)
    requires c.Valid() && OwnRow(c.db, id, token)
    modifies c
    ensures c.Valid() && old(c.past) <= c.past && old(c.log) <= c.log && !r.Denied?
    ensures r.Failed? ==> Settled(c.db, id, o)
    ensures r.Created? ==> o.contextsLoaded && o.volumesResolved && o.started && o.portFound
    ensures r.Created? ==>
              RunsAs(c.db, id, token, r.row, r.port) && c.db.rows[id].entry == Some(o.entry)
              && |o.parts| == r.row.units
  {
    if !o.contextsLoaded || !o.volumesResolved {
      var gone := CleanupFailedReservation(c, id, token, !o.contextsLoaded, o.removed, now);
      return Failed;
    }
    CreateResources(c, id, token);
    LetOthersWork(c, id, token);
    if !o.started || !o.portFound {
      var gone := CleanupFailedReservation(c, id, token, !o.started, o.removed, now);
      return Failed;
    }
    r := Finalize(c, id, token, o);
    if r.Failed? {
      var gone := CleanupFailedReservation(c, id, token, false, o.removed, now);
    }
  }

  method Finalize(c: InstanceCoordinator, id: nat, token: nat, o: Outside) returns (r: Creation)
    requires c.Valid() && OwnRow(c.db, id, token)
    modifies c
    ensures c.Valid() && old(c.past) <= c.past && old(c.log) <= c.log && !r.Denied? && OwnRow(c.db, id, token)
    ensures r.Created? ==>
              RunsAs(c.db, id, token, r.row, r.port) && c.db.rows[id].entry == Some(o.entry)
              && |o.parts| == r.row.units
  {
    var clock: int := *;
    ghost var i := |c.past| - 1;
    var f := c.MarkRunning(id, token, o.entry, o.parts, clock);
    OwnRowLater(c.past, c.log, i, id, token);
    r := if f.Finalized? then Created(f.row, f.port) else Failed;
  }

  // ----- context update

  datatype Response = Updated | Missing | Rejected | Conflict | Unavailable

  // An endpoint change that committed as the last event, after a first read at moment `from`.
  ghost predicate EndpointChanged(past: seq<Db>, log: seq<Event>, from: nat, ctx: nat, hostname: Option<string>) {
    && log != [] && |past| == |log| + 1 && from < |log| && ctx in past[from].contexts
    && log[|log| - 1].ChangeEndpoint? && log[|log| - 1].context == ctx && log[|log| - 1].hostname == hostname
    && log[|log| - 1].seen == past[from].contexts[ctx] && Effective(past, log, |log| - 1)
  }

  lemma {:induction false} ChangedInIsolation(past: seq<Db>, log: seq<Event>, from: nat, ctx: nat,
                                              hostname: Option<string>)
    requires Recorded(past, log) && EndpointChanged(past, log, from, ctx, hostname)
    ensures Placements(past, log, ctx, from, |log| - 1) == 0
    ensures ctx in past[|log|].contexts && past[|log|].contexts[ctx].hostname == hostname
    ensures forall i | i in past[|log|].rows :: past[|log|].rows[i].context != ctx
  {
    EndpointChangeIsolated(past, log, from, |log| - 1);
    assert StepAt(past, log, |log| - 1);
  }

  /** The checks of `route_api_update_context` before its transaction; `resources` is how many
      docker resources the old endpoint reports, none if it cannot be asked. */
  method MayUpdate(c: InstanceCoordinator, ctx: nat, seen: Context, endpointChanged: bool, state: Option<ContextState>,
                   resources: Option<nat>)
    returns (refusal: Option<Response>)
    requires c.Valid()
    modifies c
    ensures c.Valid() && old(c.past) <= c.past && old(c.log) <= c.log
    ensures refusal != Some(Updated) && refusal != Some(Missing)
    ensures refusal == Some(Rejected) <==> seen.state == Retired && state.Some?
    ensures refusal.None? && endpointChanged ==>
              Standing(seen.state) && (state.Some? ==> Standing(state.value)) && resources == Some(0)
    ensures refusal == Some(Unavailable) ==> endpointChanged && resources.None?
    ensures refusal == Some(Conflict) ==>
              && endpointChanged
              && (!Standing(seen.state) || (state.Some? && !Standing(state.value)) || resources != Some(0)
                  || (ctx in c.db.contexts && !ContextEmpty(c.db, ctx)))
  {
    if seen.state == Retired && state.Some? {
      return Some(Rejected);
    }
    if endpointChanged {
      if !Standing(seen.state) || (state.Some? && !Standing(state.value)) {
        return Some(Conflict);
      }
      c.Others();
      if ctx in c.db.contexts && !ContextEmpty(c.db, ctx) {
        return Some(Conflict);
      }
      if resources.None? {
        return Some(Unavailable);
      }
      if resources.value != 0 {
        return Some(Conflict);
      }
    }
    refusal := None;
  }

  /** The transaction of `route_api_update_context`. */
  method CommitUpdate(c: InstanceCoordinator, ctx: nat, seen: Context, hostname: Option<Option<string>>,
                      weight: Option<nat>, state: Option<ContextState>, endpointChanged: bool)
    returns (r: Response)
    requires c.Valid() && weight != Some(0) && state != Some(Retired)
    requires endpointChanged <==> hostname.Some? && hostname.value != seen.hostname
    requires endpointChanged ==> Standing(seen.state) && (state.Some? ==> Standing(state.value))
    modifies c
    ensures c.Valid() && (r.Updated? <==> c.log != old(c.log))
    ensures r == Missing <==> ctx !in old(c.db).contexts
    ensures r == Conflict <==>
              && ctx in old(c.db).contexts
              && var x := old(c.db).contexts[ctx];
              || (hostname.Some? && x.hostname != seen.hostname)
              || (endpointChanged && (x.state != seen.state || x.placementVersion != seen.placementVersion
                                      || !ContextEmpty(old(c.db), ctx)))
    ensures r == Rejected ==> old(c.db).contexts[ctx].state == Retired && state.Some?
    ensures r != Unavailable
    ensures !r.Updated? ==> c.db == old(c.db) && c.past == old(c.past)
    ensures r.Updated? ==>
              && c.past == old(c.past) + [c.db] && |c.log| == |old(c.log)| + 1 && old(c.log) <= c.log
              && ctx in old(c.db).contexts && ctx in c.db.contexts
              && c.db.contexts[ctx] == Adjusted(old(c.db).contexts[ctx], weight, state)
                                         .(hostname := if hostname.Some? then hostname.value
                                           else old(c.db).contexts[ctx].hostname)
    ensures r.Updated? && endpointChanged ==>
              && c.log[|c.log| - 1] == ChangeEndpoint(ctx, seen, hostname.value, weight, state)
              && Enabled(old(c.db), c.log[|c.log| - 1])
  {
    if ctx !in c.db.contexts {
      return Missing;
    }
    var x := c.db.contexts[ctx];
    if hostname.Some? && x.hostname != seen.hostname {
      return Conflict;
    }
    if endpointChanged {
      if x.state != seen.state || x.placementVersion != seen.placementVersion || !ContextEmpty(c.db, ctx) {
        return Conflict;
      }
    }
    if x.state == Retired && state.Some? {
      return Rejected;
    }
    if weight.Some? {
      x := x.(weight := weight.value);
    }
    if state.Some? {
      x := x.(state := state.value);
    }
    if hostname.Some? {
      x := x.(hostname := hostname.value);
    }
    if endpointChanged {
      ChangesTo(c.db, ctx, seen, hostname.value, weight, state, x);
      c.Commit(ChangeEndpoint(ctx, seen, hostname.value, weight, state), c.db.(contexts := c.db.contexts[ctx := x]));
    } else {
      UpdatesTo(c.db, ctx, weight, state, x);
      c.Commit(Event.UpdateContext(ctx, weight, state), c.db.(contexts := c.db.contexts[ctx := x]));
    }
    r := Updated;
  }

  lemma {:induction false} UpdatesTo(d: Db, ctx: nat, weight: Option<nat>, state: Option<ContextState>, x: Context)
    requires Enabled(d, Event.UpdateContext(ctx, weight, state)) && x == Adjusted(d.contexts[ctx], weight, state)
    ensures Apply(d, Event.UpdateContext(ctx, weight, state)) == d.(contexts := d.contexts[ctx := x])
  {
  }

  lemma {:induction false} ChangesTo(d: Db, ctx: nat, seen: Context, hostname: Option<string>, weight: Option<nat>,
                                     state: Option<ContextState>, x: Context)
    requires Enabled(d, ChangeEndpoint(ctx, seen, hostname, weight, state))
    requires x == Adjusted(d.contexts[ctx], weight, state).(hostname := hostname)
    ensures Apply(d, ChangeEndpoint(ctx, seen, hostname, weight, state)) == d.(contexts := d.contexts[ctx := x])
  {
  }

  /** `route_api_update_context`: an endpoint change commits only if nothing was placed on the
      context since the handler first read it, and nothing refers to it. */
  method UpdateContext(c: InstanceCoordinator, ctx: nat, hostname: Option<Option<string>>, weight: Option<nat>,
                       state: Option<ContextState>, resources: Option<nat>)
    returns (r: Response, ghost from: nat)
    requires c.Valid()
    modifies c
    ensures c.Valid() && old(c.past) <= c.past && from == |old(c.past)| - 1
    ensures r.Updated? ==> ctx in old(c.db).contexts && ctx in c.db.contexts
    ensures r.Updated? && hostname.Some? && hostname.value != old(c.db).contexts[ctx].hostname ==>
              && EndpointChanged(c.past, c.log, from, ctx, hostname.value)
              && Placements(c.past, c.log, ctx, from, |c.log| - 1) == 0 && resources == Some(0)
              && forall i | i in c.db.rows :: c.db.rows[i].context != ctx
    ensures r.Updated? && hostname.Some? ==> c.db.contexts[ctx].hostname == hostname.value
  {
    from := |c.past| - 1;
    if ctx !in c.db.contexts {
      r := Missing;
      return;
    }
    if weight == Some(0) || state == Some(Retired) {
      r := Rejected;
      return;
    }
    var seen := c.db.contexts[ctx];
    var endpointChanged := hostname.Some? && hostname.value != seen.hostname;
    var refusal := MayUpdate(c, ctx, seen, endpointChanged, state, resources);
    if refusal.Some? {
      r := refusal.value;
      return;
    }
    c.Others();
    ghost var past0 := c.past;
    r := CommitUpdate(c, ctx, seen, hostname, weight, state, endpointChanged);
    if r.Updated? && endpointChanged {
      assert c.past[|c.log| - 1] == past0[|past0| - 1];
      ChangedInIsolation(c.past, c.log, from, ctx, hostname.value);
    }
  }
}
