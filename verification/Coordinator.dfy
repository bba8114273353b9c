/** `InstanceCoordinator` of src/coordination.py.  `db` is the database all processes share;
    each method that is one SQL transaction computes the new tables step by step and commits
    them as one event, and `Others` is what everyone else may commit in between. */
module Coordinator {
  import opened Support
  import opened CoordinationTables
  import opened CoordinationRuns
  import opened Placement

  datatype Finalized = Finalized(row: Row, port: nat) | NoReservation | Refused

  // The exceptions of `reserve_instance` are its other outcomes; `Contended` means that all
  // attempts were lost to concurrent updates, `Locked` that the database stayed locked.
  datatype Reservation =
    | Made(id: nat, token: nat, plan: Plan)
    | Existing(id: nat)
    | QuotaExceeded
    | ContextUnavailable
    | CapacityUnavailable
    | Contended
    | Locked
    | Invalid

  datatype Attempt = Settled(outcome: Reservation) | Lost

  function PlanFor(q: Request, quotaSlot: nat, context: nat, hostname: Option<string>, createSlot: nat): Plan
    requires Acceptable(q)
  {
    Plan(q.owner, q.challenge, quotaSlot, context, hostname, createSlot, q.units, q.expires, q.timeout,
      q.maxInstances, q.maxCreates)
  }

  // The plan answers the request, and was the right choice on snapshot s.
  ghost predicate PlannedOn(s: Db, q: Request, p: Plan) {
    && Acceptable(q)
    && p == PlanFor(q, p.quotaSlot, p.context, p.hostname, p.createSlot)
    && LowestFree(s, q, p.quotaSlot)
    && WellPlaced(s, q, p.context, p.createSlot)
    && p.hostname == s.contexts[p.context].hostname
  }

  ghost predicate PlannedAt(past: seq<Db>, k: nat, q: Request, p: Plan) {
    k < |past| && PlannedOn(past[k], q, p)
  }

  // The plan was made at some moment from `from` to `last`.
  ghost predicate PlannedSince(past: seq<Db>, from: nat, last: nat, q: Request, p: Plan) {
    exists k: nat :: from <= k <= last && PlannedAt(past, k, q, p)
  }

  // The reservation was the last event, planned at some moment since `from`.
  ghost predicate JustReserved(past: seq<Db>, log: seq<Event>, from: nat, q: Request, r: Reservation)
    requires r.Made?
  {
    && log != [] && |past| == |log| + 1
    && Effective(past, log, |log| - 1)
    && log[|log| - 1].Reserve? && log[|log| - 1].id == r.id && log[|log| - 1].token == r.token
    && log[|log| - 1].plan == r.plan
    && PlannedSince(past, from, |log| - 1, q, r.plan)
  }

  // How many of the first n attempts found the database locked.
  ghost function LockedAmong(locked: nat -> bool, n: nat): nat {
    if n == 0 then 0 else LockedAmong(locked, n - 1) + if locked(n - 1) then 1 else 0
  }

  function MaxAttempts(q: Request): int {
    q.maxInstances * q.maxCreates * 8 + 8
  }

  // Giving up takes six locked attempts, or a foreign transaction against every other attempt.
  ghost predicate GivenUp(q: Request, locked: nat -> bool, r: Reservation, foreign: nat, idTaken: bool) {
    && (r.Locked? ==> exists n: nat :: n < MaxAttempts(q) && locked(n) && LockedAmong(locked, n) == 5)
    && (r.Contended? ==> idTaken || foreign >= MaxAttempts(q) - 5)
  }

  // What an outcome says about the tables d at the end of the call.
  ghost predicate Justified(d: Db, q: Request, r: Reservation) {
    && (r.Existing? ==> r.id in d.rows && d.rows[r.id].owner == q.owner && d.rows[r.id].challenge == q.challenge)
    && (r.QuotaExceeded? ==> |OwnedBy(d, q.owner)| >= q.maxInstances)
    && (r.ContextUnavailable? ==> !Consistent(q) || forall c :: !Candidate(d, q, c))
    && (r.CapacityUnavailable? ==> forall c | Candidate(d, q, c) :: |Creating(d, c)| >= q.maxCreates)
    && (r.Invalid? <==> !Acceptable(q) || (Consistent(q) && q.owner.id <= 0))
  }

  class InstanceCoordinator {
    var db: Db
    ghost var past: seq<Db>
    ghost var log: seq<Event>

    ghost predicate Valid()
      reads this
    {
      Recorded(past, log) && db == past[|past| - 1]
    }

    // The state after event e, when `done` says whether it was committed.
    ghost predicate Reached(before: Db, oldPast: seq<Db>, oldLog: seq<Event>, e: Event, done: bool)
      reads this
    {
      && Valid() && db == Apply(before, e)
      && past == (if done then oldPast + [db] else oldPast)
      && log == (if done then oldLog + [e] else oldLog)
    }

    constructor ()
      ensures Valid() && db == EMPTY && log == []
    {
      db := EMPTY;
      past := [EMPTY];
      log := [];
    }

    lemma {:induction false} Sound()
      requires Valid()
      ensures Inv(db)
    {
      InvThroughout(past, log, |past| - 1);
    }

    method Commit(ghost e: Event, next: Db)
      requires Valid() && next == Apply(db, e)
      modifies this
      ensures Reached(old(db), old(past), old(log), e, true)
    {
      Extended(past, log, e, next);
      past, log := past + [next], log + [e];
      db := next;
    }

    method Others()
      requires Valid()
      modifies this
      ensures Valid() && old(past) <= past && old(log) <= log
    {
      var steps: nat :| true;
      while steps > 0
        invariant Valid() && old(past) <= past && old(log) <= log
      {
        var e: Event := *;
        Commit(e, Apply(db, e));
        steps := steps - 1;
      }
    }

    // ----- reservations

    /** `_existing_reservation`. */
    method FindExisting(q: Request) returns (id: Option<nat>)
      ensures id.Some? ==>
                id.value in db.rows && db.rows[id.value].owner == q.owner
                && db.rows[id.value].challenge == q.challenge
      ensures id.None? ==>
                forall i | i in db.rows :: !(db.rows[i].owner == q.owner && db.rows[i].challenge == q.challenge)
    {
      if i :| i in db.rows && db.rows[i].owner == q.owner && db.rows[i].challenge == q.challenge {
        return Some(i);
      }
      id := None;
    }

    /** The writing half of `_attempt_reserve`: the version bump and the new row commit
        together, or not at all when the context or a unique constraint objects. */
    method InsertReservation(id: nat, token: nat, p: Plan, now: int) returns (done: bool)
      requires Valid() && Planned(p)
      modifies this
      ensures var e := Event.Reserve(id, token, p, now);
              (done <==> Enabled(old(db), e)) && Reached(old(db), old(past), old(log), e, done)
    {
      if !Placeable(db, p.context, p.hostname) {
        return false;
      }
      var x := db.contexts[p.context];
      var contexts := db.contexts[p.context := x.(placementVersion := x.placementVersion + 1)];
      var row := Row(p.owner, p.challenge, p.quotaSlot, Provisioning, 0, p.context, Some(p.createSlot), p.units, None,
                     token, None, Some(now + p.timeout), now, now, p.expires, 0, None);
      if id in db.homes || !Admissible(db, p) {
        return false;
      }
      Commit(Event.Reserve(id, token, p, now),
             db.(rows := db.rows[id := row], contexts := contexts, homes := db.homes[id := p.hostname]));
      done := true;
    }

    /** The reading half of `_attempt_reserve`: an outcome that needs no writing, or a plan. */
    method PlanReservation(q: Request) returns (outcome: Option<Reservation>, p: Option<Plan>)
      requires Acceptable(q) && Consistent(q) && q.owner.id > 0
      ensures outcome.Some? <==> p.None?
      ensures outcome.Some? ==>
                Justified(db, q, outcome.value) && !outcome.value.Made? && !outcome.value.Contended?
                  && !outcome.value.Locked?
      ensures p.Some? ==> PlannedOn(db, q, p.value) && Admissible(db, p.value)
    {
      p := None;
      var existing := FindExisting(q);
      if existing.Some? {
        return Some(Existing(existing.value)), None;
      }
      var slot := PickQuotaSlot(db, q);
      if slot.None? {
        return Some(QuotaExceeded), None;
      }
      var choice := ChooseContext(db, q);
      match choice {
        case NoCandidate => outcome := Some(ContextUnavailable);
        case AllBusy => outcome := Some(CapacityUnavailable);
        case Chosen(c, hostname, createSlot) =>
          outcome, p := None, Some(PlanFor(q, slot.value, c, hostname, createSlot));
          ChoiceAdmissible(db, q, p.value);
      }
    }

    // Other transactions; an id that was used stays used.
    method Interference(id: nat)
      requires Valid()
      modifies this
      ensures Valid() && old(past) <= past && old(log) <= log
      ensures id in old(db).homes ==> id in db.homes
    {
      ghost var i := |past| - 1;
      Others();
      Ages(past, log, i, |past| - 1);
      assert Issued(past[i], id) ==> Issued(db, id);
    }

    /** `_attempt_reserve`: reads a snapshot, and then commits whatever the others did since. */
    method AttemptReserve(q: Request, id: nat, token: nat, now: int) returns (a: Attempt)
      requires Valid() && Acceptable(q) && Consistent(q) && q.owner.id > 0
      modifies this
      ensures Valid() && old(past) <= past && old(log) <= log
      ensures a.Settled? ==> Justified(db, q, a.outcome) && !a.outcome.Contended? && !a.outcome.Locked?
      ensures a.Lost? ==> |log| > |old(log)| || id in db.homes
      ensures id in old(db).homes && a.Lost? ==> id in db.homes
      ensures a.Settled? && a.outcome.Made? ==>
                JustReserved(past, log, |old(past)| - 1, q, a.outcome)
                && a.outcome.id == id && a.outcome.token == token
    {
      var outcome, p := PlanReservation(q);
      if outcome.Some? {
        return Settled(outcome.value);
      }
      ghost var k, before := |past| - 1, db;
      assert PlannedAt(past, k, q, p.value);
      Interference(id);
      assert |log| == |old(log)| ==> db == before;
      var done := InsertReservation(id, token, p.value, now);
      if !done {
        return Lost;
      }
      assert PlannedAt(past, k, q, p.value);
      a := Settled(Made(id, token, p.value));
    }

    // The retry loop of `reserve_instance`.
    method AttemptRepeatedly(q: Request, id: nat, token: nat, now: int, locked: nat -> bool) returns (r: Reservation)
      requires Valid() && Acceptable(q) && Consistent(q) && q.owner.id > 0
      modifies this
      ensures Valid() && old(past) <= past && old(log) <= log
      ensures Justified(db, q, r)
      ensures GivenUp(q, locked, r, |log| - |old(log)|, id in db.homes)
      ensures r.Made? ==> JustReserved(past, log, |old(past)| - 1, q, r) && r.id == id && r.token == token
    {
      var attempts: nat, busy: nat := 0, 0;
      while attempts < MaxAttempts(q)
        invariant Valid() && old(past) <= past && old(log) <= log
        invariant busy == LockedAmong(locked, attempts) && busy <= 5 && attempts <= MaxAttempts(q)
        invariant id in db.homes || |log| - |old(log)| >= attempts - busy
      {
        Interference(id);
        if locked(attempts) {
          if busy >= 5 {
            return Locked;
          }
          busy := busy + 1;
        } else {
          var a := AttemptReserve(q, id, token, now);
          if a.Settled? {
            return a.outcome;
          }
        }
        attempts := attempts + 1;
      }
      Interference(id);
      var existing := FindExisting(q);
      r := if existing.Some? then Existing(existing.value) else Contended;
    }

    /** `reserve_instance`; `locked` says which attempts fail because the database is locked. */
    method ReserveInstance(q: Request, id: nat, token: nat, now: int, locked: nat -> bool) returns (r: Reservation)
      requires Valid()
      modifies this
      ensures Valid() && old(past) <= past && old(log) <= log
      ensures Justified(db, q, r)
      ensures GivenUp(q, locked, r, |log| - |old(log)|, id in db.homes)
      ensures r.Made? ==> JustReserved(past, log, |old(past)| - 1, q, r) && r.id == id && r.token == token
    {
      if !Acceptable(q) {
        return Invalid;
      }
      if !Consistent(q) {
        return ContextUnavailable;
      }
      if q.owner.id <= 0 {
        return Invalid;
      }
      r := AttemptRepeatedly(q, id, token, now, locked);
    }

    // ----- transactions

    /** `entries` and the checks before the transaction of `mark_running`. */
    method EntryDeclared(parts: seq<Part>, entry: nat) returns (ok: bool, port: nat)
      ensures ok <==> Entries(parts) == [entry] && ServicesDistinct(parts)
      ensures ok ==> exists i ::
                0 <= i < |parts| && parts[i].isEntry && parts[i].container == entry && parts[i].port == port
    {
      port := 0;
      var found: seq<nat> := [];
      var services: set<nat> := {};
      var i := |parts|;
      var distinct := true;
      while i > 0
        invariant 0 <= i <= |parts|
        invariant found == Entries(parts[i..])
        invariant forall s :: s in services <==> exists j :: i <= j < |parts| && parts[j].service == s
        invariant distinct <==> ServicesDistinct(parts[i..])
        invariant found == [entry] ==>
                    exists j ::
                      i <= j < |parts| && parts[j].isEntry && parts[j].container == entry && parts[j].port == port
      {
        i := i - 1;
        ServicesFirst(parts, i);
        assert parts[i..][0] == parts[i] && parts[i..][1..] == parts[i + 1..];
        distinct := distinct && parts[i].service !in services;
        services := services + {parts[i].service};
        if parts[i].isEntry {
          found := [parts[i].container] + found;
          port := parts[i].port;
          assert found[0] == parts[i].container;
        }
      }
      assert parts[0..] == parts;
      ok := found == [entry] && distinct;
    }

    /** The loop of `mark_running` that adds the physical rows; false on a key collision. */
    method InsertParts(id: nat, r: Row, name: nat, parts: seq<Part>) returns (ok: bool, members: map<nat, Member>)
      ensures ok <==> Insertable(db.members, parts)
      ensures ok ==> members == WithParts(db.members, parts, id, r, name)
    {
      members := db.members;
      for i := 0 to |parts|
        invariant Insertable(db.members, parts[..i]) && members == WithParts(db.members, parts[..i], id, r, name)
      {
        var p := parts[i];
        NextPart(db.members, parts, i, id, r, name);
        if p.container in members {
          return false, members;
        }
        members := members[p.container := Member(id, name, p.port, p.isEntry, r.expires, r.renewals)];
      }
      assert parts[..|parts|] == parts;
      ok := true;
    }

    method MarkRunning(id: nat, token: nat, entry: nat, parts: seq<Part>, now: int) returns (result: Finalized)
      requires Valid()
      modifies this
      ensures var e := Event.MarkRunning(id, token, entry, parts, now);
              && (result.Finalized? <==> Enabled(old(db), e))
              && Reached(old(db), old(past), old(log), e, result.Finalized?)
      ensures result.Finalized? ==>
                result.row == old(db).rows[id] && entry in db.members && db.members[entry].port == result.port
    {
      ghost var e := Event.MarkRunning(id, token, entry, parts, now);
      var declared, port := EntryDeclared(parts, entry);
      if !declared {
        return Refused;
      }
      if id !in db.rows || db.rows[id].provisionToken != token || db.rows[id].state != Provisioning {
        return NoReservation;
      }
      var r := db.rows[id];
      if |parts| != r.units {
        return Refused;
      }
      var inserted, members := InsertParts(id, r, NameOf(db, r.context), parts);
      if !inserted || exists i :: i in db.rows && db.rows[i].entry == Some(entry) {
        return Refused;
      }
      PartsInserted(db.members, parts, id, r, NameOf(db, r.context));
      var updated :=
        r.(state := Running, version := r.version + 1, createSlot := None, entry := Some(entry), deadline := None,
           updatedAt := now);
      Commit(e, db.(rows := db.rows[id := updated], members := members));
      result := Finalized(r, port);
    }

    method MarkCleanupPending(id: nat, token: nat, now: int) returns (done: bool)
      requires Valid()
      modifies this
      ensures var e := Event.MarkCleanupPending(id, token, now);
              (done <==> Enabled(old(db), e)) && Reached(old(db), old(past), old(log), e, done)
    {
      done := id in db.rows && db.rows[id].provisionToken == token && db.rows[id].state == Provisioning;
      if done {
        var r := db.rows[id];
        Commit(Event.MarkCleanupPending(id, token, now),
               db.(rows := db.rows[id := r.(state := CleanupPending, version := r.version + 1, updatedAt := now)]));
      }
    }

    /** A new claim, under a token never drawn before; none if a guard fails. */
    method ClaimOperation(id: nat, states: set<State>, version: Option<nat>, sweep: Option<Sweep>, stale: int, now: int)
      returns (token: Option<nat>)
      requires Valid()
      modifies this
      ensures token.Some? <==>
                id in old(db).rows
                && Matches(old(db).rows[id], Event.Claim(id, states, version, sweep, stale, 0, now))
      ensures token.None? ==> db == old(db) && past == old(past) && log == old(log) && Valid()
      ensures token.Some? ==>
                var e := Event.Claim(id, states, version, sweep, stale, token.value, now);
                && Enabled(old(db), e) && Reached(old(db), old(past), old(log), e, true)
                && HeldBy(db, id, token.value) && token.value in db.drawn
    {
      if stale <= 0 || (sweep.Some? && (version.None? || sweep.value.safetyAge <= 0)) {
        return None;
      }
      if id !in db.rows {
        return None;
      }
      var r := db.rows[id];
      if r.state !in states || (version.Some? && r.version != version.value)
          || (sweep.Some? && !Scanned(r, sweep.value)) {
        return None;
      }
      if r.operationToken.Some? && r.updatedAt >= now - stale {
        return None;
      }
      var drawn := DrawToken(db.drawn);
      Commit(Event.Claim(id, states, version, sweep, stale, drawn, now),
             db.(rows := db.rows[id := r.(state := CleanupPending, version := r.version + 1,
               operationToken := Some(drawn), updatedAt := now)],
                 drawn := db.drawn + {drawn}));
      token := Some(drawn);
    }

    method ReleaseOperation(id: nat, token: nat, now: int) returns (done: bool)
      requires Valid()
      modifies this
      ensures var e := Event.Release(id, token, now);
              (done <==> Enabled(old(db), e)) && Reached(old(db), old(past), old(log), e, done)
    {
      done := id in db.rows && db.rows[id].operationToken == Some(token) && db.rows[id].state == CleanupPending;
      if done {
        Commit(Event.Release(id, token, now),
          db.(rows := db.rows[id := db.rows[id].(operationToken := None, updatedAt := now)]));
      }
    }

    method DeleteAfterConfirmedCleanup(id: nat, provision: Option<nat>, operation: Option<nat>) returns (done: bool)
      requires Valid()
      modifies this
      ensures var e := Event.Delete(id, provision, operation);
              (done <==> Enabled(old(db), e)) && Reached(old(db), old(past), old(log), e, done)
      ensures done ==> id !in db.rows && forall c | c in db.members :: db.members[c].instance != id
    {
      if provision.None? && operation.None? {
        return false;
      }
      if id !in db.rows || (provision.Some? && db.rows[id].provisionToken != provision.value)
         || (operation.Some? && db.rows[id].operationToken != operation) {
        return false;
      }
      var members := map c | c in db.members && db.members[c].instance != id :: db.members[c];
      Commit(Event.Delete(id, provision, operation), db.(rows := db.rows - {id}, members := members));
      done := true;
    }

    /** The mirrors of one instance, rewritten by the second UPDATE of a lifecycle change. */
    method UpdateMirrors(id: nat, r: Row, renewal: bool) returns (members: map<nat, Member>)
      ensures members == Mirrored(db.members, id, r, renewal)
    {
      members := db.members;
      var todo := set c | c in db.members && db.members[c].instance == id;
      while todo != {}
        invariant members.Keys == db.members.Keys
        invariant todo <= db.members.Keys && forall c | c in todo :: db.members[c].instance == id
        invariant forall c | c in members ::
                    members[c] == if c in todo || db.members[c].instance != id then db.members[c]
                                  else Mirrored(db.members, id, r, renewal)[c]
        decreases |todo|
      {
        var c :| c in todo;
        var m := members[c];
        members := members[c := if renewal then m.(expires := r.expires, renewals := r.renewals)
          else m.(expires := r.expires)];
        todo := todo - {c};
      }
    }

    method ShortenAfterSolve(id: nat, target: int, solvedAt: int) returns (result: Option<Row>)
      requires Valid()
      modifies this
      ensures var e := Event.Shorten(id, target, solvedAt);
              (result.Some? <==> Enabled(old(db), e)) && Reached(old(db), old(past), old(log), e, result.Some?)
      ensures result.Some? ==> id in db.rows && result.value == db.rows[id]
    {
      if id !in db.rows || db.rows[id].state != Running || db.rows[id].solvedAt.Some?
          || db.rows[id].createdAt > solvedAt {
        return None;
      }
      var r := db.rows[id];
      r := r.(expires := Min(r.expires, target), solvedAt := Some(solvedAt), version := r.version + 1,
        updatedAt := solvedAt);
      var members := UpdateMirrors(id, r, false);
      Commit(Event.Shorten(id, target, solvedAt), db.(rows := db.rows[id := r], members := members));
      result := Some(r);
    }

    method Renew(id: nat, now: int, newExpires: int, maxRenewals: nat, clock: int) returns (result: Option<Row>)
      requires Valid()
      modifies this
      ensures var e := Event.Renew(id, now, newExpires, maxRenewals, clock);
              (result.Some? <==> Enabled(old(db), e)) && Reached(old(db), old(past), old(log), e, result.Some?)
      ensures result.Some? ==> id in db.rows && result.value == db.rows[id]
    {
      if id !in db.rows || db.rows[id].state != Running || db.rows[id].solvedAt.Some? || db.rows[id].expires <= now
         || db.rows[id].renewals >= maxRenewals {
        return None;
      }
      var r := db.rows[id];
      r := r.(expires := newExpires, renewals := r.renewals + 1, version := r.version + 1, updatedAt := clock);
      var members := UpdateMirrors(id, r, true);
      Commit(Event.Renew(id, now, newExpires, maxRenewals, clock), db.(rows := db.rows[id := r], members := members));
      result := Some(r);
    }

    method ExtendByAdmin(id: nat, newExpires: int, clock: int) returns (result: Option<Row>)
      requires Valid()
      modifies this
      ensures var e := Event.Extend(id, newExpires, clock);
              (result.Some? <==> Enabled(old(db), e)) && Reached(old(db), old(past), old(log), e, result.Some?)
      ensures result.Some? ==> id in db.rows && result.value == db.rows[id]
    {
      if id !in db.rows || db.rows[id].state != Running || db.rows[id].expires >= newExpires {
        return None;
      }
      var r := db.rows[id];
      r := r.(expires := newExpires, version := r.version + 1, updatedAt := clock);
      var members := UpdateMirrors(id, r, false);
      Commit(Event.Extend(id, newExpires, clock), db.(rows := db.rows[id := r], members := members));
      result := Some(r);
    }
  }

  // A choice made on the tables passes their unique constraints.
  lemma {:induction false} ChoiceAdmissible(d: Db, q: Request, p: Plan)
    requires PlannedOn(d, q, p)
    requires forall i | i in d.rows :: !(d.rows[i].owner == q.owner && d.rows[i].challenge == q.challenge)
    ensures Admissible(d, p)
  {
    forall i | i in d.rows
      ensures !(d.rows[i].owner == p.owner && d.rows[i].quotaSlot == p.quotaSlot)
      ensures !(d.rows[i].context == p.context && d.rows[i].createSlot == Some(p.createSlot))
    {
      assert d.rows[i].owner == p.owner && d.rows[i].quotaSlot == p.quotaSlot ==> OwnerUses(d, q.owner, p.quotaSlot);
      assert d.rows[i].context == p.context && d.rows[i].createSlot == Some(p.createSlot) ==>
               SlotTaken(d, p.context, p.createSlot);
    }
  }

  // ----- fair placement by the coordinator

  // Event k is a reservation of at most u units that one call made: it was planned at some
  // moment since `from`, all contexts were open to it from then on, and meanwhile at most
  // `lag` units were placed on its context.
  ghost predicate CallMade(past: seq<Db>, log: seq<Event>, from: nat, k: nat, q: Request, u: nat, lag: nat)
    requires k < |log| && |past| == |log| + 1
  {
    && log[k].Reserve? && q.units <= u && from <= k
    && PlannedSince(past, from, k, q, log[k].plan)
    && OpenSince(past, from, k, q, log[k].plan.context, lag)
  }

  // From moment `from` to k all contexts were open, and at most `lag` units came to context c.
  ghost predicate OpenSince(past: seq<Db>, from: nat, k: nat, q: Request, c: nat, lag: nat)
    requires k < |past|
  {
    forall m: nat | from <= m <= k :: OpenAt(past, m, k, q, c, lag)
  }

  ghost predicate OpenAt(past: seq<Db>, m: nat, k: nat, q: Request, c: nat, lag: nat)
    requires m <= k < |past|
  {
    AllOpen(past[m], q) && Units(past[k], c) <= Units(past[m], c) + lag
  }

  // What happens at moment k: nothing about placement, or a reservation by a call.
  ghost predicate ByCalls(past: seq<Db>, log: seq<Event>, i: nat, k: nat, u: nat, lag: nat)
    requires k < |log| && |past| == |log| + 1
  {
    Effective(past, log, k) ==>
      && Steady(log[k])
      && (log[k].Reserve? ==> exists from: nat, q: Request :: i <= from && CallMade(past, log, from, k, q, u, lag))
  }

  ghost predicate CallRun(past: seq<Db>, log: seq<Event>, i: nat, j: nat, u: nat, lag: nat) {
    && Recorded(past, log) && i <= j < |past| && past[i].rows == map[]
    && forall k: nat | i <= k < j :: ByCalls(past, log, i, k, u, lag)
  }

  /** A reservation that `reserve_instance` has just made, while all contexts were open and at
      most `lag` units were placed on its context during the call. */
  lemma {:induction false} ReservationIsCall(past: seq<Db>, log: seq<Event>, from: nat, q: Request, r: Reservation,
                                             u: nat, lag: nat)
    requires r.Made? && JustReserved(past, log, from, q, r) && q.units <= u && from < |log|
    requires OpenSince(past, from, |log| - 1, q, r.plan.context, lag)
    ensures CallMade(past, log, from, |log| - 1, q, u, lag)
  {
    assert log[|log| - 1].plan == r.plan;
  }

  lemma {:induction false} CallIsFair(past: seq<Db>, log: seq<Event>, i: nat, k: nat, u: nat, lag: nat)
    requires k < |log| && |past| == |log| + 1 && ByCalls(past, log, i, k, u, lag)
    ensures FairStep(past, log, i, k, u, lag)
  {
    if Effective(past, log, k) && log[k].Reserve? {
      var from: nat, q: Request :| i <= from && CallMade(past, log, from, k, q, u, lag);
      var p := log[k].plan;
      var m: nat :| from <= m <= k && PlannedAt(past, m, q, p);
      assert OpenAt(past, m, k, q, p.context, lag);
      ChoiceIsFair(past, m, k, q, p.context, p.createSlot, lag);
    }
  }

  /** Weighted fairness of the coordinator itself: any interleaving of its reservations, from
      empty tables on, keeps every pair of contexts in balance, up to what is placed on a
      context between the snapshot of a call and its commit. */
  lemma {:induction false} CoordinatorIsFair(past: seq<Db>, log: seq<Event>, i: nat, j: nat, u: nat, lag: nat)
    requires CallRun(past, log, i, j, u, lag) && u >= 1
    ensures Fair(past[j], u + lag)
  {
    forall k: nat | i <= k < j
      ensures FairStep(past, log, i, k, u, lag)
    {
      CallIsFair(past, log, i, k, u, lag);
    }
    FairThroughout(past, log, i, j, u, lag);
  }

  // ----- small facts for the loops above

  lemma {:induction false} ServicesFirst(parts: seq<Part>, i: nat)
    requires i < |parts|
    ensures ServicesDistinct(parts[i..]) <==>
            ServicesDistinct(parts[i + 1..]) && forall j | i < j < |parts| :: parts[j].service != parts[i].service
  {
    var all, rest := parts[i..], parts[i + 1..];
    assert forall j | 0 <= j < |rest| :: rest[j] == all[j + 1];
    if ServicesDistinct(all) {
      forall j | i < j < |parts|
        ensures parts[j].service != parts[i].service
      {
        assert all[0] == parts[i] && all[j - i] == parts[j];
      }
    }
    if ServicesDistinct(rest) && forall j | i < j < |parts| :: parts[j].service != parts[i].service {
      forall x, y | 0 <= x < y < |all|
        ensures all[x].service != all[y].service
      {
        if x > 0 {
          assert rest[x - 1] == all[x] && rest[y - 1] == all[y];
        }
      }
    }
  }

  // The next part fits if its key is not taken, by an older row or by an earlier part.
  lemma {:induction false} NextPart(members: map<nat, Member>, parts: seq<Part>, i: nat, id: nat, r: Row, name: nat)
    requires i < |parts| && Insertable(members, parts[..i])
    ensures var p, so := parts[i], WithParts(members, parts[..i], id, r, name);
            && (p.container in so ==> !Insertable(members, parts))
            && (p.container !in so ==> Insertable(members, parts[..i + 1]))
            && WithParts(members, parts[..i + 1], id, r, name) ==
                 so[p.container := Member(id, name, p.port, p.isEntry, r.expires, r.renewals)]
  {
    var p := parts[i];
    PartsInserted(members, parts[..i], id, r, name);
    assert parts[..i + 1][..i] == parts[..i];
    if p.container in WithParts(members, parts[..i], id, r, name) {
      assert p.container in members || IsPart(parts[..i], p.container);
    }
  }
}
