/** The tables behind src/coordination.py as a value, and every transaction on them as one
    guarded atomic event.  `Enabled` is the WHERE clause together with the unique and foreign
    key constraints of src/models.py; an event that is not enabled changes nothing. */
module CoordinationTables {
  import opened Support

  datatype Owner = User(id: int) | Team(id: int)
  datatype State = Provisioning | Running | CleanupPending

  datatype Row = Row(owner: Owner, challenge: int, quotaSlot: nat, state: State, version: nat, context: nat,
                     createSlot: Option<nat>, units: nat, entry: Option<nat>, provisionToken: nat,
                     operationToken: Option<nat>, deadline: Option<int>, createdAt: int, updatedAt: int, expires: int,
                     renewals: nat, solvedAt: Option<int>)

  // A physical row: one container of an instance. `context` is the name of its docker context.
  datatype Member = Member(instance: nat, context: nat, port: nat, isEntry: bool, expires: int, renewals: nat)

  datatype ContextState = Active | Draining | Disabled | Retired

  // Context names are numbered in their alphabetical order.
  datatype Context = Context(name: nat, hostname: Option<string>, weight: nat, state: ContextState, healthy: bool,
                             placementVersion: nat)

  // `homes` keeps, for every instance id ever inserted, the hostname its context had then;
  // `drawn` the operation tokens and `contextIds` the context ids used so far; `labelled` the
  // instance ids that docker resources were created for.
  datatype Db = Db(rows: map<nat, Row>, members: map<nat, Member>, contexts: map<nat, Context>,
                   homes: map<nat, Option<string>>, drawn: set<nat>, contextIds: set<nat>, labelled: set<nat>)

  const EMPTY := Db(map[], map[], map[], map[], {}, {}, {})

  datatype Part = Part(container: nat, port: nat, isEntry: bool, service: nat)

  datatype Plan = Plan(owner: Owner, challenge: int, quotaSlot: nat, context: nat, hostname: Option<string>,
                       createSlot: nat, units: nat, expires: int, timeout: int, maxInstances: nat, maxCreates: nat)

  datatype Sweep = Sweep(cutoff: int, safetyAge: int)

  datatype Event =
    | Reserve(id: nat, token: nat, plan: Plan, now: int)
    | MarkRunning(id: nat, token: nat, entry: nat, parts: seq<Part>, now: int)
    | MarkCleanupPending(id: nat, token: nat, now: int)
    | Claim(id: nat, states: set<State>, version: Option<nat>, sweep: Option<Sweep>, stale: int, token: nat, now: int)
    | Release(id: nat, token: nat, now: int)
    | Shorten(id: nat, target: int, solvedAt: int)
    | Renew(id: nat, now: int, newExpires: int, maxRenewals: nat, clock: int)
    | Extend(id: nat, newExpires: int, clock: int)
    | Delete(id: nat, provision: Option<nat>, operation: Option<nat>)
    | AddContext(context: nat, name: nat, hostname: Option<string>, weight: nat, state: ContextState)
    | UpdateContext(context: nat, newWeight: Option<nat>, newState: Option<ContextState>)
    | ChangeEndpoint(context: nat, seen: Context, hostname: Option<string>, newWeight: Option<nat>,
                     newState: Option<ContextState>)
    | Probe(context: nat, healthy: bool)
    | RetireContext(context: nat)
    | DeleteContext(context: nat)
    | Label(id: nat)

  // ----- guards

  // The unique constraints on a new instance row.
  predicate Admissible(d: Db, p: Plan) {
    forall i | i in d.rows ::
      var r := d.rows[i];
      && !(r.owner == p.owner && r.challenge == p.challenge)
      && !(r.owner == p.owner && r.quotaSlot == p.quotaSlot)
      && !(r.context == p.context && r.createSlot == Some(p.createSlot))
  }

  // What `_bump_placement_version` asks of the context the plan was made for.
  predicate Placeable(d: Db, context: nat, hostname: Option<string>) {
    && context in d.contexts
    && d.contexts[context].state == Active && d.contexts[context].healthy
    && d.contexts[context].hostname == hostname
  }

  predicate Planned(p: Plan) {
    p.units > 0 && p.timeout > 0 && p.quotaSlot < p.maxInstances && p.createSlot < p.maxCreates
  }

  // `entries` in `mark_running`.
  function Entries(parts: seq<Part>): seq<nat> {
    if parts == [] then [] else (if parts[0].isEntry then [parts[0].container] else []) + Entries(parts[1..])
  }

  predicate ServicesDistinct(parts: seq<Part>) {
    forall i, j | 0 <= i < j < |parts| :: parts[i].service != parts[j].service
  }

  // The primary key of the physical rows.
  predicate Insertable(members: map<nat, Member>, parts: seq<Part>) {
    && (forall i | 0 <= i < |parts| :: parts[i].container !in members)
    && (forall i, j | 0 <= i < j < |parts| :: parts[i].container != parts[j].container)
  }

  predicate EntryUnused(d: Db, entry: nat) {
    forall i | i in d.rows :: d.rows[i].entry != Some(entry)
  }

  // What a maintenance pass with the given cutoff selects.
  predicate Scanned(r: Row, sweep: Sweep) {
    || (r.state == Running && r.expires < sweep.cutoff)
    || (r.state == CleanupPending && r.updatedAt < sweep.cutoff - sweep.safetyAge)
    || (r.state == Provisioning && r.deadline.Some? && r.deadline.value < sweep.cutoff - sweep.safetyAge)
  }

  predicate WritesRow(e: Event) {
    || e.Reserve? || e.MarkRunning? || e.MarkCleanupPending? || e.Claim? || e.Release?
    || e.Shorten? || e.Renew? || e.Extend?
  }

  // The WHERE clause of an update of row r.
  predicate Matches(r: Row, e: Event) {
    match e
    case MarkRunning(id, token, entry, parts, now) =>
      && r.provisionToken == token && r.state == Provisioning
      && Entries(parts) == [entry] && ServicesDistinct(parts) && |parts| == r.units
    case MarkCleanupPending(id, token, now) =>
      r.provisionToken == token && r.state == Provisioning
    case Claim(id, states, version, sweep, stale, token, now) =>
      && stale > 0 && r.state in states
      && (version.Some? ==> r.version == version.value)
      && (sweep.Some? ==> version.Some? && sweep.value.safetyAge > 0 && Scanned(r, sweep.value))
      && (r.operationToken.None? || r.updatedAt < now - stale)
    case Release(id, token, now) =>
      r.operationToken == Some(token) && r.state == CleanupPending
    case Shorten(id, target, solvedAt) =>
      r.state == Running && r.solvedAt.None? && r.createdAt <= solvedAt
    case Renew(id, now, newExpires, maxRenewals, clock) =>
      r.state == Running && r.solvedAt.None? && r.expires > now && r.renewals < maxRenewals
    case Extend(id, newExpires, clock) =>
      r.state == Running && r.expires < newExpires
    case _ => false
  }

  // The constraints outside the row that an update must respect.
  predicate Fits(d: Db, e: Event) {
    && (e.MarkRunning? ==> Insertable(d.members, e.parts) && EntryUnused(d, e.entry))
    && (e.Claim? ==> e.token !in d.drawn)
  }

  predicate ContextEmpty(d: Db, context: nat)
    requires context in d.contexts
  {
    && (forall i | i in d.rows :: d.rows[i].context != context)
    && (forall c | c in d.members :: d.members[c].context != d.contexts[context].name)
  }

  predicate Standing(s: ContextState) {
    s == Draining || s == Disabled
  }

  predicate ContextAllows(d: Db, e: Event) {
    match e
    case AddContext(c, name, hostname, weight, state) =>
      c !in d.contextIds && weight > 0 && state != Retired && forall x | x in d.contexts :: d.contexts[x].name != name
    case UpdateContext(c, weight, state) =>
      && c in d.contexts && weight != Some(0) && state != Some(Retired)
      && (d.contexts[c].state == Retired ==> state.None?)
    case ChangeEndpoint(c, seen, hostname, weight, state) =>
      && c in d.contexts && weight != Some(0) && hostname != seen.hostname
      && Standing(seen.state) && (state.Some? ==> Standing(state.value))
      && d.contexts[c].hostname == seen.hostname && d.contexts[c].state == seen.state
      && d.contexts[c].placementVersion == seen.placementVersion && ContextEmpty(d, c)
    case Probe(c, healthy) => c in d.contexts
    case RetireContext(c) => c in d.contexts
    case DeleteContext(c) => c in d.contexts && forall i | i in d.rows :: d.rows[i].context != c
    case Label(id) => id in d.homes
    case _ => false
  }

  predicate Enabled(d: Db, e: Event) {
    if e.Reserve? then
      && e.id !in d.homes && Planned(e.plan)
      && Placeable(d, e.plan.context, e.plan.hostname) && Admissible(d, e.plan)
    else if WritesRow(e) then
      e.id in d.rows && Matches(d.rows[e.id], e) && Fits(d, e)
    else if e.Delete? then
      && e.id in d.rows && (e.provision.Some? || e.operation.Some?)
      && (e.provision.Some? ==> d.rows[e.id].provisionToken == e.provision.value)
      && (e.operation.Some? ==> d.rows[e.id].operationToken == e.operation)
    else
      ContextAllows(d, e)
  }

  // ----- effects

  function Reserved(e: Event): Row
    requires e.Reserve?
  {
    var p := e.plan;
    Row(p.owner, p.challenge, p.quotaSlot, Provisioning, 0, p.context, Some(p.createSlot), p.units, None, e.token, None,
        Some(e.now + p.timeout), e.now, e.now, p.expires, 0, None)
  }

  // The instance row an event leaves in place of r.
  function Updated(r: Row, e: Event): Row {
    match e
    case MarkRunning(id, token, entry, parts, now) =>
      r.(state := Running, version := r.version + 1, createSlot := None, entry := Some(entry), deadline := None,
        updatedAt := now)
    case MarkCleanupPending(id, token, now) =>
      r.(state := CleanupPending, version := r.version + 1, updatedAt := now)
    case Claim(id, states, version, sweep, stale, token, now) =>
      r.(state := CleanupPending, version := r.version + 1, operationToken := Some(token), updatedAt := now)
    case Release(id, token, now) =>
      r.(operationToken := None, updatedAt := now)
    case Shorten(id, target, solvedAt) =>
      r.(expires := if r.expires > target then target else r.expires, solvedAt := Some(solvedAt),
         version := r.version + 1, updatedAt := solvedAt)
    case Renew(id, now, newExpires, maxRenewals, clock) =>
      r.(expires := newExpires, renewals := r.renewals + 1, version := r.version + 1, updatedAt := clock)
    case Extend(id, newExpires, clock) =>
      r.(expires := newExpires, version := r.version + 1, updatedAt := clock)
    case _ => r
  }

  function NewRow(d: Db, e: Event): Row
    requires Enabled(d, e) && WritesRow(e)
  {
    if e.Reserve? then Reserved(e) else Updated(d.rows[e.id], e)
  }

  // The physical rows after inserting the parts of instance id.
  function WithParts(members: map<nat, Member>, parts: seq<Part>, id: nat, r: Row, name: nat): map<nat, Member> {
    if parts == [] then members
    else
      var p := parts[|parts| - 1];
      WithParts(members, parts[..|parts| - 1], id, r, name)[
        p.container := Member(id, name, p.port, p.isEntry, r.expires, r.renewals)]
  }

  // The mirrors of instance id brought up to date: all write expires, only renewals the renewal count.
  function Mirrored(members: map<nat, Member>, id: nat, r: Row, renewal: bool): map<nat, Member> {
    map c | c in members ::
      if members[c].instance != id then members[c]
      else if renewal then members[c].(expires := r.expires, renewals := r.renewals)
      else members[c].(expires := r.expires)
  }

  function WithoutInstance(members: map<nat, Member>, id: nat): map<nat, Member> {
    map c | c in members && members[c].instance != id :: members[c]
  }

  // The name of a context; a row's context always exists, so the default is never used.
  function NameOf(d: Db, context: nat): nat {
    if context in d.contexts then d.contexts[context].name else 0
  }

  function NewMembers(d: Db, e: Event): map<nat, Member>
    requires Enabled(d, e) && WritesRow(e)
  {
    match e
    case MarkRunning(id, token, entry, parts, now) =>
      WithParts(d.members, parts, id, d.rows[id], NameOf(d, d.rows[id].context))
    case Shorten(id, _, _) => Mirrored(d.members, id, NewRow(d, e), false)
    case Extend(id, _, _) => Mirrored(d.members, id, NewRow(d, e), false)
    case Renew(id, _, _, _, _) => Mirrored(d.members, id, NewRow(d, e), true)
    case _ => d.members
  }

  function NewContext(d: Db, e: Event): Context
    requires Enabled(d, e) && (e.Reserve? || e.UpdateContext? || e.ChangeEndpoint? || e.Probe? || e.RetireContext?)
  {
    if e.Reserve? then
      d.contexts[e.plan.context].(placementVersion := d.contexts[e.plan.context].placementVersion + 1)
    else if e.UpdateContext? then Adjusted(d.contexts[e.context], e.newWeight, e.newState)
    else if e.ChangeEndpoint? then Adjusted(d.contexts[e.context], e.newWeight, e.newState).(hostname := e.hostname)
    else if e.Probe? then d.contexts[e.context].(healthy := e.healthy)
    else d.contexts[e.context].(state := Retired)
  }

  function Adjusted(x: Context, weight: Option<nat>, state: Option<ContextState>): Context {
    x.(weight := if weight.Some? then weight.value else x.weight, state := if state.Some? then state.value else x.state)
  }

  function Apply(d: Db, e: Event): Db {
    if !Enabled(d, e) then d
    else if e.Reserve? then
      d.(rows := d.rows[e.id := Reserved(e)],
         contexts := d.contexts[e.plan.context := NewContext(d, e)],
         homes := d.homes[e.id := e.plan.hostname])
    else if WritesRow(e) then
      d.(rows := d.rows[e.id := NewRow(d, e)],
         members := NewMembers(d, e),
         drawn := if e.Claim? then d.drawn + {e.token} else d.drawn)
    else if e.Delete? then d.(rows := d.rows - {e.id}, members := WithoutInstance(d.members, e.id))
    else if e.AddContext? then
      d.(contexts := d.contexts[e.context := Context(e.name, e.hostname, e.weight, e.state, false, 0)],
         contextIds := d.contextIds + {e.context})
    else if e.DeleteContext? then d.(contexts := d.contexts - {e.context})
    else if e.Label? then d.(labelled := d.labelled + {e.id})
    else d.(contexts := d.contexts[e.context := NewContext(d, e)])
  }

  // ----- the invariant

  ghost predicate Distinguished(d: Db) {
    forall i, j | i in d.rows && j in d.rows && i != j ::
      && !(d.rows[i].owner == d.rows[j].owner && d.rows[i].challenge == d.rows[j].challenge)
      && !(d.rows[i].owner == d.rows[j].owner && d.rows[i].quotaSlot == d.rows[j].quotaSlot)
      && !(d.rows[i].context == d.rows[j].context && d.rows[i].createSlot.Some?
         && d.rows[i].createSlot == d.rows[j].createSlot)
  }

  ghost predicate Shaped(r: Row) {
    && r.units >= 1
    && (r.state == Provisioning ==> r.createSlot.Some? && r.operationToken.None?)
    && (r.state == Running ==> r.createSlot.None? && r.operationToken.None?)
    && (r.operationToken.Some? ==> r.state == CleanupPending)
    && (r.createSlot.Some? <==> r.deadline.Some?)
    && (r.createSlot.Some? <==> r.entry.None?)
    && (r.solvedAt.Some? ==> r.entry.Some?)
  }

  ghost predicate AllShaped(d: Db) {
    && (forall i | i in d.rows :: Shaped(d.rows[i]))
    && (forall i | i in d.rows && d.rows[i].operationToken.Some? :: d.rows[i].operationToken.value in d.drawn)
  }

  ghost function MembersOf(members: map<nat, Member>, id: nat): set<nat> {
    set c | c in members && members[c].instance == id
  }

  // The physical rows of an instance agree with its instance row.
  ghost predicate Agrees(members: map<nat, Member>, id: nat, r: Row) {
    && (forall c | c in members && members[c].instance == id ::
          members[c].expires == r.expires && members[c].renewals == r.renewals
            && (members[c].isEntry <==> r.entry == Some(c)))
    && (r.entry.None? ==> MembersOf(members, id) == {})
    && (r.entry.Some? ==> |MembersOf(members, id)| == r.units && r.entry.value in MembersOf(members, id))
  }

  ghost predicate MirrorsAgree(d: Db) {
    && (forall i | i in d.rows :: Agrees(d.members, i, d.rows[i]))
    && (forall c | c in d.members :: d.members[c].instance in d.rows)
  }

  ghost predicate AtHome(d: Db, i: nat)
    requires i in d.rows
  {
    && d.rows[i].context in d.contexts && i in d.homes
    && d.contexts[d.rows[i].context].hostname == d.homes[i]
  }

  // Every row lives on a context that still has the hostname the row was placed on.
  ghost predicate AllAtHome(d: Db) {
    && (forall i | i in d.rows :: AtHome(d, i))
    && d.labelled <= d.homes.Keys
  }

  ghost predicate ContextsDistinct(contexts: map<nat, Context>, ids: set<nat>) {
    && contexts.Keys <= ids
    && (forall c, x | c in contexts && x in contexts && contexts[c].name == contexts[x].name :: c == x)
    && (forall c | c in contexts :: contexts[c].weight >= 1)
  }

  ghost predicate Named(d: Db, c: nat)
    requires c in d.members
  {
    && d.members[c].instance in d.rows
    && d.members[c].context == NameOf(d, d.rows[d.members[c].instance].context)
  }

  // A physical row carries the name of its instance's context.
  ghost predicate MembersNamed(d: Db) {
    forall c | c in d.members :: Named(d, c)
  }

  ghost predicate Inv(d: Db) {
    && Distinguished(d) && AllShaped(d) && MirrorsAgree(d)
    && AllAtHome(d) && ContextsDistinct(d.contexts, d.contextIds) && MembersNamed(d)
  }

  lemma {:induction false} EmptyDb()
    ensures Inv(EMPTY)
  {
  }

  // ----- each event keeps it

  // What an update of a row never touches, and how its create slot may change.
  lemma {:induction false} UpdateKeeps(d: Db, e: Event)
    requires Enabled(d, e) && WritesRow(e) && !e.Reserve? && Shaped(d.rows[e.id])
    ensures var r, was := Updated(d.rows[e.id], e), d.rows[e.id];
            && r.owner == was.owner && r.challenge == was.challenge && r.quotaSlot == was.quotaSlot
            && r.context == was.context
            && r.units == was.units && r.provisionToken == was.provisionToken && r.createdAt == was.createdAt
            && (r.createSlot == was.createSlot || r.createSlot == None)
            && Shaped(r)
            && (r.operationToken == was.operationToken || r.operationToken == None || e.Claim?)
  {
  }

  lemma {:induction false} SameSlots(d: Db, f: Db, id: nat, r: Row)
    requires Distinguished(d) && id in d.rows && f.rows == d.rows[id := r]
    requires r.owner == d.rows[id].owner && r.challenge == d.rows[id].challenge && r.quotaSlot == d.rows[id].quotaSlot
    requires r.context == d.rows[id].context && (r.createSlot == d.rows[id].createSlot || r.createSlot == None)
    ensures Distinguished(f)
  {
  }

  lemma {:induction false} NewSlots(d: Db, f: Db, id: nat, r: Row, p: Plan)
    requires Distinguished(d) && f.rows == d.rows[id := r] && Admissible(d, p)
    requires r.owner == p.owner && r.challenge == p.challenge && r.quotaSlot == p.quotaSlot
    requires r.context == p.context && r.createSlot == Some(p.createSlot)
    ensures Distinguished(f)
  {
  }

  lemma {:induction false} ShapeOfRow(d: Db, f: Db, id: nat, r: Row)
    requires AllShaped(d) && Shaped(r) && f.rows == d.rows[id := r] && d.drawn <= f.drawn
    requires r.operationToken.Some? ==> r.operationToken.value in f.drawn
    ensures AllShaped(f)
  {
  }

  // ----- mirrors

  ghost predicate IsPart(parts: seq<Part>, c: nat) {
    exists i :: 0 <= i < |parts| && parts[i].container == c
  }

  lemma {:induction false} PartsOfLonger(parts: seq<Part>)
    requires parts != []
    ensures forall c | IsPart(parts[..|parts| - 1], c) :: IsPart(parts, c)
    ensures IsPart(parts, parts[|parts| - 1].container)
  {
    forall c | IsPart(parts[..|parts| - 1], c)
      ensures IsPart(parts, c)
    {
      var i :| 0 <= i < |parts| - 1 && parts[i].container == c;
    }
  }

  lemma {:induction false} PartsInserted(members: map<nat, Member>, parts: seq<Part>, id: nat, r: Row, name: nat)
    requires Insertable(members, parts)
    ensures var after := WithParts(members, parts, id, r, name);
            && (forall c | c in members :: c in after && after[c] == members[c])
            && (forall i | 0 <= i < |parts| :: parts[i].container in after &&
                  after[parts[i].container] == Member(id, name, parts[i].port, parts[i].isEntry, r.expires, r.renewals))
            && (forall c | c in after && c !in members :: IsPart(parts, c))
  {
    if parts != [] {
      var fewer := parts[..|parts| - 1];
      PartsInserted(members, fewer, id, r, name);
      PartsOfLonger(parts);
    }
  }

  lemma {:induction false} EntriesAre(parts: seq<Part>, c: nat)
    ensures c in Entries(parts) <==> exists i :: 0 <= i < |parts| && parts[i].isEntry && parts[i].container == c
  {
    if parts != [] {
      EntriesAre(parts[1..], c);
      if exists i :: 0 <= i < |parts| && parts[i].isEntry && parts[i].container == c {
        var i :| 0 <= i < |parts| && parts[i].isEntry && parts[i].container == c;
        if i > 0 {
          assert parts[1..][i - 1] == parts[i];
        }
      }
    }
  }

  lemma {:induction false} EntryPart(members: map<nat, Member>, parts: seq<Part>, entry: nat, i: nat)
    requires i < |parts| && Insertable(members, parts) && Entries(parts) == [entry]
    ensures parts[i].isEntry <==> parts[i].container == entry
  {
    EntriesAre(parts, entry);
    EntriesAre(parts, parts[i].container);
    assert entry in Entries(parts);
  }

  lemma {:induction false} PartCount(members: map<nat, Member>, parts: seq<Part>, ms: set<nat>)
    requires Insertable(members, parts)
    requires forall c :: c in ms <==> IsPart(parts, c)
    ensures |ms| == |parts|
  {
    if parts == [] {
      assert ms == {};
    } else {
      var n := |parts| - 1;
      var last := parts[n].container;
      var fewer := ms - {last};
      forall c
        ensures c in fewer <==> IsPart(parts[..n], c)
      {
        if c in fewer {
          var i :| 0 <= i < |parts| && parts[i].container == c;
          assert parts[..n][i].container == c;
        }
        if IsPart(parts[..n], c) {
          var i :| 0 <= i < n && parts[..n][i].container == c;
          assert parts[i].container == c;
          assert IsPart(parts, c);
        }
      }
      PartCount(members, parts[..n], fewer);
      assert IsPart(parts, last);
    }
  }

  // The physical rows of other instances are left alone.
  ghost predicate Untouched(a: map<nat, Member>, b: map<nat, Member>, id: nat) {
    && (forall c | c in a && a[c].instance != id :: c in b && b[c] == a[c])
    && (forall c | c in b && b[c].instance != id :: c in a && a[c] == b[c])
  }

  // After `mark_running`: the physical rows are those reported, one of them the entry.
  lemma {:induction false} PartsAgree(members: map<nat, Member>, parts: seq<Part>, id: nat, was: Row, r: Row,
                                      name: nat, entry: nat)
    requires Agrees(members, id, was) && was.entry.None? && Insertable(members, parts)
    requires Entries(parts) == [entry] && |parts| == r.units && r.entry == Some(entry)
    requires r.expires == was.expires && r.renewals == was.renewals
    ensures Agrees(WithParts(members, parts, id, was, name), id, r)
    ensures Untouched(members, WithParts(members, parts, id, was, name), id)
  {
    var after := WithParts(members, parts, id, was, name);
    PartsInserted(members, parts, id, was, name);
    var ms := MembersOf(after, id);
    forall c
      ensures c in ms <==> IsPart(parts, c)
    {
      assert c in members && members[c].instance == id ==> c in MembersOf(members, id);
    }
    PartCount(members, parts, ms);
    EntriesAre(parts, entry);
    assert entry in Entries(parts);
    forall c | c in after && after[c].instance == id
      ensures after[c].expires == r.expires && after[c].renewals == r.renewals && (after[c].isEntry <==> c == entry)
    {
      assert c in ms;
      var i :| 0 <= i < |parts| && parts[i].container == c;
      EntryPart(members, parts, entry, i);
    }
  }

  lemma {:induction false} OthersAgree(a: map<nat, Member>, b: map<nat, Member>, id: nat, i: nat, r: Row)
    requires Untouched(a, b, id) && i != id && Agrees(a, i, r)
    ensures Agrees(b, i, r)
  {
    assert MembersOf(b, i) == MembersOf(a, i);
  }

  lemma {:induction false} MirroredAgree(members: map<nat, Member>, id: nat, r: Row, was: Row, renewal: bool)
    requires Agrees(members, id, was) && r.entry == was.entry && r.units == was.units
    requires renewal || r.renewals == was.renewals
    ensures Agrees(Mirrored(members, id, r, renewal), id, r)
    ensures Untouched(members, Mirrored(members, id, r, renewal), id)
  {
    assert MembersOf(Mirrored(members, id, r, renewal), id) == MembersOf(members, id);
  }

  lemma {:induction false} RowEventAgrees(d: Db, e: Event)
    requires MirrorsAgree(d) && AllShaped(d) && Enabled(d, e) && WritesRow(e) && !e.Reserve?
    ensures Agrees(NewMembers(d, e), e.id, NewRow(d, e)) && Untouched(d.members, NewMembers(d, e), e.id)
  {
    var r, was := NewRow(d, e), d.rows[e.id];
    assert Agrees(d.members, e.id, was) && Shaped(was);
    if e.MarkRunning? {
      PartsAgree(d.members, e.parts, e.id, was, r, NameOf(d, was.context), e.entry);
    } else if e.Shorten? || e.Extend? || e.Renew? {
      MirroredAgree(d.members, e.id, r, was, e.Renew?);
    }
  }

  lemma {:induction false} MirrorsOfRow(d: Db, f: Db, id: nat, r: Row)
    requires MirrorsAgree(d) && f.rows == d.rows[id := r]
    requires Agrees(f.members, id, r) && Untouched(d.members, f.members, id)
    ensures MirrorsAgree(f)
  {
    forall i | i in f.rows
      ensures Agrees(f.members, i, f.rows[i])
    {
      if i != id {
        OthersAgree(d.members, f.members, id, i, d.rows[i]);
      }
    }
  }

  lemma {:induction false} MirrorsWithout(d: Db, f: Db, id: nat)
    requires MirrorsAgree(d) && f.rows == d.rows - {id} && f.members == WithoutInstance(d.members, id)
    ensures MirrorsAgree(f)
  {
    forall i | i in f.rows
      ensures Agrees(f.members, i, f.rows[i])
    {
      OthersAgree(d.members, f.members, id, i, d.rows[i]);
    }
  }

  // ----- places

  lemma {:induction false} HomeOfRow(d: Db, f: Db, id: nat, r: Row)
    requires AllAtHome(d) && id in d.rows && f.rows == d.rows[id := r] && r.context == d.rows[id].context
    requires f.contexts == d.contexts && f.homes == d.homes && f.labelled == d.labelled
    ensures AllAtHome(f)
  {
    assert AtHome(d, id);
    forall i | i in f.rows
      ensures AtHome(f, i)
    {
      assert i != id ==> AtHome(d, i);
    }
  }

  lemma {:induction false} NewMember(d: Db, e: Event, c: nat)
    requires MembersNamed(d) && Enabled(d, e) && WritesRow(e) && !e.Reserve? && c in NewMembers(d, e)
    ensures var m := NewMembers(d, e)[c]; m.instance in d.rows && m.context == NameOf(d, d.rows[m.instance].context)
  {
    if c in d.members {
      assert Named(d, c);
    }
    if e.MarkRunning? {
      var name := NameOf(d, d.rows[e.id].context);
      PartsInserted(d.members, e.parts, e.id, d.rows[e.id], name);
      if c !in d.members {
        assert IsPart(e.parts, c);
        var i :| 0 <= i < |e.parts| && e.parts[i].container == c;
        assert NewMembers(d, e)[c].instance == e.id && NewMembers(d, e)[c].context == name;
      }
    }
  }

  lemma {:induction false} NamesOfRow(d: Db, e: Event, f: Db, r: Row)
    requires MembersNamed(d) && Enabled(d, e) && WritesRow(e) && !e.Reserve?
    requires f.rows == d.rows[e.id := r] && r.context == d.rows[e.id].context
    requires f.contexts == d.contexts && f.members == NewMembers(d, e)
    ensures MembersNamed(f)
  {
    forall c | c in f.members
      ensures Named(f, c)
    {
      NewMember(d, e, c);
    }
  }

  lemma {:induction false} RowEventKeepsInv(d: Db, e: Event)
    requires Inv(d) && Enabled(d, e) && WritesRow(e) && !e.Reserve?
    ensures Inv(Apply(d, e))
  {
    var f, r := Apply(d, e), NewRow(d, e);
    assert Shaped(d.rows[e.id]);
    UpdateKeeps(d, e);
    SameSlots(d, f, e.id, r);
    ShapeOfRow(d, f, e.id, r);
    RowEventAgrees(d, e);
    MirrorsOfRow(d, f, e.id, r);
    HomeOfRow(d, f, e.id, r);
    NamesOfRow(d, e, f, r);
  }

  lemma {:induction false} NotIssued(d: Db, id: nat)
    requires AllAtHome(d) && MembersNamed(d) && id !in d.homes
    ensures id !in d.rows && MembersOf(d.members, id) == {}
  {
    assert id in d.rows ==> AtHome(d, id);
    forall c | c in d.members
      ensures d.members[c].instance != id
    {
      assert Named(d, c);
    }
  }

  lemma {:induction false} ReserveKeepsInv(d: Db, e: Event)
    requires Inv(d) && Enabled(d, e) && e.Reserve?
    ensures Inv(Apply(d, e))
  {
    var f, r := Apply(d, e), Reserved(e);
    NotIssued(d, e.id);
    NewSlots(d, f, e.id, r, e.plan);
    ShapeOfRow(d, f, e.id, r);
    MirrorsOfRow(d, f, e.id, r);
    ReserveKeepsPlaces(d, f, e.id, r);
  }

  lemma {:induction false} ReserveKeepsPlaces(d: Db, f: Db, id: nat, r: Row)
    requires AllAtHome(d) && MembersNamed(d) && id !in d.rows && ContextsDistinct(d.contexts, d.contextIds)
    requires f.rows == d.rows[id := r] && f.members == d.members && r.context in d.contexts
    requires var x := d.contexts[r.context];
             && f.contexts == d.contexts[r.context := x.(placementVersion := x.placementVersion + 1)]
             && f.homes == d.homes[id := x.hostname]
    requires f.labelled == d.labelled && f.contextIds == d.contextIds
    ensures AllAtHome(f) && MembersNamed(f) && ContextsDistinct(f.contexts, f.contextIds)
  {
    forall i | i in f.rows
      ensures AtHome(f, i)
    {
      assert i != id ==> AtHome(d, i);
    }
    forall c | c in f.members
      ensures Named(f, c)
    {
      assert Named(d, c);
    }
  }

  lemma {:induction false} WithoutRow(d: Db, f: Db, id: nat)
    requires Inv(d) && f == d.(rows := d.rows - {id}, members := WithoutInstance(d.members, id))
    ensures Inv(f)
  {
    MirrorsWithout(d, f, id);
    forall i | i in f.rows
      ensures AtHome(f, i)
    {
      assert AtHome(d, i);
    }
    forall c | c in f.members
      ensures Named(f, c)
    {
      assert Named(d, c);
    }
  }

  // A change of the context table that keeps names, and hostnames where rows live.
  lemma {:induction false} ContextsChange(d: Db, f: Db)
    requires Inv(d) && f.rows == d.rows && f.members == d.members && f.homes == d.homes && f.drawn == d.drawn
    requires f.labelled <= f.homes.Keys && ContextsDistinct(f.contexts, f.contextIds)
    requires forall i | i in d.rows ::
               var c := d.rows[i].context;
               c in d.contexts ==>
                 c in f.contexts && f.contexts[c].name == d.contexts[c].name
                 && f.contexts[c].hostname == d.contexts[c].hostname
    ensures Inv(f)
  {
    forall i | i in f.rows
      ensures AtHome(f, i)
    {
      assert AtHome(d, i);
    }
    forall c | c in f.members
      ensures Named(f, c)
    {
      assert Named(d, c) && AtHome(d, d.members[c].instance);
    }
  }

  lemma {:induction false} ContextEventKeepsInv(d: Db, e: Event)
    requires Inv(d) && Enabled(d, e) && !WritesRow(e) && !e.Delete?
    ensures Inv(Apply(d, e))
  {
    var f := Apply(d, e);
    if !e.Label? && !e.AddContext? && !e.DeleteContext? {
      assert f.contexts == d.contexts[e.context := NewContext(d, e)];
      assert NewContext(d, e).name == d.contexts[e.context].name && NewContext(d, e).weight >= 1;
    }
    ContextsChange(d, f);
  }

  /** Every transaction keeps the whole invariant. */
  lemma {:induction false} EventKeepsInv(d: Db, e: Event)
    requires Inv(d)
    ensures Inv(Apply(d, e))
  {
    if Enabled(d, e) {
      if e.Reserve? {
        ReserveKeepsInv(d, e);
      } else if WritesRow(e) {
        RowEventKeepsInv(d, e);
      } else if e.Delete? {
        WithoutRow(d, Apply(d, e), e.id);
      } else {
        ContextEventKeepsInv(d, e);
      }
    }
  }
}
