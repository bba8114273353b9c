/** Particular runs of the instance tables, which show that bounds are attained and that a
    condition of a theorem cannot be dropped. */
module Scenarios {
  import opened Support
  import opened CoordinationTables
  import opened CoordinationRuns
  import opened Placement
  import opened Coordinator
  import opened Concurrency

  // Two active, healthy contexts of weight 1 and no rows.
  const PLAIN := Context(0, None, 1, Active, true, 0)
  const TWO := Db(map[], map[], map[0 := PLAIN, 1 := PLAIN.(name := 1)], map[], {}, {0, 1}, {})

  lemma {:induction false} Then(past: seq<Db>, log: seq<Event>, e: Event, d: Db) returns (p: seq<Db>, l: seq<Event>)
    requires Recorded(past, log) && d == Apply(past[|past| - 1], e)
    ensures p == past + [d] && l == log + [e] && Recorded(p, l)
  {
    Extended(past, log, e, d);
    p, l := past + [d], log + [e];
  }

  // An administrator adds the two contexts and both are found healthy.
  lemma {:induction false} Opening() returns (past: seq<Db>, log: seq<Event>)
    ensures Recorded(past, log) && |log| == 4 && past[4] == TWO
  {
    past, log := [EMPTY], [];
    var x := PLAIN.(healthy := false);
    past, log := Then(past, log, AddContext(0, 0, None, 1, Active), EMPTY.(contexts := map[0 := x], contextIds := {0}));
    past, log := Then(past, log, Probe(0, true), EMPTY.(contexts := map[0 := PLAIN], contextIds := {0}));
    var both := map[0 := PLAIN, 1 := x.(name := 1)];
    past, log := Then(past, log, AddContext(1, 1, None, 1, Active), EMPTY.(contexts := both, contextIds := {0, 1}));
    past, log := Then(past, log, Probe(1, true), TWO);
  }

  // ----- reservations that overtake one another

  // The n-th owner's reservation, planned on context 0.
  function Place(n: nat, units: nat): Event {
    Reserve(n, n, Plan(Owner.User(n + 1), 1, 0, 0, None, n, units, 0, 1, 1, n + 1), 0)
  }

  // The first n owners have a row each, all of them on context 0.
  ghost predicate Rows(d: Db, n: nat) {
    && (forall i: nat :: i in d.rows <==> i < n)
    && (forall i: nat :: i in d.homes <==> i < n)
    && (forall i | i in d.rows :: d.rows[i].owner == Owner.User(i + 1) && d.rows[i].createSlot == Some(i))
  }

  ghost predicate Plain(d: Db) {
    && d.contexts.Keys == {0, 1}
    && d.contexts[0] == PLAIN.(placementVersion := d.contexts[0].placementVersion)
    && d.contexts[1] == PLAIN.(name := 1)
  }

  ghost predicate Loaded(d: Db, n: int) {
    Units(d, 0) == n && Units(d, 1) == 0
  }

  // Each of those rows holds s units.
  ghost predicate Piled(d: Db, n: nat, s: nat) {
    Plain(d) && Rows(d, n) && Loaded(d, n * s)
  }

  lemma {:induction false} NothingPiled(s: nat)
    ensures Piled(TWO, 0, s) && Best(TWO, 0, TWO.contexts.Keys)
  {
    NoneYet(TWO, 0);
    NoneYet(TWO, 1);
    assert TWO.rows.Keys == {};
    assert TWO.contexts.Keys == {0, 1};
  }

  lemma {:induction false} PlaceEnabled(d: Db, n: nat, units: nat)
    requires Plain(d) && Rows(d, n) && units >= 1
    ensures Enabled(d, Place(n, units))
  {
    var p := Place(n, units).plan;
    assert Admissible(d, p) && Planned(p) && Placeable(d, 0, None);
  }

  lemma {:induction false} PlaceEffect(d: Db, n: nat, held: int, units: nat, f: Db)
    requires Plain(d) && Rows(d, n) && Loaded(d, held) && units >= 1 && f == Apply(d, Place(n, units))
    ensures Plain(f) && Rows(f, n + 1) && Loaded(f, held + units)
  {
    PlaceTables(d, n, units, f);
    var r := Reserved(Place(n, units));
    RowsGrow(d, f, n, r);
    NewUnits(d, f, n, r, 0);
    NewUnits(d, f, n, r, 1);
  }

  lemma {:induction false} PlaceTables(d: Db, n: nat, units: nat, f: Db)
    requires Plain(d) && Rows(d, n) && units >= 1 && f == Apply(d, Place(n, units))
    ensures f.rows == d.rows[n := Reserved(Place(n, units))] && f.homes == d.homes[n := None] && Plain(f)
  {
    PlaceEnabled(d, n, units);
  }

  lemma {:induction false} RowsGrow(d: Db, f: Db, n: nat, r: Row)
    requires Rows(d, n) && f.rows == d.rows[n := r] && f.homes == d.homes[n := None]
    requires r.owner == Owner.User(n + 1) && r.createSlot == Some(n)
    ensures Rows(f, n + 1) && n !in d.rows
  {
  }

  // Moment k of a run in which each owner in turn reserves s units, planned on the empty tables.
  ghost predicate PiledAt(past: seq<Db>, log: seq<Event>, k: nat, s: nat)
    requires |past| == |log| + 1
  {
    4 <= k < |past| && Piled(past[k], k - 4, s) && (k < |log| ==> log[k] == Place(k - 4, s))
  }

  ghost predicate AllPiled(past: seq<Db>, log: seq<Event>, s: nat)
    requires |past| == |log| + 1
  {
    forall k: nat | 4 <= k < |past| :: PiledAt(past, log, k, s)
  }

  lemma {:induction false} PileRun(n: nat, s: nat) returns (past: seq<Db>, log: seq<Event>)
    requires s >= 1
    ensures Recorded(past, log) && |log| == 4 + n && past[4] == TWO && AllPiled(past, log, s)
  {
    if n == 0 {
      past, log := Opening();
      NothingPiled(s);
    } else {
      var p, l := PileRun(n - 1, s);
      past, log := PileOn(p, l, n - 1, s);
    }
  }

  lemma {:induction false} PileOn(past: seq<Db>, log: seq<Event>, n: nat, s: nat) returns (p: seq<Db>, l: seq<Event>)
    requires Recorded(past, log) && |log| == 4 + n && past[4] == TWO && AllPiled(past, log, s) && s >= 1
    ensures Recorded(p, l) && |l| == 5 + n && p[4] == TWO && AllPiled(p, l, s)
  {
    assert PiledAt(past, log, 4 + n, s);
    var f := Apply(past[4 + n], Place(n, s));
    PlaceEffect(past[4 + n], n, n * s, s, f);
    assert (n + 1) * s == n * s + s;
    p, l := Then(past, log, Place(n, s), f);
    PiledLonger(past, log, n, s, f, p, l);
  }

  lemma {:induction false} PiledLonger(past: seq<Db>, log: seq<Event>, n: nat, s: nat, f: Db, p: seq<Db>,
                                       l: seq<Event>)
    requires |log| == 4 + n && |past| == 5 + n && AllPiled(past, log, s) && Piled(f, n + 1, s)
    requires p == past + [f] && l == log + [Place(n, s)]
    ensures AllPiled(p, l, s)
  {
    forall k: nat | 4 <= k < |p|
      ensures PiledAt(p, l, k, s)
    {
      if k < 5 + n {
        assert p[k] == past[k];
        assert l[k] == if k < |log| then log[k] else Place(k - 4, s);
        OlderAt(past, log, p, l, k, s);
      } else {
        NewestAt(p, l, n, s, f);
      }
    }
  }

  lemma {:induction false} NewestAt(p: seq<Db>, l: seq<Event>, n: nat, s: nat, f: Db)
    requires |l| == 5 + n && |p| == 6 + n && p[5 + n] == f && Piled(f, n + 1, s)
    ensures PiledAt(p, l, 5 + n, s)
  {
  }

  lemma {:induction false} OlderAt(past: seq<Db>, log: seq<Event>, p: seq<Db>, l: seq<Event>, k: nat, s: nat)
    requires |past| == |log| + 1 && |p| == |l| + 1 && AllPiled(past, log, s) && 4 <= k < |past| < |p|
    requires p[k] == past[k] && l[k] == if k < |log| then log[k] else Place(k - 4, s)
    ensures PiledAt(p, l, k, s)
  {
    assert PiledAt(past, log, k, s);
  }

  /** The tolerance u + lag of `FairThroughout` is attained: lag one-unit reservations and one
      of u units, all planned on the empty tables, all commit on the same of two contexts. */
  lemma {:induction false} ToleranceAttained(u: nat, lag: nat) returns (past: seq<Db>, log: seq<Event>)
    requires u >= 1
    ensures FairRun(past, log, 4, |log|, u, lag)
    ensures |log| == 5 + lag && past[4] == TWO
    ensures forall k: nat | 4 <= k < |log| :: LateAt(past, log, k, u, lag) && Effective(past, log, k)
    ensures forall k: nat | 4 <= k < |log| :: ByCalls(past, log, 4, k, u, lag)
    ensures !FairAt(past, |log|, u + lag - 1)
  {
    past, log := LatePile(u, lag);
    LateRun(past, log, u, lag);
    forall k: nat | 4 <= k < |log|
      ensures ByCalls(past, log, 4, k, u, lag)
    {
      LateIsCall(past, log, k, u, lag);
    }
    Unbalanced(past[|log|], lag + u);
  }

  // Moment k of such a run with a last reservation of u units.
  ghost predicate LateAt(past: seq<Db>, log: seq<Event>, k: nat, u: nat, lag: nat)
    requires |past| == |log| + 1
  {
    && 4 <= k < |log| && k - 4 <= lag && Piled(past[k], k - 4, 1)
    && log[k] == Place(k - 4, if k - 4 < lag then 1 else u)
  }

  lemma {:induction false} LatePile(u: nat, lag: nat) returns (past: seq<Db>, log: seq<Event>)
    requires u >= 1
    ensures Recorded(past, log) && |log| == 5 + lag && past[4] == TWO
    ensures forall k: nat | 4 <= k < |log| :: LateAt(past, log, k, u, lag)
    ensures Plain(past[|log|]) && Loaded(past[|log|], lag + u)
  {
    var p, l := PileRun(lag, 1);
    assert PiledAt(p, l, 4 + lag, 1);
    var f := Apply(p[4 + lag], Place(lag, u));
    PlaceEffect(p[4 + lag], lag, lag, u, f);
    past, log := Then(p, l, Place(lag, u), f);
    LateLonger(p, l, u, lag, f);
  }

  lemma {:induction false} LateLonger(past: seq<Db>, log: seq<Event>, u: nat, lag: nat, f: Db)
    requires |log| == 4 + lag && |past| == 5 + lag && AllPiled(past, log, 1)
    ensures forall k: nat | 4 <= k < 5 + lag :: LateAt(past + [f], log + [Place(lag, u)], k, u, lag)
  {
    var p, l := past + [f], log + [Place(lag, u)];
    forall k: nat | 4 <= k < 5 + lag
      ensures LateAt(p, l, k, u, lag)
    {
      assert p[k] == past[k] && l[k] == if k < |log| then log[k] else Place(lag, u);
      LateHere(past, log, p, l, k, u, lag);
    }
  }

  lemma {:induction false} LateHere(past: seq<Db>, log: seq<Event>, p: seq<Db>, l: seq<Event>, k: nat, u: nat, lag: nat)
    requires |log| == 4 + lag && |past| == 5 + lag && |p| == |l| + 1 && |l| == 5 + lag && AllPiled(past, log, 1)
    requires 4 <= k < 5 + lag && p[k] == past[k] && l[k] == if k < |log| then log[k] else Place(lag, u)
    ensures LateAt(p, l, k, u, lag)
  {
    assert PiledAt(past, log, k, 1);
  }

  // The request behind `Place`.
  function Asked(n: nat, units: nat): Request {
    Request(Owner.User(n + 1), 1, 1, 1, n + 1, units, 0, 1, None, None)
  }

  lemma {:induction false} PlannedOnEmpty(n: nat, units: nat)
    requires units >= 1
    ensures PlannedOn(TWO, Asked(n, units), Place(n, units).plan)
  {
    NothingPiled(1);
    assert !OwnerUses(TWO, Owner.User(n + 1), 0) && !SlotTaken(TWO, 0, n);
  }

  lemma {:induction false} StillOpen(d: Db, m: nat, n: nat, units: nat)
    requires Plain(d) && Rows(d, m) && m <= n
    ensures AllOpen(d, Asked(n, units))
  {
    forall c | c in d.contexts
      ensures Candidate(d, Asked(n, units), c) && HasFreeSlot(d, c, n + 1)
    {
      assert !SlotTaken(d, c, n);
    }
  }

  // The reservations of the run are what calls of the coordinator make.
  lemma {:induction false} LateMade(past: seq<Db>, log: seq<Event>, k: nat, n: nat, units: nat, u: nat, lag: nat)
    requires |past| == |log| + 1 && 4 <= k < |log| && past[4] == TWO && 1 <= units <= u
    requires log[k] == Place(n, units) && OpenSince(past, 4, k, Asked(n, units), 0, lag)
    ensures ByCalls(past, log, 4, k, u, lag)
  {
    LatePlanned(past, k, n, units);
    assert CallMade(past, log, 4, k, Asked(n, units), u, lag);
  }

  lemma {:induction false} LateIsCall(past: seq<Db>, log: seq<Event>, k: nat, u: nat, lag: nat)
    requires |past| == |log| + 1 && 4 <= k < |log| && past[4] == TWO && u >= 1
    requires forall l: nat | 4 <= l < |log| :: LateAt(past, log, l, u, lag)
    ensures ByCalls(past, log, 4, k, u, lag)
  {
    assert LateAt(past, log, k, u, lag);
    var units := if k - 4 < lag then 1 else u;
    LateIsOpen(past, log, k, u, lag, units, Asked(k - 4, units));
    LateMade(past, log, k, k - 4, units, u, lag);
  }

  lemma {:induction false} LatePlanned(past: seq<Db>, k: nat, n: nat, units: nat)
    requires 4 <= k < |past| && past[4] == TWO && units >= 1
    ensures PlannedSince(past, 4, k, Asked(n, units), Place(n, units).plan)
  {
    PlannedOnEmpty(n, units);
    assert PlannedAt(past, 4, Asked(n, units), Place(n, units).plan);
  }

  lemma {:induction false} LateIsOpen(past: seq<Db>, log: seq<Event>, k: nat, u: nat, lag: nat, units: nat,
                                      q: Request)
    requires |past| == |log| + 1 && 4 <= k < |log| && q == Asked(k - 4, units)
    requires forall l: nat | 4 <= l < |log| :: LateAt(past, log, l, u, lag)
    ensures OpenSince(past, 4, k, q, 0, lag)
  {
    assert LateAt(past, log, k, u, lag);
    forall m: nat | 4 <= m <= k
      ensures OpenAt(past, m, k, q, 0, lag)
    {
      assert LateAt(past, log, m, u, lag);
      StillOpen(past[m], m - 4, k - 4, units);
    }
  }

  lemma {:induction false} LateRun(past: seq<Db>, log: seq<Event>, u: nat, lag: nat)
    requires Recorded(past, log) && |log| >= 4 && past[4] == TWO && u >= 1
    requires forall k: nat | 4 <= k < |log| :: LateAt(past, log, k, u, lag)
    ensures FairRun(past, log, 4, |log|, u, lag)
    ensures forall k: nat | 4 <= k < |log| :: Effective(past, log, k)
  {
    forall k: nat | 4 <= k < |log|
      ensures Effective(past, log, k) && FairStep(past, log, 4, k, u, lag)
    {
      assert LateAt(past, log, k, u, lag);
      LatePlace(past, log, k, u, lag);
    }
  }

  lemma {:induction false} Unbalanced(d: Db, n: nat)
    requires Plain(d) && Loaded(d, n) && n >= 1
    ensures !Fair(d, n - 1)
  {
    assert !Balanced(d.contexts[1].weight, Units(d, 1), d.contexts[0].weight, Units(d, 0), n - 1);
  }

  lemma {:induction false} LatePlace(past: seq<Db>, log: seq<Event>, k: nat, u: nat, lag: nat)
    requires |past| == |log| + 1 && LateAt(past, log, k, u, lag) && past[4] == TWO && u >= 1
    ensures Effective(past, log, k) && FairStep(past, log, 4, k, u, lag)
  {
    PlaceEnabled(past[k], k - 4, log[k].plan.units);
    NothingPiled(1);
    assert ChosenAt(past, 4, k, 0, lag);
  }

  // Every run of calls of the coordinator stays in balance with tolerance v.
  ghost predicate GuaranteedByCalls(u: nat, lag: nat, v: nat) {
    forall past: seq<Db>, log: seq<Event>, i: nat, j: nat :: CallRun(past, log, i, j, u, lag) ==> FairAt(past, j, v)
  }

  /** So the balance that can be guaranteed is known exactly, for all runs in which contexts
      are chosen that way as well as for those that the coordinator produces. */
  lemma {:induction false} ExactBalance(u: nat, lag: nat, v: nat)
    requires u >= 1
    ensures Guaranteed(u, lag, v) <==> v >= u + lag
    ensures GuaranteedByCalls(u, lag, v) <==> v >= u + lag
  {
    if v >= u + lag {
      BalanceHolds(u, lag, v);
    } else {
      var past, log := ToleranceAttained(u, lag);
      assert CallRun(past, log, 4, |log|, u, lag);
      if FairAt(past, |log|, v) {
        FairWider(past[|log|], v, u + lag - 1);
      }
    }
  }

  lemma {:induction false} BalanceHolds(u: nat, lag: nat, v: nat)
    requires u >= 1 && v >= u + lag
    ensures Guaranteed(u, lag, v) && GuaranteedByCalls(u, lag, v)
  {
    forall past: seq<Db>, log: seq<Event>, i: nat, j: nat | FairRun(past, log, i, j, u, lag)
      ensures FairAt(past, j, v)
    {
      FairThroughout(past, log, i, j, u, lag);
      FairWider(past[j], u + lag, v);
    }
    forall past: seq<Db>, log: seq<Event>, i: nat, j: nat | CallRun(past, log, i, j, u, lag)
      ensures FairAt(past, j, v)
    {
      CoordinatorIsFair(past, log, i, j, u, lag);
      FairWider(past[j], u + lag, v);
    }
  }

  /** The smallest failing input: two one-unit reservations of different owners, both planned
      on the empty tables, both accepted on context 0 of two equal contexts. */
  lemma {:induction false} OvertakenChoice() returns (past: seq<Db>, log: seq<Event>)
    ensures Recorded(past, log) && |log| == 6 && past[4].rows == map[]
    ensures log[4] == Place(0, 1) && log[5] == Place(1, 1) && Effective(past, log, 4) && Effective(past, log, 5)
    ensures Best(past[4], 0, past[4].contexts.Keys) && !Fair(past[6], 1)
  {
    past, log := ToleranceAttained(1, 1);
    NothingPiled(1);
    assert LateAt(past, log, 4, 1, 1) && LateAt(past, log, 5, 1, 1);
  }

  // ----- calls in flight together

  // All calls read the tables at moment 4.
  const ALL_FIRST: nat -> nat := k => 4

  // Numbers from a on, n of them at most.
  lemma {:induction false} RangeSize(s: set<nat>, a: nat, n: nat)
    requires forall k | k in s :: a <= k < a + n
    ensures |s| <= n
  {
    if n == 0 {
      assert s == {};
    } else {
      RangeSize(s - {a + n - 1}, a, n - 1);
    }
  }

  /** The tolerance u * n of `ConcurrentFair` is attained: n calls for u units each, all of them
      planned on the empty tables, all commit on the same of two contexts. */
  lemma {:induction false} InFlightAttained(u: nat, n: nat) returns (past: seq<Db>, log: seq<Event>)
    requires u >= 1 && n >= 1
    ensures Overlapping(past, log, ALL_FIRST, 4, |log|, u, n) && |log| == 4 + n
    ensures forall k: nat | 4 <= k < |log| :: Effective(past, log, k) && log[k].Reserve?
    ensures !FairAt(past, |log|, u * n - 1)
  {
    past, log := PileRun(n, u);
    forall k: nat | 4 <= k < |log|
      ensures CallStep(past, log, ALL_FIRST, 4, k, u) && Effective(past, log, k) && log[k].Reserve?
    {
      assert PiledAt(past, log, k, u);
      PiledIsCall(past, log, k, u);
    }
    forall c: nat, m: nat
      ensures |InFlight(past, log, ALL_FIRST, 4, |log|, c, m)| <= n
    {
      RangeSize(InFlight(past, log, ALL_FIRST, 4, |log|, c, m), 4, n);
    }
    assert PiledAt(past, log, 4 + n, u);
    Times(n, 1, u);
    Unbalanced(past[|log|], n * u);
  }

  lemma {:induction false} PiledIsCall(past: seq<Db>, log: seq<Event>, k: nat, u: nat)
    requires |past| == |log| + 1 && 4 <= k < |log| && past[4] == TWO && u >= 1 && PiledAt(past, log, k, u)
    ensures CallStep(past, log, ALL_FIRST, 4, k, u) && Effective(past, log, k) && log[k].Reserve?
  {
    var n := k - 4;
    PlaceEnabled(past[k], n, u);
    PlannedOnEmpty(n, u);
    NothingPiled(u);
    StillOpen(TWO, 0, n, u);
    assert PlannedFor(past, 4, Asked(n, u), log[k].plan, u);
  }

  /** So the balance that a bound on the calls in flight guarantees is known exactly. */
  lemma {:induction false} ExactInFlight(u: nat, n: nat, v: nat)
    requires u >= 1 && n >= 1
    ensures GuaranteedInFlight(u, n, v) <==> v >= u * n
  {
    Times(n, 1, u);
    if v >= u * n {
      forall past: seq<Db>, log: seq<Event>, snap: nat -> nat, i: nat, j: nat | Overlapping(past, log, snap, i, j, u, n)
        ensures FairAt(past, j, v)
      {
        ConcurrentFair(past, log, snap, i, j, u, n);
        FairWider(past[j], u * n, v);
      }
    } else {
      var past, log := InFlightAttained(u, n);
      if FairAt(past, |log|, v) {
        FairWider(past[|log|], v, u * n - 1);
      }
    }
  }

  // ----- a release between a scan and its claim

  // The row of instance 0, claimed at time 0 while it waits for cleanup.
  function ClaimedRow(): Row {
    Reserved(Place(0, 1)).(state := CleanupPending, version := 2, operationToken := Some(0))
  }

  lemma {:induction false} ClaimedRun() returns (past: seq<Db>, log: seq<Event>)
    ensures Recorded(past, log) && |log| == 7
    ensures 0 in past[7].rows && past[7].rows[0] == ClaimedRow() && past[7].drawn == {0}
  {
    past, log := PileRun(1, 1);
    NothingPiled(1);
    assert PiledAt(past, log, 4, 1) && StepAt(past, log, 4);
    PlaceTables(TWO, 0, 1, past[5]);
    var r := Reserved(Place(0, 1));
    var pending := r.(state := CleanupPending, version := 1);
    past, log := ThenRow(past, log, MarkCleanupPending(0, 0, 0), r, pending);
    past, log := ThenRow(past, log, Event.Claim(0, {CleanupPending}, None, None, 120, 0, 0), pending, ClaimedRow());
  }

  /** A row waiting for cleanup is scanned while its claim is stale; the holder then releases
      it.  The version is still the scanned one, but the claim no longer takes effect. */
  lemma {:induction false} ReleasedAfterScan() returns (past: seq<Db>, log: seq<Event>, claim: Event)
    ensures Recorded(past, log) && |log| == 8 && log[7] == Release(0, 0, 301)
    ensures 0 in past[7].rows && 0 in past[8].rows && Scanned(past[7].rows[0], Sweep(301, 300))
    ensures claim == Event.Claim(0, {CleanupPending}, Some(past[7].rows[0].version), Some(Sweep(301, 300)), 120, 1, 301)
    ensures past[8].rows[0].version == past[7].rows[0].version
    ensures Enabled(past[7], claim) && !Enabled(past[8], claim)
  {
    past, log := ClaimedRun();
    var held := ClaimedRow();
    past, log := ThenRow(past, log, Release(0, 0, 301), held, held.(operationToken := None, updatedAt := 301));
    claim := Event.Claim(0, {CleanupPending}, Some(2), Some(Sweep(301, 300)), 120, 1, 301);
  }

  // One more event, which turns the row of instance 0 from r into s.
  lemma {:induction false} ThenRow(past: seq<Db>, log: seq<Event>, e: Event, r: Row, s: Row)
    returns (p: seq<Db>, l: seq<Event>)
    requires Recorded(past, log) && WritesRow(e) && !e.Reserve? && !e.MarkRunning? && e.id == 0
    requires 0 in past[|log|].rows && past[|log|].rows[0] == r && Matches(r, e) && Fits(past[|log|], e)
               && s == Updated(r, e)
    ensures Recorded(p, l) && |p| == |past| + 1 && p[..|past|] == past && l == log + [e]
    ensures 0 in p[|log| + 1].rows && p[|log| + 1].rows[0] == s
    ensures p[|log| + 1].drawn == past[|log|].drawn + if e.Claim? then {e.token} else {}
  {
    p, l := Then(past, log, e, Apply(past[|log|], e));
  }
}
