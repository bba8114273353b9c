/** Fairness of placement when reservations overlap: the number of calls in flight decides how
    far it can go off, however long each of them takes. */
module Concurrency {
  import opened Support
  import opened CoordinationTables
  import opened CoordinationRuns
  import opened Placement
  import opened Coordinator

  // The plan of a request of at most u units, made at moment m when all contexts were open.
  ghost predicate PlannedFor(past: seq<Db>, m: nat, q: Request, p: Plan, u: nat) {
    PlannedAt(past, m, q, p) && q.units <= u && AllOpen(past[m], q)
  }

  // Event k of a run since moment i: a reservation by a call that read the tables at moment
  // snap(k), or an event that is not about placement.
  ghost predicate CallStep(past: seq<Db>, log: seq<Event>, snap: nat -> nat, i: nat, k: nat, u: nat)
    requires k < |log| && |past| == |log| + 1
  {
    Effective(past, log, k) ==>
      && Steady(log[k])
      && (log[k].Reserve? ==> i <= snap(k) <= k && exists q: Request :: PlannedFor(past, snap(k), q, log[k].plan, u))
  }

  ghost predicate CallSteps(past: seq<Db>, log: seq<Event>, snap: nat -> nat, i: nat, j: nat, u: nat)
    requires j <= |log| && |past| == |log| + 1
  {
    forall k: nat | i <= k < j :: CallStep(past, log, snap, i, k, u)
  }

  // The reservations made on context c from moment i to moment j.
  ghost function Placed(past: seq<Db>, log: seq<Event>, i: nat, j: nat, c: nat): set<nat>
    requires j <= |log| && |past| == |log| + 1
  {
    set k: nat | i <= k < j && PlacesOn(past[k], log[k], c)
  }

  // Those of them whose calls have read the tables by moment m and commit later.
  ghost function InFlight(past: seq<Db>, log: seq<Event>, snap: nat -> nat, i: nat, j: nat, c: nat, m: nat): set<nat>
    requires j <= |log| && |past| == |log| + 1
  {
    set k: nat | k in Placed(past, log, i, j, c) && snap(k) <= m <= k
  }

  ghost predicate AtMostInFlight(past: seq<Db>, log: seq<Event>, snap: nat -> nat, i: nat, j: nat, n: nat)
    requires j <= |log| && |past| == |log| + 1
  {
    forall c: nat, m: nat :: |InFlight(past, log, snap, i, j, c, m)| <= n
  }

  // From empty tables on, reservations are made by such calls, and never are more than n of
  // them for one context in flight.
  ghost predicate Overlapping(past: seq<Db>, log: seq<Event>, snap: nat -> nat, i: nat, j: nat, u: nat, n: nat) {
    && Recorded(past, log) && i <= j < |past| && past[i].rows == map[]
    && CallSteps(past, log, snap, i, j, u) && AtMostInFlight(past, log, snap, i, j, n)
  }

  /** A reservation that `reserve_instance` has just made was planned at a moment of the call,
      so it is in flight only while the call lasts. */
  lemma {:induction false} MadeInFlight(past: seq<Db>, log: seq<Event>, from: nat, q: Request, r: Reservation, u: nat)
    returns (m: nat)
    requires r.Made? && JustReserved(past, log, from, q, r) && q.units <= u
    requires forall k: nat | from <= k < |log| :: AllOpen(past[k], q)
    ensures from <= m < |log| && PlannedFor(past, m, q, log[|log| - 1].plan, u)
  {
    m :| from <= m <= |log| - 1 && PlannedAt(past, m, q, r.plan);
  }

  lemma {:induction false} UnitsOfCall(past: seq<Db>, log: seq<Event>, snap: nat -> nat, i: nat, k: nat, u: nat)
    requires k < |log| && |past| == |log| + 1 && CallStep(past, log, snap, i, k, u)
    requires Effective(past, log, k) && log[k].Reserve?
    ensures log[k].plan.units <= u
  {
    var q: Request :| PlannedFor(past, snap(k), q, log[k].plan, u);
  }

  // The level rises by at most u where the count rises by one, and nowhere else.
  ghost predicate Rises(level: nat -> int, count: nat -> nat, u: nat, k: nat) {
    && count(k) <= count(k + 1) <= count(k) + 1
    && level(k + 1) <= level(k) + if count(k + 1) > count(k) then u else 0
  }

  lemma {:induction false} Climb(level: nat -> int, count: nat -> nat, u: nat, m: nat, j: nat)
    requires m <= j && count(m) == 0 && forall k: nat | m <= k < j :: Rises(level, count, u, k)
    ensures level(j) <= level(m) + u * count(j)
    decreases j
  {
    if m < j {
      Climb(level, count, u, m, j - 1);
      assert Rises(level, count, u, j - 1);
      assert u * (count(j - 1) + 1) == u * count(j - 1) + u;
    }
  }

  ghost function LevelOf(past: seq<Db>, c: nat): nat -> int {
    (k: nat) => if k < |past| then Units(past[k], c) else 0
  }

  ghost function CountOf(past: seq<Db>, log: seq<Event>, c: nat, m: nat): nat -> nat
    requires |past| == |log| + 1
  {
    (k: nat) => if m <= k <= |log| then Placements(past, log, c, m, k) else 0
  }

  // A context gets at most u units with each reservation.
  lemma {:induction false} UnitsSince(past: seq<Db>, log: seq<Event>, snap: nat -> nat, i: nat, m: nat, j: nat, c: nat,
                                      u: nat)
    requires Recorded(past, log) && i <= m <= j < |past| && CallSteps(past, log, snap, i, j, u)
    ensures Units(past[j], c) <= Units(past[m], c) + u * Placements(past, log, c, m, j)
  {
    var level, count := LevelOf(past, c), CountOf(past, log, c, m);
    forall k: nat | m <= k < j
      ensures Rises(level, count, u, k)
    {
      assert CallStep(past, log, snap, i, k, u);
      RisesAt(past, log, snap, i, m, k, c, u);
    }
    Climb(level, count, u, m, j);
    assert level(j) == Units(past[j], c) && level(m) == Units(past[m], c);
    assert count(j) == Placements(past, log, c, m, j);
  }

  lemma {:induction false} RisesAt(past: seq<Db>, log: seq<Event>, snap: nat -> nat, i: nat, m: nat, k: nat, c: nat,
                                   u: nat)
    requires Recorded(past, log) && i <= m <= k < |log| && CallStep(past, log, snap, i, k, u)
    ensures Rises(LevelOf(past, c), CountOf(past, log, c, m), u, k)
  {
    UnitsAt(past, log, snap, i, k, c, u);
    assert Placements(past, log, c, m, k + 1) ==
           Placements(past, log, c, m, k) + if PlacesOn(past[k], log[k], c) then 1 else 0;
  }

  lemma {:induction false} PlacedCount(past: seq<Db>, log: seq<Event>, m: nat, j: nat, c: nat)
    requires |past| == |log| + 1 && m <= j <= |log|
    ensures |Placed(past, log, m, j, c)| == Placements(past, log, c, m, j)
    decreases j
  {
    if m == j {
      assert Placed(past, log, m, j, c) == {};
    } else {
      PlacedCount(past, log, m, j - 1, c);
      PlacedNext(past, log, m, j - 1, c);
    }
  }

  lemma {:induction false} PlacedNext(past: seq<Db>, log: seq<Event>, m: nat, j: nat, c: nat)
    requires m <= j < |log| && |past| == |log| + 1
    ensures |Placed(past, log, m, j + 1, c)| ==
            |Placed(past, log, m, j, c)| + if PlacesOn(past[j], log[j], c) then 1 else 0
  {
    var before := Placed(past, log, m, j, c);
    assert Placed(past, log, m, j + 1, c) == before + if PlacesOn(past[j], log[j], c) then {j} else {};
  }

  lemma {:induction false} UnitsAt(past: seq<Db>, log: seq<Event>, snap: nat -> nat, i: nat, k: nat, c: nat, u: nat)
    requires Recorded(past, log) && i <= k < |log| && CallStep(past, log, snap, i, k, u)
    ensures Units(past[k + 1], c) <= Units(past[k], c) + if PlacesOn(past[k], log[k], c) then u else 0
  {
    InvThroughout(past, log, k);
    assert StepAt(past, log, k);
    UnitsStep(past[k], log[k], past[k + 1], c);
    if PlacesOn(past[k], log[k], c) {
      UnitsOfCall(past, log, snap, i, k, u);
    }
  }

  lemma {:induction false} Latest(s: set<nat>, snap: nat -> nat) returns (k: nat)
    requires s != {}
    ensures k in s && forall l | l in s :: snap(l) <= snap(k)
    decreases s
  {
    k :| k in s;
    if s != {k} {
      var l := Latest(s - {k}, snap);
      if snap(l) > snap(k) {
        k := l;
      }
    }
  }

  // Since the last snapshot behind a reservation on context b, only calls in flight at that
  // moment have placed anything there.
  lemma {:induction false} PlacedSinceLatest(past: seq<Db>, log: seq<Event>, snap: nat -> nat, i: nat, j: nat, u: nat,
                                             n: nat, b: nat, k: nat)
    requires Overlapping(past, log, snap, i, j, u, n) && k in Placed(past, log, i, j, b) && i <= snap(k) <= j
    requires forall l | l in Placed(past, log, i, j, b) :: snap(l) <= snap(k)
    ensures Units(past[j], b) <= Units(past[snap(k)], b) + u * n
  {
    UnitsSince(past, log, snap, i, snap(k), j, b, u);
    PlacedCount(past, log, snap(k), j, b);
    var since, flying := Placed(past, log, snap(k), j, b), InFlight(past, log, snap, i, j, b, snap(k));
    assert since <= flying;
    SubsetSize(since, flying);
    Times(u, |since|, n);
  }

  lemma {:induction false} CallsAreSteady(past: seq<Db>, log: seq<Event>, snap: nat -> nat, i: nat, m: nat, j: nat,
                                          u: nat)
    requires Recorded(past, log) && i <= m <= j < |past| && CallSteps(past, log, snap, i, j, u)
    ensures Grown(past[m], past[j])
  {
    forall l: nat | m <= l < j
      ensures Effective(past, log, l) ==> Steady(log[l])
    {
      assert CallStep(past, log, snap, i, l, u);
    }
    SteadyRun(past, log, m, j);
  }

  // The choice behind reservation k was the best one on the tables it was made on.
  lemma {:induction false} CallChoseBest(past: seq<Db>, log: seq<Event>, snap: nat -> nat, i: nat, j: nat, u: nat,
                                         b: nat, k: nat)
    requires Recorded(past, log) && j < |past| && CallSteps(past, log, snap, i, j, u)
    requires k in Placed(past, log, i, j, b)
    ensures i <= snap(k) <= k && Best(past[snap(k)], b, past[snap(k)].contexts.Keys)
  {
    assert CallStep(past, log, snap, i, k, u);
    var q: Request :| PlannedFor(past, snap(k), q, log[k].plan, u);
    ChoiceIsFair(past, snap(k), snap(k), q, b, log[k].plan.createSlot, 0);
  }

  lemma {:induction false} PairInFlight(past: seq<Db>, log: seq<Event>, snap: nat -> nat, i: nat, j: nat, u: nat,
                                        n: nat, a: nat, b: nat)
    requires Overlapping(past, log, snap, i, j, u, n) && u * n >= 1
    requires a in past[j].contexts && b in past[j].contexts
    ensures Balanced(past[j].contexts[a].weight, Units(past[j], a), past[j].contexts[b].weight, Units(past[j], b),
                     u * n)
  {
    if Placed(past, log, i, j, b) == {} {
      UnitsSince(past, log, snap, i, i, j, b, u);
      PlacedCount(past, log, i, j, b);
      UnitsNonNegative(past[j], past[j].rows.Keys, a);
      NoneYet(past[i], b);
      NothingPlaced(past[j].contexts[a].weight, past[j].contexts[b].weight, Units(past[j], a), Units(past[j], b),
                    u * n);
    } else {
      var k := Latest(Placed(past, log, i, j, b), snap);
      CallChoseBest(past, log, snap, i, j, u, b, k);
      PlacedSinceLatest(past, log, snap, i, j, u, n, b, k);
      CallsAreSteady(past, log, snap, i, snap(k), j, u);
      UnitsNonNegative(past[snap(k)], past[snap(k)].rows.Keys, a);
      ChosenPair(past[snap(k)], past[j], a, b, u * n);
    }
  }

  lemma {:induction false} NothingPlaced(wa: nat, wb: nat, ca: int, cb: int, v: nat)
    requires ca >= 0 && cb <= 0 && v >= 1
    ensures Balanced(wa, ca, wb, cb, v)
  {
    Times(wa, cb - v + 1, 0);
    Times(wb, 0, ca + 1);
  }

  /** Weighted fairness under concurrency: with at most n calls in flight, each for at most u
      units, every pair of contexts stays in balance with tolerance u * n.  For n = 1 that is
      the balance of calls made one after the other. */
  lemma {:induction false} ConcurrentFair(past: seq<Db>, log: seq<Event>, snap: nat -> nat, i: nat, j: nat, u: nat,
                                          n: nat)
    requires Overlapping(past, log, snap, i, j, u, n) && u * n >= 1
    ensures Fair(past[j], u * n)
  {
    forall a, b | a in past[j].contexts && b in past[j].contexts
      ensures Balanced(past[j].contexts[a].weight, Units(past[j], a), past[j].contexts[b].weight, Units(past[j], b),
                       u * n)
    {
      PairInFlight(past, log, snap, i, j, u, n, a, b);
    }
  }

  // Every run with at most n calls in flight stays in balance with tolerance v.
  ghost predicate GuaranteedInFlight(u: nat, n: nat, v: nat) {
    forall past: seq<Db>, log: seq<Event>, snap: nat -> nat, i: nat, j: nat ::
      Overlapping(past, log, snap, i, j, u, n) ==> FairAt(past, j, v)
  }
}
