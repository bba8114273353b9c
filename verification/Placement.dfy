/** Where src/coordination.py places a new instance: the lowest free quota slot of the owner,
    and a free create slot of the context with the best weight per unit placed.  The methods
    choose on a snapshot of the tables; the lemmas at the end say how fair the choice is. */
module Placement {
  import opened Support
  import opened CoordinationTables
  import opened CoordinationRuns

  datatype Request = Request(owner: Owner, challenge: int, submitter: int, maxInstances: int, maxCreates: int,
                             units: int, expires: int, timeout: int, preferred: Option<nat>,
                             eligible: Option<set<nat>>)

  // The checks that raise a ValueError.
  predicate Acceptable(q: Request) {
    q.challenge > 0 && q.submitter > 0 && q.maxInstances > 0 && q.maxCreates > 0 && q.units > 0 && q.timeout > 0
  }

  // The eligibility check made before any query.
  predicate Consistent(q: Request) {
    && (q.eligible.Some? ==> q.eligible.value != {})
    && (q.preferred.Some? && q.eligible.Some? ==> q.preferred.value in q.eligible.value)
  }

  predicate Candidate(d: Db, q: Request, c: nat) {
    && c in d.contexts && d.contexts[c].state == Active && d.contexts[c].healthy
    && (q.preferred.Some? ==> d.contexts[c].name == q.preferred.value)
    && (q.eligible.Some? ==> d.contexts[c].name in q.eligible.value)
  }

  // ----- quota slots

  ghost predicate OwnerUses(d: Db, owner: Owner, slot: nat) {
    exists i :: i in d.rows && d.rows[i].owner == owner && d.rows[i].quotaSlot == slot
  }

  // The lowest quota slot the owner does not use, and it is below the maximum.
  ghost predicate LowestFree(d: Db, q: Request, slot: nat) {
    && slot < q.maxInstances && !OwnerUses(d, q.owner, slot)
    && forall k: nat | k < slot :: OwnerUses(d, q.owner, k)
  }

  /** `_pick_quota_slot`: none exactly when the owner has as many rows as it may. */
  method PickQuotaSlot(d: Db, q: Request) returns (slot: Option<nat>)
    requires q.maxInstances > 0
    ensures slot.Some? ==> LowestFree(d, q, slot.value)
    ensures slot.None? ==> |OwnedBy(d, q.owner)| >= q.maxInstances
  {
    var used := set i | i in d.rows && d.rows[i].owner == q.owner :: d.rows[i].quotaSlot;
    var k: nat := 0;
    while k < q.maxInstances
      invariant k <= q.maxInstances
      invariant forall j: nat | j < k :: OwnerUses(d, q.owner, j)
    {
      if k !in used {
        return Some(k);
      }
      k := k + 1;
    }
    QuotaFull(d, q.owner, q.maxInstances);
    slot := None;
  }

  lemma {:induction false} QuotaFull(d: Db, owner: Owner, n: nat)
    requires forall k: nat | k < n :: OwnerUses(d, owner, k)
    ensures |OwnedBy(d, owner)| >= n
  {
    var slots := map i | i in d.rows :: d.rows[i].quotaSlot;
    forall k: nat | k < n
      ensures Taken(OwnedBy(d, owner), slots, k)
    {
      assert OwnerUses(d, owner, k);
      var i :| i in d.rows && d.rows[i].owner == owner && d.rows[i].quotaSlot == k;
      assert i in OwnedBy(d, owner);
    }
    AllTaken(OwnedBy(d, owner), slots, n);
  }

  // ----- units placed and scores

  ghost function Placed(d: Db, s: set<nat>, c: nat): set<nat> {
    set i | i in s && i in d.rows && d.rows[i].context == c
  }

  ghost function UnitsOf(d: Db): nat -> int {
    (i: nat) => if i in d.rows then d.rows[i].units else 0
  }

  ghost function UnitsIn(d: Db, s: set<nat>, c: nat): int {
    SumOver(Placed(d, s, c), UnitsOf(d))
  }

  // All units on a context; rows waiting for cleanup still count.
  ghost function Units(d: Db, c: nat): int {
    UnitsIn(d, d.rows.Keys, c)
  }

  lemma {:induction false} OneMore(d: Db, s: set<nat>, i: nat, c: nat)
    requires i in d.rows && i !in s
    ensures UnitsIn(d, s + {i}, c) == UnitsIn(d, s, c) + if d.rows[i].context == c then d.rows[i].units else 0
  {
    if d.rows[i].context == c {
      assert Placed(d, s + {i}, c) == Placed(d, s, c) + {i};
      SumAdd(Placed(d, s, c), i, UnitsOf(d));
    } else {
      assert Placed(d, s + {i}, c) == Placed(d, s, c);
    }
  }

  lemma {:induction false} NoneYet(d: Db, c: nat)
    ensures UnitsIn(d, {}, c) == 0
  {
    assert Placed(d, {}, c) == {};
  }

  function Lookup(counts: map<nat, nat>, c: nat): nat {
    if c in counts then counts[c] else 0
  }

  // The counts of the rows in s.
  ghost predicate Counted(d: Db, s: set<nat>, counts: map<nat, nat>) {
    forall c: nat :: Lookup(counts, c) == UnitsIn(d, s, c)
  }

  lemma {:induction false} CountNone(d: Db)
    ensures Counted(d, {}, map[])
  {
    forall c: nat
      ensures Lookup(map[], c) == UnitsIn(d, {}, c)
    {
      NoneYet(d, c);
    }
  }

  lemma {:induction false} CountOne(d: Db, done: set<nat>, counts: map<nat, nat>, i: nat)
    requires i in d.rows && i !in done && Counted(d, done, counts)
    ensures var c := d.rows[i].context; Counted(d, done + {i}, counts[c := Lookup(counts, c) + d.rows[i].units])
  {
    var c := d.rows[i].context;
    forall x: nat
      ensures Lookup(counts[c := Lookup(counts, c) + d.rows[i].units], x) == UnitsIn(d, done + {i}, x)
    {
      OneMore(d, done, i, x);
    }
  }

  method CountRow(d: Db, ghost done: set<nat>, counts: map<nat, nat>, i: nat) returns (more: map<nat, nat>)
    requires i in d.rows && i !in done && Counted(d, done, counts)
    ensures Counted(d, done + {i}, more)
  {
    var c := d.rows[i].context;
    CountOne(d, done, counts, i);
    more := counts[c := Lookup(counts, c) + d.rows[i].units];
  }

  /** `placement_counts`. */
  method PlacementCounts(d: Db) returns (counts: map<nat, nat>)
    ensures Counted(d, d.rows.Keys, counts)
  {
    counts := map[];
    var todo := d.rows.Keys;
    ghost var done: set<nat> := {};
    CountNone(d);
    while todo != {}
      invariant done + todo == d.rows.Keys && done !! todo
      invariant Counted(d, done, counts)
      decreases |todo|
    {
      var i :| i in todo;
      counts := CountRow(d, done, counts, i);
      done, todo := done + {i}, todo - {i};
    }
    assert done == d.rows.Keys;
  }

  // The score of a context, as an exact fraction.
  function ScoreOf(weight: nat, count: nat): real {
    weight as real / (count + 1) as real
  }

  ghost function Score(d: Db, c: nat): real
    requires c in d.contexts && Units(d, c) >= 0
  {
    ScoreOf(d.contexts[c].weight, Units(d, c))
  }

  // Higher score first, then the smaller name.
  function Rated(d: Db, scores: map<nat, real>, c: nat): (real, nat) {
    (if c in scores then scores[c] else 0.0, NameOf(d, c))
  }

  predicate Outranks(a: (real, nat), b: (real, nat)) {
    a.0 > b.0 || (a.0 == b.0 && a.1 <= b.1)
  }

  // c ranks at or above every one of the given contexts.
  ghost predicate Best(d: Db, c: nat, among: set<nat>) {
    && c in d.contexts && Units(d, c) >= 0
    && forall x | x in among && x in d.contexts && Units(d, x) >= 0 ::
         Outranks((Score(d, c), d.contexts[c].name), (Score(d, x), d.contexts[x].name))
  }

  /** `_ranked_contexts`. */
  method RankedContexts(d: Db, q: Request) returns (ranked: seq<nat>)
    ensures forall c :: c in ranked <==> Candidate(d, q, c)
    ensures forall i | 0 <= i < |ranked| :: Best(d, ranked[i], set j | i <= j < |ranked| :: ranked[j])
  {
    var counts := PlacementCounts(d);
    var found := set c | c in d.contexts && Candidate(d, q, c);
    var scores := map c | c in found :: ScoreOf(d.contexts[c].weight, Lookup(counts, c));
    var order := (a: nat, b: nat) => Outranks(Rated(d, scores, a), Rated(d, scores, b));
    ranked := Sorted(found, order);
    forall i | 0 <= i < |ranked|
      ensures Best(d, ranked[i], set j | i <= j < |ranked| :: ranked[j])
    {
      RankedBest(d, counts, scores, ranked, i);
    }
  }

  lemma {:induction false} RankedBest(d: Db, counts: map<nat, nat>, scores: map<nat, real>, ranked: seq<nat>, i: nat)
    requires Counted(d, d.rows.Keys, counts)
    requires forall c | c in ranked ::
               c in d.contexts && c in scores && scores[c] == ScoreOf(d.contexts[c].weight, Lookup(counts, c))
    requires i < |ranked|
    requires forall a, b | 0 <= a < b < |ranked| :: Outranks(Rated(d, scores, ranked[a]), Rated(d, scores, ranked[b]))
    ensures Best(d, ranked[i], set j | i <= j < |ranked| :: ranked[j])
  {
    var c := ranked[i];
    assert Lookup(counts, c) == Units(d, c);
    forall x | x in (set j | i <= j < |ranked| :: ranked[j])
      ensures Units(d, x) >= 0 && x in d.contexts
                && Outranks((Score(d, c), d.contexts[c].name), (Score(d, x), d.contexts[x].name))
    {
      var j :| i <= j < |ranked| && ranked[j] == x;
      assert Lookup(counts, x) == Units(d, x);
    }
  }

  // ----- create slots

  ghost predicate SlotTaken(d: Db, c: nat, slot: nat) {
    exists i :: i in d.rows && d.rows[i].context == c && d.rows[i].createSlot == Some(slot)
  }

  ghost predicate HasFreeSlot(d: Db, c: nat, n: int) {
    exists k: nat :: k < n && !SlotTaken(d, c, k)
  }

  /** `_pick_create_slot`: the first context with a free slot, and any free slot of it. */
  method PickCreateSlot(d: Db, ranked: seq<nat>, n: int) returns (choice: Option<(nat, nat)>, ghost at: nat)
    ensures choice.Some? ==> at < |ranked| && ranked[at] == choice.value.0 && choice.value.1 < n
    ensures choice.Some? ==> !SlotTaken(d, choice.value.0, choice.value.1)
    ensures forall i | 0 <= i < (if choice.Some? then at else |ranked|) :: !HasFreeSlot(d, ranked[i], n)
  {
    at := 0;
    for i := 0 to |ranked|
      invariant forall j | 0 <= j < i :: !HasFreeSlot(d, ranked[j], n)
    {
      var used := set r | r in d.rows && d.rows[r].context == ranked[i] && d.rows[r].createSlot.Some? ::
        d.rows[r].createSlot.value;
      assert forall k: nat :: k in used <==> SlotTaken(d, ranked[i], k);
      var free := set k: nat | 0 <= k < n && k !in used;
      if free != {} {
        var k :| k in free;
        return Some((ranked[i], k)), i;
      }
      forall k: nat | k < n
        ensures SlotTaken(d, ranked[i], k)
      {
        assert k !in free;
      }
    }
    choice := None;
  }

  lemma {:induction false} CreatesFull(d: Db, c: nat, n: int)
    requires !HasFreeSlot(d, c, n)
    ensures |Creating(d, c)| >= n
  {
    if n > 0 {
      var slots := map i | i in d.rows && d.rows[i].createSlot.Some? :: d.rows[i].createSlot.value;
      forall k: nat | k < n
        ensures Taken(Creating(d, c), slots, k)
      {
        assert SlotTaken(d, c, k);
        var i :| i in d.rows && d.rows[i].context == c && d.rows[i].createSlot == Some(k);
        assert i in Creating(d, c);
      }
      AllTaken(Creating(d, c), slots, n);
    }
  }

  ghost predicate WellPlaced(d: Db, q: Request, c: nat, slot: nat) {
    && Candidate(d, q, c) && slot < q.maxCreates && !SlotTaken(d, c, slot)
    && Best(d, c, set x | x in d.contexts && Candidate(d, q, x) && HasFreeSlot(d, x, q.maxCreates))
  }

  datatype Choice = Chosen(context: nat, hostname: Option<string>, createSlot: nat) | NoCandidate | AllBusy

  /** `_ranked_contexts` and `_pick_create_slot` together: the best candidate that has a free
      create slot, and a failure only when there is none. */
  method ChooseContext(d: Db, q: Request) returns (choice: Choice)
    ensures choice.Chosen? ==> WellPlaced(d, q, choice.context, choice.createSlot)
    ensures choice.Chosen? ==> choice.hostname == d.contexts[choice.context].hostname
    ensures choice.NoCandidate? <==> forall c :: !Candidate(d, q, c)
    ensures choice.AllBusy? ==> forall c | Candidate(d, q, c) :: |Creating(d, c)| >= q.maxCreates
  {
    var ranked := RankedContexts(d, q);
    if ranked == [] {
      return NoCandidate;
    }
    assert Candidate(d, q, ranked[0]);
    var pick, at := PickCreateSlot(d, ranked, q.maxCreates);
    if pick.None? {
      forall c | Candidate(d, q, c)
        ensures |Creating(d, c)| >= q.maxCreates
      {
        var i :| 0 <= i < |ranked| && ranked[i] == c;
        CreatesFull(d, c, q.maxCreates);
      }
      return AllBusy;
    }
    var (c, slot) := pick.value;
    PickedIsBest(d, q, ranked, at);
    choice := Chosen(c, d.contexts[c].hostname, slot);
  }

  lemma {:induction false} PickedIsBest(d: Db, q: Request, ranked: seq<nat>, at: nat)
    requires forall c :: c in ranked <==> Candidate(d, q, c)
    requires at < |ranked| && Best(d, ranked[at], set j | at <= j < |ranked| :: ranked[j])
    requires forall i | 0 <= i < at :: !HasFreeSlot(d, ranked[i], q.maxCreates)
    ensures Best(d, ranked[at], set x | x in d.contexts && Candidate(d, q, x) && HasFreeSlot(d, x, q.maxCreates))
  {
    forall x | x in d.contexts && Candidate(d, q, x) && HasFreeSlot(d, x, q.maxCreates)
      ensures x in set j | at <= j < |ranked| :: ranked[j]
    {
      var i :| 0 <= i < |ranked| && ranked[i] == x;
    }
  }

  // ----- fairness

  // No context is ahead of another by more than its weight allows.
  ghost predicate Fair(d: Db, u: nat) {
    forall i, j | i in d.contexts && j in d.contexts ::
      Balanced(d.contexts[i].weight, Units(d, i), d.contexts[j].weight, Units(d, j), u)
  }

  ghost predicate Balanced(wi: nat, ci: int, wj: nat, cj: int, u: nat) {
    wi * (cj - u + 1) <= wj * (ci + 1)
  }

  // An event that deletes no row, adds no context and changes no weight.
  predicate Steady(e: Event) {
    && !e.Delete? && !e.AddContext?
    && !(e.UpdateContext? && e.newWeight.Some?) && !(e.ChangeEndpoint? && e.newWeight.Some?)
  }

  // Context c had the best score of all at moment m, and since then at most `lag` units have
  // been placed on it.
  ghost predicate ChosenAt(past: seq<Db>, m: nat, k: nat, c: nat, lag: nat) {
    && m <= k < |past|
    && Best(past[m], c, past[m].contexts.Keys)
    && Units(past[k], c) <= Units(past[m], c) + lag
  }

  // Event k of a run since moment i: a reservation of at most u units, whose context was the
  // best one when it was chosen, or an event that is not about placement.
  ghost predicate FairStep(past: seq<Db>, log: seq<Event>, i: nat, k: nat, u: nat, lag: nat)
    requires k < |log| && |past| == |log| + 1
  {
    Effective(past, log, k) ==>
      && Steady(log[k])
      && (log[k].Reserve? ==>
            log[k].plan.units <= u && exists m: nat :: i <= m && ChosenAt(past, m, k, log[k].plan.context, lag))
  }

  ghost predicate FairSteps(past: seq<Db>, log: seq<Event>, i: nat, j: nat, u: nat, lag: nat)
    requires j <= |log| && |past| == |log| + 1
  {
    forall k: nat | i <= k < j :: FairStep(past, log, i, k, u, lag)
  }

  ghost predicate FairRun(past: seq<Db>, log: seq<Event>, i: nat, j: nat, u: nat, lag: nat) {
    Recorded(past, log) && i <= j < |past| && past[i].rows == map[] && FairSteps(past, log, i, j, u, lag)
  }

  lemma {:induction false} UnitsNonNegative(d: Db, s: set<nat>, c: nat)
    requires s <= d.rows.Keys
    ensures UnitsIn(d, s, c) >= 0
    decreases s
  {
    if s == {} {
      NoneYet(d, c);
    } else {
      var i :| i in s;
      UnitsNonNegative(d, s - {i}, c);
      OneMore(d, s - {i}, i, c);
      assert s - {i} + {i} == s;
    }
  }

  // Two tables whose rows agree in context and units have the same counts.
  lemma {:induction false} SameUnits(d: Db, f: Db, s: set<nat>, c: nat)
    requires forall i | i in s ::
               i in d.rows && i in f.rows && f.rows[i].context == d.rows[i].context
               && f.rows[i].units == d.rows[i].units
    ensures UnitsIn(f, s, c) == UnitsIn(d, s, c)
  {
    assert Placed(f, s, c) == Placed(d, s, c);
    SumSame(Placed(d, s, c), UnitsOf(d), UnitsOf(f));
  }

  lemma {:induction false} UnitsStep(d: Db, e: Event, f: Db, c: nat)
    requires Inv(d) && f == Apply(d, e) && !(Enabled(d, e) && e.Delete?)
    ensures Units(f, c) == Units(d, c) + if PlacesOn(d, e, c) then e.plan.units else 0
  {
    if Enabled(d, e) && e.Reserve? {
      NotIssued(d, e.id);
      NewUnits(d, f, e.id, Reserved(e), c);
    } else {
      RowsKept(d, e, f);
      SameUnits(d, f, d.rows.Keys, c);
    }
  }

  lemma {:induction false} NewUnits(d: Db, f: Db, id: nat, r: Row, c: nat)
    requires id !in d.rows && f.rows == d.rows[id := r]
    ensures Units(f, c) == Units(d, c) + if r.context == c then r.units else 0
  {
    assert f.rows.Keys == d.rows.Keys + {id};
    OneMore(f, d.rows.Keys, id, c);
    SameUnits(d, f, d.rows.Keys, c);
  }

  lemma {:induction false} RowsKept(d: Db, e: Event, f: Db)
    requires AllShaped(d) && f == Apply(d, e) && !(Enabled(d, e) && (e.Delete? || e.Reserve?))
    ensures f.rows.Keys == d.rows.Keys
    ensures forall i | i in d.rows :: f.rows[i].context == d.rows[i].context && f.rows[i].units == d.rows[i].units
  {
    if Enabled(d, e) && WritesRow(e) {
      UpdateKeeps(d, e);
      RowReplaced(d, f, e.id, Updated(d.rows[e.id], e));
    } else {
      assert f.rows == d.rows;
    }
  }

  lemma {:induction false} RowReplaced(d: Db, f: Db, id: nat, r: Row)
    requires id in d.rows && f.rows == d.rows[id := r] && r.context == d.rows[id].context && r.units == d.rows[id].units
    ensures f.rows.Keys == d.rows.Keys
    ensures forall i | i in d.rows :: f.rows[i].context == d.rows[i].context && f.rows[i].units == d.rows[i].units
  {
  }

  lemma {:induction false} BestRatio(w: nat, a: int, v: nat, b: int)
    requires a >= 0 && b >= 0 && ScoreOf(w, a) >= ScoreOf(v, b)
    ensures w * (b + 1) >= v * (a + 1)
  {
    var x, y := (a + 1) as real, (b + 1) as real;
    var p, q := ScoreOf(w, a), ScoreOf(v, b);
    assert p * x == w as real && q * y == v as real;
    Scaled(p, q, x, y);
    assert (w * (b + 1)) as real == w as real * y && (v * (a + 1)) as real == v as real * x;
  }

  lemma {:induction false} Scaled(p: real, q: real, x: real, y: real)
    requires p >= q && x > 0.0 && y > 0.0
    ensures (p * x) * y >= (q * y) * x
  {
    assert (p - q) * (x * y) >= 0.0;
  }

  lemma {:induction false} Times(w: nat, a: int, b: int)
    requires a <= b
    ensures w * a <= w * b
  {
  }

  // The inequality for one pair after more units went to the first context only.
  lemma {:induction false} PairStaysFair(wi: nat, wj: nat, ci: int, cj: int, di: int, u: nat)
    requires Balanced(wi, ci, wj, cj, u) && ci <= di
    ensures Balanced(wi, di, wj, cj, u)
  {
    Times(wj, ci + 1, di + 1);
  }

  // And after the second one was the best one at an earlier moment, with counts ei and ej.
  lemma {:induction false} LatePair(wi: nat, wj: nat, ei: int, ej: int, di: int, dj: int, u: nat)
    requires Balanced(wi, ei, wj, ej, 0) && ei <= di && dj <= ej + u
    ensures Balanced(wi, di, wj, dj, u)
  {
    Times(wj, ei + 1, di + 1);
    Times(wi, dj - u + 1, ej + 1);
  }

  // What a steady event keeps: contexts only leave, and units only grow.
  ghost predicate Grown(d: Db, f: Db) {
    && (forall c | c in f.contexts :: c in d.contexts && f.contexts[c].weight == d.contexts[c].weight)
    && (forall c: nat :: Units(d, c) <= Units(f, c))
  }

  lemma {:induction false} SteadyStep(d: Db, e: Event, f: Db)
    requires Inv(d) && f == Apply(d, e) && (Enabled(d, e) ==> Steady(e))
    ensures Grown(d, f)
  {
    WeightsKept(d, e, f);
    forall c: nat
      ensures Units(d, c) <= Units(f, c)
    {
      UnitsStep(d, e, f, c);
    }
  }

  lemma {:induction false} WeightsKept(d: Db, e: Event, f: Db)
    requires f == Apply(d, e) && (Enabled(d, e) ==> Steady(e))
    ensures forall c | c in f.contexts :: c in d.contexts && f.contexts[c].weight == d.contexts[c].weight
  {
  }

  lemma {:induction false} SteadyRun(past: seq<Db>, log: seq<Event>, m: nat, k: nat)
    requires Recorded(past, log) && m <= k < |past|
    requires forall l: nat | m <= l < k :: Effective(past, log, l) ==> Steady(log[l])
    ensures Grown(past[m], past[k])
    decreases k
  {
    if m < k {
      SteadyRun(past, log, m, k - 1);
      InvThroughout(past, log, k - 1);
      assert StepAt(past, log, k - 1);
      assert Effective(past, log, k - 1) ==> Steady(log[k - 1]);
      SteadyStep(past[k - 1], log[k - 1], past[k]);
    }
  }

  /** One step of a fair run keeps all pairs in balance, with the tolerance u + lag. */
  lemma {:induction false} StepStaysFair(past: seq<Db>, log: seq<Event>, i: nat, k: nat, u: nat, lag: nat)
    requires Recorded(past, log) && i <= k < |log| && Fair(past[k], u + lag)
    requires FairSteps(past, log, i, k + 1, u, lag)
    ensures Fair(past[k + 1], u + lag)
  {
    assert FairStep(past, log, i, k, u, lag) && StepAt(past, log, k);
    InvThroughout(past, log, k);
    SteadyStep(past[k], log[k], past[k + 1]);
    var chosenOn := past[k];
    if Effective(past, log, k) && log[k].Reserve? {
      chosenOn := BehindChoice(past, log, i, k, u, lag);
    }
    StaysFair(past[k], log[k], past[k + 1], chosenOn, u + lag);
  }

  lemma {:induction false} StaysFair(d: Db, e: Event, f: Db, chosenOn: Db, v: nat)
    requires Inv(d) && f == Apply(d, e) && Grown(d, f) && Fair(d, v) && !(Enabled(d, e) && e.Delete?)
    requires Enabled(d, e) && e.Reserve? ==>
               && Best(chosenOn, e.plan.context, chosenOn.contexts.Keys) && Grown(chosenOn, f)
               && Units(f, e.plan.context) <= Units(chosenOn, e.plan.context) + v
    ensures Fair(f, v)
  {
    forall a, b | a in f.contexts && b in f.contexts
      ensures Balanced(f.contexts[a].weight, Units(f, a), f.contexts[b].weight, Units(f, b), v)
    {
      if PlacesOn(d, e, b) {
        UnitsNonNegative(chosenOn, chosenOn.rows.Keys, a);
        ChosenPair(chosenOn, f, a, b, v);
      } else {
        UnitsStep(d, e, f, b);
        assert Balanced(d.contexts[a].weight, Units(d, a), d.contexts[b].weight, Units(d, b), v);
        PairStaysFair(d.contexts[a].weight, d.contexts[b].weight, Units(d, a), Units(d, b), Units(f, a), v);
      }
    }
  }

  // The tables on which the context was chosen, and how much it holds more by now.
  lemma {:induction false} BehindChoice(past: seq<Db>, log: seq<Event>, i: nat, k: nat, u: nat, lag: nat)
    returns (d: Db)
    requires Recorded(past, log) && i <= k < |log| && Effective(past, log, k) && log[k].Reserve?
    requires FairSteps(past, log, i, k + 1, u, lag)
    ensures Best(d, log[k].plan.context, d.contexts.Keys) && Grown(d, past[k + 1])
    ensures Units(past[k + 1], log[k].plan.context) <= Units(d, log[k].plan.context) + (u + lag)
  {
    var m := MomentOfChoice(past, log, i, k, u, lag);
    FairIsSteady(past, log, i, m, k + 1, u, lag);
    UnitsPlaced(past, log, k, log[k].plan.context);
    d := past[m];
  }

  lemma {:induction false} MomentOfChoice(past: seq<Db>, log: seq<Event>, i: nat, k: nat, u: nat, lag: nat)
    returns (m: nat)
    requires i <= k < |log| && |past| == |log| + 1 && Effective(past, log, k) && log[k].Reserve?
    requires FairSteps(past, log, i, k + 1, u, lag)
    ensures i <= m <= k && Best(past[m], log[k].plan.context, past[m].contexts.Keys)
    ensures Units(past[k], log[k].plan.context) + log[k].plan.units <= Units(past[m], log[k].plan.context) + (u + lag)
  {
    assert FairStep(past, log, i, k, u, lag);
    m :| i <= m && ChosenAt(past, m, k, log[k].plan.context, lag);
  }

  lemma {:induction false} FairIsSteady(past: seq<Db>, log: seq<Event>, i: nat, m: nat, k: nat, u: nat, lag: nat)
    requires Recorded(past, log) && i <= m <= k < |past|
    requires FairSteps(past, log, i, k, u, lag)
    ensures Grown(past[m], past[k])
  {
    forall l: nat | m <= l < k
      ensures Effective(past, log, l) ==> Steady(log[l])
    {
      assert FairStep(past, log, i, l, u, lag);
    }
    SteadyRun(past, log, m, k);
  }

  lemma {:induction false} UnitsPlaced(past: seq<Db>, log: seq<Event>, k: nat, c: nat)
    requires Recorded(past, log) && k < |log| && Effective(past, log, k) && log[k].Reserve? && log[k].plan.context == c
    ensures Units(past[k + 1], c) == Units(past[k], c) + log[k].plan.units
  {
    InvThroughout(past, log, k);
    assert StepAt(past, log, k);
    UnitsStep(past[k], log[k], past[k + 1], c);
  }

  lemma {:induction false} ChosenPair(d: Db, f: Db, a: nat, b: nat, w: nat)
    requires Best(d, b, d.contexts.Keys) && Grown(d, f) && a in f.contexts && b in f.contexts
    requires Units(d, a) >= 0 && Units(f, b) <= Units(d, b) + w
    ensures Balanced(f.contexts[a].weight, Units(f, a), f.contexts[b].weight, Units(f, b), w)
  {
    BestPair(d, b, a);
    LatePair(d.contexts[a].weight, d.contexts[b].weight, Units(d, a), Units(d, b), Units(f, a), Units(f, b), w);
  }

  lemma {:induction false} BestPair(d: Db, c: nat, x: nat)
    requires Best(d, c, d.contexts.Keys) && x in d.contexts && Units(d, x) >= 0
    ensures Balanced(d.contexts[x].weight, Units(d, x), d.contexts[c].weight, Units(d, c), 0)
  {
    assert Outranks((Score(d, c), d.contexts[c].name), (Score(d, x), d.contexts[x].name));
    BestRatio(d.contexts[c].weight, Units(d, c), d.contexts[x].weight, Units(d, x));
  }

  lemma {:induction false} EmptyIsFair(d: Db, u: nat)
    requires d.rows == map[] && u >= 1
    ensures Fair(d, u)
  {
    forall a, b | a in d.contexts && b in d.contexts
      ensures Balanced(d.contexts[a].weight, Units(d, a), d.contexts[b].weight, Units(d, b), u)
    {
      NoneYet(d, a);
      NoneYet(d, b);
      Times(d.contexts[a].weight, 1 - u, 0);
    }
  }

  /** From empty tables to any later moment, whatever else happens to the rows in between: if
      every reservation of at most u units went to a context that was the best one on the
      tables it was chosen on, and at most `lag` units were placed there before it committed,
      every pair of contexts stays in balance with tolerance u + lag. */
  lemma {:induction false} FairThroughout(past: seq<Db>, log: seq<Event>, i: nat, j: nat, u: nat, lag: nat)
    requires FairRun(past, log, i, j, u, lag) && u >= 1
    ensures Fair(past[j], u + lag)
    decreases j
  {
    if i == j {
      EmptyIsFair(past[i], u + lag);
    } else {
      FairThroughout(past, log, i, j - 1, u, lag);
      StepStaysFair(past, log, i, j - 1, u, lag);
    }
  }

  ghost predicate FairAt(past: seq<Db>, j: nat, v: nat) {
    j < |past| && Fair(past[j], v)
  }

  // Every run of that kind stays in balance with tolerance v.
  ghost predicate Guaranteed(u: nat, lag: nat, v: nat) {
    forall past: seq<Db>, log: seq<Event>, i: nat, j: nat :: FairRun(past, log, i, j, u, lag) ==> FairAt(past, j, v)
  }

  lemma {:induction false} FairWider(d: Db, v: nat, w: nat)
    requires Fair(d, v) && v <= w
    ensures Fair(d, w)
  {
    forall a, b | a in d.contexts && b in d.contexts
      ensures Balanced(d.contexts[a].weight, Units(d, a), d.contexts[b].weight, Units(d, b), w)
    {
      assert Balanced(d.contexts[a].weight, Units(d, a), d.contexts[b].weight, Units(d, b), v);
      Times(d.contexts[a].weight, Units(d, b) - w + 1, Units(d, b) - v + 1);
    }
  }

  // All contexts are candidates for the request and have a free create slot.
  ghost predicate AllOpen(d: Db, q: Request) {
    forall c | c in d.contexts :: Candidate(d, q, c) && HasFreeSlot(d, c, q.maxCreates)
  }

  /** When every context is a candidate with a free create slot, the coordinator's own choice
      is the best one of all. */
  lemma {:induction false} ChoiceIsFair(past: seq<Db>, m: nat, k: nat, q: Request, c: nat, slot: nat, lag: nat)
    requires m <= k < |past| && WellPlaced(past[m], q, c, slot) && AllOpen(past[m], q)
    requires Units(past[k], c) <= Units(past[m], c) + lag
    ensures ChosenAt(past, m, k, c, lag)
  {
    var d := past[m];
    assert (set x | x in d.contexts && Candidate(d, q, x) && HasFreeSlot(d, x, q.maxCreates)) == d.contexts.Keys;
  }

  ghost function UnitsPer(d: Db): nat -> int {
    (c: nat) => Units(d, c)
  }

  ghost function WeightPer(d: Db): nat -> int {
    (c: nat) => if c in d.contexts then d.contexts[c].weight else 0
  }

  ghost function AllUnits(d: Db): int {
    SumOver(d.contexts.Keys, UnitsPer(d))
  }

  ghost function AllWeights(d: Db): int {
    SumOver(d.contexts.Keys, WeightPer(d))
  }

  lemma {:induction false} SumStrict(s: set<nat>, f: nat -> int, g: nat -> int, i: nat)
    requires i in s && f(i) < g(i) && forall j | j in s :: f(j) <= g(j)
    ensures SumOver(s, f) < SumOver(s, g)
  {
    SumSplit(s, i, f);
    SumSplit(s, i, g);
    SumMonotone(s - {i}, f, g);
  }

  lemma {:induction false} Term(wi: nat, ci: int, wj: nat, cj: int, u: nat)
    requires Balanced(wi, ci, wj, cj, u)
    ensures wi * cj + wi * (1 - u) <= (ci + 1) * wj + 0
  {
    Distribute(wi, cj, 1 - u);
  }

  lemma {:induction false} OwnTerm(w: nat, c: int, u: nat)
    requires w >= 1 && u >= 1
    ensures w * c + w * (1 - u) < (c + 1) * w + 0
  {
    Times(w, 1 - u, 0);
  }

  // The same sums, with the products of each term given as functions.
  lemma {:induction false} ShareOfSums(s: set<nat>, weight: nat -> int, count: nat -> int, lower: nat -> int,
                                       upper: nat -> int, i: nat, w: int, c: int, b: int)
    requires i in s && lower(i) < upper(i) && forall j | j in s :: lower(j) <= upper(j)
    requires forall j | j in s :: lower(j) == w * count(j) + b
    requires forall j | j in s :: upper(j) == (c + 1) * weight(j) + 0
    ensures w * SumOver(s, count) + b * |s| < (c + 1) * SumOver(s, weight)
  {
    SumStrict(s, lower, upper, i);
    SumLinear(s, count, lower, w, b);
    SumLinear(s, weight, upper, c + 1, 0);
  }

  ghost function LowerTerm(d: Db, w: int, b: int): nat -> int {
    (j: nat) => w * UnitsPer(d)(j) + b
  }

  ghost function UpperTerm(d: Db, c: int): nat -> int {
    (j: nat) => (c + 1) * WeightPer(d)(j) + 0
  }

  lemma {:induction false} TermsOrdered(d: Db, u: nat, i: nat, j: nat, b: int)
    requires Fair(d, u) && i in d.contexts && j in d.contexts && d.contexts[i].weight >= 1 && u >= 1
    requires b == d.contexts[i].weight * (1 - u)
    ensures LowerTerm(d, d.contexts[i].weight, b)(j) <= UpperTerm(d, Units(d, i))(j)
    ensures i == j ==> LowerTerm(d, d.contexts[i].weight, b)(j) < UpperTerm(d, Units(d, i))(j)
  {
    assert Balanced(d.contexts[i].weight, Units(d, i), d.contexts[j].weight, Units(d, j), u);
    Term(d.contexts[i].weight, Units(d, i), d.contexts[j].weight, Units(d, j), u);
    OwnTerm(d.contexts[i].weight, Units(d, i), u);
    assert UnitsPer(d)(j) == Units(d, j) && WeightPer(d)(j) == d.contexts[j].weight;
  }

  /** What balance means for one context: of N units on n contexts of total weight W, a context
      of weight w holds more than (w * N - n * w * (u - 1)) / W - 1. */
  lemma {:induction false} FairShare(d: Db, u: nat, i: nat)
    requires Inv(d) && Fair(d, u) && i in d.contexts && u >= 1
    ensures var w := d.contexts[i].weight;
            w * AllUnits(d) + (w * (1 - u)) * |d.contexts| < (Units(d, i) + 1) * AllWeights(d)
  {
    var w, c := d.contexts[i].weight, Units(d, i);
    var b := w * (1 - u);
    forall j | j in d.contexts.Keys
      ensures LowerTerm(d, w, b)(j) <= UpperTerm(d, c)(j)
    {
      TermsOrdered(d, u, i, j, b);
    }
    TermsOrdered(d, u, i, i, b);
    ShareOfSums(d.contexts.Keys, WeightPer(d), UnitsPer(d), LowerTerm(d, w, b), UpperTerm(d, c), i, w, c, b);
    assert |d.contexts.Keys| == |d.contexts|;
  }

  /** With one unit per reservation every context holds at least the floor of its weighted
      share: every whole number k up to weight * N / W. */
  lemma {:induction false} FloorShare(d: Db, i: nat, k: int)
    requires Inv(d) && Fair(d, 1) && i in d.contexts
    requires k * AllWeights(d) <= d.contexts[i].weight * AllUnits(d)
    ensures k <= Units(d, i)
  {
    FairShare(d, 1, i);
    WeightsPositive(d, d.contexts.Keys);
    Smallest(d.contexts[i].weight * AllUnits(d), d.contexts[i].weight, |d.contexts|, AllWeights(d), k, Units(d, i));
  }

  lemma {:induction false} Smallest(share: int, w: nat, n: nat, m: int, k: int, c: int)
    requires share + (w * (1 - 1)) * n < (c + 1) * m && k * m <= share && m >= 0
    ensures k <= c
  {
    assert (w * (1 - 1)) * n == 0;
    if k >= c + 1 {
      Times(m, c + 1, k);
    }
  }

  lemma {:induction false} WeightsPositive(d: Db, s: set<nat>)
    ensures SumOver(s, WeightPer(d)) >= 0
    decreases s
  {
    if s != {} {
      var x :| x in s;
      SumSplit(s, x, WeightPer(d));
      WeightsPositive(d, s - {x});
    }
  }
}
