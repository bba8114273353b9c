/** The resumable round robin of src/files/prepare.py over all (challenge, owner) pairs.
    Pairs are listed in lexicographic order; a cursor stands for the position that follows
    the pairs up to it; the order is cyclic. The owners are queried again for every row, and a
    batch that ends with an exception leaves the old cursor in its file. */
module Preparation {
  import opened Support

  type Pair = (nat, nat)

  // Positive numbers in ascending order, as the two queries deliver them.
  ghost predicate Ids(s: seq<nat>) {
    && (forall i | 0 <= i < |s| :: 0 < s[i])
    && (forall i, j | 0 <= i < j < |s| :: s[i] < s[j])
  }

  function Row(challenge: nat, owners: seq<nat>): (row: seq<Pair>)
    ensures |row| == |owners|
  {
    seq(|owners|, i requires 0 <= i < |owners| => (challenge, owners[i]))
  }

  function Pairs(challenges: seq<nat>, owners: seq<nat>): seq<Pair> {
    if challenges == [] then [] else Row(challenges[0], owners) + Pairs(challenges[1..], owners)
  }

  // The position of the first pair of the i-th challenge, with m owners.
  function RowStart(i: nat, m: nat): nat {
    if i == 0 then 0 else RowStart(i - 1, m) + m
  }

  lemma {:induction false} RowStartShift(i: nat, j: nat, m: nat)
    ensures RowStart(i + j, m) == RowStart(i, m) + RowStart(j, m)
    decreases j
  {
    if j > 0 {
      RowStartShift(i, j - 1, m);
    }
  }

  lemma {:induction false} PairAt(challenges: seq<nat>, owners: seq<nat>, i: nat, u: nat)
    requires i < |challenges| && u < |owners|
    ensures |Pairs(challenges, owners)| == RowStart(|challenges|, |owners|)
    ensures RowStart(i, |owners|) + u < RowStart(|challenges|, |owners|)
    ensures Pairs(challenges, owners)[RowStart(i, |owners|) + u] == (challenges[i], owners[u])
  {
    PairCount(challenges, owners);
    RowStartShift(i + 1, |challenges| - i - 1, |owners|);
    if i > 0 {
      PairAt(challenges[1..], owners, i - 1, u);
      assert |Row(challenges[0], owners)| == |owners|;
    }
  }

  lemma {:induction false} PairCount(challenges: seq<nat>, owners: seq<nat>)
    ensures |Pairs(challenges, owners)| == RowStart(|challenges|, |owners|)
  {
    if challenges != [] {
      PairCount(challenges[1..], owners);
    }
  }

  // ----- cursors

  // How many of the ascending numbers lie below x.
  function Below(s: seq<nat>, x: nat): (n: nat)
    ensures n <= |s|
  {
    if s == [] then 0 else Below(s[..|s| - 1], x) + if s[|s| - 1] < x then 1 else 0
  }

  lemma {:induction false} BelowSplits(s: seq<nat>, x: nat)
    requires Ids(s)
    ensures forall i | 0 <= i < |s| :: s[i] < x <==> i < Below(s, x)
  {
    if s != [] {
      BelowSplits(s[..|s| - 1], x);
    }
  }

  /** The number of pairs up to and including the cursor: the position that comes next. */
  function Rank(challenges: seq<nat>, owners: seq<nat>, cursor: Pair): nat {
    RowStart(Below(challenges, cursor.0), |owners|) + if cursor.0 in challenges then Below(owners, cursor.1 + 1) else 0
  }

  // Position p on a cycle of length n.
  function Around(n: nat, p: nat): (q: nat)
    requires n > 0
    ensures q < n
  {
    if p < n then p else Around(n, p - n)
  }

  // The pairs examined are those at position r and after it, round and round.
  ghost predicate Follows(pairs: seq<Pair>, r: nat, examined: seq<Pair>) {
    examined != [] ==>
      && pairs != []
      && forall k | 0 <= k < |examined| :: examined[k] == pairs[Around(|pairs|, r + k)]
  }

  ghost predicate SamePosition(n: nat, a: nat, b: nat) {
    n > 0 ==> Around(n, a) == Around(n, b)
  }

  lemma {:induction false} BelowAt(s: seq<nat>, i: nat)
    requires Ids(s) && i < |s|
    ensures Below(s, s[i]) == i
  {
    BelowIs(s, s[i], i);
  }

  lemma {:induction false} BelowIs(s: seq<nat>, x: nat, n: nat)
    requires n <= |s| && forall i | 0 <= i < |s| :: s[i] < x <==> i < n
    ensures Below(s, x) == n
  {
    if s != [] {
      BelowIs(s[..|s| - 1], x, Min(n, |s| - 1));
    }
  }

  // ----- cyclic positions

  lemma {:induction false} AroundNext(n: nat, p: nat)
    requires n > 0
    ensures Around(n, p + 1) == if Around(n, p) + 1 == n then 0 else Around(n, p) + 1
    decreases p
  {
    if p >= n {
      AroundNext(n, p - n);
    }
  }

  lemma {:induction false} AroundAdd(n: nat, a: nat, b: nat, k: nat)
    requires n > 0 && Around(n, a) == Around(n, b)
    ensures Around(n, a + k) == Around(n, b + k)
    decreases k
  {
    if k > 0 {
      AroundAdd(n, a, b, k - 1);
      AroundNext(n, a + k - 1);
      AroundNext(n, b + k - 1);
    }
  }

  // Within fewer than n steps a cycle of length n does not meet itself.
  lemma {:induction false} AroundDistinct(n: nat, p: nat, k: nat)
    requires 0 < k < n
    ensures Around(n, p) != Around(n, p + k)
    decreases p
  {
    if p >= n {
      AroundDistinct(n, p - n, k);
    }
  }

  lemma {:induction false} FollowsConcat(pairs: seq<Pair>, r: nat, a: seq<Pair>, s: nat, b: seq<Pair>)
    requires Follows(pairs, r, a) && Follows(pairs, s, b) && SamePosition(|pairs|, r + |a|, s)
    ensures Follows(pairs, r, a + b)
  {
    forall k | 0 <= k < |b|
      ensures pairs != [] && b[k] == pairs[Around(|pairs|, r + |a| + k)]
    {
      AroundAdd(|pairs|, r + |a|, s, k);
    }
  }

  // ----- fairness of the order

  ghost predicate AllDistinct(pairs: seq<Pair>) {
    forall i, j | 0 <= i < j < |pairs| :: pairs[i] != pairs[j]
  }

  lemma {:induction false} PairsDistinct(challenges: seq<nat>, owners: seq<nat>)
    requires Ids(challenges) && Ids(owners)
    ensures AllDistinct(Pairs(challenges, owners))
    ensures forall i | 0 <= i < |Pairs(challenges, owners)| :: Pairs(challenges, owners)[i].0 in challenges
  {
    if challenges != [] {
      PairsDistinct(challenges[1..], owners);
    }
  }

  /** In any stretch of the examination sequence as long as there are pairs, every pair
      occurs, and occurs once; and after one round the same pair is up again. So between
      two examinations of a pair every other pair is examined exactly once. */
  lemma {:induction false} EveryPairOncePerRound(pairs: seq<Pair>, r: nat, examined: seq<Pair>, start: nat, j: nat)
    requires AllDistinct(pairs) && Follows(pairs, r, examined) && j < |pairs| && start + |pairs| <= |examined|
    ensures exists k :: start <= k < start + |pairs| && examined[k] == pairs[j]
    ensures forall k, l | start <= k < l < start + |pairs| :: examined[k] != examined[l]
    ensures start + |pairs| < |examined| ==> examined[start + |pairs|] == examined[start]
  {
    var n := |pairs|;
    var k := Reach(n, r + start, j);
    assert examined[start + k] == pairs[j];
    forall k, l | start <= k < l < start + n
      ensures examined[k] != examined[l]
    {
      AroundDistinct(n, r + k, l - k);
    }
  }

  // One round from position `start` of the examination sequence on.
  ghost predicate FullRound(pairs: seq<Pair>, examined: seq<Pair>, start: nat) {
    start + |pairs| <= |examined| ==>
      && (forall j | 0 <= j < |pairs| :: pairs[j] in examined[start..start + |pairs|])
      && (forall k, l | start <= k < l < start + |pairs| :: examined[k] != examined[l])
      && (start + |pairs| < |examined| && pairs != [] ==> examined[start + |pairs|] == examined[start])
  }

  lemma {:induction false} RoundIsFull(pairs: seq<Pair>, r: nat, examined: seq<Pair>, start: nat)
    requires AllDistinct(pairs) && Follows(pairs, r, examined)
    ensures FullRound(pairs, examined, start)
  {
    if start + |pairs| <= |examined| {
      forall j | 0 <= j < |pairs|
        ensures pairs[j] in examined[start..start + |pairs|]
      {
        EveryPairOncePerRound(pairs, r, examined, start, j);
        var k :| start <= k < start + |pairs| && examined[k] == pairs[j];
        assert examined[start..start + |pairs|][k - start] == pairs[j];
      }
      if pairs != [] {
        EveryPairOncePerRound(pairs, r, examined, start, 0);
      }
    }
  }

  // Every position is reached within one round.
  lemma {:induction false} Reach(n: nat, p: nat, j: nat) returns (k: nat)
    requires j < n
    ensures k < n && Around(n, p + k) == j
    decreases p
  {
    if p >= n {
      k := Reach(n, p - n, j);
    } else if p <= j {
      k := j - p;
    } else {
      k := n - p + j;
    }
  }

  // ----- one batch

  // What comes of one pair: it has no templates, its settings have changed meanwhile, a
  // background request was made for it with the given result, or an exception was raised.
  datatype Attempt =
    | NoTemplates
    | Outdated
    | Accepted
    | CapacityFull(existing: Option<set<Pair>>)
    | Busy
    | Refused
    | Raises

  datatype Stop = Finished | NotCurrent | StoreBusy(pair: Pair) | Raised(pair: Pair)

  /** `bisect_left`. */
  method BisectLeft(s: seq<nat>, x: nat) returns (index: nat)
    requires Ids(s)
    ensures index == Below(s, x)
  {
    var lo, hi := 0, |s|;
    while lo < hi
      invariant 0 <= lo <= hi <= |s|
      invariant forall i | 0 <= i < lo :: s[i] < x
      invariant forall i | hi <= i < |s| :: s[i] >= x
    {
      var mid := (lo + hi) / 2;
      if s[mid] < x {
        lo := mid + 1;
      } else {
        hi := mid;
      }
    }
    BelowIs(s, x, lo);
    index := lo;
  }

  // An earlier pair of the batch found the queue full, and this one is not among its owners.
  ghost predicate Excluded(examined: seq<Pair>, k: nat, attempt: Pair -> Attempt)
    requires k < |examined|
  {
    exists j :: 0 <= j < k && Excludes(attempt(examined[j]), examined[k])
  }

  ghost predicate Excludes(a: Attempt, pair: Pair) {
    a.CapacityFull? && a.existing.Some? && pair !in a.existing.value
  }

  // No examined pair should have stopped the batch.
  ghost predicate Orderly(examined: seq<Pair>, attempt: Pair -> Attempt) {
    forall k: nat | k < |examined| :: Harmless(examined, k, attempt)
  }

  ghost predicate Harmless(examined: seq<Pair>, k: nat, attempt: Pair -> Attempt)
    requires k < |examined|
  {
    && attempt(examined[k]) != Outdated && attempt(examined[k]) != Raises
    && (attempt(examined[k]) == Busy ==> Excluded(examined, k, attempt))
  }

  // The batch stopped for a reason, and for the first one there was.
  ghost predicate Explained(examined: seq<Pair>, stop: Stop, attempt: Pair -> Attempt) {
    match stop
    case Finished => Orderly(examined, attempt)
    case StoreBusy(pair) => Orderly(examined, attempt) && attempt(pair) == Busy
    case Raised(pair) => Orderly(examined, attempt) && attempt(pair) == Raises
    case NotCurrent =>
      examined != [] && attempt(examined[|examined| - 1]) == Outdated && Orderly(examined[..|examined| - 1], attempt)
  }

  // The batch stopped before it was done with a pair.
  predicate Held(stop: Stop) {
    stop.StoreBusy? || stop.Raised?
  }

  // What is known about the owners of the full queue comes from an examined pair.
  ghost predicate Informed(examined: seq<Pair>, attempt: Pair -> Attempt, known: Option<set<Pair>>) {
    known.Some? ==> exists j :: 0 <= j < |examined| && attempt(examined[j]) == CapacityFull(known)
  }

  lemma {:induction false} OneMore(examined: seq<Pair>, pair: Pair, attempt: Pair -> Attempt, known: Option<set<Pair>>)
    requires Orderly(examined, attempt) && Informed(examined, attempt, known)
    requires attempt(pair) != Outdated && attempt(pair) != Raises
    requires attempt(pair) == Busy ==> known.Some? && pair !in known.value
    ensures Orderly(examined + [pair], attempt) && Informed(examined + [pair], attempt, known)
    ensures attempt(pair).CapacityFull? ==> Informed(examined + [pair], attempt, attempt(pair).existing)
  {
    var more := examined + [pair];
    forall k: nat | k < |more|
      ensures Harmless(more, k, attempt)
    {
      if k < |examined| {
        assert Harmless(examined, k, attempt);
        if attempt(examined[k]) == Busy {
          var j :| 0 <= j < k && Excludes(attempt(examined[j]), examined[k]);
          assert Excludes(attempt(more[j]), more[k]);
        }
      } else if attempt(pair) == Busy {
        var j :| 0 <= j < |examined| && attempt(examined[j]) == CapacityFull(known);
        assert Excludes(attempt(more[j]), more[k]);
      }
    }
    if known.Some? {
      var j :| 0 <= j < |examined| && attempt(examined[j]) == CapacityFull(known);
      assert attempt(more[j]) == CapacityFull(known);
    }
    assert more[|examined|] == pair;
  }

  /** The inner loop: the owners of one challenge from position `first` on, at most `count`;
      `before` are the pairs that the batch has examined already. */
  method ExamineOwners(challenge: nat, owners: seq<nat>, first: nat, count: nat, attempt: Pair -> Attempt,
                       known: Option<set<Pair>>, cursor: Pair, ghost before: seq<Pair>)
    returns (next: Pair, row: seq<Pair>, stop: Stop, existing: Option<set<Pair>>)
    requires first + count <= |owners| && Orderly(before, attempt) && Informed(before, attempt, known)
    ensures |row| <= count && (stop == Finished ==> |row| == count)
    ensures forall k | 0 <= k < |row| :: row[k] == (challenge, owners[first + k])
    ensures next == if row == [] then cursor else row[|row| - 1]
    ensures Held(stop) ==> |row| < count && stop.pair == (challenge, owners[first + |row|])
    ensures Explained(before + row, stop, attempt) && Informed(before + row, attempt, existing)
  {
    next, row, existing, stop := cursor, [], known, Finished;
    assert before + row == before;
    while |row| < count
      invariant |row| <= count && stop == Finished
      invariant forall k | 0 <= k < |row| :: row[k] == (challenge, owners[first + k])
      invariant next == if row == [] then cursor else row[|row| - 1]
      invariant Orderly(before + row, attempt) && Informed(before + row, attempt, existing)
      decreases count - |row|
    {
      var pair := (challenge, owners[first + |row|]);
      var found;
      found, existing := ExamineOne(pair, attempt, existing, before + row);
      if Held(found) {
        return next, row, found, existing;
      }
      Joined(before, row, pair);
      next, row := pair, row + [pair];
      if found == NotCurrent {
        return next, row, found, existing;
      }
    }
  }

  lemma {:induction false} Joined(before: seq<Pair>, row: seq<Pair>, pair: Pair)
    ensures before + (row + [pair]) == before + row + [pair]
    ensures (before + (row + [pair]))[..|before + (row + [pair])| - 1] == before + row
  {
  }

  /** What is done about one pair. */
  method ExamineOne(pair: Pair, attempt: Pair -> Attempt, known: Option<set<Pair>>, ghost before: seq<Pair>)
    returns (found: Stop, existing: Option<set<Pair>>)
    requires Orderly(before, attempt) && Informed(before, attempt, known)
    ensures found in {Finished, NotCurrent, StoreBusy(pair), Raised(pair)}
    ensures found == Raised(pair) <==> attempt(pair) == Raises
    ensures found == NotCurrent <==> attempt(pair) == Outdated
    ensures found == StoreBusy(pair) <==> attempt(pair) == Busy && (known.Some? ==> pair in known.value)
    ensures found == Finished ==> Orderly(before + [pair], attempt)
    ensures Informed(if Held(found) then before else before + [pair], attempt, existing)
  {
    existing, found := known, Finished;
    var result := attempt(pair);
    if result == Raises {
      found := Raised(pair);
    } else if result == NoTemplates {
      OneMore(before, pair, attempt, known);
    } else if result == Outdated {
      InformedMore(before, pair, attempt, known);
      found := NotCurrent;
    } else if known.Some? && pair !in known.value {
      OneMore(before, pair, attempt, known);
    } else if result == Busy {
      found := StoreBusy(pair);
    } else {
      OneMore(before, pair, attempt, known);
      if result.CapacityFull? {
        existing := result.existing;
      }
    }
  }

  lemma {:induction false} InformedMore(examined: seq<Pair>, pair: Pair, attempt: Pair -> Attempt,
                                        known: Option<set<Pair>>)
    requires Informed(examined, attempt, known)
    ensures Informed(examined + [pair], attempt, known)
  {
    if known.Some? {
      var j :| 0 <= j < |examined| && attempt(examined[j]) == CapacityFull(known);
      assert attempt((examined + [pair])[j]) == CapacityFull(known);
    }
  }

  // Owners of the first challenge that the cursor has already passed.
  function Passed(challenges: seq<nat>, owners: seq<nat>, cursor: Pair): (n: nat)
    ensures n <= |owners|
  {
    if cursor.0 in challenges then Below(owners, cursor.1 + 1) else 0
  }

  // The row on which a batch resumes from the cursor.
  function StartRow(challenges: seq<nat>, cursor: Pair): (start: nat)
    requires challenges != []
    ensures start < |challenges|
  {
    var i := Below(challenges, cursor.0);
    if i == |challenges| then 0 else i
  }

  lemma {:induction false} StartIs(challenges: seq<nat>, cursor: Pair)
    requires Ids(challenges) && challenges != []
    ensures cursor.0 in challenges <==> challenges[StartRow(challenges, cursor)] == cursor.0
    ensures cursor.0 in challenges ==> Below(challenges, cursor.0) == StartRow(challenges, cursor)
  {
    BelowSplits(challenges, cursor.0);
    if cursor.0 in challenges {
      var i :| 0 <= i < |challenges| && challenges[i] == cursor.0;
      BelowAt(challenges, i);
    }
  }

  lemma {:induction false} StartPosition(challenges: seq<nat>, owners: seq<nat>, cursor: Pair)
    requires Ids(challenges) && Ids(owners) && challenges != []
    ensures SamePosition(|Pairs(challenges, owners)|, Rank(challenges, owners, cursor),
                         RowStart(StartRow(challenges, cursor), |owners|) + Passed(challenges, owners, cursor))
  {
    PairCount(challenges, owners);
    StartIs(challenges, cursor);
  }

  // The challenge of row v of the list read twice in a row.
  function RowOf(challenges: seq<nat>, v: nat): nat
    requires v < 2 * |challenges|
  {
    challenges[RowIndex(challenges, v)]
  }

  function RowIndex(challenges: seq<nat>, v: nat): (i: nat)
    requires v < 2 * |challenges|
    ensures i < |challenges|
  {
    if v < |challenges| then v else v - |challenges|
  }

  // ----- the walk of one batch

  /** What one batch meets: the challenges it reads when it begins, the owners that its query
      for row v returns, and what comes of each pair. The cursor file may not be writable. */
  datatype Batch = Batch(challenges: seq<nat>, asked: nat -> seq<nat>, size: nat, attempt: Pair -> Attempt,
                         writable: bool)

  /** How it ends: `saved` unless an exception leaves the old cursor in the file. */
  datatype Outcome = Outcome(next: Pair, examined: seq<Pair>, stop: Stop, saved: bool)

  ghost predicate Sorted(b: Batch) {
    Ids(b.challenges) && forall v: nat :: Ids(b.asked(v))
  }

  // Owner u of row v lies within one round from owner `passed` of row `start` on.
  ghost predicate OnTheWay(b: Batch, start: nat, passed: nat, v: nat, u: nat) {
    && start < |b.challenges| && start <= v <= start + |b.challenges|
    && passed <= |b.asked(start)| && u <= |b.asked(v)|
    && (v == start ==> passed <= u) && (v == start + |b.challenges| ==> u == 0)
  }

  // The pairs from there on, up to but without owner u of row v.
  ghost function Walked(b: Batch, start: nat, passed: nat, v: nat, u: nat): seq<Pair>
    requires OnTheWay(b, start, passed, v, u)
    decreases v
  {
    if v == start then Row(RowOf(b.challenges, v), b.asked(v)[passed..u])
    else Walked(b, start, passed, v - 1, |b.asked(v - 1)|) + Row(RowOf(b.challenges, v), b.asked(v)[0..u])
  }

  // Those up to owner u of row v are the ones the cursor has passed.
  ghost predicate StandsAt(b: Batch, cursor: Pair, v: nat, u: nat) {
    v < 2 * |b.challenges| && cursor.0 == RowOf(b.challenges, v) && Below(b.asked(v), cursor.1 + 1) == u
  }

  // The batch has dealt with everything up to owner u of row v, and with nothing else.
  ghost predicate EndsAt(b: Batch, cursor: Pair, o: Outcome, v: nat, u: nat)
    requires b.challenges != []
  {
    var start := StartRow(b.challenges, cursor);
    var passed := Passed(b.challenges, b.asked(start), cursor);
    && Walk(b, start, passed, v, u, o.examined)
    && Halts(b, v, u, o.examined, o.stop, v == start + |b.challenges|)
    && (o.saved <==> b.writable && !o.stop.Raised?)
    && if o.saved then Stands(b, start, passed, cursor, v, u, o.next) else o.next == cursor
  }

  ghost predicate Walk(b: Batch, start: nat, passed: nat, v: nat, u: nat, examined: seq<Pair>) {
    OnTheWay(b, start, passed, v, u) && examined == Walked(b, start, passed, v, u)
  }

  // The batch is full or the walk is over, or there is a reason to stop before owner u of row v.
  ghost predicate Halts(b: Batch, v: nat, u: nat, examined: seq<Pair>, stop: Stop, over: bool) {
    && |examined| <= b.size && Explained(examined, stop, b.attempt)
    && (stop == Finished ==> |examined| == b.size || over)
    && (Held(stop) ==>
          v < 2 * |b.challenges| && u < |b.asked(v)| && stop.pair == (RowOf(b.challenges, v), b.asked(v)[u]))
  }

  // The cursor has not moved yet, or stands where the walk has come to.
  ghost predicate Stands(b: Batch, start: nat, passed: nat, cursor: Pair, v: nat, u: nat, next: Pair) {
    (next == cursor && v == start && u == passed) || StandsAt(b, next, v, u)
  }

  ghost predicate Done(b: Batch, cursor: Pair, o: Outcome) {
    if b.challenges == [] then o == Outcome(cursor, [], Finished, true)
    else exists v: nat, u: nat :: EndsAt(b, cursor, o, v, u)
  }

  lemma {:induction false} WalkedRow(b: Batch, start: nat, passed: nat, v: nat, first: nat, row: seq<Pair>)
    requires OnTheWay(b, start, passed, v, first) && first + |row| <= |b.asked(v)|
    requires v == start + |b.challenges| ==> row == []
    requires forall k | 0 <= k < |row| :: row[k] == (RowOf(b.challenges, v), b.asked(v)[first + k])
    ensures Walked(b, start, passed, v, first + |row|) == Walked(b, start, passed, v, first) + row
  {
    var owners, c := b.asked(v), RowOf(b.challenges, v);
    var from := if v == start then passed else 0;
    assert Row(c, owners[from..first + |row|]) == Row(c, owners[from..first]) + row;
  }

  // The cursor on an examined pair, and on the start of a row.
  lemma {:induction false} StandsAfterPair(b: Batch, v: nat, u: nat)
    requires Sorted(b) && v < 2 * |b.challenges| && u < |b.asked(v)|
    ensures StandsAt(b, (RowOf(b.challenges, v), b.asked(v)[u]), v, u + 1)
  {
    assert Ids(b.asked(v));
    BelowIs(b.asked(v), b.asked(v)[u] + 1, u + 1);
  }

  lemma {:induction false} StandsAtRow(b: Batch, v: nat)
    requires Sorted(b) && v < 2 * |b.challenges|
    ensures StandsAt(b, (RowOf(b.challenges, v), 0), v, 0)
  {
    assert Ids(b.asked(v));
    BelowIs(b.asked(v), 1, 0);
  }

  // In the middle of a batch, before owner u of row v.
  ghost predicate Underway(b: Batch, start: nat, passed: nat, cursor: Pair, v: nat, u: nat, next: Pair,
                           examined: seq<Pair>, known: Option<set<Pair>>) {
    && Walk(b, start, passed, v, u, examined) && Stands(b, start, passed, cursor, v, u, next)
    && v < start + |b.challenges| && |examined| <= b.size
    && Orderly(examined, b.attempt) && Informed(examined, b.attempt, known)
  }

  // At the end of a batch.
  ghost predicate Over(b: Batch, start: nat, passed: nat, cursor: Pair, v: nat, u: nat, next: Pair,
                       examined: seq<Pair>, stop: Stop) {
    && Walk(b, start, passed, v, u, examined) && Stands(b, start, passed, cursor, v, u, next)
    && Halts(b, v, u, examined, stop, v == start + |b.challenges|)
  }

  // The next row: the first one follows the last.
  method NextRow(b: Batch, index: nat, ghost start: nat, ghost passed: nat, ghost cursor: Pair, ghost v: nat,
                 ghost before: Pair, ghost examined: seq<Pair>, ghost known: Option<set<Pair>>)
    returns (following: nat, next: Pair)
    requires Sorted(b) && Underway(b, start, passed, cursor, v, |b.asked(v)|, before, examined, known)
    requires index == RowIndex(b.challenges, v)
    ensures v + 1 < 2 * |b.challenges| && following == RowIndex(b.challenges, v + 1)
    ensures if following == start then Over(b, start, passed, cursor, v + 1, 0, next, examined, Finished)
            else Underway(b, start, passed, cursor, v + 1, 0, next, examined, known)
  {
    following := if index + 1 == |b.challenges| then 0 else index + 1;
    next := (b.challenges[following], 0);
    StandsAtRow(b, v + 1);
    assert Row(RowOf(b.challenges, v + 1), b.asked(v + 1)[0..0]) == [];
  }

  /** The outer loop of `_prepare_batch`, from owner `passed` of row `start` until the batch is
      full, a pair stops it, or it has come round to row `start` again. */
  method WalkRows(b: Batch, start: nat, passed: nat, cursor: Pair)
    returns (next: Pair, examined: seq<Pair>, stop: Stop, v: nat, u: nat)
    requires Sorted(b) && OnTheWay(b, start, passed, start, passed)
    ensures Over(b, start, passed, cursor, v, u, next, examined, stop)
  {
    next, examined, stop := cursor, [], Finished;
    var index, first := start, passed;
    var existing: Option<set<Pair>> := None;
    v, u := start, passed;
    while |examined| < b.size
      invariant Underway(b, start, passed, cursor, v, first, next, examined, existing)
      invariant u == first && stop == Finished && index == RowIndex(b.challenges, v)
      decreases start + |b.challenges| - v
    {
      next, examined, stop, existing, u :=
        WalkRow(b, index, first, next, start, passed, cursor, v, examined, existing);
      if stop != Finished || |examined| == b.size {
        return;
      }
      index, next := NextRow(b, index, start, passed, cursor, v, next, examined, existing);
      v, first, u := v + 1, 0, 0;
      if index == start {
        return;
      }
    }
  }

  /** One round of the outer loop: the owners of one challenge, as the query returns them now. */
  method WalkRow(b: Batch, index: nat, first: nat, before: Pair, ghost start: nat, ghost passed: nat,
                 ghost cursor: Pair, v: nat, examined: seq<Pair>, known: Option<set<Pair>>)
    returns (next: Pair, more: seq<Pair>, stop: Stop, existing: Option<set<Pair>>, u: nat)
    requires Sorted(b) && Underway(b, start, passed, cursor, v, first, before, examined, known)
    requires index == RowIndex(b.challenges, v)
    ensures if stop != Finished || |more| == b.size then Over(b, start, passed, cursor, v, u, next, more, stop)
            else u == |b.asked(v)| && Underway(b, start, passed, cursor, v, u, next, more, existing)
  {
    var owners := b.asked(v);
    var count := Min(b.size - |examined|, |owners| - first);
    var row;
    next, row, stop, existing :=
      ExamineOwners(b.challenges[index], owners, first, count, b.attempt, known, before, examined);
    more, u := examined + row, first + |row|;
    WalkedRow(b, start, passed, v, first, row);
    if row != [] {
      StandsAfterPair(b, v, u - 1);
    }
  }

  /** `_prepare_batch`: from the saved cursor on, at most `size` pairs, and at most one round.
      The pairs examined are exactly those that the queries put between the old cursor and the
      new one; a pair that finds the store busy or raises an exception is not passed; and an
      exception leaves the cursor where it was. */
  method PrepareBatch(b: Batch, cursor: Pair) returns (o: Outcome)
    requires Sorted(b)
    ensures Done(b, cursor, o)
  {
    if b.challenges == [] {
      return Outcome(cursor, [], Finished, true);
    }
    var index := BisectLeft(b.challenges, cursor.0);
    if index == |b.challenges| {
      index := 0;
    }
    StartIs(b.challenges, cursor);
    var owners := b.asked(index);
    assert Ids(owners);
    BelowIs(owners, 1, 0);
    var ownerId := if b.challenges[index] == cursor.0 then cursor.1 else 0;
    var passed := BisectLeft(owners, ownerId + 1);
    var next, examined, stop, v, u := WalkRows(b, index, passed, cursor);
    var saved := b.writable && !stop.Raised?;
    o := Outcome(if saved then next else cursor, examined, stop, saved);
    assert EndsAt(b, cursor, o, v, u);
  }

  /** The next batch takes up exactly where this one stopped, at a pair that found the store
      busy for one. */
  lemma {:induction false} Resumes(b: Batch, cursor: Pair, o: Outcome, v: nat, u: nat)
    requires Sorted(b) && b.challenges != [] && EndsAt(b, cursor, o, v, u) && o.saved
    ensures StartRow(b.challenges, o.next) == RowIndex(b.challenges, v)
    ensures Passed(b.challenges, b.asked(v), o.next) == u
    ensures o.stop.StoreBusy? ==>
              o.stop.pair == (RowOf(b.challenges, v), b.asked(v)[Passed(b.challenges, b.asked(v), o.next)])
  {
    BelowAt(b.challenges, RowIndex(b.challenges, v));
  }

  // ----- fixed sets of challenges and owners

  ghost predicate Fixed(b: Batch, challenges: seq<nat>, owners: seq<nat>) {
    b.challenges == challenges && forall v: nat :: b.asked(v) == owners
  }

  lemma {:induction false} PositionWraps(n: nat, a: nat, x: nat)
    requires a == x || a == n + x
    ensures SamePosition(n, a, x) && (x < n ==> Around(n, a) == x)
  {
  }

  lemma {:induction false} RowPosition(challenges: seq<nat>, m: nat, v: nat, u: nat)
    requires v < 2 * |challenges|
    ensures var n, a, x := RowStart(|challenges|, m), RowStart(v, m) + u,
              RowStart(RowIndex(challenges, v), m) + u;
            SamePosition(n, a, x) && (x < n ==> Around(n, a) == x)
  {
    if v >= |challenges| {
      RowStartShift(|challenges|, v - |challenges|, m);
    }
    PositionWraps(RowStart(|challenges|, m), RowStart(v, m) + u, RowStart(RowIndex(challenges, v), m) + u);
  }

  lemma {:induction false} PairAround(challenges: seq<nat>, owners: seq<nat>, v: nat, u: nat)
    requires v < 2 * |challenges| && u < |owners|
    ensures var pairs := Pairs(challenges, owners);
            pairs != [] && pairs[Around(|pairs|, RowStart(v, |owners|) + u)] == (RowOf(challenges, v), owners[u])
  {
    PairAt(challenges, owners, RowIndex(challenges, v), u);
    RowPosition(challenges, |owners|, v, u);
  }

  lemma {:induction false} WalkedSize(b: Batch, owners: seq<nat>, start: nat, passed: nat, v: nat, u: nat)
    requires Fixed(b, b.challenges, owners) && OnTheWay(b, start, passed, v, u)
    ensures RowStart(start, |owners|) + passed + |Walked(b, start, passed, v, u)| == RowStart(v, |owners|) + u
    decreases v
  {
    if v > start {
      WalkedSize(b, owners, start, passed, v - 1, |owners|);
    }
  }

  // The k-th pair of a walk, on the row it belongs to.
  lemma {:induction false} WalkedOn(b: Batch, owners: seq<nat>, start: nat, passed: nat, v: nat, u: nat, k: nat)
    returns (x: nat, w: nat)
    requires Fixed(b, b.challenges, owners) && OnTheWay(b, start, passed, v, u)
    requires k < |Walked(b, start, passed, v, u)|
    ensures x <= v && w < |owners| && Walked(b, start, passed, v, u)[k] == (RowOf(b.challenges, x), owners[w])
    ensures RowStart(x, |owners|) + w == RowStart(start, |owners|) + passed + k
    decreases v
  {
    if v == start {
      x, w := v, passed + k;
    } else {
      WalkedSize(b, owners, start, passed, v - 1, |owners|);
      var n := |Walked(b, start, passed, v - 1, |owners|)|;
      if k < n {
        x, w := WalkedOn(b, owners, start, passed, v - 1, |owners|, k);
      } else {
        x, w := v, k - n;
      }
    }
  }

  ghost predicate ComesAt(pairs: seq<Pair>, p: Pair, position: nat) {
    pairs != [] && p == pairs[Around(|pairs|, position)]
  }

  lemma {:induction false} WalkedAt(b: Batch, owners: seq<nat>, start: nat, passed: nat, v: nat, u: nat, k: nat)
    requires Fixed(b, b.challenges, owners) && OnTheWay(b, start, passed, v, u)
    requires k < |Walked(b, start, passed, v, u)|
    ensures ComesAt(Pairs(b.challenges, owners), Walked(b, start, passed, v, u)[k],
                    RowStart(start, |owners|) + passed + k)
  {
    var x, w := WalkedOn(b, owners, start, passed, v, u, k);
    PairAround(b.challenges, owners, x, w);
  }

  // From position r on, the pairs in `examined` have been dealt with and the cursor `next`
  // resumes right after them.
  ghost predicate Covers(challenges: seq<nat>, owners: seq<nat>, r: nat, examined: seq<Pair>, next: Pair) {
    var pairs := Pairs(challenges, owners);
    Follows(pairs, r, examined) && SamePosition(|pairs|, r + |examined|, Rank(challenges, owners, next))
  }

  // A stretch that begins at a position equal to r and ends at one equal to `rank`.
  lemma {:induction false} Shifted(pairs: seq<Pair>, r: nat, base: nat, end: nat, rank: nat, examined: seq<Pair>)
    requires SamePosition(|pairs|, r, base) && SamePosition(|pairs|, end, rank) && base + |examined| == end
    requires forall k: nat | k < |examined| :: ComesAt(pairs, examined[k], base + k)
    ensures Follows(pairs, r, examined) && SamePosition(|pairs|, r + |examined|, rank)
  {
    forall k: nat | k < |examined|
      ensures pairs != [] && examined[k] == pairs[Around(|pairs|, r + k)]
    {
      assert ComesAt(pairs, examined[k], base + k);
      AroundAdd(|pairs|, r, base, k);
    }
    assert examined != [] ==> ComesAt(pairs, examined[0], base + 0);
    if pairs != [] {
      AroundAdd(|pairs|, r, base, |examined|);
    }
  }

  /** While the sets stay the same, a batch examines the next pairs in cyclic order and leaves
      the cursor right after them; unless stopped it examines as many as it may, short of a
      full round. */
  lemma {:induction false} FollowsOrder(b: Batch, owners: seq<nat>, cursor: Pair, o: Outcome)
    requires Sorted(b) && Fixed(b, b.challenges, owners) && Done(b, cursor, o) && o.saved
    ensures Covers(b.challenges, owners, Rank(b.challenges, owners, cursor), o.examined, o.next)
    ensures o.stop == Finished && b.challenges != [] ==>
              |o.examined| ==
              Min(b.size, RowStart(|b.challenges|, |owners|) - Passed(b.challenges, owners, cursor))
  {
    if b.challenges != [] {
      var v: nat, u: nat :| EndsAt(b, cursor, o, v, u);
      assert Ids(b.asked(0));
      var start, passed := StartRow(b.challenges, cursor), Passed(b.challenges, owners, cursor);
      RankAtEnd(b, owners, cursor, o, v, u);
      CoversWalk(b, owners, cursor, start, passed, v, u, o.next);
      WalkSize(b, owners, start, passed, v, u);
    }
  }

  lemma {:induction false} WalkFollows(b: Batch, owners: seq<nat>, start: nat, passed: nat, v: nat, u: nat, r: nat,
                                       rank: nat)
    requires Fixed(b, b.challenges, owners) && OnTheWay(b, start, passed, v, u)
    requires SamePosition(|Pairs(b.challenges, owners)|, r, RowStart(start, |owners|) + passed)
    requires SamePosition(|Pairs(b.challenges, owners)|, RowStart(v, |owners|) + u, rank)
    ensures var pairs, walked := Pairs(b.challenges, owners), Walked(b, start, passed, v, u);
            Follows(pairs, r, walked) && SamePosition(|pairs|, r + |walked|, rank)
  {
    WalkedSize(b, owners, start, passed, v, u);
    var walked := Walked(b, start, passed, v, u);
    forall k: nat | k < |walked|
      ensures ComesAt(Pairs(b.challenges, owners), walked[k], RowStart(start, |owners|) + passed + k)
    {
      WalkedAt(b, owners, start, passed, v, u, k);
    }
    Shifted(Pairs(b.challenges, owners), r, RowStart(start, |owners|) + passed, RowStart(v, |owners|) + u, rank,
            walked);
  }

  lemma {:induction false} CoversWalk(b: Batch, owners: seq<nat>, cursor: Pair, start: nat, passed: nat, v: nat,
                                      u: nat, next: Pair)
    requires Ids(b.challenges) && Ids(owners) && Fixed(b, b.challenges, owners) && OnTheWay(b, start, passed, v, u)
    requires start == StartRow(b.challenges, cursor) && passed == Passed(b.challenges, owners, cursor)
    requires SamePosition(|Pairs(b.challenges, owners)|, RowStart(v, |owners|) + u, Rank(b.challenges, owners, next))
    ensures Covers(b.challenges, owners, Rank(b.challenges, owners, cursor), Walked(b, start, passed, v, u), next)
  {
    StartPosition(b.challenges, owners, cursor);
    WalkFollows(b, owners, start, passed, v, u, Rank(b.challenges, owners, cursor),
                Rank(b.challenges, owners, next));
  }

  lemma {:induction false} RankAtEnd(b: Batch, owners: seq<nat>, cursor: Pair, o: Outcome, v: nat, u: nat)
    requires Sorted(b) && Fixed(b, b.challenges, owners) && Ids(owners)
    requires b.challenges != [] && EndsAt(b, cursor, o, v, u) && o.saved
    ensures SamePosition(|Pairs(b.challenges, owners)|, RowStart(v, |owners|) + u,
                         Rank(b.challenges, owners, o.next))
  {
    Resumes(b, cursor, o, v, u);
    PairCount(b.challenges, owners);
    RowPosition(b.challenges, |owners|, v, u);
    StartPosition(b.challenges, owners, o.next);
  }

  lemma {:induction false} RowStartMonotone(i: nat, j: nat, m: nat)
    requires i <= j
    ensures RowStart(i, m) <= RowStart(j, m)
  {
    RowStartShift(i, j - i, m);
  }

  lemma {:induction false} WalkSize(b: Batch, owners: seq<nat>, start: nat, passed: nat, v: nat, u: nat)
    requires Fixed(b, b.challenges, owners) && OnTheWay(b, start, passed, v, u)
    ensures |Walked(b, start, passed, v, u)| <= RowStart(|b.challenges|, |owners|) - passed
    ensures v == start + |b.challenges| ==>
              |Walked(b, start, passed, v, u)| == RowStart(|b.challenges|, |owners|) - passed
  {
    WalkedSize(b, owners, start, passed, v, u);
    RowStartShift(start, |b.challenges|, |owners|);
    if v < start + |b.challenges| {
      RowStartMonotone(v + 1, start + |b.challenges|, |owners|);
    }
  }

  // ----- sets that change

  // The pair is listed whenever the batch looks.
  ghost predicate Lasting(b: Batch, p: Pair) {
    p.0 in b.challenges && forall v: nat :: p.1 in b.asked(v)
  }

  // 1 if the cursor is on the pair or past it.
  function UpTo(p: Pair, cursor: Pair): (k: nat)
    ensures k <= 1
  {
    if p.0 < cursor.0 || (p.0 == cursor.0 && p.1 <= cursor.1) then 1 else 0
  }

  // How often the cursor went from the last challenges to the first.
  function Laps(b: Batch, cursor: Pair, o: Outcome, v: nat): nat {
    (if v >= |b.challenges| then 1 else 0)
    + if Below(b.challenges, cursor.0) == |b.challenges| && o.next != cursor then 1 else 0
  }

  // Row x comes by on the walk, at the owner of pair p.
  ghost predicate Reached(b: Batch, start: nat, passed: nat, v: nat, u: nat, p: Pair, x: nat) {
    && start <= x <= v
    && (x == start ==> passed <= Below(b.asked(x), p.1))
    && (x == v ==> Below(b.asked(x), p.1) < u)
  }

  lemma {:induction false} RowHas(challenge: nat, owners: seq<nat>, lo: nat, hi: nat, p: Pair)
    requires Ids(owners) && p.1 in owners && lo <= hi <= |owners|
    ensures p in Row(challenge, owners[lo..hi]) <==> p.0 == challenge && lo <= Below(owners, p.1) < hi
  {
    var j :| 0 <= j < |owners| && owners[j] == p.1;
    BelowAt(owners, j);
    var row := Row(challenge, owners[lo..hi]);
    if p.0 == challenge && lo <= j < hi {
      assert row[j - lo] == p;
    }
  }

  lemma {:induction false} WalkedHas(b: Batch, start: nat, passed: nat, v: nat, u: nat, p: Pair, i: nat)
    requires Sorted(b) && Lasting(b, p) && OnTheWay(b, start, passed, v, u)
    requires i < |b.challenges| && b.challenges[i] == p.0
    ensures p in Walked(b, start, passed, v, u) <==>
            Reached(b, start, passed, v, u, p, i) || Reached(b, start, passed, v, u, p, i + |b.challenges|)
    decreases v
  {
    assert Ids(b.asked(v)) && p.1 in b.asked(v);
    RowHas(RowOf(b.challenges, v), b.asked(v), if v == start then passed else 0, u, p);
    if v > start {
      WalkedHas(b, start, passed, v - 1, |b.asked(v - 1)|, p, i);
      assert Ids(b.asked(v - 1)) && p.1 in b.asked(v - 1);
      BelowMember(b.asked(v - 1), p.1, 0);
    }
  }

  lemma {:induction false} BelowMember(s: seq<nat>, y: nat, x: nat)
    requires Ids(s) && y in s
    ensures Below(s, y) < |s|
    ensures Below(s, x + 1) <= Below(s, y) <==> x < y
  {
    var j :| 0 <= j < |s| && s[j] == y;
    BelowAt(s, j);
    BelowSplits(s, x + 1);
  }

  // The case analysis behind `BatchTurns`: row i comes by at most twice, with the owner of the
  // pair at w and at x; `above` says that the cursor is past all challenges.
  lemma {:induction false} Counted(n: nat, start: nat, passed: nat, v: nat, u: nat, i: nat, w: nat, x: nat,
                                   above: bool)
    requires start < n && start <= v <= start + n && i < n && (v == start ==> passed <= u)
    requires (v == start + n ==> u == 0) && (above ==> start == 0 && passed == 0)
    ensures var first := start <= i <= v && (i == start ==> passed <= w) && (i == v ==> w < u);
            var again := i + n <= v && (i + n == v ==> x < u);
            var before := above || i < start || (i == start && w < passed);
            var r := if v < n then v else v - n;
            var after := i < r || (i == r && (if v < n then w else x) < u);
            (if first || again then 1 else 0) + (if before then 1 else 0) ==
            (if v >= n then 1 else 0) + (if above then 1 else 0) + if after then 1 else 0
  {
  }

  /** A saved batch examines a pair that is listed all the time once for each time that the
      cursor passes it. */
  lemma {:induction false} BatchTurns(b: Batch, cursor: Pair, o: Outcome, v: nat, u: nat, p: Pair)
    requires Sorted(b) && Lasting(b, p) && b.challenges != [] && EndsAt(b, cursor, o, v, u) && o.saved
    ensures (if p in o.examined then 1 else 0) + UpTo(p, cursor) == Laps(b, cursor, o, v) + UpTo(p, o.next)
  {
    var start := StartRow(b.challenges, cursor);
    var passed := Passed(b.challenges, b.asked(start), cursor);
    if StandsAt(b, o.next, v, u) {
      var i :| 0 <= i < |b.challenges| && b.challenges[i] == p.0;
      WalkTurns(b, cursor, start, passed, v, u, o.next, p, i);
    } else {
      assert o.examined == [];
    }
  }

  lemma {:induction false} WalkTurns(b: Batch, cursor: Pair, start: nat, passed: nat, v: nat, u: nat, next: Pair,
                                     p: Pair, i: nat)
    requires Sorted(b) && Lasting(b, p) && i < |b.challenges| && b.challenges[i] == p.0
    requires start == StartRow(b.challenges, cursor) && passed == Passed(b.challenges, b.asked(start), cursor)
    requires OnTheWay(b, start, passed, v, u) && StandsAt(b, next, v, u)
    ensures (if p in Walked(b, start, passed, v, u) then 1 else 0) + UpTo(p, cursor) ==
            (if v >= |b.challenges| then 1 else 0) + UpTo(p, next)
            + if Below(b.challenges, cursor.0) == |b.challenges| && next != cursor then 1 else 0
  {
    var n := |b.challenges|;
    var above := Below(b.challenges, cursor.0) == n;
    StartIs(b.challenges, cursor);
    BelowAt(b.challenges, RowIndex(b.challenges, v));
    assert above ==> next != cursor;
    WalkedHas(b, start, passed, v, u, p, i);
    PassedAtStart(b, cursor, p, i);
    PassedAtEnd(b, next, v, u, p, i);
    Counted(n, start, passed, v, u, i, Below(b.asked(i), p.1), Below(b.asked(i + n), p.1), above);
  }

  lemma {:induction false} PassedAtStart(b: Batch, cursor: Pair, p: Pair, i: nat)
    requires Sorted(b) && Lasting(b, p) && i < |b.challenges| && b.challenges[i] == p.0
    ensures var start := StartRow(b.challenges, cursor);
            UpTo(p, cursor) == 1 <==>
            || Below(b.challenges, cursor.0) == |b.challenges|
            || i < start
            || (i == start && Below(b.asked(i), p.1) < Passed(b.challenges, b.asked(start), cursor))
  {
    StartIs(b.challenges, cursor);
    BelowSplits(b.challenges, cursor.0);
    assert Ids(b.asked(i)) && p.1 in b.asked(i);
    BelowMember(b.asked(i), p.1, cursor.1);
  }

  lemma {:induction false} PassedAtEnd(b: Batch, next: Pair, v: nat, u: nat, p: Pair, i: nat)
    requires Sorted(b) && Lasting(b, p) && i < |b.challenges| && b.challenges[i] == p.0 && StandsAt(b, next, v, u)
    ensures UpTo(p, next) == 1 <==>
            i < RowIndex(b.challenges, v) || (i == RowIndex(b.challenges, v) && Below(b.asked(v), p.1) < u)
  {
    assert Ids(b.asked(v)) && p.1 in b.asked(v);
    BelowMember(b.asked(v), p.1, next.1);
  }

  lemma {:induction false} WalkedRows(b: Batch, start: nat, passed: nat, v: nat, u: nat, k: nat)
    requires OnTheWay(b, start, passed, v, u) && k < |Walked(b, start, passed, v, u)|
    ensures exists x :: start <= x <= v && Walked(b, start, passed, v, u)[k].0 == RowOf(b.challenges, x)
    decreases v
  {
    if v > start {
      var before := Walked(b, start, passed, v - 1, |b.asked(v - 1)|);
      if k < |before| {
        WalkedRows(b, start, passed, v - 1, |b.asked(v - 1)|, k);
      } else {
        assert Walked(b, start, passed, v, u)[k].0 == RowOf(b.challenges, v);
      }
    }
  }

  // A batch examines no pair twice.
  lemma {:induction false} WalkedDistinct(b: Batch, start: nat, passed: nat, v: nat, u: nat)
    requires Sorted(b) && OnTheWay(b, start, passed, v, u)
    ensures AllDistinct(Walked(b, start, passed, v, u))
    decreases v
  {
    assert Ids(b.asked(v));
    if v > start {
      var m := |b.asked(v - 1)|;
      var before, row := Walked(b, start, passed, v - 1, m), Row(RowOf(b.challenges, v), b.asked(v)[0..u]);
      WalkedDistinct(b, start, passed, v - 1, m);
      forall k, l | 0 <= k < |before| && 0 <= l < |row|
        ensures before[k] != row[l]
      {
        WalkedRows(b, start, passed, v - 1, m, k);
      }
    }
  }

  // ----- any number of batches

  function CursorAfter(cursor: Pair, outcomes: seq<Outcome>): Pair {
    if outcomes == [] then cursor else outcomes[|outcomes| - 1].next
  }

  // Each batch resumes from the cursor that the one before left in the file.
  ghost predicate BatchesDone(batches: seq<Batch>, cursor: Pair, outcomes: seq<Outcome>)
    decreases |batches|
  {
    && |batches| == |outcomes|
    && (batches != [] ==>
          var k := |batches| - 1;
          && BatchesDone(batches[..k], cursor, outcomes[..k])
          && Sorted(batches[k]) && Done(batches[k], CursorAfter(cursor, outcomes[..k]), outcomes[k]))
  }

  // The pairs of the batches that saved their cursor; after any other one they come up again.
  function Settled(outcomes: seq<Outcome>): seq<Pair> {
    if outcomes == [] then []
    else
      var o := outcomes[|outcomes| - 1];
      Settled(outcomes[..|outcomes| - 1]) + if o.saved then o.examined else []
  }

  ghost predicate AllFixed(batches: seq<Batch>, challenges: seq<nat>, owners: seq<nat>) {
    forall k | 0 <= k < |batches| :: Fixed(batches[k], challenges, owners)
  }

  /** Any number of batches of any size over fixed sets, failing ones included: the pairs they
      settle, taken together, follow the cyclic order without a gap, so between two turns of
      one pair every other pair has exactly one. */
  lemma {:induction false} Rounds(batches: seq<Batch>, challenges: seq<nat>, owners: seq<nat>, cursor: Pair,
                                  outcomes: seq<Outcome>)
    requires Ids(challenges) && Ids(owners) && AllFixed(batches, challenges, owners)
    requires BatchesDone(batches, cursor, outcomes)
    ensures Covers(challenges, owners, Rank(challenges, owners, cursor), Settled(outcomes),
                   CursorAfter(cursor, outcomes))
    ensures forall start: nat :: FullRound(Pairs(challenges, owners), Settled(outcomes), start)
  {
    BatchAfterBatch(batches, challenges, owners, cursor, outcomes);
    PairsDistinct(challenges, owners);
    forall start: nat
      ensures FullRound(Pairs(challenges, owners), Settled(outcomes), start)
    {
      RoundIsFull(Pairs(challenges, owners), Rank(challenges, owners, cursor), Settled(outcomes), start);
    }
  }

  lemma {:induction false} BatchAfterBatch(batches: seq<Batch>, challenges: seq<nat>, owners: seq<nat>, cursor: Pair,
                                           outcomes: seq<Outcome>)
    requires Ids(challenges) && Ids(owners) && AllFixed(batches, challenges, owners)
    requires BatchesDone(batches, cursor, outcomes)
    ensures Covers(challenges, owners, Rank(challenges, owners, cursor), Settled(outcomes),
                   CursorAfter(cursor, outcomes))
    decreases |batches|
  {
    if batches != [] {
      var k := |batches| - 1;
      BatchAfterBatch(batches[..k], challenges, owners, cursor, outcomes[..k]);
      OneBatchMore(batches[k], challenges, owners, Rank(challenges, owners, cursor), Settled(outcomes[..k]),
                   CursorAfter(cursor, outcomes[..k]), outcomes[k]);
    }
  }

  lemma {:induction false} OneBatchMore(b: Batch, challenges: seq<nat>, owners: seq<nat>, r: nat, settled: seq<Pair>,
                                        cursor: Pair, o: Outcome)
    requires Fixed(b, challenges, owners) && Sorted(b) && Done(b, cursor, o)
    requires Covers(challenges, owners, r, settled, cursor)
    ensures Covers(challenges, owners, r, settled + if o.saved then o.examined else [], o.next)
  {
    if o.saved {
      FollowsOrder(b, owners, cursor, o);
      CoversConcat(challenges, owners, r, settled, cursor, o.examined, o.next);
    } else {
      assert settled + [] == settled;
    }
  }

  lemma {:induction false} CoversConcat(challenges: seq<nat>, owners: seq<nat>, r: nat, a: seq<Pair>, middle: Pair,
                                        b: seq<Pair>, next: Pair)
    requires Covers(challenges, owners, r, a, middle)
    requires Covers(challenges, owners, Rank(challenges, owners, middle), b, next)
    ensures Covers(challenges, owners, r, a + b, next)
  {
    var pairs := Pairs(challenges, owners);
    FollowsConcat(pairs, r, a, Rank(challenges, owners, middle), b);
    if pairs != [] {
      AroundAdd(|pairs|, r + |a|, Rank(challenges, owners, middle), |b|);
    }
  }

  // How often the pair has been settled.
  function Turns(p: Pair, outcomes: seq<Outcome>): nat {
    multiset(Settled(outcomes))[p]
  }

  ghost predicate AlwaysListed(batches: seq<Batch>, p: Pair) {
    forall k | 0 <= k < |batches| :: Lasting(batches[k], p)
  }

  lemma {:induction false} DistinctOnce(s: seq<Pair>, p: Pair)
    requires AllDistinct(s)
    ensures multiset(s)[p] == if p in s then 1 else 0
  {
    if s != [] {
      DistinctOnce(s[1..], p);
      assert s == [s[0]] + s[1..];
    }
  }

  lemma {:induction false} TurnsOfBatch(b: Batch, cursor: Pair, o: Outcome) returns (laps: nat)
    requires Sorted(b) && Done(b, cursor, o)
    ensures forall p | Lasting(b, p) ::
              (if o.saved then multiset(o.examined)[p] else 0) + UpTo(p, cursor) == laps + UpTo(p, o.next)
  {
    laps := 0;
    if b.challenges != [] && o.saved {
      var v: nat, u: nat :| EndsAt(b, cursor, o, v, u);
      var start := StartRow(b.challenges, cursor);
      WalkedDistinct(b, start, Passed(b.challenges, b.asked(start), cursor), v, u);
      laps := Laps(b, cursor, o, v);
      forall p | Lasting(b, p)
        ensures multiset(o.examined)[p] + UpTo(p, cursor) == laps + UpTo(p, o.next)
      {
        BatchTurns(b, cursor, o, v, u, p);
        DistinctOnce(o.examined, p);
      }
    }
  }

  /** However challenges and owners come and go, and whichever batches fail: all pairs that are
      listed throughout have one turn per lap of the cursor. */
  lemma {:induction false} OneTurnPerLap(batches: seq<Batch>, cursor: Pair, outcomes: seq<Outcome>)
    returns (laps: nat)
    requires BatchesDone(batches, cursor, outcomes)
    ensures forall p | AlwaysListed(batches, p) ::
              Turns(p, outcomes) + UpTo(p, cursor) == laps + UpTo(p, CursorAfter(cursor, outcomes))
    decreases |batches|
  {
    laps := 0;
    if batches != [] {
      var k := |batches| - 1;
      var middle, o := CursorAfter(cursor, outcomes[..k]), outcomes[k];
      var before := OneTurnPerLap(batches[..k], cursor, outcomes[..k]);
      var more := TurnsOfBatch(batches[k], middle, o);
      laps := before + more;
      forall p | AlwaysListed(batches, p)
        ensures Turns(p, outcomes) + UpTo(p, cursor) == laps + UpTo(p, o.next)
      {
        assert AlwaysListed(batches[..k], p) && Lasting(batches[k], p);
      }
    }
  }

  /** So no pair gets ahead of another one by more than one turn. */
  lemma {:induction false} TurnsEven(batches: seq<Batch>, cursor: Pair, outcomes: seq<Outcome>, p: Pair, q: Pair)
    requires BatchesDone(batches, cursor, outcomes) && AlwaysListed(batches, p) && AlwaysListed(batches, q)
    ensures Turns(p, outcomes) <= Turns(q, outcomes) + 1
  {
    var laps := OneTurnPerLap(batches, cursor, outcomes);
  }
}
