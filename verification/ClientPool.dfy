/** The client pool of src/docker_host_manager.py.  Each method is one section under the lock,
    so any order of calls is an interleaving of the greenlets.  Ghost fields record where every
    open client is, and from which generation of the configuration it was built. */
module ClientPool {
  import opened Support

  type Key = (nat, nat)    // a context and a greenlet or thread id
  type Entry = (nat, nat)  // a generation tag and a client

  datatype Place = Leased(key: Key) | Idle(key: Key) | Closing
  datatype Origin = Origin(context: nat, generation: nat, url: nat)
  datatype Purge = Purge(native: nat, generation: nat)

  // ----- lists of idle clients

  function ListAt(idle: map<Key, seq<Entry>>, k: Key): seq<Entry> {
    if k in idle then idle[k] else []
  }

  // The entries with tag g, in order, and the clients of all other entries.
  function Keep(s: seq<Entry>, g: nat): seq<Entry> {
    if s == [] then []
    else Keep(s[..|s| - 1], g) + if s[|s| - 1].0 == g then [s[|s| - 1]] else []
  }

  function Discard(s: seq<Entry>, g: nat): set<nat> {
    if s == [] then {}
    else Discard(s[..|s| - 1], g) + if s[|s| - 1].0 == g then {} else {s[|s| - 1].1}
  }

  ghost predicate HasClient(s: seq<Entry>, c: nat) {
    exists i :: 0 <= i < |s| && s[i].1 == c
  }

  ghost predicate Once(s: seq<Entry>) {
    forall i, j | 0 <= i < j < |s| :: s[i].1 != s[j].1
  }

  lemma {:induction false} ClientOfLonger(s: seq<Entry>, c: nat)
    requires s != []
    ensures HasClient(s, c) <==> HasClient(s[..|s| - 1], c) || s[|s| - 1].1 == c
  {
    if HasClient(s, c) {
      var i :| 0 <= i < |s| && s[i].1 == c;
      assert i < |s| - 1 ==> s[..|s| - 1][i].1 == c;
    }
    if HasClient(s[..|s| - 1], c) {
      var i :| 0 <= i < |s| - 1 && s[..|s| - 1][i].1 == c;
      assert s[i].1 == c;
    }
  }

  lemma {:induction false} KeptEntries(s: seq<Entry>, g: nat)
    requires Once(s)
    ensures Once(Keep(s, g))
    ensures forall i | 0 <= i < |Keep(s, g)| :: Keep(s, g)[i] in s && Keep(s, g)[i].0 == g
  {
    if s != [] {
      KeptEntries(s[..|s| - 1], g);
    }
  }

  // Sifting a list splits its clients.
  lemma {:induction false} KeptOrDiscarded(s: seq<Entry>, g: nat, c: nat)
    requires Once(s)
    ensures HasClient(s, c) <==> HasClient(Keep(s, g), c) || c in Discard(s, g)
    ensures !(HasClient(Keep(s, g), c) && c in Discard(s, g))
  {
    if s != [] {
      var last := s[|s| - 1];
      KeptOrDiscarded(s[..|s| - 1], g, c);
      ClientOfLonger(s, c);
      if last.0 == g {
        var kept := Keep(s, g);
        assert kept[..|kept| - 1] == Keep(s[..|s| - 1], g);
        ClientOfLonger(kept, c);
      } else {
        assert Keep(s, g) == Keep(s[..|s| - 1], g);
      }
      if last.1 == c {
        LastOnce(s, c);
      }
    }
  }

  lemma {:induction false} LastOnce(s: seq<Entry>, c: nat)
    requires s != [] && Once(s) && s[|s| - 1].1 == c
    ensures !HasClient(s[..|s| - 1], c)
  {
  }

  /** The two comprehensions of `_get_client`. */
  method Sift(s: seq<Entry>, g: nat) returns (kept: seq<Entry>, stale: set<nat>)
    ensures kept == Keep(s, g) && stale == Discard(s, g)
  {
    kept, stale := [], {};
    for i := 0 to |s|
      invariant kept == Keep(s[..i], g) && stale == Discard(s[..i], g)
    {
      assert s[..i + 1][..i] == s[..i];
      if s[i].0 == g {
        kept := kept + [s[i]];
      } else {
        stale := stale + {s[i].1};
      }
    }
    assert s[..|s|] == s;
  }

  // ----- the invariant, entry by entry

  // A client built for generation g is built from the endpoint map of generation g.
  ghost predicate BuiltFrom(history: seq<map<nat, nat>>, built: map<nat, Origin>, c: nat) {
    c in built ==>
      && built[c].generation < |history| && built[c].context in history[built[c].generation]
      && history[built[c].generation][built[c].context] == built[c].url
  }

  ghost predicate Recorded(history: seq<map<nat, nat>>, configs: map<nat, nat>, generation: nat,
                           built: map<nat, Origin>) {
    && |history| == generation + 1 && history[generation] == configs
    && forall c: nat :: BuiltFrom(history, built, c)
  }

  ghost predicate LeasePlaced(clients: map<Key, nat>, place: map<nat, Place>, k: Key) {
    k in clients ==> clients[k] in place && place[clients[k]] == Leased(k)
  }

  ghost predicate ListPlaced(idle: map<Key, seq<Entry>>, place: map<nat, Place>, k: Key) {
    && Once(ListAt(idle, k))
    && forall c: nat | HasClient(ListAt(idle, k), c) :: c in place && place[c] == Idle(k)
  }

  ghost predicate Found(clients: map<Key, nat>, idle: map<Key, seq<Entry>>, place: map<nat, Place>, c: nat) {
    c in place ==>
      match place[c]
      case Leased(k) => k in clients && clients[k] == c
      case Idle(k) => HasClient(ListAt(idle, k), c)
      case Closing => true
  }

  // Every open client is in exactly one place: `place` is a function, and agrees with the tables.
  ghost predicate Placed(clients: map<Key, nat>, idle: map<Key, seq<Entry>>, place: map<nat, Place>) {
    && (forall k: Key :: LeasePlaced(clients, place, k))
    && (forall k: Key :: ListPlaced(idle, place, k))
    && (forall c: nat :: Found(clients, idle, place, c))
  }

  ghost predicate Tagged(s: seq<Entry>, built: map<nat, Origin>, context: nat) {
    forall i | 0 <= i < |s| :: s[i].1 in built && built[s[i].1].context == context && built[s[i].1].generation == s[i].0
  }

  ghost predicate ListTagged(idle: map<Key, seq<Entry>>, built: map<nat, Origin>, k: Key) {
    Tagged(ListAt(idle, k), built, k.0)
  }

  // An idle client tagged g was built for this context and generation g.
  ghost predicate AllTagged(idle: map<Key, seq<Entry>>, built: map<nat, Origin>) {
    forall k: Key :: ListTagged(idle, built, k)
  }

  // A leased client serves its context, and is not older than the generation its call recorded.
  ghost predicate LeaseCurrent(clients: map<Key, nat>, leases: map<Key, nat>, generation: nat,
                               built: map<nat, Origin>, k: Key) {
    && (k in leases ==> leases[k] <= generation)
    && (k in clients ==>
          && k in leases && clients[k] in built
          && built[clients[k]].context == k.0 && leases[k] <= built[clients[k]].generation)
  }

  ghost predicate LeasesCurrent(clients: map<Key, nat>, leases: map<Key, nat>, generation: nat,
                                built: map<nat, Origin>) {
    forall k: Key :: LeaseCurrent(clients, leases, generation, built, k)
  }

  ghost predicate NotBelow(s: seq<Entry>, g: nat) {
    forall i | 0 <= i < |s| :: g <= s[i].0
  }

  // Neither are the idle clients that a greenlet past its purge may still take.
  ghost predicate PurgeHolds(purged: map<Key, Purge>, leases: map<Key, nat>, generation: nat,
                             idle: map<Key, seq<Entry>>, k: Key) {
    k in purged ==>
      && k in leases && leases[k] <= purged[k].generation <= generation
      && NotBelow(ListAt(idle, (k.0, purged[k].native)), purged[k].generation)
  }

  ghost predicate PurgesHold(purged: map<Key, Purge>, leases: map<Key, nat>, generation: nat,
                             idle: map<Key, seq<Entry>>) {
    forall k: Key :: PurgeHolds(purged, leases, generation, idle, k)
  }

  ghost predicate ClosingKept(a: map<nat, Place>, b: map<nat, Place>) {
    forall c | c in a && a[c] == Closing :: c in b && b[c] == Closing
  }

  ghost predicate Numbered(place: map<nat, Place>, built: map<nat, Origin>, serial: nat) {
    place.Keys <= built.Keys && forall c | c in built :: c < serial
  }

  // ----- moves of clients

  // The list under k becomes s; the clients in `gone` have left it to be closed.
  lemma {:induction false} ListShrinks(clients: map<Key, nat>, idle: map<Key, seq<Entry>>, place: map<nat, Place>,
                                       k: Key, s: seq<Entry>, gone: set<nat>, idle2: map<Key, seq<Entry>>,
                                       place2: map<nat, Place>)
    requires Placed(clients, idle, place) && Once(s)
    requires forall c: nat :: HasClient(ListAt(idle, k), c) <==> HasClient(s, c) || c in gone
    requires forall c: nat :: !(HasClient(s, c) && c in gone)
    requires ListAt(idle2, k) == s && forall x: Key | x != k :: ListAt(idle2, x) == ListAt(idle, x)
    requires place2.Keys == place.Keys && forall c | c in place :: place2[c] == if c in gone then Closing else place[c]
    ensures Placed(clients, idle2, place2)
  {
    assert ListPlaced(idle, place, k);
    forall x: Key
      ensures LeasePlaced(clients, place2, x)
    {
      assert LeasePlaced(clients, place, x);
    }
    forall x: Key
      ensures ListPlaced(idle2, place2, x)
    {
      assert ListPlaced(idle, place, x);
    }
    forall c: nat
      ensures Found(clients, idle2, place2, c)
    {
      assert Found(clients, idle, place, c);
    }
  }

  // The last idle client of k is leased under key.
  lemma {:induction false} Popped(clients: map<Key, nat>, idle: map<Key, seq<Entry>>, place: map<nat, Place>,
                                  key: Key, k: Key, c: nat)
    requires Placed(clients, idle, place) && key !in clients && k in idle && idle[k] != []
               && c == idle[k][|idle[k]| - 1].1
    ensures Placed(clients[key := c], idle[k := idle[k][..|idle[k]| - 1]], place[c := Leased(key)])
    ensures c in place && place[c] == Idle(k)
  {
    var s := idle[k];
    var clients2, idle2, place2 := clients[key := c], idle[k := s[..|s| - 1]], place[c := Leased(key)];
    assert ListPlaced(idle, place, k) && HasClient(ListAt(idle, k), c);
    LastOnce(s, c);
    forall x: Key
      ensures LeasePlaced(clients2, place2, x)
    {
      assert LeasePlaced(clients, place, x);
    }
    forall x: Key
      ensures ListPlaced(idle2, place2, x)
    {
      assert ListPlaced(idle, place, x);
      forall y: nat | HasClient(ListAt(idle2, x), y)
        ensures y in place2 && place2[y] == Idle(x)
      {
        ClientOfLonger(s, y);
      }
    }
    forall y: nat
      ensures Found(clients2, idle2, place2, y)
    {
      assert Found(clients, idle, place, y);
      ClientOfLonger(s, y);
    }
  }

  lemma {:induction false} LeasedNew(clients: map<Key, nat>, idle: map<Key, seq<Entry>>, place: map<nat, Place>,
                                     key: Key, c: nat)
    requires Placed(clients, idle, place) && key !in clients && c !in place
    ensures Placed(clients[key := c], idle, place[c := Leased(key)])
  {
    var clients2, place2 := clients[key := c], place[c := Leased(key)];
    forall x: Key
      ensures LeasePlaced(clients2, place2, x) && ListPlaced(idle, place2, x)
    {
      assert LeasePlaced(clients, place, x) && ListPlaced(idle, place, x);
    }
    forall y: nat
      ensures Found(clients2, idle, place2, y)
    {
      assert Found(clients, idle, place, y);
    }
  }

  // The leased client of key becomes idle under k, at the end of the list.
  lemma {:induction false} Returned(clients: map<Key, nat>, idle: map<Key, seq<Entry>>, place: map<nat, Place>,
                                    key: Key, k: Key, longer: seq<Entry>, c: nat)
    requires Placed(clients, idle, place) && key in clients && c == clients[key]
    requires longer != [] && longer[..|longer| - 1] == ListAt(idle, k) && longer[|longer| - 1].1 == c
    ensures Placed(clients - {key}, idle[k := longer], place[c := Idle(k)])
  {
    var clients2, idle2, place2 := clients - {key}, idle[k := longer], place[c := Idle(k)];
    assert LeasePlaced(clients, place, key);
    forall x: Key
      ensures LeasePlaced(clients2, place2, x)
    {
      assert LeasePlaced(clients, place, x);
    }
    forall x: Key
      ensures ListPlaced(idle2, place2, x)
    {
      assert ListPlaced(idle, place, x) && ListPlaced(idle, place, k);
      if x == k {
        assert !HasClient(longer[..|longer| - 1], c);
        OnceLonger(longer);
      }
      forall y: nat | HasClient(ListAt(idle2, x), y)
        ensures y in place2 && place2[y] == Idle(x)
      {
        ClientOfLonger(longer, y);
      }
    }
    forall y: nat
      ensures Found(clients2, idle2, place2, y)
    {
      assert Found(clients, idle, place, y);
      ClientOfLonger(longer, y);
    }
  }

  lemma {:induction false} OnceLonger(s: seq<Entry>)
    requires s != [] && Once(s[..|s| - 1]) && !HasClient(s[..|s| - 1], s[|s| - 1].1)
    ensures Once(s)
  {
    var shorter := s[..|s| - 1];
    forall i, j | 0 <= i < j < |s|
      ensures s[i].1 != s[j].1
    {
      assert shorter[i].1 == s[i].1;
      if j < |s| - 1 {
        assert shorter[j].1 == s[j].1;
      }
    }
  }

  lemma {:induction false} LeaseEnds(clients: map<Key, nat>, idle: map<Key, seq<Entry>>, place: map<nat, Place>,
                                     key: Key)
    requires Placed(clients, idle, place) && key in clients
    ensures clients[key] in place && Placed(clients - {key}, idle, place[clients[key] := Closing])
  {
    var clients2, place2 := clients - {key}, place[clients[key] := Closing];
    assert LeasePlaced(clients, place, key);
    forall x: Key
      ensures LeasePlaced(clients2, place2, x) && ListPlaced(idle, place2, x)
    {
      assert LeasePlaced(clients, place, x) && ListPlaced(idle, place, x);
    }
    forall y: nat
      ensures Found(clients2, idle, place2, y)
    {
      assert Found(clients, idle, place, y);
    }
  }

  lemma {:induction false} Closed(clients: map<Key, nat>, idle: map<Key, seq<Entry>>, place: map<nat, Place>,
                                  gone: set<nat>)
    requires Placed(clients, idle, place) && forall c | c in gone :: c in place && place[c] == Closing
    ensures Placed(clients, idle, place - gone)
  {
    var left := place - gone;
    forall x: Key
      ensures LeasePlaced(clients, left, x) && ListPlaced(idle, left, x)
    {
      assert LeasePlaced(clients, place, x) && ListPlaced(idle, place, x);
    }
    forall y: nat
      ensures Found(clients, idle, left, y)
    {
      assert Found(clients, idle, place, y);
    }
  }

  // Replacing one list by a tagged one keeps all tags true.
  lemma {:induction false} Retagged(idle: map<Key, seq<Entry>>, built: map<nat, Origin>, k: Key,
                                    idle2: map<Key, seq<Entry>>)
    requires AllTagged(idle, built) && Tagged(ListAt(idle2, k), built, k.0)
    requires forall x: Key | x != k :: ListAt(idle2, x) == ListAt(idle, x)
    ensures AllTagged(idle2, built)
  {
    forall x: Key
      ensures ListTagged(idle2, built, x)
    {
      assert ListTagged(idle, built, x);
    }
  }

  // Replacing a list by some of its entries, or adding current ones, keeps the purges.
  lemma {:induction false} PurgesKeptUp(purged: map<Key, Purge>, leases: map<Key, nat>, generation: nat,
                                        idle: map<Key, seq<Entry>>, idle2: map<Key, seq<Entry>>, k: Key)
    requires PurgesHold(purged, leases, generation, idle)
    requires forall x: Key | x != k :: ListAt(idle2, x) == ListAt(idle, x)
    requires forall i | 0 <= i < |ListAt(idle2, k)| ::
               ListAt(idle2, k)[i] in ListAt(idle, k) || ListAt(idle2, k)[i].0 >= generation
    ensures PurgesHold(purged, leases, generation, idle2)
  {
    forall x: Key
      ensures PurgeHolds(purged, leases, generation, idle2, x)
    {
      assert PurgeHolds(purged, leases, generation, idle, x);
    }
  }

  lemma {:induction false} PurgeStarts(purged: map<Key, Purge>, leases: map<Key, nat>, generation: nat,
                                       idle: map<Key, seq<Entry>>, key: Key, native: nat)
    requires PurgesHold(purged, leases, generation, idle) && key in leases && leases[key] <= generation
    requires NotBelow(ListAt(idle, (key.0, native)), generation)
    ensures PurgesHold(purged[key := Purge(native, generation)], leases, generation, idle)
  {
    var purged2 := purged[key := Purge(native, generation)];
    forall x: Key
      ensures PurgeHolds(purged2, leases, generation, idle, x)
    {
      assert PurgeHolds(purged, leases, generation, idle, x);
    }
  }

  lemma {:induction false} PurgeEnds(purged: map<Key, Purge>, leases: map<Key, nat>, generation: nat,
                                     idle: map<Key, seq<Entry>>, key: Key)
    requires PurgesHold(purged, leases, generation, idle)
    ensures PurgesHold(purged - {key}, leases, generation, idle)
  {
    var purged2 := purged - {key};
    forall x: Key
      ensures PurgeHolds(purged2, leases, generation, idle, x)
    {
      assert PurgeHolds(purged, leases, generation, idle, x);
    }
  }

  lemma {:induction false} LeaseStarts(clients: map<Key, nat>, leases: map<Key, nat>, generation: nat,
                                       built: map<nat, Origin>, purged: map<Key, Purge>, idle: map<Key, seq<Entry>>,
                                       key: Key)
    requires LeasesCurrent(clients, leases, generation, built) && PurgesHold(purged, leases, generation, idle)
    requires key !in clients && key !in purged
    ensures LeasesCurrent(clients, leases[key := generation], generation, built)
    ensures PurgesHold(purged, leases[key := generation], generation, idle)
  {
    var leases2 := leases[key := generation];
    forall x: Key
      ensures LeaseCurrent(clients, leases2, generation, built, x)
      ensures PurgeHolds(purged, leases2, generation, idle, x)
    {
      assert LeaseCurrent(clients, leases, generation, built, x) && PurgeHolds(purged, leases, generation, idle, x);
    }
  }

  lemma {:induction false} LeaseTaken(clients: map<Key, nat>, leases: map<Key, nat>, generation: nat,
                                      built: map<nat, Origin>, key: Key, c: nat)
    requires LeasesCurrent(clients, leases, generation, built) && key in leases
    requires c in built && built[c].context == key.0 && leases[key] <= built[c].generation
    ensures LeasesCurrent(clients[key := c], leases, generation, built)
  {
    var clients2 := clients[key := c];
    forall x: Key
      ensures LeaseCurrent(clients2, leases, generation, built, x)
    {
      assert LeaseCurrent(clients, leases, generation, built, x);
    }
  }

  lemma {:induction false} LeaseDropped(clients: map<Key, nat>, leases: map<Key, nat>, generation: nat,
                                        built: map<nat, Origin>, key: Key)
    requires LeasesCurrent(clients, leases, generation, built)
    ensures LeasesCurrent(clients - {key}, leases, generation, built)
  {
    var clients2 := clients - {key};
    forall x: Key
      ensures LeaseCurrent(clients2, leases, generation, built, x)
    {
      assert LeaseCurrent(clients, leases, generation, built, x);
    }
  }

  // A new client changes nothing for the old ones.
  lemma {:induction false} BuiltMore(clients: map<Key, nat>, leases: map<Key, nat>, generation: nat,
                                     idle: map<Key, seq<Entry>>, history: seq<map<nat, nat>>, configs: map<nat, nat>,
                                     built: map<nat, Origin>, c: nat, o: Origin)
    requires Recorded(history, configs, generation, built) && AllTagged(idle, built)
    requires LeasesCurrent(clients, leases, generation, built)
    requires c !in built && o.generation == generation && o.context in configs && configs[o.context] == o.url
    ensures Recorded(history, configs, generation, built[c := o]) && AllTagged(idle, built[c := o])
    ensures LeasesCurrent(clients, leases, generation, built[c := o])
  {
    var built2 := built[c := o];
    forall x: nat
      ensures BuiltFrom(history, built2, x)
    {
      assert BuiltFrom(history, built, x);
    }
    forall k: Key
      ensures ListTagged(idle, built2, k) && LeaseCurrent(clients, leases, generation, built2, k)
    {
      assert ListTagged(idle, built, k) && LeaseCurrent(clients, leases, generation, built, k);
    }
  }

  lemma {:induction false} Reloaded(clients: map<Key, nat>, leases: map<Key, nat>, generation: nat,
                                    idle: map<Key, seq<Entry>>, history: seq<map<nat, nat>>, configs: map<nat, nat>,
                                    built: map<nat, Origin>, purged: map<Key, Purge>, loaded: map<nat, nat>)
    requires Recorded(history, configs, generation, built) && LeasesCurrent(clients, leases, generation, built)
    requires PurgesHold(purged, leases, generation, idle)
    ensures Recorded(history + [loaded], loaded, generation + 1, built)
    ensures LeasesCurrent(clients, leases, generation + 1, built) && PurgesHold(purged, leases, generation + 1, idle)
  {
    var history2 := history + [loaded];
    var next := generation + 1;
    forall x: nat
      ensures BuiltFrom(history2, built, x)
    {
      assert BuiltFrom(history, built, x);
    }
    forall k: Key
      ensures LeaseCurrent(clients, leases, next, built, k) && PurgeHolds(purged, leases, next, idle, k)
    {
      assert LeaseCurrent(clients, leases, generation, built, k) && PurgeHolds(purged, leases, generation, idle, k);
    }
  }

  // The endpoint map of a list of contexts; those without an endpoint are skipped.
  function Resolved(contexts: seq<(nat, Option<nat>)>): map<nat, nat> {
    if contexts == [] then map[]
    else
      var last := contexts[|contexts| - 1];
      var rest := Resolved(contexts[..|contexts| - 1]);
      if last.1.Some? then rest[last.0 := last.1.value] else rest
  }

  method Resolve(contexts: seq<(nat, Option<nat>)>) returns (loaded: map<nat, nat>)
    ensures loaded == Resolved(contexts)
  {
    loaded := map[];
    for i := 0 to |contexts|
      invariant loaded == Resolved(contexts[..i])
    {
      assert contexts[..i + 1][..i] == contexts[..i];
      if contexts[i].1.Some? {
        loaded := loaded[contexts[i].0 := contexts[i].1.value];
      }
    }
    assert contexts[..|contexts|] == contexts;
  }

  class DockerHostManager {
    var configs: map<nat, nat>          // context -> endpoint
    var connected: set<nat>
    var failures: map<nat, int>
    var clients: map<Key, nat>          // (context, greenlet) -> the client it leases
    var idle: map<Key, seq<Entry>>      // (context, thread) -> idle clients with their tags
    var generation: nat
    var serial: nat                     // clients are numbered as they are built
    var leases: map<Key, nat>           // a local of each greenlet: the generation its call recorded
    var purged: map<Key, Purge>         // the greenlets between the two halves of `_get_client`
    ghost var history: seq<map<nat, nat>>   // the configuration of every generation
    ghost var built: map<nat, Origin>       // every client ever built
    ghost var place: map<nat, Place>        // every open client

    ghost predicate Valid()
      reads this
    {
      && Recorded(history, configs, generation, built)
      && Numbered(place, built, serial)
      && Placed(clients, idle, place)
      && AllTagged(idle, built)
      && LeasesCurrent(clients, leases, generation, built)
      && PurgesHold(purged, leases, generation, idle)
    }

    constructor ()
      ensures Valid() && configs == map[] && generation == 0 && place == map[]
    {
      configs, connected, failures, clients, idle, generation, serial := map[], {}, map[], map[], map[], 0, 0;
      history, built, place, leases, purged := [map[]], map[], map[], map[], map[];
    }

    /** `_cooling_down`. */
    predicate CoolingDown(context: nat, now: int, cooldown: int)
      reads this
    {
      context in failures && now - failures[context] < cooldown
    }

    /** The head of `leased_call`: the generation is recorded before the operation starts. */
    method BeginLease(context: nat, ident: nat) returns (recorded: nat)
      requires Valid() && (context, ident) !in purged && (context, ident) !in clients
      modifies `leases
      ensures Valid() && recorded == generation && leases == old(leases)[(context, ident) := generation]
    {
      LeaseStarts(clients, leases, generation, built, purged, idle, (context, ident));
      leases := leases[(context, ident) := generation];
      recorded := generation;
    }

    /** The first half of `_get_client`: idle clients of older configurations are taken out. */
    method PurgeIdle(context: nat, ident: nat, native: nat) returns (toClose: set<nat>)
      requires Valid() && (context, ident) in leases
      modifies `idle, `place, `purged
      ensures ClosingKept(old(place), place)
      ensures Valid() && place.Keys == old(place.Keys)
      ensures toClose == Discard(ListAt(old(idle), (context, native)), generation)
      ensures forall c | c in toClose :: c in place && place[c] == Closing
      ensures ListAt(idle, (context, native)) == Keep(ListAt(old(idle), (context, native)), generation)
      ensures purged == old(purged)[(context, ident) := Purge(native, generation)]
    {
      var k := (context, native);
      var kept;
      kept, toClose := Sift(ListAt(idle, k), generation);
      ghost var idle2 := if k in idle then idle[k := kept] else idle;
      ghost var place2 := map c | c in place :: if c in toClose then Closing else place[c];
      Purged(clients, idle, place, built, k, generation, idle2, place2);
      PurgesKeptUp(purged, leases, generation, idle, idle2, k);
      assert LeaseCurrent(clients, leases, generation, built, (context, ident));
      PurgeStarts(purged, leases, generation, idle2, (context, ident), native);
      if k in idle {
        idle := idle[k := kept];
      }
      place := place2;
      purged := purged[(context, ident) := Purge(native, generation)];
    }

    /** `_close_clients`: what was taken out is closed outside the lock. */
    method FinishClose(toClose: set<nat>)
      requires Valid() && forall c | c in toClose :: c in place && place[c] == Closing
      modifies `place
      ensures Valid() && place == old(place) - toClose
    {
      Closed(clients, idle, place, toClose);
      place := place - toClose;
    }

    /** `idle.pop()`, for a greenlet that has purged the list before. */
    method TakeIdle(context: nat, ident: nat, native: nat) returns (client: nat)
      requires Valid() && (context, ident) in purged && purged[(context, ident)].native == native
      requires (context, ident) !in clients && ListAt(idle, (context, native)) != []
      modifies `idle, `clients, `connected, `failures, `place
      ensures ClosingKept(old(place), place)
      ensures Valid() && clients == old(clients)[(context, ident) := client]
      ensures client in built && built[client].context == context
      ensures (context, ident) in leases && leases[(context, ident)] <= built[client].generation
      ensures var s := old(idle)[(context, native)];
              client == s[|s| - 1].1 && ListAt(idle, (context, native)) == s[..|s| - 1]
    {
      var key, k := (context, ident), (context, native);
      var s := idle[k];
      client := s[|s| - 1].1;
      var shorter := idle[k := s[..|s| - 1]];
      TookIdle(clients, idle, place, built, purged, leases, generation, key, k, client, shorter);
      HandOut(key, client, shorter);
    }

    // The client leaves its idle list for the greenlet's own entry.
    method HandOut(key: Key, client: nat, shorter: map<Key, seq<Entry>>)
      requires Valid() && client in place && place[client] != Closing
      requires Placed(clients[key := client], shorter, place[client := Leased(key)]) && AllTagged(shorter, built)
      requires PurgesHold(purged, leases, generation, shorter)
      requires LeasesCurrent(clients[key := client], leases, generation, built)
      modifies `idle, `clients, `connected, `failures, `place
      ensures Valid() && ClosingKept(old(place), place)
      ensures clients == old(clients)[key := client] && idle == shorter
    {
      assert place[client := Leased(key)].Keys == place.Keys;
      idle := shorter;
      clients := clients[key := client];
      place := place[client := Leased(key)];
      connected, failures := connected + {key.0}, failures - {key.0};
    }

    /** `_new_docker_client` on the configured endpoint. */
    method Build(context: nat, ident: nat) returns (client: nat)
      requires Valid() && (context, ident) in purged && (context, ident) !in clients && context in configs
      modifies `built, `clients, `connected, `failures, `place, `serial
      ensures ClosingKept(old(place), place)
      ensures Valid() && clients == old(clients)[(context, ident) := client]
      ensures client !in old(built) && built == old(built)[client := Origin(context, generation, configs[context])]
    {
      var key := (context, ident);
      client := serial;
      ghost var origin := Origin(context, generation, configs[context]);
      assert PurgeHolds(purged, leases, generation, idle, key);
      LeasedNew(clients, idle, place, key, client);
      BuiltMore(clients, leases, generation, idle, history, configs, built, client, origin);
      LeaseTaken(clients, leases, generation, built[client := origin], key, client);
      serial := serial + 1;
      built := built[client := origin];
      clients := clients[key := client];
      place := place[client := Leased(key)];
      connected, failures := connected + {context}, failures - {context};
    }

    /** The second half of `_get_client`: the greenlet's own client, else an idle one, else a
        new one; never one older than the generation its call recorded. */
    method TakeClient(context: nat, ident: nat, native: nat, now: int, buildOk: bool) returns (client: Option<nat>)
      requires Valid() && (context, ident) in purged && purged[(context, ident)].native == native
      modifies `idle, `built, `clients, `connected, `failures, `place, `purged, `serial
      ensures ClosingKept(old(place), place)
      ensures Valid() && purged == old(purged) - {(context, ident)} && (context, ident) in leases
      ensures client.Some? ==>
                && clients == old(clients)[(context, ident) := client.value]
                && client.value in built && built[client.value].context == context
                && leases[(context, ident)] <= built[client.value].generation
      ensures client.None? ==> clients == old(clients) && place == old(place)
      ensures client.None? <==>
                && (context, ident) !in old(clients) && ListAt(old(idle), (context, native)) == []
                && (context !in configs || !buildOk)
      ensures (context, ident) in old(clients) ==> client == Some(old(clients)[(context, ident)])
      ensures (context, ident) !in old(clients) && ListAt(old(idle), (context, native)) != [] ==>
                var s := ListAt(old(idle), (context, native));
                client == Some(s[|s| - 1].1) && ListAt(idle, (context, native)) == s[..|s| - 1]
      ensures client.Some? && client.value !in old(built) ==>
                context in configs && built[client.value] == Origin(context, generation, configs[context])
    {
      var key := (context, ident);
      assert PurgeHolds(purged, leases, generation, idle, key) && LeaseCurrent(clients, leases, generation, built, key);
      if key in clients {
        client := Some(clients[key]);
      } else if ListAt(idle, (context, native)) != [] {
        var c := TakeIdle(context, ident, native);
        client := Some(c);
      } else if context !in configs {
        client := None;
      } else if !buildOk {
        failures := failures[context := now];
        client := None;
      } else {
        var c := Build(context, ident);
        client := Some(c);
      }
      PurgeEnds(purged, leases, generation, idle, key);
      purged := purged - {key};
    }

    /** `_release_client`: the client becomes idle only if no reload came between the recording
        of its call's generation and now. */
    method Release(context: nat, ident: nat, native: nat, recorded: nat) returns (toClose: set<nat>)
      requires Valid() && (context, ident) in leases && recorded <= leases[(context, ident)]
      modifies `clients, `idle, `place
      ensures ClosingKept(old(place), place)
      ensures Valid() && clients == old(clients) - {(context, ident)} && place.Keys == old(place.Keys)
      ensures forall c | c in toClose :: c in place && place[c] == Closing
      ensures (context, ident) in old(clients) ==>
                var c := old(clients)[(context, ident)];
                && c in place
                && place[c] == (if recorded == generation then Idle((context, native)) else Closing)
                && toClose == (if recorded == generation then {} else {c})
                && ListAt(idle, (context, native)) ==
                     ListAt(old(idle), (context, native)) + if recorded == generation then [(generation, c)] else []
    {
      var key := (context, ident);
      toClose := {};
      if key !in clients {
        assert clients - {key} == clients;
        return;
      }
      if recorded == generation {
        ReturnIdle(context, ident, native);
      } else {
        toClose := GiveUp(key);
      }
    }

    method ReturnIdle(context: nat, ident: nat, native: nat)
      requires Valid() && (context, ident) in clients && (context, ident) in leases
                 && generation <= leases[(context, ident)]
      modifies `clients, `idle, `place
      ensures ClosingKept(old(place), place)
      ensures Valid() && clients == old(clients) - {(context, ident)} && place.Keys == old(place.Keys)
      ensures var c := old(clients)[(context, ident)];
              && c in place && place[c] == Idle((context, native))
              && ListAt(idle, (context, native)) == ListAt(old(idle), (context, native)) + [(generation, c)]
    {
      var key, k := (context, ident), (context, native);
      var client := clients[key];
      var longer := ListAt(idle, k) + [(generation, client)];
      assert LeaseCurrent(clients, leases, generation, built, key) && ListTagged(idle, built, k)
               && LeasePlaced(clients, place, key);
      assert BuiltFrom(history, built, client);
      Returned(clients, idle, place, key, k, longer, client);
      Retagged(idle, built, k, idle[k := longer]);
      PurgesKeptUp(purged, leases, generation, idle, idle[k := longer], k);
      LeaseDropped(clients, leases, generation, built, key);
      idle := idle[k := longer];
      place := place[client := Idle(k)];
      clients := clients - {key};
    }

    method GiveUp(key: Key) returns (toClose: set<nat>)
      requires Valid() && key in clients
      modifies `clients, `place
      ensures ClosingKept(old(place), place)
      ensures Valid() && clients == old(clients) - {key} && place.Keys == old(place.Keys)
      ensures toClose == {old(clients)[key]} && old(clients)[key] in place
      ensures place == old(place)[old(clients)[key] := Closing]
    {
      LeaseEnds(clients, idle, place, key);
      LeaseDropped(clients, leases, generation, built, key);
      place := place[clients[key] := Closing];
      toClose := {clients[key]};
      clients := clients - {key};
    }

    /** `_idle_clients.pop`: the whole list of one thread and context. */
    method DropIdle(k: Key) returns (toClose: set<nat>)
      requires Valid()
      modifies `idle, `place
      ensures ClosingKept(old(place), place)
      ensures Valid() && place.Keys == old(place.Keys) && ListAt(idle, k) == []
      ensures forall c :: c in toClose <==> HasClient(ListAt(old(idle), k), c)
      ensures forall c | c in place :: place[c] == if c in toClose then Closing else old(place)[c]
      ensures forall c | c in toClose :: c in place
    {
      var s := ListAt(idle, k);
      toClose := set i | 0 <= i < |s| :: s[i].1;
      assert forall c :: c in toClose <==> HasClient(s, c);
      ghost var place2 := map c | c in place :: if c in toClose then Closing else place[c];
      assert ListPlaced(idle, place, k);
      ListShrinks(clients, idle, place, k, [], toClose, idle - {k}, place2);
      Retagged(idle, built, k, idle - {k});
      PurgesKeptUp(purged, leases, generation, idle, idle - {k}, k);
      place := place2;
      idle := idle - {k};
    }

    /** `_clear_client`: after a failure the greenlet's client and all idle clients of its
        thread for this context are given up. */
    method Clear(context: nat, ident: nat, native: nat) returns (toClose: set<nat>)
      requires Valid()
      modifies `clients, `idle, `place, `connected
      ensures ClosingKept(old(place), place)
      ensures Valid() && clients == old(clients) - {(context, ident)} && place.Keys == old(place.Keys)
      ensures forall c | c in toClose :: c in place && place[c] == Closing
      ensures ListAt(idle, (context, native)) == [] && context !in connected
      ensures (context, ident) in old(clients) ==> old(clients)[(context, ident)] in toClose
      ensures forall c | HasClient(ListAt(old(idle), (context, native)), c) :: c in toClose
    {
      var key := (context, ident);
      connected := connected - {context};
      var own: set<nat> := {};
      if key in clients {
        own := GiveUp(key);
      } else {
        assert clients - {key} == clients;
      }
      var rest := DropIdle((context, native));
      toClose := own + rest;
    }

    /** `load_contexts`: a changed endpoint map starts a new generation. */
    method LoadContexts(contexts: seq<(nat, Option<nat>)>)
      requires Valid()
      modifies `configs, `generation, `connected, `failures, `history
      ensures Valid() && old(history) <= history && configs == Resolved(contexts)
      ensures generation == old(generation) + if configs == old(configs) then 0 else 1
      ensures forall x :: x in connected <==> x in old(connected) && Same(old(configs), configs, x)
      ensures forall x :: x in failures <==> x in old(failures) && Same(old(configs), configs, x)
      ensures forall x | x in failures :: failures[x] == old(failures)[x]
    {
      var loaded := Resolve(contexts);
      connected := set x | x in connected && Same(configs, loaded, x);
      failures := map x | x in failures && Same(configs, loaded, x) :: failures[x];
      Reconfigure(loaded);
    }

    method Reconfigure(loaded: map<nat, nat>)
      requires Valid()
      modifies `configs, `generation, `history
      ensures Valid() && old(history) <= history && configs == loaded
      ensures generation == old(generation) + if loaded == old(configs) then 0 else 1
    {
      if loaded != configs {
        Reloaded(clients, leases, generation, idle, history, configs, built, purged, loaded);
        generation := generation + 1;
        history := history + [loaded];
      }
      configs := loaded;
    }
  }

  // Both endpoint maps give context x the same endpoint.
  predicate Same(a: map<nat, nat>, b: map<nat, nat>, x: nat) {
    x in a && x in b && a[x] == b[x]
  }

  /** `_get_client`: both halves, with other greenlets and reloads in between. */
  method GetClient(m: DockerHostManager, context: nat, ident: nat, native: nat, now: int, buildOk: bool)
    returns (client: Option<nat>)
    requires m.Valid() && (context, ident) in m.leases
    modifies m
    ensures m.Valid() && old(m.history) <= m.history && (context, ident) in m.leases && (context, ident) !in m.purged
    ensures m.leases[(context, ident)] == old(m.leases)[(context, ident)]
    ensures client.Some? ==>
              && (context, ident) in m.clients && m.clients[(context, ident)] == client.value
              && client.value in m.built && m.built[client.value].context == context
              && m.leases[(context, ident)] <= m.built[client.value].generation
  {
    var stale := m.PurgeIdle(context, ident, native);
    OthersWork(m, (context, ident), stale);
    m.FinishClose(stale);
    OthersWork(m, (context, ident), {});
    client := m.TakeClient(context, ident, native, now, buildOk);
  }

  // The client was built from an endpoint map in force at generation g or later.
  ghost predicate NoOlderThan(history: seq<map<nat, nat>>, built: map<nat, Origin>, c: nat, context: nat, g: nat) {
    && c in built && built[c].context == context && g <= built[c].generation < |history|
    && context in history[built[c].generation] && history[built[c].generation][context] == built[c].url
  }

  /** `_call`: whatever other greenlets and reloads do, an operation never talks to an endpoint
      older than the configuration in force when its outermost call began.  Such a call runs
      its operation in the greenlet `pooled` once the pool has a place for it, and leaves no
      lease behind; without patched threads that is the caller itself.  A call nested in it
      uses the client of the outer one and leaves the lease. */
  method Call(m: DockerHostManager, context: nat, ident: nat, pooled: nat, native: nat, now: int, cooldown: int,
              buildOk: bool)
    returns (used: Option<nat>)
    requires m.Valid() && (context, ident) !in m.purged && (context, pooled) !in m.purged
    requires pooled != ident ==> (context, pooled) !in m.clients
    modifies m
    ensures m.Valid() && old(m.history) <= m.history
    ensures (context, ident) !in old(m.clients) ==>
              && (context, pooled) !in m.clients && (context, pooled) !in m.purged
              && (used.Some? ==> NoOlderThan(m.history, m.built, used.value, context, old(m.generation)))
    ensures (context, ident) in old(m.clients) ==>
              && (context, ident) in old(m.leases) && SameAt(old(m.leases), m.leases, (context, ident))
              && (context, ident) !in m.purged
              && (used.Some? ==> NoOlderThan(m.history, m.built, used.value, context, old(m.leases)[(context, ident)]))
    ensures old(m.CoolingDown(context, now, cooldown)) ==> used.None? && m.leases == old(m.leases)
  {
    if m.CoolingDown(context, now, cooldown) {
      assert LeaseCurrent(m.clients, m.leases, m.generation, m.built, (context, ident));
      return None;
    }
    if (context, ident) in m.clients {
      used := CallNested(m, context, ident, native, now, buildOk);
    } else {
      OthersWork(m, (context, pooled), {});
      used := CallLeased(m, context, pooled, native, now, buildOk);
    }
  }

  // A call within a call: the operation runs on the client the greenlet leases already.
  method CallNested(m: DockerHostManager, context: nat, ident: nat, native: nat, now: int, buildOk: bool)
    returns (used: Option<nat>)
    requires m.Valid() && (context, ident) !in m.purged && (context, ident) in m.clients
    modifies m
    ensures m.Valid() && old(m.history) <= m.history && (context, ident) !in m.purged
    ensures (context, ident) in old(m.leases) && SameAt(old(m.leases), m.leases, (context, ident))
    ensures used.Some? ==> NoOlderThan(m.history, m.built, used.value, context, old(m.leases)[(context, ident)])
  {
    assert LeaseCurrent(m.clients, m.leases, m.generation, m.built, (context, ident));
    used := GetClient(m, context, ident, native, now, buildOk);
    if used.Some? {
      assert BuiltFrom(m.history, m.built, used.value);
    }
    ClearOnFailure(m, context, ident, native);
  }

  // `leased_call`, in the greenlet that the operation runs in.
  method CallLeased(m: DockerHostManager, context: nat, ident: nat, native: nat, now: int, buildOk: bool)
    returns (used: Option<nat>)
    requires m.Valid() && (context, ident) !in m.purged && (context, ident) !in m.clients
    modifies m
    ensures m.Valid() && old(m.history) <= m.history
    ensures used.Some? ==> NoOlderThan(m.history, m.built, used.value, context, old(m.generation))
    ensures (context, ident) !in m.clients && (context, ident) !in m.purged
  {
    var recorded := m.BeginLease(context, ident);
    OthersWork(m, (context, ident), {});
    used := GetClient(m, context, ident, native, now, buildOk);
    if used.Some? {
      assert BuiltFrom(m.history, m.built, used.value);
    }
    Finish(m, context, ident, native, recorded);
  }

  // After the operation: a failure clears the greenlet's clients, and the lease is released.
  method Finish(m: DockerHostManager, context: nat, ident: nat, native: nat, recorded: nat)
    requires m.Valid() && (context, ident) in m.leases && recorded <= m.leases[(context, ident)]
               && (context, ident) !in m.purged
    modifies m`clients, m`idle, m`place, m`connected
    ensures m.Valid() && (context, ident) !in m.clients
  {
    ClearOnFailure(m, context, ident, native);
    var rest := m.Release(context, ident, native, recorded);
    m.FinishClose(rest);
  }

  method ClearOnFailure(m: DockerHostManager, context: nat, ident: nat, native: nat)
    requires m.Valid()
    modifies m`clients, m`idle, m`place, m`connected
    ensures m.Valid()
  {
    var failed: bool := *;
    if failed {
      var cleared := m.Clear(context, ident, native);
      m.FinishClose(cleared);
    }
  }

  /** Any number of steps of other greenlets, reloads included: what this greenlet leases, has
      recorded and is about to close stays as it is. */
  method OthersWork(m: DockerHostManager, key: Key, mine: set<nat>)
    requires m.Valid() && forall c | c in mine :: c in m.place && m.place[c] == Closing
    modifies m
    ensures m.Valid() && old(m.history) <= m.history
    ensures SameAt(old(m.leases), m.leases, key) && SameAt(old(m.purged), m.purged, key)
              && SameAt(old(m.clients), m.clients, key)
    ensures forall c | c in mine :: c in m.place && m.place[c] == Closing
  {
    var steps: nat :| true;
    while steps > 0
      invariant m.Valid() && old(m.history) <= m.history
      invariant SameAt(old(m.leases), m.leases, key) && SameAt(old(m.purged), m.purged, key)
                  && SameAt(old(m.clients), m.clients, key)
      invariant forall c | c in mine :: c in m.place && m.place[c] == Closing
    {
      if * {
        var contexts: seq<(nat, Option<nat>)> := *;
        m.LoadContexts(contexts);
      } else {
        OtherStep(m, key, mine);
      }
      steps := steps - 1;
    }
  }

  ghost predicate SameAt<T(!new)>(a: map<Key, T>, b: map<Key, T>, k: Key) {
    (k in a <==> k in b) && (k in a ==> a[k] == b[k])
  }

  method OtherStep(m: DockerHostManager, key: Key, mine: set<nat>)
    requires m.Valid() && forall c | c in mine :: c in m.place && m.place[c] == Closing
    modifies m
    ensures m.Valid() && m.history == old(m.history)
    ensures SameAt(old(m.leases), m.leases, key) && SameAt(old(m.purged), m.purged, key)
              && SameAt(old(m.clients), m.clients, key)
    ensures forall c | c in mine :: c in m.place && m.place[c] == Closing
  {
    var context: nat, ident: nat, native: nat, now: int, n: nat := *, *, *, *, *;
    var other := (context, ident);
    if other == key {
      return;
    }
    if * {
      if other !in m.purged && other !in m.clients {
        var recorded := m.BeginLease(context, ident);
      }
    } else if * {
      if other in m.leases {
        var stale := m.PurgeIdle(context, ident, native);
      }
    } else if * {
      if other in m.purged {
        var buildOk: bool := *;
        var client := m.TakeClient(context, ident, m.purged[other].native, now, buildOk);
      }
    } else if * {
      if other in m.leases && n <= m.leases[other] {
        var stale := m.Release(context, ident, native, n);
      }
    } else {
      var stale := m.Clear(context, ident, native);
    }
  }

  // A purge, as seen by the tables.
  lemma {:induction false} Purged(clients: map<Key, nat>, idle: map<Key, seq<Entry>>, place: map<nat, Place>,
                                  built: map<nat, Origin>, k: Key, g: nat, idle2: map<Key, seq<Entry>>,
                                  place2: map<nat, Place>)
    requires Placed(clients, idle, place) && AllTagged(idle, built)
    requires idle2 == if k in idle then idle[k := Keep(idle[k], g)] else idle
    requires place2 == map c | c in place :: if c in Discard(ListAt(idle, k), g) then Closing else place[c]
    ensures Placed(clients, idle2, place2) && AllTagged(idle2, built)
    ensures forall i | 0 <= i < |ListAt(idle2, k)| :: ListAt(idle2, k)[i] in ListAt(idle, k)
    ensures NotBelow(ListAt(idle2, k), g)
    ensures forall c | c in Discard(ListAt(idle, k), g) :: c in place
  {
    var s := ListAt(idle, k);
    assert ListPlaced(idle, place, k) && ListTagged(idle, built, k);
    KeptEntries(s, g);
    forall c: nat
      ensures HasClient(s, c) <==> HasClient(Keep(s, g), c) || c in Discard(s, g)
      ensures !(HasClient(Keep(s, g), c) && c in Discard(s, g))
    {
      KeptOrDiscarded(s, g, c);
    }
    ListShrinks(clients, idle, place, k, Keep(s, g), Discard(s, g), idle2, place2);
    Retagged(idle, built, k, idle2);
  }

  // After a purge the last idle client is not older than the call's recorded generation.
  lemma {:induction false} LastUsable(idle: map<Key, seq<Entry>>, built: map<nat, Origin>, purged: map<Key, Purge>,
                                      leases: map<Key, nat>, generation: nat, key: Key, k: Key)
    requires AllTagged(idle, built) && PurgesHold(purged, leases, generation, idle) && k in idle && idle[k] != []
    requires key in purged && k == (key.0, purged[key].native)
    ensures var c := idle[k][|idle[k]| - 1].1;
            c in built && built[c].context == k.0 && key in leases && leases[key] <= built[c].generation
  {
    assert PurgeHolds(purged, leases, generation, idle, key) && ListTagged(idle, built, k);
  }

  // Taking the last idle client of k, as seen by the tables.
  lemma {:induction false} TookIdle(clients: map<Key, nat>, idle: map<Key, seq<Entry>>, place: map<nat, Place>,
                                    built: map<nat, Origin>, purged: map<Key, Purge>, leases: map<Key, nat>,
                                    generation: nat, key: Key, k: Key, c: nat, idle2: map<Key, seq<Entry>>)
    requires Placed(clients, idle, place) && AllTagged(idle, built) && PurgesHold(purged, leases, generation, idle)
    requires LeasesCurrent(clients, leases, generation, built) && key !in clients && k in idle && idle[k] != []
    requires key in purged && k == (key.0, purged[key].native) && c == idle[k][|idle[k]| - 1].1
    requires idle2 == idle[k := idle[k][..|idle[k]| - 1]]
    ensures c in place && place[c] == Idle(k) && Placed(clients[key := c], idle2, place[c := Leased(key)])
    ensures AllTagged(idle2, built) && PurgesHold(purged, leases, generation, idle2)
    ensures LeasesCurrent(clients[key := c], leases, generation, built)
    ensures c in built && built[c].context == k.0 && key in leases && leases[key] <= built[c].generation
  {
    LastUsable(idle, built, purged, leases, generation, key, k);
    Popped(clients, idle, place, key, k, c);
    ListPopped(idle, built, purged, leases, generation, k);
    LeaseTaken(clients, leases, generation, built, key, c);
  }

  lemma {:induction false} ListPopped(idle: map<Key, seq<Entry>>, built: map<nat, Origin>, purged: map<Key, Purge>,
                                      leases: map<Key, nat>, generation: nat, k: Key)
    requires AllTagged(idle, built) && PurgesHold(purged, leases, generation, idle) && k in idle && idle[k] != []
    ensures AllTagged(idle[k := idle[k][..|idle[k]| - 1]], built)
    ensures PurgesHold(purged, leases, generation, idle[k := idle[k][..|idle[k]| - 1]])
  {
    var idle2 := idle[k := idle[k][..|idle[k]| - 1]];
    assert ListTagged(idle, built, k);
    Retagged(idle, built, k, idle2);
    PurgesKeptUp(purged, leases, generation, idle, idle2, k);
  }
}
