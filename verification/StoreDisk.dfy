/** The artifact directory of src/files/store.py as a value, and the single file
    operations that change it.  Every operation of the store is a sequence of such
    writes; `Allowed` says which ones the store may issue in which situation, and
    `WriteKeepsInv` shows that each of them, by itself, keeps the invariant.  So the
    invariant holds at every instant, also in the middle of an operation. */
module StoreDisk {
  import opened Support

  datatype Kind = User | Team
  datatype Owner = Owner(kind: Kind, id: nat)
  datatype Recipe = Recipe(version: string, image: string, outputs: seq<string>,
                           timeoutSeconds: nat, maxOutputBytes: nat)

  // A job key is the hash of these four values; the hash is taken to be injective.
  datatype Key = Key(challenge: int, owner: Owner, fingerprint: string, recipe: Recipe)

  type Generation = nat

  datatype JobState = Queued | Running | Ready | Failed
  datatype Demand = Background | Foreground(order: nat)
  datatype Fault = NoFault | ConfigurationChanged | Message(text: string)

  datatype Job = Job(state: JobState, attempts: nat, nextAttempt: int, created: int, updated: int,
                     demand: Demand, generation: Option<Generation>, fault: Fault, obsolete: bool)

  // `generation` records which claim produced the files; it is not stored on disk.
  datatype Artifact = Artifact(generation: Generation, files: set<string>)

  datatype Config = Config(maxPending: nat, maxJobs: nat)

  // `modes` is the sequence of owner-mode files written so far (the last one is on
  // disk, its position is its stat stamp), `drawn` the generation tokens drawn so
  // far, and `issued` the last request order given to a job.
  datatype Disk = Disk(config: Config,
                       jobs: map<Key, Job>,
                       artifacts: map<Key, Artifact>,
                       recipes: map<int, Recipe>,
                       demand: nat,
                       modes: seq<Kind>,
                       drawn: set<Generation>,
                       issued: nat)

  predicate Pending(j: Job) {
    j.state == Queued || j.state == Running
  }

  function PendingKeys(d: Disk): set<Key> {
    set k | k in d.jobs && Pending(d.jobs[k])
  }

  function BackgroundKeys(d: Disk): set<Key> {
    set k | k in d.jobs && Pending(d.jobs[k]) && d.jobs[k].demand == Background
  }

  function RunningKeys(d: Disk): set<Key> {
    set k | k in d.jobs && d.jobs[k].state == Running
  }

  // The recipe a job was made for is the one configured now.
  predicate Current(d: Disk, k: Key) {
    k.challenge in d.recipes && d.recipes[k.challenge] == k.recipe
  }

  predicate SameIdentity(a: Key, b: Key) {
    a.challenge == b.challenge && a.owner == b.owner
  }

  predicate ModeIs(d: Disk, kind: Kind) {
    d.modes != [] && d.modes[|d.modes| - 1] == kind
  }

  function PendingLimit(d: Disk, demand: Demand): nat {
    if demand == Background then d.config.maxPending / 2 else d.config.maxPending
  }

  function Names(files: seq<string>): set<string> {
    set f | f in files
  }

  function Backoff(attempts: nat): int {
    5 * Power2(attempts)
  }

  function Power2(n: nat): nat {
    if n == 0 then 1 else 2 * Power2(n - 1)
  }

  // ----- single writes

  datatype Write =
    | Enqueue(key: Key, job: Job)
    | Promote(key: Key, order: nat)
    | Requeue(key: Key, now: int)
    | Claim(key: Key, generation: Generation, now: int)
    | Refuse(key: Key, now: int)
    | Publish(key: Key, now: int)
    | Fail(key: Key, text: string, now: int)
    | Retire(key: Key, mark: bool, now: int)
    | Unlink(key: Key)
    | RemoveFile(key: Key, name: string)
    | RemoveDirectory(key: Key)
    | Install(key: Key, files: set<string>)
    | PutRecipe(challenge: int, recipe: Recipe)
    | DropRecipe(challenge: int)
    | PutDemand(order: nat)
    | PutMode(kind: Kind)

  predicate CountsAllow(d: Disk, k: Key, job: Job) {
    && |PendingKeys(d)| < PendingLimit(d, job.demand)
    && (k !in d.jobs && d.config.maxJobs > 0 ==> |d.jobs| < d.config.maxJobs)
  }

  predicate FreshlyQueued(d: Disk, k: Key, job: Job) {
    && job.state == Queued && job.attempts == 0 && job.nextAttempt == 0
    && job.fault == NoFault && !job.obsolete
    && (job.generation.Some? ==> job.generation.value in d.drawn)
    && (job.demand.Foreground? ==> job.demand.order == d.demand && d.issued < d.demand)
  }

  // No other job stands for the identity, and the one of this key is not pending.
  predicate Unrivalled(d: Disk, k: Key) {
    && (k in d.jobs ==> !Pending(d.jobs[k]))
    && (forall j | j in d.jobs && SameIdentity(j, k) && j != k :: d.jobs[j].obsolete)
  }

  predicate Retriable(d: Disk, k: Key) {
    && k in d.jobs && d.jobs[k].state == Failed && d.jobs[k].attempts >= 3
    && !d.jobs[k].obsolete && d.jobs[k].fault != ConfigurationChanged
  }

  predicate Allowed(d: Disk, w: Write) {
    match w
    case Enqueue(k, job) =>
      && FreshlyQueued(d, k, job) && CountsAllow(d, k, job)
      && Current(d, k) && ModeIs(d, k.owner.kind) && Unrivalled(d, k)
    case Promote(k, order) =>
      k in d.jobs && Pending(d.jobs[k]) && d.jobs[k].demand == Background && order == d.demand && d.issued < order
    case Requeue(k, _) =>
      Retriable(d, k) && |PendingKeys(d)| < PendingLimit(d, d.jobs[k].demand)
    case Claim(k, g, _) =>
      k in d.jobs && d.jobs[k].state == Queued && Current(d, k) && g !in d.drawn
    case Refuse(k, _) =>
      k in d.jobs && d.jobs[k].state == Queued && !Current(d, k)
    case Publish(k, _) =>
      && k in d.jobs && d.jobs[k].state == Running && Current(d, k)
      && k in d.artifacts && Some(d.artifacts[k].generation) == d.jobs[k].generation
      && d.artifacts[k].files == Names(k.recipe.outputs)
    case Fail(k, _, _) =>
      k in d.jobs && d.jobs[k].state == Running
    case Retire(k, _, _) =>
      k in d.jobs && d.jobs[k].state == Running
    case Unlink(k) =>
      k in d.jobs && d.jobs[k].state != Running && k !in d.artifacts
    case RemoveFile(k, name) =>
      k in d.artifacts && name in d.artifacts[k].files
    case RemoveDirectory(k) =>
      k in d.artifacts && d.artifacts[k].files == {}
    case Install(k, files) =>
      && k in d.jobs && d.jobs[k].state == Running && d.jobs[k].generation.Some?
      && k !in d.artifacts
    case PutRecipe(_, _) => true
    case DropRecipe(c) => c in d.recipes
    case PutDemand(order) => d.demand < order
    case PutMode(kind) =>
      forall k | k in d.jobs && !d.jobs[k].obsolete :: k.owner.kind == kind
  }

  function Claimed(j: Job, g: Generation, now: int): Job {
    j.(state := Running, attempts := j.attempts + 1, updated := now, generation := Some(g))
  }

  function Refused(j: Job, now: int): Job {
    j.(state := Failed, fault := ConfigurationChanged, updated := now)
  }

  function Retired(j: Job, mark: bool, now: int): Job {
    j.(state := Failed, fault := ConfigurationChanged, obsolete := j.obsolete || mark, updated := now)
  }

  function Faulted(d: Disk, k: Key, j: Job, text: string, now: int): Job {
    j.(state := if j.attempts >= 3 || !Current(d, k) then Failed else Queued,
       fault := if Current(d, k) then Message(text) else ConfigurationChanged,
       updated := now,
       nextAttempt := now + Backoff(j.attempts))
  }

  function Requeued(j: Job, now: int): Job {
    j.(state := Queued, attempts := 0, nextAttempt := 0, fault := NoFault, updated := now)
  }

  predicate WritesJob(w: Write) {
    w.Enqueue? || w.Promote? || w.Requeue? || w.Claim? || w.Refuse? || w.Publish? || w.Fail? || w.Retire?
  }

  // The job document a write puts in place.
  function Written(d: Disk, w: Write): Job
    requires Allowed(d, w) && WritesJob(w)
  {
    match w
    case Enqueue(k, job) => job
    case Promote(k, order) => d.jobs[k].(demand := Foreground(order))
    case Requeue(k, now) => Requeued(d.jobs[k], now)
    case Claim(k, g, now) => Claimed(d.jobs[k], g, now)
    case Refuse(k, now) => Refused(d.jobs[k], now)
    case Publish(k, now) => d.jobs[k].(state := Ready, updated := now, fault := NoFault)
    case Fail(k, text, now) => Faulted(d, k, d.jobs[k], text, now)
    case Retire(k, mark, now) => Retired(d.jobs[k], mark, now)
  }

  function Apply(d: Disk, w: Write): Disk
    requires Allowed(d, w)
  {
    if WritesJob(w) then
      d.(jobs := d.jobs[w.key := Written(d, w)],
         drawn := if w.Claim? then d.drawn + {w.generation} else d.drawn,
         issued := if (w.Enqueue? || w.Promote?) && Written(d, w).demand.Foreground? then Written(d, w).demand.order
                   else d.issued)
    else
      match w
      case Unlink(k) => d.(jobs := d.jobs - {k})
      case RemoveFile(k, name) =>
        d.(artifacts := d.artifacts[k := d.artifacts[k].(files := d.artifacts[k].files - {name})])
      case RemoveDirectory(k) => d.(artifacts := d.artifacts - {k})
      case Install(k, files) =>
        d.(artifacts := d.artifacts[k := Artifact(d.jobs[k].generation.value, files)])
      case PutRecipe(c, r) => d.(recipes := d.recipes[c := r])
      case DropRecipe(c) => d.(recipes := d.recipes - {c})
      case PutDemand(order) => d.(demand := order)
      case PutMode(kind) => d.(modes := d.modes + [kind])
  }

  // ----- the invariant

  // At most one job per identity is not flagged obsolete; an obsolete job has failed.
  ghost predicate OneJobPerIdentity(d: Disk) {
    && (forall j, k | j in d.jobs && k in d.jobs && SameIdentity(j, k) && !d.jobs[j].obsolete && !d.jobs[k].obsolete ::
          j == k)
    && (forall k | k in d.jobs && d.jobs[k].obsolete ::
          d.jobs[k].state == Failed && d.jobs[k].fault == ConfigurationChanged)
  }

  // While the owner-mode file names a kind, every job not flagged obsolete has an owner of that kind.
  ghost predicate OwnersMatchMode(d: Disk) {
    forall k | k in d.jobs && !d.jobs[k].obsolete :: ModeIs(d, k.owner.kind)
  }

  ghost predicate AttemptsBounded(d: Disk) {
    forall k | k in d.jobs ::
      && (d.jobs[k].state == Queued ==> d.jobs[k].attempts <= 2)
      && (d.jobs[k].state == Running ==> 1 <= d.jobs[k].attempts <= 3)
      && d.jobs[k].attempts <= 3
  }

  // Files belong to a job, and to the generation a ready job names.
  ghost predicate Provenance(d: Disk) {
    && (forall k | k in d.jobs && d.jobs[k].generation.Some? :: d.jobs[k].generation.value in d.drawn)
    && (forall k | k in d.jobs && d.jobs[k].state in {Running, Ready} :: d.jobs[k].generation.Some?)
    && (forall k | k in d.artifacts :: k in d.jobs)
    && (forall k | k in d.artifacts && d.jobs[k].state == Ready ::
          Some(d.artifacts[k].generation) == d.jobs[k].generation)
  }

  ghost predicate OrdersDistinct(d: Disk) {
    && d.issued <= d.demand
    && (forall k | k in d.jobs && d.jobs[k].demand.Foreground? :: d.jobs[k].demand.order <= d.issued)
    && (forall j, k | j in d.jobs && k in d.jobs && d.jobs[j].demand.Foreground?
                      && d.jobs[j].demand == d.jobs[k].demand :: j == k)
  }

  ghost predicate QueueBounded(d: Disk) {
    && |PendingKeys(d)| <= d.config.maxPending
    && |BackgroundKeys(d)| <= d.config.maxPending / 2
    && (d.config.maxJobs > 0 ==> |d.jobs| <= d.config.maxJobs)
  }

  ghost predicate Inv(d: Disk) {
    && OneJobPerIdentity(d)
    && OwnersMatchMode(d)
    && AttemptsBounded(d)
    && Provenance(d)
    && OrdersDistinct(d)
    && QueueBounded(d)
  }

  function Empty(config: Config): Disk {
    Disk(config, map[], map[], map[], 0, [], {}, 0)
  }

  lemma {:induction false} EmptyDisk(config: Config)
    ensures Inv(Empty(config))
  {
  }

  // What every written job document satisfies.
  lemma {:induction false} WrittenJob(d: Disk, w: Write)
    requires Inv(d) && Allowed(d, w) && WritesJob(w)
    ensures var job := Written(d, w);
            && (job.obsolete ==> job.state == Failed && job.fault == ConfigurationChanged)
            && (w.key in d.jobs && d.jobs[w.key].obsolete && !job.obsolete ==> w.Enqueue?)
            && (w.key !in d.jobs ==> w.Enqueue?)
            && (job.state == Queued ==> job.attempts <= 2)
            && (job.state == Running ==> 1 <= job.attempts <= 3)
            && job.attempts <= 3
            && (Pending(job) ==> w.Enqueue? || w.Requeue? || Pending(d.jobs[w.key]))
            && (Pending(job) && job.demand == Background && !w.Enqueue? ==> d.jobs[w.key].demand == Background)
            && (job.state in {Running, Ready} ==> job.generation.Some?)
            && (job.state == Ready ==> w.Publish?)
            && (job.generation.Some? ==> job.generation.value in Apply(d, w).drawn)
            && (job.demand.Foreground? && !w.Enqueue? && !w.Promote? ==> job.demand == d.jobs[w.key].demand)
  {
  }

  lemma {:induction false} WriteKeepsIdentity(d: Disk, w: Write)
    requires Inv(d) && Allowed(d, w)
    ensures OneJobPerIdentity(Apply(d, w))
  {
    if WritesJob(w) {
      WrittenJob(d, w);
      IdentityOfJob(d, Apply(d, w), w.key, Written(d, w));
    }
  }

  lemma {:induction false} IdentityOfJob(d: Disk, e: Disk, k: Key, job: Job)
    requires OneJobPerIdentity(d) && e.jobs == d.jobs[k := job]
    requires job.obsolete ==> job.state == Failed && job.fault == ConfigurationChanged
    requires (k !in d.jobs || d.jobs[k].obsolete) && !job.obsolete ==>
               forall j | j in d.jobs && SameIdentity(j, k) && j != k :: d.jobs[j].obsolete
    ensures OneJobPerIdentity(e)
  {
  }

  lemma {:induction false} WriteKeepsMode(d: Disk, w: Write)
    requires Inv(d) && Allowed(d, w)
    ensures OwnersMatchMode(Apply(d, w))
  {
    if WritesJob(w) {
      WrittenJob(d, w);
    }
  }

  lemma {:induction false} WriteKeepsAttempts(d: Disk, w: Write)
    requires Inv(d) && Allowed(d, w)
    ensures AttemptsBounded(Apply(d, w))
  {
    if WritesJob(w) {
      WrittenJob(d, w);
    }
  }

  lemma {:induction false} WriteKeepsProvenance(d: Disk, w: Write)
    requires Inv(d) && Allowed(d, w)
    ensures Provenance(Apply(d, w))
  {
    if WritesJob(w) {
      WrittenJob(d, w);
      ProvenanceOfJob(d, Apply(d, w), w.key, Written(d, w));
    } else {
      ProvenanceOfFiles(d, w);
    }
  }

  lemma {:induction false} ProvenanceOfFiles(d: Disk, w: Write)
    requires Provenance(d) && Allowed(d, w) && !WritesJob(w)
    ensures Provenance(Apply(d, w))
  {
  }

  lemma {:induction false} ProvenanceOfJob(d: Disk, e: Disk, k: Key, job: Job)
    requires Provenance(d)
    requires e.jobs == d.jobs[k := job] && e.artifacts == d.artifacts && d.drawn <= e.drawn
    requires job.generation.Some? ==> job.generation.value in e.drawn
    requires job.state in {Running, Ready} ==> job.generation.Some?
    requires job.state == Ready && k in d.artifacts ==> Some(d.artifacts[k].generation) == job.generation
    ensures Provenance(e)
  {
  }

  lemma {:induction false} WriteKeepsOrders(d: Disk, w: Write)
    requires Inv(d) && Allowed(d, w)
    ensures OrdersDistinct(Apply(d, w))
  {
    if WritesJob(w) {
      WrittenJob(d, w);
      OrdersOfJob(d, Apply(d, w), w.key, Written(d, w));
    }
  }

  lemma {:induction false} OrdersOfJob(d: Disk, e: Disk, k: Key, job: Job)
    requires OrdersDistinct(d) && e.jobs == d.jobs[k := job] && e.demand == d.demand
    requires d.issued <= e.issued <= e.demand
    requires job.demand.Foreground? ==>
               || (k in d.jobs && job.demand == d.jobs[k].demand)
               || d.issued < job.demand.order == e.issued
    ensures OrdersDistinct(e)
  {
  }

  lemma {:induction false} WriteKeepsBounds(d: Disk, w: Write)
    requires Inv(d) && Allowed(d, w)
    ensures QueueBounded(Apply(d, w))
  {
    JobCount(d, w);
    if WritesJob(w) {
      WrittenJob(d, w);
      PendingOfJob(d, Apply(d, w), w.key, Written(d, w));
    } else {
      SubsetSize(PendingKeys(Apply(d, w)), PendingKeys(d));
      SubsetSize(BackgroundKeys(Apply(d, w)), BackgroundKeys(d));
    }
  }

  lemma {:induction false} PendingOfJob(d: Disk, e: Disk, k: Key, job: Job)
    requires |PendingKeys(d)| <= d.config.maxPending && |BackgroundKeys(d)| <= d.config.maxPending / 2
    requires e.jobs == d.jobs[k := job] && e.config == d.config
    requires Pending(job) ==>
               || |PendingKeys(d)| < PendingLimit(d, job.demand)
               || (k in d.jobs && Pending(d.jobs[k]) && (job.demand == Background ==> d.jobs[k].demand == Background))
    ensures |PendingKeys(e)| <= d.config.maxPending
    ensures |BackgroundKeys(e)| <= d.config.maxPending / 2
  {
    if Pending(job)
        && !(k in d.jobs && Pending(d.jobs[k]) && (job.demand == Background ==> d.jobs[k].demand == Background)) {
      SubsetSize(PendingKeys(e), PendingKeys(d) + {k});
      if job.demand == Background {
        SubsetSize(BackgroundKeys(e), PendingKeys(e));
      } else {
        SubsetSize(BackgroundKeys(e), BackgroundKeys(d));
      }
    } else {
      SubsetSize(PendingKeys(e), PendingKeys(d));
      SubsetSize(BackgroundKeys(e), BackgroundKeys(d));
    }
  }

  lemma {:induction false} JobCount(d: Disk, w: Write)
    requires Allowed(d, w)
    ensures |Apply(d, w).jobs| == if w.Enqueue? && w.key !in d.jobs then |d.jobs| + 1
                                  else if w.Unlink? then |d.jobs| - 1 else |d.jobs|
  {
    if WritesJob(w) {
      PutSize(d.jobs, w.key, Written(d, w));
    } else if w.Unlink? {
      DropSize(d.jobs, w.key);
    }
  }

  lemma {:induction false} PutSize(jobs: map<Key, Job>, k: Key, job: Job)
    ensures |jobs[k := job]| == if k in jobs then |jobs| else |jobs| + 1
  {
    assert |jobs[k := job]| == |jobs[k := job].Keys| && |jobs| == |jobs.Keys|;
    assert jobs[k := job].Keys == jobs.Keys + {k};
  }

  lemma {:induction false} DropSize(jobs: map<Key, Job>, k: Key)
    requires k in jobs
    ensures |jobs - {k}| == |jobs| - 1
  {
    assert |jobs - {k}| == |(jobs - {k}).Keys| && |jobs| == |jobs.Keys|;
    assert (jobs - {k}).Keys == jobs.Keys - {k};
  }

  /** Every single write keeps the whole invariant. */
  lemma {:induction false} WriteKeepsInv(d: Disk, w: Write)
    requires Inv(d) && Allowed(d, w)
    ensures Inv(Apply(d, w))
  {
    WriteKeepsIdentity(d, w);
    WriteKeepsMode(d, w);
    WriteKeepsAttempts(d, w);
    WriteKeepsProvenance(d, w);
    WriteKeepsOrders(d, w);
    WriteKeepsBounds(d, w);
  }
}
