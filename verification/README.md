# Instance coordination and artifact storage, verified

A Dafny model of two protocols of a CTFd container plugin and of the mechanisms they rest on,
with proofs about every run of them. Nothing here runs the plugin itself.

**The instance coordinator** reserves, runs, renews and removes challenge instances kept as
database rows. `CoordinationTables` holds the tables as one value and every SQL transaction as
one guarded atomic event (its guard is the WHERE clause plus the unique and foreign key
constraints); `EventKeepsInv` shows that each event keeps the invariant. `CoordinationRuns`
proves what holds over whole runs, whoever issued the events: admission bounds, version
discipline, token fencing, endpoint changes, and that no row gets stuck. `Placement` chooses
quota slot, context and create slot on a snapshot, and proves how fair weighted placement is.
`Coordinator` is the class whose methods compute each transaction step by step and are proved
equal to the events; `Others` stands for everything other processes commit between two steps.
`Provisioning` and `Maintenance` are the flows on top: creating an instance and its failure
path, the context update, cleanup, the maintenance pass and the orphan reaper.
`MaintenanceJob` spaces out the runs of a job. `Scenarios` holds concrete runs that attain a bound
or show why a condition is needed.

**The artifact store** is a job queue kept as files in a directory. `StoreDisk` holds the
directory as a value and every single file operation as a write that is allowed only in certain
situations; `WriteKeepsInv` shows that each write by itself keeps the invariant, so it holds
also in the middle of an operation. `StoreHistory` proves what holds over whole runs (fencing,
the lock-free read, request orders, bounded attempts); `StoreSections` says what each locked
section does to the directory as a whole; `ArtifactStore` has the class whose methods do it
write by write. `Worker` is the worker process with its recovery sweep.

**Smaller mechanisms**: `Preparation` is the resumable round robin over (challenge, owner)
pairs, over fixed sets and over sets that change under way; `Framing` and `StreamReader` are the
Docker attach stream (the "Stream format" section of the attach endpoint in the Docker Engine
API), its demultiplexer and the bounded reader; `ClientPool` is the client pool with its
configuration generations. `Support` has finite sums, the pigeonhole principle and sorting.

Times are integers, scores are exact fractions, random tokens and ids are new ones, and a job
key is the four values it hashes. Docker calls, lock timeouts and the death of the worker are
choices left open. Physical rows and instance rows are tables in one value, so an event commits
to all of them at once, as a transaction does.

Two points where the code promises less than it seems to. A release of an operation renews
`updated_at` without a new version, so a maintenance claim at the scanned version can still fail
its age test: `CoordinationRuns.ReleaseOutdatesScan` says exactly when, and
`Scenarios.ReleasedAfterScan` is a run in which it happens. And a reservation chooses its context
on a snapshot that nobody compares at the commit, so reservations overtake one another and the
plain balance of weighted placement fails (`Scenarios.OvertakenChoice`). What holds instead is the
balance with the number of units placed meanwhile as extra tolerance
(`Placement.FairThroughout`, for calls of the coordinator `Coordinator.CoordinatorIsFair`), and
`Scenarios.ExactBalance` shows that no smaller tolerance holds. `Concurrency` bounds it by what an
operator can limit: with at most n calls in flight, each for at most U units, the tolerance is
U * n, again exactly (`Concurrency.ConcurrentFair`, `Scenarios.ExactInFlight`).

## Model

| member | source | states |
|---|---|---|
| StoreDisk.WriteKeepsInv | src/files/store.py:194-700 | every file operation of the store keeps: one job per identity not flagged obsolete, obsolete jobs failed, owners of the kind the owner-mode file names, attempts bounded, files traced to a generation, foreground orders distinct, queue and catalog bounds |
| StoreDisk.WriteKeepsIdentity | src/files/store.py:213-263 | each (challenge, owner) keeps at most one job not flagged obsolete, and an obsolete job stays failed as "configuration changed" |
| StoreDisk.WriteKeepsMode | src/files/store.py:265-298 | while the owner-mode file names a kind, every job not flagged obsolete has an owner of that kind |
| StoreDisk.WriteKeepsAttempts | src/files/store.py:591-609 | queued jobs have at most 2 attempts, running ones 1 to 3, none more than 3 |
| StoreDisk.WriteKeepsProvenance | src/files/store.py:684-700 | the files of a ready job were installed by the generation its document names |
| StoreDisk.WriteKeepsOrders | src/files/store.py:310-328 | foreground orders are pairwise distinct and never exceed the recorded demand order |
| StoreDisk.WriteKeepsBounds | src/files/store.py:503-536 | queued plus running jobs never exceed max_pending, pending background jobs never max_pending // 2, the catalog never max_jobs when that is set |
| StoreHistory.InvThroughout | src/files/store.py:427-700 | the invariant holds at every instant of every run, whichever processes wrote |
| StoreHistory.ReadyNeverRecurs | src/files/store.py:663-666 | a ready document of one generation that is gone never comes back: seen at two moments, it was there unchanged all the time |
| StoreHistory.ClaimUndisturbed | src/files/store.py:580-609 | a document running under the generation of a claim has not been retired, failed or requeued since that claim; between two moments at which it is seen so, it is there all the time and equal up to a promotion of its demand |
| StoreHistory.ReadyAtMostOnce | src/files/store.py:684-700 | each generation becomes ready at most once in a whole run |
| StoreHistory.OpenedFileBelongs | src/files/store.py:544-574 | two equal document reads pin the file opened between them: it was installed by the generation the document names |
| StoreHistory.OrdersIncrease | src/files/store.py:325-328 | a foreground request or promotion gets an order above every order any job ever held before |
| StoreHistory.AtMostThreeStarts | src/files/store.py:591-609 | a job that stays in the queue starts at most three times, and after the third start it leaves as ready or failed or is removed |
| StoreSections.RetireOne | src/files/store.py:213-263 | retiring one more job extends the effect of retiring a set: running jobs become failed, the others vanish with their files |
| StoreSections.SweepDone | src/files/store.py:615-637 | what a finished collection has removed: all expired, obsolete and outdated jobs, and under pressure the oldest finished ones, never a queued or running one |
| StoreSections.ForegroundFirst | src/files/store.py:645-668 | the best ranked eligible job is the foreground job with the smallest order; a background job only when no foreground job is eligible, and then the oldest one, the key hash deciding between equally old ones |
| StoreSections.RetryLoopCorrect | src/files/store.py:402-425 | at each point of the retry loop the counted pending jobs and reserved bytes are the true ones, and a skipped job had no room |
| StoreSections.RetryDone | src/files/store.py:402-425 | retried plus remaining are the eligible failures, reserved bytes stay within free space if anything was retried, and every job left had no room at the end either |
| StoreSections.RetryTurn | src/files/store.py:412-423 | in rank order, each failed job is requeued if and only if it has room beside what was pending at its turn, the jobs retried before it included |
| StoreSections.RetryInOrder | src/files/store.py:402-423 | a retried job never passes over an eligible failure that ranks before it and is no larger |
| StoreSections.RefusedOnlyForNewOrder | src/files/store.py:275-290 | a download that observed no order is never refused; a request that observed the order of one moment is refused at a later one only if some write in between drew a new order |
| ArtifactStore.Volume.Commit | src/files/store.py:146-157 | one file operation: the new directory, appended to the history |
| ArtifactStore.Volume.Sound | src/files/store.py:100-123 | the invariant holds of the directory whenever a process looks |
| ArtifactStore.Store.StampVouches | src/files/store.py:269-273 | a cached stamp that still matches the owner-mode file vouches for its kind and for the owners of all jobs, however many Store objects rewrote it meanwhile |
| ArtifactStore.Store.RemoveTree | src/files/store.py:64-68 | an artifact directory is removed file by file and nothing else changes |
| ArtifactStore.Store.RetireAll | src/files/store.py:213-263 | exactly the given jobs are retired, running ones kept as failed documents |
| ArtifactStore.Store.ForegroundOrder | src/files/store.py:310-311 | the highest order of any foreground job, 0 if none |
| ArtifactStore.Store.NextRequestOrder | src/files/store.py:325-328 | the new order exceeds every recorded, held and requested one and is on disk before it is used |
| ArtifactStore.Store.CompareDemand | src/files/store.py:275-290 | refusal exactly when newer demand forbids the change of owner mode |
| ArtifactStore.Store.ReconcileOwnerMode | src/files/store.py:275-298 | foreign jobs are withdrawn before the mode file changes; refusal exactly when newer demand exists, and then nothing changes |
| ArtifactStore.Store.AnyDue | src/files/store.py:639-643 | the first look of a claim, under the shared lock: whether any job is due |
| ArtifactStore.Store.Collect | src/files/store.py:615-637 | removes what the rules doom, oldest first, and no more than pressure demands |
| ArtifactStore.Store.Claim | src/files/store.py:645-668 | the locked part: claims the best ranked eligible job under a new generation, failing outdated due jobs met before it; none only if no job is eligible |
| ArtifactStore.Store.Fail | src/files/store.py:580-609 | changes the job exactly when the caller's claim still stands |
| ArtifactStore.Store.Publish | src/files/store.py:670-700 | publishes exactly when files, size, claim and recipe are right; otherwise nothing changes |
| ArtifactStore.Store.RetryFailed | src/files/store.py:376-425 | goes through exactly the eligible failures in rank order, requeues each if and only if it has room at its turn, and reports retried and remaining truthfully |
| ArtifactStore.Store.SetRecipe | src/files/store.py:194-205 | a new recipe withdraws exactly the jobs made for another one; refused only when the catalog of recipes is full |
| ArtifactStore.Store.DeleteRecipe | src/files/store.py:207-211 | withdraws all jobs of the challenge |
| ArtifactStore.Store.OpenFile | src/files/store.py:544-574 | a file opened without the lock was published by the generation of the job document read, whatever others do between the reads; a refusal has its reason at some moment of the call, and a path that is no regular file is reported as such |
| ArtifactStore.Store.RequestLocked | src/files/store.py:468-536 | an answer is a current job of the key with the wanted demand; a full queue is reported only for newer demand, a download under way or a lack of room; other jobs are withdrawn only if superseded |
| ArtifactStore.Store.Enlist | src/files/store.py:503-536 | queues a fresh job with the next order after making room |
| ArtifactStore.Store.Request | src/files/store.py:427-536 | the job answered was on disk, under the identity and recipe asked for, at some moment of the call; a changed recipe or a full queue is reported only if there was one |
| ArtifactStore.Store.Peek | src/files/store.py:447-466 | the look without the lock returns only documents that were on disk during it |
| Worker.Worker.Sweep | src/files/worker.py:479-499 | after a completed sweep no job is left running, and without trouble the sweep completes |
| Worker.Worker.Maintain | src/files/worker.py:475-507 | when maintenance lets the round go on, no job is running |
| Worker.Worker.Claim | src/files/worker.py:508-519 | the locked part of a claim: made only while no job is running, and exactly when a job is eligible |
| Worker.Worker.TakeJob | src/files/store.py:639-668 | both looks of a claim, with other processes in between: without a job claimed, no job was eligible at one of the looks |
| Worker.Worker.RunOnce | src/files/worker.py:475-558 | a round that does not raise leaves the sweep due whenever a job is left running; a round without trouble works unless no job was eligible |
| Worker.Worker.Generate | src/files/worker.py:520-558 | the claimed job is published or failed, or the next sweep is due at once; without trouble nothing is left running |
| Worker.MainLoop | src/files/worker.py:573-600 | over any number of rounds, started even with one job left running by a predecessor, every claim was made while no job was running, and at most one job runs |
| Preparation.PairsDistinct | src/files/prepare.py:54-77 | the table of pairs lists every pair once |
| Preparation.EveryPairOncePerRound | src/files/prepare.py:79-142 | in any stretch as long as the table every pair is examined exactly once, then the same pair comes up again |
| Preparation.BisectLeft | src/files/prepare.py:73 | the number of ids below the cursor's |
| Preparation.ExamineOne | src/files/prepare.py:97-136 | exactly which pairs stop a batch (outdated settings, a busy store, an exception), and what a full queue teaches about the later ones |
| Preparation.ExamineOwners | src/files/prepare.py:96-136 | a row is examined in order from the cursor on; it stops at the first outdated pair, and before the first pair that raises an exception, or finds the store busy and is not excluded by the owners of a full queue |
| Preparation.WalkRow | src/files/prepare.py:79-142 | one row, with the owners its own query returns, continues the walk |
| Preparation.WalkRows | src/files/prepare.py:79-142 | the outer loop walks on from row to row, examines as many pairs as it may and never more than one round |
| Preparation.PrepareBatch | src/files/prepare.py:65-142 | whatever the queries of the rows return: the pairs examined are exactly those between the old cursor and the new one, the batch stops early for a reason only, at the first one, and an exception leaves the saved cursor where it was |
| Preparation.Resumes | src/files/prepare.py:65-77 | the next batch takes up exactly where a saved one stopped; the pair of a StoreBusy stop comes first |
| Preparation.FollowsOrder | src/files/prepare.py:65-142 | over fixed sets a batch examines the next pairs in cyclic order, with its cursor right after them |
| Preparation.Rounds | src/files/prepare.py:65-142 | over fixed sets, batches of any sizes, failing ones included, together settle the pairs in cyclic order, so between two turns of one pair every other has exactly one |
| Preparation.OneTurnPerLap | src/files/prepare.py:65-142 | however challenges and owners come and go between and during batches, each pair that stays listed has exactly one turn per lap of the cursor |
| Preparation.TurnsEven | src/files/prepare.py:65-142 | so the numbers of turns of two pairs that stay listed never differ by more than one |
| Framing.BigEndianRoundTrip | src/files/worker.py:119-123 | a payload length survives its four bytes |
| Framing.PayloadDelivered | src/files/worker.py:124-132 | a payload is delivered whole, in pieces of at most 65536 bytes, to its own stream |
| Framing.RoundTrip | src/files/worker.py:99-132 | every encoded sequence of frames is read to a clean end and each stream gets exactly what was sent to it, in order |
| Framing.CleanExactlyOnEncodings | src/files/worker.py:99-132 | the demultiplexer ends cleanly on exactly the byte sequences that encode whole frames |
| Framing.CutStream | src/files/worker.py:102-132 | a cut connection ends cleanly if and only if it is cut at a frame boundary, and what was delivered is a prefix of what was sent |
| StreamReader.DockerChunks.ReadExact | src/files/worker.py:102-115 | exactly the bytes asked for, an end of stream only where it is allowed, else an interruption |
| StreamReader.DockerChunks.Next | src/files/worker.py:99-132 | one step yields the head of what the bytes mean, however the socket splits them |
| StreamReader.TarStream.Read | src/files/worker.py:143-160 | reads return the stdout payload in order, are short only at the clean end, and never pass the limit; every failure but a deadline has its cause in the stream |
| StreamReader.TarStream.Drain | src/files/worker.py:162-164 | draining returns the rest of stdout and only after a clean end |
| StreamReader.DrainFrames | src/files/worker.py:99-164 | end to end: draining yields what was sent to stdout, and fails only for the deadline, for stderr output or for too much output |
| StreamReader.DrainCut | src/files/worker.py:99-164 | a peer that closes inside a frame is never taken for one that finished; a failure but the deadline means a cut inside a frame, stderr output or stdout over the limit |
| CoordinationTables.EventKeepsInv | src/coordination.py:170-821 | every transaction keeps: unique constraints, the shape of rows in each state, agreement of physical and instance rows, and the hostname each row was placed on |
| CoordinationTables.UpdateKeeps | src/coordination.py:415-821 | an update never touches owner, challenge, quota slot, context, units or provision token; the create slot is only ever cleared |
| CoordinationTables.NewSlots | src/models.py:125-128 | an admissible reservation keeps the three unique constraints |
| CoordinationTables.PartsAgree | src/coordination.py:424-509 | after mark_running the physical rows are the reported containers, exactly placement_units of them with exactly one entry |
| CoordinationTables.MirroredAgree | src/coordination.py:735-783 | after a lifecycle change the physical rows carry the instance's expiry and renewal count again |
| CoordinationTables.MirrorsWithout | src/coordination.py:586-590 | deleting an instance leaves the physical rows of all others in agreement |
| CoordinationTables.ContextsChange | src/views/routes_admin.py:929-949 | a change of the context table that keeps hostnames where rows live keeps the invariant |
| CoordinationRuns.InvThroughout | src/coordination.py:170-821 | the invariant holds after any interleaving of transactions |
| CoordinationRuns.Ages | src/coordination.py:170-821 | from any moment of a run to any later one: ids are not reused, versions and stages only go up, equal versions mean equal lifecycles, a solve mark is final and freezes the renewal count |
| CoordinationRuns.GoneForGood | src/coordination.py:197-212 | an issued id without a row never has a row again |
| CoordinationRuns.VersionStep | src/coordination.py:415-821 | a transaction changes the lifecycle of a row only as a lifecycle write, and each of those adds exactly one to the version |
| CoordinationRuns.VersionCountsWrites | src/coordination.py:415-821 | over any stretch of a run the version grows by exactly the number of lifecycle writes |
| CoordinationRuns.StaleScanFails | src/container_manager.py:686-712 | a maintenance claim from an older scan takes effect only if the row was not renewed, extended, shortened or claimed since |
| CoordinationRuns.OnlyExtensionProlongs | src/coordination.py:697-821 | once a row is marked solved its expiry rises only by an administrator's extension |
| CoordinationRuns.TokenFences | src/coordination.py:552-695 | while a row carries an operation token nobody else has written it since that claim, and a lost token never returns |
| CoordinationRuns.OwnerAdmission | src/coordination.py:310-320 | an owner never has more rows than the largest max_instances used for it, nor two for one challenge |
| CoordinationRuns.CreateAdmission | src/coordination.py:348-366 | a context never has more rows holding a create slot than the largest max_concurrent_creates used for it; provisioning rows hold one, running rows never do |
| CoordinationRuns.PlacementVersionCounts | src/coordination.py:368-385 | placement_version grows by exactly the number of reservations placed on the context |
| CoordinationRuns.EndpointChangeIsolated | src/views/routes_admin.py:908-949 | when an endpoint change commits, no reservation was placed on the context since the handler's first read and no row refers to it |
| CoordinationRuns.HostnameKept | src/views/routes_admin.py:848-949 | as long as a row lives its context keeps the hostname it was reserved against |
| CoordinationRuns.NothingStuck | src/coordination.py:640-693 | from the time a row is due, and not before, a maintenance claim takes effect if and only if it names the current version |
| CoordinationRuns.ReleaseOutdatesScan | src/coordination.py:595-693 | a release keeps version and lifecycle, yet a maintenance claim for a row scanned before it takes effect after it if and only if the release is itself older than the safety age |
| CoordinationRuns.SafetyAgeCoversLease | src/container_manager.py:768 | every row a scan selects passes the lease test if and only if the safety age is at least the lease |
| Placement.PickQuotaSlot | src/coordination.py:310-320 | the lowest slot the owner does not use, or the owner has its full number of rows |
| Placement.PlacementCounts | src/coordination.py:148-165 | the units on every context, rows waiting for cleanup included |
| Placement.RankedContexts | src/coordination.py:322-346 | exactly the eligible contexts, each at least as good as all after it by weight per unit, ties by name |
| Placement.PickCreateSlot | src/coordination.py:348-366 | a free slot of the first context that has one |
| Placement.ChooseContext | src/coordination.py:251-253 | the best candidate with a free create slot; failure only if there is no candidate or all hold the maximum of creating rows |
| Placement.StepStaysFair | src/coordination.py:339-346 | one step keeps w_i * (c_j - U - L + 1) <= w_j * (c_i + 1) for all pairs of contexts, U bounding the units of a reservation and L those placed on its context between its snapshot and its commit |
| Placement.FairThroughout | src/coordination.py:339-385 | from empty tables on, without deletions and changes of weights, whatever order snapshots and commits interleave in, every pair of contexts stays in balance with tolerance U + L; L = 0 is the case that no choice is overtaken |
| Placement.ChoiceIsFair | src/coordination.py:348-366 | with all contexts eligible and free when the snapshot is taken, the coordinator's choice is the best of all on that snapshot, hence a step of such a run when it commits |
| Placement.FairShare | src/coordination.py:149-165 | a context of weight w holds more than (w * N - n * w * (U - 1)) / W - 1 of N units on n contexts of total weight W |
| Placement.FloorShare | src/coordination.py:149-165 | with one unit each, every context holds at least the floor of w * N / W placements |
| Coordinator.InstanceCoordinator.InsertReservation | src/coordination.py:255-265 | version bump and row commit together, exactly when the context is still placeable at the hostname seen and all constraints allow it |
| Coordinator.ChoiceAdmissible | src/coordination.py:251-265 | a plan chosen on some tables passes the unique constraints of those tables, so only a change in between can defeat it |
| Coordinator.InstanceCoordinator.PlanReservation | src/coordination.py:247-253 | an outcome justified by the tables read, or a plan that is the right choice on them |
| Coordinator.InstanceCoordinator.AttemptReserve | src/coordination.py:246-265 | a reservation made was planned on a snapshot of this attempt and committed whatever others did since; an attempt is lost only if somebody else committed something in between or the id is taken |
| Coordinator.InstanceCoordinator.ReserveInstance | src/coordination.py:170-244 | each outcome is justified by the tables at the end of the call and a reservation made is the last committed event; it gives up only after a foreign transaction for every attempt but the locked ones, or after the sixth locked attempt |
| Coordinator.ReservationIsCall | src/coordination.py:246-265 | a reservation just made counts as such a call: planned during the call on a snapshot with all contexts open and overtaken by at most L units |
| Coordinator.CoordinatorIsFair | src/coordination.py:246-265 | any interleaving of the coordinator's reservations from empty tables on keeps every pair of contexts in balance with tolerance U + L, L bounding what is placed on a context during a call that chooses it |
| Scenarios.ToleranceAttained | src/coordination.py:339-385 | for all U and L there is such a run of the coordinator that is not in balance with tolerance U + L - 1 |
| Scenarios.ExactBalance | src/coordination.py:339-385 | a tolerance is kept by all such runs if and only if it is at least U + L, for the coordinator's own calls as well |
| Scenarios.OvertakenChoice | src/coordination.py:339-385 | the smallest input on which the plain balance fails: two reservations planned on the same empty tables |
| Concurrency.ConcurrentFair | src/coordination.py:246-265 | with at most n calls in flight for a context, each for at most U units, every pair of contexts stays in balance with tolerance U * n, however long each call takes |
| Concurrency.MadeInFlight | src/coordination.py:246-265 | a reservation just made was planned during its call, so it is in flight no longer than the call lasts |
| Scenarios.InFlightAttained | src/coordination.py:339-385 | for all U and n, n calls of U units planned on the same empty tables attain that tolerance |
| Scenarios.ExactInFlight | src/coordination.py:339-385 | a tolerance is kept by all runs with at most n calls in flight if and only if it is at least U * n |
| Scenarios.ReleasedAfterScan | src/coordination.py:595-693 | a run in which a scanned row is released before its claim: same version, and the claim that would have taken effect no longer does |
| Coordinator.InstanceCoordinator.EntryDeclared | src/coordination.py:424-430 | exactly the declared entry, and service names distinct |
| Coordinator.InstanceCoordinator.InsertParts | src/coordination.py:453-469 | the physical rows are inserted unless one of their keys is taken |
| Coordinator.InstanceCoordinator.MarkRunning | src/coordination.py:415-524 | takes effect exactly on its own provisioning row with matching members, and returns the entry's port |
| Coordinator.InstanceCoordinator.MarkCleanupPending | src/coordination.py:526-550 | takes effect exactly on its own provisioning row |
| Coordinator.InstanceCoordinator.ClaimOperation | src/coordination.py:620-695 | a claim under a new token exactly when state, version, age and lease allow it |
| Coordinator.InstanceCoordinator.ReleaseOperation | src/coordination.py:595-618 | takes effect exactly under the row's current token |
| Coordinator.InstanceCoordinator.DeleteAfterConfirmedCleanup | src/coordination.py:552-593 | removes row and physical rows exactly when all tokens given match |
| Coordinator.InstanceCoordinator.UpdateMirrors | src/coordination.py:735-782 | the second UPDATE touches exactly the physical rows of the instance |
| Coordinator.InstanceCoordinator.ShortenAfterSolve | src/coordination.py:697-746 | takes effect once, on a running unsolved row created before the solve; expiry never rises |
| Coordinator.InstanceCoordinator.Renew | src/coordination.py:748-787 | takes effect exactly on a running, unsolved, unexpired row with renewals left |
| Coordinator.InstanceCoordinator.ExtendByAdmin | src/coordination.py:789-821 | takes effect exactly on a running row whose expiry it raises |
| Provisioning.CleanupFailedReservation | src/views/helpers.py:451-472 | whatever the removal's outcome, the reservation does not stay in provisioning; after a known removal no row of it is left |
| Provisioning.CreateResources | src/views/helpers.py:597-657 | labelled resources are created only for ids whose row has committed |
| Provisioning.CreateContainer | src/views/helpers.py:518-679 | success means every docker step succeeded and the reservation runs with the containers that came up; after any failure it is handed to cleanup, or gone if the removal is known to have succeeded |
| Provisioning.MayUpdate | src/views/routes_admin.py:905-919 | an endpoint change goes on only from and to a drained or disabled context without docker resources; each refusal has its reason |
| Provisioning.CommitUpdate | src/views/routes_admin.py:923-949 | the update commits with exactly the requested fields, or conflicts exactly when the context, its placements or its references changed |
| Provisioning.UpdateContext | src/views/routes_admin.py:877-949 | an endpoint change that succeeds happened in isolation from placements and with no docker resources left, and the context has the requested hostname |
| Maintenance.CleanupUndisturbed | src/coordination.py:552-695 | between a claim and the deletion under its token nobody else wrote the row |
| Maintenance.CleanupInstance | src/views/helpers.py:227-258 | a cleaned row was claimed by this call and deleted under that claim after the removal succeeded; without a removal the row stays and the claim is given back; a refusal means another claim within its lease |
| Maintenance.FinishCleanup | src/views/helpers.py:243-258 | after a claim: deletion under its token exactly when the removal succeeded and the claim still stands, otherwise the token is no longer held |
| Maintenance.ClaimScanned | src/container_manager.py:703-712 | the claim for a scanned row is refused only if the row is no longer as scanned, and one that succeeds finds the scanned lifecycle |
| Maintenance.KillExpired | src/container_manager.py:686-747 | every scanned row is removed exactly as scanned after its resources were, or was claimed as scanned and the claim given back or lost, or had been changed by somebody else before |
| Maintenance.Survey | src/container_manager.py:786-803 | the youngest age and the set of invalid ages over the listing |
| Maintenance.SurveyDecides | src/container_manager.py:786-812 | the tests on them decide exactly: not active, every age valid, and even the youngest at least 300 seconds |
| Maintenance.ReapHost | src/container_manager.py:776-839 | an id is reaped if and only if it was not active, its resources are old enough and the second look found no row; then it has no row and was issued before; and exactly those whose removal works are counted as removed |
| Maintenance.ReconcileOrphans | src/container_manager.py:770-839 | no reaped id had a row when the pass began or has one when it ends; an id that was listed, old enough and not reaped had a row at some moment of the pass; only reaped ids whose removal worked are reported as removed |
| MaintenanceJob.SpacedSum | src/container_manager.py:258-274 | starts spaced by n stay spaced over any number of them |
| MaintenanceJob.Job.Run | src/container_manager.py:258-279 | a job starts exactly when the lock is held and the interval has passed since the last recorded start |
| ClientPool.KeptOrDiscarded | src/docker_host_manager.py:367-369 | sifting a list loses no client and duplicates none |
| ClientPool.DockerHostManager.BeginLease | src/docker_host_manager.py:342-343 | a leased call records the generation in force when it starts |
| ClientPool.DockerHostManager.PurgeIdle | src/docker_host_manager.py:366-370 | exactly the idle clients of other generations are taken out, to be closed |
| ClientPool.DockerHostManager.TakeClient | src/docker_host_manager.py:372-392 | the own client first, then the last idle one, then a new one, none exactly if the context is not configured or cannot be reached; never one older than the generation the call recorded |
| ClientPool.DockerHostManager.Release | src/docker_host_manager.py:394-403 | a client becomes idle under the current tag only if no reload came since the call began, else it is given up |
| ClientPool.DockerHostManager.Clear | src/docker_host_manager.py:405-412 | after a failure the greenlet's client and its thread's idle clients are given up |
| ClientPool.DockerHostManager.LoadContexts | src/docker_host_manager.py:439-460 | a new generation exactly when the endpoint map changed; contexts stay connected only with an unchanged endpoint |
| ClientPool.GetClient | src/docker_host_manager.py:362-392 | the same guarantee with reloads and other greenlets between its two lock sections |
| ClientPool.Call | src/docker_host_manager.py:334-352 | an operation never talks to an endpoint older than the configuration in force when its outermost call began, even if it waited for a place in the pool; that call ends without a lease, a nested call uses the outer lease and leaves it |

## Left out

- Container history rows, stack ids, the generated ssh password and `last_error` of an instance: columns that none of the modelled transactions read.
- Store objects with different limits on one directory: `max_pending` and `max_jobs` belong to the directory here, as if all processes that request or retry used the same ones.
- Validation of recipes, payloads and settings field by field, and the HTTP layer around the handlers.
- Lock waiting and SQLite busy waits: a busy store or a locked database is an outcome that may happen at any attempt.
- A crash in the middle of a store operation is covered only by the invariant after every single write; recovery of temporary files is not part of this model.
- Job documents written by older releases (without generation or request order), except that a missing generation sends `OpenFile` to the locked path.
- Placement.FairThroughout: like `Concurrency.ConcurrentFair`, is about runs from empty tables in which no row is deleted, no context is added and no weight changes: after any of these the balance has to be built up anew.
- In a preparation batch, the deletion of one recipe without a challenge before the walk, and how the queries choose the owners; what comes of a pair is a function of the pair, which is no restriction because a batch examines no pair twice.
- Maintenance.ReapHost: docker listings are taken to hold only labels of ids that were issued by this database.
- The container generator itself, unpacking of archives, image checks, ssh transport, port retry, health probes and the event log.
- Reconciliation of solves from the solve table: its calls of `ShortenAfterSolve` are among the events of other processes.
- Reuse of a database id of a deleted context: ids are taken to be new.
- Rounding of floating point times and scores.
