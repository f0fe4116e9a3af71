# The control plane, modelled and proved

lx-container-weaver is a manager for clusters of LXD hosts. Once per interval it walks its
clusters; for each it copies what LXD reports into its own tables, places waiting instances on
nodes by bin packing, and buys a new server when an instance fits nowhere. Several managers may
start at once, so the very first cluster is created under a lock. This project models that
control plane in Dafny and proves what holds over all its inputs, runs and interleavings.

Run `dafny verify dfyconfig.toml` to check everything.

## How it is built

- **Tables.** `Memory` holds the repositories: a keyed table with unique names per cluster. The
  three Go stores differ only in the record, so one generic class stands for them. A store is
  either the in-memory one or *faulty*: then any call may fail, and a failed call changes nothing.
- **Placement.** `Scheduler` keeps the source's three wrapping 64-bit accumulators, its filter and
  its in-place sort; `Placement` is the pass around it as a function, and what every pass achieves.
- **Inventory.** `Reconcile` is the index, upsert and mark-missing loop both syncers run;
  `NodeSync` and `InstanceSync` supply what a record makes of a report. `Views` says what any
  interrupted or complete sync means, seen by reported name, where new ids are arbitrary.
- **The loop.** `Fleet` states what one pass meets outside (the answers of LXD, of the
  repositories, of the provider and of the bootstrap), the steps it takes under these answers and
  the invariant of every run; `Isolation` shows that a pass is local to its cluster and that the
  order of clusters does not matter when each meets the same answers; `Orchestrator` is the loop
  itself.
- **Protocols.** `Guard` (N managers starting together, with crashes), `AdvisoryLock` (the
  PostgreSQL session lock over a shared connection pool), `Formation` (any number of bootstrap
  calls on one seed and one joiner). Each is a state machine over single steps. The classes that
  stand for the Go code carry a ghost script of the steps they took and prove it is a run of the
  machine, so that the theorems over all runs apply to them.
- **Migrations.** `MigrationPaths` and `Migration`: the schema is an arbitrary type, a script a
  partial function on it, a transaction one step.
- **`Findings`** holds what follows from the code and is at odds with what its comments promise.

## Where code and comments disagree

The model follows the code.

- A scaled-out server is recorded without an LXD member name. A node sync then takes it for a lost
  member and can mark its row offline while the server is still in flight, so that the duplicate
  check no longer sees it. It can do so exactly when the report meets no conflict. The row can stay
  in flight exactly when there is a conflict, or when another row without member name may be the
  one in the index (`Findings.InFlightAfterSync`, `Findings.DuplicateCheckCleared`;
  `Findings.SecondServer`: a concrete pass).
- Once LXD reports that server as a member, every later node sync of the cluster fails on its
  name, and its row never gets capacity, so that the scheduler never places an instance on it
  (`Findings.ScaledOutServerUnusable`).
- An instance whose location matches no node is to be persisted with an empty placement
  (internal/inventory/instance_sync.go:18-20, and line 134 for an unknown location). An empty
  location is resolved to a node exactly when the cluster has a row without member name
  (`Findings.EmptyLocationResolved`), so that an instance can be recorded on a server in flight
  (`Findings.PlacedOnServerInFlight`).
- Instances without a placement are to be treated as unplaceable until a sync resolves them, and
  the placement of instances LXD no longer reports is cleared so that the scheduler does not
  operate on stale records (internal/inventory/instance_sync.go:18-27). The scheduler is blind to
  statuses (`Placement.PassIgnoresStatus`) and places every instance without a placement, exactly
  when at its turn it fits on some node (`Placement.WaitsExactlyWhenNothingFits`,
  `Findings.UnplacedExactlyWhenNothingFits`; `Findings.UnknownInstancePlaced`: a concrete pass that
  puts a vanished instance back).
- `Down` is documented to roll back the most recently applied migration. It rolls back the
  highest version; these agree exactly under the conditions of `Migration.DownTakesLastApplied`
  and `Migration.LastInFirstOut`.
- `VersionFromPath` is documented to stop at the first dot; it strips two suffixes. These agree
  exactly for versions without a dot (`MigrationPaths.VersionEndsAtFirstDot`;
  `MigrationPaths.DottedVersion`: one where they differ).
- Bootstrap verification is documented to check that both members are online; it checks names. A
  bootstrap can return nil with both members offline (`Bootstrap.OfflineMembersPass`); being listed
  means being online exactly when every listed member is online (`Bootstrap.ListedMeansOnline`).
- A session whose unlock query fails goes back to the pool still holding the advisory lock, and
  then nobody can free it again (`AdvisoryLock.UnlockFreesExactly`, `AdvisoryLock.LeakIsForever`).
  Over a whole run the lock is kept in order exactly when every unlock query succeeded
  (`AdvisoryLock.OwnedExactlyWhenUnlocksSucceed`).
- The coordinator the manager is wired with creates no cluster; with it, bootstrap can run twice
  (`Guard.NoopCoordinatorRunsTwice`).

## Model

| member | source | states |
|---|---|---|
| Model.WrapAbsorbs | internal/scheduler/scheduler.go:107-109 | reducing at every `+=` and once at the end leave the same 64-bit value |
| Memory.ApplyKeepsSound | internal/persistence/memory/memory.go:197-262 | every store operation keeps keys equal to row ids and names unique per cluster |
| Memory.RunKeepsSound | internal/persistence/memory/memory.go:310-375 | so does every sequence of operations |
| Memory.CreationTimeFixed | internal/persistence/memory/memory.go:226-249 | over every run a row that is not deleted stays and keeps its creation time |
| Memory.SameNameUpdateSucceeds | internal/persistence/memory/memory.go:339-362 | in every reachable table, updating an existing row under its own name and cluster succeeds |
| Memory.ListsPermute | internal/persistence/memory/memory.go:167-179 | two listings of the same rows are permutations of each other |
| Memory.Store.List | internal/persistence/memory/memory.go:167-179 | enumerates exactly the rows of the cluster, each once, in no particular order |
| Memory.Store.Create | internal/persistence/memory/memory.go:197-223 | succeeds exactly when the name is free in the cluster; a failure changes nothing |
| Memory.Store.Update | internal/persistence/memory/memory.go:226-250 | the two refusals, the kept creation time, and no change on failure |
| Memory.Store.Delete | internal/persistence/memory/memory.go:253-262 | removes exactly the one row and keeps every other as it was, or reports that there is none |
| Scheduler.Allocate | internal/scheduler/scheduler.go:99-110 | the three accumulators hold the 64-bit reduction of the exact per-node sums |
| Scheduler.Rate | internal/scheduler/scheduler.go:121-146 | a node is scored exactly when it is online, has capacity and has headroom in all three dimensions |
| Scheduler.Filter | internal/scheduler/scheduler.go:119-149 | the candidates are exactly the eligible nodes, with their scores |
| Scheduler.SortCandidates | internal/scheduler/scheduler.go:157-163 | a permutation in which nothing sorts strictly before what is in front of it |
| Scheduler.Schedule | internal/scheduler/scheduler.go:92-166 | answers the winner among the eligible nodes, which with totals below 2^63 is the one whose instances fill it most over the three dimensions together, and none as full has the smaller id; no-capacity exactly when no node is eligible |
| Scheduler.BestWins | internal/scheduler/scheduler.go:153-165 | the answer is eligible and beats every other eligible node by score, then by smaller id |
| Scheduler.FullestChosen | internal/scheduler/scheduler.go:142-163 | an eligible node is chosen exactly when no other is fuller, by the exact sum of the three ratios, and none as full has the smaller id |
| Scheduler.WinnerUnique | internal/scheduler/scheduler.go:66-68 | with distinct ids there is only one winner |
| Scheduler.ChoiceIgnoresOrder | internal/scheduler/scheduler.go:66-68 | the choice is the same for every order of nodes and of instances |
| Scheduler.NoOverflow | internal/scheduler/scheduler.go:107-133 | with totals below 2^63 every accumulator is exact at every step of the loop, and without negative limits every headroom is |
| Placement.PassShape | internal/orchestrator/orchestrator.go:293-338 | a pass only fills empty placements, each with a listed node, and none the repository refused |
| Placement.EligibleMeansFits | internal/scheduler/scheduler.go:121-138 | being eligible is being online, having capacity in all three dimensions and holding the instance beside what is already there |
| Placement.EligibleStaysWithin | internal/scheduler/scheduler.go:131-138 | with negative limits too, an eligible node holds the instance within capacity: a headroom that wraps turns nodes away only |
| Placement.CapacityRespected | internal/orchestrator/orchestrator.go:293-339 | after every turn, whatever updates failed and whatever the signs of the limits: a node that received an instance is within capacity in all three dimensions, any other keeps its allocation |
| Placement.Maximal | internal/orchestrator/orchestrator.go:293-316 | no instance left waiting fits any node under the final allocations, unless its update was refused |
| Placement.WaitsExactlyWhenNothingFits | internal/orchestrator/orchestrator.go:294-316 | an instance stays without a placement exactly when at its turn it fits on no node |
| Placement.PassIgnoresStatus | internal/orchestrator/orchestrator.go:294-298 | changing only statuses changes no placement and not the answer of a pass |
| Placement.FlagMeansWaiting | internal/orchestrator/orchestrator.go:273-311 | without failures the pass answers true exactly when an instance is still waiting; with failures never without one |
| Placement.StuckPass | internal/orchestrator/orchestrator.go:306-312 | where nothing waiting fits, a pass changes nothing and reports whether anything waits |
| Placement.SecondPassIdle | internal/orchestrator/orchestrator.go:276-341 | a second pass over the tables changes no row and answers the same, whatever orders the rows are listed in |
| Reconcile.FollowReports | internal/inventory/sync.go:102-175 | returns nil exactly when every item is acceptable; complete then, a prefix of the upserts otherwise |
| Reconcile.Upsert | internal/inventory/instance_sync.go:128-163 | one new row per newly seen name, indexed rows refreshed, all others as they were, stopping at the first refusal |
| Reconcile.UpsertItem | internal/inventory/sync.go:116-145 | one item is updated or created, or nothing changes; without failures it fails exactly when the item is not acceptable |
| Reconcile.MarkMissing | internal/inventory/sync.go:147-169 | exactly the indexed rows nothing was reported for are marked; a lost mark does not stop the rest |
| Reconcile.Index | internal/inventory/sync.go:107-111 | every row of the cluster is found under its key, a later listed row replacing an earlier one |
| Reconcile.ConflictMeans | internal/inventory/sync.go:130-141 | creating a row for a reported item conflicts exactly when the item is not acceptable |
| Reconcile.CanComplete | internal/inventory/sync.go:113-169 | whichever of several rows under one name was indexed, a sync of an acceptable report can be completed |
| Views.ViewAfter | internal/inventory/sync.go:115-169 | the cluster seen by reported name, after any prefix of the upserts and any set of marks |
| Views.TargetAbsorbs | internal/inventory/sync.go:113-169 | following a snapshot after following part of it is following it once |
| Views.TargetIgnoresOrder | internal/inventory/sync.go:116-116 | the post-state does not depend on the order of the report |
| Views.AttemptAbsorbed | internal/inventory/instance_sync.go:130-188 | a sync that stopped anywhere, or lost any marks, leaves a state with the same post-state |
| Views.CompletedMeans | internal/inventory/sync.go:113-175 | a complete sync reaches the declarative post-state, keeps every other cluster, and deletes nothing |
| Views.ReachDetermines | internal/inventory/instance_sync.go:130-188 | what a sync was given and how far it came determine the table, up to new ids and creation times |
| Views.RetryConverges | internal/inventory/sync.go:115-169 | after any chain of partial syncs, one complete sync reaches the state of an uninterrupted one |
| Views.SyncIdempotent | internal/inventory/sync.go:79-176 | a second complete sync of the same snapshot leaves the table equal, ids included |
| Views.HistoryNames | internal/inventory/sync.go:147-152 | the names after many syncs are the first ones and every name ever reported |
| Views.RunIsHistory | internal/inventory/sync.go:79-176 | every run of complete syncs reaches the fold of its snapshots |
| NodeSync.NodeRuleLawful | internal/inventory/sync.go:118-145 | refreshing twice is refreshing once, marking is idempotent, and neither changes the member name |
| NodeSync.Syncer.Sync | internal/inventory/sync.go:79-176 | nothing changes when LXD cannot be asked; otherwise what the shared loop guarantees for the fetched members; on rows named by their member a sync that meets no failure mirrors what LXD answered, row by row |
| NodeSync.NamedAcceptable | internal/inventory/sync.go:130-141 | with distinct member names and rows named by their member, no conflict occurs |
| NodeSync.AttemptKeepsNamed | internal/inventory/sync.go:132-137 | every attempt, failed or not, keeps rows named by their member |
| NodeSync.SyncRefinesPostState | internal/inventory/sync.go:107-175 | one row per member with mapped status and new or preserved capacity, every other row of the cluster offline and else unchanged |
| NodeSync.SyncMirrors | internal/inventory/sync.go:81-175 | the same against what the two endpoints answered: each member's row has its status, and its capacity where the resource endpoint answered |
| NodeSync.NodeHistory | internal/inventory/sync.go:79-205 | after any number of syncs: names ever seen, status from the last snapshot, capacity from the latest one carrying resources |
| NodeSync.AttemptInvariants | internal/inventory/sync.go:115-169 | from any state, no attempt makes a row provisioning or gives two rows the same member name |
| NodeSync.CompleteSyncForgetsProvisioning | internal/inventory/sync.go:107-160 | after a complete sync a row is in flight exactly when it was before and another row is indexed under its member name |
| InstanceSync.InstanceRuleLawful | internal/inventory/instance_sync.go:136-178 | refreshing twice is refreshing once, marking is idempotent, and neither changes the name |
| InstanceSync.InstanceSyncer.Sync | internal/inventory/instance_sync.go:88-195 | nothing changes when LXD cannot be asked; otherwise what the shared loop guarantees with placements resolved against the node table; without failures the cluster's instances mirror what LXD answered |
| InstanceSync.IndexMembers | internal/inventory/instance_sync.go:110-113 | every node of the cluster is found under its member name |
| InstanceSync.PlaceUnique | internal/inventory/instance_sync.go:110-113 | with distinct member names there is one way to resolve placements |
| InstanceSync.InstancesAcceptable | internal/inventory/instance_sync.go:122-159 | with distinct reported names an instance sync never meets a conflict |
| InstanceSync.InstanceSyncRefinesPostState | internal/inventory/instance_sync.go:128-188 | one row per reported instance placed where LXD says, every other one unknown and unplaced, limits untouched |
| InstanceSync.InstanceSyncKeepsReferences | internal/inventory/instance_sync.go:134-140 | however the sync ends, each placement is empty or a node of the same cluster |
| Fleet.StepHealthy | internal/orchestrator/orchestrator.go:231-260 | every sync, placement or scale-out step keeps references, distinct member names and at most one provisioning row per cluster, and touches its own cluster only |
| Fleet.RunHealthy | internal/orchestrator/orchestrator.go:203-223 | so does every run of such steps on any clusters, however they fail |
| Fleet.PassedHealthy | internal/orchestrator/orchestrator.go:231-260 | so does every whole pass |
| Fleet.OnlyReportedOnlineEligible | internal/inventory/sync.go:178-191 | after a complete sync only members LXD calls online can be given an instance, whatever other status text it uses |
| Isolation.PassIsLocal | internal/orchestrator/orchestrator.go:231-260 | a pass over a cluster is exactly a pass over its own rows under the same answers, with every other row untouched |
| Isolation.AllIsEach | internal/orchestrator/orchestrator.go:219-221 | passes over distinct clusters one after another are one pass each under its own answers, independently |
| Isolation.ClusterOrderIrrelevant | internal/orchestrator/orchestrator.go:219-221 | with the answers fixed per cluster, what one order of the cluster list makes of the store every other order makes of it |
| Orchestrator.SpecFor | internal/orchestrator/orchestrator.go:501-537 | a server specification exists exactly when all three settings are non-empty strings, and then carries each under its own key |
| Orchestrator.MissingSettingsSurface | internal/orchestrator/orchestrator.go:553-579 | the bootstrap configuration is accepted exactly when each named setting is a non-empty string and neither name is missing |
| Orchestrator.AskedForCluster | internal/orchestrator/orchestrator.go:553-579 | each field of an init of the seed and of a join of the new server is the cluster's setting under the key it is documented for |
| Orchestrator.EarlierTurns | internal/orchestrator/orchestrator.go:318-324 | a refused update has no influence on the turns before it |
| Orchestrator.TurnTaken | internal/orchestrator/orchestrator.go:318-337 | a recorded placement keeps the local slice equal to the repository's rows |
| Orchestrator.TurnRefused | internal/orchestrator/orchestrator.go:320-324 | so does a refused one |
| Orchestrator.Orchestrator.PlaceAll | internal/orchestrator/orchestrator.go:293-340 | the loop is the pass, its updates refused exactly where the repository refused them |
| Orchestrator.Orchestrator.Patch | internal/orchestrator/orchestrator.go:331-338 | replaces exactly the placed instance in the local slice |
| Orchestrator.Orchestrator.ScheduleCluster | internal/orchestrator/orchestrator.go:276-341 | a no-op without its components or listings; a whole pass, with its answer, otherwise |
| Orchestrator.Orchestrator.NoneInFlight | internal/orchestrator/orchestrator.go:369-382 | lets a scale-out through only when no row of the cluster is provisioning |
| Orchestrator.Orchestrator.ExecuteScaleOut | internal/orchestrator/orchestrator.go:366-473 | asks for a server exactly when none is in flight and the configuration is complete, at most once, with type, region and image as the cluster sets them; asks the nodes for nothing before the server exists; records nothing the provider did not deliver; where nothing fails the delivered server is recorded and online |
| Orchestrator.Orchestrator.RecordAndBootstrap | internal/orchestrator/orchestrator.go:412-472 | one new row with the server's id, online exactly after a certified bootstrap, failed after any other; online where no endpoint fails and the seed lists both members; the nodes are asked only for what the cluster's settings say |
| Orchestrator.Orchestrator.RunWorkflow | internal/orchestrator/orchestrator.go:438-454 | ready exactly after a certified bootstrap, and always where no endpoint fails, no setting is missing and the seed lists both members; then exactly the nodes that were not clustered have been called upon |
| Orchestrator.Orchestrator.RecordServer | internal/orchestrator/orchestrator.go:412-428 | one new provisioning row, or no change |
| Orchestrator.Orchestrator.Conclude | internal/orchestrator/orchestrator.go:455-472 | the row's new status, unless the repository refuses it |
| Orchestrator.Orchestrator.SyncInventory | internal/orchestrator/orchestrator.go:235-247 | both syncs in order, given what LXD answered, a failure of the first not stopping the second |
| Orchestrator.Orchestrator.ReconcileCluster | internal/orchestrator/orchestrator.go:231-260 | a pass under the answers of LXD; with repositories that do not fail no step is left out, a server is asked for exactly when an instance could not be placed, none is in flight and the configuration is complete, and a delivered one is recorded |
| Orchestrator.Orchestrator.Reconcile | internal/orchestrator/orchestrator.go:203-223 | the clusters are walked one after another, each pass starting from the state the one before left and under its own answers; with repositories that do not fail no pass leaves out a step, and one server is asked for exactly for each cluster whose pass could not place an instance, with none in flight and a complete configuration |
| Orchestrator.RequestsSoFar | internal/orchestrator/orchestrator.go:253-256 | one more pass adds at most one request, for its own cluster |
| Orchestrator.OneAskedMore | internal/orchestrator/orchestrator.go:253-256 | every server asked for so far is one that the settings of some walked cluster describe |
| Findings.InFlightAfterSync | internal/inventory/sync.go:107-160 | when a sync can end with a row in flight without member name still in flight, and when without: both conditions exact, on the report and the table |
| Findings.DuplicateCheckCleared | internal/orchestrator/orchestrator.go:369-382 | the duplicate check after the node sync can miss a server in flight exactly without a conflict, and can see it exactly with a conflict or another row without member name |
| Findings.SecondServer | internal/orchestrator/orchestrator.go:235-256 | a concrete pass that starts with a server in flight, needs another one, and finds none in flight |
| Findings.RecordedServer | internal/orchestrator/orchestrator.go:415-420 | the new row answers to no member, has no capacity, and holds a name no row answers to |
| Findings.ScaledOutServerUnusable | internal/inventory/sync.go:109-141 | over every run such a server is never eligible, and every node sync that reports its name fails |
| Findings.UnknownInstancePlaced | internal/inventory/instance_sync.go:165-178 | a concrete pass that marks a vanished instance unknown, clears its placement, and places it again |
| Findings.UnplacedExactlyWhenNothingFits | internal/orchestrator/orchestrator.go:294-298 | in the table after a pass, an instance that had no placement keeps its status, and has none still exactly when at its turn it fitted nowhere |
| Findings.EmptyLocationResolved | internal/inventory/instance_sync.go:110-134 | an empty location is resolved to a node exactly when the cluster has a row without member name |
| Findings.PlacedOnServerInFlight | internal/inventory/instance_sync.go:134-155 | a concrete complete sync that records an instance on the row of a server in flight |
| Guard.AlwaysExcluded | internal/bootstrap/guard.go:80-94 | in every reachable state of N managers, exactly the manager inside, or one whose unlock failed, holds the lock |
| Guard.MutualExclusion | internal/bootstrap/guard.go:66-72 | no two managers are between acquire and release |
| Guard.AtMostOneBootstrap | internal/bootstrap/guard.go:96-109 | when success records a cluster, at most one coordinator run succeeds |
| Guard.LockFreeAtTheEnd | docs/adr/ADR-012-distributed-bootstrap-lock.md:35-37 | once every manager has finished or crashed, the lock is free exactly when no unlock failed in a process that still runs |
| Guard.NoopCoordinatorRunsTwice | cmd/manager/main.go:89-92 | with a coordinator that records nothing two runs succeed |
| Guard.Lock.TryLock | internal/persistence/memory/lock.go:28-37 | succeeds exactly when the lock is free, which it then is not; an error changes nothing |
| Guard.Lock.Unlock | internal/persistence/memory/lock.go:40-46 | leaves the lock free, unless it returns an error |
| Guard.Guard.Run | internal/bootstrap/guard.go:73-110 | is a run of the protocol, leaves the lock held only when the unlock fails, runs the coordinator exactly when enabled, the lock free and no cluster known, and answers what the coordinator answered |
| Guard.Guard.UnderLock | internal/bootstrap/guard.go:89-109 | the part between acquire and release, the release being attempted whatever happens inside |
| Guard.Guard.CheckAndAct | internal/bootstrap/guard.go:96-109 | the check and the coordinator under the lock, with the coordinator's own answer |
| AdvisoryLock.StepPlaced | internal/persistence/postgres/lock.go:50-93 | every step keeps each session idle or in one place, and acquired connections equal to released and borrowed ones |
| AdvisoryLock.StepOwned | internal/persistence/postgres/lock.go:56-92 | while unlock queries succeed, every step keeps one holder, never an idle session |
| AdvisoryLock.AlwaysOwned | internal/persistence/postgres/lock.go:50-93 | both over every run of any calls by any instances |
| AdvisoryLock.StoredNeverOverwrites | internal/persistence/postgres/lock.go:67-67 | a connection is stored only into an empty field |
| AdvisoryLock.QuiescentLock | internal/persistence/postgres/lock.go:33-37 | between calls the lock is held exactly by the one retained connection |
| AdvisoryLock.RefinesAbstractLock | internal/persistence/postgres/lock.go:46-73 | seen through its holder, each step is a step of the abstract lock |
| AdvisoryLock.UnlockFreesExactly | internal/persistence/postgres/lock.go:79-87 | an unlock frees the lock exactly when its query succeeds |
| AdvisoryLock.LeakIsForever | internal/persistence/postgres/lock.go:83-86 | after a failed one the lock is never free again, whatever calls follow |
| AdvisoryLock.OwnedExactlyWhenUnlocksSucceed | internal/persistence/postgres/lock.go:50-93 | over every run, one holder and no idle holder exactly when every unlock query succeeded |
| AdvisoryLock.AdvisoryLock.TryLock | internal/persistence/postgres/lock.go:50-69 | is a run of the protocol; stores a connection exactly when it answers true; over a reliable pool it answers whether the lock was free |
| AdvisoryLock.AdvisoryLock.Unlock | internal/persistence/postgres/lock.go:74-93 | is a run of the protocol; clears the field and returns the connection whatever the query answers; over a reliable pool it fails exactly when the session did not hold the lock |
| Lxd.Fake.GetClusterStatus | internal/lxd/fake/fake.go:246-255 | reports whether the node is clustered |
| Lxd.Fake.GetClusterCertificate | internal/lxd/fake/fake.go:259-267 | the certificate, or an error when there is none |
| Lxd.Fake.GetClusterMembers | internal/lxd/fake/fake.go:148-158 | every member once, in no particular order |
| Lxd.Fake.InitCluster | internal/lxd/fake/fake.go:273-292 | clusters an unclustered node, and tells a clustered one apart |
| Lxd.Fake.JoinCluster | internal/lxd/fake/fake.go:298-317 | the same for joining |
| Formation.StepConsistent | internal/bootstrap/bootstrap.go:113-200 | every step of any call keeps both nodes' progress and lets the joiner follow the seed only |
| Formation.RunConsistent | internal/bootstrap/bootstrap.go:113-200 | so does every interleaving of any number of calls |
| Formation.FormedOnce | internal/lxd/client.go:75-85 | each node becomes clustered at most once and never stops being so |
| Formation.JoinerAfterSeed | internal/bootstrap/bootstrap.go:146-191 | the joiner becomes clustered only when the seed already is |
| Formation.RerunIssuesNothing | internal/bootstrap/bootstrap.go:111-112 | after a call returned nil, no later call reaches an init or a join |
| Formation.NothingToForm | internal/bootstrap/bootstrap.go:111-112 | with both nodes clustered from the start no call does |
| Bootstrap.RunMeans | internal/bootstrap/bootstrap.go:113-200 | what the protocol's invariants say about one call's node states and call counts |
| Bootstrap.Bootstrapper.Bootstrap | internal/bootstrap/bootstrap.go:113-200 | is a run of the protocol; nil means both nodes clustered, both names listed and exactly the unclustered nodes called upon, each once with its own settings; progress survives failures; without failures, on a seed with a certificate, nil exactly when it lists both names |
| Bootstrap.Bootstrapper.FormSeed | internal/bootstrap/bootstrap.go:118-154 | at most one init, each field from its own setting, none on a clustered seed, and one on an unclustered seed whenever it succeeds |
| Bootstrap.Bootstrapper.FormJoiner | internal/bootstrap/bootstrap.go:156-191 | at most one join, with the seed's address and certificate, none on a clustered joiner, and one on an unclustered joiner whenever it succeeds |
| Bootstrap.Bootstrapper.VerifyMembers | internal/bootstrap/bootstrap.go:203-221 | succeeds only when both names are members |
| Bootstrap.ListedMeansOnline | internal/bootstrap/bootstrap.go:193-221 | being listed means being online exactly when every member in the list is online |
| Bootstrap.OfflineMembersPass | internal/bootstrap/bootstrap.go:111-112 | a bootstrap that returns nil while the seed lists both members as offline |
| Bootstrap.ReadinessCheck.Check | internal/bootstrap/workflow.go:49-54 | passes when the endpoint answers and fails when it is down |
| Bootstrap.Workflow.Run | internal/bootstrap/workflow.go:134-155 | ready exactly when every check passed in order and the bootstrap returned nil; always ready where no endpoint fails, the configuration is complete and the seed has a certificate and lists both members; never while a checked endpoint is down; a failed check leaves both nodes untouched |
| MigrationPaths.VersionRoundTrip | internal/migration/runner.go:294-300 | the version is recovered from its up and its down path |
| MigrationPaths.VersionEndsAtFirstDot | internal/migration/runner.go:287-300 | the version is what stands before the first dot of the file name exactly when it has no dot |
| MigrationPaths.DottedVersion | internal/migration/runner.go:287-293 | a path whose version goes beyond the first dot |
| MigrationPaths.PathOrderIsVersionOrder | internal/migration/runner.go:164-183 | in one directory, for versions of bytes above the dot, path order is version order |
| MigrationPaths.HyphenBreaksOrder | internal/migration/runner.go:181-181 | a byte below the dot breaks it |
| Migration.OneListing | internal/migration/runner.go:167-182 | two ascending listings of the same files, each once, are equal, so the order of the walk is forgotten |
| Migration.PlayMeans | internal/migration/runner.go:65-75 | the fold of scripts and version rows is defined exactly when each script runs on the schema the one before left and no version is recorded twice; it ends at the last schema with every version recorded |
| Migration.RerunCompletes | internal/migration/runner.go:65-77 | after an Up that stopped anywhere, the rest is pending, and applying it gives the uninterrupted state |
| Migration.NothingLeft | internal/migration/runner.go:66-77 | after a successful Up nothing is pending |
| Migration.UpMoves | internal/migration/runner.go:65-75 | from the first k migrations, n applied files lead to the first k + n |
| Migration.UndoMoves | internal/migration/runner.go:83-118 | from the first k migrations, a successful Down leads to the first k - 1 |
| Migration.RunKeepsPrefix | internal/migration/runner.go:50-118 | over every run of Ups and Downs from an empty database, the first k up scripts have run one after another, each on the schema the one before left, and exactly their versions are recorded |
| Migration.DownsUndoUp | internal/migration/runner.go:83-118 | an Up that applied n files is undone by n Downs |
| Migration.DownTakesLastApplied | internal/migration/runner.go:207-219 | Down takes back what the last Up applied last exactly when no version recorded before is above it |
| Migration.LateVersionKept | internal/migration/runner.go:80-82 | a version that arrives late is not what Down takes back |
| Migration.LastInFirstOut | internal/migration/runner.go:207-218 | where every script runs and has an inverse, Down leads from every prefix to the one before it exactly when versions increase along the paths |
| Migration.OneDirectoryIncreasing | internal/migration/runner.go:164-183 | the repository's own layout meets that condition |
| Migration.Runner.ListFiles | internal/migration/runner.go:164-183 | exactly the files with the suffix, ascending |
| Migration.Runner.ReadFile | internal/migration/runner.go:269-285 | the script of the path |
| Migration.Runner.ApplyFile | internal/migration/runner.go:221-243 | on success the schema is what the script made of the schema it found, and exactly its version is new; no change otherwise |
| Migration.Runner.RollbackFile | internal/migration/runner.go:245-267 | on success the schema is what the rollback script made of it, and exactly its version is gone; no change otherwise |
| Migration.Runner.LatestVersion | internal/migration/runner.go:207-219 | the highest recorded version, empty when there is none |
| Migration.Runner.Up | internal/migration/runner.go:50-78 | the first n pending scripts have run one after another, each with its version row, and nothing of the next; after success the version of every forward file is recorded; without outside failures it stops only at a file that cannot be applied |
| Migration.Runner.Down | internal/migration/runner.go:83-118 | a rollback script of the highest version has run and only that version is gone, or no change; without outside failures it fails only when that script is missing or fails |

## Left out

- HTTP API, authentication, configuration loading, logging, contexts, the interval timer: request plumbing around the loop.
- The LXD REST client: endpoints are the executable contract of the fake, with any call allowed to fail and a failed init or join allowed to have taken effect.
- The fake's seeding and error-injection methods, its instances and `MoveInstance`: the loop never moves instances; errors are the unreliable flag.
- Hetzner and Pulumi providers: asking for a server is an answer from outside. `DeprovisionServer` and `GetServerInfo` have no caller.
- PostgreSQL repositories and their SQL checks: repositories are the in-memory tables, with any call allowed to fail without effect.
- Reading single rows, and update times: nothing in the loop depends on them.
- Random ids and name suffixes: ids are any fresh non-empty string, a suffix is an input; "the same state" is up to the ids and creation times of new rows, and of several rows under one member name the one listed last is indexed.
- Rounding of the score: scores are exact rationals, so two nodes whose float64 scores round to the same value are told apart here.
- Aliasing of configuration maps: they are immutable values.
- Go's map iteration is an arbitrary choice at each step; `sort.Slice` is a selection sort with the source's comparison; `sort.Strings` is its contract.
- A crash of one process inside the advisory lock protocol: ending a session frees its lock; crashes are part of the startup protocol in `Guard`, whose lock is the abstract one.
- The seed and the joiner are two different endpoints.
- Error texts, and the list of missing fields in a configuration error: an error names the failed step.
- `Status` of the migration runner: a read of the recorded versions.
- Scale-in, watermarks, cooldown and live migration are described in documents only; no code implements them.
- Placement.CapacityRespected: assumes that the sizes of all limits together stay below 2^63; beyond that the 64-bit sums wrap. Placement.Maximal also assumes that no limit is negative, since placing a negative one makes room.
- NodeSync.SyncRefinesPostState: assumes rows named by their member, which every sync keeps; scale-out rows are not, and `Findings` says what follows.
- Guard.AtMostOneBootstrap: assumes that a coordinator run that succeeds records a cluster.
- AdvisoryLock.AlwaysOwned: assumes that unlock queries succeed; what happens otherwise is AdvisoryLock.LeakIsForever.
- Migration.RunKeepsPrefix: assumes versions that increase along the paths and rollback scripts that invert their forward scripts.
