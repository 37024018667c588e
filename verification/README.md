# A verified model of the optical circuit switch control plane

The repository controls an emulated optical circuit switch: a logical set of port connections
becomes a table of directed port pairs, which is pushed to a device that can fail at any request.
This project models that stack in Dafny 4.11 and proves what its layers promise each other.
`dafny verify dfyconfig.toml` checks all of it.

## What is modelled

**Device and transition** (`DeviceTable`, `Transaction`, `P4App`, `Bfrt`).  A device is a set of
pairs, a fault script that decides the fate of every request ever sent, and the log of those
requests.  A failing request may have written any part of what was applicable.  `Transaction` is
the transition both adapters run: plan, delete, pause, insert, read back; on any failure restore
by difference and read back again.  The adapters are classes whose methods are proved to be that
transition; the BFRT adapter is proved through the logical view of its device-numbered table, and
`BfrtSafety` brings port exclusivity back to the device ports.  `Forecast` tells from arguments,
table and script when a transition returns, rolls back and writes, `Sparing` what exactly it writes and
what it leaves alone, and `Exclusivity` when it keeps every port to one peer.

**Device Worker** (`DeviceWorker`, `WorkerService`).  A cache with a generation counter, a
compare-and-swap on generation and entries, reconcile and recover; over whole runs.
`WorkerForecast` tells before a call whether it lands, whether it writes, what it answers and which
cache status it leaves, and `WorkerExclusivity` follows port exclusivity over runs.

**Agents.**  `OcsCore`, `OcsService` and `OcsRuns` are the Python agent over an in-process
P4Runtime adapter: one atomic step per call, the class that refines it, and theorems about whole
runs; `OcsAnswers` tells every answer before the call, `OcsRest` is about what calls leave behind, and
`OcsStatus` and `OcsExclusivity` follow that over runs, which `OcsHistory` lays out state by state.
`GoCore`, `GoService`, `Split`, `SplitSafety`, `SplitRuns`, `SplitJobs`, `SplitProgress`, `SplitGate`,
`SplitStatus` and `SplitExclusivity` are the Go agent with its client, and
the distributed protocol with the worker: sections of different calls interleave, requests and replies
get lost, and a request may be carried out long after its caller gave up.  `Lease` is the control
lease of both, `AgentModel` their common state.

**Connections** (`Inventory`, `Connections`, `Permutations`, `Matchings`).  Partial matchings on
ports, batches of edits, the round trip with fixed-point-free involutions, and the enumeration of
all perfect matchings, for every number of ports.

**Edges** (`Gnmi`, `PingAll`).  What Get filtering leaves, in which order Set works (section 3.4.3
of the gNMI Specification), and the flat-index decoding of the connectivity test.

## How to read it

Pure functions (`Apply`, `Step`, ...) say what a call does; the class methods carry the loops and
assignments of the source and are proved to compute those functions; the lemmas say what the
functions mean.  A statement about every fault script, or every run, is a statement about every
way in which things can fail.

## Where the code and its promises differ

- The P4Runtime adapter calls `time.sleep` without importing `time`
  (agent/python/ocs_agent/backends/p4app.py:218), so a transition with a nonzero pause never
  succeeds (`Transaction.P4AppNeverPauses`).
- "With at most one failing request the table ends at the target or restored" is false from a
  table with a stray entry: read-back notices it without any request failing, and the one failure
  can then hit the rollback; and when writes are only acknowledged nothing notices it at all.
  `Transaction.OneFailureSurvivedIff` gives the exact condition for every adapter,
  `Transaction.OneFailureNotSurvivedWithAStrayEntry` and `Transaction.StrayEntryUnnoticed` the
  inputs.
- The Python status is not always "ready" or "error" between calls
  (agent/python/ocs_agent/core.py:427, 525-528).  `OcsRest.LeftUpdatingIff` says exactly when, from
  what is known before the call, `OcsStatus.UpdatingIff` over whole runs;
  `OcsRest.RejectedModeStaysUpdating` is an input.
- With the in-process adapter READY is no promise about the table: a failed rollback sets the status
  to "error" but leaves the cache status, and the next write is admitted
  (agent/python/ocs_agent/core.py:123-127, 485-487).  `OcsRest.ReadyDeceivesIff` says exactly when,
  `OcsStatus.DeceivingIff` over whole runs, `OcsRest.BrokenRollbackStaysReady` is an input reached from
  startup.  The agreement theorem of the Python agent therefore speaks of the status.
- So the Python agent does not keep every port to one peer: the write admitted after a failed rollback
  adds its entries to what the failed one left (agent/python/ocs_agent/core.py:485-509).
  `OcsExclusivity.TwoPeersBehindReady` is an input, `OcsExclusivity.StaysExclusiveIff` says exactly
  which calls can do it, and `OcsExclusivity.ExclusiveUnlessRisked` that without them it never happens.
  Of the Device Worker, and of the Go agent in "ocs" mode without outside edits, it holds in every run
  (`WorkerExclusivity.RunKeepsExclusive`, `SplitExclusivity.NoPortEverHasTwoPeers`).
- The Go agent can be "ready" over a cache that is not READY, in two ways: after a recovery that
  failed and restored the old table (agent/go/internal/agent/core.go:701), and after startup against
  a worker that has marked itself drifted or unknown, because startup compares only the cached
  entries (agent/go/internal/agent/core.go:189-203).  `SplitStatus.ReadyUnconfirmedIff` says exactly
  when, over runs; `SplitStatus.RecoversToUnconfirmed` and `SplitStatus.BootsReadyOverDrift` are
  inputs.  Its agreement theorem therefore speaks of status, client cache and generation together.
- The startup gate of the Go agent stops the agent, not the worker: a transition or recovery that an
  earlier agent has left under way is carried out behind the gate
  (agent/go/internal/agent/core.go:203-222).  `SplitGate.OnlyLeftoversWrite` says exactly when the
  device is written to, `SplitGate.LeftoverWritesBehindGate` is an input.
- "Ready" with a READY client may be out of date: a late request can land unseen.
  `SplitStatus.GoesStaleIff` says exactly when, `SplitStatus.LeftoverGoesUnseen` is an input, and
  `SplitSafety.ChangesShow` is why the agreement theorem's premise of equal generations catches it --
  also for late recoveries, which carry no generation, and late reconciliations.
- A Get of config below a path that names `state` answers with that container, which filtering
  first would have removed (`Gnmi.CommutesIff`, `Gnmi.StateUnderConfig`).

## Model

| member | source | states |
|---|---|---|
| `DeviceTable.Switch.Write` | `agent/proto/check_compatibility.py:98-136` | a request succeeds only if it works and every entry is applicable (no duplicate insert, no missing delete); otherwise any part of the applicable entries may have been written; the request is logged |
| `DeviceTable.Switch.Fetch` | `agent/proto/check_compatibility.py:98-136` | a read may fail, changes nothing, and is truthful |
| `DeviceTable.SendAllOutcome` | `agent/python/ocs_agent/backends/p4app.py:112-124` | one request per entry stops at the first error with exactly one failed request behind it, or has carried out everything with as many requests as entries |
| `Transaction.ApplyOutcome` | `agent/python/ocs_agent/backends/p4app.py:174-262` | for every table, fault script, strategy, transport and delay: a rejected call changes nothing, a normal return means the table is the target, a restored error means it is the previous set |
| `Transaction.NeverMixed` | `agent/python/ocs_agent/backends/p4app.py:112-262` | from a table equal to the previous set the table is, at every instant of every request of update and rollback, part of the previous set or part of the target |
| `Transaction.OneFailureSurvivedIff` | `agent/python/ocs_agent/backends/p4app.py:162-262` | for every adapter: under at most one failing request the call returns with the table at the target or rolls back to the previous set, if and only if it cannot slip (`Slips`, on arguments and table): it is not so that all planned deletions apply and then either the pause cannot be taken or all insertions apply although the table was not the previous set |
| `Transaction.StrayEntryUnnoticed` | `agent/python/ocs_agent/backends/bfrt.py:300-395` | an input for acknowledged writes: with a stray entry and no failing request the call returns and the table is neither set |
| `Transaction.OneFailureNotSurvivedWithAStrayEntry` | `agent/python/ocs_agent/backends/p4app.py:162-262` | a concrete table with a stray entry and one failing read after which the table is neither target nor previous set |
| `Transaction.StumblesThenFails` | `agent/python/ocs_agent/backends/p4app.py:162-172` | whenever an update can stumble, the script that fails only the first read of the rollback leaves a failed rollback, and this is the table it leaves |
| `Transaction.ReturnsIffUndisturbed` | `agent/python/ocs_agent/backends/p4app.py:174-262` | with no failing request an accepted call returns exactly if the table was the previous set (for adapters that read back) and the pause can be taken; otherwise it rolls back |
| `Transaction.UndisturbedReturnsIff` | `agent/python/ocs_agent/backends/p4app.py:174-262` | from the previous set and without failing requests exactly these calls end at the target: FULL or DELTA, single requests or offered batches, a pause of at most a second that can be taken; every other call leaves the table |
| `Transaction.RestoreOutcome` | `agent/python/ocs_agent/backends/p4app.py:162-172` | a successful rollback restores the previous set from any table; an unsuccessful one met exactly one failing request |
| `Sparing.RestoreSpares` | `agent/python/ocs_agent/backends/p4app.py:162-172` | the rollback restores by difference: from any table and under every script, what is in the table and belongs there stays at every instant of every request |
| `Sparing.RestoreWritesExactly` | `agent/python/ocs_agent/backends/bfrt.py:288-298` | the rollback deletes and inserts nothing but the difference between what it has read and the previous set, and all of it when it succeeds; entry by entry for the P4Runtime adapter, at most one batch of each kind for the BF Runtime adapter |
| `Forecast.RestoresIff` | `agent/python/ocs_agent/backends/p4app.py:162-172` | a rollback succeeds exactly if its two reads and the writes of the difference work |
| `Sparing.DeltaSpares` | `agent/python/ocs_agent/backends/p4app.py:185-224` | DELTA never interrupts what both sets share: it stays in the table at every instant of update and rollback, under every script |
| `Sparing.WritesExactly` | `agent/python/ocs_agent/backends/p4app.py:185-224` | the entries named by the logged requests of a completed transition: FULL deletes the previous set and inserts the target, DELTA exactly the difference; the counters say so; single requests name single entries, and there is at most one batch of each kind |
| `Sparing.P4AppDoes` | `agent/python/ocs_agent/backends/p4app.py:174-262` | the P4Runtime adapter from the previous set: without failing requests exactly the calls without a pause return, by single requests or by configured batches, and every return ends with a read of the target |
| `Sparing.BfrtDoes` | `agent/python/ocs_agent/backends/bfrt.py:300-395` | the BF Runtime adapter: a pause of up to a second, either transport; a return ends with a read, or, when writes are only acknowledged, has sent none |
| `Sparing.RollbackTransports` | `agent/python/ocs_agent/backends/bfrt.py:288-298` | the P4Runtime adapter rolls back entry by entry, the BF Runtime adapter in at most one batch of each kind |
| `Transaction.Accounting` | `agent/python/ocs_agent/backends/p4app.py:185-205` | deletes + kept = size of previous and inserts + kept = size of target for both strategies; the counted write requests are those that the device log gained: deletes + inserts when sequential, at most two in batches |
| `Transaction.Requests` | `agent/python/ocs_agent/backends/p4app.py:112-124` | the request counter is what plan and transport determine, whatever the table was |
| `Forecast.ReturnsIff` | `agent/python/ocs_agent/backends/p4app.py:174-262` | told before the call, for every table and script: a transition returns exactly if it is accepted, its pause can be taken, the planned deletions are in the table, the planned insertions are not, the table is the previous set if it is read back, and the requests of the plan work |
| `Forecast.WritesIff` | `agent/python/ocs_agent/backends/p4app.py:162-262` | told before the call: a transition sends a write request exactly if its plan has one, or the empty plan fails -- on its pause or on reading back -- and the rollback can read a table other than the previous set |
| `Transaction.P4AppNeverPauses` | `agent/python/ocs_agent/backends/p4app.py:215-219` | a transition with a nonzero pause never returns |
| `Transaction.DeltaSendsNoMore` | `agent/python/ocs_agent/backends/p4app.py:185-224` | DELTA never sends more requests than FULL |
| `P4App.P4AppBackend.Apply` | `agent/python/ocs_agent/backends/p4app.py:174-262` | refines the transition, and says outright what each outcome means for the table |
| `Bfrt.NormalizePortMap` | `agent/python/ocs_agent/backends/bfrt.py:73-98` | a port map is accepted exactly if it is a one-to-one map from exactly 1..n |
| `Bfrt.ViewInvertsImage` | `agent/python/ocs_agent/backends/bfrt.py:201-225` | logical view and device-numbered image are inverse to each other, in both directions |
| `Bfrt.SendRefines` | `agent/python/ocs_agent/backends/bfrt.py:263-286` | any request on device-numbered entries is, seen logically, the same request on logical entries with the same answer; foreign entries are never touched |
| `Bfrt.BFRTBackend.ReadPairs` | `agent/python/ocs_agent/backends/bfrt.py:236-256` | reads exactly the logical table; raises iff the read fails or a foreign entry is in the table |
| `Bfrt.BFRTBackend.Apply` | `agent/python/ocs_agent/backends/bfrt.py:300-395` | refines the transition; generation and cache status move exactly as the outcome says; the device-numbered table is at every instant part of the image of the previous set or of the target |
| `BfrtSafety.NoDevicePortHasTwoPeers` | `agent/python/ocs_agent/backends/bfrt.py:263-376` | between two valid connection sets no device port ever has two peers, at any instant |
| `Exclusivity.TransitionStaysExclusive` | `agent/python/ocs_agent/backends/p4app.py:112-262` | from a table equal to the previous set, with exclusive sets, every instant of update and rollback has one peer per port, and so has the table left behind |
| `Exclusivity.AlwaysExclusiveIff` | `agent/python/ocs_agent/backends/p4app.py:112-262` | from an exclusive table that need not be the previous set: a call keeps one peer per port under every fault script if and only if the planned deletions do not all apply, or the pause cannot be taken, or what is left then is exclusive together with what the insert phase can bring in (`Fits`, on arguments and table) |
| `DeviceWorker.StepKeeps` | `agent/python/ocs_agent/device_worker.py:109-278` | every call keeps "READY implies that the cached entries are the table"; the generation moves by at most one, exactly on a successful apply or recover; the drift counter counts entries into DRIFTED |
| `DeviceWorker.CompareAndSwap` | `agent/python/ocs_agent/device_worker.py:114-209` | an apply succeeds only for the current generation and entries and then installs its target; a refused one changes nothing |
| `DeviceWorker.ReplyTells` | `agent/python/ocs_agent/device_worker.py:70-87` | what a caller may conclude from a reply alone |
| `DeviceWorker.UndisturbedSwap` | `agent/python/ocs_agent/device_worker.py:114-209` | a transition that the preconditions let through succeeds unless a device request fails or the pause cannot be taken |
| `DeviceWorker.RestoredRecoveryIff` | `agent/python/ocs_agent/device_worker.py:225-278` | a recovery answers failed and restored exactly if its first read works, the transition is accepted, the update fails and the rollback succeeds; the cache is DRIFTED then |
| `WorkerForecast.EntriesChangeIff` | `agent/python/ocs_agent/device_worker.py:114-278` | the cached entries become those asked for exactly if the call passes its checks, is accepted, its plan fits the table, and the requests of its plan (and the reads of a recovery) work -- told from the worker before the call; otherwise they stay |
| `WorkerForecast.DisturbsIff` | `agent/python/ocs_agent/device_worker.py:114-278` | a call sends the device a write request exactly if it gets past its checks and reads and its transition writes, told before the call; otherwise the table stays |
| `WorkerForecast.ReconcileJudges` | `agent/python/ocs_agent/device_worker.py:211-223` | from any worker: if the read works the cache is READY afterwards exactly if table, cached entries and the desired set agree, DRIFTED otherwise; if it fails cache and drift counter stay |
| `WorkerForecast.CacheAfterIff` | `agent/python/ocs_agent/device_worker.py:109-278` | the cache status after any call is told before it: READY after an apply that returns or restores and a recovery that succeeds, DRIFTED after a strict read or reconciliation that disagrees and a recovery that restores, UNKNOWN after a failed rollback |
| `WorkerForecast.ApplyRepliesIff` | `agent/python/ocs_agent/device_worker.py:114-209` | the code of every reply to an apply is told from the worker, the table and the script before it |
| `WorkerForecast.RecoverRepliesIff` | `agent/python/ocs_agent/device_worker.py:225-278` | a recovery always answers, with the code that its forecast says |
| `WorkerForecast.CallsHeal` | `agent/python/ocs_agent/device_worker.py:150-278` | after an outside edit: any recovery, a reconciliation that can read, and a strict apply that gets to read make READY truthful again |
| `WorkerForecast.UndisturbedRecovery` | `agent/python/ocs_agent/device_worker.py:225-278` | from any worker, whatever its cache and table: an accepted recovery whose pause can be taken answers success and READY with one more generation, and entries and table are the desired set, unless a device request fails |
| `WorkerExclusivity.RunKeepsExclusive` | `agent/python/ocs_agent/device_worker.py:114-278` | over every run of calls with exclusive targets, from a truthful worker over an exclusive table: every instant of every request has one peer per port, also after failed rollbacks and recoveries |
| `DeviceWorker.RunInvariants` | `agent/python/ocs_agent/device_worker.py:52-61` | over all runs: READY is truthful, generation = 1 + successful changes, drift count = entries into DRIFTED |
| `DeviceWorker.GenerationUsedOnce` | `agent/python/ocs_agent/device_worker.py:135-142` | at most one apply succeeds per expected generation |
| `WorkerService.DeviceBackendService.Create` | `agent/python/ocs_agent/device_worker.py:40-61` | reads the table and starts at generation 1 with it as its cache; raises exactly if the read fails |
| `WorkerService.DeviceBackendService.ApplyTransition` | `agent/python/ocs_agent/device_worker.py:114-209` | refines the worker step |
| `WorkerService.DeviceBackendService.Reconcile` | `agent/python/ocs_agent/device_worker.py:211-223` | refines the worker step |
| `WorkerService.DeviceBackendService.Recover` | `agent/python/ocs_agent/device_worker.py:225-278` | refines the worker step |
| `Lease.RunInvariants` | `agent/python/ocs_agent/core.py:198-279` | the live token is the latest granted one, the epoch counts grants, and under a monotone clock the remaining time never exceeds the maximum |
| `Lease.EpochsIncrease` | `agent/python/ocs_agent/core.py:206-222` | epochs strictly increase |
| `Lease.OnlyTheLatestIsLive` | `agent/python/ocs_agent/core.py:273-279` | an accepted token is the latest granted one |
| `Lease.Fenced` | `agent/go/internal/agent/core.go:344-397` | with fresh tokens, a token is refused forever once a later acquire has succeeded |
| `Lease.UnrenewedExpires` | `agent/go/internal/agent/core.go:298-334` | a lease that nobody renews is gone once the clock has advanced by the maximum |
| `Lease.AcceptedIff` | `agent/python/ocs_agent/core.py:198-279` | over all runs with a monotone clock: until the next grant or release a granted token -- and no other -- is taken, and acquires are turned away as held, exactly while the clock has not advanced by the granted duration, which is what was asked for up to the maximum |
| `Lease.GrantedIff` | `agent/python/ocs_agent/core.py:206-229` | a call that is not turned away is granted unless it asks for a negative duration |
| `Lease.FreeUntilGranted` | `agent/python/ocs_agent/core.py:231-237` | from an accepted release to the next grant no token is taken and no acquire is turned away as held |
| `Connections.NewConnectionSet` | `agent/go/internal/model/model.go:118-137` | a list is accepted exactly if it is a matching of known ports under distinct names; otherwise the first offending connection is reported |
| `Connections.ValidateConnection` | `agent/go/internal/model/model.go:74-97` | accepts exactly the well-formed connections, with the first applicable error |
| `Connections.CollectDirectedPairs` | `agent/python/ocs_agent/model.py:186-193` | the loop collects the directed pairs |
| `Connections.PairsMatch` | `agent/python/ocs_agent/model.py:186-193` | the pairs of a valid set are a symmetric partial matching on 1..n with two pairs per connection |
| `Connections.EqualSetsSamePairs` | `agent/go/internal/model/model.go:227-229` | sets equal by name have the same pairs |
| `Connections.EqualIff` | `agent/go/internal/model/model.go:227-229` | sets are equal exactly if they have the same connections, in whatever order |
| `Connections.NoPortHasTwoPeers` | `agent/python/ocs_agent/backends/p4app.py:112-262` | between two valid sets, from a table equal to the old one, no port has two peers at any instant of update and rollback, whatever fails; `Exclusivity.AlwaysExclusiveIff` is about other tables |
| `AgentModel.CurrentPairsMean` | `agent/go/internal/model/model.go:247-258` | the pairs that the device is to hold: in "ocs" mode a symmetric matching with two pairs per connection, in debug mode exactly all n(n-1) pairs of different ports |
| `Connections.DeleteMeaning` | `agent/python/ocs_agent/model.py:180-184` | deleting removes exactly the named connection and fails iff there is none |
| `Connections.ReplaceMeaning` | `agent/go/internal/model/model.go:192-201` | replacing keeps all others and fails iff the new connection is malformed or meets a port of another one |
| `Connections.ReplaceAllMeaning` | `agent/go/internal/agent/core.go:495-500` | after any edits that apply, replacing everything by t leaves exactly t; an unknown edit or a missing set fails the batch |
| `Connections.EditsKeepValid` | `agent/python/ocs_agent/core.py:591-623` | every intermediate set of a batch is a valid matching |
| `Connections.EditsCompose` | `agent/go/internal/agent/core.go:480-503` | the fold over a batch composes |
| `Connections.ReachAnySet` | `agent/go/internal/agent/core.go:480-503` | deleting all names of S and then replacing by each connection of T yields exactly T |
| `Permutations.SortedCheckMeans` | `agent/python/ocs_agent/model.py:216-235` | sorted(values) == [1..n] says: within range and no repeats |
| `Permutations.CheckSymmetric` | `benchmarks/batch_latency.py:45-53` | accepts exactly the fixed-point-free involutions |
| `Permutations.ValidateMapping` | `targets/tofino/runtime/config/device_profile.py:121-140` | accepts exactly the fixed-point-free involutions of the given size |
| `Permutations.ValidatePi` | `benchmarks/batch_latency.py:45-53` | accepts exactly the nonempty ones; the parity check rejects nothing more (validatePermutation of the Go benchmark, agent/go/cmd/ocs-benchmark/main.go:1161-1178, makes the same checks) |
| `Permutations.PairingsAreEven` | `agent/python/ocs_agent/model.py:216-246` | an accepted list has twice as many entries as connections |
| `Permutations.FromPermutationPython` | `agent/python/ocs_agent/model.py:216-246` | accepts exactly the fixed-point-free involutions and builds the valid set of their lower ends |
| `Permutations.FromPermutationGo` | `agent/go/internal/model/model.go:139-176` | the same, by the seen-array algorithm |
| `Permutations.CheckSeen` | `agent/go/internal/model/model.go:143-153` | the seen-array pass accepts exactly the lists within range, without repeats and without fixed points; symmetry is left to the second pass |
| `Permutations.CanonicalPairs` | `agent/go/internal/model/model.go:139-176` | the built set has exactly the graph of the permutation as its pairs |
| `Permutations.ToPermutation` | `agent/python/ocs_agent/model.py:200-214` | succeeds exactly on full sets; the zero-slot error after the size check can never occur |
| `Permutations.PermutationRoundTrip` | `agent/go/internal/model/model.go:231-245` | to_permutation(from_permutation(pi)) == pi |
| `Permutations.RebuildKeepsPairs` | `agent/python/ocs_agent/model.py:200-246` | rebuilding a full set from its permutation keeps its directed pairs |
| `Matchings.PairingsSound` | `benchmarks/batch_latency.py:60-69` | every listed pairing is a fixed-point-free involution of the ports |
| `Matchings.PairingsComplete` | `benchmarks/batch_latency.py:60-69` | every fixed-point-free involution is listed |
| `Matchings.PairingsDiffer` | `benchmarks/batch_latency.py:60-69` | none is listed twice |
| `Matchings.PairingsCount` | `benchmarks/batch_latency.py:56-78` | there are (n-1)!! of them |
| `Matchings.MatchingPermutations` | `benchmarks/batch_latency.py:56-78` | for every even n the list is sound, complete and free of duplicates, with (n-1)!! elements; odd counts and counts below 2 are refused |
| `Matchings.MatchingPermutationsGo` | `agent/go/cmd/ocs-benchmark/main.go:1132-1159` | the recursive closure that appends to a captured list builds the same list |
| `Matchings.SwapIsPairing` | `benchmarks/batch_latency.py:81-99` | exchanging the peers of two pairs gives a valid setting that differs in exactly four slots |
| `Matchings.AlternatePi` | `benchmarks/batch_latency.py:81-99` | the neighbour of a setting is another valid one that differs in exactly four slots |
| `OcsCore.StartAgrees` | `agent/python/ocs_agent/core.py:70-101` | construction agrees with the device or closes the gate without having written |
| `OcsCore.ProgramKeeps` | `agent/python/ocs_agent/core.py:427-509` | ready after a failed write means the table is the old one |
| `OcsCore.BatchAllOrNothing` | `agent/python/ocs_agent/core.py:591-623` | a batch takes effect as a whole or connections, mode and revision stay, and -- unless the rollback failed -- so does the table; a batch with a failing edit changes nothing at all |
| `OcsCore.SetModeKeeps` | `agent/python/ocs_agent/core.py:636-754` | the same for a change of mode |
| `OcsCore.RecoverKeeps` | `agent/python/ocs_agent/core.py:756-811` | a recovery succeeds only at the expected revision and leaves the table equal to the current pairs and the gate open |
| `OcsCore.ReconcileViewKeeps` | `agent/python/ocs_agent/core.py:142-177` | reconciliation keeps the agreement, the gate and the table |
| `OcsCore.UndisturbedUpdates` | `agent/python/ocs_agent/core.py:397-528` | a write of connections by the holder of an unexpired lease at the current revision, outside the gate and with a READY cache, takes effect unless a device request fails |
| `OcsCore.UndisturbedRecovers` | `agent/python/ocs_agent/core.py:756-811` | from any state, behind the gate or not: a recovery by the holder of an unexpired lease at the current revision, with terms that the adapter accepts, succeeds, opens the gate, and leaves status ready, cache READY and the table at the current pairs, unless a device request fails |
| `OcsCore.ChecksIff` | `agent/python/ocs_agent/core.py:285-313` | the checks let a recovery through exactly for the holder of an unexpired lease at the current revision, behind the gate or not, and a write exactly if moreover the gate is open and the cache READY |
| `OcsAnswers.WriteAnswers` | `agent/python/ocs_agent/core.py:397-528` | every answer of a batch that gets to the device is told before it from state, table and script: "updated" exactly if the transition will return, with the connections, revision, status, cache and table that the batch asks for; restored, broken, drift and rejections likewise, with what each leaves; "unchanged" exactly if the connections are the same |
| `OcsAnswers.ModeAnswers` | `agent/python/ocs_agent/core.py:636-754` | the same for a change of mode, always written in full |
| `OcsAnswers.RolledBackMayRetry` | `agent/python/ocs_agent/core.py:485-509` | after a write that was rolled back the agent is ready over the right table and the same caller passes the checks again |
| `OcsAnswers.RecoverAnswers` | `agent/python/ocs_agent/core.py:756-811` | from any state: "recovered" exactly for the lease holder at the current revision whose transition will return and be read back, and then everything is right and the gate open; any other call that was let through ends in "error" over an UNKNOWN cache |
| `OcsAnswers.ReconcileAnswers` | `agent/python/ocs_agent/core.py:142-177` | from any state: UNKNOWN and "error" if it cannot read, DRIFTED and "error" behind the gate, and otherwise READY exactly if the table is right; a drift that is over is forgotten and every other status stays |
| `OcsAnswers.StartsIff` | `agent/python/ocs_agent/core.py:70-101` | construction succeeds exactly if the read works and the table is right, a mismatch is to be left alone, or the transition will return; ready and READY exactly outside the gate |
| `OcsRest.LeftUpdatingIff` | `agent/python/ocs_agent/core.py:427-528` | from any state: a call that judges the status (`SetsStatus`) leaves it at "updating" exactly if it is a write or mode change that passes every check and would change something, and then the strict read fails or -- the table being as a strict agent expects -- the adapter does not accept strategy or transport; other calls leave the status alone; all told before the call |
| `OcsStatus.UpdatingIff` | `agent/python/ocs_agent/core.py:427-528` | over all runs from startup: the status is "updating" exactly if such a call was made and no later one has judged the status |
| `OcsRest.RejectedModeStaysUpdating` | `agent/python/ocs_agent/core.py:636-754` | an input: debug mode by native batches, from an adapter without them |
| `OcsRest.ReadyDeceivesIff` | `agent/python/ocs_agent/core.py:485-509` | from any state: a call that judges the cache (`SetsCache`) leaves READY over a wrong table exactly if it is a write or mode change that passes every check, would change something, finds the table right if strict, is accepted, and then fails in update and rollback leaving other than the current pairs; other calls neither begin nor end such a deception; told before the call |
| `OcsStatus.DeceivingIff` | `agent/python/ocs_agent/core.py:427-528` | over all runs from startup: READY stands over a wrong table exactly if such a call was made and no later one has judged the cache |
| `OcsRest.BrokenRollbackStaysReady` | `agent/python/ocs_agent/core.py:112-132` | an input reached from startup: half an insert batch, a failing rollback, READY all the same, and the next write is admitted |
| `OcsRest.DriftsCounted` | `agent/python/ocs_agent/core.py:142-177` | outside the gate the drift counter counts entries into DRIFTED |
| `OcsRuns.RunInvariants` | `agent/python/ocs_agent/core.py:32-105` | over all runs with arbitrary failures: a ready agent describes the device table exactly, in both modes; revision and generation count the successes |
| `OcsRuns.RevisionUsedOnce` | `agent/python/ocs_agent/core.py:285-301` | every expected revision is consumed at most once |
| `OcsRuns.NoWriteBeforeRecovery` | `agent/python/ocs_agent/core.py:79-90` | after a REQUIRE_MATCH mismatch the device receives nothing but reads until somebody calls recover |
| `OcsRuns.GateLiftedOnlyByRecovery` | `agent/python/ocs_agent/core.py:112-132` | only a successful recovery lifts the gate; until then the cache status is never READY |
| `OcsRuns.LeaseRefines` | `agent/python/ocs_agent/core.py:273-279` | the agent's lease follows module Lease in every run |
| `OcsRuns.OnlyTheHolderChanges` | `agent/python/ocs_agent/core.py:303-313` | changes are made only by the holder of the latest granted lease |
| `OcsRuns.RequestIdsIncrease` | `agent/python/ocs_agent/core.py:281-283` | of two calls that get as far as the checks the later one has the larger request id |
| `OcsHistory.StatesAreAfter` | `agent/python/ocs_agent/core.py:32-105` | the states of a history, in which the run theorems of OcsStatus and OcsExclusivity are stated, are those that module OcsRuns computes |
| `OcsExclusivity.StaysExclusiveIff` | `agent/python/ocs_agent/core.py:397-528` | in "ocs" mode over an exclusive table: a call keeps one peer per port under every fault script if and only if it is not an unread write that gets as far as the device and whose plan does not fit the table (`Risks`, told before the call) |
| `OcsExclusivity.RisksOnlyDeceived` | `agent/python/ocs_agent/core.py:485-509` | only an agent whose cache status is READY over a wrong table takes such a risk |
| `OcsExclusivity.ExclusiveUnlessRisked` | `agent/python/ocs_agent/core.py:397-528` | over all runs without debug mode, from an exclusive table: as long as no call takes such a risk, every instant of every request since startup has one peer per port |
| `OcsExclusivity.ExclusiveUntilOneFallsApart` | `agent/python/ocs_agent/core.py:485-509` | so this holds until some call has failed both in its update and in its rollback |
| `OcsExclusivity.StrictStaysExclusive` | `agent/python/ocs_agent/core.py:427-470` | and it holds throughout for a strict agent |
| `OcsExclusivity.TwoPeersBehindReady` | `agent/python/ocs_agent/core.py:485-509` | an input reached from startup, without debug mode: after a write with a failed rollback the next write is admitted and gives port 1 two peers |
| `OcsService.OcsAgent.Create` | `agent/python/ocs_agent/core.py:32-105` | refines construction |
| `OcsService.OcsAgent.ApplyConnectionOperations` | `agent/python/ocs_agent/core.py:591-623` | the fold refines one step of the state machine |
| `OcsService.OcsAgent.SetMode` | `agent/python/ocs_agent/core.py:636-754` | refines one step |
| `OcsService.OcsAgent.RecoverDeviceState` | `agent/python/ocs_agent/core.py:756-811` | refines one step |
| `OcsService.OcsAgent.ReconcileDeviceState` | `agent/python/ocs_agent/core.py:142-177` | refines one step |
| `GoCore.UnchangedMeans` | `agent/go/internal/agent/core.go:629-646` | "unchanged" is answered only if the device would get the same pairs |
| `GoCore.AdmitsIff` | `agent/go/internal/agent/core.go:562-655` | a write is admitted exactly if it can be executed, its caller holds an unexpired lease at the current revision, the gate is open, the client READY, the mode right, and it would change something; "unchanged" exactly if only the last is missing |
| `GoCore.RecoverAdmitsIff` | `agent/go/internal/agent/core.go:768-808` | a recovery is admitted exactly for the holder of an unexpired lease at the current revision, behind the gate or not |
| `GoService.PairsToProto` | `agent/go/internal/backend/client.go:271-286` | lists every pair once, in ascending order |
| `GoService.PairsFromProto` | `agent/go/internal/backend/client.go:288-297` | collects any list into its set |
| `GoService.RoundTrip` | `agent/go/internal/backend/client.go:271-297` | unpacking inverts packing |
| `GoService.Agent.StartFrom` | `agent/go/internal/agent/core.go:169-235` | refines the judgement on the startup read |
| `GoService.Agent.ReportedCacheStatus` | `agent/go/internal/agent/core.go:280-296` | never READY behind the gate |
| `GoService.Agent.FoldOperations` | `agent/go/internal/agent/core.go:464-512` | the batch fold: all edits in order, or nothing |
| `GoService.Agent.AdmitWrite` | `agent/go/internal/agent/core.go:562-655` | refines the first locked section of a write |
| `GoService.Agent.CommitWrite` | `agent/go/internal/agent/core.go:657-684` | refines the last section of a write |
| `GoService.Agent.CommitRecover` | `agent/go/internal/agent/core.go:807-825` | refines the last section of a recovery |
| `GoService.Agent.FinishReconcile` | `agent/go/internal/agent/core.go:742-766` | refines the last section of a reconciliation |
| `SplitSafety.StepKeeps` | `agent/go/internal/agent/core.go:562-852` | every event keeps: one token, one holder; delayed generations <= client generation <= worker generation; the snapshot taken at admission is still the model; ready + READY + equal generations imply equal entries |
| `SplitSafety.ExecuteKeeps` | `agent/go/internal/backend/client.go:183-221` | a request may be carried out however late |
| `SplitSafety.ChangesShow` | `agent/go/internal/backend/client.go:192-199` | whenever a request, however late, changes the worker's entries, the worker's generation leaves the client's behind |
| `SplitSafety.FinishKeeps` | `agent/go/internal/agent/core.go:657-727` | every way in which a call can end keeps the agreement |
| `SplitSafety.StepMoves` | `agent/go/internal/agent/core.go:674-684` | the model moves only on "updated" and "recovered", by one revision, from the revision the call expected |
| `SplitRuns.ReadyAgrees` | `agent/go/internal/agent/core.go:562-825` | over all runs with lost requests, lost replies and late executions: ready, READY and an up-to-date generation imply that the worker holds exactly the current pairs, and, without outside edits, the table of a READY worker too |
| `SplitRuns.RevisionCounts` | `agent/go/internal/agent/core.go:674-684` | the revision counts "updated" and "recovered" answers |
| `SplitRuns.RevisionUsedOnce` | `agent/go/internal/agent/core.go:597-610` | each expected revision is consumed at most once |
| `SplitRuns.NothingMovesMeanwhile` | `agent/go/internal/agent/core.go:841-852` | connections, mode and revision do not move between admission and end of a call, although the mutex is free |
| `SplitRuns.CommitsWhatWasAdmitted` | `agent/go/internal/agent/core.go:656-684` | a commit replaces exactly the model and revision that admission saw |
| `SplitJobs.AnswersTheJob` | `agent/go/internal/agent/core.go:430-684` | over all runs, from the commit token to the answer: "updated" means that the connections assigned, or the result of the edits on the connections held when the token was taken, or the mode asked for, are now the model's; "unchanged" that they were all along; a refused batch had a failing edit or the wrong mode; nothing else moves the model |
| `SplitJobs.NeverLeftUpdating` | `agent/go/internal/agent/core.go:657-825` | over all runs: the status is "updating" only while an admitted write or recovery waits for the worker |
| `SplitRuns.RequestIdsIncrease` | `agent/go/internal/agent/core.go:578-584` | of two calls that get as far as the checks the later one has the larger request id |
| `SplitGate.OnlyLeftoversWrite` | `agent/go/internal/agent/core.go:203-222` | behind the startup gate, until a recovery is asked for: the gate stays closed, READY is never reported, the model stands, and the device receives a write request if and only if a request that was already under way at startup is carried out and writes |
| `SplitGate.NoWriteBeforeRecovery` | `agent/go/internal/agent/core.go:203-222` | if only reconciliations were under way at startup, nothing but reads reaches the device until a recovery is asked for |
| `SplitGate.LeftoverWritesBehindGate` | `agent/go/internal/agent/core.go:203-222` | an input, for any configured connections: a transition of an earlier agent changes the table behind the gate although nobody asked for a recovery |
| `SplitRuns.GateLiftedOnlyByRecovery` | `agent/go/internal/agent/core.go:768-825` | only a successful recovery lifts the gate |
| `SplitGate.StartsGated` | `agent/go/internal/agent/core.go:213-222` | REQUIRE_MATCH against other entries starts behind the gate, with nothing written, whatever is under way from before |
| `SplitRuns.LeaseRefines` | `agent/go/internal/agent/core.go:298-397` | the agent's lease follows module Lease in every run |
| `SplitRuns.OnlyTheHolderIsAdmitted` | `agent/go/internal/agent/core.go:366-375` | writes and recoveries are admitted only for the holder of the latest granted lease |
| `SplitRuns.ClientNeverGoesBack` | `agent/go/internal/backend/client.go:139-163` | the generation that the client captures never falls, in any run |
| `SplitRuns.SilenceClosesWrites` | `agent/go/internal/backend/client.go:165-169` | after a lost reply no write is admitted until a later call ends with a reply |
| `SplitRuns.UndisturbedWriteCommits` | `agent/go/internal/agent/core.go:562-684` | a prepared write of the lease holder at the current revision, outside the gate, by an up-to-date agent is committed when request and reply get through and no device request fails |
| `SplitProgress.UnchangedIff` | `agent/go/internal/agent/core.go:630-650` | from the commit token: "unchanged" is answered exactly if connections and mode are as wanted already, and nothing is sent |
| `SplitProgress.WriteJobAnswers` | `agent/go/internal/agent/core.go:430-727` | from the commit token to the answer, for assignments, batches and mode changes against an up-to-date worker: which of the five answers is given is told before from worker, table and script; what model, status, client and worker are then; the token is free again and after "updated" or restored the next write may follow |
| `SplitProgress.UndisturbedJobCommits` | `agent/go/internal/agent/core.go:430-684` | every such write is committed, table included, unless a device request fails |
| `SplitProgress.RecoverJobAnswers` | `agent/go/internal/agent/core.go:768-825` | from the commit token and from any state: "recovered" exactly if the transition will return and be read back, and then gate, status, client, worker and table are right; otherwise the gate stays and the cache is DRIFTED or UNKNOWN |
| `SplitProgress.ReconcileJobAnswers` | `agent/go/internal/agent/core.go:742-766` | from the commit token and from any state: the client is READY exactly if table, worker and model agree; a drift that is over is forgotten outside the gate and the agent is ready again, a new one is reported |
| `SplitProgress.BootsIff` | `agent/go/internal/agent/core.go:169-235` | construction succeeds exactly if the worker's entries are the configured ones, a mismatch is to be left alone, or the transition will land; status and gate of the new agent |
| `SplitExclusivity.NoPortEverHasTwoPeers` | `agent/go/internal/agent/core.go:562-852` | over all runs without debug mode and outside edits, from an exclusive table and with requests for exclusive sets under way: every instant of every request has one peer per port, with requests lost, late or failing |
| `SplitStatus.EndsUnconfirmedIff` | `agent/go/internal/agent/core.go:686-727` | of all ways in which a call can end, exactly a recovery whose reply says failed and restored leaves "ready" over a cache that is not READY |
| `SplitStatus.BootsUnconfirmedIff` | `agent/go/internal/agent/core.go:189-222` | startup does so exactly if the cached entries match while the worker is not READY |
| `SplitStatus.ReadyUnconfirmedIff` | `agent/go/internal/agent/core.go:562-825` | in every run the agent is "ready" over a cache that is not READY exactly if it came up so or a recovery failed and restored, and since then no call has ended and none was admitted |
| `SplitStatus.BootsReadyOverDrift` | `agent/go/internal/agent/core.go:189-212` | an input: a worker that has noticed an outside edit; the agent comes up ready over a wrong table |
| `SplitStatus.RecoversToUnconfirmed` | `agent/go/internal/agent/core.go:701-711` | an input: a run from startup in which a recovery fails its read-back and rolls back |
| `SplitStatus.GoesStaleIff` | `agent/go/internal/backend/client.go:192-199` | from agreement, a request carried out leaves a ready agent with a READY client out of date exactly if it passes its checks, returns (`WorkerForecast.Lands`, on worker and script before it) and installs other entries |
| `SplitStatus.LeftoverGoesUnseen` | `agent/go/internal/backend/client.go:192-199` | an input: a request left over from an earlier agent |
| `SplitStatus.UndisturbedRecoveryCompletes` | `agent/go/internal/agent/core.go:768-825` | from any state: a recovery by the lease holder at the current revision, whose request and reply get through, ends ready with an open gate and READY, equal generations and entries and table at the current pairs, unless a device request fails |
| `Gnmi.Normalize` | `agent/go/internal/server/gnmi.go:234-244` | the part of a name after its last colon |
| `Gnmi.FilterCleans` | `agent/go/internal/server/gnmi.go:349-372` | the excluded name is gone at every depth |
| `Gnmi.CleanStays` | `agent/go/internal/server/gnmi.go:349-372` | a value without the excluded name is left alone |
| `Gnmi.FilterIdempotent` | `agent/go/internal/server/gnmi.go:349-372` | filtering twice is filtering once |
| `Gnmi.Traverse` | `agent/go/internal/server/gnmi.go:318-331` | the loop walks the path |
| `Gnmi.WalkFiltered` | `agent/go/internal/server/gnmi.go:318-372` | along every path: kept exactly if it avoids the excluded name, with the filtered original at its end |
| `Gnmi.CommutesIff` | `agent/go/internal/server/gnmi.go:318-372` | traverse-then-filter equals filter-then-traverse if and only if the path avoids the excluded name or leads nowhere |
| `Gnmi.StateUnderConfig` | `agent/go/internal/server/gnmi.go:349-372` | an input on which they differ |
| `Gnmi.SelectEntry` | `agent/go/internal/server/gnmi.go:304-313` | the keyed list lookup walks on from the first entry with that key value |
| `Gnmi.EntryFiltered` | `agent/go/internal/server/gnmi.go:304-372` | a keyed lookup in the filtered list finds the filtered entry, along exactly the paths that avoid the excluded name |
| `Gnmi.BuildOperations` | `agent/go/internal/server/gnmi.go:96-175` | all deletes in request order, then all replacements; any unsupported part refuses the whole request |
| `Gnmi.SetReachesAnySet` | `agent/go/internal/server/gnmi.go:113-171` | any Set request whose deletions name every old connection and whose replacements carry every new one turns the old set into the new one |
| `Gnmi.RequestReachesAnySet` | `agent/go/internal/server/gnmi.go:113-171` | such a request exists: the paths /optical-switch-connections/port-connection[connection-name=...] and one body per new connection; the server takes it, and it turns any valid set into any other |
| `Gnmi.OperationsDetermined` | `agent/go/internal/server/gnmi.go:96-175` | a request stands for only one list of operations |
| `Gnmi.SetRequest` | `agent/go/internal/server/gnmi.go:96-175` | running that request builds operations that turn the one set into the other; it is refused only if there is nothing to do |
| `Gnmi.DeletesIff` | `agent/go/internal/server/gnmi.go:113-129` | a deletion is supported exactly for a path whose two local names and connection-name key are those of an entry, and deletes that entry |
| `Gnmi.ReplacesIff` | `agent/go/internal/server/gnmi.go:131-169` | a replacement is supported exactly for the root with a valid list and for the path of an entry with one connection of no other name |
| `Gnmi.SetRoot` | `agent/go/internal/server/gnmi.go:138-146` | a request whose only part replaces the root is refused exactly if its list is not a valid set, and otherwise turns every set into that one |
| `Gnmi.NameFromPath` | `agent/go/internal/server/gnmi.go:147-163` | a body below an entry path may leave out the name or must repeat it |
| `PingAll.SubmitAll` | `targets/tofino/runtime/tools/ping_all.py:117-123` | the nested loops list the n(n-1) off-diagonal pairs, the k-th of which is the decoding of k |
| `PingAll.PositionDecode` | `targets/tofino/runtime/tools/ping_all.py:126-130` | decoding an index gives an off-diagonal pair whose position it is |
| `PingAll.DecodePosition` | `targets/tofino/runtime/tools/ping_all.py:126-130` | decoding the position of a pair gives the pair |
| `PingAll.ProbedOnce` | `targets/tofino/runtime/tools/ping_all.py:117-131` | every off-diagonal pair is probed exactly once |
| `PingAll.Collect` | `targets/tofino/runtime/tools/ping_all.py:115-131` | each result lands in its own cell and the diagonal stays false |

## Left out

- gRPC, HTTP and gNMI transport, protobuf code, configuration and JSON or YAML parsing: a Set value
  arrives decoded, and only the pair lists of the worker protocol are packed and unpacked.
- Timing fields and every clock except the lease clock; a pause is a step that may be impossible.
- Vendor SDK calls, bmv2, mininet and scapy: an abstract table with failing requests and truthful
  reads takes their place; failure to import the P4Runtime protobufs is not part of this model.
- The thread wrappers of execution.py, snapshots, diagnostics, reports and benchmark runners.
- Random token generation: the fencing theorem assumes fresh tokens.
- Client ids in leases, which are only displayed.
- Error texts: `last_error` is none, "Device drift detected", or some other text; of the errors of
  a Set request only refused or accepted, and an unsupported or invalid kind, are told apart.
- The 2..8 limit on the number of ports: n is unbounded everywhere.
- Type checks on dynamically typed arguments (booleans as integers, non-integers), NaN lease
  durations, and a port name with a trailing newline, which the Python pattern would accept.
- Wrap-around of 64-bit generations, revisions and epochs.
- The Go snapshot that expires a lease under a read lock: lease expiry is one atomic step here.
- Cancellation of a call that still waits for the commit token, which has no effect.
- `Connections.NewConnectionSet`: the Python constructor checks a duplicate name before the ports;
  only the reported error differs, not which lists are accepted.
- `OcsCore.StepKeeps`: the in-process agent is modelled over the P4Runtime adapter only, not over
  an adapter with its own device_state, whose cache the agent copies.
- Request order inside one batch: `Transaction.NeverMixed` covers every part of a batch, and so
  every order.
- Startup of the Go agent is one step: the worker carries out no request between the two startup
  reads.
- The end of a Go call is one step: in the code the client captures the reply in one section and the
  agent draws its conclusions in the next, and a snapshot or lease call between them may see the new
  cache status beside the old agent status.
- A restart of the Device Worker under a running agent, which sets its generation back to 1: the
  bound `client.generation <= worker.generation` and the agreement hold for one worker process.
- `Gnmi.CommutesIff`: the choice among the three roots that Get makes before it walks, and the
  resolution of the port-connection and component lists, are not part of this model; the keyed
  lookup in such a list is (`Gnmi.EntryFiltered`).
