# Station Signal: a verified model of its lifecycle and ownership machinery

Station Signal watches substation devices. A C daemon starts and stops one orchestration handle per
device and runs background scans; a Go service in front of it talks to the daemon over one control
channel, relays its streams and changes the box's network address. This project models the parts of
both that hand out ports, ids, handles, channels and reservations, and proves that nothing is lost,
handed out twice or used after its end.

Each component comes in two layers where threads matter. The first is the code in its own form:
classes with arrays, growth by doubling, swap-remove, loops and mutable fields, whose methods are
proved to do exactly what a function on plain values says. The second is a step system over any
number of threads in which every critical section is one step, mostly by that same function; an
inductive invariant of all steps carries the theorems about reachable states and whole runs.

| files | what they model |
|---|---|
| `PortPool`, `PortAllocator` | the websocket-port pool and the allocator that implements it |
| `KeyedTable` | unordered entry arrays with swap-remove, read as maps; both registries use it |
| `DeviceTable`, `DeviceRegistry` | the registry's critical sections, as functions and on its arrays |
| `DeviceProtocol`, `DeviceSafety` | interleaved starts and stops, and what is safe about them |
| `OrchestrationLedger`, `ResultList`, `Orchestration` | runs, their failure exits, stop and destroy, judged by a ledger of every acquisition, use and release |
| `DeviceManager` | the entry points, the bootstrap policy and the drain loop over registry and handles |
| `ScanTable`, `ScanRegistry`, `ScanWorker`, `ScanService`, `ScanProtocol`, `ScanSafety` | background scans, the sweep loop and the shared dispatcher |
| `ControlLink`, `ControlProtocol`, `ControlSafety`, `ControlClient` | request and response correlation across reconnects; the client's methods are steps of the protocol |
| `NetworkService`, `NetworkProtocol` | the provisional change of address with confirm, revert and expiry |
| `Hub`, `HubProtocol`, `HubSafety` | the fan-out of one stream to its subscribers |

What the outside world answers is a parameter: sub-feature results, whether memory could be had, what
a sweep returned, what was read on a connection, when the clock says it is. In the step systems it is
the choice of the next step. The orchestration's calls into its sub-features are events of a log; a
method may write an event only by proving that the rules of `OrchestrationLedger` allow it.

Assumptions: device and scan ids are unbounded (the code's counters have 64 bits); request ids, reply
channels and connections are fresh whenever they are made; once it has started, the
network helper keeps the contract stated at
`station_signal_api/internal/features/network/data/runner.go:44-47`; a goroutine's read of a flag and a
thread's read of a `volatile` are single steps in one global order; launching a worker, and destroying
one, is a single step each, so that what one of them does to the worker is not cut in two by the other.

## Findings

- The registry does not keep one address to one live handle: a start makes a second one if and only if
  some stop of that address has not destroyed its own yet (`DeviceSafety.SecondHandleIffStopUnderWay`,
  with a run in `DeviceSafety.OneAddressCanHaveTwoLiveHandles`).
- Overlapping stop and start of scans never leave an active scan without its dispatcher, because a
  running dispatcher refuses a second start; what suffers is the start, refused exactly while a stop
  is owed (`ScanSafety.StartRefusedIffStopOwed`, with a run in `ScanSafety.OverlappingStartIsRefused`).
- A start launches a destroyed worker if and only if a stop named its scan before it returned and has
  finished with the worker (`ScanSafety.LaunchFaultsIffStoppedEarly`), and from every reachable state
  such a stop makes it so (`ScanSafety.EarlyStopMakesLaunchFault`). If the stop has asked the worker to
  stop and not finished, the launch takes the request back
  (`station_signal_daemon/src/scan_orchestration/data/scan_orchestration_worker.c:204`): a stop that
  waits for the loop then never ends, and the scan sweeps on unregistered
  (`ScanSafety.StopNeverEndsIffFlagWasReset`, with a run in `ScanSafety.EarlyStopCanHang`).
- A snapshot of a scan's hosts reads the worker without the lock. It faults if and only if the worker
  was destroyed since it was found, by a stop or by the rollback of a start still under way
  (`ScanSafety.SnapshotFaultsIffDestroyedSince`). The header asks callers only to rule out a concurrent
  stop of that scan (`station_signal_daemon/src/scan_orchestration/service/scan_orchestration_api.h`, at
  `ScanOrchestration_snapshotDiscoveredHosts`). That is not enough: no stop of it, and its start has
  returned, is what it takes (`ScanSafety.SnapshotSafeWithoutStopIffStartReturned`, with a run in
  `ScanSafety.FailedLaunchUnderSnapshotFaults`).
- The comment at `station_signal_api/internal/features/network/service/service.go:168-170` says that a
  timer clears only its own change; the comparison by instant gives that if and only if the instants
  differ (`NetworkProtocol.ClearsAnotherIffInstantsCollide`). `NetworkProtocol.EqualExpiriesClearAnother`
  is a limit of the comparison: it needs two readings of a monotonic clock, with a confirmation and a
  helper call between them, to be equal.
- A revert whose helper never starts leaves the helper's marker, which then refuses the next apply for as
  long as it is in flight (`NetworkServices.Service.RevertUnblocksApply`).
- A revert leaves nothing pending for good if and only if no apply is under way when it ends
  (`NetworkProtocol.ClearedForGoodIffNoApplyUnderWay`). Otherwise the apply may store its change, and
  it is then in memory only exactly if its helper call had succeeded before the revert's
  (`NetworkProtocol.PendingInMemoryOnlyIffHelperWasDone`); its timer still clears it
  (`NetworkProtocol.PendingWillExpire`).
- The hub's replay to a newcomer happens outside the lock. It panics if and only if the hub was closed
  since the newcomer registered (`HubSafety.ReplayPanicsIffClosedSince`), and nothing else can
  (`HubSafety.OnlyReplayPanics`). It comes behind a newer frame if and only if a broadcast got into the
  channel first (`HubSafety.ReplayComesFirstIffNothingWasSent`), and is outdated if and only if a
  status frame was relayed since (`HubSafety.ReplayIsCurrentIffNoStatusSince`).
- The membership test takes an empty host for new each time (`ScanWorkers.HostsOnceUnlessEmpty`). That
  is a limit of the test alone: the discovery names hosts by dotted quads
  (`station_signal_daemon/src/features/ied_discovery/domain/ied_discovery_cidr.c:40-46`).

## Model

| member | source | states |
|---|---|---|
| PortPool.TakeKeepsWellFormed | station_signal_daemon/src/device_manager/data/device_manager_port_allocator.c:36-50 | an allocated port was neither held nor lost, lies in the range, and the issued ports stay split exactly into free, held and lost |
| PortPool.GiveKeepsWellFormed | station_signal_daemon/src/device_manager/data/device_manager_port_allocator.c:52-65 | giving back a held port keeps that split, also when the free list cannot grow and the port is lost |
| PortPool.ExhaustedIffWholeRangeTaken | station_signal_daemon/src/device_manager/data/device_manager_port_allocator.c:36-50 | allocation fails exactly when every port of the range is held or was lost, with no wrap-around at 65535 |
| PortPool.GivenBackIsTakenNext | station_signal_daemon/src/device_manager/data/device_manager_port_allocator.c:36-65 | the port given back last is handed out first, and the pool is then exactly as before |
| PortPool.IssueCounterIsPeakUsage | station_signal_daemon/src/device_manager/data/device_manager_port_allocator.c:36-65 | over every legal history the issue counter minus the range start is the peak number of ports held or lost at one time |
| PortAllocators.PortAllocator.Create | station_signal_daemon/src/device_manager/data/device_manager_port_allocator.c:14-26 | null exactly for an inverted range or without memory, otherwise the whole range unissued |
| PortAllocators.PortAllocator.Alloc | station_signal_daemon/src/device_manager/data/device_manager_port_allocator.c:36-50 | refines the pool: takes the port the pool takes, or fails exactly when the pool is exhausted |
| PortAllocators.PortAllocator.Free | station_signal_daemon/src/device_manager/data/device_manager_port_allocator.c:52-65 | refines the pool: the port is free again, or lost exactly when the list is full and cannot grow |
| KeyedTables.SwapRemoveDeletes | station_signal_daemon/src/device_manager/data/device_manager_registry.c:178-181 | moving the last entry into the hole removes exactly the one entry, wherever entries move |
| KeyedTables.UpdateRewrites | station_signal_daemon/src/device_manager/data/device_manager_registry.c:156-167 | writing one array slot changes exactly that id's entry |
| KeyedTables.AppendExtends | station_signal_daemon/src/device_manager/data/device_manager_registry.c:63-77 | appending adds exactly the one entry |
| DeviceTable.ReserveKeepsCoherent | station_signal_daemon/src/device_manager/data/device_manager_registry.c:98-154 | reserve, in each of its outcomes, keeps ids below the counter, addresses and ports distinct, and handles on running entries only |
| DeviceTable.ReservedPortIsNew | station_signal_daemon/src/device_manager/data/device_manager_registry.c:98-154 | a reservation holds exactly one port more, one that nobody held; a refused or failed one leaves entries, ids and held ports unchanged |
| DeviceTable.FinalizeKeepsCoherent | station_signal_daemon/src/device_manager/data/device_manager_registry.c:156-167 | finalize keeps the table coherent |
| DeviceTable.RollbackKeepsCoherent | station_signal_daemon/src/device_manager/data/device_manager_registry.c:169-184 | rollback keeps the table coherent |
| DeviceTable.RemoveKeepsCoherent | station_signal_daemon/src/device_manager/data/device_manager_registry.c:186-219 | removeIfRunning keeps the table coherent, and a running entry has a handle to hand out |
| DeviceTable.FreePortKeepsCoherent | station_signal_daemon/src/device_manager/data/device_manager_registry.c:221-228 | freeing a port that is held and that no entry has keeps the table coherent |
| DeviceRegistries.DeviceRegistry.Create | station_signal_daemon/src/device_manager/data/device_manager_registry.c:27-47 | null exactly for an inverted range or without the memory and the lock; otherwise an empty table, ids from 1, every port unissued |
| DeviceRegistries.DeviceRegistry.HostAlreadyActive | station_signal_daemon/src/device_manager/data/device_manager_registry.c:79-88 | true exactly when an entry has this host and port |
| DeviceRegistries.DeviceRegistry.FindDeviceIdByHost | station_signal_daemon/src/device_manager/data/device_manager_registry.c:230-248 | finds the entry with this address exactly when there is one |
| DeviceRegistries.DeviceRegistry.FindIndexByDeviceId | station_signal_daemon/src/device_manager/data/device_manager_registry.c:90-96 | the array position of the id's entry, or -1 exactly when there is none |
| DeviceRegistries.DeviceRegistry.AnyRunningDeviceId | station_signal_daemon/src/device_manager/data/device_manager_registry.c:250-265 | some running device, and 0 exactly when none runs |
| DeviceRegistries.DeviceRegistry.AppendEntry | station_signal_daemon/src/device_manager/data/device_manager_registry.c:63-77 | appends in place or after doubling; fails exactly when the array is full and cannot grow, changing nothing |
| DeviceRegistries.DeviceRegistry.Reserve | station_signal_daemon/src/device_manager/data/device_manager_registry.c:98-154 | does to the array exactly what the abstract reserve does to the table, in all four outcomes; it is out of memory exactly if a string copy fails, or the array is full and cannot grow |
| DeviceRegistries.DeviceRegistry.Finalize | station_signal_daemon/src/device_manager/data/device_manager_registry.c:156-167 | exactly the abstract finalize |
| DeviceRegistries.DeviceRegistry.Rollback | station_signal_daemon/src/device_manager/data/device_manager_registry.c:169-184 | exactly the abstract rollback: the entry goes, its port returns, or is lost exactly if the free list is full and cannot grow |
| DeviceRegistries.DeviceRegistry.RemoveIfRunning | station_signal_daemon/src/device_manager/data/device_manager_registry.c:186-219 | exactly the abstract removal: not found, still starting, or the entry handed out |
| DeviceRegistries.DeviceRegistry.FreePort | station_signal_daemon/src/device_manager/data/device_manager_registry.c:221-228 | exactly the abstract freePort; the port is lost exactly if the free list is full and cannot grow |
| DeviceProtocol.StepKeepsInv | station_signal_daemon/src/device_manager/service/device_manager_api.c:58-203 | every step of every thread, in any interleaving, keeps the invariant that ties entries, thread positions, free list, counter, live handles, owned copies and birth addresses together |
| DeviceProtocol.InitialInv | station_signal_daemon/src/device_manager/service/device_manager_api.c:15-44 | the invariant holds of a new device manager with any number of threads |
| DeviceProtocol.StarterFindsItsEntry | station_signal_daemon/src/device_manager/service/device_manager_api.c:100-134 | a thread inside a start always finds its own entry, still mid-start, with its port |
| DeviceSafety.IssuedPortsArePartitioned | station_signal_daemon/src/device_manager/data/device_manager_registry.c:98-228 | in every reachable state each port below the counter is in exactly one place: a slot of the free list, one entry, one thread between remove and freePort, or lost |
| DeviceSafety.NoPortIsLostWithoutFailure | station_signal_daemon/src/device_manager/data/device_manager_port_allocator.c:52-65 | without an allocation failure no port is ever lost |
| DeviceSafety.ExhaustedIffEveryPortInUse | station_signal_daemon/src/device_manager/data/device_manager_registry.c:111-115 | a start is refused for lack of ports exactly when every port of the range has an entry or a stopping thread, or was lost |
| DeviceSafety.LiveHandleKeepsItsPort | station_signal_daemon/src/device_manager/service/device_manager_api.c:87-139 | the port a live handle is configured with is held, by its own entry or by the thread tearing it down |
| DeviceSafety.LiveHandlesHaveDistinctPorts | station_signal_daemon/src/device_manager/service/device_manager_api.c:58-170 | no two live handles, starting, running or being torn down, share a websocket port |
| DeviceSafety.HandlesOfOneAddress | station_signal_daemon/src/device_manager/data/device_manager_registry.c:104-109 | of two live handles for one address at least one has left the table |
| DeviceSafety.SecondHandleIffStopUnderWay | station_signal_daemon/src/device_manager/service/device_manager_api.c:100-101 | a start creates its handle beside another live one of the same address if and only if some stop of that address has taken its device and not yet destroyed the handle |
| DeviceSafety.OneAddressCanHaveTwoLiveHandles | station_signal_daemon/src/device_manager/service/device_manager_api.c:151-169 | a run in which one address has two live handles, as an entry leaves before its handle is torn down |
| DeviceSafety.MidStartIffSomeThreadIsStarting | station_signal_daemon/src/device_manager/data/device_manager_registry.c:186-202 | an entry is not running exactly while one thread is in the slow phase of its start |
| DeviceSafety.NoReachableStepFaults | station_signal_daemon/src/device_manager/service/device_manager_api.c:97-169 | no step ever uses a dead handle, misses its own entry, frees a port not held, or frees copies that are freed or still borrowed |
| DeviceSafety.CopiesOutliveTheirHandle | station_signal_daemon/src/device_manager/service/device_manager_api.c:92-98 | the copies a live handle borrows are still owned, by its entry or by the thread that will destroy the handle first |
| DeviceSafety.UnwindingBorrowsNothing | station_signal_daemon/src/device_manager/service/device_manager_api.c:122-124 | when a rollback or a stop comes to free the copies, no live handle borrows them |
| DeviceSafety.QuietStateOwnsOnlyRunningDevices | station_signal_daemon/src/device_manager/service/device_manager_api.c:58-170 | when no call is under way, every live handle, held port and owned copy belongs to a running entry, and every entry runs |
| DeviceSafety.IdsAreNeverReused | station_signal_daemon/src/device_manager/data/device_manager_registry.c:145-150 | an id once handed out never gets a different address or a new reservation |
| DeviceSafety.AtMostOneStopSucceeds | station_signal_daemon/src/device_manager/data/device_manager_registry.c:186-219 | of all stops of one device id over a whole run at most one takes the device |
| DeviceSafety.NoHandleIsDestroyedTwice | station_signal_daemon/src/device_manager/service/device_manager_api.c:122-158 | no handle is destroyed twice over any run |
| DeviceSafety.StopByAddressTakesTheDeviceItFound | station_signal_daemon/src/device_manager/service/device_manager_api.c:172-187 | whatever other threads do between its two sections, a stop by address takes the device that had the address when it looked, or none |
| DeviceSafety.FailedStartLeavesNothing | station_signal_daemon/src/device_manager/service/device_manager_api.c:102-130 | the end of a failed start leaves all other entries, frees address and port, and leaves no copy and no live handle |
| DeviceSafety.SucceededStartIsRunning | station_signal_daemon/src/device_manager/service/device_manager_api.c:132-138 | the end of a successful start leaves a running entry whose live handle has the entry's port |
| ResultLists.ResultList.SelectAndDetachFirstRetrieved | station_signal_daemon/src/orchestration/domain/orchestration_usecases.c:4-21 | takes out the first retrieved result and only that, or leaves the list alone when there is none |
| OrchestrationLedger.ProducersAlwaysBacked | station_signal_daemon/src/orchestration/service/orchestration_api.c:463-486 | at every point of a log that keeps the rules, a live report client or goose subscriber has the dispatcher running and its model not yet released |
| OrchestrationLedger.ReleasedExactlyOnce | station_signal_daemon/src/orchestration/service/orchestration_api.c:103-496 | in a log that keeps the rules every acquired resource is released exactly once, or is still held and not released at all |
| OrchestrationLedger.UsedOnlyWhileHeld | station_signal_daemon/src/orchestration/service/orchestration_api.c:103-496 | in a log that keeps the rules whatever is used was acquired before and has not been released |
| OrchestrationLedger.StoppedBetweenStarts | station_signal_daemon/src/orchestration/service/orchestration_api.c:308-319 | in a log that keeps the rules the dispatcher is stopped between any two of its starts |
| Orchestration.TailExits | station_signal_daemon/src/orchestration/service/orchestration_api.c:103-218 | on the answers alone: a run with a model ends OK exactly if both clients are made, neither fails to start and at least one starts; each failure has its own exact condition |
| Orchestration.OneProtocolIsEnough | station_signal_daemon/src/orchestration/service/orchestration_api.c:94-102 | a side without targets never fails a run whose other side starts |
| Orchestration.SclExits | station_signal_daemon/src/orchestration/service/orchestration_api.c:235-295 | on the answers alone: resolution fails exactly without a given name and other than one listed; what loading and success need |
| Orchestration.BootstrapExits | station_signal_daemon/src/orchestration/service/orchestration_api.c:321-383 | on the answers alone: the bootstrap fails exactly if no candidate was retrieved; what staging and success need |
| Orchestration.OnlineExits | station_signal_daemon/src/orchestration/service/orchestration_api.c:427-460 | on the answers alone: what each failure and success of online discovery need; a name is not among it |
| Orchestration.StageTellsTheFailure | station_signal_daemon/src/orchestration/service/orchestration_api.c:103-461 | the stage in the detail tells each failure from every other |
| Orchestration.FailureStatusIsTheLast | station_signal_daemon/src/orchestration/domain/orchestration_usecases.c:23-32 | the status of a failed bootstrap is that of the last candidate, with a default if there is none |
| Orchestration.OrchestrationHandle.RunFromIedModelHandle | station_signal_daemon/src/orchestration/service/orchestration_api.c:103-218 | OK exactly if both clients are made, neither fails to start and at least one starts; each exit with its error and stage; every resource taken is kept in the fields or released in a permitted order, the model always; availability as the producers kept |
| Orchestration.OrchestrationHandle.StartGoose | station_signal_daemon/src/orchestration/service/orchestration_api.c:156-217 | the same for the second half, with or without a report client |
| Orchestration.OrchestrationHandle.ResolveIedName | station_signal_daemon/src/orchestration/service/orchestration_api.c:246-269 | resolved exactly when the file lists exactly one name, with or without memory for its copy; the list is always released |
| Orchestration.OrchestrationHandle.LoadModel | station_signal_daemon/src/orchestration/service/orchestration_api.c:271-282 | the temp file and the name copy are gone in either outcome, and used before that |
| Orchestration.OrchestrationHandle.RunFromSclFile | station_signal_daemon/src/orchestration/service/orchestration_api.c:235-295 | the exits of the shared continuation, for an owned temp file and for the caller's own file |
| Orchestration.OrchestrationHandle.FetchScl | station_signal_daemon/src/orchestration/service/orchestration_api.c:321-362 | a winner exactly when some candidate was retrieved; everything but the winner is released, each result once |
| Orchestration.OrchestrationHandle.RunFromWinner | station_signal_daemon/src/orchestration/service/orchestration_api.c:364-383 | the winner is kept until its host string has been used and then released, on each path |
| Orchestration.OrchestrationHandle.Run | station_signal_daemon/src/orchestration/service/orchestration_api.c:297-384 | which error, stage and detail each combination of sub-feature answers gives; a failed run leaves the handle stopped and re-runnable, a successful one running with the producers it reports |
| Orchestration.OrchestrationHandle.RunFromLocalFile | station_signal_daemon/src/orchestration/service/orchestration_api.c:386-414 | the same without bootstrap and staging |
| Orchestration.OrchestrationHandle.RunFromOnlineDiscovery | station_signal_daemon/src/orchestration/service/orchestration_api.c:416-461 | the same with the model discovered online, where an empty name is no failure |
| Orchestration.OrchestrationHandle.Stop | station_signal_daemon/src/orchestration/service/orchestration_api.c:463-486 | the exact order of teardown, and the handle is stopped; harmless when repeated |
| Orchestration.OrchestrationHandle.Destroy | station_signal_daemon/src/orchestration/service/orchestration_api.c:488-496 | afterwards nothing is held, and every resource the handle ever acquired was released exactly once |
| Orchestration.OrchestrationHandle.EverythingAccountedFor | station_signal_daemon/src/orchestration/service/orchestration_api.c:103-496 | after any history of runs and stops: producers backed at every point of the log, and every acquisition either in the fields or released once |
| DeviceManagers.FallsBackIffAnsweredWithoutFile | station_signal_daemon/src/device_manager/domain/device_manager_bootstrap_policy.c:21-25 | on the scan itself: the retry is due exactly if nothing was retrieved and the last candidate answered that it has no SCL file |
| DeviceManagers.PolicySucceedsIff | station_signal_daemon/src/device_manager/domain/device_manager_bootstrap_policy.c:3-28 | on the answers alone: when a start succeeds, by a local file, by a retrieved one, or by online discovery after the retry |
| DeviceManagers.RunBootstrapPolicy | station_signal_daemon/src/device_manager/domain/device_manager_bootstrap_policy.c:3-28 | two runs exactly if no file was given, nothing was retrieved and the last candidate answered that it has no SCL file, and then success exactly as the online run; otherwise one run, whose error stands; none for a bad port |
| DeviceManagers.DeviceManager.Create | station_signal_daemon/src/device_manager/service/device_manager_api.c:15-44 | which of its errors and when; otherwise an empty manager over the configured range, or the default one |
| DeviceManagers.DeviceManager.StartReporting | station_signal_daemon/src/device_manager/service/device_manager_api.c:58-139 | each error exactly when it is due; a failure keeps entries, handles and held ports and leaves the handle it made destroyed with nothing held; a success adds one running entry with the returned id and port and a handle running with them |
| DeviceManagers.DeviceManager.RunReserved | station_signal_daemon/src/device_manager/service/device_manager_api.c:87-138 | the slow part: with a free list that can grow, the port of a failed start is free again |
| DeviceManagers.DeviceManager.StopReporting | station_signal_daemon/src/device_manager/service/device_manager_api.c:141-170 | not found, still starting, or the entry gone, its handle destroyed with nothing held, its port free and all else unchanged |
| DeviceManagers.DeviceManager.StopReportingByAddress | station_signal_daemon/src/device_manager/service/device_manager_api.c:172-187 | stops the device that has this address, and nothing else |
| DeviceManagers.DeviceManager.Destroy | station_signal_daemon/src/device_manager/service/device_manager_api.c:189-203 | the drain loop ends; every handle is destroyed, no device runs, and exactly the running devices' ports were given back |
| ScanWorkers.ScanWorker.IsHostNew | station_signal_daemon/src/scan_orchestration/domain/scan_orchestration_usecases.c:4-12 | new exactly when empty or not among the seen hosts |
| ScanWorkers.ScanWorker.AppendToSeenSet | station_signal_daemon/src/scan_orchestration/data/scan_orchestration_worker.c:38-53 | the seen hosts grow by this one, or stay when memory fails, across reallocation |
| ScanWorkers.ScanWorker.SnapshotHosts | station_signal_daemon/src/scan_orchestration/data/scan_orchestration_worker.c:255-272 | the hosts seen so far, in order, each with its own copy or without; none without memory for the array |
| ScanWorkers.ScanWorker.InterruptibleSleep | station_signal_daemon/src/scan_orchestration/data/scan_orchestration_worker.c:59-68 | sleeps the whole interval unless the stop is seen, never longer |
| ScanWorkers.ScanWorker.Announce | station_signal_daemon/src/scan_orchestration/data/scan_orchestration_worker.c:104-124 | one host more is taken into account; it is held back only if the stop was just seen |
| ScanWorkers.ScanWorker.PublishNew | station_signal_daemon/src/scan_orchestration/data/scan_orchestration_worker.c:97-129 | one sweep's hosts, cut short only by the stop |
| ScanWorkers.ScanWorker.SweepLoop | station_signal_daemon/src/scan_orchestration/data/scan_orchestration_worker.c:81-136 | what is seen and published is the deduplication of the hosts looked at, which are all of them up to the last sweep; nothing is published after the stop was set when last looked at; if hosts cannot be recorded, none is missed or made up |
| ScanWorkers.LogIsPrefixOfDeduplication | station_signal_daemon/src/scan_orchestration/data/scan_orchestration_worker.c:81-136 | the published hosts are a prefix of the first occurrences in everything swept, complete up to the last sweep; the seen set exceeds them by the at most one host held back |
| ScanWorkers.HostsOnceUnlessEmpty | station_signal_daemon/src/scan_orchestration/domain/scan_orchestration_usecases.c:4-12 | no host is published twice, if and only if the sweeps return the empty host at most once |
| ScanWorkers.FirstOccurrencesCover | station_signal_daemon/src/scan_orchestration/domain/scan_orchestration_usecases.c:4-12 | exactly the hosts that were swept are among the first occurrences |
| ScanWorkers.SweptInOrder | station_signal_daemon/src/scan_orchestration/data/scan_orchestration_worker.c:87-127 | the hosts of all sweeps stand one sweep behind the other, each in its own order |
| ScanWorkers.SweptIsReturned | station_signal_daemon/src/scan_orchestration/data/scan_orchestration_worker.c:87-127 | and every one of them was returned by some sweep |
| ScanWorkers.NoHostIsMissedOrMadeUp | station_signal_daemon/src/scan_orchestration/data/scan_orchestration_worker.c:104-124 | even when hosts cannot be recorded, the hosts looked at are exactly those published or held back |
| ScanWorkers.CreateErrorTellsWhatIsMissing | station_signal_daemon/src/scan_orchestration/data/scan_orchestration_worker.c:144-194 | which requests and answers give which error: an interface and a positive port, memory and discovery |
| ScanWorkers.ScanWorker.Create | station_signal_daemon/src/scan_orchestration/data/scan_orchestration_worker.c:138-198 | each error exactly when it is due, by the request and the answers; a worker made has an interface and a positive port, the default interval for zero, and no password if the copy of it fails |
| ScanWorkers.ScanWorker.Stop | station_signal_daemon/src/scan_orchestration/data/scan_orchestration_worker.c:214-223 | the stop is requested and, once the wait is over, the loop has exited; a second stop does nothing |
| ScanWorkers.ScanWorker.Destroy | station_signal_daemon/src/scan_orchestration/data/scan_orchestration_worker.c:225-248 | destroyed after a stop, without a thread |
| ScanRegistries.ScanDispatcher.Start | station_signal_daemon/src/features/scan_dispatcher/service/scan_dispatcher_api.c:49-74 | refused when running, else up or down as the server binds |
| ScanRegistries.ScanDispatcher.Stop | station_signal_daemon/src/features/scan_dispatcher/service/scan_dispatcher_api.c:76-89 | down, whatever it was |
| ScanRegistries.ScanRegistry.NextScanId | station_signal_daemon/src/scan_orchestration/data/scan_orchestration_registry.c:43-52 | an id that no active scan has, and none will be given again |
| ScanRegistries.ScanRegistry.AppendEntry | station_signal_daemon/src/scan_orchestration/data/scan_orchestration_registry.c:54-69 | one active scan more, or unchanged exactly when the array is full and cannot grow |
| ScanRegistries.ScanRegistry.AddAndMaybeStartDispatcher | station_signal_daemon/src/scan_orchestration/data/scan_orchestration_registry.c:71-97 | does exactly what the abstract add does to scans and dispatcher, in its three outcomes; out of memory exactly if the array is full and cannot grow |
| ScanRegistries.ScanRegistry.Remove | station_signal_daemon/src/scan_orchestration/data/scan_orchestration_registry.c:99-130 | exactly the abstract removal, and whether it emptied the registry |
| ScanRegistries.ScanRegistry.Find | station_signal_daemon/src/scan_orchestration/data/scan_orchestration_registry.c:132-147 | the worker of an active scan, or none |
| ScanRegistries.ScanRegistry.ActiveCount | station_signal_daemon/src/scan_orchestration/data/scan_orchestration_registry.c:149-158 | the number of active scans |
| ScanRegistries.ScanRegistry.AnyActiveScanId | station_signal_daemon/src/scan_orchestration/data/scan_orchestration_registry.c:160-169 | some active scan, and 0 exactly when there is none |
| ScanServices.ScanOrchestration.StartScan | station_signal_daemon/src/scan_orchestration/service/scan_orchestration_api.c:59-91 | each error exactly when it is due, by the request and the answers; after a failure the active scans and the dispatcher are as before and the worker made is destroyed; after a success one sweeping worker more, with the requested interface and port; the id is used up in any case |
| ScanServices.ScanOrchestration.Launch | station_signal_daemon/src/scan_orchestration/service/scan_orchestration_api.c:77-87 | a thread that cannot be created takes the registration back, and the dispatcher down if the scan was the only one |
| ScanServices.ScanOrchestration.StopScan | station_signal_daemon/src/scan_orchestration/service/scan_orchestration_api.c:93-112 | not found, or exactly this scan gone and its worker stopped and destroyed; the dispatcher is up exactly while scans remain |
| ScanServices.ScanOrchestration.Destroy | station_signal_daemon/src/scan_orchestration/service/scan_orchestration_api.c:131-149 | the drain loop ends with no active scan, the dispatcher down and every worker destroyed |
| ScanProtocol.StepKeepsDispatcherInv | station_signal_daemon/src/scan_orchestration/service/scan_orchestration_api.c:59-112 | every step of overlapping starts and stops keeps: the dispatcher is up while a scan is active, and when it outlives the last one exactly one thread owes its stop |
| ScanProtocol.StepKeepsInv | station_signal_daemon/src/scan_orchestration/service/scan_orchestration_api.c:59-112 | every step keeps the books on ids, workers and the dispatcher |
| ScanSafety.DispatcherFollowsActiveScans | station_signal_daemon/src/scan_orchestration/service/scan_orchestration_api.c:59-112 | in every reachable state an active scan has its dispatcher up; without scans it is down once nobody owes a stop |
| ScanSafety.StartRefusedIffStopOwed | station_signal_daemon/src/features/scan_dispatcher/service/scan_dispatcher_api.c:52-56 | a start whose server could bind is refused exactly while some thread still owes the stop of the last scan |
| ScanSafety.OverlappingStartIsRefused | station_signal_daemon/src/scan_orchestration/service/scan_orchestration_api.c:93-112 | a run in which a start overlapping a stop is refused that way |
| ScanSafety.DestroyedIffOutOfAllHands | station_signal_daemon/src/scan_orchestration/data/scan_orchestration_registry.c:99-130 | a worker is destroyed exactly if its scan is not active and no thread has it in hand, or a robbed start destroyed it |
| ScanSafety.LaunchFaultsIffStoppedEarly | station_signal_daemon/src/scan_orchestration/service/scan_orchestration_api.c:77-77 | a start launches a destroyed worker exactly if a stop named its scan before it returned and has finished with the worker |
| ScanSafety.EarlyStopMakesLaunchFault | station_signal_daemon/src/scan_orchestration/service/scan_orchestration_api.c:93-112 | from every reachable state: once such a stop has run through, the launch uses a destroyed worker |
| ScanSafety.SecondDestroyIffRobbed | station_signal_daemon/src/scan_orchestration/service/scan_orchestration_api.c:77-87 | a worker is destroyed a second time exactly if its failed start was robbed of it by an early stop and the other of the two came first |
| ScanSafety.StopNeverEndsIffFlagWasReset | station_signal_daemon/src/scan_orchestration/data/scan_orchestration_worker.c:204-223 | a stop that waits for the loop can never end if and only if the loop runs and the request to stop was taken back by a launch; the stop was then an early one, and the scan sweeps on unregistered |
| ScanSafety.EarlyStopCanHang | station_signal_daemon/src/scan_orchestration/data/scan_orchestration_worker.c:204-223 | a run that leads there: the request first, the launch after it |
| ScanSafety.NoWorkerDestroyedTwice | station_signal_daemon/src/scan_orchestration/service/scan_orchestration_api.c:59-112 | over any run, no worker is destroyed twice whose own scan was not stopped early |
| ScanSafety.SnapshotFaultsIffDestroyedSince | station_signal_daemon/src/scan_orchestration/service/scan_orchestration_api.c:114-124 | over every run from the find to the read of a snapshot: the read faults if and only if the worker was destroyed in between, and that was either by a stop of this scan made since the find, or by the rollback of a start that was under way at the find |
| ScanSafety.SnapshotSafeWithoutStopIffStartReturned | station_signal_daemon/src/scan_orchestration/service/scan_orchestration_api.c:114-124 | with no stop of this scan in between, the read can fault in some run if and only if the scan's start had not returned when it was found; so the header's demand of no concurrent stop is enough for scans whose start has returned, and only for these |
| ScanSafety.StaysActive | station_signal_daemon/src/scan_orchestration/service/scan_orchestration_api.c:59-112 | over every run without a stop of it, a scan whose start has returned stays active |
| ScanSafety.FailedLaunchUnderSnapshotFaults | station_signal_daemon/src/scan_orchestration/service/scan_orchestration_api.c:77-87 | a run without any stop in which a start whose thread cannot be created destroys the worker under a snapshot |
| ScanSafety.StopUnderSnapshotFaults | station_signal_daemon/src/scan_orchestration/service/scan_orchestration_api.c:114-124 | a run in which a stop destroys the worker between the find and the read of a snapshot |
| ScanSafety.ActiveScansSweep | station_signal_daemon/src/scan_orchestration/service/scan_orchestration_api.c:77-77 | in every reachable state a scan that is active and no longer being launched has its loop running and not told to stop; no loop outlives its worker but by an early stop |
| ScanSafety.IdsAreNeverReused | station_signal_daemon/src/scan_orchestration/data/scan_orchestration_registry.c:43-52 | two starts never take the same scan id |
| ScanSafety.QuietStateOwnsOnlyActiveScans | station_signal_daemon/src/scan_orchestration/service/scan_orchestration_api.c:59-112 | when no call is under way, whatever happened before, the workers not destroyed are those of the active scans, all of them sweep, and the dispatcher is up exactly if there is one |
| ControlClients.Client.Proceed | station_signal_api/internal/core/daemonclient/client.go:74-95 | the steps that no field of the client sees; with these, every sequence of methods is a run of the protocol |
| ControlClients.Client.BeginCall | station_signal_api/internal/core/daemonclient/client.go:118-127 | one step of the protocol; refused exactly when not connected, else the call waits in the map of an open connection, with an empty channel |
| ControlClients.Client.Receive | station_signal_api/internal/core/daemonclient/client.go:150-158 | one step of the protocol; a successful message gives its result, a failed one its error, or unreachable if it has none; the message is the call's own answer, or says that the connection is lost |
| ControlClients.Client.EndCall | station_signal_api/internal/core/daemonclient/client.go:129-133 | one step of the protocol; every other waiting call keeps its place, or has its message |
| ControlClients.Client.Connect | station_signal_api/internal/core/daemonclient/client.go:169-173 | one step of the protocol; the map it replaces was empty and every call still waiting has its message |
| ControlClients.Client.CloseConn | station_signal_api/internal/core/daemonclient/client.go:188-196 | one step of the protocol; not connected any more, and no waiting call is forgotten by that |
| ControlClients.Client.ClaimAnswer | station_signal_api/internal/core/daemonclient/client.go:230-235 | one step of the protocol; the channel found is that of the call with this id on this connection, and it is empty |
| ControlClients.Client.Deliver | station_signal_api/internal/core/daemonclient/client.go:237-239 | one step of the protocol; the send finds the channel empty and cannot block |
| ControlClients.Client.FailPending | station_signal_api/internal/core/daemonclient/client.go:199-209 | one step of the protocol; the loop empties the map, and every call on the lost connection has a message |
| ControlSafety.StepKeepsInv | station_signal_api/internal/core/daemonclient/client.go:74-241 | every step of callers, read loops and run loop keeps the invariant |
| ControlSafety.CallReturnsItsOwnAnswer | station_signal_api/internal/core/daemonclient/client.go:117-162 | a call returns what a response with its own id, read on its own connection, says; or unreachable; or its own encoding error |
| ControlSafety.MessageDecidesOutcome | station_signal_api/internal/core/daemonclient/client.go:150-158 | what each kind of message makes of the call that takes it |
| ControlSafety.ValueIffOwnSuccess | station_signal_api/internal/core/daemonclient/client.go:117-162 | in every reachable state a call leaves with a value if and only if it took a successful answer of its own, and with that answer's result; likewise for an error the daemon reported |
| ControlSafety.FiveFailuresEndDialing | station_signal_api/internal/core/daemonclient/client.go:164-186 | dialling is given up after the fifth failure and not before |
| ControlSafety.NoSendBlocks | station_signal_api/internal/core/daemonclient/client.go:198-240 | a reply channel gets at most one message in its life, so neither the read loop's send nor the clean-up's ever finds it full |
| ControlSafety.OneReadLoopAtATime | station_signal_api/internal/core/daemonclient/client.go:164-186 | at most one read loop is not over |
| ControlSafety.NoCallIsStranded | station_signal_api/internal/core/daemonclient/client.go:117-162 | a waiting call has its message, or a read loop is about to send it, or it is in the map of a connection still being read |
| ControlSafety.LostConnectionFailsItsCalls | station_signal_api/internal/core/daemonclient/client.go:199-215 | once a connection's clean-up is through, every call still waiting on it has a message |
| ControlSafety.ReconnectDropsNothing | station_signal_api/internal/core/daemonclient/client.go:169-174 | when connect replaces the pending map it is empty, every read loop is over, and every waiting call has a message |
| NetworkServices.Helper.Apply | deploy/scripts/station-signal-netconfig.sh:267-381 | the helper's part of the contract: refused exactly when the marker has a date and is not past it by more than fifteen seconds; a failure leaves no new marker |
| NetworkServices.Helper.ApplyTwice | deploy/scripts/station-signal-netconfig.sh:267-285 | a second apply is refused throughout the time of a first one that succeeded, and never once that is over by more than the grace; the refusal leaves the first marker |
| NetworkServices.Helper.Revert | station_signal_api/internal/features/network/data/runner.go:44-47 | once the helper has started, the marker is cleared even if the restore fails |
| NetworkServices.Helper.Reconcile | deploy/scripts/station-signal-netconfig.sh:430-441 | an orphaned marker is cleared, one with its revert armed stays |
| NetworkServices.Service.Apply | station_signal_api/internal/features/network/service/service.go:114-177 | each refusal exactly when it is due; a success stores the change, schedules its timer and leaves the helper's marker; a failure stores nothing |
| NetworkServices.Service.ApplyAfterRestart | station_signal_api/internal/features/network/service/service.go:145-153 | the same across a restart of the process: the marker of a change that the new process does not remember refuses its apply, and for no longer |
| NetworkServices.Service.Confirm | station_signal_api/internal/features/network/service/service.go:180-196 | on success nothing is pending in memory or on disk, on failure both are as before |
| NetworkServices.Service.Revert | station_signal_api/internal/features/network/service/service.go:208-229 | in each of its outcomes nothing is pending in memory afterwards, and nothing on disk unless the helper never started; refused exactly when both are known to be empty |
| NetworkServices.Service.Reconcile | station_signal_api/internal/features/network/service/service.go:235-241 | memory is cleared exactly when the helper succeeds |
| NetworkServices.Service.ReportPending | station_signal_api/internal/features/network/service/service.go:83-107 | disk decides whether a change is pending, memory gives its details; an unreadable disk falls back to memory |
| NetworkServices.Service.RevertUnblocksApply | station_signal_api/internal/features/network/service/service.go:198-229 | from any state, a revert of any outcome and then a valid apply without sessions: refused as already pending if and only if the helper did not start for the revert and its marker is still in flight |
| NetworkProtocol.StepKeepsReservation | station_signal_api/internal/features/network/service/service.go:119-132 | every step keeps: one request at most holds the reservation, and nothing is pending until it stores its change |
| NetworkProtocol.StepKeepsTimers | station_signal_api/internal/features/network/service/service.go:155-174 | every step keeps: what is pending has its timer, or the request that stored it is about to schedule it |
| NetworkProtocol.OneHelperApplyAtATime | station_signal_api/internal/features/network/service/service.go:121-152 | two helper applies are never in progress at once |
| NetworkProtocol.NoHelperApplyWhilePending | station_signal_api/internal/features/network/service/service.go:121-152 | no helper apply is in progress while this process has a pending change |
| NetworkProtocol.PendingWillExpire | station_signal_api/internal/features/network/service/service.go:160-174 | a pending change always has a timer that will clear it |
| NetworkProtocol.ClearsAnotherIffInstantsCollide | station_signal_api/internal/features/network/service/service.go:164-174 | a timer clears a change other than its own if and only if the two have the same expiry instant |
| NetworkProtocol.DistinctExpiriesClearOnlyTheirOwn | station_signal_api/internal/features/network/service/service.go:164-174 | with distinct expiry instants every timer clears only its own change |
| NetworkProtocol.EqualExpiriesClearAnother | station_signal_api/internal/features/network/service/service.go:164-174 | a run with equal instants in which a timer clears a later change |
| NetworkProtocol.ClearedForGoodIffNoApplyUnderWay | station_signal_api/internal/features/network/service/service.go:219-228 | when a revert is through nothing is pending here, and without a new apply nothing can become pending, if and only if no apply has a reservation and its change still to store |
| NetworkProtocol.PendingInMemoryOnlyIffHelperWasDone | station_signal_api/internal/features/network/service/service.go:219-228 | a change stored after the helper reverted, by an apply already under way, is in memory only exactly if that apply's helper call had succeeded before |
| NetworkProtocol.OverlappedRevertLeavesPending | station_signal_api/internal/features/network/service/service.go:208-229 | a run in which a revert that overlaps an apply leaves a change pending in memory only |
| Hubs.Hub.Subscribe | station_signal_api/internal/core/streamrelay/hub.go:80-112 | a newcomer's channel is open, registered, and holds the last status frame relayed, if any |
| Hubs.Hub.Cancel | station_signal_api/internal/core/streamrelay/hub.go:101-110 | closed and unregistered, also if the hub closed it before |
| Hubs.Hub.Close | station_signal_api/internal/core/streamrelay/hub.go:115-128 | every registered channel closed, each once, with its content, and none registered |
| Hubs.Hub.Broadcast | station_signal_api/internal/core/streamrelay/hub.go:162-182 | every registered channel with room gets the frame at its end, the full ones are unchanged, and the retained frame is the last status frame |
| HubProtocol.StepKeepsInv | station_signal_api/internal/core/streamrelay/hub.go:80-182 | every step of relay loop, subscribers and closers keeps the invariant |
| HubSafety.EachChannelIsClosedAtMostOnce | station_signal_api/internal/core/streamrelay/hub.go:101-128 | a channel is closed at most once, exactly when it leaves the subscriber set |
| HubSafety.OnlyReplayPanics | station_signal_api/internal/core/streamrelay/hub.go:80-182 | a send on a closed channel or a second close happens only at a replay, and there exactly if the channel is no longer registered |
| HubSafety.ReplayPanicsIffClosedSince | station_signal_api/internal/core/streamrelay/hub.go:85-98 | over every run from a newcomer's registration to its replay, the replay panics if and only if the hub was closed in between |
| HubSafety.ReplayComesFirstIffNothingWasSent | station_signal_api/internal/core/streamrelay/hub.go:87-98 | a replay that finds room is what the newcomer reads first, if and only if no broadcast got into its channel before; any that did is newer |
| HubSafety.ReplayIsCurrentIffNoStatusSince | station_signal_api/internal/core/streamrelay/hub.go:84-98 | the replayed frame is still the last status frame if and only if none was relayed since the newcomer registered |
| HubSafety.CloseBeforeReplayPanics | station_signal_api/internal/core/streamrelay/hub.go:85-98 | a run in which the replay sends on a closed channel |
| HubSafety.ReplayCanComeLate | station_signal_api/internal/core/streamrelay/hub.go:85-98 | a run in which the subscriber reads the outdated status frame after the newer one |
| HubSafety.EveryBroadcastIsPutOrMissed | station_signal_api/internal/core/streamrelay/hub.go:162-182 | of every channel, closed ones too: exactly the broadcasts offered from its registration to its end were put in or missed, none of them both |
| HubSafety.BroadcastsArriveInOrder | station_signal_api/internal/core/streamrelay/hub.go:162-182 | broadcasts lie in a channel in the order they were made, each at most once |
| HubSafety.MissedOnlyWhenFull | station_signal_api/internal/core/streamrelay/hub.go:170-180 | a broadcast is missed only by a channel whose buffer is full at that moment |
| HubSafety.ReadsWhatWasPut | station_signal_api/internal/core/streamrelay/hub.go:162-182 | what a subscriber has read, followed by its buffer, is in order what was put into the channel |
| HubSafety.NothingMissedWithinBuffer | station_signal_api/internal/core/streamrelay/hub.go:22-30 | a hub that relays no status frame, as the scan hub, loses nothing within one buffer's worth of frames, however slow the subscriber |

## Left out

- SCL parsing, MMS, GOOSE, websocket servers, JSON and XML handling: each call into them is an answer and a ledger event.
- Null-pointer guards for the handle itself, and which error code of a sub-feature is copied into a failure detail.
- Callbacks, access mode, category filters and other configuration that is only passed through.
- A host name that could not be copied by the discovery: it would reach the sweep loop as a null pointer.
- Temp-file contents, logging, HTTP handlers, session cookies and the command lines of the network helper.
- Durations of sleeps and timeouts: a timeout may happen at any moment, and only the order of expiry instants is kept.
- A network helper killed before its own rollback, which can leave its marker until a later apply treats it as stale.
- The confirmation of a change by a request that checked an earlier one: the code allows it and nothing is claimed.
- Restarting a control channel after its run loop was cancelled, which the code never does.
- DeviceManagers.DeviceManager.Destroy: does not model freeing the registry's memory; entries still starting are left in it, as in the code.
- ScanWorkers.ScanWorker.Stop: takes the end of the wait as given; that the loop ends once it sees the flag is SweepLoop's own result, and waiting for it is a step of ScanProtocol.
- ScanWorkers.ScanWorker.Destroy: rests on the same end of the wait.
- ScanSafety.LaunchFaultsIffStoppedEarly: does not tell apart the several accesses of one launch to its worker.
- NetworkServices.Helper.Apply: models the marker only, not the address profile that the helper rewrites.
- Fairness: that a thread which could take a step is ever scheduled is not modelled; the theorems are about safety.
- The web frontend, device simulators, structure-file storage, log clearing and keyed locks: simpler state with easier claims.
