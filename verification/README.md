# Cluster runtime and refresh control plane

A Dafny model of the control plane of the desktop backend: the small concurrent protocols and state
machines that decide which cluster work runs, which refresh generation serves, and who still owns
what. Each file is one module for one component.

Most protocols are modelled twice:

- a class with the component's fields, whose methods are its mutex-protected regions with their
  loops, proved against functions on the state or against the property itself;
- a state machine whose steps are those regions and which interleaves any number of callers in any
  order. A behaviour is a sequence of states and events; main results are lemmas about every
  behaviour.

`RefreshGeneration` and `RefreshRouting` each have a `RefreshCoordinator`: the first follows cancel
functions, the second follows routes, retired generations and mapped files.

Contexts, cancel functions, subsystems, queues and mapped files are opaque identities. A function that
must run at most once has a precondition saying that it has not run yet, so every caller has to show
it. Calls into Kubernetes, the file system, clocks and random ids are parameters.

| File | Component |
|---|---|
| `WorkspaceSnapshot.dfy` | composite workspace state read with a revision check |
| `RefreshGeneration.dfy` | ownership of the contexts of refresh generations |
| `RefreshRouting.dfy` | routing, retiring and unmapping of generations, one operation at a time |
| `RoutingInterleavings.dfy` | the same operations as a state machine that interleaves them, on one cluster or several |
| `RoutingOwnership.dfy`, `RoutingRuns.dfy`, `RoutingClosers.dfy` | what all its runs keep and come to |
| `RoutingAlone.dfy` | what each operation comes to when it runs alone |
| `RoutingWindows.dfy`, `RoutingOverlaps.dfy` | what runs without overlapping windows keep, and what overlaps can do |
| `OperationCoordinator.dfy` | per-cluster operation admission |
| `SelectionCoordinator.dfy` | selection mutations, generations and contexts |
| `IntentQueue.dfy` | coalescing intent queue and stale-intent filter |
| `Governor.dfy` | resource tiers, planned and applied |
| `ClusterLifecycle.dfy` | lifecycle phases and slow-loading timers |
| `RequestWindow.dfy` | sixty-bucket request window |
| `ManualQueue.dfy`, `RefreshScope.dfy` | manual refresh jobs across queues, and cluster scopes |
| `PermissionBatch.dfy`, `PermissionRules.dfy` | batch permission evaluation |
| `Preferences.dfy` | single-flight load and reset |
| `OperationEpochs.dfy` | operation epochs and port-forward sessions |
| `Favorites.dfy` | the favorites collection |
| `KubeconfigWatch.dfy`, `KubeconfigSelection.dfy` | watch-filter merge, selection parser and printer |
| `Strings.dfy`, `Wrappers.dfy` | trimming, searching and options |

Some properties a reader might expect do not hold of the code as it is. The model keeps the code and
states the exact condition instead, next to a run or an input that shows the difference:

- a snapshot accepted across a nonzero multiple of 2^64 revision bumps may be torn
  (`ConsistentUnlessCounterWraps`);
- a superseding selection callback can start before an earlier context is cancelled, if a call is
  between taking its cancel function and calling it (`StartFindsEarlierCancelledIff`);
- operations that overlap between looking at the subsystem map and routing it can route a retired
  generation, on two clusters (`OverlapRoutesRetired`) and on one, because the governor and the
  kubeconfig watcher do not take the per-cluster operation slot (`SameClusterRoutesRetired`); it
  happens exactly when an operation puts back what was retired since it took it, or something is
  retired while in force (`HealthyIffNoStaleWrite`, `RoutesDoomedIffOvertaken`);
- a permission swap can replace a newer generation than the one it expects
  (`SwapReplacesExpectedUnlessOvertaken`, `SwapReplacesNewer`);
- a superseding selection call that is slow to detach can cancel the context of a later generation,
  the newest one included (`DetachTakesLaterIff`, `NewestRunsCancelled`);
- a set-up drops what was registered before it without stopping it (`SetupForSelections`);
- a cluster teardown ignores a failed route update, which is harmless exactly if the cluster was not
  routed (`TeardownClusterSubsystem`); the resource stream handler, the only part that can fail,
  always succeeds today (backend/refresh_aggregate_resourcestream.go:119-128);
- a selection update that finds no runtime context leaves the generations built for it unstopped
  (`ApplyRefreshSelectionUpdate`);
- stopping a slow timer that has already expired comes too late, so a callback left over from an
  earlier Loading period can end a later one early (`FireIsEarlyIffStale`);
- queries of a permission batch share cached answers under joined keys, so a delimiter inside one
  query's cluster id and another's namespace, group or version can mix them up
  (`BatchAgreesIffKeysFaithful`, `PlainKeysFaithful`, `PlainResourcesFaithful`);
- a readiness result can land on a cluster that was disconnected meanwhile (`ReadinessRevivesIff`,
  `LateReadinessRevives`);
- a startup caller that joins a failed load after the fallback decision gets the error
  (`CallersGetWhatWasRead`, `LateStartupCallerGetsError`);
- a port forward can stay registered after its session was stopped, until its cluster is disconnected
  (`OrphanedExactlyByLateRegistration`, `OrphanUntilDisconnect`);
- operations of a cluster whose id has outer white space, which a kubeconfig file's name can give it
  (backend/cluster_runtime_kubeconfig_selection.go:56-97), outlive its disconnect and the shutdown
  (`StaleRegisteredIffUntrimmed`, `OutlivesShutdownIffUntrimmed`);
- a stored favorite without an id escapes the check for unique names (`AddKeepsCollection`);
- a cluster id that starts with the list prefix does not come back from the scope of its job
  (`TargetSurvivesIff`);
- a printed selection with an empty path or an ambiguous one does not parse back (`PrintThenParse`).

## Model

| member | source | states |
|---|---|---|
| `WorkspaceSnapshot.SnapshotIsOneInstant` | backend/cluster_workspace_contract.go:49-60 | every composite state the read loop returns equals the values of all sources at the step of that reader's last first-revision read, under every interleaving of lock holders that bump before they release |
| `WorkspaceSnapshot.AttemptBeganAt` | backend/cluster_workspace_contract.go:49-60 | the remembered start of an attempt is its reader's last first-revision read and the remembered values are those of all sources at that step |
| `WorkspaceSnapshot.SecondReadDecides` | backend/cluster_workspace_contract.go:49-60 | the second revision read returns what was copied if and only if the revision is the one the attempt began with; otherwise the reader may begin anew |
| `WorkspaceSnapshot.ConsistentUnlessCounterWraps` | backend/cluster_workspace_contract.go:49-60 | a snapshot accepted across k bumps is always consistent if and only if k is zero or not a multiple of 2^64 |
| `WorkspaceSnapshot.FooledReader` | backend/cluster_workspace_contract.go:49-60 | for every other k there is a run of one writer and one reader whose accepted snapshot is stale |
| `WorkspaceSnapshot.ClusterWorkspaceProjection.SetClusterHealth` | backend/cluster_workspace_projection_state.go:15-28 | changes only this cluster's health and bumps the revision exactly when something changed |
| `WorkspaceSnapshot.ClusterWorkspaceProjection.IncrementClusterScopeRevision` | backend/cluster_workspace_projection_state.go:30-41 | advances only this cluster's scope revision, with one bump |
| `WorkspaceSnapshot.ClusterWorkspaceProjection.RemoveClusterWorkspaceRuntimeState` | backend/cluster_workspace_projection_state.go:43-56 | forgets the cluster in both maps, with one bump exactly if it was there |
| `WorkspaceSnapshot.MergeInto` | backend/cluster_workspace_contract.go:62-95 | the merge loop over a map in any order puts each value into its cluster's defaulted state and keeps the rest |
| `WorkspaceSnapshot.CompositeCarriesEverySource` | backend/cluster_workspace_contract.go:62-95 | the composite has a state for every cluster any source mentions and each source sets its own field only; an unset auth reads "unknown" once another source mentions the cluster, an unset health too unless the health source itself left it unset and no scope is known |
| `RefreshGeneration.ExactlyOnePlace` | backend/refresh_generation.go:96-303 | in every reachable state each cancel function of a started generation is with its activation, in exactly one table entry, taken but not called yet, or called exactly once, and in only one of these |
| `RefreshGeneration.OneRevalidatorPerCluster` | backend/refresh_generation.go:175-210 | per cluster at most one table entry still holds a permission cancel function |
| `RefreshGeneration.OthersLeaveGenerationAlone` | backend/refresh_generation.go:175-303 | a generation in the table keeps its manager uncancelled until it is itself stopped or committed again, and its revalidator until a commit for its cluster, whatever else is started, stopped or rolled back |
| `RefreshGeneration.NothingLeaksAtRest` | backend/refresh_generation.go:96-303 | once nothing is held, in the table or in flight, every cancel function was called once |
| `RefreshGeneration.StartsAndCallsTakeEffect` | backend/refresh_generation.go:39-126 | a start brings two cancel functions nobody had, and a call in flight is made once and done with |
| `RefreshGeneration.RefreshCoordinator.CommitRefreshGenerationRuntime` | backend/refresh_generation.go:175-210 | the loop over the table retires exactly the stale entry of the generation and the revalidators of its cluster, and calls each retired cancel function once |
| `RefreshGeneration.RefreshCoordinator.TakeRefreshGenerationRuntime` | backend/refresh_generation.go:212-223 | returns and removes the generation's entry |
| `RefreshGeneration.RefreshCoordinator.StopRefreshGeneration` | backend/refresh_generation.go:261-303 | cancels exactly what the table holds for this generation and stays accounted |
| `RefreshGeneration.RefreshCoordinator.StopRefreshGenerationRuntimesForCluster` | backend/refresh_generation.go:225-241 | cancels everything of the cluster and nothing of any other |
| `RefreshGeneration.RefreshCoordinator.StopRemainingRefreshGenerationRuntimes` | backend/refresh_generation.go:243-256 | empties the table and cancels everything it held |
| `RefreshGeneration.StopsTakeAll` | backend/refresh_generation.go:225-256 | a sweep takes exactly what the table holds for its generations, in any order |
| `RefreshGeneration.Activation.Commit` | backend/refresh_generation.go:96-110 | moves the two cancel functions into the table once; nothing on a second call or after a rollback |
| `RefreshGeneration.Activation.Rollback` | backend/refresh_generation.go:112-126 | calls the two cancel functions and stops the generation once; nothing on a second call or after a commit |
| `RefreshGeneration.StartRefreshGeneration` | backend/refresh_generation.go:39-76 | succeeds exactly with a context, a cluster id and a manager, and then owns two new cancel functions |
| `RefreshGeneration.StartRefreshGenerations` | backend/refresh_generation.go:128-150 | starts all or none; a failed batch ends in the state of rolling back what was started and stopping the rest, and commits nothing |
| `RefreshGeneration.EachStoppedOnce` | backend/refresh_generation.go:128-150 | a failed batch stops every subsystem it was given exactly once and publishes none |
| `RefreshGeneration.UndoingTakesAll` | backend/refresh_generation.go:128-150 | a failed batch cancels exactly what it created and what the table held for its subsystems |
| `RefreshGeneration.RollbackRefreshGenerations` | backend/refresh_generation.go:158-162 | rolls back every activation of the batch, one after the other |
| `RefreshGeneration.CommitRefreshGenerations` | backend/refresh_generation.go:152-156 | commits every activation of the batch, one after the other |
| `RefreshGeneration.CommitsPublishEach` | backend/refresh_generation.go:152-156 | afterwards every generation of the batch is in the table and revalidating |
| `RefreshRouting.RefreshCoordinator.ActivateSubsystem` | backend/cluster_auth_contract.go:99-137 | keeps every recorded step safe: nothing routed is retired or unmapped; on failure registered map, routes and installed client are as before and only the new generation is stopped; on success the new one is committed and runs, the previous one is retired and its closers run |
| `RefreshRouting.RefreshCoordinator.RestoreActivation` | backend/cluster_auth_contract.go:115-125 | puts the previous registration back and stops only the generation that failed to route |
| `RefreshRouting.RefreshCoordinator.FinishActivation` | backend/cluster_auth_contract.go:127-136 | installs the client, commits, then stops exactly the replaced generation |
| `RefreshRouting.RefreshCoordinator.UpdateRefreshRouting` | backend/cluster_auth_contract.go:230-251 | routes the registered topology, publishing it first if nothing was published, or changes nothing |
| `RefreshRouting.RefreshCoordinator.UpdateAggregates` | backend/refresh_setup.go:445-472 | the snapshot routes change exactly when the resource stream handler before them accepts |
| `RefreshRouting.RefreshCoordinator.RebuildClusterSubsystem` | backend/refresh_auth.go:49-76 | replaces the cluster's generation and client only if clients, build, start and routing all succeed |
| `RefreshRouting.RefreshCoordinator.ReplacePermissionGeneration` | backend/refresh_generation.go:343-367 | one operation at a time: replaces exactly the expected generation, or leaves map, routes and client alone |
| `RefreshRouting.RefreshCoordinator.TeardownClusterSubsystem` | backend/refresh_auth.go:11-44 | unregisters, unroutes, then stops; keeps all steps safe if and only if the routes were updated or did not name the cluster |
| `RefreshRouting.RefreshCoordinator.BuildRefreshSelectionUpdate` | backend/refresh_update.go:87-129 | keeps the registered generation of every cluster that stays, adds a built unpublished one for every new usable cluster, and stops all of those if one build fails |
| `RefreshRouting.RefreshCoordinator.ApplyRefreshSelectionUpdate` | backend/refresh_update.go:161-200 | all or nothing: on failure everything new is stopped, on success routes and map are the new topology, everything new is committed, and exactly the dropped generations are stopped; whatever is registered then runs unless it was cooled, and nothing else does |
| `RefreshRouting.RefreshCoordinator.CoolClusterToMmapServing` | backend/refresh_governor.go:541-589 | a cooled generation keeps serving and registering with its closers; if installing fails the cluster is torn down and they run |
| `RefreshRouting.RefreshCoordinator.SetCooledClosers` | backend/refresh_spill.go:199-209 | registers one new closer per mapped file |
| `RefreshRouting.RefreshCoordinator.TakeCooledClosers` | backend/refresh_spill.go:214-223 | returns a generation's closers and forgets them |
| `RefreshRouting.RefreshCoordinator.CloseCooledClosers` | backend/refresh_spill.go:229-238 | runs every registered closer of the generation once |
| `RefreshRouting.RefreshCoordinator.StopRefreshGeneration` | backend/refresh_generation.go:261-268 | retires the generation and runs its closers; unsafe exactly if something still routes to it |
| `RefreshRouting.RefreshCoordinator.TeardownRefreshSubsystem` | backend/refresh_recovery.go:32-51 | unpublishes before it stops anything and leaves nothing registered, running or mapped |
| `RefreshRouting.RefreshCoordinator.SetupForSelections` | backend/refresh_setup.go:31-74 | publishes and commits a topology of new generations or stops all of it, whatever was registered before; that is dropped without being stopped, never retired, and settled as soon as nothing was |
| `RefreshRouting.RefreshCoordinator.TakeRefreshSubsystem` | backend/refresh_subsystems.go:55-67 | returns and removes the registered generation |
| `RefreshRouting.RefreshCoordinator.ReplaceRefreshSubsystems` | backend/refresh_subsystems.go:78-99 | installs the next topology and returns the previous one |
| `RoutingOwnership.Reachable` | backend/refresh_update.go:87-129 | over every interleaving of any number of operations, of one cluster or several, what an operation has built and not shown yet is known to it alone: not registered, running or stopped, in no other operation's hands, and routed only by a selection update about to register it |
| `RoutingRuns.HealthyIffNoStaleWrite` | backend/cluster_auth_contract.go:112-137 | over every interleaving of rebuilds, permission swaps, teardowns, selection updates, set-ups and global teardowns, nothing retired is ever in the map or the routes if and only if no operation puts back a generation that was retired since it took it, and nothing is retired while in the map or the routes |
| `RoutingRuns.RoutesDoomedIffOvertaken` | backend/cluster_auth_contract.go:113-137 | a rebuild routes a generation that is being stopped if and only if the map named one as it was captured, or a step since the capture turned one that the capture names to stopping |
| `RoutingRuns.SwapReplacesExpectedUnlessOvertaken` | backend/refresh_generation.go:343-367 | a permission swap replaces another generation than the one it expects if and only if, after its last look, another operation changed the cluster's entry and left something else there |
| `RoutingClosers.EachCloserOnce` | backend/refresh_spill.go:199-238 | however cooling and stopping interleave, every mmap closer is still registered, about to run or was run exactly once, and none runs before its generation is retired |
| `RoutingClosers.HealthyIsSafe` | backend/refresh_spill.go:225-238 | a reader is safe whenever nothing in force is retired: the files behind it are not closed either |
| `RoutingWindows.WindowsApartStaySafe` | backend/cluster_auth_contract.go:112-137 | however operations of the same or different clusters interleave otherwise, nothing in the map or the routes is ever retired or being stopped, and no reader meets a closed file, if no operation looks at the map or removes from it while another is between its own look and the end of its routing |
| `RoutingWindows.StaysOrderly` | backend/cluster_auth_contract.go:112-137 | then captured topologies are the registered one, what is routed is registered or just displaced, and what may be put back is not being stopped |
| `RoutingOverlaps.OverlapRoutesRetired` | backend/refresh_subsystems.go:69-76 | from every state in which a rebuild is about to register and another cluster is registered, a teardown of that cluster between capture and route makes the rebuild route a retired generation |
| `RoutingOverlaps.SameClusterRoutesRetired` | backend/refresh_governor.go:346-382 | from every state in which two rebuilds of one cluster are about to register, the second can route and stop the first one's generation before the first routes its copy, which then names a retired generation |
| `RoutingOverlaps.SwapReplacesNewer` | backend/refresh_generation.go:360-364 | from every state in which a permission swap passes its last look and a rebuild of the cluster is about to register, the swap can replace the newer generation of the rebuild |
| `RoutingAlone.RebuildAlone` | backend/cluster_auth_contract.go:99-137 | in the interleaved model a rebuild or permission swap that runs alone and meets no failure registers, routes and commits its generation and retires exactly the one it replaces |
| `RoutingAlone.FailedRebuildAlone` | backend/cluster_auth_contract.go:115-125 | one whose routing fails leaves map, routes and running generations as they were and retires only the generation it built |
| `RoutingAlone.RefusedAlone` | backend/refresh_generation.go:343-367 | one that is refused before registering retires only what it built, and one that cannot build changes nothing |
| `RoutingAlone.TeardownAlone` | backend/refresh_auth.go:11-44 | a teardown alone unregisters, unroutes unless its update fails, and retires exactly the cluster's generation |
| `RoutingAlone.UnregisteredTeardownAlone` | backend/refresh_auth.go:11-44 | a teardown of a cluster that is not registered stops exactly what still runs for it |
| `RoutingAlone.SelectionAlone` | backend/refresh_update.go:87-206 | a selection update alone, for any kept and any new clusters, registers, routes and commits exactly those and retires exactly what it drops |
| `RoutingAlone.FailedSelectionAlone` | backend/refresh_update.go:161-200 | one that fails retires exactly what it has built and leaves map and routes alone |
| `RoutingAlone.SetUpAlone` | backend/refresh_setup.go:31-74 | a set-up alone publishes, registers and commits what it has built and stops nothing of what was registered; one that built nothing empties the map |
| `RoutingAlone.GlobalTeardownAlone` | backend/refresh_recovery.go:32-51 | a global teardown alone leaves nothing registered, routed or running, and all of it retired |
| `RoutingAlone.CoolingAlone` | backend/refresh_governor.go:541-589 | cooling stops the generation's producers and registers one new closer for each mapped file |
| `RoutingAlone.ClosersAlone` | backend/refresh_spill.go:214-238 | the closers of a retired generation are all run, each once, and none stays registered |
| `OperationCoordinator.ClusterOperationCoordinator.Begin` | backend/cluster_operation_coordinator.go:79-109 | registers under a new token, cancelling all non-queued operations for a superseding caller and turning a skip-busy one away unless idle |
| `OperationCoordinator.ClusterOperationCoordinator.End` | backend/cluster_operation_coordinator.go:111-126 | deregisters this token only |
| `OperationCoordinator.OneCallbackAtATime` | backend/cluster_operation_coordinator.go:53-77 | per cluster at most one callback executes, and its token is registered while it does |
| `OperationCoordinator.OnlyNewestForegroundSurvives` | backend/cluster_operation_coordinator.go:79-109 | at most one registered non-queued operation is not cancelled, and it is the newest |
| `OperationCoordinator.QueuedNeverSuperseded` | backend/cluster_operation_coordinator.go:79-126 | a queued operation is never cancelled by the coordinator before its own end |
| `OperationCoordinator.SkipBusyOnlyWhenIdle` | backend/cluster_operation_coordinator.go:79-109 | a skip-busy caller is admitted exactly when nothing is registered |
| `OperationCoordinator.SupersedeCancelsOlderWork` | backend/cluster_operation_coordinator.go:79-109 | admitting a superseding operation cancels every older non-queued one |
| `OperationCoordinator.OthersAlwaysAdmitted` | backend/cluster_operation_coordinator.go:79-109 | only a skip-busy caller is ever turned away: any other is registered under a new token and waits, nothing else changes but what a superseding one cancels, and a queued one cancels nothing |
| `OperationCoordinator.NobodySkippedWithoutCause` | backend/cluster_operation_coordinator.go:53-126 | over every run, an operation that left without running its callback had a caller that gave up or is superseded by a newer foreground operation, and in the latter case is not queued |
| `OperationCoordinator.LiveAtCheckRuns` | backend/cluster_operation_coordinator.go:53-77 | after its post-lock check an operation runs its callback if and only if it was neither cancelled nor given up |
| `OperationCoordinator.GivenUpNeverRuns` | backend/cluster_operation_coordinator.go:53-77 | an operation whose caller gives up before the check never runs its callback |
| `OperationCoordinator.NeverStuck` | backend/cluster_operation_coordinator.go:53-126 | while anything is registered some operation can move on |
| `OperationCoordinator.CancelledBeforeCheckNeverRuns` | backend/cluster_operation_coordinator.go:53-77 | an operation whose context ends before its post-lock check never runs its callback, for the rest of the run |
| `OperationCoordinator.ClustersStayIndependent` | backend/cluster_operation_coordinator.go:79-126 | a step of one cluster is a step of its own slot, which stays sound, and leaves every other slot as it was |
| `SelectionCoordinator.CallbacksNeverOverlap` | backend/kubeconfig_selection_coordinator.go:57-134 | at most one mutation callback executes |
| `SelectionCoordinator.FinishedCallsRanOrWereSuperseded` | backend/kubeconfig_selection_coordinator.go:57-134 | an ordered mutation is never skipped, a superseding one only for a later generation |
| `SelectionCoordinator.SkippedExactlyWhenSuperseded` | backend/kubeconfig_selection_coordinator.go:57-134 | at its turn a superseding mutation is skipped exactly when a strictly later generation was drawn |
| `SelectionCoordinator.NewestGenerationRuns` | backend/kubeconfig_selection_coordinator.go:57-187 | the call that drew the greatest generation is never skipped, even when ordered callbacks draw deferred generations |
| `SelectionCoordinator.EarlierContextsAtStart` | backend/kubeconfig_selection_coordinator.go:270-298 | when a superseding callback starts, every earlier context is cancelled or in the hands of a call that has taken its cancel function and not called it yet |
| `SelectionCoordinator.StartFindsEarlierCancelledIff` | backend/kubeconfig_selection_coordinator.go:270-298 | all earlier contexts are cancelled at that moment if and only if no such call exists |
| `SelectionCoordinator.LateCancellation` | backend/kubeconfig_selection_coordinator.go:270-281 | a run in which such a call exists and an earlier context is still live |
| `SelectionCoordinator.ContextsCancelledOnce` | backend/kubeconfig_selection_coordinator.go:270-298 | no context is cancelled twice |
| `SelectionCoordinator.DetachTakesLaterIff` | backend/kubeconfig_selection_coordinator.go:74-79 | a superseding call takes the context of a later generation than its own if and only if one was activated after it drew and nobody took or replaced it since |
| `SelectionCoordinator.ActivationCancelsEarlier` | backend/kubeconfig_selection_coordinator.go:283-298 | activating a context cancels one of an earlier generation only |
| `SelectionCoordinator.NewestRunsCancelled` | backend/kubeconfig_selection_coordinator.go:74-79 | a run in which the call of the newest generation runs under a cancelled context |
| `SelectionCoordinator.PendingCountsCallsInFlight` | backend/kubeconfig_selection_coordinator.go:213-229 | the pending count always equals the calls in flight |
| `SelectionCoordinator.NeverStuck` | backend/kubeconfig_selection_coordinator.go:57-134 | while a call is not done, it or the holder of the mutation mutex can take a step |
| `SelectionCoordinator.WorkspaceCoordinator.ActivateSelectionGeneration` | backend/kubeconfig_selection_coordinator.go:283-298 | stores the new context and cancels the one stored before |
| `SelectionCoordinator.WorkspaceCoordinator.DetachActiveGeneration` | backend/kubeconfig_selection_coordinator.go:270-281 | takes the stored cancel function, leaving none |
| `SelectionCoordinator.WorkspaceCoordinator.FinishSelectionMutationDrain` | backend/kubeconfig_selection_coordinator.go:213-229 | counts the call out |
| `IntentQueue.NoLostWakeup` | backend/cluster_runtime_intent.go:57-134 | while the queue is open, pending intents imply a full slot, a publisher before its send or a consumer before its drain; after the stop nothing is pending |
| `IntentQueue.QuietMeansDelivered` | backend/cluster_runtime_intent.go:57-122 | once the slot is empty and nobody is under way, every publish was delivered, itself or through a newer one of its key |
| `IntentQueue.PendingIsLastWrite` | backend/cluster_runtime_intent.go:57-101 | what is pending for a key is its last publish since the last drain or stop |
| `IntentQueue.HandOversAddUp` | backend/cluster_runtime_intent.go:57-134 | over every run each write is sent once, each drain answers one receive, the slot holds at most the one send nobody has received, and the queue is stopped at most once |
| `IntentQueue.CallersAreFree` | backend/cluster_runtime_intent.go:57-134 | an open queue takes any intent of a kind, and while something is pending a send, a receive or a drain can bring it one step nearer to being handed out |
| `IntentQueue.ClusterRuntimeIntentQueue.Publish` | backend/cluster_runtime_intent.go:57-78 | keeps the newest intent of each key; ignored without kind or after the stop |
| `IntentQueue.ClusterRuntimeIntentQueue.Drain` | backend/cluster_runtime_intent.go:80-101 | empties the queue and returns its intents, each once, smaller generations first, then smaller kinds, then smaller clusters |
| `IntentQueue.ClusterRuntimeIntentQueue.Stop` | backend/cluster_runtime_intent.go:124-134 | closes once and clears |
| `IntentQueue.SortedIsUnique` | backend/cluster_runtime_intent.go:91-99 | there is only one such order, whatever order the map was ranged over in |
| `IntentQueue.DecidedIsLess` | backend/cluster_runtime_intent.go:91-99 | of two strings the one with the smaller first differing character comes first, and a proper prefix comes first |
| `IntentQueue.LessIsDecided` | backend/cluster_runtime_intent.go:91-99 | and nothing else makes one string come before another |
| `IntentQueue.SortSorts` | backend/cluster_runtime_intent.go:91-99 | sorting intents of different keys is strict |
| `IntentQueue.WorkspaceIntents.Accept` | backend/cluster_runtime_intent.go:136-151 | accepts and records a generation above the recorded one |
| `IntentQueue.AcceptedIffNewest` | backend/cluster_runtime_intent.go:136-151 | over every sequence of intents, one is accepted exactly when it has a kind and a non-zero generation above all earlier ones of its key |
| `Governor.OrderAfterBegin` | backend/refresh_governor.go:237-263 | beginning a reconcile leaves an order without duplicates of exactly the open and visible clusters that keeps the relative order of those that stay |
| `Governor.AppliedWasReached` | backend/refresh_governor.go:263-296 | a tier is recorded as applied only after the executor reported reaching it, and only for clusters open or visible at the last reconcile |
| `Governor.LastViewedIsForeground` | backend/refresh_governor.go:101-113 | over every run the cluster viewed last is Foreground in the next plan, whatever the pressure |
| `Governor.ShownInWindowIsForeground` | backend/refresh_governor.go:129-162 | so is the cluster each window shows, until that window shows another one or goes |
| `Governor.PlannedForeground` | backend/refresh_governor.go:237-263 | and no cluster is that nobody looks at |
| `Governor.PlanFollowsPressure` | backend/refresh_governor.go:237-263 | a plan after a sample under pressure has every hidden cluster Cold; one after a sample without keeps the most recently viewed hidden ones warm, as many as may |
| `Governor.DeferredIsPlannedAgain` | backend/refresh_governor.go:280-296 | a deferred transition is planned again by the next reconcile that still wants its tier |
| `Governor.SuccessfulReconcileSettles` | backend/refresh_governor.go:280-296 | if every call of a reconcile reached its tier, what differs from the plan is what is still to be dispatched |
| `Governor.SecondReconcile` | backend/refresh_governor.go:237-297 | a second reconcile on unchanged inputs keeps order and plan and dispatches exactly what was deferred; nothing if all succeeded |
| `Governor.ResourceGovernor.Reconcile` | backend/refresh_governor.go:237-297 | order, plan, transitions and applied tiers of one whole reconcile; exactly the visible clusters are planned Foreground, under pressure nothing is planned Background, otherwise as many hidden clusters as may be |
| `Governor.ResourceGovernor.SetVisibleCluster` | backend/refresh_governor.go:101-113 | moves the cluster to the front and bumps the revision exactly when the visible cluster changed |
| `Governor.ResourceGovernor.SetWindowVisibleCluster` | backend/refresh_governor.go:129-162 | records the window's cluster, the first window taking over from the process-wide one; the revision moves exactly when something did |
| `Governor.ResourceGovernor.ReleaseWindow` | backend/refresh_governor.go:167-183 | drops the window's demand and reconciles exactly if there was one |
| `Governor.ResourceGovernor.Seed` | backend/refresh_governor.go:596-616 | restricts the order to the open clusters and picks the first as visible if none is |
| `Governor.ResourceGovernor.HandlePressureSample` | backend/refresh_governor.go:621-636 | reconciles on every sample over budget and on the first one under it again |
| `Governor.MoveToFront` | backend/refresh_governor.go:200-209 | computes the specified order |
| `Governor.MoveToFrontMeaning` | backend/refresh_governor.go:200-209 | puts the cluster first, adds nothing else, duplicates nothing, reorders nothing else |
| `Governor.IntersectOrdered` | backend/refresh_governor.go:316-332 | keeps the open ids in order, each once, and appends the missing open ones |
| `Governor.IntersectionKeepsOrder` | backend/refresh_governor.go:316-332 | whatever stays keeps its relative order |
| `Governor.IntersectionSettles` | backend/refresh_governor.go:316-332 | a list of exactly the open ids is returned unchanged |
| `Governor.Assign` | backend/refresh/system/governor.go:48-67 | visible clusters Foreground; under pressure all others Cold; otherwise the most recently viewed of the others Background, as many as may stay warm, and the rest Cold |
| `Governor.BackgroundWithinBudget` | backend/refresh/system/governor.go:48-67 | exactly the smaller of the budget and the number of hidden clusters are Background |
| `Governor.PolicyMeaning` | backend/refresh/system/governor.go:48-67 | what the assigned tiers mean, in terms of visibility, pressure, the number to keep warm and recency only |
| `Governor.WarmestFirst` | backend/refresh/system/governor.go:48-67 | no cluster is colder than a hidden one viewed less recently that is Background |
| `Governor.PlanGovernorTransitions` | backend/refresh/system/governor.go:91-109 | one transition for exactly the clusters whose desired tier is not the applied one, a teardown for Cold and a start for the others |
| `ClusterLifecycle.LoadingIffTimerSet` | backend/cluster_lifecycle.go:75-143 | in every reachable state a cluster is Loading exactly when its timer field is set, and that timer is its own and still to fire |
| `ClusterLifecycle.ServingNeverRegresses` | backend/cluster_lifecycle.go:75-109 | a run from a serving to a client-setup state passes through a removal or a state that is neither |
| `ClusterLifecycle.ReadyNeverDegrades` | backend/cluster_lifecycle.go:75-143 | no step takes Ready to Degraded; timers change only Loading, to LoadingSlow |
| `ClusterLifecycle.RevisionCountsChanges` | backend/cluster_lifecycle.go:75-215 | the revision equals the number of accepted changes, and visible states move only with it |
| `ClusterLifecycle.FireIsEarlyIffStale` | backend/cluster_lifecycle.go:126-143 | a callback ends the Loading period it meets, early exactly when it is not the entry's own timer |
| `ClusterLifecycle.StaleCallbackFiresEarly` | backend/cluster_lifecycle.go:126-143 | a run in which a leftover callback ends a later Loading period |
| `ClusterLifecycle.LeftArmedByStaleCallback` | backend/cluster_lifecycle.go:88-143 | the only armed timer of a cluster is that of its current Loading period, except for one whose period a stale callback ended |
| `ClusterLifecycle.SetTakesEffect` | backend/cluster_lifecycle.go:75-124 | over every run a state that is set is the state afterwards, unless it is client setup reported for a serving cluster or Degraded for a Ready one, and then nothing changes; the timer of the state left can no longer expire, Loading starts a new one, no other cluster is touched |
| `ClusterLifecycle.RemovalForgets` | backend/cluster_lifecycle.go:199-215 | a removed cluster is forgotten, its timer can no longer expire, and no other cluster is touched |
| `ClusterLifecycle.PromptReadiness` | backend/refresh_setup.go:415-432 | acting at once, a Ready result takes Loading, LoadingSlow and Degraded to Ready, a Degraded result takes Loading and LoadingSlow to Degraded, and nothing else changes |
| `ClusterLifecycle.ActsOnce` | backend/refresh_setup.go:379-384 | one observed readiness acts once |
| `ClusterLifecycle.ClusterLifecycle.SetState` | backend/cluster_lifecycle.go:75-109 | the whole new state and what is emitted, including ignored stale completions |
| `ClusterLifecycle.ClusterLifecycle.RunSlowTimer` | backend/cluster_lifecycle.go:126-143 | the whole effect of a timer callback |
| `ClusterLifecycle.ClusterLifecycle.Remove` | backend/cluster_lifecycle.go:199-215 | forgets the cluster and stops its timer |
| `ClusterLifecycle.ClusterLifecycle.GetAllStates` | backend/cluster_lifecycle.go:167-176 | a copy of all tracked states |
| `RequestWindow.KubernetesAPIMetrics.CountWindow` | backend/cluster_runtime_api_diagnostics.go:143-152 | for every window of 1 to 60 seconds ending at or after the last request, the count equals the number of logged requests in it |
| `RequestWindow.KubernetesAPIMetrics.Record` | backend/cluster_runtime_api_diagnostics.go:154-175 | every bucket keeps remembering the latest second of its residue with its count, and the peak the maximum per-second count, for any non-decreasing history, negative seconds included |
| `RequestWindow.BucketContributes` | backend/cluster_runtime_api_diagnostics.go:143-152 | within such a window a bucket contributes exactly the requests of its residue |
| `RequestWindow.BucketsPartition` | backend/cluster_runtime_api_diagnostics.go:143-152 | counting by bucket counts every request once |
| `RequestWindow.RecordKeepsPeak` | backend/cluster_runtime_api_diagnostics.go:170-173 | the peak is the maximum per-second count over the whole history |
| `RequestWindow.IndexIsResidue` | backend/cluster_runtime_api_diagnostics.go:160-164 | the truncated remainder moved up by 60 is the residue |
| `ManualQueue.UpdateLeavesNoneBehind` | backend/refresh_aggregate_manual_queue.go:199-282 | after an update whose enqueues succeed, every job of a cluster with a queue is bound to that queue or has a finished child where it was; a missing, queued or running child always moves, a finished one never; requests are untouched |
| `ManualQueue.AggregateManualQueue.UpdateConfig` | backend/refresh_aggregate_manual_queue.go:199-219 | moves exactly the unfinished children of replaced queues whose enqueue succeeds |
| `ManualQueue.AggregateManualQueue.UnfinishedJobMigrations` | backend/refresh_aggregate_manual_queue.go:221-256 | plans one move for exactly the jobs that need one |
| `ManualQueue.AggregateManualQueue.MoveUnfinishedJob` | backend/refresh_aggregate_manual_queue.go:258-282 | rebinds a job only if it is still bound to the child the move was planned from |
| `ManualQueue.AggregateManualQueue.Enqueue` | backend/refresh_aggregate_manual_queue.go:64-101 | registers a job for exactly one active cluster, bound to a queued child with its request, or says why not |
| `ManualQueue.AggregateManualQueue.GetStatus` | backend/refresh_aggregate_manual_queue.go:104-186 | the job's own request with the state, version, error and times of its child, the error naming the cluster and no time negative; failed if the child is missing |
| `ManualQueue.RebindsOnlyAsPlanned` | backend/refresh_aggregate_manual_queue.go:258-282 | however updates overlap, a job is rebound only by a move planned from the very child it leaves, when that child was unfinished |
| `ManualQueue.BindingsNeverReturn` | backend/refresh_aggregate_manual_queue.go:269-282 | a child a job has left is never bound to it again |
| `ManualQueue.FinishedChildrenStay` | backend/refresh_aggregate_manual_queue.go:247-282 | a finished child that no move was planned from keeps its job for good |
| `ManualQueue.RequestsConserved` | backend/refresh_aggregate_manual_queue.go:221-282 | jobs are never lost and their requests never change |
| `ManualQueue.ChildrenCarryRequests` | backend/refresh_aggregate_manual_queue.go:231-240 | whatever child a job is bound to carries its request |
| `ManualQueue.ChildKeepsRequest` | backend/refresh_aggregate_manual_queue.go:78-95 | the child of a job keeps domain, reason and scope part, its scope names the job's cluster alone, and that cluster is read back as the only target if and only if it does not start with the list prefix |
| `ManualQueue.MovesFinish` | backend/refresh_aggregate_manual_queue.go:258-282 | nothing prevents the at most two steps of a move: its enqueue, and the rebinding, which takes the job to the new child exactly if it still has the one it was planned from |
| `ManualQueue.PlansTakeEffect` | backend/refresh_aggregate_manual_queue.go:221-256 | a move is planned for a job exactly when its child is missing, queued or running on another queue than the replacement, and starts from that child |
| `ManualQueue.SubmissionsAndReportsTakeEffect` | backend/refresh_aggregate_manual_queue.go:64-101 | a submitted request becomes a new job bound to a new queued child with its derived request; an unfinished child shows what it reports |
| `RefreshScope.SplitUndoesJoin` | backend/refresh/scope.go:11-73 | splitting a joined scope returns the cluster alone and the trimmed scope |
| `RefreshScope.TargetSurvivesIff` | backend/refresh/scope.go:24-73 | the cluster of a job comes back from the scope of its child exactly when the id does not start with the list prefix |
| `RefreshScope.RequestedIsListable` | backend/refresh/scope.go:24-73 | every cluster id that a request can name is non-empty, trimmed and free of the two delimiters |
| `RefreshScope.ListRoundTrip` | backend/refresh/scope.go:11-73 | a scope that lists any distinct clusters gives back exactly those, in order, and the scope part |
| `RefreshScope.DistinctMember` | backend/refresh/scope.go:58-71 | the listed clusters are the trimmed parts that are not empty |
| `RefreshScope.DistinctOnce` | backend/refresh/scope.go:58-71 | each once, in the order of their first places |
| `RefreshScope.ParseClusterList` | backend/refresh/scope.go:47-73 | the distinct non-empty trimmed parts in order |
| `PermissionBatch.PermissionQueryBatch.QueryPermissions` | backend/resource_gateway_permissions.go:121-150 | settles every query exactly once with the batch's answer; per-key check and fallback counts equal the numbers of such queries |
| `PermissionBatch.BatchAgreesIffKeysFaithful` | backend/resource_gateway_permissions.go:390-415 | a batch answers every query as if it were alone, whatever the clusters answer, if and only if queries share a resolution or namespace key only with queries about the same thing |
| `PermissionBatch.FaithfulBatchAgrees` | backend/resource_gateway_permissions.go:176-301 | with faithful keys every answer equals that of the query alone, up to the wording of a failed review |
| `PermissionBatch.SingletonIsAlone` | backend/resource_gateway_permissions.go:121-150 | a batch of one is the query alone |
| `PermissionBatch.PlainKeysFaithful` | backend/resource_gateway_permissions.go:216-230 | keys are faithful as long as no cluster id, group or version contains the delimiter |
| `PermissionBatch.PlainResourcesFaithful` | backend/resource_gateway_permissions.go:216-230 | and, whatever the cluster ids, as long as no namespace, group, version or lower-case kind contains it |
| `PermissionBatch.DelimitersCollide` | backend/resource_gateway_permissions.go:216-230 | a delimiter inside a cluster id and one inside another query's namespace or group can make the two share a key |
| `PermissionBatch.SharedResolutionDiffers` | backend/resource_gateway_permissions.go:390-415 | for every batch with a shared resolution key some cluster answers tell the queries apart |
| `PermissionBatch.SharedPairDiffers` | backend/resource_gateway_permissions.go:216-230 | for every batch with a shared namespace key some rules tell the queries apart |
| `PermissionBatch.AloneByFields` | backend/resource_gateway_permissions.go:176-301 | the answer to a query alone as one case distinction over the query's own fields, the resolved resource and the calls into the cluster |
| `PermissionBatch.RulesDecideSoundly` | backend/resource_gateway_permissions.go:238-277 | in a batch, the rules fetched for a namespaced query allow it if and only if one covers its own verb, the resolved group, the resolved resource with its subresource, and its name; they deny it if and only if they are complete and none does; otherwise a review decides |
| `PermissionBatch.ReviewsAskTheQuery` | backend/resource_gateway_permissions.go:203-214 | a review is asked about exactly the query's cluster, verb, subresource and name, the resolved group and resource, and the namespace if the resource has one; its answer is the query's unless all reviews of the cluster fail |
| `PermissionBatch.CountsMeaning` | backend/resource_gateway_permissions.go:216-285 | the check and fallback counts of a key are the numbers of queries counted under it and of those left to a review |
| `PermissionBatch.KeyedMeaning` | backend/resource_gateway_permissions.go:216-230 | a query is counted under the key of its own cluster and namespace if and only if it resolves to a namespaced resource and names a namespace |
| `PermissionBatch.PermissionQueryBatch.PreparePermissionQueries` | backend/resource_gateway_permissions.go:176-230 | settles exactly the queries that cannot be prepared and prepares the others |
| `PermissionBatch.PermissionQueryBatch.EvaluatePermissionQueries` | backend/resource_gateway_permissions.go:232-277 | settles exactly what the rules decide and collects the rest per cluster, in order |
| `PermissionBatch.PermissionQueryBatch.ExecuteReviewBatches` | backend/resource_gateway_permissions.go:295-301 | settles every remaining query |
| `PermissionBatch.PermissionQueryBatch.ExecuteReviews` | backend/resource_gateway_permissions.go:420-460 | unavailable, all failed, or one answer each |
| `PermissionBatch.PermissionQueryBatch.DecideByRules` | backend/resource_gateway_permissions.go:250-276 | what the fetched rules of the namespace decide for one prepared query, if anything |
| `PermissionRules.MatchRules` | backend/capabilities/rules.go:187-209 | true if and only if some rule covers verb, group, resource with subresource, and name, each by itself or by its wildcard |
| `PermissionRules.MatchesResource` | backend/capabilities/rules.go:220-235 | all resources, exactly this one, or this subresource of any |
| `Preferences.OneLoadOrReset` | backend/preferences_service.go:119-240 | a load and a reset are never active together, at most one load and at most one reset runs |
| `Preferences.JoinersAgree` | backend/preferences_service.go:119-193 | all callers of an attempt return the same snapshot and error |
| `Preferences.CallersGetWhatWasRead` | backend/preferences_service.go:134-192 | whoever returns from an attempt gets the read's error if and only if the read failed and no startup caller had joined before the fallback was decided, the defaults at hand then if and only if it failed and one had, and the file's settings if and only if it did not fail |
| `Preferences.LateStartupCallerGetsError` | backend/preferences_service.go:134-174 | a startup caller that joins after the decision shares the error |
| `Preferences.HoldsLastWritten` | backend/preferences_service.go:180-240 | over every run the service holds what an attempt or another writer stored last, and nothing once a reset cleared it |
| `Preferences.CallersShareWhatIsHeld` | backend/preferences_service.go:124-158 | a caller that finds no attempt under way returns what is held without starting one, or starts the only one if nothing is held; one that finds an attempt joins it |
| `Preferences.StoredOnceReadByAll` | backend/preferences_service.go:141-186 | what an attempt stored is what every later caller gets without another read, until another writer, a reset or another attempt replaces it |
| `Preferences.NeverStuck` | backend/preferences_service.go:119-240 | while a call is unfinished, it or the owner of the attempt it waits for can take a step that leaves it fewer to take |
| `Preferences.StepsOnlyShrink` | backend/preferences_service.go:119-240 | and no step of anybody leaves any call more |
| `Preferences.PreferencesService.Enter` | backend/preferences_service.go:124-158 | joins, returns what is loaded, or begins the only attempt |
| `Preferences.PreferencesService.DecideFallback` | backend/preferences_service.go:164-175 | falls back exactly on a failed read with a startup caller |
| `Preferences.PreferencesService.StoreSettings` | backend/preferences_service.go:180-186 | stores settings and the attempt's snapshot together |
| `Preferences.PreferencesService.PublishAttempt` | backend/preferences_service.go:187-191 | sets the error, unregisters the attempt and releases its joiners |
| `Preferences.PreferencesService.BeginReset` | backend/preferences_service.go:208-220 | begins only while neither a load nor a reset is active |
| `OperationEpochs.RegisteredAreCurrent` | backend/operations_coordinator.go:146-191 | in every reachable state each registered operation carries the current epoch of its cluster, the one it captured |
| `OperationEpochs.NothingStaleIsRegistered` | backend/portforward_lifecycle.go:20-71 | what captured its epoch before a stop that reaches its cluster is never registered after it |
| `OperationEpochs.StaleRegisteredIffUntrimmed` | backend/runtime_operations.go:200-205 | disconnecting a cluster by its own id lets something stale stay registered in some run if and only if the id is not blank and trimming changes it, which the stop does and the registration does not |
| `OperationEpochs.ShutdownLeavesOnlyUntrimmed` | backend/runtime_operations.go:230-248 | what is registered once shutdown has stopped every cluster it found was there before, under an id with outer white space |
| `OperationEpochs.OutlivesShutdownIffUntrimmed` | backend/runtime_operations.go:200-248 | in some run something registered under an id outlives shutdown if and only if the id is not blank and trimming changes it |
| `OperationEpochs.TrimSpaceFacts` | backend/runtime_operations.go:200-205 | for the trimming of the code, that is when the id is not blank and has outer white space |
| `OperationEpochs.UntrimmedSurvives` | backend/runtime_operations.go:200-248 | a run for every such id: an operation outlives a disconnect and a shutdown by its own cluster id |
| `OperationEpochs.ShutdownOnlyShrinks` | backend/operations_coordinator.go:155-180 | once shutdown has begun the registry only shrinks |
| `OperationEpochs.OrphanedExactlyByLateRegistration` | backend/portforward_lifecycle.go:20-71 | while the application runs, a step leaves a registered forward without a session and without anyone to unregister it if and only if it is an accepted registration after the session's removal |
| `OperationEpochs.OrphanUntilDisconnect` | backend/portforward_lifecycle.go:20-71 | it stays so, shutdown or not, until a disconnect reaches its cluster, and is gone for good then |
| `OperationEpochs.LateActivationOrphans` | backend/portforward_lifecycle.go:48-71 | from every state with a running forward, a stop between seeing the session and registering again leaves it registered without one |
| `OperationEpochs.SessionsStayGone` | backend/portforward_lifecycle.go:20-105 | a session ended by a stop, a refused registration or the cleanup after a disconnect is never listed again |
| `OperationEpochs.OperationsCoordinator.RegisterRuntimeOperationAtEpoch` | backend/operations_coordinator.go:155-180 | registers exactly with a non-blank id and cluster, at the current epoch and before shutdown |
| `OperationEpochs.OperationsCoordinator.RemoveClusterRuntimeOperations` | backend/operations_coordinator.go:182-191 | moves the epoch on and removes exactly the cluster's operations |
| `OperationEpochs.OperationsCoordinator.StopCluster` | backend/runtime_operations.go:196-205 | removes the operations of the trimmed id; a blank one stops nothing |
| `OperationEpochs.OperationsCoordinator.Shutdown` | backend/runtime_operations.go:236-248 | refuses registrations, then stops every registered cluster: with nothing else under way exactly the operations under empty or untrimmed ids are left |
| `Favorites.ReorderPermutes` | backend/favorites_service_persistence.go:507-539 | any id list, unknown and repeated ids included, yields a permutation whose orders are the indices |
| `Favorites.ReorderOrder` | backend/favorites_service_persistence.go:507-539 | listed favorites come first in list order, the others after them in their old order |
| `Favorites.FavoritesService.SetFavoriteOrder` | backend/favorites_service_persistence.go:507-539 | computes that arrangement with the shrinking lookup, or saves nothing |
| `Favorites.FavoritesService.AddFavorite` | backend/favorites_service_persistence.go:418-446 | appends the given panes and content with the trimmed name under a fresh id, exactly when panes and name are valid and the name is free, or changes nothing and says why |
| `Favorites.AddKeepsCollection` | backend/favorites_service_persistence.go:309-324 | ids stay unique and orders indices; names stay distinct if and only if no stored favorite without an id has the name |
| `Favorites.FavoritesService.UpdateFavorite` | backend/favorites_service_persistence.go:449-477 | replaces the favorite with the id in place by the given panes, content and trimmed name, keeping its order, or changes nothing and says why |
| `Favorites.UpdateKeepsCollection` | backend/favorites_service_persistence.go:449-477 | ids stay unique, orders indices, names distinct |
| `Favorites.FavoritesService.DeleteFavorite` | backend/favorites_service_persistence.go:480-503 | removes the favorite with the id and closes the gap |
| `Favorites.DeleteKeepsCollection` | backend/favorites_service_persistence.go:480-503 | exactly one favorite goes, the others keep their relative order, and all three properties |
| `Favorites.ReorderKeepsCollection` | backend/favorites_service_persistence.go:507-539 | reordering keeps all three properties |
| `Favorites.FavoritesService.ValidateUniqueName` | backend/favorites_service_persistence.go:317-324 | finds a taken trimmed name |
| `KubeconfigWatch.MergeMeaning` | backend/kubeconfig_contract.go:183-207 | a directory is unfiltered exactly when some entry asks for all of it and otherwise accepts exactly the union of the names |
| `KubeconfigWatch.MergeIgnoresOrder` | backend/kubeconfig_watcher.go:156-167 | lists with the same entries merge to the same result |
| `KubeconfigWatch.MergeAgain` | backend/kubeconfig_contract.go:209-219 | merging the produced list changes nothing |
| `KubeconfigWatch.KubeconfigWatcher.MergeWatchedPaths` | backend/kubeconfig_watcher.go:156-167 | the loop computes the specification |
| `KubeconfigWatch.KubeconfigWatcher.WatchedPathsOf` | backend/kubeconfig_contract.go:209-219 | lists every merged directory once |
| `KubeconfigWatch.KubeconfigWatcher.ReplaceWatchedPaths` | backend/kubeconfig_watcher.go:202-210 | the filter table has exactly the filtered directories |
| `KubeconfigWatch.KubeconfigWatcher.ReconcileWatchedDirectories` | backend/kubeconfig_watcher.go:185-200 | drops what is no longer wanted and adds what is new |
| `KubeconfigWatch.KubeconfigWatcher.UpdateWatchedPaths` | backend/kubeconfig_watcher.go:144-154 | afterwards the watcher holds the merge of the given entries |
| `KubeconfigWatch.KubeconfigWatcher.AcceptsEventPath` | backend/kubeconfig_watcher.go:126-138 | accepts exactly the names asked for in a filtered directory and every name that is not skipped elsewhere |
| `KubeconfigSelection.PrintThenParse` | backend/kubeconfig_selection_contract.go:16-73 | parsing the printed form returns path and non-empty context if and only if it has no outer white space and the path is a drive path or has no colon and is not a lone letter before a context without a leading colon |
| `KubeconfigSelection.ParseThenPrint` | backend/kubeconfig_selection_contract.go:16-73 | parse, print, parse equals parse if and only if there is a context or the parsed path has no outer white space |
| `KubeconfigSelection.PrintedDelimiter` | backend/kubeconfig_selection_contract.go:31-46 | the delimiter found in a printed selection is the one printed exactly for such paths |
| `KubeconfigSelection.FoundPathIsWhole` | backend/kubeconfig_selection_contract.go:31-46 | a path that parsing found splits no further |
| `KubeconfigSelection.DriveLettersOnly` | backend/kubeconfig_selection_contract.go:31-46 | one ASCII letter and a colon in front belong to the path; anything else in front ends the path at its colon |
| `RefreshRouting.RefreshCoordinator.SetRefreshSubsystem` | backend/refresh_subsystems.go:25-38 | registers one generation |
| `RefreshRouting.RefreshCoordinator.UnrouteAndStop` | backend/refresh_auth.go:27-43 | afterwards everything is settled if and only if nothing routes to the cluster |
| `RefreshRouting.RefreshCoordinator.RetireSnapshotServing` | backend/refresh_generation.go:266 | the generation can serve no more |
| `RefreshRouting.RefreshCoordinator.RunCloser` | backend/refresh_spill.go:229-238 | a closer may be run only if it has not run before |
| `RefreshRouting.RefreshCoordinator.StopAll` | backend/refresh_update.go:202-206 | stops each of several unregistered generations once, keeping every step safe |
| `RefreshRouting.RefreshCoordinator.InstallSelection` | backend/refresh_update.go:173-177 | registers the routed topology, commits what is new, then stops exactly what it drops |
| `RefreshGeneration.RefreshCoordinator.Call` | backend/refresh_generation.go:112-126 | a cancel function may be called only if it has not been called before |
| `RefreshGeneration.AbandonBatch` | backend/refresh_generation.go:136-145 | the failure path of a batch |
| `RefreshGeneration.CommitKeepsAccounted` | backend/refresh_generation.go:175-210 | a commit keeps every cancel function owned once and retires none twice, and never one of the generation it commits |
| `OperationCoordinator.ClusterOperationCoordinator.CancelAll` | backend/cluster_operation_coordinator.go:79-109 | the loop cancels exactly the registered operations that are not queued |
| `Governor.ResourceGovernor.Dispatch` | backend/refresh_governor.go:280-296 | records exactly the tiers the executor reached |
| `Governor.AssignedMeaning` | backend/refresh/system/governor.go:48-67 | what the loop assigns is the specified tier of every cluster and of no other |
| `Governor.DifferingAfterDispatch` | backend/refresh_governor.go:280-296 | after dispatching, exactly the deferred transitions still differ from the plan |
| `ClusterLifecycle.ReadinessLandsIff` | backend/refresh_setup.go:379-432 | a readiness callback that read its cluster's state at one step and acts at a later one changes the state it meets if and only if its result differs from what it saw and from what it meets and is not Degraded on Ready; it never takes a cluster out of Ready |
| `ClusterLifecycle.ReadinessRevivesIff` | backend/refresh_setup.go:379-432 | it takes a cluster that is not serving to a serving state if and only if its result differs from what it saw, and the cluster has then stopped serving in between |
| `ClusterLifecycle.LateReadinessRevives` | backend/refresh_setup.go:379-384 | a run in which a disconnected cluster becomes Ready that way |
| `ManualQueue.AggregateManualQueue.MoveUnfinishedJobs` | backend/refresh_aggregate_manual_queue.go:214-219 | moves every planned job whose enqueue succeeds |
| `ManualQueue.FlightWasPlanned` | backend/refresh_aggregate_manual_queue.go:221-245 | every move under way was planned from a child that was unfinished then |
| `PermissionBatch.PermissionQueryBatch.Settle` | backend/resource_gateway_permissions.go:176-301 | a query may be settled only if it is not settled yet |
| `PermissionBatch.PermissionQueryBatch.ResolveCached` | backend/resource_gateway_permissions.go:390-406 | the cached resolution of the key, resolving it the first time |
| `PermissionBatch.PermissionQueryBatch.RegisterPrepared` | backend/resource_gateway_permissions.go:216-230 | counts the check under its key and notes the namespace to fetch |
| `PermissionBatch.PermissionQueryBatch.FetchRules` | backend/resource_gateway_permissions.go:303-346 | the rules of every namespace to fetch |
| `PermissionBatch.PermissionQueryBatch.ExecuteCluster` | backend/resource_gateway_permissions.go:420-460 | settles exactly the remaining queries of the cluster |
| `OperationEpochs.OperationsCoordinator.UnregisterRuntimeOperation` | backend/runtime_operations.go:172-180 | removes this operation only |
| `OperationEpochs.OperationsCoordinator.RemoveSession` | backend/portforward_lifecycle.go:73-85 | removes the session and says whether it was there |
| `KubeconfigWatch.RegisteredIsWatched` | backend/kubeconfig_watcher.go:185-200 | the system watcher has exactly the watched directories as long as it accepts them all |
| `KubeconfigWatch.KubeconfigWatcher.FiltersOf` | backend/kubeconfig_watcher.go:202-210 | the names of every filtered directory |
| `Favorites.FavoritesService.PlaceListed` | backend/favorites_service_persistence.go:522-527 | places the listed favorites and leaves the others in the lookup |
| `Favorites.FavoritesService.PlaceOthers` | backend/favorites_service_persistence.go:528-533 | places what is left in its old order |

## Left out

- RefreshRouting.RefreshCoordinator.SetupForSelections: takes the generations as built; those of a set-up whose build fails half way, which the code neither starts nor stops, are left out.
- RoutingRuns.HealthyIffNoStaleWrite: client replacement, object catalogs and spilling are left out of the interleavings.
- RoutingWindows.WindowsApartStaySafe: a sufficient condition; operations that overlap harmlessly are outside it.
- OperationCoordinator.ClusterOperationCoordinator.Begin: an empty cluster id or a nil callback bypasses the coordinator; tokens do not wrap.
- SelectionCoordinator.WorkspaceCoordinator.ActivateSelectionGeneration: generations do not wrap, and an idle wait with a timeout is not modelled.
- WorkspaceSnapshot.SnapshotIsOneInstant: says nothing about whether the retry loop ends.
- WorkspaceSnapshot.ClusterWorkspaceProjection.SetClusterHealth: the other sources of the snapshot appear only as lock holders that bump before they release.
- ClusterLifecycle.ClusterLifecycle.SetState: the emitter runs after the mutex is released, so the order of emitted events is not modelled.
- Governor.ResourceGovernor.Reconcile: takes what the executor reaches as a parameter; the interleaving with visibility changes is in the state machine.
- IntentQueue.ClusterRuntimeIntentQueue.Drain: sorts by insertion where the code calls a library sort; the order is unique, so the result is the same.
- ManualQueue.AggregateManualQueue.Enqueue: job ids are issued from a counter, where the code formats the time; two ids issued in the same nanosecond would collide.
- ManualQueue.AggregateManualQueue.GetStatus: leaves out when the job was queued, and replacing a registered job from outside.
- ManualQueue.RebindsOnlyAsPlanned: children finish at most once; a queue whose finished jobs are reset from outside is not modelled.
- PermissionBatch.PermissionQueryBatch.QueryPermissions: takes normalized queries, and fetches rules one after the other; a fetch abandoned because its context ended is not modelled.
- PermissionBatch.PermissionQueryBatch.QueryPermissions: leaves out the method and rule-count fields of the diagnostics and the counts of cluster-scoped reviews.
- PermissionBatch.FaithfulBatchAgrees: the text of a failed review may differ between a batch and the query alone, because one failed check out of several is reported by itself and a single one as all checks.
- RequestWindow.KubernetesAPIMetrics.Record: leaves out the status-class counters, and 64-bit overflow of counters and seconds.
- Preferences.PreferencesService.StoreSettings: settings are opaque; side effects dispatched on load are left out.
- OperationEpochs.OperationsCoordinator.RegisterRuntimeOperationAtEpoch: epochs do not wrap; shell sessions and drains are registrations without a session.
- Favorites.FavoritesService.AddFavorite: the favorite's panes are normalized already; loading, migrating and encoding the file are left out.
- KubeconfigWatch.KubeconfigWatcher.AcceptsEventPath: which names are skipped is a parameter; directories are compared as given, without the case folding of file names on Windows.
- KubeconfigSelection.PrintThenParse: text is characters where the code has bytes; only ASCII letters and colons matter to it.
- RefreshGeneration.StartRefreshGenerations: maps keyed by cluster are the sequences of their entries in the order they are ranged over.
- RefreshGeneration.RefreshCoordinator.StopRefreshGeneration: the catalog, streams and manager shutdown between the two cancellations are left out.
- The refresh runtime context and its reopening, the metrics, telemetry and log aggregates, spilling, object catalogs, retained-baseline preparation and the pressure loop's timer.
- The desktop shell, windows, menus and dialogs; Kubernetes clients, transports and patches; file formats; detail getters and dispatch tables.
- Fairness of scheduling, timeouts and waiting times: the lemmas named `NeverStuck` say that some step is always possible, not that it is taken.
