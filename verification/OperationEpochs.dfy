/**
 Epochs of runtime operations: backend/operations_coordinator.go:146-191,
 backend/runtime_operations.go:55-94 and 196-248, and the port-forward sessions of
 backend/portforward_lifecycle.go.

 An operation captures its cluster's epoch before it resolves anything and may be registered only
 while that epoch is still current; a disconnect moves the epoch on. Registration and epochs use the
 cluster id as it is, a disconnect the trimmed one. The lemmas take `trim` as a parameter: which
 function it is matters only at the end, where it is `TrimSpace`.
 */
module OperationEpochs {
  import opened Wrappers
  import opened Strings

  /** A registered operation; the epoch it was registered at is kept for the proofs. */
  datatype Operation = Operation(cluster: string, epoch: nat)

  type Registry = map<string, Operation>

  function EpochOf(epochs: map<string, nat>, cluster: string): nat {
    if cluster in epochs then epochs[cluster] else 0
  }

  function OfCluster(registry: Registry, cluster: string): set<string> {
    set id | id in registry && registry[id].cluster == cluster
  }

  datatype Records = Records(epochs: map<string, nat>, shuttingDown: bool, registry: Registry, sessions: set<string>)

  const NONE := Records(map[], false, map[], {})

  type Trimming = string -> string

  predicate Admits(r: Records, id: string, cluster: string, epoch: nat, trim: Trimming) {
    trim(id) != "" && trim(cluster) != "" && !r.shuttingDown && EpochOf(r.epochs, cluster) == epoch
  }

  function AfterRegister(r: Records, id: string, cluster: string, epoch: nat, trim: Trimming): Records {
    if Admits(r, id, cluster, epoch, trim) then r.(registry := r.registry[id := Operation(cluster, epoch)]) else r
  }

  function AfterRemoval(r: Records, cluster: string): Records {
    r.(epochs := r.epochs[cluster := EpochOf(r.epochs, cluster) + 1], registry := r.registry - OfCluster(r.registry, cluster))
  }

  /** What `stopCluster` removes the operations of; nothing for a blank id. */
  predicate Stops(stopped: string, cluster: string, trim: Trimming) {
    trim(stopped) == cluster && cluster != ""
  }

  function AfterDisconnect(r: Records, cluster: string, trim: Trimming): Records {
    if trim(cluster) == "" then r else AfterRemoval(r, trim(cluster))
  }

  /** The operations under an id that no stop ever reaches: empty, or with outer white space. */
  function OutOfReach(registry: Registry): Registry {
    map id | id in registry && (registry[id].cluster == "" || !IsTrimmed(registry[id].cluster)) :: registry[id]
  }

  function Without(registry: Registry, clusters: set<string>): Registry {
    map id | id in registry && registry[id].cluster !in clusters :: registry[id]
  }

  lemma WithoutMore(registry: Registry, clusters: set<string>, cluster: string)
    ensures Without(registry, clusters) - OfCluster(Without(registry, clusters), cluster) == Without(registry, clusters + {cluster})
  {
  }

  class OperationsCoordinator {
    var operationEpochs: map<string, nat>
    var shuttingDown: bool
    var runtimeOperations: Registry
    var portForwardSessions: set<string>

    function State(): Records
      reads this
    {
      Records(operationEpochs, shuttingDown, runtimeOperations, portForwardSessions)
    }

    constructor ()
      ensures State() == NONE
    {
      operationEpochs, shuttingDown, runtimeOperations, portForwardSessions := map[], false, map[], {};
    }

    method ClusterOperationEpoch(cluster: string) returns (epoch: nat)
      ensures epoch == EpochOf(State().epochs, cluster)
    {
      epoch := EpochOf(operationEpochs, cluster);
    }

    method RegisterRuntimeOperationAtEpoch(id: string, cluster: string, epoch: nat) returns (registered: bool)
      modifies `runtimeOperations
      ensures registered == Admits(old(State()), id, cluster, epoch, TrimSpace)
      ensures State() == AfterRegister(old(State()), id, cluster, epoch, TrimSpace)
    {
      if TrimSpace(id) == "" || TrimSpace(cluster) == "" {
        return false;
      }
      if shuttingDown || EpochOf(operationEpochs, cluster) != epoch {
        return false;
      }
      runtimeOperations := runtimeOperations[id := Operation(cluster, epoch)];
      registered := true;
    }

    /** The registry's loop over its entries; returns what was removed. */
    method RemoveClusterRuntimeOperations(cluster: string) returns (removed: set<string>)
      modifies `operationEpochs, `runtimeOperations
      ensures removed == OfCluster(old(runtimeOperations), cluster) && State() == AfterRemoval(old(State()), cluster)
    {
      operationEpochs := operationEpochs[cluster := EpochOf(operationEpochs, cluster) + 1];
      removed := {};
      var rest := runtimeOperations.Keys;
      ghost var seen: set<string> := {};
      while rest != {}
        invariant rest + seen == old(runtimeOperations).Keys && rest !! seen
        invariant removed == OfCluster(old(runtimeOperations), cluster) * seen
        invariant runtimeOperations == old(runtimeOperations) - removed
        invariant operationEpochs == old(operationEpochs)[cluster := EpochOf(old(operationEpochs), cluster) + 1]
      {
        var id :| id in rest;
        if runtimeOperations[id].cluster == cluster {
          removed := removed + {id};
          runtimeOperations := runtimeOperations - {id};
        }
        rest, seen := rest - {id}, seen + {id};
      }
      assert removed == OfCluster(old(runtimeOperations), cluster);
    }

    /** The trimmed id decides; a blank one stops nothing. */
    method StopCluster(cluster: string) returns (removed: set<string>)
      modifies `operationEpochs, `runtimeOperations
      ensures removed == set id | id in old(runtimeOperations) && Stops(cluster, old(runtimeOperations)[id].cluster, TrimSpace)
      ensures State() == AfterDisconnect(old(State()), cluster, TrimSpace)
    {
      var trimmed := TrimSpace(cluster);
      removed := {};
      if trimmed != "" {
        removed := RemoveClusterRuntimeOperations(trimmed);
      }
    }

    method UnregisterRuntimeOperation(id: string) returns (removed: bool)
      modifies `runtimeOperations
      ensures removed == (id in old(runtimeOperations)) && State() == old(State()).(registry := old(runtimeOperations) - {id})
    {
      removed := id in runtimeOperations;
      runtimeOperations := runtimeOperations - {id};
    }

    /** The flag that `Shutdown` sets before it stops any cluster. */
    method RefuseRegistrations()
      modifies `shuttingDown
      ensures State() == old(State()).(shuttingDown := true)
    {
      shuttingDown := true;
    }

    /** With nothing else under way shutdown leaves exactly what is registered under ids out of reach. */
    method Shutdown()
      modifies `shuttingDown, `operationEpochs, `runtimeOperations
      ensures shuttingDown && runtimeOperations == OutOfReach(old(runtimeOperations))
    {
      RefuseRegistrations();
      ghost var before, stopped, dropped: set<string> := runtimeOperations, {}, {};
      var clusters := ClusterIds();
      while clusters != {}
        invariant shuttingDown && runtimeOperations == Without(before, dropped)
        invariant forall id | id in before && before[id].cluster != "" :: before[id].cluster in stopped + clusters
        invariant forall c | c in stopped && IsTrimmed(c) && c != "" :: c in dropped
        invariant forall c | c in dropped :: IsTrimmed(c) && c != ""
      {
        var cluster :| cluster in clusters;
        var _ := StopCluster(cluster);
        clusters, stopped := clusters - {cluster}, stopped + {cluster};
        if TrimSpace(cluster) != "" {
          WithoutMore(before, dropped, TrimSpace(cluster));
          dropped := dropped + {TrimSpace(cluster)};
        }
      }
    }

    function ClusterIds(): (clusters: set<string>)
      reads this
      ensures forall c :: c in clusters <==> c != "" && exists id | id in runtimeOperations :: runtimeOperations[id].cluster == c
    {
      set id | id in runtimeOperations && runtimeOperations[id].cluster != "" :: runtimeOperations[id].cluster
    }

    method ListSession(id: string)
      modifies `portForwardSessions
      ensures State() == old(State()).(sessions := old(portForwardSessions) + {id})
    {
      portForwardSessions := portForwardSessions + {id};
    }

    method RemoveSession(id: string) returns (removed: bool)
      modifies `portForwardSessions
      ensures removed == (id in old(portForwardSessions)) && State() == old(State()).(sessions := old(portForwardSessions) - {id})
    {
      removed := id in portForwardSessions;
      portForwardSessions := portForwardSessions - {id};
    }
  }

  // ----- Interleavings -----

  datatype Phase = Resolving | Registering | Started | Marking | Refused | Ended

  /** One operation on its way; `forward` for port forwards, which also have a session. */
  datatype Flow = Flow(cluster: string, epoch: nat, forward: bool, phase: Phase)

  /** `unregistering` are removed sessions whose registry entry is still to be removed, `cleaning`
      operations taken out by a disconnect whose cleanup is still to run. */
  datatype State = State(records: Records, flows: map<string, Flow>, unregistering: set<string>, cleaning: set<string>)

  datatype Event =
    | Capture(id: string, cluster: string, forward: bool)
    | List(id: string)
    | Register(id: string)
    | DropRefused(id: string)
    | SeeActive(id: string)        // markActive finds the session
    | MarkActive(id: string)       // and registers it again
    | RemoveSession(id: string)    // a user stop or a terminal end
    | Unregister(id: string)
    | Disconnect(cluster: string)
    | CleanUp(id: string)
    | Refuse                       // shutdown begins

  const INITIAL := State(NONE, map[], {}, {})

  predicate InPhase(s: State, id: string, phase: Phase) {
    id in s.flows && s.flows[id].phase == phase
  }

  predicate Enabled(s: State, e: Event) {
    match e
    case Capture(id, _, _) => id !in s.flows
    case List(id) => InPhase(s, id, Resolving)
    case Register(id) => InPhase(s, id, Registering)
    case DropRefused(id) => InPhase(s, id, Refused)
    case SeeActive(id) => InPhase(s, id, Started) && s.flows[id].forward && id in s.records.sessions
    case MarkActive(id) => InPhase(s, id, Marking)
    case RemoveSession(id) => id in s.records.sessions
    case Unregister(id) => id in s.unregistering
    case Disconnect(_) => true
    case CleanUp(id) => id in s.cleaning
    case Refuse => true
  }

  function Attempt(s: State, id: string, trim: Trimming): State
    requires id in s.flows
  {
    var flow := s.flows[id];
    s.(records := AfterRegister(s.records, id, flow.cluster, flow.epoch, trim),
       flows := s.flows[id := flow.(phase := if Admits(s.records, id, flow.cluster, flow.epoch, trim) then Started else Refused)])
  }

  function Next(s: State, e: Event, trim: Trimming): State
    requires Enabled(s, e)
  {
    match e
    case Capture(id, cluster, forward) => s.(flows := s.flows[id := Flow(cluster, EpochOf(s.records.epochs, cluster), forward, Resolving)])
    case List(id) =>
      s.(records := s.records.(sessions := s.records.sessions + if s.flows[id].forward then {id} else {}),
         flows := s.flows[id := s.flows[id].(phase := Registering)])
    case Register(id) => Attempt(s, id, trim)
    case DropRefused(id) =>
      s.(records := s.records.(sessions := s.records.sessions - {id}), flows := s.flows[id := s.flows[id].(phase := Ended)])
    case SeeActive(id) => s.(flows := s.flows[id := s.flows[id].(phase := Marking)])
    case MarkActive(id) => Attempt(s, id, trim)
    case RemoveSession(id) => s.(records := s.records.(sessions := s.records.sessions - {id}), unregistering := s.unregistering + {id})
    case Unregister(id) => s.(records := s.records.(registry := s.records.registry - {id}), unregistering := s.unregistering - {id})
    case Disconnect(cluster) =>
      s.(records := AfterDisconnect(s.records, cluster, trim),
         cleaning := s.cleaning + set id | id in s.records.registry && Stops(cluster, s.records.registry[id].cluster, trim))
    case CleanUp(id) => s.(records := s.records.(sessions := s.records.sessions - {id}), cleaning := s.cleaning - {id})
    case Refuse => s.(records := s.records.(shuttingDown := true))
  }

  ghost predicate Behaviour(states: seq<State>, events: seq<Event>, trim: Trimming) {
    && |states| == |events| + 1
    && states[0] == INITIAL
    && forall i | 0 <= i < |events| :: Enabled(states[i], events[i]) && states[i + 1] == Next(states[i], events[i], trim)
  }

  /** Every registered operation carries the current epoch of its cluster, the one its flow captured. */
  ghost predicate RegisteredFits(s: State, id: string, trim: Trimming)
    requires id in s.records.registry
  {
    var operation := s.records.registry[id];
    && operation.epoch == EpochOf(s.records.epochs, operation.cluster) && trim(operation.cluster) != ""
    && id in s.flows && s.flows[id].cluster == operation.cluster && s.flows[id].epoch == operation.epoch
    && s.flows[id].phase != Resolving && s.flows[id].phase != Registering
  }

  ghost predicate AllCurrent(s: State, trim: Trimming) {
    && (forall id | id in s.records.registry :: RegisteredFits(s, id, trim))
    && (forall id | id in s.flows :: s.flows[id].epoch <= EpochOf(s.records.epochs, s.flows[id].cluster))
  }

  lemma StepKeepsCurrent(s: State, e: Event, trim: Trimming)
    requires trim("") == "" && AllCurrent(s, trim) && Enabled(s, e)
    ensures AllCurrent(Next(s, e, trim), trim)
  {
    var s' := Next(s, e, trim);
    forall id | id in s'.records.registry ensures RegisteredFits(s', id, trim) {
      assert id in s.records.registry ==> RegisteredFits(s, id, trim);
    }
  }

  lemma {:induction false} RegisteredAreCurrent(states: seq<State>, events: seq<Event>, n: nat, trim: Trimming)
    requires trim("") == "" && Behaviour(states, events, trim) && n < |states|
    ensures AllCurrent(states[n], trim)
  {
    if n > 0 {
      RegisteredAreCurrent(states, events, n - 1, trim);
      StepKeepsCurrent(states[n - 1], events[n - 1], trim);
    }
  }

  /** What captured its epoch before its cluster is stopped is never registered after it, however it
      resolves, starts, becomes active or ends meanwhile. */
  lemma NothingStaleIsRegistered(states: seq<State>, events: seq<Event>, j: nat, n: nat, id: string, trim: Trimming)
    requires trim("") == "" && Behaviour(states, events, trim) && j < n < |states| && id in states[j].flows
    requires events[j].Disconnect? && Stops(events[j].cluster, states[j].flows[id].cluster, trim)
    ensures id !in states[n].records.registry
  {
    RegisteredAreCurrent(states, events, j, trim);
    assert states[j + 1] == Next(states[j], events[j], trim);
    EpochsGrow(states, events, j + 1, n, id, trim);
    RegisteredAreCurrent(states, events, n, trim);
  }

  lemma {:induction false} EpochsGrow(states: seq<State>, events: seq<Event>, n: nat, m: nat, id: string, trim: Trimming)
    requires Behaviour(states, events, trim) && n <= m < |states| && id in states[n].flows
    ensures id in states[m].flows && states[m].flows[id].cluster == states[n].flows[id].cluster
    ensures states[m].flows[id].epoch == states[n].flows[id].epoch && states[m].flows[id].forward == states[n].flows[id].forward
    ensures EpochOf(states[n].records.epochs, states[n].flows[id].cluster) <= EpochOf(states[m].records.epochs, states[n].flows[id].cluster)
    decreases m
  {
    if n < m {
      EpochsGrow(states, events, n, m - 1, id, trim);
      FlowStays(states[m - 1], events[m - 1], id, trim);
    }
  }

  lemma FlowStays(s: State, e: Event, id: string, trim: Trimming)
    requires Enabled(s, e) && id in s.flows
    ensures var s' := Next(s, e, trim);
            && id in s'.flows && s'.flows[id].cluster == s.flows[id].cluster
            && s'.flows[id].epoch == s.flows[id].epoch && s'.flows[id].forward == s.flows[id].forward
            && forall c :: EpochOf(s.records.epochs, c) <= EpochOf(s'.records.epochs, c)
  {
  }

  // ----- Shutdown -----

  ghost predicate OnlyShrunk(before: Registry, after: Registry) {
    forall id | id in after :: id in before && before[id] == after[id]
  }

  /** Once shutdown has begun the registry only shrinks. */
  lemma {:induction false} ShutdownOnlyShrinks(states: seq<State>, events: seq<Event>, n: nat, m: nat, trim: Trimming)
    requires Behaviour(states, events, trim) && n <= m < |states| && states[n].records.shuttingDown
    ensures states[m].records.shuttingDown && OnlyShrunk(states[n].records.registry, states[m].records.registry)
    decreases m
  {
    if n < m {
      ShutdownOnlyShrinks(states, events, n, m - 1, trim);
      assert states[m] == Next(states[m - 1], events[m - 1], trim);
    }
  }

  lemma ShutdownDropsCluster(states: seq<State>, events: seq<Event>, n: nat, j: nat, m: nat, id: string, trim: Trimming)
    requires Behaviour(states, events, trim) && n <= j < m < |states| && states[n].records.shuttingDown
    requires id in states[n].records.registry && events[j].Disconnect? && Stops(events[j].cluster, states[n].records.registry[id].cluster, trim)
    ensures id !in states[m].records.registry
  {
    ShutdownOnlyShrinks(states, events, n, j, trim);
    assert states[j + 1] == Next(states[j], events[j], trim);
    assert id !in states[j + 1].records.registry;
    ShutdownOnlyShrinks(states, events, j + 1, m, trim);
  }

  /** The clusters that shutdown found in the registry at step n have all been stopped by step m. */
  ghost predicate AllStopped(states: seq<State>, events: seq<Event>, n: nat, m: nat)
    requires n <= m <= |events| && n < |states|
  {
    forall id | id in states[n].records.registry ::
      exists j | n <= j < m :: events[j] == Disconnect(states[n].records.registry[id].cluster)
  }

  /** Whatever is left once shutdown has stopped every cluster that it found, or is registered later,
      was there before under an id with outer white space. */
  lemma ShutdownLeavesOnlyUntrimmed(states: seq<State>, events: seq<Event>, n: nat, m: nat, trim: Trimming)
    requires trim("") == "" && Behaviour(states, events, trim) && n <= m < |states|
    requires states[n].records.shuttingDown && AllStopped(states, events, n, m)
    ensures forall id | id in states[m].records.registry ::
              id in states[n].records.registry && trim(states[m].records.registry[id].cluster) != states[m].records.registry[id].cluster
  {
    ShutdownOnlyShrinks(states, events, n, m, trim);
    RegisteredAreCurrent(states, events, n, trim);
    forall id | id in states[m].records.registry ensures trim(states[m].records.registry[id].cluster) != states[m].records.registry[id].cluster {
      var cluster := states[n].records.registry[id].cluster;
      var j :| n <= j < m && events[j] == Disconnect(cluster);
      if trim(cluster) == cluster {
        ShutdownDropsCluster(states, events, n, j, m, id, trim);
      }
    }
  }

  // ----- Cluster ids with outer white space -----

  lemma Extend(states: seq<State>, events: seq<Event>, e: Event, trim: Trimming) returns (states': seq<State>, events': seq<Event>)
    requires Behaviour(states, events, trim) && Enabled(states[|events|], e)
    ensures Behaviour(states', events', trim) && events' == events + [e] && states' == states + [Next(states[|events|], e, trim)]
  {
    states', events' := states + [Next(states[|events|], e, trim)], events + [e];
  }

  /** An operation registered under any id that is not blank. */
  lemma RegistersUnder(cluster: string, trim: Trimming) returns (states: seq<State>, events: seq<Event>)
    requires trim("op") != "" && trim(cluster) != ""
    ensures Behaviour(states, events, trim) && events == [Capture("op", cluster, false), List("op"), Register("op")]
    ensures states[3].flows == map["op" := Flow(cluster, 0, false, Started)]
    ensures states[3].records == NONE.(registry := map["op" := Operation(cluster, 0)])
  {
    assert Behaviour([INITIAL], [], trim);
    states, events := Extend([INITIAL], [], Capture("op", cluster, false), trim);
    states, events := Extend(states, events, List("op"), trim);
    assert states[2].flows == map["op" := Flow(cluster, 0, false, Registering)] && states[2].records == NONE;
    states, events := Extend(states, events, Register("op"), trim);
  }

  /** An operation is registered, its cluster disconnected, shutdown begins, and its cluster is stopped
      again, both times by the very id it was registered under. It stays registered. */
  lemma UntrimmedSurvives(cluster: string, trim: Trimming) returns (states: seq<State>, events: seq<Event>)
    requires trim("op") != "" && trim(cluster) != "" && trim(cluster) != cluster
    ensures Behaviour(states, events, trim) && |events| == 6 && events[3] == Disconnect(cluster) && events[5] == Disconnect(cluster)
    ensures "op" in states[3].flows && states[3].flows["op"].cluster == cluster
    ensures states[4].records.registry == states[6].records.registry == map["op" := Operation(cluster, 0)]
    ensures states[5].records.shuttingDown && AllStopped(states, events, 5, 6)
  {
    var registry := map["op" := Operation(cluster, 0)];
    states, events := RegistersUnder(cluster, trim);
    states, events := Extend(states, events, Disconnect(cluster), trim);
    assert states[4].records.registry == registry;
    states, events := Extend(states, events, Refuse, trim);
    states, events := Extend(states, events, Disconnect(cluster), trim);
    assert states[6].records.registry == registry;
    assert events[5] == Disconnect(states[5].records.registry["op"].cluster);
  }

  /** Registered at step n although its epoch was captured before its cluster was disconnected by its id. */
  ghost predicate StaleRegistered(states: seq<State>, events: seq<Event>, j: nat, n: nat, id: string, cluster: string, trim: Trimming) {
    && Behaviour(states, events, trim) && j < n < |states|
    && id in states[j].flows && states[j].flows[id].cluster == cluster && events[j] == Disconnect(cluster)
    && id in states[n].records.registry
  }

  /** In some run. */
  ghost predicate GoesStale(cluster: string, trim: Trimming) {
    exists states, events, j: nat, n: nat, id :: StaleRegistered(states, events, j, n, id, cluster, trim)
  }

  lemma StaleIsUntrimmed(states: seq<State>, events: seq<Event>, j: nat, n: nat, id: string, cluster: string, trim: Trimming)
    requires trim("") == "" && StaleRegistered(states, events, j, n, id, cluster, trim)
    ensures trim(cluster) != cluster && trim(cluster) != ""
  {
    if trim(cluster) == "" {
      EpochsGrow(states, events, j, n, id, trim);
      RegisteredAreCurrent(states, events, n, trim);
    } else if trim(cluster) == cluster {
      NothingStaleIsRegistered(states, events, j, n, id, trim);
    }
  }

  /** Disconnecting a cluster by its own id lets something stale be registered after it, in some run,
      exactly when trimming changes the id and leaves something of it: for `TrimSpace`, when the id is not
      blank and has outer white space (`TrimSpaceFacts`). */
  lemma {:induction false} StaleRegisteredIffUntrimmed(cluster: string, trim: Trimming)
    requires trim("") == "" && trim("op") != ""
    ensures GoesStale(cluster, trim) <==> trim(cluster) != cluster && trim(cluster) != ""
  {
    if states, events, j: nat, n: nat, id :| StaleRegistered(states, events, j, n, id, cluster, trim) {
      StaleIsUntrimmed(states, events, j, n, id, cluster, trim);
    }
    if trim(cluster) != cluster && trim(cluster) != "" {
      var states, events := UntrimmedSurvives(cluster, trim);
      assert StaleRegistered(states, events, 3, 4, "op", cluster, trim);
    }
  }

  /** What the results about `trim` ask of it and speak of, for the trimming of the code. */
  lemma {:induction false} TrimSpaceFacts(s: string)
    ensures TrimSpace("") == "" && TrimSpace("op") != ""
    ensures TrimSpace(s) != s && TrimSpace(s) != "" <==> !IsTrimmed(s) && !IsBlank(s)
  {
  }

  /** Registered at step m although shutdown had stopped every cluster that it found by then. */
  ghost predicate OutlivesShutdown(states: seq<State>, events: seq<Event>, n: nat, m: nat, id: string, cluster: string, trim: Trimming) {
    && Behaviour(states, events, trim) && n <= m < |states|
    && states[n].records.shuttingDown && AllStopped(states, events, n, m)
    && id in states[m].records.registry && states[m].records.registry[id].cluster == cluster
  }

  ghost predicate Outlives(cluster: string, trim: Trimming) {
    exists states, events, n: nat, m: nat, id :: OutlivesShutdown(states, events, n, m, id, cluster, trim)
  }

  lemma OutliverIsUntrimmed(states: seq<State>, events: seq<Event>, n: nat, m: nat, id: string, cluster: string, trim: Trimming)
    requires trim("") == "" && OutlivesShutdown(states, events, n, m, id, cluster, trim)
    ensures trim(cluster) != cluster && trim(cluster) != ""
  {
    ShutdownLeavesOnlyUntrimmed(states, events, n, m, trim);
    RegisteredAreCurrent(states, events, m, trim);
  }

  /** Shutdown leaves something registered under an id, in some run, exactly when trimming changes the id
      and leaves something of it. */
  lemma {:induction false} OutlivesShutdownIffUntrimmed(cluster: string, trim: Trimming)
    requires trim("") == "" && trim("op") != ""
    ensures Outlives(cluster, trim) <==> trim(cluster) != cluster && trim(cluster) != ""
  {
    if states, events, n: nat, m: nat, id :| OutlivesShutdown(states, events, n, m, id, cluster, trim) {
      OutliverIsUntrimmed(states, events, n, m, id, cluster, trim);
    }
    if trim(cluster) != cluster && trim(cluster) != "" {
      var states, events := UntrimmedSurvives(cluster, trim);
      assert OutlivesShutdown(states, events, 5, 6, "op", cluster, trim);
    }
  }

  // ----- Registered port forwards without a session -----

  /** Registered, but its session is gone and nobody is under way to unregister it. */
  predicate Orphan(s: State, id: string) {
    id in s.records.registry && id in s.flows && s.flows[id].forward && id !in s.records.sessions && id !in s.unregistering
  }

  /** An accepted registration of a forward whose session was removed since it was last seen. */
  predicate RegistersRemoved(s: State, e: Event, id: string, trim: Trimming) {
    && (e == Register(id) || e == MarkActive(id)) && Enabled(s, e)
    && Admits(s.records, id, s.flows[id].cluster, s.flows[id].epoch, trim)
    && s.flows[id].forward && id !in s.records.sessions && id !in s.unregistering
  }

  /** Between taking an operation out of the registry and cleaning it up nothing of it comes back. */
  ghost predicate CleaningIsOut(s: State) {
    && (forall id | id in s.cleaning :: id in s.flows && id !in s.records.registry && s.flows[id].epoch < EpochOf(s.records.epochs, s.flows[id].cluster))
    && (forall id | id in s.records.sessions || id in s.unregistering :: id in s.flows)
  }

  lemma StepKeepsCleaning(s: State, e: Event, trim: Trimming)
    requires AllCurrent(s, trim) && CleaningIsOut(s) && Enabled(s, e)
    ensures CleaningIsOut(Next(s, e, trim))
  {
  }

  /** A flow is refused for good, and nothing under a blank id is registered. */
  ghost predicate RefusedAreOut(s: State, trim: Trimming) {
    && (forall id | id in s.records.registry :: trim(id) != "")
    && forall id | id in s.flows && s.flows[id].phase == Refused ::
         || trim(id) == "" || trim(s.flows[id].cluster) == "" || s.records.shuttingDown
         || s.flows[id].epoch < EpochOf(s.records.epochs, s.flows[id].cluster)
  }

  lemma StepKeepsRefused(s: State, e: Event, trim: Trimming)
    requires AllCurrent(s, trim) && RefusedAreOut(s, trim) && Enabled(s, e)
    ensures RefusedAreOut(Next(s, e, trim), trim)
  {
  }

  lemma {:induction false} ReachableCleaning(states: seq<State>, events: seq<Event>, n: nat, trim: Trimming)
    requires trim("") == "" && Behaviour(states, events, trim) && n < |states|
    ensures CleaningIsOut(states[n]) && RefusedAreOut(states[n], trim)
  {
    if n > 0 {
      ReachableCleaning(states, events, n - 1, trim);
      RegisteredAreCurrent(states, events, n - 1, trim);
      StepKeepsCleaning(states[n - 1], events[n - 1], trim);
      StepKeepsRefused(states[n - 1], events[n - 1], trim);
    }
  }

  /** While the application is running, a step leaves a registered forward without a session and without
      anyone to unregister it exactly when it is an accepted registration that comes after the session's
      removal. */
  lemma OrphanedExactlyByLateRegistration(states: seq<State>, events: seq<Event>, n: nat, id: string, trim: Trimming)
    requires trim("") == "" && Behaviour(states, events, trim) && n < |events|
    requires !states[n].records.shuttingDown && !Orphan(states[n], id)
    ensures Orphan(states[n + 1], id) <==> RegistersRemoved(states[n], events[n], id, trim)
  {
    ReachableCleaning(states, events, n, trim);
    RegisteredAreCurrent(states, events, n, trim);
    assert Enabled(states[n], events[n]) && states[n + 1] == Next(states[n], events[n], trim);
  }

  /** A disconnect between the two steps reaches the cluster. */
  ghost predicate Reached(events: seq<Event>, m: nat, n: nat, cluster: string, trim: Trimming)
    requires n <= |events|
  {
    exists j | m <= j < n :: events[j].Disconnect? && Stops(events[j].cluster, cluster, trim)
  }

  lemma ReachedAreOut(states: seq<State>, events: seq<Event>, m: nat, n: nat, id: string, trim: Trimming)
    requires trim("") == "" && Behaviour(states, events, trim) && m <= n < |states| && id in states[m].flows
    requires Reached(events, m, n, states[m].flows[id].cluster, trim)
    ensures id !in states[n].records.registry
  {
    var j :| m <= j < n && events[j].Disconnect? && Stops(events[j].cluster, states[m].flows[id].cluster, trim);
    EpochsGrow(states, events, m, j, id, trim);
    NothingStaleIsRegistered(states, events, j, n, id, trim);
  }

  /** Nobody's own step ends it: it stays so until its cluster is disconnected, shutdown or not, and
      then it is gone for good. */
  lemma {:induction false} OrphanUntilDisconnect(states: seq<State>, events: seq<Event>, m: nat, n: nat, id: string, trim: Trimming)
    requires trim("") == "" && Behaviour(states, events, trim) && m <= n < |states| && Orphan(states[m], id)
    ensures Orphan(states[n], id) <==> !Reached(events, m, n, states[m].flows[id].cluster, trim)
  {
    if Reached(events, m, n, states[m].flows[id].cluster, trim) {
      ReachedAreOut(states, events, m, n, id, trim);
    } else if m < n {
      assert !Reached(events, m, n - 1, states[m].flows[id].cluster, trim);
      OrphanUntilDisconnect(states, events, m, n - 1, id, trim);
      OrphanStep(states, events, m, n - 1, id, trim);
    }
  }

  lemma OrphanStep(states: seq<State>, events: seq<Event>, m: nat, n: nat, id: string, trim: Trimming)
    requires trim("") == "" && Behaviour(states, events, trim) && m <= n < |events| && Orphan(states[m], id) && Orphan(states[n], id)
    ensures Orphan(states[n + 1], id) <==> !(events[n].Disconnect? && Stops(events[n].cluster, states[m].flows[id].cluster, trim))
  {
    EpochsGrow(states, events, m, n, id, trim);
    RegisteredAreCurrent(states, events, n, trim);
    assert states[n + 1] == Next(states[n], events[n], trim);
  }

  /** From every state with a running forward: it sees its session, a user stops it, and it is marked
      active all the same. It stays registered, without a session. */
  lemma LateActivationOrphans(s: State, id: string, trim: Trimming)
    requires InPhase(s, id, Started) && s.flows[id].forward && id in s.records.sessions
    requires Admits(s.records, id, s.flows[id].cluster, s.flows[id].epoch, trim)
    ensures var seen := Next(s, SeeActive(id), trim);
            && Enabled(seen, RemoveSession(id))
            && var removed := Next(seen, RemoveSession(id), trim);
            && Enabled(removed, Unregister(id))
            && var stopped := Next(removed, Unregister(id), trim);
            && id !in stopped.records.registry && id !in stopped.records.sessions && Enabled(stopped, MarkActive(id))
            && Orphan(Next(stopped, MarkActive(id), trim), id)
  {
  }

  // ----- Sessions that are gone -----

  /** Listed once, before its registration is attempted. */
  ghost predicate ListedOnce(s: State) {
    forall id | id in s.records.sessions || id in s.records.registry || id in s.cleaning :: id in s.flows && s.flows[id].phase != Resolving
  }

  lemma {:induction false} ReachableListed(states: seq<State>, events: seq<Event>, n: nat, trim: Trimming)
    requires Behaviour(states, events, trim) && n < |states|
    ensures ListedOnce(states[n])
  {
    if n > 0 {
      ReachableListed(states, events, n - 1, trim);
      ListedStep(states[n - 1], events[n - 1], trim);
    }
  }

  lemma ListedStep(s: State, e: Event, trim: Trimming)
    requires ListedOnce(s) && Enabled(s, e)
    ensures ListedOnce(Next(s, e, trim))
  {
  }

  predicate PastListing(s: State, id: string) {
    id in s.flows && s.flows[id].phase != Resolving
  }

  lemma GoneStep(s: State, e: Event, id: string, trim: Trimming)
    requires Enabled(s, e) && PastListing(s, id) && id !in s.records.sessions
    ensures PastListing(Next(s, e, trim), id) && id !in Next(s, e, trim).records.sessions
  {
  }

  /** The step that ends a session: the drop after a refusal, the cleanup after a disconnect, or a stop. */
  predicate EndsSession(e: Event, id: string) {
    e == DropRefused(id) || e == CleanUp(id) || e == RemoveSession(id)
  }

  lemma EndStep(s: State, e: Event, id: string, trim: Trimming)
    requires ListedOnce(s) && Enabled(s, e) && EndsSession(e, id)
    ensures PastListing(Next(s, e, trim), id) && id !in Next(s, e, trim).records.sessions
  {
  }

  /** A session that has been ended is never listed again. */
  lemma {:induction false} SessionsStayGone(states: seq<State>, events: seq<Event>, j: nat, n: nat, id: string, trim: Trimming)
    requires Behaviour(states, events, trim) && j < n < |states| && EndsSession(events[j], id)
    ensures PastListing(states[n], id) && id !in states[n].records.sessions
    decreases n
  {
    if j < n - 1 {
      SessionsStayGone(states, events, j, n - 1, id, trim);
      GoneStep(states[n - 1], events[n - 1], id, trim);
    } else {
      ReachableListed(states, events, j, trim);
      EndStep(states[j], events[j], id, trim);
    }
  }

  /** Whatever is refused can be dropped, whatever was taken out can be cleaned up, and either is over
      then; anyone may begin under a new id, disconnect a cluster or begin the shutdown. */
  lemma EndsAreReached(states: seq<State>, events: seq<Event>, n: nat, id: string, cluster: string, forward: bool, trim: Trimming)
    requires Behaviour(states, events, trim) && n < |states|
    ensures var s := states[n];
            && (InPhase(s, id, Refused) ==> Enabled(s, DropRefused(id)) && InPhase(Next(s, DropRefused(id), trim), id, Ended))
            && (id in s.cleaning ==> Enabled(s, CleanUp(id)) && id !in Next(s, CleanUp(id), trim).cleaning)
            && (id !in s.flows ==> Enabled(s, Capture(id, cluster, forward)))
            && Enabled(s, Disconnect(cluster)) && Enabled(s, Refuse)
  {
  }
}
