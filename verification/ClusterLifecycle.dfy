/**
 The lifecycle state machine of clusters and its slow-loading timers (backend/cluster_lifecycle.go).

 A stopped timer whose callback is already waiting for the mutex still runs it, possibly after the
 cluster was removed, created again and set to Loading again. The state machine lets every timer
 expire, and every waiting callback run, at any moment.
 */
module ClusterLifecycle {
  import opened Wrappers

  /** `Unset` is the empty state of an entry that was just created. */
  datatype Phase = Unset | Connecting | AuthFailed | Connected | Loading | LoadingSlow | Degraded | Ready | Disconnected | Reconnecting

  predicate IsClientInitializationState(p: Phase) {
    p == Connecting || p == Connected
  }

  predicate IsRefreshServingState(p: Phase) {
    p == Loading || p == LoadingSlow || p == Degraded || p == Ready
  }

  datatype Entry = Entry(phase: Phase, slowTimer: Option<nat>)

  /** A timer is armed until it expires or is stopped; an expired one has a callback waiting to run. */
  datatype Timer = Armed(cluster: string) | Waiting(cluster: string)

  datatype Lifecycle = Lifecycle(entries: map<string, Entry>, timers: map<nat, Timer>, created: nat, revision: nat)

  const EMPTY := Lifecycle(map[], map[], 0, 0)

  function PhaseOf(s: Lifecycle, cluster: string): Phase {
    if cluster in s.entries then s.entries[cluster].phase else Unset
  }

  /** The guard of `SetState` against stale completions. */
  predicate Ignored(from: Phase, to: Phase) {
    (IsRefreshServingState(from) && IsClientInitializationState(to)) || (from == Ready && to == Degraded)
  }

  /** `time.Timer.Stop`: too late for a timer that has expired. */
  function StopTimer(timers: map<nat, Timer>, timer: Option<nat>): map<nat, Timer> {
    if timer.Some? && timer.value in timers && timers[timer.value].Armed? then timers - {timer.value} else timers
  }

  function SlowTimerOf(s: Lifecycle, cluster: string): Option<nat> {
    if cluster in s.entries then s.entries[cluster].slowTimer else None
  }

  function AfterSetState(s: Lifecycle, cluster: string, to: Phase): Lifecycle {
    if Ignored(PhaseOf(s, cluster), to) then s
    else
      var timers := StopTimer(s.timers, SlowTimerOf(s, cluster));
      if to == Loading then
        Lifecycle(s.entries[cluster := Entry(Loading, Some(s.created))], timers[s.created := Armed(cluster)], s.created + 1, s.revision + 1)
      else
        Lifecycle(s.entries[cluster := Entry(to, None)], timers, s.created, s.revision + 1)
  }

  /** The callback of an expired timer looks the cluster up again and checks only that it is Loading. */
  function AfterFire(s: Lifecycle, timer: nat): Lifecycle
    requires timer in s.timers
  {
    var cluster, rest := s.timers[timer].cluster, s.(timers := s.timers - {timer});
    if PhaseOf(s, cluster) != Loading then rest
    else rest.(entries := s.entries[cluster := Entry(LoadingSlow, None)], revision := s.revision + 1)
  }

  function AfterRemove(s: Lifecycle, cluster: string): Lifecycle {
    if cluster !in s.entries then s
    else Lifecycle(s.entries - {cluster}, StopTimer(s.timers, s.entries[cluster].slowTimer), s.created, s.revision + 1)
  }

  // ----- Workload readiness -----

  datatype Readiness = NotSettled | WorkloadDegraded | WorkloadReady

  /** `namespaceLifecycleStateForWorkloadReadiness`. */
  function ForReadiness(current: Phase, readiness: Readiness): Phase {
    match readiness
    case WorkloadReady => if current == Loading || current == LoadingSlow || current == Degraded then Ready else current
    case WorkloadDegraded => if current == Loading || current == LoadingSlow then Degraded else current
    case NotSettled => current
  }

  /** The readiness callback sets the state it derived from the one it had seen, if that differs. */
  function AfterReadiness(s: Lifecycle, cluster: string, seen: Phase, readiness: Readiness): Lifecycle {
    var next := ForReadiness(seen, readiness);
    if next != seen then AfterSetState(s, cluster, next) else s
  }

  datatype Emission = Emission(cluster: string, state: Phase, previous: Phase)

  class ClusterLifecycle {
    var entries: map<string, Entry>
    var timers: map<nat, Timer>
    var created: nat
    var revision: nat

    function State(): Lifecycle
      reads this
    {
      Lifecycle(entries, timers, created, revision)
    }

    constructor ()
      ensures State() == EMPTY
    {
      entries, timers, created, revision := map[], map[], 0, 0;
    }

    method StopSlowTimer(timer: Option<nat>)
      modifies `timers
      ensures timers == StopTimer(old(timers), timer)
    {
      if timer.Some? && timer.value in timers && timers[timer.value].Armed? {
        timers := timers - {timer.value};
      }
    }

    /** The emitter runs after the mutex was released, so what to emit is returned. */
    method SetState(cluster: string, to: Phase) returns (emit: Option<Emission>)
      modifies this
      ensures State() == AfterSetState(old(State()), cluster, to)
      ensures emit == var from := PhaseOf(old(State()), cluster); if Ignored(from, to) then None else Some(Emission(cluster, to, from))
    {
      var entry := if cluster in entries then entries[cluster] else Entry(Unset, None);
      var previous := entry.phase;
      if (IsRefreshServingState(previous) && IsClientInitializationState(to)) || (previous == Ready && to == Degraded) {
        return None;
      }
      StopSlowTimer(entry.slowTimer);
      entry := Entry(to, None);
      revision := revision + 1;
      if to == Loading {
        timers := timers[created := Armed(cluster)];
        entry := entry.(slowTimer := Some(created));
        created := created + 1;
      }
      entries := entries[cluster := entry];
      emit := Some(Emission(cluster, to, previous));
    }

    /** The callback of an expired timer. */
    method RunSlowTimer(timer: nat) returns (emit: Option<Emission>)
      requires timer in timers && timers[timer].Waiting?
      modifies this
      ensures State() == AfterFire(old(State()), timer)
      ensures emit == var c := old(timers)[timer].cluster; if PhaseOf(old(State()), c) == Loading then Some(Emission(c, LoadingSlow, Loading)) else None
    {
      var cluster := timers[timer].cluster;
      timers := timers - {timer};
      if cluster !in entries || entries[cluster].phase != Loading {
        return None;
      }
      entries := entries[cluster := Entry(LoadingSlow, None)];
      revision := revision + 1;
      emit := Some(Emission(cluster, LoadingSlow, Loading));
    }

    method Remove(cluster: string)
      modifies this
      ensures State() == AfterRemove(old(State()), cluster)
    {
      if cluster !in entries {
        return;
      }
      StopSlowTimer(entries[cluster].slowTimer);
      entries := entries - {cluster};
      revision := revision + 1;
    }

    method GetState(cluster: string) returns (state: Phase)
      ensures state == PhaseOf(State(), cluster)
    {
      state := if cluster in entries then entries[cluster].phase else Unset;
    }

    /** A copy of the tracked phases; a loop over the entries. */
    method GetAllStates() returns (result: map<string, Phase>)
      ensures result.Keys == entries.Keys
      ensures forall c | c in result :: result[c] == PhaseOf(State(), c)
    {
      result := map[];
      var rest := entries.Keys;
      while rest != {}
        invariant rest <= entries.Keys && result.Keys == entries.Keys - rest
        invariant forall c | c in result :: result[c] == entries[c].phase
      {
        var c :| c in rest;
        result := result[c := entries[c].phase];
        rest := rest - {c};
      }
    }

    /** `Replay` emits the current state of a tracked cluster again, changing nothing. */
    method Replay(cluster: string) returns (emit: Option<Emission>)
      ensures emit == if cluster in entries then Some(Emission(cluster, PhaseOf(State(), cluster), PhaseOf(State(), cluster))) else None
    {
      emit := if cluster in entries then Some(Emission(cluster, entries[cluster].phase, entries[cluster].phase)) else None;
    }
  }

  // ----- Interleavings -----

  /** A readiness callback that has read the state of its cluster and has not acted on it yet. */
  datatype Observation = Observation(cluster: string, seen: Phase, readiness: Readiness)

  datatype System = System(core: Lifecycle, observed: map<nat, Observation>)

  datatype Event =
    | Set(cluster: string, to: Phase)
    | Expire(timer: nat)
    | Fire(timer: nat)
    | Drop(cluster: string)
    | Observe(id: nat, cluster: string, readiness: Readiness)
    | Apply(id: nat)

  const START := System(EMPTY, map[])

  predicate Enabled(s: System, e: Event) {
    match e
    case Set(_, _) => true
    case Expire(t) => t in s.core.timers && s.core.timers[t].Armed?
    case Fire(t) => t in s.core.timers && s.core.timers[t].Waiting?
    case Drop(_) => true
    case Observe(id, _, _) => id !in s.observed
    case Apply(id) => id in s.observed
  }

  function NextCore(s: System, e: Event): Lifecycle
    requires Enabled(s, e)
  {
    match e
    case Set(c, to) => AfterSetState(s.core, c, to)
    case Expire(t) => s.core.(timers := s.core.timers[t := Waiting(s.core.timers[t].cluster)])
    case Fire(t) => AfterFire(s.core, t)
    case Drop(c) => AfterRemove(s.core, c)
    case Observe(_, _, _) => s.core
    case Apply(id) => AfterReadiness(s.core, s.observed[id].cluster, s.observed[id].seen, s.observed[id].readiness)
  }

  function Next(s: System, e: Event): System
    requires Enabled(s, e)
  {
    System(NextCore(s, e),
           match e
           case Observe(id, c, readiness) => s.observed[id := Observation(c, PhaseOf(s.core, c), readiness)]
           case Apply(id) => s.observed - {id}
           case _ => s.observed)
  }

  ghost predicate Behaviour(states: seq<System>, events: seq<Event>) {
    && |states| == |events| + 1
    && states[0] == START
    && forall i | 0 <= i < |events| :: Enabled(states[i], events[i]) && states[i + 1] == Next(states[i], events[i])
  }

  /** A cluster is Loading exactly when its timer field is set, and that timer is its own and still to
      fire. */
  ghost predicate Inv(s: Lifecycle) {
    && (forall c | c in s.entries :: s.entries[c].phase == Loading <==> s.entries[c].slowTimer.Some?)
    && (forall c | c in s.entries && s.entries[c].slowTimer.Some? ::
          s.entries[c].slowTimer.value in s.timers && s.timers[s.entries[c].slowTimer.value].cluster == c)
    && (forall t | t in s.timers :: t < s.created)
  }

  lemma StepKeepsInv(s: System, e: Event)
    requires Inv(s.core) && Enabled(s, e)
    ensures Inv(NextCore(s, e))
  {
  }

  lemma {:induction false} LoadingIffTimerSet(states: seq<System>, events: seq<Event>, n: nat)
    requires Behaviour(states, events) && n < |states|
    ensures Inv(states[n].core)
  {
    if n > 0 {
      LoadingIffTimerSet(states, events, n - 1);
      StepKeepsInv(states[n - 1], events[n - 1]);
    }
  }

  /** Where a cluster has to pass on the way from serving back to client setup. */
  predicate Interrupted(s: Lifecycle, cluster: string) {
    !IsRefreshServingState(PhaseOf(s, cluster)) && !IsClientInitializationState(PhaseOf(s, cluster))
  }

  /** A serving cluster is only set up again after it was removed or left both kinds of states. */
  lemma {:induction false} ServingNeverRegresses(states: seq<System>, events: seq<Event>, n: nat, m: nat, c: string)
    requires Behaviour(states, events) && n <= m < |states|
    requires IsRefreshServingState(PhaseOf(states[n].core, c)) && IsClientInitializationState(PhaseOf(states[m].core, c))
    ensures exists k :: n < k < m && Interrupted(states[k].core, c) && PhaseOf(states[k].core, c) in {Unset, AuthFailed, Disconnected, Reconnecting}
    decreases m
  {
    assert n < m;
    assert states[m] == Next(states[m - 1], events[m - 1]);
    if IsClientInitializationState(PhaseOf(states[m - 1].core, c)) {
      ServingNeverRegresses(states, events, n, m - 1, c);
    } else {
      assert !IsRefreshServingState(PhaseOf(states[m - 1].core, c));
      assert Interrupted(states[m - 1].core, c);
    }
  }

  /** No step takes a cluster from Ready to Degraded, and only a Loading cluster becomes LoadingSlow by
      a timer. */
  lemma ReadyNeverDegrades(states: seq<System>, events: seq<Event>, n: nat, c: string)
    requires Behaviour(states, events) && n < |events|
    ensures !(PhaseOf(states[n].core, c) == Ready && PhaseOf(states[n + 1].core, c) == Degraded)
    ensures events[n].Fire? && PhaseOf(states[n + 1].core, c) != PhaseOf(states[n].core, c) ==>
              PhaseOf(states[n].core, c) == Loading && PhaseOf(states[n + 1].core, c) == LoadingSlow
  {
    assert states[n + 1] == Next(states[n], events[n]);
  }

  /** A cluster's own timer, still to expire. */
  predicate OwnArmed(s: Lifecycle, cluster: string, timer: nat) {
    timer in s.timers && s.timers[timer] == Armed(cluster) && SlowTimerOf(s, cluster) == Some(timer)
  }

  /** A state that is set is the state afterwards, unless it is client setup reported for a serving cluster
      or Degraded reported for a Ready one; then nothing changes at all. Either way no other cluster does,
      the timer of the state that is left can no longer expire, and Loading starts a new one. */
  lemma SetTakesEffect(states: seq<System>, events: seq<Event>, n: nat, c: string, to: Phase, other: string, t: nat)
    requires Behaviour(states, events) && n < |events| && events[n] == Set(c, to) && other != c
    ensures var s, s' := states[n].core, states[n + 1].core;
            var from := PhaseOf(s, c);
            var ignored := (from in {Loading, LoadingSlow, Degraded, Ready} && to in {Connecting, Connected}) || (from == Ready && to == Degraded);
            && (ignored ==> s' == s)
            && (!ignored ==>
                  && c in s'.entries && PhaseOf(s', c) == to
                  && (to == Loading <==> OwnArmed(s', c, s.created))
                  && (OwnArmed(s, c, t) ==> t !in s'.timers))
            && PhaseOf(s', other) == PhaseOf(s, other) && (OwnArmed(s, other, t) ==> OwnArmed(s', other, t))
  {
    LoadingIffTimerSet(states, events, n);
    assert states[n + 1] == Next(states[n], events[n]);
  }

  /** A removed cluster is forgotten, its timer can no longer expire, and no other cluster is touched. */
  lemma RemovalForgets(states: seq<System>, events: seq<Event>, n: nat, c: string, other: string, t: nat)
    requires Behaviour(states, events) && n < |events| && events[n] == Drop(c) && other != c
    ensures var s, s' := states[n].core, states[n + 1].core;
            && c !in s'.entries && (OwnArmed(s, c, t) ==> t !in s'.timers)
            && PhaseOf(s', other) == PhaseOf(s, other) && (OwnArmed(s, other, t) ==> OwnArmed(s', other, t))
  {
    LoadingIffTimerSet(states, events, n);
    assert states[n + 1] == Next(states[n], events[n]);
  }

  /** A stale callback of the cluster ended the Loading period of timer t in this step. */
  predicate EndsPeriodOf(s: Lifecycle, e: Event, cluster: string, t: nat) {
    && e.Fire? && e.timer != t && e.timer in s.timers && s.timers[e.timer] == Waiting(cluster)
    && SlowTimerOf(s, cluster) == Some(t)
  }

  predicate LeftArmed(s: Lifecycle, cluster: string, t: nat) {
    t in s.timers && s.timers[t] == Armed(cluster) && SlowTimerOf(s, cluster) != Some(t)
  }

  lemma LeftArmedStep(s: System, e: Event, c: string, t: nat)
    requires Inv(s.core) && Enabled(s, e) && LeftArmed(NextCore(s, e), c, t)
    ensures LeftArmed(s.core, c, t) || EndsPeriodOf(s.core, e, c, t)
  {
  }

  /** The only armed timer of a cluster is that of its current Loading period, except for one whose period
      a stale callback ended. */
  lemma {:induction false} LeftArmedByStaleCallback(states: seq<System>, events: seq<Event>, n: nat, c: string, t: nat)
    requires Behaviour(states, events) && n < |states|
    requires Lookup(states[n].core.timers, t) == Some(Armed(c)) && SlowTimerOf(states[n].core, c) != Some(t)
    ensures exists k ::
              && 0 <= k < n && EndsPeriodOf(states[k].core, events[k], c, t)
              && events[k].Fire? && events[k].timer != t && Lookup(states[k].core.timers, events[k].timer) == Some(Waiting(c))
              && SlowTimerOf(states[k].core, c) == Some(t)
  {
    LoadingIffTimerSet(states, events, n - 1);
    LeftArmedStep(states[n - 1], events[n - 1], c, t);
    if LeftArmed(states[n - 1].core, c, t) {
      LeftArmedByStaleCallback(states, events, n - 1, c, t);
    }
  }

  // ----- The revision -----

  /** What the callback derived from the state it saw is set, unless it saw no change or the lifecycle
      ignores it now. */
  predicate Lands(current: Phase, seen: Phase, readiness: Readiness) {
    ForReadiness(seen, readiness) != seen && !Ignored(current, ForReadiness(seen, readiness))
  }

  /** A step the lifecycle accepts as a change. */
  predicate Accepted(s: System, e: Event) {
    match e
    case Set(c, to) => !Ignored(PhaseOf(s.core, c), to)
    case Expire(_) => false
    case Fire(t) => t in s.core.timers && PhaseOf(s.core, s.core.timers[t].cluster) == Loading
    case Drop(c) => c in s.core.entries
    case Observe(_, _, _) => false
    case Apply(id) => id in s.observed && Lands(PhaseOf(s.core, s.observed[id].cluster), s.observed[id].seen, s.observed[id].readiness)
  }

  function Changes(states: seq<System>, events: seq<Event>, n: nat): nat
    requires n <= |events| <= |states|
  {
    if n == 0 then 0 else Changes(states, events, n - 1) + if Accepted(states[n - 1], events[n - 1]) then 1 else 0
  }

  /** Each accepted change moves the revision by one, everything else leaves it, and whatever a snapshot
      reader can see moves only together with it. */
  lemma {:induction false} RevisionCountsChanges(states: seq<System>, events: seq<Event>, n: nat)
    requires Behaviour(states, events) && n < |states|
    ensures states[n].core.revision == Changes(states, events, n)
    ensures n > 0 && states[n].core.revision == states[n - 1].core.revision ==>
              states[n].core.entries.Keys == states[n - 1].core.entries.Keys && forall c :: PhaseOf(states[n].core, c) == PhaseOf(states[n - 1].core, c)
  {
    if n > 0 {
      RevisionCountsChanges(states, events, n - 1);
      assert Enabled(states[n - 1], events[n - 1]) && states[n] == Next(states[n - 1], events[n - 1]);
    }
  }

  // ----- A stale callback -----

  /** A callback ends the Loading period it meets, and does so early exactly when it is not the callback
      of the timer in the entry: that timer is then still to fire. */
  lemma FireIsEarlyIffStale(states: seq<System>, events: seq<Event>, n: nat)
    requires Behaviour(states, events) && n < |events| && events[n].Fire? && Enabled(states[n], events[n])
    requires PhaseOf(states[n].core, states[n].core.timers[events[n].timer].cluster) == Loading
    ensures var s, t := states[n].core, events[n].timer;
            var own := SlowTimerOf(s, s.timers[t].cluster);
            && PhaseOf(states[n + 1].core, s.timers[t].cluster) == LoadingSlow
            && own.Some? && (own.value in states[n + 1].core.timers <==> own.value != t)
  {
    LoadingIffTimerSet(states, events, n);
    assert states[n + 1] == Next(states[n], events[n]);
  }

  /** A run in which a callback left over from an earlier Loading period ends a later one while the
      timer of that later period has not even expired. */
  lemma StaleCallbackFiresEarly(c: string) returns (states: seq<System>, events: seq<Event>)
    ensures Behaviour(states, events) && events == [Set(c, Loading), Expire(0), Set(c, Ready), Set(c, Loading), Fire(0)]
    ensures PhaseOf(states[4].core, c) == Loading && SlowTimerOf(states[4].core, c) == Some(1)
    ensures PhaseOf(states[5].core, c) == LoadingSlow && Lookup(states[5].core.timers, 1) == Some(Armed(c))
  {
    events := [Set(c, Loading), Expire(0), Set(c, Ready), Set(c, Loading), Fire(0)];
    var s1 := Next(START, events[0]);
    var s2 := Next(s1, events[1]);
    var s3 := Next(s2, events[2]);
    var s4 := Next(s3, events[3]);
    var s5 := Next(s4, events[4]);
    states := [START, s1, s2, s3, s4, s5];
  }

  // ----- A late readiness result -----

  lemma {:induction false} ObservationKept(states: seq<System>, events: seq<Event>, k: nat, n: nat, id: nat)
    requires Behaviour(states, events) && k < n < |states| && events[k].Observe? && events[k].id == id
    requires forall i | k < i < n :: events[i] != Apply(id)
    ensures var c := events[k].cluster;
            Lookup(states[n].observed, id) == Some(Observation(c, PhaseOf(states[k].core, c), events[k].readiness))
  {
    assert states[n] == Next(states[n - 1], events[n - 1]);
    if k < n - 1 {
      ObservationKept(states, events, k, n - 1, id);
    }
  }

  /** A readiness callback that looked at its cluster at step k and acts at step n changes the state it
      meets exactly when it saw one that its result changes, meets another one than that result, and does
      not meet Ready with a result of Degraded. It never takes a cluster out of Ready. */
  lemma ReadinessLandsIff(states: seq<System>, events: seq<Event>, k: nat, n: nat, id: nat)
    requires Behaviour(states, events) && k < n < |events| && events[k].Observe? && events[k].id == id && events[n] == Apply(id)
    requires forall i | k < i < n :: events[i] != Apply(id)
    ensures var c := events[k].cluster;
            var seen, before, after := PhaseOf(states[k].core, c), PhaseOf(states[n].core, c), PhaseOf(states[n + 1].core, c);
            var result := ForReadiness(seen, events[k].readiness);
            && (after != before <==> result != seen && result != before && !(before == Ready && result == Degraded))
            && (after != before ==> after == result && before != Ready)
  {
    ObservationKept(states, events, k, n, id);
    assert states[n + 1] == Next(states[n], events[n]);
  }

  /** Acting at once, a Ready result takes Loading, LoadingSlow and Degraded to Ready, a Degraded result takes
      Loading and LoadingSlow to Degraded, and nothing else changes. */
  lemma PromptReadiness(states: seq<System>, events: seq<Event>, k: nat, id: nat)
    requires Behaviour(states, events) && k + 1 < |events| && events[k].Observe? && events[k].id == id && events[k + 1] == Apply(id)
    ensures var c := events[k].cluster;
            var seen, after := PhaseOf(states[k].core, c), PhaseOf(states[k + 2].core, c);
            after == if events[k].readiness == WorkloadReady && seen in {Loading, LoadingSlow, Degraded} then Ready
                     else if events[k].readiness == WorkloadDegraded && seen in {Loading, LoadingSlow} then Degraded
                     else seen
  {
    assert states[k + 1] == Next(states[k], events[k]);
    ReadinessLandsIff(states, events, k, k + 1, id);
  }

  /** It takes a cluster that is not serving to Ready or Degraded exactly when it saw one that its result
      changes and the cluster has stopped serving since. */
  lemma ReadinessRevivesIff(states: seq<System>, events: seq<Event>, k: nat, n: nat, id: nat)
    requires Behaviour(states, events) && k < n < |events| && events[k].Observe? && events[k].id == id && events[n] == Apply(id)
    requires forall i | k < i < n :: events[i] != Apply(id)
    ensures var c := events[k].cluster;
            var seen, before, after := PhaseOf(states[k].core, c), PhaseOf(states[n].core, c), PhaseOf(states[n + 1].core, c);
            && (!IsRefreshServingState(before) && IsRefreshServingState(after)
                <==> ForReadiness(seen, events[k].readiness) != seen && !IsRefreshServingState(before))
            && (!IsRefreshServingState(before) && IsRefreshServingState(after) ==>
                  exists j | k <= j < n :: IsRefreshServingState(PhaseOf(states[j].core, c)) && !IsRefreshServingState(PhaseOf(states[j + 1].core, c)))
  {
    ReadinessLandsIff(states, events, k, n, id);
    var c := events[k].cluster;
    var result := ForReadiness(PhaseOf(states[k].core, c), events[k].readiness);
    if result != PhaseOf(states[k].core, c) && !IsRefreshServingState(PhaseOf(states[n].core, c)) {
      StopsServing(states, k, n, c);
    }
  }

  lemma {:induction false} StopsServing(states: seq<System>, k: nat, n: nat, c: string)
    requires k <= n < |states| && IsRefreshServingState(PhaseOf(states[k].core, c)) && !IsRefreshServingState(PhaseOf(states[n].core, c))
    ensures exists j | k <= j < n :: IsRefreshServingState(PhaseOf(states[j].core, c)) && !IsRefreshServingState(PhaseOf(states[j + 1].core, c))
  {
    if IsRefreshServingState(PhaseOf(states[n - 1].core, c)) {
      assert !IsRefreshServingState(PhaseOf(states[n - 1 + 1].core, c));
    } else {
      StopsServing(states, k, n - 1, c);
    }
  }

  /** A run in which a disconnected cluster becomes Ready that way. */
  lemma LateReadinessRevives(c: string) returns (states: seq<System>, events: seq<Event>)
    ensures Behaviour(states, events)
    ensures events == [Set(c, Loading), Observe(0, c, WorkloadReady), Set(c, Disconnected), Apply(0)]
    ensures PhaseOf(states[3].core, c) == Disconnected && PhaseOf(states[4].core, c) == Ready
  {
    events := [Set(c, Loading), Observe(0, c, WorkloadReady), Set(c, Disconnected), Apply(0)];
    var s1 := Next(START, events[0]);
    var s2 := Next(s1, events[1]);
    var s3 := Next(s2, events[2]);
    states := [START, s1, s2, s3, Next(s3, events[3])];
  }

  /** A readiness result acts once: between two applications of one id there is another observation. */
  lemma {:induction false} ActsOnce(states: seq<System>, events: seq<Event>, i: nat, j: nat, id: nat)
    requires Behaviour(states, events) && i < j < |states| && events[i] == Apply(id) && id in states[j].observed
    ensures exists k :: i < k < j && events[k].Observe? && events[k].id == id
    decreases j
  {
    assert states[j] == Next(states[j - 1], events[j - 1]);
    if !(events[j - 1].Observe? && events[j - 1].id == id) {
      assert i < j - 1;
      ActsOnce(states, events, i, j - 1, id);
    }
  }

  /** Whatever a run has come to, any state may be set, any cluster removed and any readiness observed. */
  lemma CallersAreFree(states: seq<System>, events: seq<Event>, c: string, to: Phase, id: nat, readiness: Readiness)
    requires Behaviour(states, events)
    ensures var s := states[|events|];
            && Behaviour(states + [Next(s, Set(c, to))], events + [Set(c, to)])
            && Behaviour(states + [Next(s, Drop(c))], events + [Drop(c)])
            && (id !in s.observed ==> Behaviour(states + [Next(s, Observe(id, c, readiness))], events + [Observe(id, c, readiness)]))
  {
  }
}
