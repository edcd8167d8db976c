/**
 The revision-checked composite read of the cluster workspace
 (backend/cluster_workspace_contract.go, backend/cluster_workspace_projection_state.go).

 Any number of independently locked sources share one revision counter. Writers change a source
 under its lock and bump the revision before releasing it; readers copy one source after another
 and retry when the revision moved. The revision is a Go uint64, so it wraps.
 */
module WorkspaceSnapshot {
  import opened Strings

  /** Number of distinct revisions: the counter is a uint64. */
  const REVISIONS: nat := 0x1_0000_0000_0000_0000

  type Value = int

  datatype Lock = Free | Held(dirty: bool)

  datatype Source = Source(value: Value, lock: Lock)

  /** `startedAt`, `instant` and the bump counts are history: the step of the attempt's first
      revision read, the source values at that step, and the writers' bumps so far. */
  datatype Reader =
    | Idle
    | Reading(before: nat, got: seq<Value>, startedAt: nat, instant: seq<Value>, startBumps: nat)
    | Returned(state: seq<Value>, startedAt: nat, instant: seq<Value>, startBumps: nat, endBumps: nat)

  datatype System = System(sources: seq<Source>, bumps: nat, readers: map<nat, Reader>, clock: nat)

  datatype Event =
    | Acquire(source: nat)
    | Mutate(source: nat, value: Value)
    | Bump(source: nat)
    | Release(source: nat)
    | FirstRead(reader: nat)
    | Copy(reader: nat)
    | SecondRead(reader: nat)

  function Revision(s: System): nat {
    s.bumps % REVISIONS
  }

  function Values(s: System): seq<Value> {
    seq(|s.sources|, i requires 0 <= i < |s.sources| => s.sources[i].value)
  }

  predicate Enabled(s: System, e: Event) {
    match e
    case Acquire(i) => i < |s.sources| && s.sources[i].lock.Free?
    case Mutate(i, _) => i < |s.sources| && s.sources[i].lock.Held?
    case Bump(i) => i < |s.sources| && s.sources[i].lock.Held?
    case Release(i) => i < |s.sources| && s.sources[i].lock == Held(false)
    case FirstRead(r) => r !in s.readers || !s.readers[r].Reading?
    case Copy(r) =>
      && r in s.readers && s.readers[r].Reading? && |s.readers[r].got| < |s.sources|
      && s.sources[|s.readers[r].got|].lock.Free?
    case SecondRead(r) => r in s.readers && s.readers[r].Reading? && |s.readers[r].got| == |s.sources|
  }

  function Update(s: System, e: Event): System
    requires Enabled(s, e)
  {
    match e
    case Acquire(i) => s.(sources := s.sources[i := s.sources[i].(lock := Held(false))])
    case Mutate(i, v) => s.(sources := s.sources[i := Source(v, Held(true))])
    case Bump(i) => s.(bumps := s.bumps + 1, sources := s.sources[i := s.sources[i].(lock := Held(false))])
    case Release(i) => s.(sources := s.sources[i := s.sources[i].(lock := Free)])
    case FirstRead(r) => s.(readers := s.readers[r := Reading(Revision(s), [], s.clock, Values(s), s.bumps)])
    case Copy(r) =>
      var reader := s.readers[r];
      s.(readers := s.readers[r := reader.(got := reader.got + [s.sources[|reader.got|].value])])
    case SecondRead(r) =>
      var reader := s.readers[r];
      if reader.before == Revision(s) then
        s.(readers := s.readers[r := Returned(reader.got, reader.startedAt, reader.instant, reader.startBumps, s.bumps)])
      else s.(readers := s.readers[r := Idle])
  }

  function Next(s: System, e: Event): System
    requires Enabled(s, e)
  {
    Update(s, e).(clock := s.clock + 1)
  }

  predicate Init(s: System) {
    s.bumps == 0 && s.readers == map[] && s.clock == 0 && forall i | 0 <= i < |s.sources| :: s.sources[i].lock.Free?
  }

  ghost predicate Behaviour(states: seq<System>, events: seq<Event>) {
    && |states| == |events| + 1
    && Init(states[0])
    && forall i | 0 <= i < |events| :: Enabled(states[i], events[i]) && states[i + 1] == Next(states[i], events[i])
  }

  // ----- The invariant -----

  predicate Clean(source: Source) {
    source.lock != Held(true)
  }

  /** As long as nothing was bumped since the attempt began, every source that is not mid-mutation
      still has the value it had then, and so has everything copied. */
  ghost predicate ReaderInv(s: System, r: Reader) {
    match r
    case Idle => true
    case Reading(before, got, startedAt, instant, startBumps) =>
      && before == startBumps % REVISIONS && startBumps <= s.bumps && startedAt < s.clock
      && |instant| == |s.sources| && |got| <= |s.sources|
      && (s.bumps == startBumps ==>
            && (forall i | 0 <= i < |s.sources| && Clean(s.sources[i]) :: s.sources[i].value == instant[i])
            && (forall i | 0 <= i < |got| :: got[i] == instant[i]))
    case Returned(state, startedAt, instant, startBumps, endBumps) =>
      && startBumps <= endBumps && startedAt < s.clock
      && startBumps % REVISIONS == endBumps % REVISIONS
      && (startBumps == endBumps ==> state == instant)
  }

  ghost predicate Inv(s: System) {
    forall r | r in s.readers :: ReaderInv(s, s.readers[r])
  }

  lemma WriterKeepsReader(s: System, e: Event, r: Reader)
    requires Enabled(s, e) && ReaderInv(s, r) && (e.Acquire? || e.Mutate? || e.Bump? || e.Release?)
    ensures ReaderInv(Next(s, e), r)
  {
  }

  lemma StepKeepsInv(s: System, e: Event)
    requires Inv(s) && Enabled(s, e)
    ensures Inv(Next(s, e))
  {
    var s' := Next(s, e);
    if e.Acquire? || e.Mutate? || e.Bump? || e.Release? {
      forall r | r in s'.readers ensures ReaderInv(s', s'.readers[r]) {
        WriterKeepsReader(s, e, s.readers[r]);
      }
    }
  }

  lemma {:induction false} ReachableInv(states: seq<System>, events: seq<Event>, n: nat)
    requires Behaviour(states, events) && n < |states|
    ensures Inv(states[n]) && states[n].clock == n
  {
    if n > 0 {
      ReachableInv(states, events, n - 1);
      StepKeepsInv(states[n - 1], events[n - 1]);
    }
  }

  /** The history fields of an attempt tell the truth: its first revision read was its reader's
      last one, and `instant` are the values all sources had at that step. */
  lemma {:induction false} AttemptBeganAt(states: seq<System>, events: seq<Event>, n: nat, r: nat)
    requires Behaviour(states, events) && n < |states|
    requires r in states[n].readers && !states[n].readers[r].Idle?
    ensures var at := states[n].readers[r].startedAt;
            && at < n && events[at] == FirstRead(r)
            && (forall j | at < j < n :: events[j] != FirstRead(r))
            && states[n].readers[r].instant == Values(states[at]) && states[n].readers[r].startBumps == states[at].bumps
  {
    ReachableInv(states, events, n - 1);
    if events[n - 1] != FirstRead(r) {
      AttemptBeganAt(states, events, n - 1, r);
    }
  }

  // ----- What every run guarantees -----

  /** A returned composite state equals the values of all sources at one instant, the last
      first-revision read of that reader, unless the writers bumped a nonzero multiple of 2^64 in between. */
  lemma SnapshotIsOneInstant(states: seq<System>, events: seq<Event>, n: nat, r: nat)
    requires Behaviour(states, events) && n < |states|
    requires r in states[n].readers && states[n].readers[r].Returned?
    requires states[n].readers[r].endBumps - states[n].readers[r].startBumps < REVISIONS
    ensures var at := states[n].readers[r].startedAt;
            && at < n && events[at] == FirstRead(r) && (forall j | at < j < n :: events[j] != FirstRead(r))
            && states[n].readers[r].state == Values(states[at])
  {
    ReachableInv(states, events, n);
    AttemptBeganAt(states, events, n, r);
    SameRemainder(states[n].readers[r].startBumps, states[n].readers[r].endBumps);
  }

  /** The second revision read returns what was copied exactly when the revision is the one the attempt
      began with; otherwise the reader may begin anew. */
  lemma SecondReadDecides(states: seq<System>, events: seq<Event>, n: nat, r: nat)
    requires Behaviour(states, events) && n < |events| && events[n] == SecondRead(r)
    ensures r in states[n].readers && states[n].readers[r].Reading? && r in states[n + 1].readers
    ensures var before, after := states[n].readers[r], states[n + 1].readers[r];
            && before.startedAt < n && |before.got| == |states[n].sources|
            && (after.Returned? <==> Revision(states[n]) == Revision(states[before.startedAt]))
            && (after.Returned? ==> after.state == before.got)
            && (!after.Returned? ==> Enabled(states[n + 1], FirstRead(r)))
  {
    ReachableInv(states, events, n);
    AttemptBeganAt(states, events, n, r);
  }

  /** Whatever a run has come to, a writer may take a free source and give it back unchanged, and a reader
      that is not reading may begin. */
  lemma AnyoneMayBegin(states: seq<System>, events: seq<Event>, i: nat, r: nat)
    requires Behaviour(states, events)
    ensures var s := states[|events|];
            && (i < |s.sources| && s.sources[i].lock.Free? ==>
                  var taken := Next(s, Acquire(i));
                  Enabled(taken, Release(i)) && Behaviour(states + [taken, Next(taken, Release(i))], events + [Acquire(i), Release(i)]))
            && ((r in s.readers ==> !s.readers[r].Reading?) ==> Behaviour(states + [Next(s, FirstRead(r))], events + [FirstRead(r)]))
  {
  }

  lemma SameRemainder(a: nat, b: nat)
    requires a <= b < a + REVISIONS && a % REVISIONS == b % REVISIONS
    ensures a == b
  {
  }

  ghost predicate AcceptedAcross(states: seq<System>, events: seq<Event>, r: nat, k: nat) {
    && Behaviour(states, events)
    && r in states[|events|].readers && states[|events|].readers[r].Returned?
    && states[|events|].readers[r].endBumps == states[|events|].readers[r].startBumps + k
  }

  /** Every snapshot accepted across exactly k bumps is the one instant its attempt began at. */
  ghost predicate ConsistentAcross(k: nat) {
    forall states: seq<System>, events: seq<Event>, r: nat | AcceptedAcross(states, events, r, k) ::
      states[|events|].readers[r].state == states[|events|].readers[r].instant
  }

  /** The exact limit of the scheme: only k bumps that bring the counter round can fool a reader. */
  lemma ConsistentUnlessCounterWraps(k: nat)
    ensures ConsistentAcross(k) <==> k == 0 || k % REVISIONS != 0
  {
    if k == 0 || k % REVISIONS != 0 {
      forall states: seq<System>, events: seq<Event>, r: nat | AcceptedAcross(states, events, r, k)
        ensures states[|events|].readers[r].state == states[|events|].readers[r].instant
      {
        ReachableInv(states, events, |events|);
        assert ReaderInv(states[|events|], states[|events|].readers[r]);
        RemainderOfSum(states[|events|].readers[r].startBumps, k);
      }
    } else {
      var states, events := FooledReader(k);
      assert AcceptedAcross(states, events, 0, k);
    }
  }

  lemma RemainderOfSum(a: nat, k: nat)
    requires (a + k) % REVISIONS == a % REVISIONS
    ensures k % REVISIONS == 0
  {
  }

  lemma Extend(states: seq<System>, events: seq<Event>, e: Event) returns (states': seq<System>, events': seq<Event>)
    requires Behaviour(states, events) && Enabled(states[|events|], e)
    ensures Behaviour(states', events') && events' == events + [e]
    ensures states'[|events'|] == Next(states[|events|], e)
  {
    states', events' := states + [Next(states[|events|], e)], events + [e];
  }

  /** One reader, one source, one writer that bumps k times inside a single attempt. */
  lemma FooledReader(k: nat) returns (states: seq<System>, events: seq<Event>)
    requires k > 0 && k % REVISIONS == 0
    ensures Behaviour(states, events)
    ensures var s := states[|events|];
            0 in s.readers && s.readers[0] == Returned([1], 0, [0], 0, k)
  {
    states, events := [System([Source(0, Free)], 0, map[], 0)], [];
    assert Values(states[0]) == [0];
    states, events := Extend(states, events, FirstRead(0));
    states, events := Extend(states, events, Acquire(0));
    states, events := Extend(states, events, Mutate(0, 1));
    states, events := BumpTimes(states, events, k);
    states, events := FinishFooledRead(states, events, k);
  }

  lemma FinishFooledRead(states0: seq<System>, events0: seq<Event>, k: nat) returns (states: seq<System>, events: seq<Event>)
    requires k % REVISIONS == 0
    requires Behaviour(states0, events0)
    requires var s := states0[|events0|];
             s.sources == [Source(1, Held(false))] && s.bumps == k && s.readers == map[0 := Reading(0, [], 0, [0], 0)]
    ensures Behaviour(states, events)
    ensures var s := states[|events|];
            0 in s.readers && s.readers[0] == Returned([1], 0, [0], 0, k)
  {
    states, events := Extend(states0, events0, Release(0));
    states, events := Extend(states, events, Copy(0));
    states, events := Extend(states, events, SecondRead(0));
  }

  lemma {:induction false} BumpTimes(states0: seq<System>, events0: seq<Event>, k: nat) returns (states: seq<System>, events: seq<Event>)
    requires k > 0 && Behaviour(states0, events0)
    requires |states0[|events0|].sources| == 1 && states0[|events0|].sources[0].lock.Held?
    ensures Behaviour(states, events)
    ensures var s, s0 := states[|events|], states0[|events0|];
            s.sources == [Source(s0.sources[0].value, Held(false))] && s.bumps == s0.bumps + k && s.readers == s0.readers
    decreases k
  {
    states, events := Extend(states0, events0, Bump(0));
    if k > 1 {
      states, events := BumpTimes(states, events, k - 1);
    }
  }

  // ----- A writer: the projection's own health and scope-revision source -----

  /** Every method runs under `clusterWorkspaceMu`. Each one leaves the revision alone exactly when
      it leaves the source alone, and otherwise bumps it once, which is what `Mutate`, `Bump` and
      `Release` ask of a writer. */
  class ClusterWorkspaceProjection {
    var clusterHealth: map<string, string>
    var clusterScopeRevisions: map<string, nat>
    var revision: nat

    ghost predicate BumpedOnceIffChanged(health: map<string, string>, scopes: map<string, nat>, before: nat)
      reads this
    {
      revision == if clusterHealth == health && clusterScopeRevisions == scopes then before else (before + 1) % REVISIONS
    }

    constructor ()
      ensures clusterHealth == map[] && clusterScopeRevisions == map[] && revision == 0
    {
      clusterHealth, clusterScopeRevisions, revision := map[], map[], 0;
    }

    method MarkClusterWorkspaceChanged()
      modifies `revision
      ensures revision == (old(revision) + 1) % REVISIONS
    {
      revision := (revision + 1) % REVISIONS;
    }

    method SetClusterHealth(clusterID: string, health: string)
      modifies this
      ensures BumpedOnceIffChanged(old(clusterHealth), old(clusterScopeRevisions), old(revision))
      ensures clusterScopeRevisions == old(clusterScopeRevisions)
      ensures forall c :: HealthOf(clusterHealth, c) == if c == clusterID && !IsBlank(c) then health else HealthOf(old(clusterHealth), c)
      ensures !IsBlank(clusterID) && health != "" ==> clusterID in clusterHealth && clusterHealth[clusterID] == health
    {
      if IsBlank(clusterID) {
        return;
      }
      if HealthOf(clusterHealth, clusterID) != health {
        clusterHealth := clusterHealth[clusterID := health];
        MarkClusterWorkspaceChanged();
      }
    }

    method IncrementClusterScopeRevision(clusterID: string)
      modifies this
      ensures BumpedOnceIffChanged(old(clusterHealth), old(clusterScopeRevisions), old(revision))
      ensures clusterHealth == old(clusterHealth)
      ensures clusterScopeRevisions == if IsBlank(clusterID) then old(clusterScopeRevisions)
                                       else old(clusterScopeRevisions)[clusterID := (ScopeOf(old(clusterScopeRevisions), clusterID) + 1) % REVISIONS]
      ensures !IsBlank(clusterID) && clusterID in old(clusterScopeRevisions) && old(clusterScopeRevisions)[clusterID] + 1 < REVISIONS ==>
                clusterID in clusterScopeRevisions && clusterScopeRevisions[clusterID] == old(clusterScopeRevisions)[clusterID] + 1
      ensures !IsBlank(clusterID) && clusterID !in old(clusterScopeRevisions) ==>
                clusterID in clusterScopeRevisions && clusterScopeRevisions[clusterID] == 1
    {
      if IsBlank(clusterID) {
        return;
      }
      clusterScopeRevisions := clusterScopeRevisions[clusterID := (ScopeOf(clusterScopeRevisions, clusterID) + 1) % REVISIONS];
      MarkClusterWorkspaceChanged();
    }

    method RemoveClusterWorkspaceRuntimeState(clusterID: string)
      modifies this
      ensures BumpedOnceIffChanged(old(clusterHealth), old(clusterScopeRevisions), old(revision))
      ensures clusterID != "" ==> clusterHealth == old(clusterHealth) - {clusterID} && clusterScopeRevisions == old(clusterScopeRevisions) - {clusterID}
      ensures clusterID == "" ==> clusterHealth == old(clusterHealth) && clusterScopeRevisions == old(clusterScopeRevisions)
    {
      if clusterID == "" {
        return;
      }
      var had := clusterID in clusterHealth || clusterID in clusterScopeRevisions;
      clusterHealth := clusterHealth - {clusterID};
      clusterScopeRevisions := clusterScopeRevisions - {clusterID};
      if had {
        MarkClusterWorkspaceChanged();
      }
    }
  }

  function HealthOf(health: map<string, string>, cluster: string): string {
    if cluster in health then health[cluster] else ""
  }

  function ScopeOf(scopes: map<string, nat>, cluster: string): nat {
    if cluster in scopes then scopes[cluster] else 0
  }

  // ----- Building the composite from its sources -----

  datatype ClusterState = ClusterState(id: string, name: string, lifecycle: string, auth: string, health: string, scopeRevision: nat)

  const NO_STATE := ClusterState("", "", "", "", "", 0)

  function StateOf(clusters: map<string, ClusterState>, id: string): ClusterState {
    if id in clusters then clusters[id] else NO_STATE
  }

  function WithDefaults(id: string, c: ClusterState): ClusterState {
    c.(id := id, auth := if c.auth == "" then "unknown" else c.auth, health := if c.health == "" then "unknown" else c.health)
  }

  function Merged<T>(clusters: map<string, ClusterState>, states: map<string, T>, put: (ClusterState, T) -> ClusterState): map<string, ClusterState> {
    map id | id in clusters.Keys + states.Keys ::
      if id in states then put(WithDefaults(id, StateOf(clusters, id)), states[id]) else clusters[id]
  }

  /** The loop shared by the three merge functions; the map may yield its entries in any order. */
  method MergeInto<T>(clusters: map<string, ClusterState>, states: map<string, T>, put: (ClusterState, T) -> ClusterState)
    returns (merged: map<string, ClusterState>)
    ensures merged == Merged(clusters, states, put)
  {
    merged := clusters;
    var rest := states.Keys;
    while rest != {}
      invariant rest <= states.Keys
      invariant merged == Merged(clusters, map id | id in states && id !in rest :: states[id], put)
    {
      var id :| id in rest;
      merged := merged[id := put(WithDefaults(id, StateOf(merged, id)), states[id])];
      rest := rest - {id};
    }
    assert (map id | id in states && id !in rest :: states[id]) == states;
  }

  const PUT_LIFECYCLE := (c: ClusterState, v: string) => c.(lifecycle := v)
  const PUT_HEALTH := (c: ClusterState, v: string) => c.(health := v)
  const PUT_SCOPE := (c: ClusterState, v: nat) => c.(scopeRevision := v)

  function Composite(auth: map<string, ClusterState>, lifecycle: map<string, string>, health: map<string, string>, scopes: map<string, nat>): map<string, ClusterState> {
    var c1 := Merged(auth, lifecycle, PUT_LIFECYCLE);
    Merged(Merged(c1, health, PUT_HEALTH), scopes, PUT_SCOPE)
  }

  lemma MergedAt<T>(clusters: map<string, ClusterState>, states: map<string, T>, put: (ClusterState, T) -> ClusterState, id: string)
    ensures Merged(clusters, states, put).Keys == clusters.Keys + states.Keys
    ensures StateOf(Merged(clusters, states, put), id) ==
            if id in states then put(WithDefaults(id, StateOf(clusters, id)), states[id]) else StateOf(clusters, id)
  {
  }

  function OrUnknown(value: string): string {
    if value == "" then "unknown" else value
  }

  /** Every cluster any source mentions appears; each source contributes its own field and no other. An
      unset auth state reads "unknown" as soon as a later source mentions the cluster; so does an unset
      health, unless the health source itself left it unset and no scope is known. */
  lemma CompositeCarriesEverySource(auth: map<string, ClusterState>, lifecycle: map<string, string>, health: map<string, string>, scopes: map<string, nat>, id: string)
    ensures Composite(auth, lifecycle, health, scopes).Keys == auth.Keys + lifecycle.Keys + health.Keys + scopes.Keys
    ensures var c, c0 := StateOf(Composite(auth, lifecycle, health, scopes), id), StateOf(auth, id);
            var known := if id in health then health[id] else c0.health;
            && c.lifecycle == (if id in lifecycle then lifecycle[id] else c0.lifecycle)
            && c.scopeRevision == (if id in scopes then scopes[id] else c0.scopeRevision)
            && c.name == c0.name
            && c.health == (if id in scopes || (id in lifecycle && id !in health) then OrUnknown(known) else known)
            && (id in lifecycle || id in health || id in scopes ==> c.id == id && c.auth == OrUnknown(c0.auth))
            && (id !in lifecycle && id !in health && id !in scopes ==> c == c0)
  {
    var c1 := Merged(auth, lifecycle, PUT_LIFECYCLE);
    MergedAt(auth, lifecycle, PUT_LIFECYCLE, id);
    MergedAt(c1, health, PUT_HEALTH, id);
    MergedAt(Merged(c1, health, PUT_HEALTH), scopes, PUT_SCOPE, id);
  }
}
