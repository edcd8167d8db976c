/**
 The operations on refresh generations, interleaved without any lock around them.

 Rebuilds, permission swaps, teardowns and selection updates are started by the governor, by the
 kubeconfig watcher and through the per-cluster operation slot (backend/refresh_governor.go:346-424,
 backend/workspace_kubeconfigs.go:389-400, backend/workspace_transport_recovery.go:39-46), so any
 number of them can be under way at once, on the same cluster too. Every access to the subsystem map,
 the routes, the table of runtimes and the closers is a step of its own here. Where that allows more
 than the code does, a result about every run covers the code's runs as well.
 */
module RoutingInterleavings {
  import opened Wrappers
  import opened RefreshTopology

  /** Where one operation stands. */
  datatype Op =
    | Building(cluster: string, expected: Option<Gen>)    // a permission swap expects one generation
    | Built(next: Gen, expected: Option<Gen>)
    | Ready(next: Gen)                                    // the last look at the expected one is over
    | Registering(next: Gen, previous: Option<Gen>)       // previous was read, next is not set yet
    | Registered(target: Option<Gen>, previous: Option<Gen>)                      // a teardown has no target
    | Captured(target: Option<Gen>, previous: Option<Gen>, topology: Topology)
    | Restoring(next: Gen, previous: Option<Gen>)
    | Publishing(next: Gen, previous: Option<Gen>, topology: Topology)            // a bootstrap registers its copy
    | Selecting(topology: Topology, added: set<Gen>)
    | Replacing(topology: Topology, added: set<Gen>, setup: bool)
    | Committing(started: set<Gen>, ending: set<Gen>)
    | Unpublishing
    | Unrouted
    | Stopping(ending: set<Gen>, sweep: bool)             // a global teardown sweeps the runtimes last

  /** `condemned` are the generations some operation has turned to stopping, retired or not yet. */
  datatype World = World(
    subsystems: Topology, routes: Option<Topology>, runtimes: set<Gen>, condemned: set<Gen>, retired: set<Gen>, built: nat,
    ops: map<nat, Op>, cooled: set<Closer>, taken: set<Closer>, closes: multiset<Closer>, mapped: nat
  )

  datatype Event =
    | Start(id: nat, cluster: string, expected: Option<Gen>)
    | GiveUp(id: nat)
    | BuildNext(id: nat)
    | Accept(id: nat)                       // the last look: the expected generation is still there
    | Reject(id: nat)                       // it is not, or the next one does not start
    | ReadPrevious(id: nat)
    | SetNext(id: nat)
    | TearDown(id: nat, cluster: string)
    | Capture(id: nat)
    | Route(id: nat, bootstrap: bool)
    | RouteFails(id: nat)
    | IgnoreFailure(id: nat)                // a teardown goes on without its update
    | Restore(id: nat)
    | Publish(id: nat)
    | StartSelection(id: nat)
    | Keep(id: nat, cluster: string)
    | Add(id: nat, cluster: string)
    | Replace(id: nat)
    | SetUpNothing(id: nat)                 // a set-up that built nothing empties the map
    | Commit(id: nat)
    | StartTeardown(id: nat)
    | Unpublish(id: nat)
    | Clear(id: nat)
    | Sweep(id: nat)
    | Retire(id: nat, gen: Gen)
    | Forget(gen: Gen)                      // its producers stop
    | AddClosers(gen: Gen, files: nat)
    | TakeClosers(gen: Gen)
    | RunCloser(closer: Closer)

  const INITIAL := World(map[], None, {}, {}, {}, 0, map[], {}, {}, multiset{}, 0)

  function Values(topology: Topology): set<Gen> {
    set c | c in topology :: topology[c]
  }

  function OptionSet(gen: Option<Gen>): set<Gen> {
    if gen.Some? then {gen.value} else {}
  }

  /** The cluster's entry put back to what it was. */
  function WithEntry(topology: Topology, cluster: string, gen: Option<Gen>): Topology {
    if gen.Some? then topology[cluster := gen.value] else topology - {cluster}
  }

  predicate StillExpected(w: World, cluster: string, expected: Option<Gen>) {
    expected.Some? ==> Lookup(w.subsystems, cluster) == expected
  }

  predicate Enabled(w: World, e: Event) {
    match e
    case Start(id, c, expected) => id !in w.ops && c != "" && StillExpected(w, c, expected)
    case GiveUp(id) => id in w.ops && w.ops[id].Building?
    case BuildNext(id) => id in w.ops && w.ops[id].Building? && w.ops[id].cluster != "" && StillExpected(w, w.ops[id].cluster, w.ops[id].expected)
    case Accept(id) => id in w.ops && w.ops[id].Built? && StillExpected(w, w.ops[id].next.cluster, w.ops[id].expected)
    case Reject(id) => id in w.ops && (w.ops[id].Built? || w.ops[id].Ready?)
    case ReadPrevious(id) => id in w.ops && w.ops[id].Ready?
    case SetNext(id) => id in w.ops && w.ops[id].Registering?
    case TearDown(id, _) => id !in w.ops
    case Capture(id) => id in w.ops && w.ops[id].Registered?
    case Route(id, bootstrap) =>
      id in w.ops && (w.ops[id].Selecting? || (w.ops[id].Captured? && (bootstrap ==> w.ops[id].target.Some?)))
    case RouteFails(id) => id in w.ops && (w.ops[id].Selecting? || (w.ops[id].Captured? && w.ops[id].target.Some?))
    case IgnoreFailure(id) => id in w.ops && w.ops[id].Captured? && w.ops[id].target.None?
    case Restore(id) => id in w.ops && w.ops[id].Restoring?
    case Publish(id) => id in w.ops && w.ops[id].Publishing?
    case StartSelection(id) => id !in w.ops
    case Keep(id, c) => id in w.ops && w.ops[id].Selecting? && c in w.subsystems && c !in w.ops[id].topology
    case Add(id, c) => id in w.ops && w.ops[id].Selecting? && c != "" && c !in w.ops[id].topology
    case Replace(id) => id in w.ops && w.ops[id].Replacing?
    case SetUpNothing(id) => id in w.ops && w.ops[id] == Selecting(map[], {})
    case Commit(id) => id in w.ops && w.ops[id].Committing?
    case StartTeardown(id) => id !in w.ops
    case Unpublish(id) => id in w.ops && w.ops[id].Unpublishing?
    case Clear(id) => id in w.ops && w.ops[id].Unrouted?
    case Sweep(id) => id in w.ops && w.ops[id] == Stopping({}, true)
    case Retire(id, g) => id in w.ops && w.ops[id].Stopping? && g in w.ops[id].ending
    case Forget(_) => true
    case AddClosers(g, _) => g.serial < w.built
    case TakeClosers(g) => g in w.retired
    case RunCloser(c) => c in w.taken
  }

  function Ending(op: Op): set<Gen> {
    match op
    case Committing(_, ending) => ending
    case Stopping(ending, _) => ending
    case _ => {}
  }

  function AfterRoute(op: Op, bootstrap: bool): Op
    requires op.Selecting? || (op.Captured? && (bootstrap ==> op.target.Some?))
  {
    if op.Selecting? then Replacing(op.topology, op.added, bootstrap)
    else if op.target.None? then Stopping(OptionSet(op.previous), false)
    else if bootstrap then Publishing(op.target.value, op.previous, op.topology)
    else Committing({op.target.value}, OptionSet(op.previous))
  }

  /** The generations a step turns to stopping. */
  function Dooms(w: World, e: Event): set<Gen> {
    if !Enabled(w, e) then {}
    else
    match e
    case Reject(id) => {w.ops[id].next}
    case TearDown(_, c) => if c in w.subsystems then {} else RunningFor(w.runtimes, c)
    case Route(id, bootstrap) =>
      var op := w.ops[id];
      if op.Captured? && !bootstrap then OptionSet(op.previous) else {}
    case RouteFails(id) => if w.ops[id].Selecting? then w.ops[id].added else {}
    case IgnoreFailure(id) => OptionSet(w.ops[id].previous)
    case Restore(id) => {w.ops[id].next}
    case Publish(id) => OptionSet(w.ops[id].previous)
    case Replace(id) => if w.ops[id].setup then {} else RemovedBy(w.subsystems, w.ops[id].topology)
    case Clear(_) => Values(w.subsystems)
    case Sweep(_) => w.runtimes
    case _ => {}
  }

  /** Whether a step is taken by an operation, rather than by the books of stopped generations. */
  predicate Moves(e: Event) {
    !e.Forget? && !e.AddClosers? && !e.TakeClosers? && !e.RunCloser?
  }

  /** Where the operation stands after its step; None when it is over. */
  function OpAfter(w: World, e: Event): Option<Op> {
    if !Enabled(w, e) then None
    else
    match e
    case Start(_, c, expected) => Some(Building(c, expected))
    case GiveUp(_) => None
    case BuildNext(id) => Some(Built(Gen(w.ops[id].cluster, w.built), w.ops[id].expected))
    case Accept(id) => Some(Ready(w.ops[id].next))
    case Reject(id) => Some(Stopping({w.ops[id].next}, false))
    case ReadPrevious(id) => Some(Registering(w.ops[id].next, Lookup(w.subsystems, w.ops[id].next.cluster)))
    case SetNext(id) => Some(Registered(Some(w.ops[id].next), w.ops[id].previous))
    case TearDown(_, c) =>
      Some(if c in w.subsystems then Registered(None, Some(w.subsystems[c])) else Stopping(RunningFor(w.runtimes, c), false))
    case Capture(id) => Some(Captured(w.ops[id].target, w.ops[id].previous, w.subsystems))
    case Route(id, bootstrap) => Some(AfterRoute(w.ops[id], bootstrap))
    case RouteFails(id) =>
      var op := w.ops[id];
      Some(if op.Selecting? then Stopping(op.added, false) else Restoring(op.target.value, op.previous))
    case IgnoreFailure(id) => Some(Stopping(OptionSet(w.ops[id].previous), false))
    case Restore(id) => Some(Stopping({w.ops[id].next}, false))
    case Publish(id) => Some(Committing({w.ops[id].next}, OptionSet(w.ops[id].previous)))
    case StartSelection(_) => Some(Selecting(map[], {}))
    case Keep(id, c) => Some(Selecting(w.ops[id].topology[c := w.subsystems[c]], w.ops[id].added))
    case Add(id, c) => Some(Selecting(w.ops[id].topology[c := Gen(c, w.built)], w.ops[id].added + {Gen(c, w.built)}))
    case Replace(id) => Some(Committing(w.ops[id].added, Dooms(w, e)))
    case SetUpNothing(_) => None
    case Commit(id) => Some(Stopping(w.ops[id].ending, false))
    case StartTeardown(_) => Some(Unpublishing)
    case Unpublish(_) => Some(Unrouted)
    case Clear(_) => Some(Stopping(Values(w.subsystems), true))
    case Sweep(_) => Some(Stopping(w.runtimes, false))
    case Retire(id, g) => Some(w.ops[id].(ending := w.ops[id].ending - {g}))
    case _ => None
  }

  function OpsAfter(w: World, e: Event): map<nat, Op> {
    if !Enabled(w, e) || !Moves(e) then w.ops
    else
      var after := OpAfter(w, e);
      if after.Some? then w.ops[e.id := after.value] else w.ops - {e.id}
  }

  function MapAfter(w: World, e: Event): Topology {
    if !Enabled(w, e) then w.subsystems
    else
    match e
    case SetNext(id) => w.subsystems[w.ops[id].next.cluster := w.ops[id].next]
    case TearDown(_, c) => w.subsystems - {c}
    case Restore(id) => WithEntry(w.subsystems, w.ops[id].next.cluster, w.ops[id].previous)
    case Publish(id) => w.ops[id].topology
    case Replace(id) => w.ops[id].topology
    case SetUpNothing(_) => map[]
    case Clear(_) => map[]
    case _ => w.subsystems
  }

  /** An update of aggregates that are not there succeeds without effect. */
  function RoutesAfter(w: World, e: Event): Option<Topology> {
    if !Enabled(w, e) then w.routes
    else
    match e
    case Route(id, bootstrap) => if bootstrap || w.routes.Some? then Some(w.ops[id].topology) else None
    case Unpublish(_) => None
    case _ => w.routes
  }

  function RuntimesAfter(w: World, e: Event): set<Gen> {
    if e.Commit? && Enabled(w, e) then w.runtimes + w.ops[e.id].started
    else if e.Forget? then w.runtimes - {e.gen}
    else w.runtimes
  }

  function ClosersAfter(w: World, e: Event): (set<Closer>, set<Closer>, multiset<Closer>, nat) {
    match e
    case AddClosers(g, files) => (w.cooled + ClosersBetween(g, w.mapped, files), w.taken, w.closes, w.mapped + files)
    case TakeClosers(g) => (w.cooled - ClosersOf(w.cooled, g), w.taken + ClosersOf(w.cooled, g), w.closes, w.mapped)
    case RunCloser(c) => (w.cooled, w.taken - {c}, w.closes[c := w.closes[c] + 1], w.mapped)
    case _ => (w.cooled, w.taken, w.closes, w.mapped)
  }

  /** Total for the sake of the proofs; what it does with a step that is not enabled does not matter. */
  function Next(w: World, e: Event): World {
    var (cooled, taken, closes, mapped) := ClosersAfter(w, e);
    World(
      MapAfter(w, e),
      RoutesAfter(w, e),
      RuntimesAfter(w, e),
      w.condemned + Dooms(w, e),
      if e.Retire? then w.retired + {e.gen} else w.retired,
      if e.BuildNext? || e.Add? then w.built + 1 else w.built,
      OpsAfter(w, e),
      cooled, taken, closes, mapped
    )
  }

  ghost predicate StepAt(states: seq<World>, events: seq<Event>, i: nat)
    requires i < |events| < |states|
  {
    Enabled(states[i], events[i]) && states[i + 1] == Next(states[i], events[i])
  }

  ghost predicate Behaviour(states: seq<World>, events: seq<Event>) {
    && |states| == |events| + 1
    && states[0] == INITIAL
    && forall i: nat | i < |events| :: StepAt(states, events, i)
  }

  // ----- What the property is -----

  predicate Routed(w: World, g: Gen) {
    w.routes.Some? && g in Values(w.routes.value)
  }

  /** In the map or in the routes. */
  predicate InForce(w: World, g: Gen) {
    g in Values(w.subsystems) || Routed(w, g)
  }

  /** Nothing routed, and nothing that the next copy of the map would route, is retired. */
  ghost predicate Healthy(w: World) {
    forall g | InForce(w, g) :: g !in w.retired
  }

  /** The generations an operation has built and nobody else has seen yet, .. */
  function Own(op: Op): set<Gen> {
    match op
    case Built(next, _) => {next}
    case Ready(next) => {next}
    case Registering(next, _) => {next}
    case Selecting(_, added) => added
    case Replacing(_, added, _) => added
    case _ => {}
  }

  /** .. and those it has taken from the map and may put back. */
  function Held(op: Op): set<Gen> {
    match op
    case Registering(_, previous) => OptionSet(previous)
    case Registered(_, previous) => OptionSet(previous)
    case Captured(_, previous, topology) => OptionSet(previous) + Values(topology)
    case Restoring(_, previous) => OptionSet(previous)
    case Publishing(_, previous, topology) => OptionSet(previous) + Values(topology)
    case Selecting(topology, added) => Values(topology) - added
    case Replacing(topology, added, _) => Values(topology) - added
    case _ => {}
  }

  /** What a step puts into the map or the routes. */
  function Puts(w: World, e: Event): set<Gen> {
    if !Enabled(w, e) then {}
    else
    match e
    case SetNext(id) => {w.ops[id].next}
    case Route(id, bootstrap) => if bootstrap || w.routes.Some? then Values(w.ops[id].topology) else {}
    case Restore(id) => OptionSet(w.ops[id].previous)
    case Publish(id) => Values(w.ops[id].topology)
    case Replace(id) => Values(w.ops[id].topology)
    case _ => {}
  }

  /** What a step takes out of the map into the hands of an operation. */
  function Takes(w: World, e: Event): set<Gen> {
    if !Enabled(w, e) then {}
    else
    match e
    case ReadPrevious(id) => OptionSet(Lookup(w.subsystems, w.ops[id].next.cluster))
    case TearDown(_, c) => OptionSet(Lookup(w.subsystems, c))
    case Capture(id) => Values(w.subsystems)
    case Keep(_, c) => {w.subsystems[c]}
    case _ => {}
  }

  /** The operation a step belongs to. */
  predicate StepOf(e: Event, x: nat) {
    Moves(e) && e.id == x
  }

  /** What else an operation knows of: taken from the map, or shown to others. */
  function Seen(op: Op): set<Gen> {
    match op
    case Registering(_, previous) => OptionSet(previous)
    case Registered(target, previous) => OptionSet(target) + OptionSet(previous)
    case Captured(target, previous, topology) => OptionSet(target) + OptionSet(previous) + Values(topology)
    case Restoring(next, previous) => {next} + OptionSet(previous)
    case Publishing(next, previous, topology) => {next} + OptionSet(previous) + Values(topology)
    case Selecting(topology, added) => Values(topology) - added
    case Replacing(topology, added, _) => Values(topology) - added
    case Committing(started, ending) => started + ending
    case Stopping(ending, _) => ending
    case _ => {}
  }
}
