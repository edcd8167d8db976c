/**
 Operations whose windows do not overlap.

 A window is open from the look at the map (or the removal from it) that an operation builds on until
 its routing is behind it or undone. Nothing in the code keeps windows apart: the selection mutex covers
 selection updates, auth recovery and the kubeconfig watcher
 (backend/kubeconfig_selection_coordinator.go:57-134), the per-cluster slot transport recovery and
 permission swaps (backend/cluster_operation_coordinator.go:53-126), and the governor takes neither
 (backend/refresh_governor.go:346-424).
 */
module RoutingWindows {
  import opened Wrappers
  import opened RefreshTopology
  import opened RoutingInterleavings
  import opened RoutingOwnership
  import opened RoutingClosers

  predicate Open(op: Op) {
    match op
    case Registering(_, _) => true
    case Registered(_, _) => true
    case Captured(_, _, _) => true
    case Restoring(_, _) => true
    case Publishing(_, _, _) => true
    case Selecting(_, _) => true
    case Replacing(_, _, _) => true
    case Unpublishing => true
    case Unrouted => true
    case Stopping(_, sweep) => sweep
    case _ => false
  }

  predicate Opens(e: Event) {
    e.ReadPrevious? || e.TearDown? || e.StartSelection? || e.StartTeardown?
  }

  /** What a caller can check before the step: no window opens while another is open, a teardown whose
      update failed goes on only if its cluster is not routed, and a set-up gives up only unrouted. */
  ghost predicate Guarded(w: World, e: Event) {
    && (Opens(e) ==> forall x | x in w.ops :: !Open(w.ops[x]))
    && (Enabled(w, e) && e.IgnoreFailure? && w.ops[e.id].previous.Some? ==> !Routed(w, w.ops[e.id].previous.value))
    && (e.SetUpNothing? ==> w.routes.None?)
  }

  ghost predicate WindowsApart(states: seq<World>, events: seq<Event>)
    requires |events| <= |states|
  {
    forall i: nat | i < |events| :: Guarded(states[i], events[i])
  }

  // ----- What windows apart keep -----

  ghost predicate Keyed(topology: Topology) {
    forall c | c in topology :: topology[c].cluster == c
  }

  /** What is routed is in the map, or is what the open window has displaced. */
  ghost predicate RoutedFrom(w: World, previous: Option<Gen>) {
    forall g | Routed(w, g) :: g in Values(w.subsystems) || previous == Some(g)
  }

  /** The target is in the map and not routed yet; what it displaced can come back. */
  ghost predicate Displaced(w: World, target: Option<Gen>, previous: Option<Gen>) {
    && (previous.Some? ==> previous.value !in Values(w.subsystems) && previous.value !in w.condemned)
    && (target.Some? ==> Lookup(w.subsystems, target.value.cluster) == target && !Routed(w, target.value))
    && (target.Some? && previous.Some? ==> previous.value.cluster == target.value.cluster)
  }

  ghost predicate Assembled(w: World, topology: Topology, added: set<Gen>) {
    Keyed(topology) && forall g | g in Values(topology) :: g in added || g in Values(w.subsystems)
  }

  ghost predicate Aligned(w: World, op: Op) {
    match op
    case Registering(next, previous) => previous == Lookup(w.subsystems, next.cluster) && RoutedFrom(w, None)
    case Registered(target, previous) => RoutedFrom(w, previous) && Displaced(w, target, previous)
    case Captured(target, previous, topology) => topology == w.subsystems && RoutedFrom(w, previous) && Displaced(w, target, previous)
    case Restoring(next, previous) => RoutedFrom(w, previous) && Displaced(w, Some(next), previous)
    case Publishing(_, previous, topology) => topology == w.subsystems && w.routes == Some(topology) && Displaced(w, None, previous)
    case Selecting(topology, added) => Assembled(w, topology, added) && RoutedFrom(w, None)
    case Replacing(topology, added, _) => Assembled(w, topology, added) && (w.routes.Some? ==> w.routes.value == topology)
    case Unpublishing => RoutedFrom(w, None)
    case Unrouted => w.routes.None?
    case Stopping(_, sweep) => sweep ==> w.routes.None? && w.subsystems == map[]
    case _ => true
  }

  ghost predicate OneWindow(w: World) {
    forall x, y | x in w.ops && y in w.ops && Open(w.ops[x]) && Open(w.ops[y]) :: x == y
  }

  /** Nothing in force is being stopped. */
  ghost predicate Sound(w: World) {
    forall g | InForce(w, g) :: g !in w.condemned
  }

  ghost predicate Orderly(w: World) {
    && OneWindow(w)
    && Keyed(w.subsystems)
    && Sound(w)
    && (forall x | x in w.ops :: Aligned(w, w.ops[x]))
    && ((forall x | x in w.ops :: !Open(w.ops[x])) ==> RoutedFrom(w, None))
  }

  lemma ApartKeepsOneWindow(w: World, e: Event)
    requires Enabled(w, e) && Guarded(w, e) && OneWindow(w)
    ensures OneWindow(Next(w, e))
  {
    var w' := Next(w, e);
    forall x | x in w'.ops && Open(w'.ops[x]) ensures (x in w.ops && Open(w.ops[x])) || (Opens(e) && StepOf(e, x)) {
    }
  }

  lemma ApartKeepsKeyed(w: World, e: Event)
    requires Enabled(w, e) && Orderly(w)
    ensures Keyed(Next(w, e).subsystems)
  {
    assert forall x | x in w.ops && StepOf(e, x) :: Aligned(w, w.ops[x]);
  }

  lemma PutsAreAlive(w: World, e: Event, g: Gen)
    requires Enabled(w, e) && Ownership(w) && Orderly(w) && g in Puts(w, e)
    ensures g !in w.condemned
  {
    assert forall x | x in w.ops && StepOf(e, x) :: Aligned(w, w.ops[x]);
    assert g in Values(w.subsystems) ==> InForce(w, g);
    assert forall x | x in w.ops && g in Own(w.ops[x]) :: Private(w, g);
  }

  lemma AbsentIsOut(w: World, e: Event, g: Gen)
    requires Enabled(w, e) && Guarded(w, e) && Orderly(w) && e.TearDown? && g in Dooms(w, e)
    ensures g !in Values(w.subsystems) && !Routed(w, g)
  {
    assert RoutedFrom(w, None);
  }

  lemma DoomedAreUnmapped(w: World, e: Event, g: Gen)
    requires Enabled(w, e) && Guarded(w, e) && Ownership(w) && Orderly(w) && g in Dooms(w, e) && !e.TearDown?
    ensures g !in Values(MapAfter(w, e))
  {
    assert forall x | x in w.ops && StepOf(e, x) :: Aligned(w, w.ops[x]);
    assert forall x | x in w.ops && g in Own(w.ops[x]) :: Private(w, g);
  }

  lemma DoomedWereUnrouted(w: World, e: Event, g: Gen)
    requires Enabled(w, e) && Guarded(w, e) && Ownership(w) && Orderly(w) && g in Dooms(w, e) && !e.TearDown? && !e.Route?
    ensures !Routed(w, g) && RoutesAfter(w, e) == w.routes
  {
    assert forall x | x in w.ops && StepOf(e, x) :: Aligned(w, w.ops[x]);
    assert forall x | x in w.ops && g in Own(w.ops[x]) && !w.ops[x].Replacing? :: !Routed(w, g);
  }

  lemma DisplacedIsUnrouted(w: World, e: Event, g: Gen)
    requires Enabled(w, e) && Orderly(w) && g in Dooms(w, e) && e.Route?
    ensures RoutesAfter(w, e).Some? ==> g !in Values(RoutesAfter(w, e).value)
  {
    assert Aligned(w, w.ops[e.id]);
  }

  lemma DoomedAreOut(w: World, e: Event, g: Gen)
    requires Enabled(w, e) && Guarded(w, e) && Ownership(w) && Orderly(w) && g in Dooms(w, e)
    ensures !InForce(Next(w, e), g)
  {
    if e.TearDown? {
      AbsentIsOut(w, e, g);
    } else {
      DoomedAreUnmapped(w, e, g);
      if e.Route? {
        DisplacedIsUnrouted(w, e, g);
      } else {
        DoomedWereUnrouted(w, e, g);
      }
    }
  }

  lemma ApartKeepsSound(w: World, e: Event)
    requires Enabled(w, e) && Guarded(w, e) && Ownership(w) && Orderly(w)
    ensures Sound(Next(w, e))
  {
    forall g | InForce(Next(w, e), g) ensures g !in Next(w, e).condemned {
      InForceComesFrom(w, e, g);
      if g in Puts(w, e) {
        PutsAreAlive(w, e, g);
      }
      if g in Dooms(w, e) {
        DoomedAreOut(w, e, g);
      }
    }
  }

  /** The step of an operation whose window is not open changes neither the map nor the routes. */
  lemma OutsideIsQuiet(w: World, e: Event)
    requires Enabled(w, e) && !Opens(e) && forall x | x in w.ops && StepOf(e, x) :: !Open(w.ops[x])
    ensures Next(w, e).subsystems == w.subsystems && Next(w, e).routes == w.routes
    ensures Dooms(w, e) == {} || (e.Reject? && Dooms(w, e) == {w.ops[e.id].next})
  {
  }

  lemma AlignedElsewhere(w: World, w': World, op: Op)
    requires Aligned(w, op) && w'.subsystems == w.subsystems && w'.routes == w.routes
    requires forall g | g in w'.condemned && g !in w.condemned :: g !in Seen(op)
    ensures Aligned(w', op)
  {
    assert forall g | Routed(w', g) :: Routed(w, g);
  }

  lemma OthersStayAligned(w: World, e: Event, y: nat)
    requires Enabled(w, e) && Guarded(w, e) && Ownership(w) && Orderly(w)
    requires y in w.ops && Open(w.ops[y]) && !StepOf(e, y)
    ensures Aligned(Next(w, e), w.ops[y])
  {
    OutsideIsQuiet(w, e);
    assert Aligned(w, w.ops[y]);
    if e.Reject? {
      assert w.ops[e.id].next !in Seen(w.ops[y]);
    }
    AlignedElsewhere(w, Next(w, e), w.ops[y]);
  }

  lemma UpdateKeepsValues(topology: Topology, cluster: string, gen: Gen)
    ensures gen in Values(topology[cluster := gen])
    ensures forall g | g in Values(topology) :: g in Values(topology[cluster := gen]) || Lookup(topology, cluster) == Some(g)
  {
    var after := topology[cluster := gen];
    assert cluster in after;
    forall g | g in Values(topology) ensures g in Values(after) || Lookup(topology, cluster) == Some(g) {
      var c :| c in topology && topology[c] == g;
      assert c in after;
    }
  }

  lemma RemovalKeepsValues(topology: Topology, cluster: string)
    ensures forall g | g in Values(topology) :: g in Values(topology - {cluster}) || Lookup(topology, cluster) == Some(g)
  {
    forall g | g in Values(topology) ensures g in Values(topology - {cluster}) || Lookup(topology, cluster) == Some(g) {
      var c :| c in topology && topology[c] == g;
      assert c == cluster || c in topology - {cluster};
    }
  }

  lemma SetIsAligned(w: World, e: Event)
    requires Enabled(w, e) && Ownership(w) && Orderly(w) && e.SetNext?
    ensures Aligned(Next(w, e), Next(w, e).ops[e.id])
  {
    var op := w.ops[e.id];
    assert Aligned(w, op) && Private(w, op.next);
    UpdateKeepsValues(w.subsystems, op.next.cluster, op.next);
    assert op.previous.Some? ==> InForce(w, op.previous.value);
  }

  lemma TearDownIsAligned(w: World, e: Event)
    requires Enabled(w, e) && Guarded(w, e) && Ownership(w) && Orderly(w) && e.TearDown?
    ensures Aligned(Next(w, e), Next(w, e).ops[e.id])
  {
    RemovalKeepsValues(w.subsystems, e.cluster);
    assert e.cluster in w.subsystems ==> InForce(w, w.subsystems[e.cluster]);
  }

  lemma MoverIsAligned(w: World, e: Event, x: nat)
    requires Enabled(w, e) && Guarded(w, e) && Ownership(w) && Orderly(w) && !e.SetNext? && !e.TearDown?
    requires StepOf(e, x) && x in Next(w, e).ops
    ensures Aligned(Next(w, e), Next(w, e).ops[x])
  {
    assert x in w.ops ==> Aligned(w, w.ops[x]);
  }

  lemma ClosingSettles(w: World, e: Event, x: nat)
    requires Enabled(w, e) && Guarded(w, e) && Ownership(w) && Orderly(w)
    requires StepOf(e, x) && x in w.ops && Open(w.ops[x]) && (x in Next(w, e).ops ==> !Open(Next(w, e).ops[x]))
    ensures RoutedFrom(Next(w, e), None)
  {
    assert Aligned(w, w.ops[x]);
    if e.Restore? {
      var op := w.ops[x];
      if op.previous.Some? {
        UpdateKeepsValues(w.subsystems, op.next.cluster, op.previous.value);
      } else {
        RemovalKeepsValues(w.subsystems, op.next.cluster);
      }
    }
  }

  lemma ApartKeepsAligned(w: World, e: Event, x: nat)
    requires Enabled(w, e) && Guarded(w, e) && Ownership(w) && Orderly(w) && x in Next(w, e).ops
    ensures Aligned(Next(w, e), Next(w, e).ops[x])
  {
    if !StepOf(e, x) {
      OthersKeep(w, e, x);
      if Open(w.ops[x]) {
        OthersStayAligned(w, e, x);
      }
    } else if e.SetNext? {
      SetIsAligned(w, e);
    } else if e.TearDown? {
      TearDownIsAligned(w, e);
    } else {
      MoverIsAligned(w, e, x);
    }
  }

  lemma MoverCloses(w: World, e: Event, x: nat)
    requires Enabled(w, e) && StepOf(e, x) && x in Next(w, e).ops && !Open(Next(w, e).ops[x])
    ensures Opens(e) ==> e.TearDown? && Next(w, e).subsystems == w.subsystems && Next(w, e).routes == w.routes
  {
  }

  lemma ClosedBefore(w: World, e: Event)
    requires Enabled(w, e) && forall x | x in w.ops && StepOf(e, x) :: !Open(w.ops[x])
    requires forall x | x in Next(w, e).ops :: !Open(Next(w, e).ops[x])
    ensures forall x | x in w.ops :: !Open(w.ops[x])
  {
    forall x | x in w.ops ensures !Open(w.ops[x]) {
      if !StepOf(e, x) {
        OthersKeep(w, e, x);
      }
    }
  }

  lemma ApartKeepsSettled(w: World, e: Event)
    requires Enabled(w, e) && Guarded(w, e) && Ownership(w) && Orderly(w)
    requires forall x | x in Next(w, e).ops :: !Open(Next(w, e).ops[x])
    ensures RoutedFrom(Next(w, e), None)
  {
    if x :| StepOf(e, x) && x in w.ops && Open(w.ops[x]) {
      ClosingSettles(w, e, x);
    } else {
      ClosedBefore(w, e);
      UnmovedSettles(w, e);
    }
  }

  lemma UnmovedSettles(w: World, e: Event)
    requires Enabled(w, e) && RoutedFrom(w, None)
    requires forall x | x in w.ops :: !Open(w.ops[x])
    requires forall x | x in Next(w, e).ops :: !Open(Next(w, e).ops[x])
    ensures RoutedFrom(Next(w, e), None)
  {
    if Opens(e) {
      assert StepOf(e, e.id) && e.id in Next(w, e).ops;
      MoverCloses(w, e, e.id);
    } else {
      OutsideIsQuiet(w, e);
    }
  }

  lemma StepKeepsOrderly(w: World, e: Event)
    requires Enabled(w, e) && Guarded(w, e) && Ownership(w) && Orderly(w)
    ensures Orderly(Next(w, e))
  {
    var w' := Next(w, e);
    ApartKeepsOneWindow(w, e);
    ApartKeepsKeyed(w, e);
    ApartKeepsSound(w, e);
    forall x | x in w'.ops ensures Aligned(w', w'.ops[x]) {
      ApartKeepsAligned(w, e, x);
    }
    if forall x | x in w'.ops :: !Open(w'.ops[x]) {
      ApartKeepsSettled(w, e);
    }
  }

  lemma OrderlyAtNext(states: seq<World>, events: seq<Event>, n: nat)
    requires Behaviour(states, events) && n < |events| && Guarded(states[n], events[n]) && Orderly(states[n])
    ensures Orderly(states[n + 1])
  {
    Reachable(states, events, n);
    assert StepAt(states, events, n);
    StepKeepsOrderly(states[n], events[n]);
  }

  lemma {:induction false} StaysOrderly(states: seq<World>, events: seq<Event>, n: nat)
    requires Behaviour(states, events) && WindowsApart(states, events) && n < |states|
    ensures Orderly(states[n])
  {
    if n > 0 {
      StaysOrderly(states, events, n - 1);
      OrderlyAtNext(states, events, n - 1);
    }
  }

  /** Whatever else interleaves, on the same cluster too: while windows stay apart nothing in force is
      ever retired or being stopped, and a reader of the routes never meets a retired generation or a
      closed file. */
  lemma WindowsApartStaySafe(states: seq<World>, events: seq<Event>, n: nat)
    requires Behaviour(states, events) && WindowsApart(states, events) && n < |states|
    ensures Sound(states[n]) && Healthy(states[n]) && Safe(Seeing(states[n]))
  {
    StaysOrderly(states, events, n);
    Reachable(states, events, n);
    HealthyIsSafe(states, events, n);
  }
}
