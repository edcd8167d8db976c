/** What each operation on refresh generations comes to when nothing else runs meanwhile. */
module RoutingAlone {
  import opened Wrappers
  import opened RefreshTopology
  import opened RoutingInterleavings

  /** A step of operation x, or of the books of stopped generations. */
  predicate StepBy(e: Event, x: nat) {
    Moves(e) ==> e.id == x
  }

  ghost predicate Leads(x: nat, states: seq<World>, events: seq<Event>, w: World, w': World) {
    && |states| == |events| + 1 && states[0] == w && states[|events|] == w'
    && forall i: nat {:trigger StepAt(states, events, i)} | i < |events| :: StepAt(states, events, i) && StepBy(events[i], x)
  }

  /** x alone gets from one state of the world to the other. */
  ghost predicate Reaches(x: nat, w: World, w': World) {
    exists states, events :: Leads(x, states, events, w, w')
  }

  lemma Stay(x: nat, w: World)
    ensures Reaches(x, w, w)
  {
    assert Leads(x, [w], [], w, w);
  }

  lemma Onward(x: nat, w: World, m: World, e: Event, m': World)
    requires Reaches(x, w, m) && StepBy(e, x) && Enabled(m, e) && m' == Next(m, e)
    ensures Reaches(x, w, m')
  {
    var states, events :| Leads(x, states, events, w, m);
    var states', events' := states + [m'], events + [e];
    forall i: nat | i < |events'| ensures StepAt(states', events', i) && StepBy(events'[i], x) {
      assert i < |events| ==> StepAt(states, events, i);
    }
    assert Leads(x, states', events', w, m');
  }

  /** The world with x somewhere else. */
  function At(w: World, x: nat, op: Op): World {
    w.(ops := w.ops[x := op])
  }

  /** A generation is stopped: it runs no more and is retired. */
  function Stopped(w: World, gens: set<Gen>): World {
    w.(runtimes := w.runtimes - gens, retired := w.retired + gens)
  }

  // ----- Single steps of x, from where it stands -----

  lemma Starts(x: nat, w: World, m: World, c: string, expected: Option<Gen>)
    requires Reaches(x, w, m) && x !in m.ops && c != "" && (expected.Some? ==> Lookup(m.subsystems, c) == expected)
    ensures Reaches(x, w, At(m, x, Building(c, expected)))
  {
    Onward(x, w, m, Start(x, c, expected), At(m, x, Building(c, expected)));
  }

  lemma Abandons(x: nat, w: World, m: World)
    requires Reaches(x, w, m) && x in m.ops && m.ops[x].Building?
    ensures Reaches(x, w, m.(ops := m.ops - {x}))
  {
    Onward(x, w, m, GiveUp(x), m.(ops := m.ops - {x}));
  }

  lemma Builds(x: nat, w: World, m: World, c: string, expected: Option<Gen>)
    requires Reaches(x, w, m) && Lookup(m.ops, x) == Some(Building(c, expected)) && c != ""
    requires expected.Some? ==> Lookup(m.subsystems, c) == expected
    ensures Reaches(x, w, At(m, x, Built(Gen(c, m.built), expected)).(built := m.built + 1))
  {
    Onward(x, w, m, BuildNext(x), At(m, x, Built(Gen(c, m.built), expected)).(built := m.built + 1));
  }

  lemma Accepts(x: nat, w: World, m: World, g: Gen, expected: Option<Gen>)
    requires Reaches(x, w, m) && Lookup(m.ops, x) == Some(Built(g, expected))
    requires expected.Some? ==> Lookup(m.subsystems, g.cluster) == expected
    ensures Reaches(x, w, At(m, x, Ready(g)))
  {
    Onward(x, w, m, Accept(x), At(m, x, Ready(g)));
  }

  lemma Rejects(x: nat, w: World, m: World, g: Gen)
    requires Reaches(x, w, m) && x in m.ops && (m.ops[x].Built? || m.ops[x].Ready?) && m.ops[x].next == g
    ensures Reaches(x, w, At(m, x, Stopping({g}, false)).(condemned := m.condemned + {g}))
  {
    Onward(x, w, m, Reject(x), At(m, x, Stopping({g}, false)).(condemned := m.condemned + {g}));
  }

  lemma Reads(x: nat, w: World, m: World, g: Gen)
    requires Reaches(x, w, m) && Lookup(m.ops, x) == Some(Ready(g))
    ensures Reaches(x, w, At(m, x, Registering(g, Lookup(m.subsystems, g.cluster))))
  {
    Onward(x, w, m, ReadPrevious(x), At(m, x, Registering(g, Lookup(m.subsystems, g.cluster))));
  }

  lemma Sets(x: nat, w: World, m: World, g: Gen, previous: Option<Gen>)
    requires Reaches(x, w, m) && Lookup(m.ops, x) == Some(Registering(g, previous))
    ensures Reaches(x, w, At(m, x, Registered(Some(g), previous)).(subsystems := m.subsystems[g.cluster := g]))
  {
    Onward(x, w, m, SetNext(x), At(m, x, Registered(Some(g), previous)).(subsystems := m.subsystems[g.cluster := g]));
  }

  lemma Captures(x: nat, w: World, m: World, target: Option<Gen>, previous: Option<Gen>)
    requires Reaches(x, w, m) && Lookup(m.ops, x) == Some(Registered(target, previous))
    ensures Reaches(x, w, At(m, x, Captured(target, previous, m.subsystems)))
  {
    Onward(x, w, m, Capture(x), At(m, x, Captured(target, previous, m.subsystems)));
  }

  lemma Routes(x: nat, w: World, m: World, g: Gen, previous: Option<Gen>, topology: Topology)
    requires Reaches(x, w, m) && Lookup(m.ops, x) == Some(Captured(Some(g), previous, topology)) && m.routes.Some?
    ensures Reaches(x, w, At(m, x, Committing({g}, OptionSet(previous))).(routes := Some(topology), condemned := m.condemned + OptionSet(previous)))
  {
    Onward(x, w, m, Route(x, false),
           At(m, x, Committing({g}, OptionSet(previous))).(routes := Some(topology), condemned := m.condemned + OptionSet(previous)));
  }

  lemma Bootstraps(x: nat, w: World, m: World, g: Gen, previous: Option<Gen>, topology: Topology)
    requires Reaches(x, w, m) && Lookup(m.ops, x) == Some(Captured(Some(g), previous, topology))
    ensures Reaches(x, w, At(m, x, Publishing(g, previous, topology)).(routes := Some(topology)))
  {
    Onward(x, w, m, Route(x, true), At(m, x, Publishing(g, previous, topology)).(routes := Some(topology)));
  }

  lemma Publishes(x: nat, w: World, m: World, g: Gen, previous: Option<Gen>, topology: Topology)
    requires Reaches(x, w, m) && Lookup(m.ops, x) == Some(Publishing(g, previous, topology))
    ensures Reaches(x, w, At(m, x, Committing({g}, OptionSet(previous))).(subsystems := topology, condemned := m.condemned + OptionSet(previous)))
  {
    Onward(x, w, m, Publish(x),
           At(m, x, Committing({g}, OptionSet(previous))).(subsystems := topology, condemned := m.condemned + OptionSet(previous)));
  }

  lemma Commits(x: nat, w: World, m: World, started: set<Gen>, ending: set<Gen>)
    requires Reaches(x, w, m) && Lookup(m.ops, x) == Some(Committing(started, ending))
    ensures Reaches(x, w, At(m, x, Stopping(ending, false)).(runtimes := m.runtimes + started))
  {
    Onward(x, w, m, Commit(x), At(m, x, Stopping(ending, false)).(runtimes := m.runtimes + started));
  }

  lemma Fails(x: nat, w: World, m: World, g: Gen, previous: Option<Gen>, topology: Topology)
    requires Reaches(x, w, m) && Lookup(m.ops, x) == Some(Captured(Some(g), previous, topology))
    ensures Reaches(x, w, At(m, x, Restoring(g, previous)))
  {
    Onward(x, w, m, RouteFails(x), At(m, x, Restoring(g, previous)));
  }

  lemma Restores(x: nat, w: World, m: World, g: Gen, previous: Option<Gen>)
    requires Reaches(x, w, m) && Lookup(m.ops, x) == Some(Restoring(g, previous))
    ensures Reaches(x, w, At(m, x, Stopping({g}, false)).(subsystems := WithEntry(m.subsystems, g.cluster, previous), condemned := m.condemned + {g}))
  {
    Onward(x, w, m, Restore(x),
           At(m, x, Stopping({g}, false)).(subsystems := WithEntry(m.subsystems, g.cluster, previous), condemned := m.condemned + {g}));
  }

  lemma Retires(x: nat, w: World, m: World, g: Gen, ending: set<Gen>, sweep: bool)
    requires Reaches(x, w, m) && Lookup(m.ops, x) == Some(Stopping(ending, sweep)) && g in ending
    ensures Reaches(x, w, At(m, x, Stopping(ending - {g}, sweep)).(retired := m.retired + {g}))
  {
    Onward(x, w, m, Retire(x, g), At(m, x, Stopping(ending - {g}, sweep)).(retired := m.retired + {g}));
  }

  lemma Forgets(x: nat, w: World, m: World, g: Gen)
    requires Reaches(x, w, m)
    ensures Reaches(x, w, m.(runtimes := m.runtimes - {g}))
  {
    Onward(x, w, m, Forget(g), m.(runtimes := m.runtimes - {g}));
  }

  /** Stopping what an operation has left to stop, one generation after the other. */
  lemma {:induction false} StopsAll(x: nat, w: World, m: World, ending: set<Gen>, sweep: bool)
    requires Reaches(x, w, m) && Lookup(m.ops, x) == Some(Stopping(ending, sweep))
    ensures Reaches(x, w, At(Stopped(m, ending), x, Stopping({}, sweep)))
    decreases |ending|
  {
    if ending == {} {
      assert At(Stopped(m, ending), x, Stopping({}, sweep)) == m;
    } else {
      var g :| g in ending;
      Retires(x, w, m, g, ending, sweep);
      var m1 := At(m, x, Stopping(ending - {g}, sweep)).(retired := m.retired + {g});
      Forgets(x, w, m1, g);
      var m2 := m1.(runtimes := m1.runtimes - {g});
      StopsAll(x, w, m2, ending - {g}, sweep);
      assert At(Stopped(m2, ending - {g}), x, Stopping({}, sweep)) == At(Stopped(m, ending), x, Stopping({}, sweep));
    }
  }

  // ----- Rebuilds and permission swaps -----

  /** The world with one more generation built, registered and captured by x. */
  function RegisteredBy(w: World, x: nat, g: Gen): World {
    var topology := w.subsystems[g.cluster := g];
    At(w, x, Captured(Some(g), Lookup(w.subsystems, g.cluster), topology)).(built := w.built + 1, subsystems := topology)
  }

  lemma BuildsFirst(w: World, x: nat, c: string, expected: Option<Gen>)
    requires x !in w.ops && c != "" && (expected.Some? ==> Lookup(w.subsystems, c) == expected)
    ensures Reaches(x, w, At(w, x, Built(Gen(c, w.built), expected)).(built := w.built + 1))
  {
    Stay(x, w);
    Starts(x, w, w, c, expected);
    var m := At(w, x, Building(c, expected));
    Builds(x, w, m, c, expected);
    assert At(m, x, Built(Gen(c, m.built), expected)).(built := m.built + 1) == At(w, x, Built(Gen(c, w.built), expected)).(built := w.built + 1);
  }

  lemma Registers(w: World, x: nat, c: string, expected: Option<Gen>)
    requires x !in w.ops && c != "" && (expected.Some? ==> Lookup(w.subsystems, c) == expected)
    ensures Reaches(x, w, RegisteredBy(w, x, Gen(c, w.built)))
  {
    var g, previous := Gen(c, w.built), Lookup(w.subsystems, c);
    BuildsFirst(w, x, c, expected);
    var w1 := w.(built := w.built + 1);
    assert At(w, x, Built(g, expected)).(built := w.built + 1) == At(w1, x, Built(g, expected));
    Accepts(x, w, At(w1, x, Built(g, expected)), g, expected);
    assert At(At(w1, x, Built(g, expected)), x, Ready(g)) == At(w1, x, Ready(g));
    Reads(x, w, At(w1, x, Ready(g)), g);
    assert At(At(w1, x, Ready(g)), x, Registering(g, previous)) == At(w1, x, Registering(g, previous));
    Sets(x, w, At(w1, x, Registering(g, previous)), g, previous);
    var w2 := w1.(subsystems := w.subsystems[c := g]);
    assert At(At(w1, x, Registering(g, previous)), x, Registered(Some(g), previous)).(subsystems := w.subsystems[c := g])
           == At(w2, x, Registered(Some(g), previous));
    Captures(x, w, At(w2, x, Registered(Some(g), previous)), Some(g), previous);
    assert At(At(w2, x, Registered(Some(g), previous)), x, Captured(Some(g), previous, w2.subsystems)) == RegisteredBy(w, x, g);
  }

  lemma RoutesAndCommits(w: World, m: World, x: nat, g: Gen, previous: Option<Gen>)
    requires Reaches(x, w, m) && Lookup(m.ops, x) == Some(Captured(Some(g), previous, m.subsystems))
    ensures Reaches(x, w, At(m, x, Stopping(OptionSet(previous), false)).(routes := Some(m.subsystems),
                                runtimes := m.runtimes + {g}, condemned := m.condemned + OptionSet(previous)))
  {
    var topology, ending := m.subsystems, OptionSet(previous);
    var m2 := At(m, x, Committing({g}, ending)).(routes := Some(topology), condemned := m.condemned + ending);
    if m.routes.Some? {
      Routes(x, w, m, g, previous, topology);
    } else {
      Bootstraps(x, w, m, g, previous, topology);
      var m1 := At(m, x, Publishing(g, previous, topology)).(routes := Some(topology));
      Publishes(x, w, m1, g, previous, topology);
      assert At(m1, x, Committing({g}, ending)).(subsystems := topology, condemned := m1.condemned + ending) == m2;
    }
    Commits(x, w, m2, {g}, ending);
    assert At(m2, x, Stopping(ending, false)).(runtimes := m2.runtimes + {g})
           == At(m, x, Stopping(ending, false)).(routes := Some(topology), runtimes := m.runtimes + {g}, condemned := m.condemned + ending);
  }

  /** A rebuild that nothing fails registers, routes and commits a new generation and stops the one it
      replaces. So does a permission swap whose expected generation is the registered one. */
  lemma RebuildAlone(w: World, x: nat, c: string, expected: Option<Gen>)
    requires x !in w.ops && c != "" && (expected.Some? ==> Lookup(w.subsystems, c) == expected)
    ensures var g, previous := Gen(c, w.built), OptionSet(Lookup(w.subsystems, c));
            var topology := w.subsystems[c := g];
            Reaches(x, w, w.(subsystems := topology, routes := Some(topology), runtimes := (w.runtimes + {g}) - previous,
                             condemned := w.condemned + previous, retired := w.retired + previous, built := w.built + 1,
                             ops := w.ops[x := Stopping({}, false)]))
  {
    var g, previous := Gen(c, w.built), Lookup(w.subsystems, c);
    Registers(w, x, c, expected);
    var m := RegisteredBy(w, x, g);
    RoutesAndCommits(w, m, x, g, previous);
    var m1 := At(m, x, Stopping(OptionSet(previous), false)).(routes := Some(m.subsystems),
                 runtimes := m.runtimes + {g}, condemned := m.condemned + OptionSet(previous));
    StopsAll(x, w, m1, OptionSet(previous), false);
    assert m1.ops[x := Stopping({}, false)] == w.ops[x := Stopping({}, false)];
  }

  /** One whose routing fails puts back the map it found and stops only the generation it built. */
  lemma FailedRebuildAlone(w: World, x: nat, c: string)
    requires x !in w.ops && c != "" && Gen(c, w.built) !in w.runtimes
    ensures Reaches(x, w, w.(condemned := w.condemned + {Gen(c, w.built)}, retired := w.retired + {Gen(c, w.built)}, built := w.built + 1,
                             ops := w.ops[x := Stopping({}, false)]))
  {
    var g, previous := Gen(c, w.built), Lookup(w.subsystems, c);
    Registers(w, x, c, None);
    var m := RegisteredBy(w, x, g);
    Fails(x, w, m, g, previous, m.subsystems);
    var m1 := At(m, x, Restoring(g, previous));
    Restores(x, w, m1, g, previous);
    assert WithEntry(w.subsystems[c := g], c, previous) == w.subsystems;
    var m2 := At(w, x, Stopping({g}, false)).(built := w.built + 1, condemned := w.condemned + {g});
    assert At(m1, x, Stopping({g}, false)).(subsystems := w.subsystems, condemned := m1.condemned + {g}) == m2;
    StopsAll(x, w, m2, {g}, false);
    assert w.runtimes - {g} == w.runtimes;
    assert m2.ops[x := Stopping({}, false)] == w.ops[x := Stopping({}, false)];
  }

  /** One that is refused before it registers anything stops only the generation it built, and one that
      cannot build does nothing. */
  lemma RefusedAlone(w: World, x: nat, c: string, expected: Option<Gen>)
    requires x !in w.ops && c != "" && (expected.Some? ==> Lookup(w.subsystems, c) == expected) && Gen(c, w.built) !in w.runtimes
    ensures Reaches(x, w, w.(condemned := w.condemned + {Gen(c, w.built)}, retired := w.retired + {Gen(c, w.built)}, built := w.built + 1,
                             ops := w.ops[x := Stopping({}, false)]))
    ensures Reaches(x, w, w)
  {
    var g := Gen(c, w.built);
    BuildsFirst(w, x, c, expected);
    var m := At(w, x, Built(g, expected)).(built := w.built + 1);
    Rejects(x, w, m, g);
    var m1 := At(w, x, Stopping({g}, false)).(built := w.built + 1, condemned := w.condemned + {g});
    assert At(m, x, Stopping({g}, false)).(condemned := m.condemned + {g}) == m1;
    StopsAll(x, w, m1, {g}, false);
    assert w.runtimes - {g} == w.runtimes;
    assert m1.ops[x := Stopping({}, false)] == w.ops[x := Stopping({}, false)];
    Stay(x, w);
    Starts(x, w, w, c, expected);
    Abandons(x, w, At(w, x, Building(c, expected)));
  }

  // ----- Teardowns -----

  lemma TearsDown(x: nat, w: World, c: string)
    requires x !in w.ops && c in w.subsystems
    ensures Reaches(x, w, At(w, x, Captured(None, Some(w.subsystems[c]), w.subsystems - {c})).(subsystems := w.subsystems - {c}))
  {
    var g, rest := w.subsystems[c], w.subsystems - {c};
    var m := At(w, x, Registered(None, Some(g))).(subsystems := rest);
    Stay(x, w);
    Onward(x, w, w, TearDown(x, c), m);
    Captures(x, w, m, None, Some(g));
    assert At(m, x, Captured(None, Some(g), rest)) == At(w, x, Captured(None, Some(g), rest)).(subsystems := rest);
  }

  lemma Unroutes(x: nat, w: World, m: World, g: Gen, rest: Topology, updates: bool)
    requires Reaches(x, w, m) && Lookup(m.ops, x) == Some(Captured(None, Some(g), rest))
    ensures Reaches(x, w, At(m, x, Stopping({g}, false)).(routes := if updates && m.routes.Some? then Some(rest) else m.routes,
                                                          condemned := m.condemned + {g}))
  {
    Onward(x, w, m, if updates then Route(x, false) else IgnoreFailure(x),
           At(m, x, Stopping({g}, false)).(routes := if updates && m.routes.Some? then Some(rest) else m.routes, condemned := m.condemned + {g}));
  }

  /** A teardown unregisters the cluster's generation, routes what is left if anything is routed and its
      update does not fail, and stops that generation. */
  lemma TeardownAlone(w: World, x: nat, c: string, updates: bool)
    requires x !in w.ops && c in w.subsystems
    ensures var g, rest := w.subsystems[c], w.subsystems - {c};
            Reaches(x, w, w.(subsystems := rest, routes := if updates && w.routes.Some? then Some(rest) else w.routes,
                             runtimes := w.runtimes - {g}, condemned := w.condemned + {g}, retired := w.retired + {g},
                             ops := w.ops[x := Stopping({}, false)]))
  {
    var g, rest := w.subsystems[c], w.subsystems - {c};
    TearsDown(x, w, c);
    var m := At(w, x, Captured(None, Some(g), rest)).(subsystems := rest);
    Unroutes(x, w, m, g, rest, updates);
    var m1 := At(m, x, Stopping({g}, false)).(routes := if updates && m.routes.Some? then Some(rest) else m.routes, condemned := m.condemned + {g});
    StopsAll(x, w, m1, {g}, false);
    assert m1.ops[x := Stopping({}, false)] == w.ops[x := Stopping({}, false)];
  }

  /** A teardown of a cluster that is not registered stops whatever still runs for it. */
  lemma UnregisteredTeardownAlone(w: World, x: nat, c: string)
    requires x !in w.ops && c !in w.subsystems
    ensures var running := set g | g in w.runtimes && g.cluster == c;
            Reaches(x, w, w.(runtimes := w.runtimes - running, condemned := w.condemned + running, retired := w.retired + running,
                             ops := w.ops[x := Stopping({}, false)]))
  {
    var running := RunningFor(w.runtimes, c);
    Stay(x, w);
    assert w.subsystems - {c} == w.subsystems;
    var m := At(w, x, Stopping(running, false)).(condemned := w.condemned + running);
    Onward(x, w, w, TearDown(x, c), m);
    StopsAll(x, w, m, running, false);
    assert m.ops[x := Stopping({}, false)] == w.ops[x := Stopping({}, false)];
  }

  lemma Unpublishes(x: nat, w: World)
    requires Reaches(x, w, At(w, x, Unpublishing))
    ensures Reaches(x, w, At(w, x, Unrouted).(routes := None))
  {
    Onward(x, w, At(w, x, Unpublishing), Unpublish(x), At(w, x, Unrouted).(routes := None));
  }

  lemma Clears(x: nat, w: World)
    requires x !in w.ops
    ensures var registered := Values(w.subsystems);
            Reaches(x, w, At(w, x, Stopping(registered, true)).(subsystems := map[], routes := None, condemned := w.condemned + registered))
  {
    var registered := Values(w.subsystems);
    Stay(x, w);
    Onward(x, w, w, StartTeardown(x), At(w, x, Unpublishing));
    Unpublishes(x, w);
    Onward(x, w, At(w, x, Unrouted).(routes := None), Clear(x),
           At(w, x, Stopping(registered, true)).(subsystems := map[], routes := None, condemned := w.condemned + registered));
  }

  lemma Sweeps(x: nat, w: World, m: World)
    requires Reaches(x, w, m) && Lookup(m.ops, x) == Some(Stopping({}, true))
    ensures Reaches(x, w, At(m, x, Stopping({}, false)).(runtimes := {}, condemned := m.condemned + m.runtimes, retired := m.retired + m.runtimes))
  {
    var m1 := At(m, x, Stopping(m.runtimes, false)).(condemned := m.condemned + m.runtimes);
    Onward(x, w, m, Sweep(x), m1);
    StopsAll(x, w, m1, m.runtimes, false);
    assert m1.ops[x := Stopping({}, false)] == m.ops[x := Stopping({}, false)];
    assert m.runtimes - m.runtimes == {};
  }

  /** A global teardown leaves nothing registered, routed or running, and everything that was is retired. */
  lemma GlobalTeardownAlone(w: World, x: nat)
    requires x !in w.ops
    ensures var gone := Values(w.subsystems) + w.runtimes;
            Reaches(x, w, w.(subsystems := map[], routes := None, runtimes := {}, condemned := w.condemned + gone, retired := w.retired + gone,
                             ops := w.ops[x := Stopping({}, false)]))
  {
    var registered := Values(w.subsystems);
    Clears(x, w);
    var m := At(w, x, Stopping(registered, true)).(subsystems := map[], routes := None, condemned := w.condemned + registered);
    StopsAll(x, w, m, registered, true);
    var m1 := At(Stopped(m, registered), x, Stopping({}, true));
    Sweeps(x, w, m1);
    var end := At(m1, x, Stopping({}, false)).(runtimes := {}, condemned := m1.condemned + m1.runtimes, retired := m1.retired + m1.runtimes);
    assert end.ops == w.ops[x := Stopping({}, false)];
    assert registered + (w.runtimes - registered) == registered + w.runtimes;
    assert end.retired == w.retired + (registered + w.runtimes) && end.condemned == w.condemned + (registered + w.runtimes);
  }

  // ----- Selections -----

  /** The first n new clusters with the generations built for them, one after the other. */
  function NewOnes(adds: seq<string>, n: nat, first: nat): Topology
    requires n <= |adds|
  {
    if n == 0 then map[] else NewOnes(adds, n - 1, first)[adds[n - 1] := Gen(adds[n - 1], first + n - 1)]
  }

  function NewGens(adds: seq<string>, n: nat, first: nat): set<Gen>
    requires n <= |adds|
  {
    set i | 0 <= i < n :: Gen(adds[i], first + i)
  }

  lemma {:induction false} NewKeys(adds: seq<string>, n: nat, first: nat)
    requires n <= |adds|
    ensures forall c :: c in NewOnes(adds, n, first) <==> c in adds[..n]
  {
    if n > 0 {
      NewKeys(adds, n - 1, first);
      assert adds[..n] == adds[..n - 1] + [adds[n - 1]];
    }
  }

  function Only(topology: Topology, keep: set<string>): Topology {
    map c | c in keep && c in topology :: topology[c]
  }

  function Keeping(w: World, x: nat, keep: set<string>): World {
    w.(ops := w.ops[x := Selecting(Only(w.subsystems, keep), {})])
  }

  lemma Keeps(w: World, x: nat, keep: set<string>)
    requires x !in w.ops && keep <= w.subsystems.Keys
    ensures Reaches(x, w, Keeping(w, x, keep))
  {
    Stay(x, w);
    Onward(x, w, w, StartSelection(x), Keeping(w, x, {}));
    var rest := keep;
    var done: set<string> := {};
    while rest != {}
      invariant rest + done == keep && rest !! done && Reaches(x, w, Keeping(w, x, done))
    {
      var c :| c in rest;
      KeepsOne(w, x, done, c);
      rest, done := rest - {c}, done + {c};
    }
    assert done == keep;
  }

  lemma KeepsOne(w: World, x: nat, done: set<string>, c: string)
    requires done <= w.subsystems.Keys && c in w.subsystems && c !in done && Reaches(x, w, Keeping(w, x, done))
    ensures Reaches(x, w, Keeping(w, x, done + {c}))
  {
    assert Only(w.subsystems, done)[c := w.subsystems[c]] == Only(w.subsystems, done + {c});
    Onward(x, w, Keeping(w, x, done), Keep(x, c), Keeping(w, x, done + {c}));
  }

  function Adding(w: World, x: nat, kept: Topology, adds: seq<string>, n: nat): World
    requires n <= |adds|
  {
    At(w, x, Selecting(kept + NewOnes(adds, n, w.built), NewGens(adds, n, w.built))).(built := w.built + n)
  }

  lemma AddsOne(x: nat, w: World, m: World, topology: Topology, added: set<Gen>, c: string)
    requires Reaches(x, w, m) && Lookup(m.ops, x) == Some(Selecting(topology, added)) && c != "" && c !in topology
    ensures var g := Gen(c, m.built);
            Reaches(x, w, At(m, x, Selecting(topology[c := g], added + {g})).(built := m.built + 1))
  {
    var g := Gen(c, m.built);
    Onward(x, w, m, Add(x, c), At(m, x, Selecting(topology[c := g], added + {g})).(built := m.built + 1));
  }

  lemma {:induction false} Adds(w: World, x: nat, kept: Topology, adds: seq<string>, n: nat)
    requires n <= |adds| && Reaches(x, w, Adding(w, x, kept, adds, 0))
    requires (forall i | 0 <= i < |adds| :: adds[i] != "" && adds[i] !in kept) && (forall i, j | 0 <= i < j < |adds| :: adds[i] != adds[j])
    ensures Reaches(x, w, Adding(w, x, kept, adds, n))
  {
    if n > 0 {
      Adds(w, x, kept, adds, n - 1);
      NewKeys(adds, n - 1, w.built);
      AddsLast(w, x, kept, adds, n);
    }
  }

  lemma AddsLast(w: World, x: nat, kept: Topology, adds: seq<string>, n: nat)
    requires 0 < n <= |adds| && Reaches(x, w, Adding(w, x, kept, adds, n - 1))
    requires adds[n - 1] != "" && adds[n - 1] !in kept && adds[n - 1] !in NewOnes(adds, n - 1, w.built)
    ensures Reaches(x, w, Adding(w, x, kept, adds, n))
  {
    AddsOne(x, w, Adding(w, x, kept, adds, n - 1), kept + NewOnes(adds, n - 1, w.built), NewGens(adds, n - 1, w.built), adds[n - 1]);
    AddingMore(w, x, kept, adds, n);
  }

  lemma AddingMore(w: World, x: nat, kept: Topology, adds: seq<string>, n: nat)
    requires 0 < n <= |adds|
    ensures var g := Gen(adds[n - 1], w.built + n - 1);
            At(Adding(w, x, kept, adds, n - 1), x,
               Selecting((kept + NewOnes(adds, n - 1, w.built))[adds[n - 1] := g], NewGens(adds, n - 1, w.built) + {g})).(built := w.built + n)
            == Adding(w, x, kept, adds, n)
  {
    var g := Gen(adds[n - 1], w.built + n - 1);
    assert (kept + NewOnes(adds, n - 1, w.built))[adds[n - 1] := g] == kept + NewOnes(adds, n, w.built);
    assert NewGens(adds, n - 1, w.built) + {g} == NewGens(adds, n, w.built);
  }

  lemma NothingAdded(w: World, x: nat, keep: set<string>, adds: seq<string>)
    ensures Adding(w, x, Only(w.subsystems, keep), adds, 0) == Keeping(w, x, keep)
  {
    var kept := Only(w.subsystems, keep);
    assert kept + NewOnes(adds, 0, w.built) == kept && NewGens(adds, 0, w.built) == {};
  }

  /** What is registered for the clusters that are not kept. */
  function Dropped(topology: Topology, keep: set<string>): set<Gen> {
    set c | c in topology && c !in keep :: topology[c]
  }

  lemma DroppedAre(topology: Topology, keep: set<string>, adds: seq<string>, first: nat)
    requires keep <= topology.Keys && forall i | 0 <= i < |adds| :: adds[i] !in topology
    ensures RemovedBy(topology, Only(topology, keep) + NewOnes(adds, |adds|, first)) == Dropped(topology, keep)
  {
    NewKeys(adds, |adds|, first);
    assert adds[..|adds|] == adds;
  }

  lemma Same(x: nat, w: World, m: World, m': World)
    requires Reaches(x, w, m) && m == m'
    ensures Reaches(x, w, m')
  {
  }

  lemma Selects(w: World, x: nat, keep: set<string>, adds: seq<string>, next: Topology, brought: set<Gen>, m: World)
    requires x !in w.ops && keep <= w.subsystems.Keys && m == At(w, x, Selecting(next, brought)).(built := w.built + |adds|)
    requires (forall i | 0 <= i < |adds| :: adds[i] != "" && adds[i] !in w.subsystems) && (forall i, j | 0 <= i < j < |adds| :: adds[i] != adds[j])
    requires next == Only(w.subsystems, keep) + NewOnes(adds, |adds|, w.built) && brought == NewGens(adds, |adds|, w.built)
    ensures Reaches(x, w, m)
  {
    Keeps(w, x, keep);
    NothingAdded(w, x, keep, adds);
    Same(x, w, Keeping(w, x, keep), Adding(w, x, Only(w.subsystems, keep), adds, 0));
    Adds(w, x, Only(w.subsystems, keep), adds, |adds|);
    Same(x, w, Adding(w, x, Only(w.subsystems, keep), adds, |adds|), m);
  }

  lemma RoutesSelection(x: nat, w: World, m: World, next: Topology, brought: set<Gen>)
    requires Reaches(x, w, m) && Lookup(m.ops, x) == Some(Selecting(next, brought)) && m.routes.Some?
    ensures var dropped := RemovedBy(m.subsystems, next);
            Reaches(x, w, At(m, x, Committing(brought, dropped)).(subsystems := next, routes := Some(next), condemned := m.condemned + dropped))
  {
    var dropped := RemovedBy(m.subsystems, next);
    var m1 := At(m, x, Replacing(next, brought, false)).(routes := Some(next));
    Onward(x, w, m, Route(x, false), m1);
    Onward(x, w, m1, Replace(x), At(m, x, Committing(brought, dropped)).(subsystems := next, routes := Some(next), condemned := m.condemned + dropped));
  }

  lemma ReplacesAll(w: World, m: World, x: nat, next: Topology, brought: set<Gen>, dropped: set<Gen>)
    requires Reaches(x, w, m) && Lookup(m.ops, x) == Some(Selecting(next, brought)) && m.routes.Some?
    requires dropped == RemovedBy(m.subsystems, next)
    ensures Reaches(x, w, m.(subsystems := next, routes := Some(next), runtimes := (m.runtimes + brought) - dropped,
                             condemned := m.condemned + dropped, retired := m.retired + dropped, ops := m.ops[x := Stopping({}, false)]))
  {
    RoutesSelection(x, w, m, next, brought);
    var m1 := At(m, x, Committing(brought, dropped)).(subsystems := next, routes := Some(next), condemned := m.condemned + dropped);
    Commits(x, w, m1, brought, dropped);
    var m2 := At(m1, x, Stopping(dropped, false)).(runtimes := m1.runtimes + brought);
    StopsAll(x, w, m2, dropped, false);
    assert m2.ops[x := Stopping({}, false)] == m.ops[x := Stopping({}, false)];
  }

  lemma FinishesSelection(w: World, x: nat, next: Topology, brought: set<Gen>, dropped: set<Gen>, n: nat, m: World, end: World)
    requires Reaches(x, w, m) && m == At(w, x, Selecting(next, brought)).(built := w.built + n) && w.routes.Some?
    requires dropped == RemovedBy(w.subsystems, next)
    requires end == w.(subsystems := next, routes := Some(next), runtimes := (w.runtimes + brought) - dropped,
                       condemned := w.condemned + dropped, retired := w.retired + dropped, built := w.built + n,
                       ops := w.ops[x := Stopping({}, false)])
    ensures Reaches(x, w, end)
  {
    ReplacesAll(w, m, x, next, brought, dropped);
    assert m.ops[x := Stopping({}, false)] == w.ops[x := Stopping({}, false)];
  }

  /** A selection update that keeps one set of clusters and adds a generation for each of a list of new
      ones routes and registers exactly those, commits the new ones and stops what it drops. */
  lemma SelectionAlone(w: World, x: nat, keep: set<string>, adds: seq<string>, next: Topology, brought: set<Gen>, dropped: set<Gen>, end: World)
    requires x !in w.ops && keep <= w.subsystems.Keys && w.routes.Some?
    requires (forall i | 0 <= i < |adds| :: adds[i] != "" && adds[i] !in w.subsystems) && (forall i, j | 0 <= i < j < |adds| :: adds[i] != adds[j])
    requires next == Only(w.subsystems, keep) + NewOnes(adds, |adds|, w.built) && brought == NewGens(adds, |adds|, w.built)
    requires dropped == Dropped(w.subsystems, keep)
    requires end == w.(subsystems := next, routes := Some(next), runtimes := (w.runtimes + brought) - dropped,
                       condemned := w.condemned + dropped, retired := w.retired + dropped, built := w.built + |adds|,
                       ops := w.ops[x := Stopping({}, false)])
    ensures Reaches(x, w, end)
  {
    var m := At(w, x, Selecting(next, brought)).(built := w.built + |adds|);
    Selects(w, x, keep, adds, next, brought, m);
    assert dropped == RemovedBy(w.subsystems, next) by {
      DroppedAre(w.subsystems, keep, adds, w.built);
    }
    FinishesSelection(w, x, next, brought, dropped, |adds|, m, end);
  }

  /** A selection whose start or routing fails stops what it has built and leaves map and routes alone. */
  lemma FailedSelectionAlone(w: World, m: World, x: nat, topology: Topology, added: set<Gen>)
    requires Reaches(x, w, m) && Lookup(m.ops, x) == Some(Selecting(topology, added))
    ensures Reaches(x, w, m.(runtimes := m.runtimes - added, condemned := m.condemned + added, retired := m.retired + added,
                             ops := m.ops[x := Stopping({}, false)]))
  {
    var m1 := At(m, x, Stopping(added, false)).(condemned := m.condemned + added);
    Onward(x, w, m, RouteFails(x), m1);
    StopsAll(x, w, m1, added, false);
    assert m1.ops[x := Stopping({}, false)] == m.ops[x := Stopping({}, false)];
  }

  /** A set-up publishes and registers what it has built, commits it, and stops nothing of what was
      registered before; one that built nothing empties the map. */
  lemma SetUpAlone(w: World, m: World, x: nat, topology: Topology, added: set<Gen>)
    requires Reaches(x, w, m) && Lookup(m.ops, x) == Some(Selecting(topology, added))
    ensures Reaches(x, w, m.(subsystems := topology, routes := Some(topology), runtimes := m.runtimes + added,
                             ops := m.ops[x := Stopping({}, false)]))
    ensures topology == map[] && added == {} ==> Reaches(x, w, m.(subsystems := map[], ops := m.ops - {x}))
  {
    var m1 := At(m, x, Replacing(topology, added, true)).(routes := Some(topology));
    Onward(x, w, m, Route(x, true), m1);
    var m2 := At(m, x, Committing(added, {})).(subsystems := topology, routes := Some(topology));
    Onward(x, w, m1, Replace(x), m2);
    Commits(x, w, m2, added, {});
    assert At(m2, x, Stopping({}, false)).(runtimes := m2.runtimes + added)
           == m.(subsystems := topology, routes := Some(topology), runtimes := m.runtimes + added, ops := m.ops[x := Stopping({}, false)]);
    if topology == map[] && added == {} {
      Onward(x, w, m, SetUpNothing(x), m.(subsystems := map[], ops := m.ops - {x}));
    }
  }

  // ----- Closers -----

  /** Cooling a generation registers one new closer for each of its mapped files. */
  lemma CoolingAlone(w: World, x: nat, g: Gen, files: nat)
    requires g.serial < w.built
    ensures var added := set i | w.mapped <= i < w.mapped + files :: Closer(g, i);
            Reaches(x, w, w.(runtimes := w.runtimes - {g}, cooled := w.cooled + added, mapped := w.mapped + files))
  {
    var added := set i | w.mapped <= i < w.mapped + files :: Closer(g, i);
    assert added == ClosersBetween(g, w.mapped, files);
    Stay(x, w);
    Forgets(x, w, w, g);
    var m := w.(runtimes := w.runtimes - {g});
    Onward(x, w, m, AddClosers(g, files), m.(cooled := w.cooled + added, mapped := w.mapped + files));
  }

  lemma Takes(x: nat, w: World, g: Gen)
    requires g in w.retired
    ensures var closers := set c | c in w.cooled && c.gen == g;
            Reaches(x, w, w.(cooled := w.cooled - closers, taken := w.taken + closers))
  {
    var closers := set c | c in w.cooled && c.gen == g;
    assert closers == ClosersOf(w.cooled, g);
    Stay(x, w);
    Onward(x, w, w, TakeClosers(g), w.(cooled := w.cooled - closers, taken := w.taken + closers));
  }

  /** Closers in hand are run one after the other. */
  lemma {:induction false} RunsAll(x: nat, w: World, m: World, closers: set<Closer>)
    requires Reaches(x, w, m) && closers <= m.taken
    ensures Reaches(x, w, m.(taken := m.taken - closers, closes := m.closes + multiset(closers)))
    decreases |closers|
  {
    if closers == {} {
      assert m.(taken := m.taken - closers, closes := m.closes + multiset(closers)) == m;
    } else {
      var c :| c in closers;
      var m1 := m.(taken := m.taken - {c}, closes := m.closes[c := m.closes[c] + 1]);
      Onward(x, w, m, RunCloser(c), m1);
      RunsAll(x, w, m1, closers - {c});
      assert m1.taken - (closers - {c}) == m.taken - closers;
      assert m1.closes + multiset(closers - {c}) == m.closes + multiset(closers);
    }
  }

  /** Once a generation is retired all its closers are run, each once, and none stays registered. */
  lemma ClosersAlone(w: World, x: nat, g: Gen)
    requires g in w.retired && w.taken == {}
    ensures var closers := set c | c in w.cooled && c.gen == g;
            Reaches(x, w, w.(cooled := w.cooled - closers, closes := w.closes + multiset(closers)))
  {
    var closers := set c | c in w.cooled && c.gen == g;
    Takes(x, w, g);
    var m := w.(cooled := w.cooled - closers, taken := w.taken + closers);
    RunsAll(x, w, m, closers);
    assert m.taken - closers == {};
  }
}
