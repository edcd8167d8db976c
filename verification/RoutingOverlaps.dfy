/** Overlaps of refresh operations that route a retired generation or replace a newer one. */
module RoutingOverlaps {
  import opened Wrappers
  import opened RefreshTopology
  import opened RoutingInterleavings

  datatype Script = Done | First(event: Event, rest: Script)

  function Run(w: World, script: Script): (end: Option<World>)
    decreases script
  {
    match script
    case Done => Some(w)
    case First(e, rest) => if Enabled(w, e) then Run(Next(w, e), rest) else None
  }

  ghost predicate Ends(w: World, script: Script, goal: World -> bool) {
    var end := Run(w, script);
    end.Some? && goal(end.value)
  }

  function RoutesRetired(g: Gen): World -> bool {
    (w: World) => Routed(w, g) && g in w.retired
  }

  lemma EndsLater(w: World, e: Event, w': World, rest: Script, goal: World -> bool)
    requires Enabled(w, e) && w' == Next(w, e) && Ends(w', rest, goal)
    ensures Ends(w, First(e, rest), goal)
  {
  }

  /** x has captured the generation, and would route it or give up. */
  ghost predicate Holds(w: World, x: nat, g: Gen) {
    x in w.ops && w.ops[x].Captured? && w.ops[x].target.Some? && g in Values(w.ops[x].topology) && w.routes.Some?
  }

  function StopThenRoute(x: nat, y: nat, g: Gen): Script {
    First(Retire(y, g), First(Route(x, false), Done))
  }

  lemma StaleRouteEnds(w: World, x: nat, y: nat, g: Gen)
    requires Holds(w, x, g) && x != y && y in w.ops && w.ops[y].Stopping? && g in w.ops[y].ending
    ensures Ends(w, StopThenRoute(x, y, g), RoutesRetired(g))
  {
    var w1 := Next(w, Retire(y, g));
    var w2 := Next(w1, Route(x, false));
    assert Ends(w2, Done, RoutesRetired(g));
    EndsLater(w1, Route(x, false), w2, Done, RoutesRetired(g));
    EndsLater(w, Retire(y, g), w1, First(Route(x, false), Done), RoutesRetired(g));
  }

  function TeardownScript(x: nat, y: nat, a: string, g: Gen): Script {
    First(TearDown(y, a), First(Capture(y), First(Route(y, false), StopThenRoute(x, y, g))))
  }

  lemma TeardownOvertakes(w: World, x: nat, y: nat, a: string, g: Gen)
    requires Holds(w, x, g) && y !in w.ops && Lookup(w.subsystems, a) == Some(g)
    ensures Ends(w, TeardownScript(x, y, a, g), RoutesRetired(g))
  {
    var w1 := Next(w, TearDown(y, a));
    var w2 := Next(w1, Capture(y));
    var w3 := Next(w2, Route(y, false));
    StaleRouteEnds(w3, x, y, g);
    EndsLater(w2, Route(y, false), w3, StopThenRoute(x, y, g), RoutesRetired(g));
    EndsLater(w1, Capture(y), w2, First(Route(y, false), StopThenRoute(x, y, g)), RoutesRetired(g));
    EndsLater(w, TearDown(y, a), w1, First(Capture(y), First(Route(y, false), StopThenRoute(x, y, g))), RoutesRetired(g));
  }

  /** What an activation does up to setting its generation, and up to its capture. */
  function AfterSet(w: World, x: nat, next: Gen): World {
    w.(subsystems := w.subsystems[next.cluster := next], ops := w.ops[x := Registered(Some(next), Lookup(w.subsystems, next.cluster))])
  }

  function AfterRegister(w: World, x: nat, next: Gen): World {
    var topology := w.subsystems[next.cluster := next];
    w.(subsystems := topology, ops := w.ops[x := Captured(Some(next), Lookup(w.subsystems, next.cluster), topology)])
  }

  function SetScript(x: nat, rest: Script): Script {
    First(ReadPrevious(x), First(SetNext(x), rest))
  }

  function RegisterScript(x: nat, rest: Script): Script {
    SetScript(x, First(Capture(x), rest))
  }

  lemma SetRuns(w: World, x: nat, next: Gen, rest: Script, goal: World -> bool)
    requires x in w.ops && w.ops[x] == Ready(next) && Ends(AfterSet(w, x, next), rest, goal)
    ensures Ends(w, SetScript(x, rest), goal)
  {
    var w1 := Next(w, ReadPrevious(x));
    var w2 := Next(w1, SetNext(x));
    assert w2 == AfterSet(w, x, next);
    EndsLater(w1, SetNext(x), w2, rest, goal);
    EndsLater(w, ReadPrevious(x), w1, First(SetNext(x), rest), goal);
  }

  lemma RegisterRuns(w: World, x: nat, next: Gen, rest: Script, goal: World -> bool)
    requires x in w.ops && w.ops[x] == Ready(next) && Ends(AfterRegister(w, x, next), rest, goal)
    ensures Ends(w, RegisterScript(x, rest), goal)
  {
    var w2 := AfterSet(w, x, next);
    assert Next(w2, Capture(x)) == AfterRegister(w, x, next);
    EndsLater(w2, Capture(x), AfterRegister(w, x, next), rest, goal);
    SetRuns(w, x, next, First(Capture(x), rest), goal);
  }

  /** Two clusters: an activation captures the map, a teardown of the other cluster goes all the way,
      the activation routes its copy. */
  lemma OverlapRoutesRetired(w: World, x: nat, y: nat, next: Gen, a: string)
    requires x in w.ops && w.ops[x] == Ready(next) && y !in w.ops && w.routes.Some?
    requires a in w.subsystems && a != next.cluster
    ensures Ends(w, RegisterScript(x, TeardownScript(x, y, a, w.subsystems[a])), RoutesRetired(w.subsystems[a]))
  {
    var g, captured := w.subsystems[a], AfterRegister(w, x, next);
    assert a in captured.ops[x].topology && captured.ops[x].topology[a] == g;
    TeardownOvertakes(captured, x, y, a, g);
    RegisterRuns(w, x, next, TeardownScript(x, y, a, g), RoutesRetired(g));
  }

  /** One cluster: a second rebuild takes the first one's generation for the previous one, routes its own
      and stops the other; then the first rebuild routes its copy. */
  function SecondScript(x: nat, y: nat, g: Gen): Script {
    RegisterScript(y, First(Route(y, false), First(Commit(y), StopThenRoute(x, y, g))))
  }

  lemma SecondOvertakes(w: World, x: nat, y: nat, next: Gen, g: Gen)
    requires Holds(w, x, g) && x != y && y in w.ops && w.ops[y] == Ready(next) && Lookup(w.subsystems, next.cluster) == Some(g)
    ensures Ends(w, SecondScript(x, y, g), RoutesRetired(g))
  {
    var w1 := AfterRegister(w, y, next);
    var w2 := Next(w1, Route(y, false));
    var w3 := Next(w2, Commit(y));
    StaleRouteEnds(w3, x, y, g);
    EndsLater(w2, Commit(y), w3, StopThenRoute(x, y, g), RoutesRetired(g));
    EndsLater(w1, Route(y, false), w2, First(Commit(y), StopThenRoute(x, y, g)), RoutesRetired(g));
    RegisterRuns(w, y, next, First(Route(y, false), First(Commit(y), StopThenRoute(x, y, g))), RoutesRetired(g));
  }

  lemma SameClusterRoutesRetired(w: World, x: nat, y: nat, first: Gen, second: Gen)
    requires x != y && x in w.ops && y in w.ops && w.routes.Some?
    requires w.ops[x] == Ready(first) && w.ops[y] == Ready(second) && first.cluster == second.cluster
    ensures Ends(w, RegisterScript(x, SecondScript(x, y, first)), RoutesRetired(first))
  {
    var captured := AfterRegister(w, x, first);
    assert captured.subsystems[first.cluster] == first && first.cluster in captured.subsystems;
    SecondOvertakes(captured, x, y, second, first);
    RegisterRuns(w, x, first, SecondScript(x, y, first), RoutesRetired(first));
  }

  /** The swap has replaced `newer` and will stop it. */
  function Replaced(x: nat, swapped: Gen, newer: Gen): World -> bool {
    (w: World) => Lookup(w.ops, x) == Some(Registered(Some(swapped), Some(newer))) && Lookup(w.subsystems, swapped.cluster) == Some(swapped)
  }

  /** A permission swap whose last look at the expected generation succeeded replaces a newer one. */
  lemma SwapReplacesNewer(w: World, x: nat, y: nat, swapped: Gen, newer: Gen, expected: Gen)
    requires x != y && x in w.ops && y in w.ops && newer != expected && newer.cluster == swapped.cluster
    requires w.ops[x] == Built(swapped, Some(expected)) && w.ops[y] == Ready(newer)
    requires Lookup(w.subsystems, swapped.cluster) == Some(expected)
    ensures Ends(w, First(Accept(x), SetScript(y, SetScript(x, Done))), Replaced(x, swapped, newer))
  {
    var w1 := Next(w, Accept(x));
    var w2 := AfterSet(w1, y, newer);
    assert w2.ops[x] == Ready(swapped) && Lookup(w2.subsystems, swapped.cluster) == Some(newer);
    assert Ends(AfterSet(w2, x, swapped), Done, Replaced(x, swapped, newer));
    SetRuns(w2, x, swapped, Done, Replaced(x, swapped, newer));
    SetRuns(w1, y, newer, SetScript(x, Done), Replaced(x, swapped, newer));
    EndsLater(w, Accept(x), w1, SetScript(y, SetScript(x, Done)), Replaced(x, swapped, newer));
  }
}
