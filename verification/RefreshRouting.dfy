/**
 Routing, retiring and closing of refresh generations: backend/cluster_auth_contract.go,
 backend/refresh_auth.go, backend/refresh_update.go, backend/refresh_spill.go,
 backend/refresh_recovery.go, backend/refresh_subsystems.go, backend/refresh_setup.go.

 A generation that the aggregate snapshot service routes to must be able to serve: its serving must
 not be retired and none of its mmap closers may have run. The class records what was routed,
 retired and closed after every single step, and every operation keeps the whole record clean.
 */
module RefreshRouting {
  import opened Wrappers
  import opened RefreshTopology

  datatype Trace = Empty | Then(earlier: Trace, view: View)

  /** Safe after every recorded step. */
  ghost predicate Clean(trace: Trace) {
    match trace
    case Empty => true
    case Then(earlier, view) => Clean(earlier) && Safe(view)
  }

  function ClosersOfAll(closers: set<Closer>, gens: set<Gen>): set<Closer> {
    set c | c in closers && c.gen in gens
  }

  /** How building the subsystem of a selected cluster goes. */
  datatype BuildResult = Builds | NotUsable | BuildFails

  /** The bookkeeping of running, retired and mapped generations. */
  datatype Ledger = Ledger(runtimes: set<Gen>, retired: set<Gen>, cooledClosers: set<Closer>, closed: set<Closer>)

  /** Stopping generations retires them and runs every closer still registered for them. */
  function Stopping(l: Ledger, gens: set<Gen>): Ledger {
    var closers := ClosersOfAll(l.cooledClosers, gens);
    Ledger(l.runtimes - gens, l.retired + gens, l.cooledClosers - closers, l.closed + closers)
  }

  /** A stopped generation runs no more, is retired, and every closer that waited for it has run; nothing
      changes for any other generation, and no closer is lost or run without having waited. */
  lemma StoppingMeaning(l: Ledger, gens: set<Gen>, gen: Gen, c: Closer)
    ensures var after := Stopping(l, gens);
            && (gen in after.runtimes <==> gen in l.runtimes && gen !in gens)
            && (gen in after.retired <==> gen in l.retired || gen in gens)
            && (c in after.cooledClosers <==> c in l.cooledClosers && c.gen !in gens)
            && (c in after.closed <==> c in l.closed || (c in l.cooledClosers && c.gen in gens))
  {
  }

  lemma StoppingMore(l: Ledger, gens: set<Gen>, gen: Gen)
    ensures Stopping(Stopping(l, gens), {gen}) == Stopping(l, gens + {gen})
  {
  }

  /** One closer of this generation for each of the next files. */
  lemma ClosersBetweenMeaning(gen: Gen, first: nat, count: nat, c: Closer)
    ensures c in ClosersBetween(gen, first, count) <==> c.gen == gen && first <= c.index < first + count
  {
    assert c == Closer(c.gen, c.index);
  }

  /** Each cluster maps to a generation of its own. */
  ghost predicate WellKeyed(topology: Topology) {
    forall c | c in topology :: c != "" && topology[c].cluster == c
  }

  function PreviousOf(topology: Topology, cluster: string): set<Gen> {
    if cluster in topology then {topology[cluster]} else {}
  }

  ghost predicate Listed(topology: Topology, gen: Gen) {
    gen.cluster in topology && topology[gen.cluster] == gen
  }

  /** Every registered generation was committed and runs, unless it was cooled; nothing runs that is not
      registered or about to be stopped. */
  ghost predicate AllRun(topology: Topology, runtimes: set<Gen>, cooled: set<Gen>, leaving: set<Gen>) {
    && (forall c | c in topology :: topology[c] in runtimes || topology[c] in cooled)
    && (forall g | g in runtimes :: Listed(topology, g) || g in leaving)
  }

  lemma ReplacementRuns(topology: Topology, next: Gen, runtimes: set<Gen>, cooled: set<Gen>)
    requires AllRun(topology, runtimes, cooled, {})
    ensures AllRun(topology[next.cluster := next], runtimes + {next}, cooled, PreviousOf(topology, next.cluster))
  {
  }

  lemma DepartureRuns(topology: Topology, cluster: string, runtimes: set<Gen>, cooled: set<Gen>)
    requires AllRun(topology, runtimes, cooled, {})
    ensures AllRun(topology - {cluster}, runtimes, cooled, PreviousOf(topology, cluster))
  {
  }

  lemma SelectionRuns(topology: Topology, next: Topology, started: set<Gen>, runtimes: set<Gen>, cooled: set<Gen>)
    requires AllRun(topology, runtimes, cooled, {}) && WellKeyed(next) && started <= next.Values
    requires forall c | c in next :: next[c] in started || Listed(topology, next[c])
    requires forall c | c in topology && c in next :: next[c] == topology[c]
    ensures AllRun(next, runtimes + started, cooled, RemovedBy(topology, next))
  {
    forall g | g in started ensures Listed(next, g) {
      assert g in next.Values;
    }
  }

  lemma SetupRuns(topology: Topology, next: Topology, runtimes: set<Gen>, cooled: set<Gen>)
    requires AllRun(topology, runtimes, cooled, {}) && WellKeyed(next)
    ensures AllRun(next, runtimes + next.Values, cooled, topology.Values)
  {
  }

  class RefreshCoordinator {
    var subsystems: Topology
    var routes: Option<Topology>       // what the aggregates route to; None while nothing is published
    var clients: map<string, nat>
    var runtimes: set<Gen>             // committed generations that were not stopped
    var cooledClosers: set<Closer>
    var retired: set<Gen>
    var closed: set<Closer>
    ghost var cooled: set<Gen>         // serve from mapped files, their producers stopped
    var built: nat
    var mapped: nat                    // mmap closers created so far
    ghost var trace: Trace

    ghost function Now(): View
      reads this
    {
      View(Published(routes), retired, closed)
    }

    ghost function Books(): Ledger
      reads this
    {
      Ledger(runtimes, retired, cooledClosers, closed)
    }

    /** What is routed is in the topology, which is empty while nothing is published. */
    ghost predicate RoutesWithin(topology: Topology)
      reads this
    {
      match routes
      case None => topology == map[]
      case Some(routed) => forall c | c in routed :: c in topology && topology[c] == routed[c]
    }

    /** A closer is registered until it runs, for a generation that serves or is being stopped. */
    ghost predicate ClosersPending(topology: Topology, leaving: set<Gen>)
      reads this
    {
      cooledClosers !! closed && forall c | c in cooledClosers :: Listed(topology, c.gen) || c.gen in leaving
    }

    ghost predicate KnownOnly(topology: Topology, leaving: set<Gen>)
      reads this
    {
      && (forall g | g in retired || g in runtimes :: g.serial < built)
      && (forall c | c in topology :: topology[c].serial < built)
      && (forall c | c in closed || c in cooledClosers :: c.gen.serial < built && c.index < mapped)
      && (forall g | g in leaving :: !Listed(topology, g) && g.serial < built)
    }

    /** The generations of the topology can serve, and only those in `leaving` have to be stopped. */
    ghost predicate Serving(topology: Topology, leaving: set<Gen>)
      reads this
    {
      && WellKeyed(topology)
      && (forall c | c in topology :: Servable(topology[c], retired, closed))
      && ClosersPending(topology, leaving)
      && KnownOnly(topology, leaving)
    }

    ghost predicate Running(topology: Topology, leaving: set<Gen>)
      reads this
    {
      AllRun(topology, runtimes, cooled, leaving)
    }

    lemma DepartureServes(topology: Topology, cluster: string)
      requires Serving(topology, {})
      ensures Serving(topology - {cluster}, PreviousOf(topology, cluster))
    {
    }

    /** Besides, only the topology is routed to, and no step so far was unsafe. */
    ghost predicate Settled(topology: Topology, leaving: set<Gen>)
      reads this
    {
      Serving(topology, leaving) && RoutesWithin(topology) && Clean(trace)
    }

    lemma ReplacementServes(topology: Topology, next: Gen)
      requires Serving(topology, {}) && Unpublished(next, topology) && next.cluster != ""
      ensures Serving(topology[next.cluster := next], PreviousOf(topology, next.cluster))
      ensures Serving(topology, {next})
    {
    }

    /** Between operations. */
    ghost predicate Valid()
      reads this
    {
      Settled(subsystems, {}) && Running(subsystems, {})
    }

    /** Built, but not registered, committed or stopped yet. */
    ghost predicate Unpublished(gen: Gen, topology: Topology)
      reads this
    {
      && gen.serial < built && !Listed(topology, gen) && gen !in runtimes
      && Servable(gen, retired, closed) && forall c | c in cooledClosers :: c.gen != gen
    }

    constructor ()
      ensures Valid() && subsystems == map[] && routes == None && trace == Empty
    {
      subsystems, routes, clients, runtimes := map[], None, map[], {};
      cooledClosers, cooled, retired, closed, built, mapped, trace := {}, {}, {}, {}, 0, 0, Empty;
    }

    // ----- Single steps -----

    method SetRefreshSubsystem(cluster: string, gen: Gen)
      modifies `subsystems, `trace
      ensures subsystems == old(subsystems)[cluster := gen] && trace == Then(old(trace), Now())
    {
      subsystems := subsystems[cluster := gen];
      trace := Then(trace, Now());
    }

    method TakeRefreshSubsystem(cluster: string) returns (gen: Option<Gen>)
      modifies `subsystems, `trace
      ensures gen == Lookup(old(subsystems), cluster)
      ensures subsystems == old(subsystems) - {cluster} && trace == Then(old(trace), Now())
    {
      gen := Lookup(subsystems, cluster);
      subsystems := subsystems - {cluster};
      trace := Then(trace, Now());
    }

    method ReplaceRefreshSubsystems(next: Topology) returns (previous: Topology)
      modifies `subsystems, `trace
      ensures previous == old(subsystems) && subsystems == next && trace == Then(old(trace), Now())
    {
      previous := subsystems;
      subsystems := next;
      trace := Then(trace, Now());
    }

    /** `refreshAggregateHandlers.Update`: the snapshot routes change only when the resource stream
        handler before them accepts the topology. */
    method UpdateAggregates(topology: Topology, resourcesOk: bool) returns (ok: bool)
      requires routes.Some?
      modifies `routes, `trace
      ensures ok == resourcesOk && trace == Then(old(trace), Now())
      ensures routes == if ok then Some(topology) else old(routes)
    {
      ok := resourcesOk;
      if ok {
        routes := Some(topology);
      }
      trace := Then(trace, Now());
    }

    method StopRefreshGenerationProducers(gen: Gen)
      modifies `runtimes, `trace
      ensures runtimes == old(runtimes) - {gen} && trace == Then(old(trace), Now())
    {
      runtimes := runtimes - {gen};
      trace := Then(trace, Now());
    }

    method RetireSnapshotServing(gen: Gen)
      modifies `retired, `trace
      ensures retired == old(retired) + {gen} && trace == Then(old(trace), Now())
    {
      retired := retired + {gen};
      trace := Then(trace, Now());
    }

    /** A closer unmaps its files; every caller has to show that it has not run yet. */
    method RunCloser(c: Closer)
      requires c !in closed
      modifies `closed, `trace
      ensures closed == old(closed) + {c} && trace == Then(old(trace), Now())
    {
      closed := closed + {c};
      trace := Then(trace, Now());
    }

    method TakeCooledClosers(gen: Gen) returns (closers: set<Closer>)
      modifies `cooledClosers
      ensures closers == ClosersOf(old(cooledClosers), gen) && cooledClosers == old(cooledClosers) - closers
    {
      closers := ClosersOf(cooledClosers, gen);
      cooledClosers := cooledClosers - closers;
    }

    /** Runs every registered closer of the generation, once, and forgets them. */
    method CloseCooledClosers(gen: Gen)
      requires cooledClosers !! closed
      modifies `cooledClosers, `closed, `trace
      ensures cooledClosers == old(cooledClosers) - ClosersOf(old(cooledClosers), gen)
      ensures closed == old(closed) + ClosersOf(old(cooledClosers), gen)
      ensures !Listed(Published(routes), gen) && WellKeyed(Published(routes)) && old(Clean(trace)) && old(Safe(Now())) ==> Clean(trace)
      ensures Clean(trace) ==> old(Clean(trace))
    {
      var closers := TakeCooledClosers(gen);
      var rest := closers;
      while rest != {}
        invariant rest <= closers && closed == old(closed) + (closers - rest)
        invariant cooledClosers == old(cooledClosers) - closers
        invariant !Listed(Published(routes), gen) && WellKeyed(Published(routes)) && old(Clean(trace)) && old(Safe(Now())) ==> Clean(trace)
        invariant Clean(trace) ==> old(Clean(trace))
      {
        var c :| c in rest;
        RunCloser(c);
        rest := rest - {c};
      }
    }

    /** The generation is never usable again, which is safe exactly when nothing routes to it. */
    method StopRefreshGeneration(gen: Gen)
      requires cooledClosers !! closed
      modifies `runtimes, `retired, `cooledClosers, `closed, `trace
      ensures Books() == Stopping(old(Books()), {gen})
      ensures !Listed(Published(routes), gen) && WellKeyed(Published(routes)) && old(Clean(trace)) && old(Safe(Now())) ==> Clean(trace)
      ensures Listed(Published(routes), gen) ==> !Clean(trace)
    {
      ghost var fine := !Listed(Published(routes), gen) && WellKeyed(Published(routes)) && Clean(trace) && Safe(Now());
      StopRefreshGenerationProducers(gen);
      assert fine ==> Clean(trace) && Safe(Now());
      RetireSnapshotServing(gen);
      assert fine ==> Clean(trace) && Safe(Now());
      CloseCooledClosers(gen);
    }

    method CommitRuntimes(gens: set<Gen>)
      modifies `runtimes, `trace
      ensures runtimes == old(runtimes) + gens && trace == Then(old(trace), Now())
    {
      runtimes := runtimes + gens;
      trace := Then(trace, Now());
    }

    /** Stops generations that left the registered topology, each once. */
    method StopAll(gens: set<Gen>)
      requires Settled(subsystems, gens) && Running(subsystems, gens)
      modifies `runtimes, `retired, `cooledClosers, `closed, `trace
      ensures Valid() && Books() == Stopping(old(Books()), gens)
    {
      var rest := gens;
      ghost var stopped: set<Gen> := {};
      while rest != {}
        invariant rest + stopped == gens && Settled(subsystems, rest) && Running(subsystems, rest)
        invariant Books() == Stopping(old(Books()), stopped)
      {
        var gen :| gen in rest;
        StoppingMore(old(Books()), stopped, gen);
        StopLeaving(gen, rest);
        rest, stopped := rest - {gen}, stopped + {gen};
      }
    }

    method StopLeaving(gen: Gen, ghost leaving: set<Gen>)
      requires Settled(subsystems, leaving) && gen in leaving
      modifies `runtimes, `retired, `cooledClosers, `closed, `trace
      ensures Settled(subsystems, leaving - {gen}) && Books() == Stopping(old(Books()), {gen})
      ensures old(Running(subsystems, leaving)) ==> Running(subsystems, leaving - {gen})
    {
      StopRefreshGeneration(gen);
    }

    // ----- Operations -----

    method Build(cluster: string) returns (gen: Gen)
      requires Valid() && cluster != ""
      modifies `built
      ensures Valid() && Unpublished(gen, subsystems)
      ensures gen == Gen(cluster, old(built)) && built == old(built) + 1
    {
      gen := Gen(cluster, built);
      built := built + 1;
    }

    /** `updateRefreshRouting` and, while nothing is published, `bootstrapRefreshRouting`. */
    method UpdateRefreshRouting(topology: Topology, updateOk: bool) returns (ok: bool)
      requires topology == subsystems && topology != map[]
      modifies `routes, `subsystems, `trace
      ensures ok == updateOk && subsystems == old(subsystems)
      ensures routes == if ok then Some(topology) else old(routes)
      ensures old(Clean(trace)) && Safe(Now()) ==> Clean(trace)
    {
      if routes.None? {
        ok := updateOk;
        if ok {
          routes := Some(topology);
          trace := Then(trace, Now());
          var _ := ReplaceRefreshSubsystems(topology);
        }
      } else {
        ok := UpdateAggregates(topology, updateOk);
      }
    }

    /** Registers, routes and commits a generation, then retires the one it replaces. If starting or
        routing fails, what was registered, routed and installed stays, and only `next` is stopped. */
    method ActivateSubsystem(next: Gen, client: nat, startOk: bool, updateOk: bool) returns (ok: bool)
      requires Valid() && Unpublished(next, subsystems) && next.cluster != ""
      modifies `subsystems, `routes, `clients, `runtimes, `retired, `cooledClosers, `closed, `trace
      ensures Valid()
      ensures ok == (startOk && updateOk)
      ensures !ok ==>
                && subsystems == old(subsystems) && routes == old(routes) && clients == old(clients)
                && Books() == Stopping(old(Books()), {next})
      ensures ok ==>
                && subsystems == old(subsystems)[next.cluster := next] && routes == Some(subsystems)
                && clients == old(clients)[next.cluster := client]
                && Books() == Stopping(old(Books()).(runtimes := old(runtimes) + {next}), PreviousOf(old(subsystems), next.cluster))
                && next in runtimes && PreviousOf(old(subsystems), next.cluster) !! runtimes
    {
      if !startOk {
        StopLeaving(next, {next});
        return false;
      }
      ok := RouteActivation(next, client, updateOk);
    }

    method RouteActivation(next: Gen, client: nat, updateOk: bool) returns (ok: bool)
      requires Valid() && Unpublished(next, subsystems) && next.cluster != ""
      modifies `subsystems, `routes, `clients, `runtimes, `retired, `cooledClosers, `closed, `trace
      ensures Valid() && ok == updateOk
      ensures !ok ==>
                && subsystems == old(subsystems) && routes == old(routes) && clients == old(clients)
                && Books() == Stopping(old(Books()), {next})
      ensures ok ==>
                && subsystems == old(subsystems)[next.cluster := next] && routes == Some(subsystems)
                && clients == old(clients)[next.cluster := client]
                && Books() == Stopping(old(Books()).(runtimes := old(runtimes) + {next}), PreviousOf(old(subsystems), next.cluster))
                && next in runtimes && PreviousOf(old(subsystems), next.cluster) !! runtimes
    {
      var cluster := next.cluster;
      var previous := Lookup(subsystems, cluster);
      ghost var before := subsystems;
      ReplacementServes(subsystems, next);
      SetRefreshSubsystem(cluster, next);
      assert cluster in subsystems;
      ok := UpdateRefreshRouting(subsystems, updateOk);
      if !ok {
        RestoreActivation(next, previous, before);
        return;
      }
      FinishActivation(next, client, previous, before);
    }

    method RestoreActivation(next: Gen, previous: Option<Gen>, ghost before: Topology)
      requires Settled(before, {next}) && Running(before, {}) && Unpublished(next, before)
      requires previous == Lookup(before, next.cluster) && subsystems == before[next.cluster := next]
      modifies `subsystems, `runtimes, `retired, `cooledClosers, `closed, `trace
      ensures Valid() && subsystems == before && Books() == Stopping(old(Books()), {next})
    {
      if previous.None? {
        var _ := TakeRefreshSubsystem(next.cluster);
      } else {
        SetRefreshSubsystem(next.cluster, previous.value);
      }
      assert subsystems == before;
      if previous != Some(next) {
        StopLeaving(next, {next});
      }
    }

    method CommitActivation(next: Gen, ghost before: Topology)
      requires Settled(subsystems, PreviousOf(before, next.cluster)) && Running(before, {}) && next.serial < built
      requires subsystems == before[next.cluster := next]
      modifies `runtimes, `trace
      ensures Settled(subsystems, PreviousOf(before, next.cluster)) && Running(subsystems, PreviousOf(before, next.cluster))
      ensures runtimes == old(runtimes) + {next}
    {
      ReplacementRuns(before, next, runtimes, cooled);
      CommitRuntimes({next});
    }

    method FinishActivation(next: Gen, client: nat, previous: Option<Gen>, ghost before: Topology)
      requires Settled(subsystems, PreviousOf(before, next.cluster)) && Running(before, {}) && next.serial < built
      requires subsystems == before[next.cluster := next]
      requires previous == Lookup(before, next.cluster) && routes == Some(subsystems) && previous != Some(next)
      modifies `clients, `runtimes, `retired, `cooledClosers, `closed, `trace
      ensures Valid() && clients == old(clients)[next.cluster := client]
      ensures Books() == Stopping(old(Books()).(runtimes := old(runtimes) + {next}), PreviousOf(before, next.cluster))
    {
      clients := clients[next.cluster := client];
      CommitActivation(next, before);
      if previous.Some? && previous.value != next {
        StopLeaving(previous.value, {previous.value});
      }
    }

    /** `rebuildClusterSubsystem`, and a re-warm of a cooled cluster: nothing changes but the serial of
        the attempt unless clients, build, start and routing all succeed. */
    method RebuildClusterSubsystem(cluster: string, client: nat, clientsOk: bool, buildOk: bool, startOk: bool, updateOk: bool)
      returns (ok: bool)
      requires Valid()
      modifies `subsystems, `routes, `clients, `runtimes, `retired, `cooledClosers, `closed, `built, `trace
      ensures Valid() && ok == (cluster != "" && cluster in old(clients) && clientsOk && buildOk && startOk && updateOk)
      ensures !ok ==> subsystems == old(subsystems) && routes == old(routes) && clients == old(clients) && runtimes == old(runtimes)
      ensures !ok && built == old(built) ==> Books() == old(Books())
      ensures !ok && built != old(built) ==> built == old(built) + 1 && Books() == Stopping(old(Books()), {Gen(cluster, old(built))})
      ensures ok ==>
                && subsystems == old(subsystems)[cluster := Gen(cluster, old(built))] && routes == Some(subsystems)
                && clients == old(clients)[cluster := client]
                && retired == old(retired) + PreviousOf(old(subsystems), cluster)
                && runtimes == (old(runtimes) + {Gen(cluster, old(built))}) - PreviousOf(old(subsystems), cluster)
    {
      if cluster == "" || cluster !in clients || !clientsOk || !buildOk {
        return false;
      }
      var next := Build(cluster);
      ok := ActivateSubsystem(next, client, startOk, updateOk);
    }

    /** `replacePermissionGeneration`: replaces `expected` and nothing else. The generation is looked up
        again after each slow step, and the context may end at any of them. */
    method ReplacePermissionGeneration(
      cluster: string, expected: Gen, client: nat, live: (bool, bool, bool), clientsOk: bool, buildOk: bool, startOk: bool, updateOk: bool
    ) returns (ok: bool)
      requires Valid()
      modifies `subsystems, `routes, `clients, `runtimes, `retired, `cooledClosers, `closed, `built, `trace
      ensures Valid()
      ensures ok ==> old(Lookup(subsystems, cluster)) == Some(expected) && live.0 && live.1 && live.2
      ensures !ok ==> subsystems == old(subsystems) && routes == old(routes) && clients == old(clients) && runtimes == old(runtimes)
      ensures !ok && built == old(built) ==> Books() == old(Books())
      ensures !ok && built != old(built) ==> built == old(built) + 1 && Books() == Stopping(old(Books()), {Gen(cluster, old(built))})
      ensures ok ==>
                && subsystems == old(subsystems)[cluster := Gen(cluster, old(built))] && routes == Some(subsystems)
                && clients == old(clients)[cluster := client] && retired == old(retired) + {expected}
                && runtimes == (old(runtimes) + {Gen(cluster, old(built))}) - {expected}
    {
      if cluster == "" || !live.0 || Lookup(subsystems, cluster) != Some(expected) || cluster !in clients {
        return false;
      }
      if !clientsOk || !live.1 || Lookup(subsystems, cluster) != Some(expected) || !buildOk {
        return false;
      }
      var next := Build(cluster);
      if !live.2 || Lookup(subsystems, cluster) != Some(expected) {
        StopLeaving(next, {next});
        return false;
      }
      ok := ActivateSubsystem(next, client, startOk, updateOk);
    }

    /** `teardownClusterSubsystem` unregisters, unroutes, then stops. Its update of the routes may fail
        unnoticed: that is harmless exactly when the cluster was not routed to. */
    method TeardownClusterSubsystem(cluster: string, resourcesOk: bool)
      requires Valid()
      modifies `subsystems, `routes, `runtimes, `retired, `cooledClosers, `closed, `trace
      ensures subsystems == old(subsystems) - {cluster}
      ensures Valid() <==> resourcesOk || cluster !in old(Published(routes))
      ensures resourcesOk ==> cluster !in Published(routes)
      ensures cluster in old(subsystems) ==> Books() == Stopping(old(Books()), {old(subsystems)[cluster]})
      ensures cluster !in old(subsystems) && cluster != "" ==> Books() == Stopping(old(Books()), RunningFor(old(runtimes), cluster))
    {
      if cluster == "" {
        assert cluster !in subsystems && cluster !in Published(routes);
        return;
      }
      ghost var before := subsystems;
      DepartureServes(subsystems, cluster);
      DepartureRuns(subsystems, cluster, runtimes, cooled);
      var gen := TakeRefreshSubsystem(cluster);
      if gen.None? {
        assert subsystems == before;
        StopAll(RunningFor(runtimes, cluster));
        return;
      }
      UnrouteAndStop(gen.value, resourcesOk);
    }

    method UnrouteAndStop(gen: Gen, resourcesOk: bool)
      requires Serving(subsystems, {gen}) && Running(subsystems, {gen}) && Servable(gen, retired, closed) && gen.cluster !in subsystems && gen.cluster != ""
      requires RoutesWithin(subsystems[gen.cluster := gen]) && Clean(trace)
      modifies `routes, `runtimes, `retired, `cooledClosers, `closed, `trace
      ensures Valid() <==> gen.cluster !in Published(routes)
      ensures routes == if resourcesOk then Some(subsystems) else old(routes)
      ensures Books() == Stopping(old(Books()), {gen})
    {
      if routes.Some? {
        var _ := UpdateAggregates(subsystems, resourcesOk);
      }
      assert Safe(Now());
      assert gen.cluster in Published(routes) ==> Listed(Published(routes), gen);
      StopRefreshGeneration(gen);
      assert RoutesWithin(subsystems) <==> gen.cluster !in Published(routes);
    }

    /** A selection update keeps the registered generation of every cluster it keeps and brings a
        built, unpublished one for every cluster it adds. */
    ghost predicate Prepared(topology: Topology, next: Topology, added: Topology)
      reads this
    {
      && WellKeyed(next) && added.Keys <= next.Keys
      && (forall c | c in added :: c !in topology && next[c] == added[c] && Unpublished(added[c], topology))
      && (forall c | c in next && c !in added :: c in topology && topology[c] == next[c])
    }

    lemma SelectionServes(topology: Topology, next: Topology, added: Topology)
      requires Serving(topology, {}) && Prepared(topology, next, added)
      ensures Serving(next, RemovedBy(topology, next))
      ensures Serving(topology, added.Values)
    {
    }

    /** `buildRefreshSelectionUpdate`: keeps what is registered and builds what is missing; a cluster whose
        clients are not usable is left out. If a build fails, everything built so far is stopped. */
    method BuildRefreshSelectionUpdate(desired: set<string>, builds: map<string, BuildResult>)
      returns (ok: bool, next: Topology, added: Topology)
      requires Valid() && desired <= builds.Keys && "" !in desired
      modifies `built, `runtimes, `retired, `cooledClosers, `closed, `trace
      ensures Valid() && ok == (forall c | c in desired && c !in subsystems :: builds[c] != BuildFails)
      ensures ok ==>
                && Prepared(subsystems, next, added) && Books() == old(Books())
                && (forall c :: c in next <==> c in desired && (c in subsystems || builds[c] == Builds))
      ensures !ok ==> Books() == Stopping(old(Books()), added.Values) && next == map[]
    {
      next, added := map[], map[];
      var rest := desired;
      while rest != {}
        invariant rest <= desired && Valid() && Books() == old(Books())
        invariant Prepared(subsystems, next, added)
        invariant forall c :: c in next <==> c in desired && c !in rest && (c in subsystems || builds[c] == Builds)
        invariant forall c | c in desired && c !in rest && c !in subsystems :: builds[c] != BuildFails
      {
        var c :| c in rest;
        rest := rest - {c};
        if c in subsystems {
          next := next[c := subsystems[c]];
        } else if builds[c] == BuildFails {
          SelectionServes(subsystems, next, added);
          StopAll(added.Values);
          return false, map[], added;
        } else if builds[c] == Builds {
          var gen := Build(c);
          next, added := next[c := gen], added[c := gen];
        }
      }
      ok := true;
    }

    /** `applyRefreshSelectionUpdate`: all or nothing. The new topology is routed before it is
        registered, and the generations it drops are stopped last. */
    method ApplyRefreshSelectionUpdate(next: Topology, added: Topology, hasContext: bool, startOk: bool, resourcesOk: bool)
      returns (ok: bool)
      requires Valid() && routes.Some? && Prepared(subsystems, next, added)
      modifies `subsystems, `routes, `runtimes, `retired, `cooledClosers, `closed, `trace
      ensures Valid() && ok == (hasContext && startOk && resourcesOk)
      ensures !ok ==>
                && subsystems == old(subsystems) && routes == old(routes)
                && Books() == if hasContext then Stopping(old(Books()), added.Values) else old(Books())
      ensures ok ==>
                && subsystems == next && routes == Some(next)
                && Books() == Stopping(old(Books()).(runtimes := old(runtimes) + added.Values), RemovedBy(old(subsystems), next))
                && Running(next, {})
    {
      if !hasContext {
        return false;
      }
      SelectionServes(subsystems, next, added);
      if !startOk {
        StopAll(added.Values);
        return false;
      }
      ok := UpdateAggregates(next, resourcesOk);
      if !ok {
        StopAll(added.Values);
        return;
      }
      InstallSelection(next, added.Values);
    }

    method InstallSelection(next: Topology, started: set<Gen>)
      requires Serving(next, RemovedBy(subsystems, next)) && routes == Some(next) && Clean(trace) && Safe(Now())
      requires Running(subsystems, {}) && forall c | c in next :: next[c] in started || Listed(subsystems, next[c])
      requires forall c | c in subsystems && c in next :: next[c] == subsystems[c]
      requires started <= next.Values
      requires forall g | g in started :: g.serial < built
      modifies `subsystems, `runtimes, `retired, `cooledClosers, `closed, `trace
      ensures Valid() && subsystems == next
      ensures Books() == Stopping(old(Books()).(runtimes := old(runtimes) + started), RemovedBy(old(subsystems), next))
    {
      SelectionRuns(subsystems, next, started, runtimes, cooled);
      var previous := ReplaceRefreshSubsystems(next);
      CommitRuntimes(started);
      StopAll(RemovedBy(previous, next));
    }

    /** `coolClusterToMmapServing`: the generation keeps serving, now from mapped files whose closers
        are registered. If that fails the cluster is torn down, mapped files included. */
    method CoolClusterToMmapServing(cluster: string, files: nat, installOk: bool, resourcesOk: bool)
      requires Valid()
      modifies `subsystems, `routes, `runtimes, `cooled, `retired, `cooledClosers, `closed, `mapped, `trace
      ensures cluster !in old(subsystems) ==> unchanged(this)
      ensures cluster in old(subsystems) && installOk ==>
                && Valid() && subsystems == old(subsystems) && routes == old(routes)
                && Books() == Ledger(old(runtimes) - {old(subsystems)[cluster]}, old(retired),
                             old(cooledClosers) + ClosersBetween(old(subsystems)[cluster], old(mapped), files), old(closed))
      ensures cluster in old(subsystems) && !installOk ==>
                && subsystems == old(subsystems) - {cluster}
                && Books() == Stopping(old(Books()).(cooledClosers := old(cooledClosers) + ClosersBetween(old(subsystems)[cluster], old(mapped), files)),
                                       {old(subsystems)[cluster]})
                && (Valid() <==> resourcesOk || cluster !in old(Published(routes)))
    {
      var found := Lookup(subsystems, cluster);
      if found.None? {
        return;
      }
      StopRefreshGenerationProducers(found.value);
      cooled := cooled + {found.value};
      SetCooledClosers(found.value, files);
      if !installOk {
        TeardownClusterSubsystem(cluster, resourcesOk);
      }
    }

    method SetCooledClosers(gen: Gen, files: nat)
      modifies `cooledClosers, `mapped
      ensures cooledClosers == old(cooledClosers) + ClosersBetween(gen, old(mapped), files) && mapped == old(mapped) + files
    {
      cooledClosers := cooledClosers + ClosersBetween(gen, mapped, files);
      mapped := mapped + files;
    }

    lemma EverythingLeaves(topology: Topology)
      requires Serving(topology, {})
      ensures Serving(map[], RemovedBy(topology, map[]))
    {
    }

    /** `teardownRefreshSubsystem` unpublishes everything before it stops anything, and leaves nothing
        running or mapped. */
    method TeardownRefreshSubsystem()
      requires Valid()
      modifies `subsystems, `routes, `runtimes, `retired, `cooledClosers, `closed, `trace
      ensures Valid() && routes == None && subsystems == map[] && runtimes == {} && cooledClosers == {}
      ensures var gone := RemovedBy(old(subsystems), map[]);
              Books() == Stopping(Stopping(old(Books()), gone), old(runtimes) - gone)
    {
      routes := None;
      trace := Then(trace, Now());
      EverythingLeaves(subsystems);
      var previous := ReplaceRefreshSubsystems(map[]);
      StopAll(RemovedBy(previous, map[]));
      StopAll(runtimes);
    }

    /** Built for a set-up, none registered yet. */
    ghost predicate AllBuilt(next: Topology)
      reads this
    {
      WellKeyed(next) && forall c | c in next :: Unpublished(next[c], subsystems)
    }

    /** A set-up does not stop what was registered before it. */
    lemma NewTopologyServes(next: Topology)
      requires Serving(subsystems, {}) && AllBuilt(next)
      ensures Serving(next, subsystems.Values) && Serving(subsystems, next.Values)
    {
      forall g | g in subsystems.Values ensures !Listed(next, g) {
        assert Listed(subsystems, g);
      }
    }

    /** `setupRefreshSubsystemForSelections`: publishes a topology of new generations, or stops all of it.
        What was registered before is dropped and left running; it is only safe to forget when nothing
        was, as after a teardown. A set-up that built nothing drops it all and leaves the routes. */
    method SetupForSelections(next: Topology, startOk: bool, muxOk: bool) returns (ok: bool)
      requires Valid() && AllBuilt(next)
      modifies `subsystems, `routes, `runtimes, `retired, `cooledClosers, `closed, `trace
      ensures ok == (next == map[] || (startOk && muxOk)) && Clean(trace)
      ensures !ok ==> Valid() && subsystems == old(subsystems) && routes == old(routes) && Books() == Stopping(old(Books()), next.Values)
      ensures ok ==>
                && subsystems == next && Books() == old(Books()).(runtimes := old(runtimes) + next.Values)
                && Serving(next, old(subsystems.Values)) && Running(next, old(subsystems.Values))
      ensures ok ==> routes == if next == map[] then old(routes) else Some(next)
      ensures ok && next != map[] ==> Settled(next, old(subsystems.Values))
      ensures old(subsystems) == map[] ==> Valid()
    {
      NewTopologyServes(next);
      if next == map[] {
        var _ := ReplaceRefreshSubsystems(map[]);
        return true;
      }
      if !startOk || !muxOk {
        StopAll(next.Values);
        return false;
      }
      PublishSetup(next);
      ok := true;
    }

    method PublishSetup(next: Topology)
      requires Valid() && next != map[] && AllBuilt(next) && Serving(next, subsystems.Values)
      modifies `subsystems, `routes, `runtimes, `trace
      ensures subsystems == next && routes == Some(next) && runtimes == old(runtimes) + next.Values
      ensures Settled(next, old(subsystems.Values)) && Running(next, old(subsystems.Values))
    {
      SetupRuns(subsystems, next, runtimes, cooled);
      routes := Some(next);
      trace := Then(trace, Now());
      var _ := ReplaceRefreshSubsystems(next);
      CommitRuntimes(next.Values);
    }
  }
}
