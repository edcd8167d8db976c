/**
 Ownership of the contexts of refresh generations (backend/refresh_generation.go).

 Starting a generation creates two cancel functions, one for its manager and one for its permission
 revalidator. An activation owns them until it is committed, which moves them into the runtimes
 table, or rolled back, which calls them. The classes are the sequential code; the state machine
 `Next` interleaves commits, rollbacks and stops of any number of generations.
 */
module RefreshGeneration {
  import opened Wrappers

  /** Cancel functions are named by the activation that created them. */
  datatype Cancel = ManagerOf(activation: nat) | PermissionOf(activation: nat)

  function BothOf(activation: nat): set<Cancel> {
    {ManagerOf(activation), PermissionOf(activation)}
  }

  /** A table entry holds both cancel functions of one activation, or only the manager's once its
      revalidator was retired. */
  datatype Runtime = Runtime(cluster: string, activation: nat, revalidating: bool)

  /** `refreshGenerationRuntimes`, keyed by subsystem generation. */
  type Table = map<nat, Runtime>

  /** `refreshGenerationRuntimeCancellations`. */
  function CancelsOf(runtime: Runtime): set<Cancel> {
    if runtime.revalidating then BothOf(runtime.activation) else {ManagerOf(runtime.activation)}
  }

  function TakenFrom(table: Table, subsystem: nat): set<Cancel> {
    if subsystem in table then CancelsOf(table[subsystem]) else {}
  }

  /** What the entries of several subsystems own together. */
  function TakenFromAll(table: Table, subsystems: set<nat>): set<Cancel> {
    set s, c | s in subsystems && c in TakenFrom(table, s) :: c
  }

  /** What committing `subsystem` for `cluster` takes out of entry s: everything of its own stale
      entry, and the revalidator of any other generation of the cluster. */
  function RetiredFrom(table: Table, s: nat, cluster: string, subsystem: nat): set<Cancel>
    requires s in table
  {
    if s == subsystem then CancelsOf(table[s])
    else if table[s].cluster == cluster && table[s].revalidating then {PermissionOf(table[s].activation)}
    else {}
  }

  function RetiredAmong(table: Table, visited: set<nat>, cluster: string, subsystem: nat): set<Cancel> {
    set s, c | s in visited && s in table && c in RetiredFrom(table, s, cluster, subsystem) :: c
  }

  function AfterVisiting(table: Table, visited: set<nat>, cluster: string, subsystem: nat): Table {
    map s | s in table && !(s in visited && s == subsystem) ::
      if s in visited && table[s].cluster == cluster then table[s].(revalidating := false) else table[s]
  }

  /** The cancel functions that commit removes from the table. */
  function Retired(table: Table, cluster: string, subsystem: nat): set<Cancel> {
    RetiredAmong(table, table.Keys, cluster, subsystem)
  }

  /** The table after `subsystem` is committed for `cluster`. */
  function Committed(table: Table, cluster: string, subsystem: nat, activation: nat): Table {
    AfterVisiting(table, table.Keys, cluster, subsystem)[subsystem := Runtime(cluster, activation, true)]
  }

  lemma VisitOne(table: Table, visited: set<nat>, s: nat, cluster: string, subsystem: nat)
    requires s in table && s !in visited
    ensures RetiredAmong(table, visited + {s}, cluster, subsystem) ==
            RetiredAmong(table, visited, cluster, subsystem) + RetiredFrom(table, s, cluster, subsystem)
    ensures AfterVisiting(table, visited + {s}, cluster, subsystem) ==
            if s == subsystem then AfterVisiting(table, visited, cluster, subsystem) - {s}
            else if table[s].cluster == cluster then AfterVisiting(table, visited, cluster, subsystem)[s := table[s].(revalidating := false)]
            else AfterVisiting(table, visited, cluster, subsystem)
  {
  }

  /** No activation is in the table twice. */
  ghost predicate Linear(table: Table) {
    forall s, s' | s in table && s' in table && table[s].activation == table[s'].activation :: s == s'
  }

  /** Nothing the table holds has been called. */
  ghost predicate Unspent(table: Table, spent: set<Cancel>) {
    forall s, c | s in table && c in CancelsOf(table[s]) :: c !in spent
  }

  ghost predicate Known(table: Table, started: nat, spent: set<Cancel>) {
    && (forall s | s in table :: table[s].activation < started)
    && (forall c | c in spent :: c.activation < started)
  }

  /** The table holds activations among the first `started`, each once, and none of the cancel
      functions it holds is spent. */
  ghost predicate Accounted(table: Table, started: nat, spent: set<Cancel>) {
    Linear(table) && Unspent(table, spent) && Known(table, started, spent)
  }

  lemma TakeOneMore(table: Table, done: set<nat>, s: nat)
    requires Linear(table)
    ensures TakenFrom(table - done, s) !! TakenFromAll(table, done)
    ensures TakenFromAll(table, done + {s}) == TakenFromAll(table, done) + TakenFrom(table - done, s)
    ensures table - done - {s} == table - (done + {s})
  {
    if s in done {
      assert done + {s} == done;
    } else {
      assert TakenFrom(table - done, s) == TakenFrom(table, s);
    }
  }

  lemma NotTaken(table: Table, done: set<nat>, s: nat)
    requires Linear(table) && s !in done
    ensures TakenFrom(table, s) !! TakenFromAll(table, done)
  {
  }

  lemma StopKeepsAccounted(table: Table, started: nat, spent: set<Cancel>, subsystem: nat)
    requires Accounted(table, started, spent)
    ensures Accounted(table - {subsystem}, started, spent + TakenFrom(table, subsystem))
    ensures TakenFrom(table, subsystem) !! spent
  {
  }

  /** `activation` was started and is neither in the table nor spent. */
  ghost predicate Pending(table: Table, started: nat, spent: set<Cancel>, activation: nat) {
    activation < started && BothOf(activation) !! spent && forall s | s in table :: table[s].activation != activation
  }

  lemma SpendingPendingKeepsAccounted(table: Table, started: nat, spent: set<Cancel>, activation: nat)
    requires Accounted(table, started, spent) && Pending(table, started, spent, activation)
    ensures Accounted(table, started, spent + BothOf(activation))
  {
  }

  lemma RetiredWasHeld(table: Table, cluster: string, subsystem: nat, c: Cancel) returns (s: nat)
    requires c in Retired(table, cluster, subsystem)
    ensures s in table && c in RetiredFrom(table, s, cluster, subsystem) && c in CancelsOf(table[s])
    ensures table[s].activation == c.activation
  {
    s :| s in table && c in RetiredFrom(table, s, cluster, subsystem);
  }

  /** What a commit retires is no longer in the table afterwards. */
  lemma RetiredLeavesTable(table: Table, cluster: string, subsystem: nat, activation: nat, c: Cancel, s: nat)
    requires Linear(table) && (forall s | s in table :: table[s].activation != activation)
    requires c in Retired(table, cluster, subsystem) && s in Committed(table, cluster, subsystem, activation)
    ensures c !in CancelsOf(Committed(table, cluster, subsystem, activation)[s])
  {
    var holder := RetiredWasHeld(table, cluster, subsystem, c);
  }

  lemma CommitKeepsUnspent(table: Table, started: nat, spent: set<Cancel>, cluster: string, subsystem: nat, activation: nat)
    requires Accounted(table, started, spent) && Pending(table, started, spent, activation)
    ensures Unspent(Committed(table, cluster, subsystem, activation), spent + Retired(table, cluster, subsystem))
  {
    var after := Committed(table, cluster, subsystem, activation);
    forall s, c | s in after && c in CancelsOf(after[s]) ensures c !in spent + Retired(table, cluster, subsystem) {
      if c in Retired(table, cluster, subsystem) {
        RetiredLeavesTable(table, cluster, subsystem, activation, c, s);
      }
    }
  }

  lemma CommitKeepsAccounted(table: Table, started: nat, spent: set<Cancel>, cluster: string, subsystem: nat, activation: nat)
    requires Accounted(table, started, spent) && Pending(table, started, spent, activation)
    ensures Accounted(Committed(table, cluster, subsystem, activation), started, spent + Retired(table, cluster, subsystem))
    ensures Retired(table, cluster, subsystem) !! spent
    ensures forall c | c in Retired(table, cluster, subsystem) :: c.activation != activation
  {
    CommitKeepsUnspent(table, started, spent, cluster, subsystem, activation);
    forall c | c in Retired(table, cluster, subsystem) ensures c !in spent && c.activation < started && c.activation != activation {
      var s := RetiredWasHeld(table, cluster, subsystem, c);
    }
  }

  // ----- The coordinator and its activations -----

  /** A built subsystem; a partially built one has no manager yet. */
  datatype Subsystem = Subsystem(id: nat, hasManager: bool)

  /** What a coordinator holds and has cancelled, as a value. */
  datatype Books = Books(table: Table, called: set<Cancel>)

  datatype Step =
    | RolledBack(id: nat)                                   // calls the activation's two cancel functions
    | Stopped(cluster: string, subsystem: nat)
    | Published(cluster: string, subsystem: nat, id: nat)   // commits the activation

  function Apply(books: Books, step: Step): Books {
    match step
    case RolledBack(id) => books.(called := books.called + BothOf(id))
    case Stopped(_, subsystem) => Books(books.table - {subsystem}, books.called + TakenFrom(books.table, subsystem))
    case Published(cluster, subsystem, id) =>
      Books(Committed(books.table, cluster, subsystem, id), books.called + Retired(books.table, cluster, subsystem))
  }

  /** What a coordinator did, in order. */
  datatype Log = Empty | Then(earlier: Log, step: Step)

  /** The books a log leads to. */
  function Run(log: Log): Books {
    match log
    case Empty => Books(map[], {})
    case Then(earlier, step) => Apply(Run(earlier), step)
  }

  function Occurrences(log: Log, step: Step): nat {
    match log
    case Empty => 0
    case Then(earlier, last) => Occurrences(earlier, step) + if last == step then 1 else 0
  }

  function AfterRollback(books: Books, id: nat, cluster: string, subsystem: nat): Books {
    Apply(Apply(books, RolledBack(id)), Stopped(cluster, subsystem))
  }

  function IdsOf(generations: seq<(string, nat)>, n: nat): set<nat>
    requires n <= |generations|
  {
    set i | 0 <= i < n :: generations[i].1
  }

  lemma OneMoreId(generations: seq<(string, nat)>, cluster: string, s: nat)
    ensures var more := generations + [(cluster, s)]; IdsOf(more, |more|) == IdsOf(generations, |generations|) + {s}
  {
    var more, n := generations + [(cluster, s)], |generations|;
    assert forall i | 0 <= i < n :: more[i] == generations[i];
    assert more[n].1 in IdsOf(more, |more|);
    assert forall i | 0 <= i < n :: generations[i].1 in IdsOf(generations, n) && more[i].1 in IdsOf(more, n + 1);
  }

  /** The log after stopping the first n generations. */
  function AfterStops(log: Log, generations: seq<(string, nat)>, n: nat): Log
    requires n <= |generations|
  {
    if n == 0 then log else Then(AfterStops(log, generations, n - 1), Stopped(generations[n - 1].0, generations[n - 1].1))
  }

  function TakenAll(books: Books, subsystems: set<nat>): Books {
    Books(books.table - subsystems, books.called + TakenFromAll(books.table, subsystems))
  }

  /** Stopping several generations takes exactly what the table holds for them. */
  lemma {:induction false} StopsTakeAll(log: Log, generations: seq<(string, nat)>, n: nat)
    requires Linear(Run(log).table) && n <= |generations|
    ensures Run(AfterStops(log, generations, n)) == TakenAll(Run(log), IdsOf(generations, n))
  {
    if n > 0 {
      StopsTakeAll(log, generations, n - 1);
      var (cluster, s) := generations[n - 1];
      StopOneMore(Run(log), IdsOf(generations, n - 1), cluster, s);
      assert IdsOf(generations, n) == IdsOf(generations, n - 1) + {s};
    }
  }

  lemma StopOneMore(books: Books, done: set<nat>, cluster: string, s: nat)
    requires Linear(books.table)
    ensures Apply(TakenAll(books, done), Stopped(cluster, s)) == TakenAll(books, done + {s})
  {
    TakeOneMore(books.table, done, s);
  }

  class RefreshCoordinator {
    var runtimes: Table
    var started: nat              // activations created so far
    ghost var called: set<Cancel>
    ghost var history: Log        // what the coordinator did, in order

    ghost function Held(): Books
      reads this
    {
      Books(runtimes, called)
    }

    ghost predicate Valid()
      reads this
    {
      Accounted(runtimes, started, called) && Held() == Run(history)
    }

    constructor ()
      ensures Valid() && runtimes == map[] && called == {} && history == Empty && started == 0
    {
      runtimes, started, called, history := map[], 0, {}, Empty;
    }

    /** A cancel function runs at most once: every caller has to show that it has not run yet. */
    method Call(c: Cancel)
      requires c !in called
      modifies `called
      ensures called == old(called) + {c}
    {
      called := called + {c};
    }

    method CallAll(cancels: set<Cancel>)
      requires cancels !! called
      modifies `called
      ensures called == old(called) + cancels
    {
      var rest := cancels;
      while rest != {}
        invariant rest <= cancels
        invariant called == old(called) + (cancels - rest)
      {
        var c :| c in rest;
        Call(c);
        rest := rest - {c};
      }
    }

    method CommitRefreshGenerationRuntime(cluster: string, subsystem: nat, activation: nat)
      requires Retired(runtimes, cluster, subsystem) !! called
      modifies `runtimes, `called
      ensures runtimes == Committed(old(runtimes), cluster, subsystem, activation)
      ensures called == old(called) + Retired(old(runtimes), cluster, subsystem)
    {
      var retired: set<Cancel> := {};
      var rest := runtimes.Keys;
      ghost var visited: set<nat> := {};
      while rest != {}
        invariant rest + visited == old(runtimes).Keys && rest !! visited
        invariant runtimes == AfterVisiting(old(runtimes), visited, cluster, subsystem)
        invariant retired == RetiredAmong(old(runtimes), visited, cluster, subsystem)
        invariant called == old(called)
      {
        var candidate :| candidate in rest;
        VisitOne(old(runtimes), visited, candidate, cluster, subsystem);
        var runtime := runtimes[candidate];
        if candidate == subsystem {
          retired := retired + CancelsOf(runtime);
          runtimes := runtimes - {candidate};
        } else if runtime.cluster == cluster && runtime.revalidating {
          retired := retired + {PermissionOf(runtime.activation)};
          runtimes := runtimes[candidate := runtime.(revalidating := false)];
        }
        rest, visited := rest - {candidate}, visited + {candidate};
      }
      assert visited == old(runtimes).Keys;
      runtimes := runtimes[subsystem := Runtime(cluster, activation, true)];
      CallAll(retired);
    }

    method TakeRefreshGenerationRuntime(subsystem: nat) returns (runtime: Option<Runtime>)
      modifies `runtimes
      ensures runtime == Lookup(old(runtimes), subsystem)
      ensures runtimes == old(runtimes) - {subsystem}
    {
      runtime := Lookup(runtimes, subsystem);
      runtimes := runtimes - {subsystem};
    }

    /** Cancels exactly what this generation still owns in the table, revalidator before manager. */
    method StopRefreshGeneration(cluster: string, subsystem: nat)
      requires Valid()
      modifies `runtimes, `called, `history
      ensures Valid()
      ensures runtimes == old(runtimes) - {subsystem} && called == old(called) + TakenFrom(old(runtimes), subsystem)
      ensures history == Then(old(history), Stopped(cluster, subsystem))
    {
      StopKeepsAccounted(runtimes, started, called, subsystem);
      var runtime := TakeRefreshGenerationRuntime(subsystem);
      if runtime.Some? && runtime.value.revalidating {
        Call(PermissionOf(runtime.value.activation));
      }
      if runtime.Some? {
        Call(ManagerOf(runtime.value.activation));
      }
      history := Then(history, Stopped(cluster, subsystem));
    }

    /** The two sweeps snapshot the table into a slice first, in whatever order it is ranged over. */
    method Snapshot(cluster: Option<string>) returns (generations: seq<(string, nat)>)
      ensures IdsOf(generations, |generations|) == set s | s in runtimes && (cluster.Some? ==> runtimes[s].cluster == cluster.value)
    {
      generations := [];
      var rest := runtimes.Keys;
      while rest != {}
        invariant rest <= runtimes.Keys
        invariant IdsOf(generations, |generations|) ==
                  set s | s in runtimes && s !in rest && (cluster.Some? ==> runtimes[s].cluster == cluster.value)
      {
        var s :| s in rest;
        if cluster.None? || runtimes[s].cluster == cluster.value {
          OneMoreId(generations, runtimes[s].cluster, s);
          generations := generations + [(runtimes[s].cluster, s)];
        }
        rest := rest - {s};
      }
    }

    method StopGenerations(generations: seq<(string, nat)>)
      requires Valid()
      modifies `runtimes, `called, `history
      ensures Valid()
      ensures history == AfterStops(old(history), generations, |generations|)
      ensures Held() == TakenAll(old(Held()), IdsOf(generations, |generations|))
    {
      for i := 0 to |generations|
        invariant Valid() && history == AfterStops(old(history), generations, i)
      {
        StopRefreshGeneration(generations[i].0, generations[i].1);
      }
      StopsTakeAll(old(history), generations, |generations|);
    }

    method StopRefreshGenerationRuntimesForCluster(cluster: string)
      requires Valid()
      modifies `runtimes, `called, `history
      ensures Valid()
      ensures cluster == "" ==> runtimes == old(runtimes) && called == old(called)
      ensures cluster != "" ==> runtimes == map s | s in old(runtimes) && old(runtimes)[s].cluster != cluster :: old(runtimes)[s]
      ensures cluster != "" ==> forall s, c | s in old(runtimes) && c in CancelsOf(old(runtimes)[s]) ::
                  c in called <==> old(runtimes)[s].cluster == cluster
    {
      if cluster == "" {
        return;
      }
      var generations := Snapshot(Some(cluster));
      StopGenerations(generations);
      forall s, c | s in old(runtimes) && c in CancelsOf(old(runtimes)[s])
        ensures c in called <==> old(runtimes)[s].cluster == cluster
      {
        if s in IdsOf(generations, |generations|) {
          assert c in TakenFrom(old(runtimes), s);
        } else {
          NotTaken(old(runtimes), IdsOf(generations, |generations|), s);
        }
      }
    }

    method StopRemainingRefreshGenerationRuntimes()
      requires Valid()
      modifies `runtimes, `called, `history
      ensures Valid() && runtimes == map[]
      ensures forall s, c | s in old(runtimes) && c in CancelsOf(old(runtimes)[s]) :: c in called
    {
      var generations := Snapshot(None);
      StopGenerations(generations);
      forall s, c | s in old(runtimes) && c in CancelsOf(old(runtimes)[s]) ensures c in called {
        assert c in TakenFrom(old(runtimes), s);
      }
    }
  }

  predicate Startable(hasContext: bool, cluster: string, subsystem: Option<Subsystem>) {
    hasContext && cluster != "" && subsystem.Some? && subsystem.value.hasManager
  }

  /** Work started before its generation is published. */
  class Activation {
    const refresh: RefreshCoordinator
    const id: nat
    const cluster: string
    const subsystem: nat
    var managerCancel: Option<Cancel>
    var permissionCancel: Option<Cancel>
    var committed: bool
    var rolledBack: bool

    ghost predicate Holding()
      reads this
    {
      !committed && !rolledBack && managerCancel == Some(ManagerOf(id)) && permissionCancel == Some(PermissionOf(id))
    }

    ghost predicate Settled()
      reads this
    {
      committed != rolledBack && managerCancel == None && permissionCancel == None
    }

    /** Still owns its two cancel functions, and they exist nowhere else. */
    ghost predicate Owner()
      reads this, refresh
    {
      Holding() && refresh.Valid() && Pending(refresh.runtimes, refresh.started, refresh.called, id)
    }

    constructor (refresh: RefreshCoordinator, id: nat, cluster: string, subsystem: nat)
      ensures this.refresh == refresh && this.id == id && this.cluster == cluster && this.subsystem == subsystem
      ensures Holding()
    {
      this.refresh, this.id, this.cluster, this.subsystem := refresh, id, cluster, subsystem;
      managerCancel, permissionCancel := Some(ManagerOf(id)), Some(PermissionOf(id));
      committed, rolledBack := false, false;
    }

    method Commit()
      requires Owner() || Settled()
      modifies this, refresh`runtimes, refresh`called, refresh`history
      ensures Settled()
      ensures old(Owner()) ==>
                && committed && refresh.Valid()
                && refresh.Held() == Apply(old(refresh.Held()), Published(cluster, subsystem, id))
                && refresh.history == Then(old(refresh.history), Published(cluster, subsystem, id))
                && BothOf(id) !! refresh.called
      ensures old(Settled()) ==> unchanged(this) && unchanged(refresh)
    {
      if committed || rolledBack {
        return;
      }
      CommitKeepsAccounted(refresh.runtimes, refresh.started, refresh.called, cluster, subsystem, id);
      refresh.CommitRefreshGenerationRuntime(cluster, subsystem, managerCancel.value.activation);
      refresh.history := Then(refresh.history, Published(cluster, subsystem, id));
      managerCancel, permissionCancel, committed := None, None, true;
    }

    /** Calls its own cancel functions and stops its generation, which also stops a runtime committed
        earlier for the same generation. */
    method Rollback()
      requires Owner() || Settled()
      modifies this, refresh`runtimes, refresh`called, refresh`history
      ensures Settled()
      ensures old(Owner()) ==>
                && rolledBack && refresh.Valid()
                && refresh.Held() == AfterRollback(old(refresh.Held()), id, cluster, subsystem)
                && refresh.called == old(refresh.called) + {ManagerOf(id), PermissionOf(id)} + TakenFrom(old(refresh.runtimes), subsystem)
                && refresh.runtimes == old(refresh.runtimes) - {subsystem}
                && refresh.history == Then(Then(old(refresh.history), RolledBack(id)), Stopped(cluster, subsystem))
      ensures old(Settled()) ==> unchanged(this) && unchanged(refresh)
    {
      if committed || rolledBack {
        return;
      }
      rolledBack := true;
      SpendingPendingKeepsAccounted(refresh.runtimes, refresh.started, refresh.called, id);
      if managerCancel.Some? {
        refresh.Call(managerCancel.value);
        managerCancel := None;
      }
      if permissionCancel.Some? {
        refresh.Call(permissionCancel.value);
        permissionCancel := None;
      }
      assert refresh.called == old(refresh.called) + BothOf(id);
      refresh.history := Then(refresh.history, RolledBack(id));
      refresh.StopRefreshGeneration(cluster, subsystem);
    }
  }

  /** Fails without creating anything unless the context, the cluster id and the manager are there. */
  method StartRefreshGeneration(refresh: RefreshCoordinator, hasContext: bool, cluster: string, subsystem: Option<Subsystem>)
    returns (activation: Activation?)
    requires refresh.Valid()
    modifies refresh`started
    ensures refresh.Valid()
    ensures (activation != null) == Startable(hasContext, cluster, subsystem)
    ensures activation != null <==> hasContext && cluster != "" && subsystem.Some? && subsystem.value.hasManager
    ensures activation == null ==> refresh.started == old(refresh.started)
    ensures activation != null ==>
              && fresh(activation) && activation.refresh == refresh && activation.Owner()
              && activation.id == old(refresh.started) && refresh.started == old(refresh.started) + 1
              && activation.cluster == cluster && subsystem == Some(Subsystem(activation.subsystem, true))
  {
    if !hasContext || cluster == "" || subsystem.None? || !subsystem.value.hasManager {
      return null;
    }
    activation := new Activation(refresh, refresh.started, cluster, subsystem.value.id);
    refresh.started := refresh.started + 1;
  }

  // ----- Batches -----

  /** Activations of different clusters, each with cancel functions of its own. A map keyed by cluster
      is represented by its values in the order in which it is ranged over. */
  ghost predicate Distinct(refresh: RefreshCoordinator, activations: seq<Activation>) {
    && (forall i | 0 <= i < |activations| :: activations[i].refresh == refresh)
    && (forall i, j | 0 <= i < j < |activations| :: activations[i].id != activations[j].id)
    && (forall i, j | 0 <= i < j < |activations| :: activations[i].cluster != activations[j].cluster)
  }

  ghost predicate AllHold(activations: seq<Activation>, start: nat)
    reads activations
  {
    forall i | start <= i < |activations| :: activations[i].Holding()
  }

  ghost predicate AllPending(books: Books, started: nat, activations: seq<Activation>, start: nat) {
    forall i | start <= i < |activations| :: Pending(books.table, started, books.called, activations[i].id)
  }

  lemma OthersStayPending(books: Books, started: nat, refresh: RefreshCoordinator, activations: seq<Activation>, i: nat)
    requires Distinct(refresh, activations) && i < |activations| && AllPending(books, started, activations, i)
    ensures var a := activations[i]; AllPending(AfterRollback(books, a.id, a.cluster, a.subsystem), started, activations, i + 1)
  {
  }

  /** The log after rolling back the first n activations. */
  function AfterRollbacks(log: Log, activations: seq<Activation>, n: nat): Log
    requires n <= |activations|
  {
    if n == 0 then log
    else
      var last := activations[n - 1];
      Then(Then(AfterRollbacks(log, activations, n - 1), RolledBack(last.id)), Stopped(last.cluster, last.subsystem))
  }

  /** `rollbackRefreshGenerations`. */
  method RollbackRefreshGenerations(refresh: RefreshCoordinator, activations: seq<Activation>)
    requires refresh.Valid() && Distinct(refresh, activations) && AllHold(activations, 0)
    requires AllPending(refresh.Held(), refresh.started, activations, 0)
    modifies refresh`runtimes, refresh`called, refresh`history, activations
    ensures refresh.Valid()
    ensures refresh.history == AfterRollbacks(old(refresh.history), activations, |activations|)
  {
    for i := 0 to |activations|
      invariant refresh.Valid()
      invariant AllPending(refresh.Held(), refresh.started, activations, i)
      invariant AllHold(activations, i)
      invariant refresh.history == AfterRollbacks(old(refresh.history), activations, i)
    {
      OthersStayPending(refresh.Held(), refresh.started, refresh, activations, i);
      activations[i].Rollback();
    }
  }

  /** The subsystems to start, keyed by cluster. */
  type Given = seq<(string, Option<Subsystem>)>

  ghost predicate ClustersDiffer(given: Given) {
    forall i, j | 0 <= i < j < |given| :: given[i].0 != given[j].0
  }

  ghost predicate StartedFrom(activations: seq<Activation>, given: Given, refresh: RefreshCoordinator, first: nat) {
    && |activations| <= |given|
    && (forall i | 0 <= i < |activations| ::
          && activations[i].refresh == refresh && activations[i].id == first + i
          && given[i] == (activations[i].cluster, Some(Subsystem(activations[i].subsystem, true))))
  }

  /** The log after the first n subsystems of a failed batch were dealt with: the first `created` of
      them had been started as activations first, first + 1, .. and are rolled back, the others are
      only stopped. */
  function AfterUndoing(log: Log, given: Given, first: nat, created: nat, n: nat): Log
    requires n <= |given|
  {
    if n == 0 then log
    else UndoOne(AfterUndoing(log, given, first, created, n - 1), given, first, created, n - 1)
  }

  function UndoOne(log: Log, given: Given, first: nat, created: nat, i: nat): Log
    requires i < |given|
  {
    var (cluster, subsystem) := given[i];
    if subsystem.None? then log
    else if i < created then Then(Then(log, RolledBack(first + i)), Stopped(cluster, subsystem.value.id))
    else Then(log, Stopped(cluster, subsystem.value.id))
  }

  lemma {:induction false} RollbacksAreUndone(
    log: Log, given: Given, refresh: RefreshCoordinator, activations: seq<Activation>, first: nat, n: nat
  )
    requires StartedFrom(activations, given, refresh, first) && n <= |activations|
    ensures AfterRollbacks(log, activations, n) == AfterUndoing(log, given, first, |activations|, n)
  {
    if n > 0 {
      RollbacksAreUndone(log, given, refresh, activations, first, n - 1);
    }
  }

  ghost predicate GivenAmong(given: Given, n: nat, cluster: string, subsystem: nat)
    requires n <= |given|
  {
    exists i :: 0 <= i < n && given[i].0 == cluster && given[i].1.Some? && given[i].1.value.id == subsystem
  }

  /** Exactly the given subsystems are stopped, each once, and none is published. */
  lemma {:induction false} EachStoppedOnce(
    log: Log, given: Given, first: nat, created: nat, n: nat, cluster: string, subsystem: nat, id: nat
  )
    requires ClustersDiffer(given) && n <= |given|
    ensures var after := AfterUndoing(log, given, first, created, n);
            && Occurrences(after, Stopped(cluster, subsystem)) ==
               Occurrences(log, Stopped(cluster, subsystem)) + (if GivenAmong(given, n, cluster, subsystem) then 1 else 0)
            && Occurrences(after, Published(cluster, subsystem, id)) == Occurrences(log, Published(cluster, subsystem, id))
  {
    if n > 0 {
      EachStoppedOnce(log, given, first, created, n - 1, cluster, subsystem, id);
      assert given[n - 1].0 == cluster ==> !GivenAmong(given, n - 1, cluster, subsystem);
    }
  }

  /** The subsystems among the first n given. */
  function GivenIds(given: Given, n: nat): set<nat>
    requires n <= |given|
  {
    set i | 0 <= i < n && given[i].1.Some? :: given[i].1.value.id
  }

  function CreatedFrom(first: nat, count: nat): set<Cancel> {
    set id, c | first <= id < first + count && c in BothOf(id) :: c
  }

  /** The first `created` of the batch were rolled back and the first n stopped. */
  function Abandoned(books: Books, given: Given, first: nat, created: nat, n: nat): Books
    requires n <= |given|
  {
    Books(
      books.table - GivenIds(given, n),
      books.called + CreatedFrom(first, if n <= created then n else created) + TakenFromAll(books.table, GivenIds(given, n))
    )
  }

  lemma AbandonOneMore(books: Books, log: Log, given: Given, first: nat, created: nat, i: nat)
    requires Linear(books.table) && i < |given| && (i < created ==> given[i].1.Some?)
    requires Run(log) == Abandoned(books, given, first, created, i)
    ensures Run(UndoOne(log, given, first, created, i)) == Abandoned(books, given, first, created, i + 1)
  {
    var (cluster, subsystem) := given[i];
    if subsystem.None? {
      assert GivenIds(given, i + 1) == GivenIds(given, i);
    } else {
      assert GivenIds(given, i + 1) == GivenIds(given, i) + {subsystem.value.id};
      TakeOneMore(books.table, GivenIds(given, i), subsystem.value.id);
      assert i < created ==> CreatedFrom(first, i + 1) == CreatedFrom(first, i) + BothOf(first + i);
    }
  }

  lemma {:induction false} UndoingTakesAll(log: Log, given: Given, first: nat, created: nat, n: nat)
    requires Linear(Run(log).table) && n <= |given|
    requires forall i | 0 <= i < created && i < |given| :: given[i].1.Some?
    ensures Run(AfterUndoing(log, given, first, created, n)) == Abandoned(Run(log), given, first, created, n)
  {
    if n > 0 {
      UndoingTakesAll(log, given, first, created, n - 1);
      AbandonOneMore(Run(log), AfterUndoing(log, given, first, created, n - 1), given, first, created, n - 1);
    }
  }

  /** `startRefreshGenerations`: starts all of them or none. On failure every given subsystem has been
      stopped exactly once, as `EachStoppedOnce` says of these steps, and nothing was committed. */
  method StartRefreshGenerations(refresh: RefreshCoordinator, hasContext: bool, given: Given)
    returns (ok: bool, activations: seq<Activation>)
    requires refresh.Valid() && ClustersDiffer(given)
    modifies refresh
    ensures refresh.Valid() && ok == (forall i | 0 <= i < |given| :: Startable(hasContext, given[i].0, given[i].1))
    ensures ok ==>
              && |activations| == |given| && fresh(activations)
              && refresh.history == old(refresh.history) && refresh.Held() == old(refresh.Held())
              && StartedFrom(activations, given, refresh, old(refresh.started))
              && AllHold(activations, 0) && AllPending(refresh.Held(), refresh.started, activations, 0)
    ensures !ok ==>
              && old(refresh.started) <= refresh.started <= old(refresh.started) + |given| && activations == []
              && var created := refresh.started - old(refresh.started);
              && refresh.history == AfterUndoing(old(refresh.history), given, old(refresh.started), created, |given|)
              && refresh.Held() == Abandoned(old(refresh.Held()), given, old(refresh.started), created, |given|)
  {
    activations := [];
    for i := 0 to |given|
      invariant refresh.Valid() && refresh.Held() == old(refresh.Held()) && refresh.history == old(refresh.history)
      invariant refresh.started == old(refresh.started) + i
      invariant |activations| == i && fresh(activations) && StartedFrom(activations, given, refresh, old(refresh.started))
      invariant AllHold(activations, 0) && AllPending(refresh.Held(), refresh.started, activations, 0)
      invariant forall j | 0 <= j < i :: Startable(hasContext, given[j].0, given[j].1)
    {
      var activation := StartRefreshGeneration(refresh, hasContext, given[i].0, given[i].1);
      if activation == null {
        AbandonBatch(refresh, given, old(refresh.started), activations);
        return false, [];
      }
      activations := activations + [activation];
    }
    ok := true;
  }

  /** The failure path of `startRefreshGenerations`: rolls back what was started, then stops the rest. */
  method AbandonBatch(refresh: RefreshCoordinator, given: Given, ghost first: nat, activations: seq<Activation>)
    requires refresh.Valid() && ClustersDiffer(given) && StartedFrom(activations, given, refresh, first)
    requires AllHold(activations, 0) && AllPending(refresh.Held(), refresh.started, activations, 0)
    modifies refresh`runtimes, refresh`called, refresh`history, activations
    ensures refresh.Valid()
    ensures refresh.history == AfterUndoing(old(refresh.history), given, first, |activations|, |given|)
    ensures refresh.Held() == Abandoned(old(refresh.Held()), given, first, |activations|, |given|)
  {
    RollbackRefreshGenerations(refresh, activations);
    RollbacksAreUndone(old(refresh.history), given, refresh, activations, first, |activations|);
    StopRest(refresh, given, old(refresh.history), first, |activations|);
    UndoingTakesAll(old(refresh.history), given, first, |activations|, |given|);
  }

  method StopRest(refresh: RefreshCoordinator, given: Given, ghost before: Log, ghost first: nat, created: nat)
    requires refresh.Valid() && created <= |given|
    requires refresh.history == AfterUndoing(before, given, first, created, created)
    modifies refresh`runtimes, refresh`called, refresh`history
    ensures refresh.Valid() && refresh.history == AfterUndoing(before, given, first, created, |given|)
  {
    for i := created to |given|
      invariant refresh.Valid() && refresh.history == AfterUndoing(before, given, first, created, i)
    {
      if given[i].1.Some? {
        refresh.StopRefreshGeneration(given[i].0, given[i].1.value.id);
      }
    }
  }

  // ----- Publishing a batch -----

  function AfterCommits(log: Log, activations: seq<Activation>, n: nat): Log
    requires n <= |activations|
  {
    if n == 0 then log
    else
      var last := activations[n - 1];
      Then(AfterCommits(log, activations, n - 1), Published(last.cluster, last.subsystem, last.id))
  }

  lemma OthersStayPendingAfterCommit(books: Books, started: nat, refresh: RefreshCoordinator, activations: seq<Activation>, i: nat)
    requires Distinct(refresh, activations) && i < |activations| && AllPending(books, started, activations, i)
    requires Accounted(books.table, started, books.called)
    ensures var a := activations[i];
            AllPending(Apply(books, Published(a.cluster, a.subsystem, a.id)), started, activations, i + 1)
  {
    var a := activations[i];
    CommitKeepsAccounted(books.table, started, books.called, a.cluster, a.subsystem, a.id);
    forall j | i + 1 <= j < |activations|
      ensures BothOf(activations[j].id) !! Retired(books.table, a.cluster, a.subsystem)
    {
      forall c | c in Retired(books.table, a.cluster, a.subsystem) ensures c.activation != activations[j].id {
        var s := RetiredWasHeld(books.table, a.cluster, a.subsystem, c);
      }
    }
  }

  /** `commitRefreshGenerations`. */
  method CommitRefreshGenerations(refresh: RefreshCoordinator, activations: seq<Activation>)
    requires refresh.Valid() && Distinct(refresh, activations) && AllHold(activations, 0)
    requires AllPending(refresh.Held(), refresh.started, activations, 0)
    modifies refresh`runtimes, refresh`called, refresh`history, activations
    ensures refresh.Valid() && refresh.history == AfterCommits(old(refresh.history), activations, |activations|)
  {
    for i := 0 to |activations|
      invariant refresh.Valid() && AllPending(refresh.Held(), refresh.started, activations, i) && AllHold(activations, i)
      invariant refresh.history == AfterCommits(old(refresh.history), activations, i)
    {
      OthersStayPendingAfterCommit(refresh.Held(), refresh.started, refresh, activations, i);
      activations[i].Commit();
    }
  }

  /** Publishing a batch of different subsystems leaves every one of them in the table, revalidating. */
  lemma {:induction false} CommitsPublishEach(
    log: Log, refresh: RefreshCoordinator, activations: seq<Activation>, n: nat, i: nat
  )
    requires Distinct(refresh, activations) && i < n <= |activations|
    requires forall j, k | 0 <= j < k < |activations| :: activations[j].subsystem != activations[k].subsystem
    ensures var table := Run(AfterCommits(log, activations, n)).table;
            && activations[i].subsystem in table
            && table[activations[i].subsystem] == Runtime(activations[i].cluster, activations[i].id, true)
  {
    if i < n - 1 {
      CommitsPublishEach(log, refresh, activations, n - 1, i);
    }
  }

  // ----- Generations of all clusters, interleaved -----

  datatype State = State(
    started: nat,
    held: set<nat>,          // activations that still own their cancel functions
    table: Table,
    inFlight: set<Cancel>,   // taken out under the mutex, not called yet
    calls: multiset<Cancel>
  )

  datatype Event =
    | Start
    | Commit(activation: nat, cluster: string, subsystem: nat)  // the mutex region of a commit
    | Rollback(activation: nat)
    | Take(subsystem: nat)                                      // the mutex region of a stop
    | Call(c: Cancel)

  const INITIAL := State(0, {}, map[], {}, multiset{})

  predicate Enabled(s: State, e: Event) {
    match e
    case Start => true
    case Commit(activation, cluster, _) => activation in s.held && cluster != ""
    case Rollback(activation) => activation in s.held
    case Take(_) => true
    case Call(c) => c in s.inFlight
  }

  function Next(s: State, e: Event): State
    requires Enabled(s, e)
  {
    match e
    case Start => s.(started := s.started + 1, held := s.held + {s.started})
    case Commit(activation, cluster, subsystem) =>
      s.(held := s.held - {activation}, table := Committed(s.table, cluster, subsystem, activation),
         inFlight := s.inFlight + Retired(s.table, cluster, subsystem))
    case Rollback(activation) => s.(held := s.held - {activation}, inFlight := s.inFlight + BothOf(activation))
    case Take(subsystem) => s.(table := s.table - {subsystem}, inFlight := s.inFlight + TakenFrom(s.table, subsystem))
    case Call(c) => s.(inFlight := s.inFlight - {c}, calls := s.calls[c := s.calls[c] + 1])
  }

  ghost predicate Behaviour(states: seq<State>, events: seq<Event>) {
    && |states| == |events| + 1
    && states[0] == INITIAL
    && forall i | 0 <= i < |events| :: Enabled(states[i], events[i]) && states[i + 1] == Next(states[i], events[i])
  }

  // ----- The invariant -----

  ghost predicate InTable(table: Table, c: Cancel) {
    exists s :: s in table && c in CancelsOf(table[s])
  }

  function Spent(s: State): set<Cancel> {
    s.inFlight + set c | c in s.calls
  }

  ghost predicate CallsOnce(s: State) {
    forall c: Cancel :: s.calls[c] <= 1 && (c in s.inFlight ==> s.calls[c] == 0)
  }

  ghost predicate HeldPending(s: State) {
    forall a | a in s.held :: Pending(s.table, s.started, Spent(s), a)
  }

  /** No started cancel function is lost. */
  ghost predicate NoneLost(s: State) {
    forall c: Cancel | c.activation < s.started && c !in Spent(s) :: c.activation in s.held || InTable(s.table, c)
  }

  ghost predicate OneRevalidator(table: Table) {
    forall s, s' | s in table && s' in table && table[s].revalidating && table[s'].revalidating && table[s].cluster == table[s'].cluster ::
      s == s'
  }

  ghost predicate Inv(s: State) {
    && Accounted(s.table, s.started, Spent(s))
    && CallsOnce(s)
    && HeldPending(s)
    && NoneLost(s)
    && OneRevalidator(s.table)
  }

  lemma SpentAfterCall(s: State, c: Cancel)
    requires c in s.inFlight
    ensures Spent(Next(s, Call(c))) == Spent(s)
  {
  }

  lemma StepKeepsAccounted(s: State, e: Event)
    requires Accounted(s.table, s.started, Spent(s)) && HeldPending(s) && Enabled(s, e)
    ensures Accounted(Next(s, e).table, Next(s, e).started, Spent(Next(s, e)))
  {
    match e
    case Start =>
    case Commit(activation, cluster, subsystem) =>
      CommitKeepsAccounted(s.table, s.started, Spent(s), cluster, subsystem, activation);
      assert Spent(Next(s, e)) == Spent(s) + Retired(s.table, cluster, subsystem);
    case Rollback(activation) =>
      SpendingPendingKeepsAccounted(s.table, s.started, Spent(s), activation);
      assert Spent(Next(s, e)) == Spent(s) + BothOf(activation);
    case Take(subsystem) =>
      StopKeepsAccounted(s.table, s.started, Spent(s), subsystem);
      assert Spent(Next(s, e)) == Spent(s) + TakenFrom(s.table, subsystem);
    case Call(c) => SpentAfterCall(s, c);
  }

  lemma StepKeepsCallsOnce(s: State, e: Event)
    requires Inv(s) && Enabled(s, e)
    ensures CallsOnce(Next(s, e))
  {
    match e
    case Start =>
    case Commit(activation, cluster, subsystem) =>
      CommitKeepsAccounted(s.table, s.started, Spent(s), cluster, subsystem, activation);
    case Rollback(activation) =>
    case Take(subsystem) =>
    case Call(c) =>
  }

  lemma CommitKeepsPending(s: State, activation: nat, cluster: string, subsystem: nat, a: nat)
    requires Inv(s) && activation in s.held && cluster != "" && a in s.held && a != activation
    ensures var s' := Next(s, Commit(activation, cluster, subsystem)); Pending(s'.table, s'.started, Spent(s'), a)
  {
    forall c | c in Retired(s.table, cluster, subsystem) ensures c.activation != a {
      var holder := RetiredWasHeld(s.table, cluster, subsystem, c);
    }
    assert BothOf(a) !! Retired(s.table, cluster, subsystem);
  }

  lemma StepKeepsPending(s: State, e: Event)
    requires Inv(s) && Enabled(s, e)
    ensures HeldPending(Next(s, e))
  {
    match e
    case Start =>
    case Commit(activation, cluster, subsystem) =>
      forall a | a in s.held - {activation} {
        CommitKeepsPending(s, activation, cluster, subsystem, a);
      }
    case Rollback(activation) =>
    case Take(subsystem) =>
    case Call(c) => SpentAfterCall(s, c);
  }

  lemma CommitLosesNone(s: State, activation: nat, cluster: string, subsystem: nat, c: Cancel)
    requires Inv(s) && activation in s.held
    requires c.activation < s.started && c !in Spent(s)
    ensures || c.activation in s.held - {activation}
            || InTable(Committed(s.table, cluster, subsystem, activation), c)
            || c in Retired(s.table, cluster, subsystem)
  {
    var after := Committed(s.table, cluster, subsystem, activation);
    if c.activation == activation {
      assert c in CancelsOf(after[subsystem]);
    } else if c.activation !in s.held {
      var holder :| holder in s.table && c in CancelsOf(s.table[holder]);
      if c in RetiredFrom(s.table, holder, cluster, subsystem) {
      } else {
        assert c in CancelsOf(after[holder]);
      }
    }
  }

  lemma StepKeepsNoneLost(s: State, e: Event)
    requires Inv(s) && Enabled(s, e)
    ensures NoneLost(Next(s, e))
  {
    var s' := Next(s, e);
    forall c: Cancel | c.activation < s'.started && c !in Spent(s') ensures c.activation in s'.held || InTable(s'.table, c) {
      match e
      case Start =>
      case Commit(activation, cluster, subsystem) => CommitLosesNone(s, activation, cluster, subsystem, c);
      case Rollback(activation) =>
      case Take(subsystem) =>
        if c.activation !in s.held {
          var holder :| holder in s.table && c in CancelsOf(s.table[holder]);
          assert holder in s'.table;
        }
      case Call(called) => SpentAfterCall(s, called);
    }
  }

  lemma StepKeepsOneRevalidator(s: State, e: Event)
    requires OneRevalidator(s.table) && Enabled(s, e)
    ensures OneRevalidator(Next(s, e).table)
  {
  }

  lemma {:induction false} ReachableInv(states: seq<State>, events: seq<Event>, n: nat)
    requires Behaviour(states, events) && n < |states|
    ensures Inv(states[n])
  {
    if n > 0 {
      ReachableInv(states, events, n - 1);
      var s, e := states[n - 1], events[n - 1];
      assert Enabled(s, e) && states[n] == Next(s, e);
      StepKeepsOneRevalidator(s, e);
      StepKeepsAccounted(s, e);
      StepKeepsCallsOnce(s, e);
      StepKeepsPending(s, e);
      StepKeepsNoneLost(s, e);
    }
  }

  // ----- What every run guarantees -----

  /** Every cancel function of a started generation is in exactly one place: with its activation, in
      one entry of the table, taken and about to be called, or called exactly once. */
  lemma ExactlyOnePlace(states: seq<State>, events: seq<Event>, n: nat, c: Cancel)
    requires Behaviour(states, events) && n < |states| && c.activation < states[n].started
    ensures var s := states[n];
            && s.calls[c] <= 1
            && (c.activation in s.held || InTable(s.table, c) || c in s.inFlight || c in s.calls)
            && (c.activation in s.held ==> !InTable(s.table, c) && c !in s.inFlight && c !in s.calls)
            && (InTable(s.table, c) ==> c !in s.inFlight && c !in s.calls)
            && (c in s.inFlight ==> c !in s.calls)
    ensures forall e, e' | e in states[n].table && e' in states[n].table
              && c in CancelsOf(states[n].table[e]) && c in CancelsOf(states[n].table[e']) :: e == e'
  {
    ReachableInv(states, events, n);
    var s := states[n];
    assert Inv(s);
    if c.activation in s.held {
      assert c in BothOf(c.activation);
      assert Pending(s.table, s.started, Spent(s), c.activation);
    }
  }

  /** Per cluster at most one generation in the table still revalidates permissions. */
  lemma OneRevalidatorPerCluster(states: seq<State>, events: seq<Event>, n: nat, a: nat, b: nat)
    requires Behaviour(states, events) && n < |states|
    requires a in states[n].table && b in states[n].table && states[n].table[a].cluster == states[n].table[b].cluster
    requires states[n].table[a].revalidating && states[n].table[b].revalidating
    ensures a == b
  {
    ReachableInv(states, events, n);
  }

  predicate Replaces(e: Event, cluster: string) {
    e.Commit? && e.cluster == cluster
  }

  predicate Ends(e: Event, subsystem: nat) {
    e == Take(subsystem) || (e.Commit? && e.subsystem == subsystem)
  }

  /** Nothing but stopping or republishing a generation itself cancels its manager, and nothing but a
      commit for its cluster cancels its revalidator besides. */
  lemma {:induction false} OthersLeaveGenerationAlone(states: seq<State>, events: seq<Event>, n: nat, m: nat, subsystem: nat)
    requires Behaviour(states, events) && n <= m < |states| && subsystem in states[n].table
    requires forall i | n <= i < m :: !Ends(events[i], subsystem)
    ensures var before, after := states[n].table[subsystem], states[m].table;
            && subsystem in after
            && after[subsystem].activation == before.activation && after[subsystem].cluster == before.cluster
            && ManagerOf(before.activation) !in states[m].inFlight && ManagerOf(before.activation) !in states[m].calls
            && ((forall i | n <= i < m :: !Replaces(events[i], before.cluster)) ==> after[subsystem] == before)
    decreases m
  {
    if m > n {
      OthersLeaveGenerationAlone(states, events, n, m - 1, subsystem);
    }
    ReachableInv(states, events, m);
    assert ManagerOf(states[m].table[subsystem].activation) in CancelsOf(states[m].table[subsystem]);
  }

  /** Once nothing is held, routed or in flight, every cancel function has been called once. */
  lemma NothingLeaksAtRest(states: seq<State>, events: seq<Event>, n: nat, c: Cancel)
    requires Behaviour(states, events) && n < |states| && c.activation < states[n].started
    requires states[n].held == {} && states[n].table == map[] && states[n].inFlight == {}
    ensures states[n].calls[c] == 1
  {
    ExactlyOnePlace(states, events, n, c);
  }

  /** Whatever a run has come to, a generation may start; what was started may be committed under a cluster
      or rolled back, and any generation may be stopped. */
  lemma CallersAreFree(states: seq<State>, events: seq<Event>, activation: nat, cluster: string, subsystem: nat)
    requires Behaviour(states, events)
    ensures var s := states[|events|];
            && Behaviour(states + [Next(s, Start)], events + [Start])
            && Behaviour(states + [Next(s, Take(subsystem))], events + [Take(subsystem)])
            && (activation in s.held ==> Behaviour(states + [Next(s, Rollback(activation))], events + [Rollback(activation)]))
            && (activation in s.held && cluster != "" ==>
                  Behaviour(states + [Next(s, Commit(activation, cluster, subsystem))], events + [Commit(activation, cluster, subsystem)]))
  {
  }

  /** A start brings cancel functions that nobody had; a call in flight is done with once it is made. */
  lemma StartsAndCallsTakeEffect(states: seq<State>, events: seq<Event>, n: nat)
    requires Behaviour(states, events) && n < |events|
    ensures events[n].Start? ==>
              var a := states[n].started;
              && a !in states[n].held && states[n + 1].held == states[n].held + {a} && states[n + 1].started == a + 1
              && ManagerOf(a) !in states[n].calls && PermissionOf(a) !in states[n].calls
    ensures events[n].Call? ==>
              && states[n + 1].inFlight == states[n].inFlight - {events[n].c} && |states[n + 1].inFlight| < |states[n].inFlight|
              && states[n].calls[events[n].c] == 0 && states[n + 1].calls[events[n].c] == 1
  {
    ReachableInv(states, events, n);
    assert Enabled(states[n], events[n]) && states[n + 1] == Next(states[n], events[n]);
    var a := states[n].started;
    if events[n].Start? {
      NotSpentYet(states, events, n, ManagerOf(a));
      NotSpentYet(states, events, n, PermissionOf(a));
    }
  }

  lemma NotSpentYet(states: seq<State>, events: seq<Event>, n: nat, c: Cancel)
    requires Behaviour(states, events) && n < |states| && c.activation >= states[n].started
    ensures c !in Spent(states[n])
  {
    ReachableInv(states, events, n);
  }
}
