/**
 Manual refresh jobs across per-cluster queues (backend/refresh_aggregate_manual_queue.go).

 A job is bound to a child job on its cluster's queue. When the queues change, unfinished children are
 enqueued again on the replacement queue and the job is rebound, if it is still bound to the child the
 move was planned from. The class is the code with updates one at a time; the state machine
 interleaves any number of updates, submissions and running children.
 */
module ManualQueue {
  import opened Wrappers
  import opened RefreshScope

  datatype JobState = Queued | Running | Succeeded | Failed | Cancelled

  predicate Unfinished(s: JobState) {
    s == Queued || s == Running
  }

  datatype Request = Request(domain: string, scope: string, reason: string)

  /** What a queue reports besides the state; the times are in milliseconds. */
  datatype Report = Report(error: string, version: nat, startedAt: int, finishedAt: int)

  const UNREPORTED := Report("", 0, 0, 0)

  /** A job as its per-cluster queue keeps it. */
  datatype Child = Child(request: Request, state: JobState, report: Report)

  datatype Binding = Binding(queue: nat, job: nat)

  datatype Job = Job(request: Request, cluster: string, child: Binding)

  type Queues = map<string, nat>
  type Jobs = map<nat, Job>
  type Children = map<Binding, Child>

  /** What is enqueued on the cluster's own queue for a job, first and on every move. */
  function ChildRequest(request: Request, cluster: string): Request {
    request.(scope := JoinClusterScope(cluster, SplitClusterScopeList(request.scope).1))
  }

  /** The clusters a request names. */
  function Targets(scope: string): seq<string> {
    SplitClusterScopeList(scope).0
  }

  /** `manualChildNeedsMigration`: a missing child counts as unfinished. */
  predicate NeedsMigration(child: Binding, replacement: Option<nat>, children: Children) {
    replacement.Some? && child.queue != replacement.value && (child in children ==> Unfinished(children[child].state))
  }

  /** The child of a job keeps its domain, reason and scope part, and is for the job's cluster alone; the
      per-cluster queue reads that cluster back from the child's scope as long as it is not taken for a list. */
  lemma ChildKeepsRequest(request: Request, cluster: string)
    requires SplitClusterScopeList(request.scope).0 == [cluster]
    ensures var child := ChildRequest(request, cluster);
            && child.domain == request.domain && child.reason == request.reason
            && SplitClusterScope(child.scope).0 == cluster
            && SplitClusterScopeList(child.scope).1 == SplitClusterScopeList(request.scope).1
            && (Targets(child.scope) == Targets(request.scope) <==> !(PREFIX <= cluster))
  {
    var scope := SplitClusterScopeList(request.scope).1;
    assert cluster in [cluster];
    RequestedIsListable(request.scope, cluster);
    TargetSurvivesIff(cluster, scope);
  }

  datatype Migration = Migration(id: nat, cluster: string, request: Request, previous: Binding, replacement: nat)

  /** The updates below only need to know that a move enqueues what the first enqueue did, so they take
      the derivation of the child request as a parameter; in the code it is `ChildRequest`. */
  type Derivation = (Request, string) -> Request

  function MigrationFor(derive: Derivation, jobs: Jobs, queues: Queues, id: nat): Migration
    requires id in jobs && jobs[id].cluster in queues
  {
    var job := jobs[id];
    Migration(id, job.cluster, derive(job.request, job.cluster), job.child, queues[job.cluster])
  }

  function ToMigrate(jobs: Jobs, queues: Queues, children: Children): set<nat> {
    set id | id in jobs && NeedsMigration(jobs[id].child, Lookup(queues, jobs[id].cluster), children)
  }

  datatype Outcome = Accepted(id: nat) | DomainRequired | ClusterRequired | SingleClusterRequired | ClusterNotActive | Rejected

  /** `resolveTarget`. */
  function Resolve(clusters: seq<string>, queues: Queues): Outcome {
    if |clusters| == 0 then ClusterRequired
    else if |clusters| > 1 then SingleClusterRequired
    else if clusters[0] !in queues then ClusterNotActive
    else Accepted(0)
  }

  datatype Status = Status(request: Request, state: JobState, report: Report)

  function Max(a: int, b: int): int {
    if a < b then b else a
  }

  // ----- After one whole update -----

  /** The job moved to a new child on its cluster's queue, with the same request. */
  ghost predicate MovedTo(derive: Derivation, job: Job, after: Job, queue: nat, issued: nat, children: Children) {
    && after == job.(child := after.child)
    && after.child.queue == queue && after.child.job >= issued
    && after.child in children && children[after.child] == Child(derive(job.request, job.cluster), Queued, UNREPORTED)
  }

  ghost predicate Kept(before: Children, after: Children) {
    forall b | b in before :: b in after && after[b] == before[b]
  }

  /** Of the jobs in `done`, those whose enqueue succeeded moved; all others are as they were. */
  ghost predicate Migrated(
    derive: Derivation, before: Jobs, after: Jobs, queues: Queues, done: set<nat>, failing: set<nat>, issued: nat, children: Children
  ) {
    && after.Keys == before.Keys
    && (forall id | id in before && (id !in done || id in failing) :: after[id] == before[id])
    && (forall id | id in before && id in done && id !in failing ::
          before[id].cluster in queues && MovedTo(derive, before[id], after[id], queues[before[id].cluster], issued, children))
  }

  class AggregateManualQueue {
    var queues: Queues
    var jobs: Jobs
    var children: Children   // the jobs held by all per-cluster queues
    var issued: nat          // job ids issued so far
    const targets: string -> seq<string>
    const derive: Derivation

    ghost predicate Valid()
      reads this
    {
      && (forall id | id in jobs :: id < issued && jobs[id].child.job < issued)
      && (forall id | id in jobs :: derive(jobs[id].request, jobs[id].cluster).domain != "")
      && (forall b | b in children :: b.job < issued)
    }

    constructor (queues: Queues)
      ensures Valid() && this.queues == queues && jobs == map[] && children == map[]
      ensures derive == ChildRequest && targets == Targets
    {
      derive, targets := ChildRequest, Targets;
      this.queues, jobs, children, issued := queues, map[], map[], 0;
    }

    /** `Enqueue` of one per-cluster queue. */
    method EnqueueOn(queue: nat, request: Request, accepts: bool) returns (job: Option<nat>)
      requires Valid()
      modifies `children, `issued
      ensures Valid() && job == if accepts && request.domain != "" then Some(old(issued)) else None
      ensures issued == old(issued) + if job.Some? then 1 else 0
      ensures children == if job.Some? then old(children)[Binding(queue, old(issued)) := Child(request, Queued, UNREPORTED)] else old(children)
    {
      if !accepts || request.domain == "" {
        return None;
      }
      children := children[Binding(queue, issued) := Child(request, Queued, UNREPORTED)];
      job := Some(issued);
      issued := issued + 1;
    }

    /** Registers a job for exactly one active cluster, bound to a queued child with its request. */
    method Enqueue(request: Request, accepts: bool) returns (outcome: Outcome)
      requires Valid()
      modifies `jobs, `children, `issued
      ensures Valid() && Kept(old(children), children)
      ensures !outcome.Accepted? ==> jobs == old(jobs) && children == old(children)
      ensures outcome.Accepted? ==>
                var clusters := targets(request.scope);
                && request.domain != "" && accepts && |clusters| == 1 && clusters[0] in queues
                && outcome.id !in old(jobs) && outcome.id in jobs
                && jobs == old(jobs)[outcome.id := jobs[outcome.id]]
                && MovedTo(derive, Job(request, clusters[0], Binding(0, 0)), jobs[outcome.id], queues[clusters[0]], old(issued), children)
      ensures !outcome.Accepted? && outcome != Rejected ==>
                outcome == if request.domain == "" then DomainRequired else Resolve(targets(request.scope), queues)
      ensures outcome == DomainRequired <==> request.domain == ""
      ensures outcome == ClusterRequired <==> request.domain != "" && targets(request.scope) == []
      ensures outcome == SingleClusterRequired <==> request.domain != "" && |targets(request.scope)| > 1
      ensures outcome == ClusterNotActive <==> request.domain != "" && |targets(request.scope)| == 1 && targets(request.scope)[0] !in queues
    {
      if request.domain == "" {
        return DomainRequired;
      }
      var clusters := targets(request.scope);
      outcome := Resolve(clusters, queues);
      if !outcome.Accepted? {
        return;
      }
      var target := clusters[0];
      var queue := queues[target];
      var child := EnqueueOn(queue, derive(request, target), accepts);
      if child.None? {
        return Rejected;
      }
      outcome := Accepted(issued);
      jobs := jobs[issued := Job(request, target, Binding(queue, child.value))];
      issued := issued + 1;
    }

    /** The job's own request with the state and the report of its child, as far as the child is there;
        no time is negative, and an error names the cluster. */
    method GetStatus(id: nat) returns (status: Option<Status>)
      ensures status.Some? <==> id in jobs
      ensures id in jobs ==>
                var job, child := jobs[id], Lookup(children, jobs[id].child);
                var shown := status.value;
                && shown.request == job.request
                && (child.None? ==> shown.state == Failed && shown.report == UNREPORTED.(error := "cluster " + job.cluster + " job missing"))
                && (child.Some? ==>
                      && shown.state == child.value.state && shown.report.version == child.value.report.version
                      && (child.value.report.error == "" ==> shown.report.error == "")
                      && (child.value.report.error != "" ==> shown.report.error == job.cluster + ": " + child.value.report.error)
                      && shown.report.startedAt == (if child.value.report.startedAt < 0 then 0 else child.value.report.startedAt)
                      && shown.report.finishedAt == (if child.value.report.finishedAt < 0 then 0 else child.value.report.finishedAt))
    {
      if id !in jobs {
        return None;
      }
      var job := jobs[id];
      if job.child !in children {
        return Some(Status(job.request, Failed, UNREPORTED.(error := "cluster " + job.cluster + " job missing")));
      }
      var child := children[job.child];
      var report := child.report;
      if report.error != "" {
        report := report.(error := job.cluster + ": " + report.error);
      }
      report := report.(startedAt := Max(0, report.startedAt), finishedAt := Max(0, report.finishedAt));
      status := Some(Status(job.request, child.state, report));
    }

    method UnfinishedJobMigrations(replacements: Queues) returns (migrations: seq<Migration>)
      ensures Planned(derive, migrations, jobs, replacements, ToMigrate(jobs, replacements, children))
    {
      migrations := [];
      var rest := jobs.Keys;
      ghost var all, planned: set<nat> := ToMigrate(jobs, replacements, children), {};
      while rest != {}
        invariant rest <= jobs.Keys && planned == all - rest
        invariant Planned(derive, migrations, jobs, replacements, planned)
      {
        var id :| id in rest;
        if NeedsMigration(jobs[id].child, Lookup(replacements, jobs[id].cluster), children) {
          PlanOneMore(derive, migrations, jobs, replacements, planned, id);
          migrations := migrations + [MigrationFor(derive, jobs, replacements, id)];
          planned := planned + {id};
        }
        rest := rest - {id};
      }
      assert planned == all;
    }

    /** Enqueues on the replacement queue, then rebinds the job if it is still bound to the child that
        the migration was planned from. */
    method MoveUnfinishedJob(m: Migration, accepts: bool)
      requires Valid()
      modifies `jobs, `children, `issued
      ensures Valid() && issued >= old(issued) && Kept(old(children), children)
      ensures accepts && m.request.domain != "" && m.id in old(jobs) && old(jobs)[m.id].cluster == m.cluster && old(jobs)[m.id].child == m.previous ==>
                && jobs == old(jobs)[m.id := old(jobs)[m.id].(child := Binding(m.replacement, old(issued)))]
                && Lookup(children, Binding(m.replacement, old(issued))) == Some(Child(m.request, Queued, UNREPORTED))
      ensures !(accepts && m.request.domain != "" && m.id in old(jobs) && old(jobs)[m.id].cluster == m.cluster && old(jobs)[m.id].child == m.previous) ==>
                jobs == old(jobs)
    {
      var child := EnqueueOn(m.replacement, m.request, accepts);
      if child.None? {
        return;
      }
      if m.id !in jobs {
        return;
      }
      var job := jobs[m.id];
      if job.cluster == m.cluster && job.child == m.previous {
        jobs := jobs[m.id := job.(child := Binding(m.replacement, child.value))];
      }
    }

    /** One whole update. `failing` are the jobs for which the replacement queue refuses the child. */
    method UpdateConfig(next: Queues, failing: set<nat>)
      requires Valid()
      modifies this
      ensures Valid() && queues == next && Kept(old(children), children)
      ensures Migrated(derive, old(jobs), jobs, next, ToMigrate(old(jobs), next, old(children)), failing, old(issued), children)
    {
      queues := next;
      MoveUnfinishedJobs(next, failing);
    }

    method MoveUnfinishedJobs(next: Queues, failing: set<nat>)
      requires Valid()
      modifies `jobs, `children, `issued
      ensures Valid() && Kept(old(children), children)
      ensures Migrated(derive, old(jobs), jobs, next, ToMigrate(old(jobs), next, old(children)), failing, old(issued), children)
    {
      var migrations := UnfinishedJobMigrations(next);
      ghost var before, all := jobs, ToMigrate(jobs, next, children);
      for i := 0 to |migrations|
        invariant Valid() && issued >= old(issued) && Kept(old(children), children)
        invariant Migrated(derive, before, jobs, next, FirstIds(migrations, i), failing, old(issued), children)
      {
        ghost var childrenBefore, jobsBefore := children, jobs;
        PlannedOnce(derive, migrations, before, next, all, i);
        MoveUnfinishedJob(migrations[i], migrations[i].id !in failing);
        MigrateOneMore(derive, before, jobsBefore, jobs, next, migrations, i, failing, old(issued), childrenBefore, children);
      }
      PlannedAll(derive, migrations, before, next, all);
    }
  }

  // ----- The plan -----

  function FirstIds(migrations: seq<Migration>, n: nat): set<nat>
    requires n <= |migrations|
  {
    set i | 0 <= i < n :: migrations[i].id
  }

  /** One migration for each of `ids`, planned from the job's current child. */
  ghost predicate Planned(derive: Derivation, migrations: seq<Migration>, jobs: Jobs, queues: Queues, ids: set<nat>) {
    && (forall i, j | 0 <= i < j < |migrations| :: migrations[i].id != migrations[j].id)
    && (forall i | 0 <= i < |migrations| ::
          && migrations[i].id in ids && migrations[i].id in jobs && jobs[migrations[i].id].cluster in queues
          && migrations[i] == MigrationFor(derive, jobs, queues, migrations[i].id))
    && (forall id | id in ids :: exists i :: 0 <= i < |migrations| && migrations[i].id == id)
  }

  lemma PlanOneMore(derive: Derivation, migrations: seq<Migration>, jobs: Jobs, queues: Queues, ids: set<nat>, id: nat)
    requires Planned(derive, migrations, jobs, queues, ids) && id in jobs && id !in ids && jobs[id].cluster in queues
    ensures Planned(derive, migrations + [MigrationFor(derive, jobs, queues, id)], jobs, queues, ids + {id})
  {
    var more := migrations + [MigrationFor(derive, jobs, queues, id)];
    forall k | k in ids + {id} ensures exists i :: 0 <= i < |more| && more[i].id == k {
      if k == id {
        assert more[|migrations|].id == k;
      } else {
        var i :| 0 <= i < |migrations| && migrations[i].id == k;
        assert more[i].id == k;
      }
    }
  }

  lemma PlannedAll(derive: Derivation, migrations: seq<Migration>, jobs: Jobs, queues: Queues, ids: set<nat>)
    requires Planned(derive, migrations, jobs, queues, ids)
    ensures FirstIds(migrations, |migrations|) == ids
  {
  }

  lemma PlannedOnce(derive: Derivation, migrations: seq<Migration>, jobs: Jobs, queues: Queues, ids: set<nat>, i: nat)
    requires Planned(derive, migrations, jobs, queues, ids) && i < |migrations|
    ensures migrations[i].id in jobs && jobs[migrations[i].id].cluster in queues
    ensures migrations[i] == MigrationFor(derive, jobs, queues, migrations[i].id) && migrations[i].id !in FirstIds(migrations, i)
  {
  }

  lemma MigrateOneMore(
    derive: Derivation, before: Jobs, mid: Jobs, after: Jobs, queues: Queues, migrations: seq<Migration>, i: nat,
    failing: set<nat>, issued: nat, midChildren: Children, children: Children
  )
    requires i < |migrations| && Migrated(derive, before, mid, queues, FirstIds(migrations, i), failing, issued, midChildren)
    requires var id := migrations[i].id; id in before && before[id].cluster in queues && id !in FirstIds(migrations, i)
    requires Kept(midChildren, children)
    requires var id := migrations[i].id;
             if id in failing then after == mid
             else after.Keys == mid.Keys && (forall k | k in mid && k != id :: after[k] == mid[k])
                  && MovedTo(derive, before[id], after[id], queues[before[id].cluster], issued, children)
    ensures Migrated(derive, before, after, queues, FirstIds(migrations, i + 1), failing, issued, children)
  {
    assert FirstIds(migrations, i + 1) == FirstIds(migrations, i) + {migrations[i].id};
  }

  /** After an update whose enqueues succeed, every job of a cluster with a queue is bound to that queue
      or has a finished child where it was; no finished child moved, and requests are untouched. */
  lemma UpdateLeavesNoneBehind(
    derive: Derivation, before: Jobs, after: Jobs, queues: Queues, children: Children, issued: nat, children': Children, id: nat
  )
    requires Migrated(derive, before, after, queues, ToMigrate(before, queues, children), {}, issued, children') && Kept(children, children')
    requires id in before
    ensures id in after && after[id].request == before[id].request && after[id].cluster == before[id].cluster
    ensures before[id].cluster in queues ==>
              || after[id].child.queue == queues[before[id].cluster]
              || (after[id].child in children' && !Unfinished(children'[after[id].child].state))
    ensures before[id].child in children && !Unfinished(children[before[id].child].state) ==> after[id].child == before[id].child
    ensures before[id].child in children && children[before[id].child].state in {Succeeded, Failed, Cancelled} ==> after[id].child == before[id].child
    ensures before[id].cluster in queues && (before[id].child in children ==> children[before[id].child].state in {Queued, Running}) ==>
              after[id].child.queue == queues[before[id].cluster]
    ensures before[id].cluster !in queues ==> after[id].child == before[id].child
  {
  }

  // ----- Updates, submissions and running children, interleaved -----

  /** One planned move; `made` is the child it has enqueued on the replacement queue. */
  datatype Flight = Flight(id: nat, previous: Binding, replacement: nat, made: Option<nat>)

  /** `left` remembers which children each job was bound to before. */
  datatype State = State(jobs: Jobs, children: Children, flights: map<nat, Flight>, issued: nat, planned: nat, left: set<(nat, Binding)>)

  datatype Event =
    | Submit(request: Request, cluster: string, queue: nat)
    | Plan(id: nat, replacement: nat)      // one job of a plan made under the read lock
    | Reenqueue(flight: nat, accepted: bool)
    | Rebind(flight: nat)                  // the compare and swap
    | Progress(child: Binding, state: JobState, report: Report)

  const INITIAL := State(map[], map[], map[], 0, 0, {})

  predicate Enabled(s: State, e: Event) {
    match e
    case Submit(_, _, _) => true
    case Plan(id, replacement) => id in s.jobs && NeedsMigration(s.jobs[id].child, Some(replacement), s.children)
    case Reenqueue(f, _) => f in s.flights && s.flights[f].made.None? && s.flights[f].id in s.jobs
    case Rebind(f) => f in s.flights && s.flights[f].made.Some? && s.flights[f].id in s.jobs
    case Progress(b, _, _) => b in s.children && Unfinished(s.children[b].state)
  }

  function Next(derive: Derivation, s: State, e: Event): State
    requires Enabled(s, e)
  {
    match e
    case Submit(request, cluster, queue) =>
      var child := Binding(queue, s.issued);
      s.(children := s.children[child := Child(derive(request, cluster), Queued, UNREPORTED)],
         jobs := s.jobs[s.issued + 1 := Job(request, cluster, child)], issued := s.issued + 2)
    case Plan(id, replacement) =>
      s.(flights := s.flights[s.planned := Flight(id, s.jobs[id].child, replacement, None)], planned := s.planned + 1)
    case Reenqueue(f, accepted) =>
      if !accepted then s.(flights := s.flights - {f})
      else
        var job, flight := s.jobs[s.flights[f].id], s.flights[f];
        s.(children := s.children[Binding(flight.replacement, s.issued) := Child(derive(job.request, job.cluster), Queued, UNREPORTED)],
           flights := s.flights[f := flight.(made := Some(s.issued))], issued := s.issued + 1)
    case Rebind(f) =>
      var flight := s.flights[f];
      var job := s.jobs[flight.id];
      if job.child != flight.previous then s.(flights := s.flights - {f})
      else
        s.(jobs := s.jobs[flight.id := job.(child := Binding(flight.replacement, flight.made.value))],
           flights := s.flights - {f}, left := s.left + {(flight.id, job.child)})
    case Progress(b, state, report) => s.(children := s.children[b := s.children[b].(state := state, report := report)])
  }

  ghost predicate Behaviour(derive: Derivation, states: seq<State>, events: seq<Event>) {
    && |states| == |events| + 1
    && states[0] == INITIAL
    && forall i | 0 <= i < |events| :: Enabled(states[i], events[i]) && states[i + 1] == Next(derive, states[i], events[i])
  }

  /** Every id in use was issued before. */
  ghost predicate IssuedOnly(s: State) {
    && (forall id | id in s.jobs :: id < s.issued && s.jobs[id].child.job < s.issued)
    && (forall b | b in s.children :: b.job < s.issued)
    && (forall f | f in s.flights :: f < s.planned && s.flights[f].id in s.jobs && (s.flights[f].made.Some? ==> s.flights[f].made.value < s.issued))
    && (forall l | l in s.left :: l.1.job < s.issued)
  }

  predicate Made(s: State, f: nat) {
    f in s.flights && s.flights[f].made.Some?
  }

  ghost predicate Unbound(jobs: Jobs, child: nat) {
    forall id | id in jobs :: jobs[id].child.job != child
  }

  ghost predicate NotLeft(left: set<(nat, Binding)>, child: nat) {
    forall l | l in left :: l.1.job != child
  }

  /** A child that was made for a move is bound to nothing yet, .. */
  ghost predicate MadeUnbound(s: State) {
    forall f | Made(s, f) :: Unbound(s.jobs, s.flights[f].made.value)
  }

  /** .. was bound to nothing before, .. */
  ghost predicate MadeNotLeft(s: State) {
    forall f | Made(s, f) :: NotLeft(s.left, s.flights[f].made.value)
  }

  /** .. and belongs to that move alone. */
  ghost predicate MadeOnce(s: State) {
    forall f, g | Made(s, f) && Made(s, g) && s.flights[f].made == s.flights[g].made :: f == g
  }

  ghost predicate NeverBack(s: State) {
    forall id | id in s.jobs :: (id, s.jobs[id].child) !in s.left
  }

  /** The child of a job carries the job's own request, .. */
  ghost predicate ChildrenMatch(derive: Derivation, s: State) {
    forall id | id in s.jobs ::
      s.jobs[id].child in s.children && s.children[s.jobs[id].child].request == derive(s.jobs[id].request, s.jobs[id].cluster)
  }

  /** .. and so does a child made for one of its moves. */
  ghost predicate MadeMatch(derive: Derivation, s: State) {
    forall f | Made(s, f) && s.flights[f].id in s.jobs ::
      var made, job := Binding(s.flights[f].replacement, s.flights[f].made.value), s.jobs[s.flights[f].id];
      made in s.children && s.children[made].request == derive(job.request, job.cluster)
  }

  lemma StepKeepsIssued(derive: Derivation, s: State, e: Event)
    requires IssuedOnly(s) && Enabled(s, e)
    ensures IssuedOnly(Next(derive, s, e))
  {
  }

  lemma StepKeepsMadeUnbound(derive: Derivation, s: State, e: Event)
    requires IssuedOnly(s) && MadeUnbound(s) && MadeOnce(s) && Enabled(s, e)
    ensures MadeUnbound(Next(derive, s, e))
  {
  }

  lemma StepKeepsMade(derive: Derivation, s: State, e: Event)
    requires IssuedOnly(s) && MadeUnbound(s) && MadeNotLeft(s) && MadeOnce(s) && Enabled(s, e)
    ensures MadeNotLeft(Next(derive, s, e)) && MadeOnce(Next(derive, s, e))
  {
  }

  lemma StepKeepsNeverBack(derive: Derivation, s: State, e: Event)
    requires IssuedOnly(s) && MadeNotLeft(s) && MadeUnbound(s) && NeverBack(s) && Enabled(s, e)
    ensures NeverBack(Next(derive, s, e))
  {
  }

  lemma StepKeepsChildrenMatch(derive: Derivation, s: State, e: Event)
    requires IssuedOnly(s) && ChildrenMatch(derive, s) && MadeMatch(derive, s) && Enabled(s, e)
    ensures ChildrenMatch(derive, Next(derive, s, e))
  {
  }

  lemma StepKeepsMadeMatch(derive: Derivation, s: State, e: Event)
    requires IssuedOnly(s) && MadeMatch(derive, s) && Enabled(s, e)
    ensures MadeMatch(derive, Next(derive, s, e))
  {
  }

  ghost predicate Inv(derive: Derivation, s: State) {
    && IssuedOnly(s) && MadeUnbound(s) && MadeNotLeft(s) && MadeOnce(s) && NeverBack(s)
    && ChildrenMatch(derive, s) && MadeMatch(derive, s)
  }

  lemma {:induction false} ReachableInv(derive: Derivation, states: seq<State>, events: seq<Event>, n: nat)
    requires Behaviour(derive, states, events) && n < |states|
    ensures Inv(derive, states[n])
  {
    if n > 0 {
      ReachableInv(derive, states, events, n - 1);
      var s, e := states[n - 1], events[n - 1];
      assert Enabled(s, e) && states[n] == Next(derive, s, e);
      StepKeepsIssued(derive, s, e);
      StepKeepsMadeUnbound(derive, s, e);
      StepKeepsMade(derive, s, e);
      StepKeepsNeverBack(derive, s, e);
      StepKeepsChildrenMatch(derive, s, e);
      StepKeepsMadeMatch(derive, s, e);
    }
  }

  lemma RequestStays(derive: Derivation, s: State, e: Event, id: nat)
    requires IssuedOnly(s) && Enabled(s, e) && id in s.jobs
    ensures var s' := Next(derive, s, e);
            id in s'.jobs && s'.jobs[id].request == s.jobs[id].request && s'.jobs[id].cluster == s.jobs[id].cluster
  {
  }

  lemma ReachableIssued(derive: Derivation, states: seq<State>, events: seq<Event>, n: nat)
    requires Behaviour(derive, states, events) && n < |states|
    ensures IssuedOnly(states[n]) && ChildrenMatch(derive, states[n])
  {
    ReachableInv(derive, states, events, n);
  }

  /** Jobs are never lost, and what was asked for never changes, .. */
  lemma {:induction false} RequestsConserved(derive: Derivation, states: seq<State>, events: seq<Event>, n: nat, m: nat, id: nat)
    requires Behaviour(derive, states, events) && n <= m < |states| && id in states[n].jobs
    ensures id in states[m].jobs
    ensures states[m].jobs[id].request == states[n].jobs[id].request && states[m].jobs[id].cluster == states[n].jobs[id].cluster
    decreases m
  {
    if n < m {
      RequestsConserved(derive, states, events, n, m - 1, id);
      ReachableIssued(derive, states, events, m - 1);
      RequestStays(derive, states[m - 1], events[m - 1], id);
    }
  }

  /** .. also by whatever child a job is bound to. */
  lemma ChildrenCarryRequests(derive: Derivation, states: seq<State>, events: seq<Event>, n: nat, id: nat)
    requires Behaviour(derive, states, events) && n < |states| && id in states[n].jobs
    ensures var job := states[n].jobs[id];
            job.child in states[n].children && states[n].children[job.child].request == derive(job.request, job.cluster)
  {
    ReachableIssued(derive, states, events, n);
  }

  /** Where a move comes from: a plan that saw its job bound to `previous` and that child unfinished. */
  ghost predicate PlannedFrom(states: seq<State>, events: seq<Event>, i: nat, flight: Flight)
    requires i < |events| && i < |states|
  {
    && events[i] == Plan(flight.id, flight.replacement)
    && flight.id in states[i].jobs && states[i].jobs[flight.id].child == flight.previous
    && NeedsMigration(flight.previous, Some(flight.replacement), states[i].children)
  }

  lemma {:induction false} FlightWasPlanned(derive: Derivation, states: seq<State>, events: seq<Event>, n: nat, f: nat)
    requires Behaviour(derive, states, events) && n < |states| && f in states[n].flights
    ensures exists i :: 0 <= i < n && PlannedFrom(states, events, i, states[n].flights[f])
  {
    assert n > 0;
    assert Enabled(states[n - 1], events[n - 1]) && states[n] == Next(derive, states[n - 1], events[n - 1]);
    if f in states[n - 1].flights && states[n].flights[f] in {states[n - 1].flights[f], states[n - 1].flights[f].(made := states[n].flights[f].made)} {
      FlightWasPlanned(derive, states, events, n - 1, f);
      var i :| 0 <= i < n - 1 && PlannedFrom(states, events, i, states[n - 1].flights[f]);
      assert PlannedFrom(states, events, i, states[n].flights[f]);
    } else {
      assert PlannedFrom(states, events, n - 1, states[n].flights[f]);
    }
  }

  /** A job is rebound only by a move that was planned from the very child it leaves, when that child was
      unfinished, however many updates overlap. */
  lemma RebindsOnlyAsPlanned(derive: Derivation, states: seq<State>, events: seq<Event>, n: nat, id: nat)
    requires Behaviour(derive, states, events) && n < |events| && id in states[n].jobs && id in states[n + 1].jobs
    requires states[n + 1].jobs[id].child != states[n].jobs[id].child
    ensures exists i, queue :: 0 <= i < n && states[n + 1].jobs[id].child.queue == queue
              && PlannedFrom(states, events, i, Flight(id, states[n].jobs[id].child, queue, None))
  {
    ReachableInv(derive, states, events, n);
    assert Enabled(states[n], events[n]) && states[n + 1] == Next(derive, states[n], events[n]);
    var f := events[n].flight;
    FlightWasPlanned(derive, states, events, n, f);
    var i :| 0 <= i < n && PlannedFrom(states, events, i, states[n].flights[f]);
    assert PlannedFrom(states, events, i, Flight(id, states[n].jobs[id].child, states[n].flights[f].replacement, None));
  }

  lemma {:induction false} LeftStaysLeft(derive: Derivation, states: seq<State>, events: seq<Event>, n: nat, m: nat, l: (nat, Binding))
    requires Behaviour(derive, states, events) && n <= m < |states| && l in states[n].left
    ensures l in states[m].left
    decreases m
  {
    if n < m {
      LeftStaysLeft(derive, states, events, n, m - 1, l);
      assert Enabled(states[m - 1], events[m - 1]) && states[m] == Next(derive, states[m - 1], events[m - 1]);
    }
  }

  /** A child a job has left is never bound to it again, so comparing bindings is comparing histories. */
  lemma BindingsNeverReturn(derive: Derivation, states: seq<State>, events: seq<Event>, n: nat, m: nat, id: nat)
    requires Behaviour(derive, states, events) && n + 1 <= m < |states|
    requires id in states[n].jobs && id in states[n + 1].jobs && states[n + 1].jobs[id].child != states[n].jobs[id].child
    requires id in states[m].jobs
    ensures states[m].jobs[id].child != states[n].jobs[id].child
  {
    ReachableInv(derive, states, events, n);
    assert Enabled(states[n], events[n]) && states[n + 1] == Next(derive, states[n], events[n]);
    LeftStaysLeft(derive, states, events, n + 1, m, (id, states[n].jobs[id].child));
    ReachableInv(derive, states, events, m);
  }

  /** A request that is submitted becomes a new job of its cluster, bound to a queued child with its derived
      request; what a child reports is what its queue then shows. */
  lemma SubmissionsAndReportsTakeEffect(derive: Derivation, states: seq<State>, events: seq<Event>, n: nat)
    requires Behaviour(derive, states, events) && n < |events|
    ensures events[n].Submit? ==>
              exists id: nat, child: Binding ::
                && id !in states[n].jobs && child !in states[n].children && child.queue == events[n].queue
                && states[n + 1].jobs == states[n].jobs[id := Job(events[n].request, events[n].cluster, child)]
                && states[n + 1].children == states[n].children[child := Child(derive(events[n].request, events[n].cluster), Queued, UNREPORTED)]
    ensures events[n].Progress? ==>
              && events[n].child in states[n].children && states[n].children[events[n].child].state in {Queued, Running}
              && Lookup(states[n + 1].children, events[n].child) ==
                 Some(Child(states[n].children[events[n].child].request, events[n].state, events[n].report))
  {
    ReachableInv(derive, states, events, n);
    var s, e := states[n], events[n];
    assert Enabled(s, e) && states[n + 1] == Next(derive, s, e);
    if e.Submit? {
      var id, child := s.issued + 1, Binding(e.queue, s.issued);
      assert id !in s.jobs && child !in s.children;
      assert states[n + 1].jobs == s.jobs[id := Job(e.request, e.cluster, child)];
    }
  }

  /** A move is over after at most two steps, which nothing prevents: its enqueue, and if that is accepted
      the rebinding, which takes the job to the new child exactly if it still has the one it was planned
      from. */
  lemma MovesFinish(derive: Derivation, states: seq<State>, events: seq<Event>, n: nat, f: nat)
    requires Behaviour(derive, states, events) && n < |states| && f in states[n].flights
    ensures var s, flight := states[n], states[n].flights[f];
            if flight.made.None? then
              && Enabled(s, Reenqueue(f, true)) && Enabled(s, Reenqueue(f, false))
              && f !in Next(derive, s, Reenqueue(f, false)).flights
              && Made(Next(derive, s, Reenqueue(f, true)), f)
            else
              && Enabled(s, Rebind(f)) && flight.id in s.jobs && f !in Next(derive, s, Rebind(f)).flights
              && Lookup(Next(derive, s, Rebind(f)).jobs, flight.id) ==
                 Some(if s.jobs[flight.id].child == flight.previous
                      then s.jobs[flight.id].(child := Binding(flight.replacement, flight.made.value))
                      else s.jobs[flight.id])
  {
    ReachableInv(derive, states, events, n);
  }

  /** A move may be planned for a job whenever its child is missing, queued or running on another queue
      than the replacement; then it is under way from that child. */
  lemma PlansTakeEffect(derive: Derivation, states: seq<State>, events: seq<Event>, n: nat, id: nat, replacement: nat)
    requires Behaviour(derive, states, events) && n < |states| && id in states[n].jobs
    ensures var s, child := states[n], states[n].jobs[id].child;
            Enabled(s, Plan(id, replacement)) <==>
            child.queue != replacement && (child in s.children ==> s.children[child].state in {Queued, Running})
    ensures Enabled(states[n], Plan(id, replacement)) ==>
              exists f: nat :: f !in states[n].flights
                && Lookup(Next(derive, states[n], Plan(id, replacement)).flights, f) == Some(Flight(id, states[n].jobs[id].child, replacement, None))
  {
    ReachableInv(derive, states, events, n);
    var s := states[n];
    if Enabled(s, Plan(id, replacement)) {
      assert s.planned !in s.flights;
      assert Lookup(Next(derive, s, Plan(id, replacement)).flights, s.planned) == Some(Flight(id, s.jobs[id].child, replacement, None));
    }
  }

  /** Anyone may submit at any time, and an unfinished child may report anything. */
  lemma CallersAreFree(s: State, request: Request, cluster: string, queue: nat, child: Binding, state: JobState, report: Report)
    ensures Enabled(s, Submit(request, cluster, queue))
    ensures Enabled(s, Progress(child, state, report)) <==> child in s.children && s.children[child].state in {Queued, Running}
  {
  }

  /** A finished child that no move was planned from keeps its job for good. */
  ghost predicate Settled(s: State, id: nat) {
    && id in s.jobs && s.jobs[id].child in s.children && !Unfinished(s.children[s.jobs[id].child].state)
    && forall f | f in s.flights && s.flights[f].id == id :: s.flights[f].previous != s.jobs[id].child
  }

  lemma SettledStaysSettled(derive: Derivation, s: State, e: Event, id: nat)
    requires Inv(derive, s) && Settled(s, id) && Enabled(s, e)
    ensures Settled(Next(derive, s, e), id) && Next(derive, s, e).jobs[id].child == s.jobs[id].child
  {
  }

  lemma SettledAtNext(derive: Derivation, states: seq<State>, events: seq<Event>, n: nat, id: nat)
    requires Behaviour(derive, states, events) && n < |events| && Settled(states[n], id)
    ensures Settled(states[n + 1], id) && states[n + 1].jobs[id].child == states[n].jobs[id].child
  {
    ReachableInv(derive, states, events, n);
    SettledStaysSettled(derive, states[n], events[n], id);
  }

  lemma {:induction false} FinishedChildrenStay(derive: Derivation, states: seq<State>, events: seq<Event>, n: nat, m: nat, id: nat)
    requires Behaviour(derive, states, events) && n <= m < |states| && Settled(states[n], id)
    ensures Settled(states[m], id) && states[m].jobs[id].child == states[n].jobs[id].child
    decreases m
  {
    if n < m {
      FinishedChildrenStay(derive, states, events, n, m - 1, id);
      SettledAtNext(derive, states, events, m - 1, id);
    }
  }
}
