/**
 Per-cluster operation admission (backend/cluster_operation_coordinator.go).

 A slot holds one cluster's registered operations; `Admit` and `Deregister` are the critical
 sections of `begin` and `end`. The protocol around them (wait for the slot mutex, re-check the
 context, run the callback, release, cancel, deregister) is the state machine `Next`, whose steps
 interleave freely, first for one cluster and then for a table of them.
 */
module OperationCoordinator {
  import opened Wrappers

  datatype Admission = Supersede | SkipBusy | Queue

  /** An operation is named by the token its slot gave it. `cancelled` are the operations whose
      cancel function has been called by the coordinator. */
  datatype Slot = Slot(cancels: map<nat, Admission>, token: nat, cancelled: set<nat>)

  const EMPTY_SLOT := Slot(map[], 0, {})

  /** The registered operations a superseding newcomer cancels: all but the queued ones. */
  function Preemptible(slot: Slot): set<nat> {
    set t | t in slot.cancels && slot.cancels[t] != Queue
  }

  /** Critical section of `begin`: None means the caller was turned away. */
  function Admit(slot: Slot, admission: Admission): (Slot, Option<nat>) {
    if slot.cancels != map[] && admission == SkipBusy then (slot, None)
    else
      var cancelled := if admission == Supersede then slot.cancelled + Preemptible(slot) else slot.cancelled;
      var token := slot.token + 1;
      (Slot(slot.cancels[token := admission], token, cancelled), Some(token))
  }

  function CancelOne(slot: Slot, token: nat): Slot {
    slot.(cancelled := slot.cancelled + {token})
  }

  /** Critical section of `end`. */
  function Deregister(slot: Slot, token: nat): Slot {
    slot.(cancels := slot.cancels - {token})
  }

  class ClusterOperationCoordinator {
    var slots: map<string, Slot>

    ghost function SlotOf(cluster: string): Slot
      reads this
    {
      if cluster in slots then slots[cluster] else EMPTY_SLOT
    }

    constructor ()
      ensures forall c :: SlotOf(c) == EMPTY_SLOT
    {
      slots := map[];
    }

    method Begin(cluster: string, admission: Admission) returns (token: Option<nat>)
      modifies this
      ensures SlotOf(cluster) == Admit(old(SlotOf(cluster)), admission).0
      ensures token == Admit(old(SlotOf(cluster)), admission).1
      ensures forall c | c != cluster :: SlotOf(c) == old(SlotOf(c))
    {
      var slot := if cluster in slots then slots[cluster] else EMPTY_SLOT;
      if slot.cancels != map[] && admission == SkipBusy {
        return None;
      }
      var cancelled := slot.cancelled;
      if admission == Supersede {
        cancelled := CancelAll(slot);
      }
      var next := slot.token + 1;
      var admitted := Slot(slot.cancels[next := admission], next, cancelled);
      slots := slots[cluster := admitted];
      return Some(next);
    }

    /** The loop of `begin` over the registered operations, in whatever order the map yields them. */
    static method CancelAll(slot: Slot) returns (cancelled: set<nat>)
      ensures cancelled == slot.cancelled + Preemptible(slot)
    {
      cancelled := slot.cancelled;
      var unseen := slot.cancels.Keys;
      while unseen != {}
        invariant unseen <= slot.cancels.Keys
        invariant cancelled == slot.cancelled + set t | t in slot.cancels && t !in unseen && slot.cancels[t] != Queue
      {
        var t :| t in unseen;
        if slot.cancels[t] != Queue {
          cancelled := cancelled + {t};
        }
        unseen := unseen - {t};
      }
    }

    method End(cluster: string, token: nat)
      modifies this
      ensures SlotOf(cluster) == Deregister(CancelOne(old(SlotOf(cluster)), token), token)
      ensures forall c | c != cluster :: SlotOf(c) == old(SlotOf(c))
    {
      var slot := if cluster in slots then slots[cluster] else EMPTY_SLOT;
      slots := slots[cluster := Deregister(CancelOne(slot, token), token)];
    }
  }

  // ----- The protocol of one cluster: every interleaving of `runWithAdmission` calls -----

  datatype Phase =
    | Waiting     // registered, queued on the slot mutex
    | Locked      // holds the slot mutex, context not yet re-checked
    | Running     // inside the callback
    | Refused     // the post-lock check found the context done
    | Returned    // callback returned, slot mutex still held
    | Unlocked    // slot mutex released
    | Ending      // own cancel function called, still registered
    | Gone        // deregistered

  datatype Op = Op(admission: Admission, phase: Phase, parentDone: bool, ran: bool)

  datatype Cluster = Cluster(slot: Slot, holder: Option<nat>, ops: map<nat, Op>)

  const IDLE := Cluster(EMPTY_SLOT, None, map[])

  datatype Event =
    | Begin(admission: Admission)
    | ParentDone(id: nat)
    | Lock(id: nat)
    | Check(id: nat)
    | Return(id: nat)
    | Unlock(id: nat)
    | CancelOwn(id: nat)
    | End(id: nat)

  predicate HoldsSlot(phase: Phase) {
    phase.Locked? || phase.Running? || phase.Refused? || phase.Returned?
  }

  predicate ContextDone(s: Cluster, id: nat)
    requires id in s.ops
  {
    id in s.slot.cancelled || s.ops[id].parentDone
  }

  predicate Enabled(s: Cluster, e: Event) {
    match e
    case Begin(_) => true
    case ParentDone(id) => id in s.ops
    case Lock(id) => id in s.ops && s.ops[id].phase.Waiting? && s.holder.None?
    case Check(id) => id in s.ops && s.ops[id].phase.Locked?
    case Return(id) => id in s.ops && s.ops[id].phase.Running?
    case Unlock(id) => id in s.ops && (s.ops[id].phase.Refused? || s.ops[id].phase.Returned?)
    case CancelOwn(id) => id in s.ops && s.ops[id].phase.Unlocked?
    case End(id) => id in s.ops && s.ops[id].phase.Ending?
  }

  function Move(s: Cluster, id: nat, phase: Phase): Cluster
    requires id in s.ops
  {
    s.(ops := s.ops[id := s.ops[id].(phase := phase)])
  }

  function Next(s: Cluster, e: Event): Cluster
    requires Enabled(s, e)
  {
    match e
    case Begin(admission) =>
      var (slot, token) := Admit(s.slot, admission);
      if token.None? then s.(slot := slot)
      else Cluster(slot, s.holder, s.ops[token.value := Op(admission, Waiting, false, false)])
    case ParentDone(id) => s.(ops := s.ops[id := s.ops[id].(parentDone := true)])
    case Lock(id) => Move(s, id, Locked).(holder := Some(id))
    case Check(id) =>
      if ContextDone(s, id) then Move(s, id, Refused)
      else s.(ops := s.ops[id := s.ops[id].(phase := Running, ran := true)])
    case Return(id) => Move(s, id, Returned)
    case Unlock(id) => Move(s, id, Unlocked).(holder := None)
    case CancelOwn(id) => Move(s, id, Ending).(slot := CancelOne(s.slot, id))
    case End(id) => Move(s, id, Gone).(slot := Deregister(s.slot, id))
  }

  ghost predicate Behaviour(states: seq<Cluster>, events: seq<Event>) {
    && |states| == |events| + 1
    && states[0] == IDLE
    && forall i | 0 <= i < |events| :: Enabled(states[i], events[i]) && states[i + 1] == Next(states[i], events[i])
  }

  // ----- The invariant -----

  predicate Registered(s: Cluster, id: nat) {
    id in s.slot.cancels
  }

  /** The slot registers exactly the operations that have not ended, under their own admission. */
  ghost predicate SlotMatchesOps(s: Cluster) {
    && (forall id :: Registered(s, id) <==> id in s.ops && !s.ops[id].phase.Gone?)
    && (forall id | Registered(s, id) :: s.slot.cancels[id] == s.ops[id].admission)
    && (forall id | id in s.ops :: 1 <= id <= s.slot.token)
  }

  /** The mutex holder is the one operation between its lock and its unlock. */
  ghost predicate HolderMatchesOps(s: Cluster) {
    && (forall id | id in s.ops && HoldsSlot(s.ops[id].phase) :: s.holder == Some(id))
    && (s.holder.Some? ==> s.holder.value in s.ops && HoldsSlot(s.ops[s.holder.value].phase))
  }

  /** A registered, non-queued operation the coordinator has not cancelled is the newest of its kind. */
  ghost predicate UncancelledIsNewest(s: Cluster) {
    forall a, b |
      && Registered(s, a) && s.slot.cancels[a] != Queue && a !in s.slot.cancelled
      && Registered(s, b) && s.slot.cancels[b] != Queue
      :: b <= a
  }

  ghost predicate CancelledOnlyAsAllowed(s: Cluster) {
    && (forall id | id in s.slot.cancelled :: id in s.ops)
    && (forall id | id in s.slot.cancelled && s.ops[id].admission == Queue :: s.ops[id].phase.Ending? || s.ops[id].phase.Gone?)
    && (forall id | id in s.ops && (s.ops[id].phase.Ending? || s.ops[id].phase.Gone?) :: id in s.slot.cancelled)
  }

  /** A callback runs exactly when the context was still live at the post-lock check. */
  ghost predicate RanMatchesPhase(s: Cluster) {
    forall id | id in s.ops ::
      && (s.ops[id].phase.Refused? || (s.ops[id].phase.Unlocked? && !s.ops[id].ran) ==> ContextDone(s, id))
      && (s.ops[id].phase.Waiting? || s.ops[id].phase.Locked? || s.ops[id].phase.Refused? ==> !s.ops[id].ran)
      && (s.ops[id].phase.Running? || s.ops[id].phase.Returned? ==> s.ops[id].ran)
  }

  /** An operation that went past its check ran, or its caller gave up, or a newer foreground operation
      superseded it, which happens to no queued one. */
  ghost predicate SkippedForCause(s: Cluster) {
    forall id | id in s.ops :: HasCause(s, id)
  }

  ghost predicate HasCause(s: Cluster, id: nat)
    requires id in s.ops
  {
    && (id in s.slot.cancelled && !Left(s.ops[id].phase) ==> SupersededIn(s, id))
    && (PastCheck(s.ops[id].phase) && !s.ops[id].ran ==> s.ops[id].parentDone || SupersededIn(s, id))
  }

  predicate Left(phase: Phase) {
    phase.Ending? || phase.Gone?
  }

  predicate PastCheck(phase: Phase) {
    !phase.Waiting? && !phase.Locked?
  }

  ghost predicate SupersededIn(s: Cluster, id: nat)
    requires id in s.ops
  {
    s.ops[id].admission != Queue && exists newer :: newer in s.ops && id < newer && s.ops[newer].admission == Supersede
  }

  ghost predicate Inv(s: Cluster) {
    && SlotMatchesOps(s)
    && HolderMatchesOps(s)
    && UncancelledIsNewest(s)
    && CancelledOnlyAsAllowed(s)
    && RanMatchesPhase(s)
    && SkippedForCause(s)
  }

  lemma StepKeepsSlot(s: Cluster, e: Event)
    requires SlotMatchesOps(s) && Enabled(s, e)
    ensures SlotMatchesOps(Next(s, e))
  {
  }

  lemma StepKeepsRan(s: Cluster, e: Event)
    requires SlotMatchesOps(s) && RanMatchesPhase(s) && Enabled(s, e)
    ensures RanMatchesPhase(Next(s, e))
  {
  }

  lemma StepKeepsHolder(s: Cluster, e: Event)
    requires SlotMatchesOps(s) && HolderMatchesOps(s) && Enabled(s, e)
    ensures HolderMatchesOps(Next(s, e))
  {
  }

  lemma StepKeepsNewest(s: Cluster, e: Event)
    requires SlotMatchesOps(s) && UncancelledIsNewest(s) && Enabled(s, e)
    ensures UncancelledIsNewest(Next(s, e))
  {
  }

  lemma StepKeepsCancelled(s: Cluster, e: Event)
    requires SlotMatchesOps(s) && CancelledOnlyAsAllowed(s) && Enabled(s, e)
    ensures CancelledOnlyAsAllowed(Next(s, e))
  {
  }

  lemma SupersededStays(s: Cluster, e: Event, id: nat)
    requires SlotMatchesOps(s) && Enabled(s, e) && id in s.ops && SupersededIn(s, id)
    ensures id in Next(s, e).ops && SupersededIn(Next(s, e), id)
  {
    var newer :| newer in s.ops && id < newer && s.ops[newer].admission == Supersede;
    assert newer in Next(s, e).ops && Next(s, e).ops[newer].admission == Supersede;
  }

  lemma StepKeepsCauseOf(s: Cluster, e: Event, id: nat)
    requires SlotMatchesOps(s) && Enabled(s, e) && id in s.ops && HasCause(s, id)
    ensures id in Next(s, e).ops && HasCause(Next(s, e), id)
  {
    if SupersededIn(s, id) {
      SupersededStays(s, e, id);
    } else if e == Begin(Supersede) {
      assert Next(s, e).ops[s.slot.token + 1].admission == Supersede;
    }
  }

  lemma StepKeepsCause(s: Cluster, e: Event)
    requires SlotMatchesOps(s) && CancelledOnlyAsAllowed(s) && SkippedForCause(s) && Enabled(s, e)
    ensures SkippedForCause(Next(s, e))
  {
    forall id | id in Next(s, e).ops ensures HasCause(Next(s, e), id) {
      if id in s.ops {
        StepKeepsCauseOf(s, e, id);
      }
    }
  }

  lemma StepKeepsInv(s: Cluster, e: Event)
    requires Inv(s) && Enabled(s, e)
    ensures Inv(Next(s, e))
  {
    StepKeepsSlot(s, e);
    StepKeepsRan(s, e);
    StepKeepsHolder(s, e);
    StepKeepsNewest(s, e);
    StepKeepsCancelled(s, e);
    StepKeepsCause(s, e);
  }

  lemma {:induction false} ReachableInv(states: seq<Cluster>, events: seq<Event>, n: nat)
    requires Behaviour(states, events) && n < |states|
    ensures Inv(states[n])
  {
    if n > 0 {
      ReachableInv(states, events, n - 1);
      StepKeepsInv(states[n - 1], events[n - 1]);
    }
  }

  // ----- What every run guarantees -----

  /** At most one callback executes, and its token is registered while it does. */
  lemma OneCallbackAtATime(states: seq<Cluster>, events: seq<Event>, n: nat, a: nat, b: nat)
    requires Behaviour(states, events) && n < |states|
    requires a in states[n].ops && b in states[n].ops
    requires states[n].ops[a].phase.Running? && states[n].ops[b].phase.Running?
    ensures a == b && Registered(states[n], a)
  {
    ReachableInv(states, events, n);
  }

  /** Among registered non-queued operations at most one is uncancelled, and it is the newest. */
  lemma OnlyNewestForegroundSurvives(states: seq<Cluster>, events: seq<Event>, n: nat, a: nat, b: nat)
    requires Behaviour(states, events) && n < |states|
    requires Registered(states[n], a) && states[n].slot.cancels[a] != Queue && a !in states[n].slot.cancelled
    requires Registered(states[n], b) && states[n].slot.cancels[b] != Queue
    ensures b <= a
    ensures b !in states[n].slot.cancelled ==> b == a
  {
    ReachableInv(states, events, n);
  }

  /** A queued operation is never cancelled by the coordinator before its own end. */
  lemma QueuedNeverSuperseded(states: seq<Cluster>, events: seq<Event>, n: nat, id: nat)
    requires Behaviour(states, events) && n < |states|
    requires id in states[n].ops && states[n].ops[id].admission == Queue
    ensures id in states[n].slot.cancelled <==> states[n].ops[id].phase.Ending? || states[n].ops[id].phase.Gone?
  {
    ReachableInv(states, events, n);
  }

  /** A skip-busy caller is admitted exactly when nothing at all is registered. */
  lemma SkipBusyOnlyWhenIdle(states: seq<Cluster>, events: seq<Event>, n: nat)
    requires Behaviour(states, events) && n < |events| && events[n] == Begin(SkipBusy)
    ensures states[n + 1] != states[n] <==> forall id | id in states[n].ops :: states[n].ops[id].phase.Gone?
    ensures states[n + 1] != states[n] ==> states[n].holder == None && Registered(states[n + 1], states[n].slot.token + 1)
  {
    ReachableInv(states, events, n);
    var s := states[n];
    if s.slot.cancels == map[] {
      assert forall id :: !Registered(s, id);
    } else {
      var id :| id in s.slot.cancels;
      assert Registered(s, id);
    }
  }

  /** Only a skip-busy caller is ever turned away: any other one is registered under a new token, waits
      for the slot, and disturbs nothing else; a queued one cancels nothing. */
  lemma OthersAlwaysAdmitted(states: seq<Cluster>, events: seq<Event>, n: nat, admission: Admission)
    requires Behaviour(states, events) && n < |events| && events[n] == Begin(admission) && admission != SkipBusy
    ensures var id := states[n].slot.token + 1;
            && id !in states[n].ops && states[n + 1].ops == states[n].ops[id := Op(admission, Waiting, false, false)]
            && states[n + 1].slot.cancels == states[n].slot.cancels[id := admission] && states[n + 1].slot.token == id
            && states[n + 1].holder == states[n].holder
    ensures admission == Queue ==> states[n + 1].slot.cancelled == states[n].slot.cancelled
  {
    ReachableInv(states, events, n);
  }

  /** An operation that left without running its callback had a caller that gave up, or a newer foreground
      operation superseded it; no queued operation is ever lost to another one. */
  lemma NobodySkippedWithoutCause(states: seq<Cluster>, events: seq<Event>, n: nat, id: nat)
    requires Behaviour(states, events) && n < |states|
    requires id in states[n].ops && Left(states[n].ops[id].phase) && !states[n].ops[id].ran && !states[n].ops[id].parentDone
    ensures states[n].ops[id].admission != Queue
    ensures exists newer :: newer in states[n].ops && id < newer && states[n].ops[newer].admission == Supersede
  {
    ReachableInv(states, events, n);
  }

  function PhaseRank(phase: Phase): nat {
    match phase
    case Waiting => 0
    case Locked => 1
    case Running => 2
    case Refused => 2
    case Returned => 3
    case Unlocked => 4
    case Ending => 5
    case Gone => 6
  }

  /** While anything is registered, some operation can move on: the protocol cannot get stuck. */
  lemma NeverStuck(states: seq<Cluster>, events: seq<Event>, n: nat, id: nat)
    requires Behaviour(states, events) && n < |states| && Registered(states[n], id)
    ensures exists e, mover ::
              && Enabled(states[n], e) && mover in states[n].ops && mover in Next(states[n], e).ops
              && PhaseRank(states[n].ops[mover].phase) < PhaseRank(Next(states[n], e).ops[mover].phase)
  {
    ReachableInv(states, events, n);
    var s := states[n];
    var mover := if s.ops[id].phase.Waiting? && s.holder.Some? then s.holder.value else id;
    var phase := s.ops[mover].phase;
    var e := if phase.Waiting? then Lock(mover)
             else if phase.Locked? then Check(mover)
             else if phase.Running? then Return(mover)
             else if phase.Refused? || phase.Returned? then Unlock(mover)
             else if phase.Unlocked? then CancelOwn(mover)
             else End(mover);
    assert Enabled(s, e) && PhaseRank(s.ops[mover].phase) < PhaseRank(Next(s, e).ops[mover].phase);
  }

  /** Once a foreground operation is admitted, every older non-queued one is cancelled. */
  lemma SupersedeCancelsOlderWork(states: seq<Cluster>, events: seq<Event>, n: nat, older: nat)
    requires Behaviour(states, events) && n < |events| && events[n] == Begin(Supersede)
    requires older in states[n].ops && states[n].ops[older].admission != Queue && Registered(states[n], older)
    ensures older in states[n + 1].slot.cancelled && states[n + 1].slot.token !in states[n + 1].slot.cancelled
  {
    ReachableInv(states, events, n);
  }

  /** The context of a waiting operation stays done once it is, and such an operation stays off the callback. */
  ghost predicate Doomed(s: Cluster, id: nat) {
    id in s.ops && !s.ops[id].ran && !s.ops[id].phase.Running? && ContextDone(s, id)
  }

  lemma DoomedStaysDoomed(s: Cluster, e: Event, id: nat)
    requires Inv(s) && Enabled(s, e) && Doomed(s, id)
    ensures Doomed(Next(s, e), id)
  {
  }

  /** An operation cancelled (by the coordinator or its parent) before its post-lock check never
      runs its callback, however the rest of the run goes. */
  lemma {:induction false} CancelledBeforeCheckNeverRuns(states: seq<Cluster>, events: seq<Event>, n: nat, m: nat, id: nat)
    requires Behaviour(states, events) && n <= m < |states|
    requires id in states[n].ops && (states[n].ops[id].phase.Waiting? || states[n].ops[id].phase.Locked?)
    requires id in states[n].slot.cancelled || states[n].ops[id].parentDone
    ensures id in states[m].ops && !states[m].ops[id].ran && !states[m].ops[id].phase.Running?
    ensures Doomed(states[m], id)
    decreases m
  {
    if m == n {
      ReachableInv(states, events, n);
    } else {
      CancelledBeforeCheckNeverRuns(states, events, n, m - 1, id);
      ReachableInv(states, events, m - 1);
      DoomedStaysDoomed(states[m - 1], events[m - 1], id);
    }
  }

  /** The same for an operation whose caller gives up before the check; and the check lets every other
      operation run. */
  lemma GivenUpNeverRuns(states: seq<Cluster>, events: seq<Event>, n: nat, m: nat, id: nat)
    requires Behaviour(states, events) && n < m < |states| && events[n] == ParentDone(id)
    requires states[n].ops[id].phase.Waiting? || states[n].ops[id].phase.Locked?
    ensures id in states[m].ops && !states[m].ops[id].ran
  {
    CancelledBeforeCheckNeverRuns(states, events, n + 1, m, id);
  }

  lemma LiveAtCheckRuns(states: seq<Cluster>, events: seq<Event>, n: nat, id: nat)
    requires Behaviour(states, events) && n < |events| && events[n] == Check(id)
    ensures id in states[n + 1].ops
    ensures states[n + 1].ops[id].phase.Running? <==> id !in states[n].slot.cancelled && !states[n].ops[id].parentDone
    ensures states[n + 1].ops[id].ran <==> states[n + 1].ops[id].phase.Running?
  {
    ReachableInv(states, events, n);
  }

  /** Whatever a run has come to, anyone may call next, and any caller may give up. */
  lemma CallersAreFree(states: seq<Cluster>, events: seq<Event>, admission: Admission, id: nat)
    requires Behaviour(states, events)
    ensures var s := states[|events|];
            && Behaviour(states + [Next(s, Begin(admission))], events + [Begin(admission)])
            && (id in s.ops ==> Behaviour(states + [Next(s, ParentDone(id))], events + [ParentDone(id)]))
  {
  }

  // ----- All clusters together -----

  function At(table: map<string, Cluster>, cluster: string): Cluster {
    if cluster in table then table[cluster] else IDLE
  }

  ghost predicate TableStep(t: map<string, Cluster>, cluster: string, e: Event, t': map<string, Cluster>) {
    Enabled(At(t, cluster), e) && t' == t[cluster := Next(At(t, cluster), e)]
  }

  ghost predicate TableBehaviour(states: seq<map<string, Cluster>>, events: seq<(string, Event)>) {
    && |states| == |events| + 1
    && states[0] == map[]
    && forall i | 0 <= i < |events| :: TableStep(states[i], events[i].0, events[i].1, states[i + 1])
  }

  /** Steps of different clusters interleave freely without disturbing any cluster's invariant. */
  lemma {:induction false} ClustersStayIndependent(states: seq<map<string, Cluster>>, events: seq<(string, Event)>, n: nat, cluster: string)
    requires TableBehaviour(states, events) && n < |states|
    ensures Inv(At(states[n], cluster))
    ensures n > 0 ==>
              At(states[n], cluster) ==
              if events[n - 1].0 == cluster then Next(At(states[n - 1], cluster), events[n - 1].1) else At(states[n - 1], cluster)
  {
    if n > 0 {
      ClustersStayIndependent(states, events, n - 1, cluster);
      assert TableStep(states[n - 1], events[n - 1].0, events[n - 1].1, states[n]);
      if events[n - 1].0 == cluster {
        StepKeepsInv(At(states[n - 1], cluster), events[n - 1].1);
      }
    }
  }
}
