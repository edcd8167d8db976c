/**
 Coordinated cluster-selection mutations (backend/kubeconfig_selection_coordinator.go).

 `Shared` is the coordinator's own state: the generation counter, the stored cancel function of the
 active generation context and the drain counter. The class methods are its critical sections; the
 state machine `Next` interleaves them over any number of superseding calls, ordered calls and
 stand-alone cancellations of the active generation.
 */
module SelectionCoordinator {
  import opened Wrappers

  /** A generation context is named by the generation that activated it. `active` is the context
      whose cancel function is stored; `activated` and `cancelled` record context history. */
  datatype Shared = Shared(generation: nat, active: Option<nat>, pending: nat, activated: set<nat>, cancelled: set<nat>)

  const FRESH := Shared(0, None, 0, {}, {})

  function AsSet(context: Option<nat>): set<nat> {
    if context.Some? then {context.value} else {}
  }

  function Draw(sh: Shared): Shared {
    sh.(generation := sh.generation + 1)
  }

  /** First half of `cancelActiveSelectionGeneration`: take the stored cancel function. */
  function Detach(sh: Shared): Shared {
    sh.(active := None)
  }

  /** Second half: call it, outside the lock. */
  function CallCancel(sh: Shared, taken: Option<nat>): Shared {
    sh.(cancelled := sh.cancelled + AsSet(taken))
  }

  /** `activateSelectionGeneration`: cancel the stored context and store the new one. */
  function Activate(sh: Shared, generation: nat): Shared {
    sh.(active := Some(generation), activated := sh.activated + {generation}, cancelled := sh.cancelled + AsSet(sh.active))
  }

  function BeginDrain(sh: Shared): Shared {
    sh.(pending := sh.pending + 1)
  }

  function FinishDrain(sh: Shared): Shared {
    if sh.pending > 0 then sh.(pending := sh.pending - 1) else sh
  }

  class WorkspaceCoordinator {
    var selectionGeneration: nat
    var selectionGenCancel: Option<nat>
    var selectionMutationPending: nat
    ghost var activated: set<nat>
    ghost var cancelled: set<nat>

    ghost function State(): Shared
      reads this
    {
      Shared(selectionGeneration, selectionGenCancel, selectionMutationPending, activated, cancelled)
    }

    constructor ()
      ensures State() == FRESH
    {
      selectionGeneration, selectionGenCancel, selectionMutationPending := 0, None, 0;
      activated, cancelled := {}, {};
    }

    method BeginSelectionMutationDrain()
      modifies this
      ensures State() == BeginDrain(old(State()))
    {
      selectionMutationPending := selectionMutationPending + 1;
    }

    method FinishSelectionMutationDrain()
      modifies this
      ensures State() == FinishDrain(old(State()))
    {
      if selectionMutationPending > 0 {
        selectionMutationPending := selectionMutationPending - 1;
      }
    }

    method DrawGeneration() returns (generation: nat)
      modifies this
      ensures State() == Draw(old(State())) && generation == State().generation
    {
      selectionGeneration := selectionGeneration + 1;
      return selectionGeneration;
    }

    method DetachActiveGeneration() returns (taken: Option<nat>)
      modifies this
      ensures State() == Detach(old(State())) && taken == old(State()).active
    {
      taken := selectionGenCancel;
      selectionGenCancel := None;
    }

    method CallDetached(taken: Option<nat>)
      modifies this
      ensures State() == CallCancel(old(State()), taken)
    {
      if taken.Some? {
        cancelled := cancelled + {taken.value};
      }
    }

    method ActivateSelectionGeneration(generation: nat)
      modifies this
      ensures State() == Activate(old(State()), generation)
    {
      if selectionGenCancel.Some? {
        cancelled := cancelled + {selectionGenCancel.value};
      }
      selectionGenCancel := Some(generation);
      activated := activated + {generation};
    }
  }

  // ----- The protocol: every interleaving of calls -----

  datatype Kind = Superseding | Ordered | Canceller

  datatype Phase =
    | Entered                        // counted by the drain
    | Drawn                          // generation drawn, active context not yet detached
    | Detached(taken: Option<nat>)   // cancel function taken, not yet called
    | Queued                         // waiting for the mutation mutex
    | Locked                         // mutex held, not yet checked
    | Admitted                       // check passed, own context not yet active
    | Running                        // callback executing
    | DeferredDrawn                  // ordered callback drew a generation, context not yet active
    | Skipped                        // superseded, mutex still held
    | Returned                       // callback finished, mutex still held
    | Released                       // mutex released, drain not yet told
    | Done

  datatype Call = Call(kind: Kind, phase: Phase, drew: Option<nat>, ran: bool, skipped: bool)

  /** `drawnBy[g - 1]` is the call that drew generation g. */
  datatype System = System(shared: Shared, mutex: Option<nat>, calls: map<nat, Call>, drawnBy: seq<nat>)

  const INITIAL := System(FRESH, None, map[], [])

  datatype Event =
    | Enter(id: nat, kind: Kind)
    | DrawNext(id: nat)
    | DetachActive(id: nat)
    | CancelDetached(id: nat)
    | Lock(id: nat)
    | Check(id: nat)
    | Start(id: nat)
    | DeferredDraw(id: nat)
    | DeferredActivate(id: nat)
    | Return(id: nat)
    | Unlock(id: nat)
    | Drain(id: nat)

  predicate Enabled(s: System, e: Event) {
    if e.Enter? then e.id !in s.calls
    else
      && e.id in s.calls
      && var call := s.calls[e.id];
         match e
         case DrawNext(_) => call.kind.Superseding? && call.phase.Entered?
         case DetachActive(_) => call.phase.Drawn? || (call.kind.Canceller? && call.phase.Entered?)
         case CancelDetached(_) => call.phase.Detached?
         case Lock(_) => s.mutex.None? && (call.phase.Queued? || (call.kind.Ordered? && call.phase.Entered?))
         case Check(_) => call.phase.Locked?
         case Start(_) => call.phase.Admitted? && call.drew.Some?
         case DeferredDraw(_) => call.kind.Ordered? && call.phase.Running? && call.drew.None?
         case DeferredActivate(_) => call.phase.DeferredDrawn? && call.drew.Some?
         case Return(_) => call.phase.Running?
         case Unlock(_) => call.phase.Skipped? || call.phase.Returned?
         case Drain(_) => call.phase.Released?
  }

  function Move(s: System, id: nat, phase: Phase): System
    requires id in s.calls
  {
    s.(calls := s.calls[id := s.calls[id].(phase := phase)])
  }

  function DrawFor(s: System, id: nat, phase: Phase): System
    requires id in s.calls
  {
    var sh := Draw(s.shared);
    s.(shared := sh, calls := s.calls[id := s.calls[id].(phase := phase, drew := Some(sh.generation))], drawnBy := s.drawnBy + [id])
  }

  function Next(s: System, e: Event): System
    requires Enabled(s, e)
  {
    match e
    case Enter(id, kind) =>
      var sh := if kind.Canceller? then s.shared else BeginDrain(s.shared);
      s.(shared := sh, calls := s.calls[id := Call(kind, Entered, None, false, false)])
    case DrawNext(id) => DrawFor(s, id, Drawn)
    case DetachActive(id) => Move(s, id, Detached(s.shared.active)).(shared := Detach(s.shared))
    case CancelDetached(id) =>
      var call := s.calls[id];
      Move(s, id, if call.kind.Canceller? then Done else Queued).(shared := CallCancel(s.shared, call.phase.taken))
    case Lock(id) => Move(s, id, Locked).(mutex := Some(id))
    case Check(id) =>
      var call := s.calls[id];
      if call.kind.Ordered? then s.(calls := s.calls[id := call.(phase := Running, ran := true)])
      else if call.drew != Some(s.shared.generation) then s.(calls := s.calls[id := call.(phase := Skipped, skipped := true)])
      else Move(s, id, Admitted)
    case Start(id) =>
      var call := s.calls[id];
      s.(shared := Activate(s.shared, call.drew.value), calls := s.calls[id := call.(phase := Running, ran := true)])
    case DeferredDraw(id) => DrawFor(s, id, DeferredDrawn)
    case DeferredActivate(id) => Move(s, id, Running).(shared := Activate(s.shared, s.calls[id].drew.value))
    case Return(id) => Move(s, id, Returned)
    case Unlock(id) => Move(s, id, Released).(mutex := None)
    case Drain(id) => Move(s, id, Done).(shared := FinishDrain(s.shared))
  }

  ghost predicate Behaviour(states: seq<System>, events: seq<Event>) {
    && |states| == |events| + 1
    && states[0] == INITIAL
    && forall i | 0 <= i < |events| :: Enabled(states[i], events[i]) && states[i + 1] == Next(states[i], events[i])
  }

  // ----- The invariant -----

  predicate HoldsMutex(phase: Phase) {
    phase.Locked? || phase.Admitted? || phase.Running? || phase.DeferredDrawn? || phase.Skipped? || phase.Returned?
  }

  ghost predicate MutexMatchesCalls(s: System) {
    && (forall id | id in s.calls && HoldsMutex(s.calls[id].phase) :: s.mutex == Some(id))
    && (s.mutex.Some? ==> s.mutex.value in s.calls && HoldsMutex(s.calls[s.mutex.value].phase))
  }

  /** Which phases, draws and outcomes a call of each kind can show. */
  predicate WellFormedCall(c: Call) {
    match c.phase
    case Entered => c.drew.None? && !c.ran && !c.skipped
    case Drawn => c.kind.Superseding? && c.drew.Some? && !c.ran && !c.skipped
    case Detached(_) => !c.kind.Ordered? && (c.kind.Superseding? <==> c.drew.Some?) && !c.ran && !c.skipped
    case Queued => c.kind.Superseding? && c.drew.Some? && !c.ran && !c.skipped
    case Locked => !c.kind.Canceller? && (c.kind.Superseding? <==> c.drew.Some?) && !c.ran && !c.skipped
    case Admitted => c.kind.Superseding? && c.drew.Some? && !c.ran && !c.skipped
    case Running => !c.kind.Canceller? && (c.kind.Superseding? ==> c.drew.Some?) && c.ran && !c.skipped
    case DeferredDrawn => c.kind.Ordered? && c.drew.Some? && c.ran && !c.skipped
    case Skipped => c.kind.Superseding? && c.drew.Some? && !c.ran && c.skipped
    case Returned => !c.kind.Canceller? && (c.kind.Superseding? ==> c.drew.Some?) && c.ran && !c.skipped
    case Released => !c.kind.Canceller? && (c.skipped ==> c.kind.Superseding? && c.drew.Some?) && c.ran == !c.skipped
    case Done => if c.kind.Canceller? then c.drew.None? && !c.ran && !c.skipped
                 else (c.skipped ==> c.kind.Superseding? && c.drew.Some?) && c.ran == !c.skipped
  }

  ghost predicate CallsWellFormed(s: System) {
    forall id | id in s.calls :: WellFormedCall(s.calls[id])
  }

  /** Generations are drawn once each, in order, and remembered by the call that drew them. */
  ghost predicate DrawsMatchCalls(s: System) {
    && |s.drawnBy| == s.shared.generation
    && (forall id | id in s.calls && s.calls[id].drew.Some? ::
          1 <= s.calls[id].drew.value <= s.shared.generation && s.drawnBy[s.calls[id].drew.value - 1] == id)
    && (forall i | 0 <= i < |s.drawnBy| :: s.drawnBy[i] in s.calls && s.calls[s.drawnBy[i]].drew == Some(i + 1))
    && (forall id | id in s.calls && s.calls[id].skipped && s.calls[id].drew.Some? :: s.calls[id].drew.value < s.shared.generation)
  }

  predicate DetachedBy(s: System, id: nat, context: nat) {
    id in s.calls && s.calls[id].phase == Detached(Some(context))
  }

  ghost predicate InDetachedHands(s: System, context: nat) {
    exists id :: DetachedBy(s, id, context)
  }

  /** Every activated context is cancelled, stored as the active one, or in the hands of exactly
      one call that has taken its cancel function and not called it yet. */
  ghost predicate ContextsAccountedFor(s: System) {
    && s.shared.cancelled <= s.shared.activated
    && (s.shared.active.Some? ==> s.shared.active.value in s.shared.activated && s.shared.active.value !in s.shared.cancelled)
    && (forall id, g | DetachedBy(s, id, g) :: g in s.shared.activated && g !in s.shared.cancelled && s.shared.active != Some(g))
    && (forall id, id', g | DetachedBy(s, id, g) && DetachedBy(s, id', g) :: id == id')
    && (forall g | g in s.shared.activated :: g in s.shared.cancelled || s.shared.active == Some(g) || InDetachedHands(s, g))
  }

  predicate AboutToActivate(c: Call) {
    (c.phase.Admitted? || c.phase.DeferredDrawn?) && c.drew.Some?
  }

  ghost predicate AllBelow(contexts: set<nat>, bound: nat) {
    forall g | g in contexts :: g < bound
  }

  /** Contexts are activated in generation order by the mutex holder. */
  ghost predicate ActivationsOrdered(s: System) {
    && (forall g | g in s.shared.activated :: 1 <= g <= s.shared.generation)
    && (forall id | id in s.calls && s.calls[id].drew.Some? && s.calls[id].drew.value in s.shared.activated ::
          s.calls[id].ran && !s.calls[id].phase.DeferredDrawn?)
    && (forall id | id in s.calls && AboutToActivate(s.calls[id]) :: AllBelow(s.shared.activated, s.calls[id].drew.value))
  }

  ghost function InFlight(s: System): set<nat> {
    set id | id in s.calls && !s.calls[id].kind.Canceller? && !s.calls[id].phase.Done?
  }

  ghost predicate Inv(s: System) {
    && MutexMatchesCalls(s)
    && CallsWellFormed(s)
    && DrawsMatchCalls(s)
    && ContextsAccountedFor(s)
    && ActivationsOrdered(s)
    && s.shared.pending == |InFlight(s)|
  }

  lemma StepKeepsMutex(s: System, e: Event)
    requires MutexMatchesCalls(s) && Enabled(s, e)
    ensures MutexMatchesCalls(Next(s, e))
  {
  }

  lemma StepKeepsCalls(s: System, e: Event)
    requires CallsWellFormed(s) && Enabled(s, e)
    ensures CallsWellFormed(Next(s, e))
  {
  }

  lemma QuietStepKeepsDraws(s: System, e: Event)
    requires CallsWellFormed(s) && DrawsMatchCalls(s) && Enabled(s, e) && !e.DrawNext? && !e.DeferredDraw?
    ensures DrawsMatchCalls(Next(s, e))
  {
    var s' := Next(s, e);
    if e.Check? && s'.calls[e.id].skipped {
      assert s.calls[e.id].drew.value < s.shared.generation;
    }
    SameDrawsKeepDraws(s, s', e.id);
  }

  lemma SameDrawsKeepDraws(s: System, s': System, id: nat)
    requires DrawsMatchCalls(s) && s'.drawnBy == s.drawnBy && s'.shared.generation == s.shared.generation
    requires id in s'.calls && s'.calls == s.calls[id := s'.calls[id]]
    requires s'.calls[id].drew == if id in s.calls then s.calls[id].drew else None
    requires s'.calls[id].skipped && s'.calls[id].drew.Some? ==> s'.calls[id].drew.value < s'.shared.generation
    ensures DrawsMatchCalls(s')
  {
  }

  lemma DrawKeepsDraws(s: System, id: nat, phase: Phase)
    requires DrawsMatchCalls(s) && id in s.calls && s.calls[id].drew.None? && !s.calls[id].skipped
    ensures DrawsMatchCalls(DrawFor(s, id, phase))
  {
  }

  lemma QuietStepKeepsContexts(s: System, e: Event)
    requires ContextsAccountedFor(s) && Enabled(s, e)
    requires !e.DetachActive? && !e.CancelDetached? && !e.Start? && !e.DeferredActivate?
    ensures ContextsAccountedFor(Next(s, e))
  {
    var s' := Next(s, e);
    assert forall id, g: nat :: DetachedBy(s', id, g) <==> DetachedBy(s, id, g);
    forall g | InDetachedHands(s, g) ensures InDetachedHands(s', g) {
      var id :| DetachedBy(s, id, g);
      assert DetachedBy(s', id, g);
    }
  }

  lemma DetachKeepsContexts(s: System, e: Event)
    requires ContextsAccountedFor(s) && Enabled(s, e) && e.DetachActive?
    ensures ContextsAccountedFor(Next(s, e))
  {
    var s' := Next(s, e);
    assert forall id, g: nat :: DetachedBy(s', id, g) <==> DetachedBy(s, id, g) || (id == e.id && s.shared.active == Some(g));
    forall g: nat | InDetachedHands(s, g) || s.shared.active == Some(g) ensures InDetachedHands(s', g) {
      if s.shared.active == Some(g) {
        assert DetachedBy(s', e.id, g);
      } else {
        var id :| DetachedBy(s, id, g);
        assert DetachedBy(s', id, g);
      }
    }
  }

  lemma CancelKeepsContexts(s: System, e: Event)
    requires ContextsAccountedFor(s) && Enabled(s, e) && e.CancelDetached?
    ensures ContextsAccountedFor(Next(s, e))
  {
    var s' := Next(s, e);
    assert forall id, g: nat :: DetachedBy(s', id, g) <==> DetachedBy(s, id, g) && id != e.id;
    forall g | InDetachedHands(s, g) ensures InDetachedHands(s', g) || g in s'.shared.cancelled {
      var id :| DetachedBy(s, id, g);
      assert id != e.id ==> DetachedBy(s', id, g);
    }
    assert forall g: nat :: DetachedBy(s, e.id, g) <==> s.calls[e.id].phase.taken == Some(g);
  }

  lemma ActivateKeepsContexts(s: System, e: Event)
    requires ContextsAccountedFor(s) && ActivationsOrdered(s) && Enabled(s, e) && (e.Start? || e.DeferredActivate?)
    ensures ContextsAccountedFor(Next(s, e))
  {
    var s' := Next(s, e);
    var mine := s.calls[e.id].drew.value;
    assert mine !in s.shared.activated;
    assert forall id, g: nat :: DetachedBy(s', id, g) <==> DetachedBy(s, id, g);
    forall g | InDetachedHands(s, g) ensures InDetachedHands(s', g) {
      var id :| DetachedBy(s, id, g);
      assert DetachedBy(s', id, g);
    }
  }

  lemma CheckKeepsActivations(s: System, e: Event)
    requires Inv(s) && Enabled(s, e) && e.Check?
    ensures ActivationsOrdered(Next(s, e))
  {
    if s.calls[e.id].drew == Some(s.shared.generation) {
      assert s.shared.generation !in s.shared.activated;
      assert AllBelow(s.shared.activated, s.shared.generation);
    }
  }

  lemma ActivateKeepsActivations(s: System, e: Event)
    requires Inv(s) && Enabled(s, e) && (e.Start? || e.DeferredActivate?)
    ensures ActivationsOrdered(Next(s, e))
  {
    ActivatedStaysOrdered(s, Next(s, e), e.id);
  }

  lemma ActivatedStaysOrdered(s: System, s': System, id: nat)
    requires MutexMatchesCalls(s) && DrawsMatchCalls(s) && ActivationsOrdered(s)
    requires id in s.calls && AboutToActivate(s.calls[id])
    requires s'.shared.activated == s.shared.activated + {s.calls[id].drew.value} && s'.shared.generation == s.shared.generation
    requires id in s'.calls && s'.calls == s.calls[id := s'.calls[id]]
    requires s'.calls[id].drew == s.calls[id].drew && s'.calls[id].phase.Running? && s'.calls[id].ran
    ensures ActivationsOrdered(s')
  {
    assert forall other | other in s.calls && AboutToActivate(s.calls[other]) :: other == id;
  }

  lemma QuietStepKeepsActivations(s: System, e: Event)
    requires CallsWellFormed(s) && ActivationsOrdered(s) && Enabled(s, e)
    requires !e.Check? && !e.Start? && !e.DeferredActivate?
    ensures ActivationsOrdered(Next(s, e))
  {
    assert Next(s, e).shared.activated == s.shared.activated;
    assert s.shared.generation + 1 !in s.shared.activated;
  }

  lemma StepKeepsPending(s: System, e: Event)
    requires s.shared.pending == |InFlight(s)| && CallsWellFormed(s) && Enabled(s, e)
    ensures Next(s, e).shared.pending == |InFlight(Next(s, e))|
  {
    var s' := Next(s, e);
    if e.Enter? && !e.kind.Canceller? {
      assert InFlight(s') == InFlight(s) + {e.id};
    } else if e.Drain? {
      assert e.id in InFlight(s);
      assert InFlight(s') == InFlight(s) - {e.id};
    } else {
      QuietStepKeepsInFlight(s, e);
    }
  }

  lemma QuietStepKeepsInFlight(s: System, e: Event)
    requires CallsWellFormed(s) && Enabled(s, e) && !e.Drain? && (e.Enter? ==> e.kind.Canceller?)
    ensures InFlight(Next(s, e)) == InFlight(s) && Next(s, e).shared.pending == s.shared.pending
  {
    var s' := Next(s, e);
    assert e.id in s'.calls && (e.id in InFlight(s') <==> e.id in InFlight(s));
    assert forall id | id != e.id :: id in s'.calls <==> id in s.calls;
  }

  lemma {:induction false} ReachableInv(states: seq<System>, events: seq<Event>, n: nat)
    requires Behaviour(states, events) && n < |states|
    ensures Inv(states[n])
  {
    if n > 0 {
      ReachableInv(states, events, n - 1);
      var s, e := states[n - 1], events[n - 1];
      assert Enabled(s, e) && states[n] == Next(s, e);
      StepKeepsMutex(s, e);
      StepKeepsCalls(s, e);
      StepKeepsPending(s, e);
      if e.DrawNext? || e.DeferredDraw? {
        DrawKeepsDraws(s, e.id, if e.DrawNext? then Drawn else DeferredDrawn);
      } else {
        QuietStepKeepsDraws(s, e);
      }
      if e.DetachActive? {
        DetachKeepsContexts(s, e);
      } else if e.CancelDetached? {
        CancelKeepsContexts(s, e);
      } else if e.Start? || e.DeferredActivate? {
        ActivateKeepsContexts(s, e);
        ActivateKeepsActivations(s, e);
      } else {
        QuietStepKeepsContexts(s, e);
      }
      if e.Check? {
        CheckKeepsActivations(s, e);
      } else if !e.Start? && !e.DeferredActivate? {
        QuietStepKeepsActivations(s, e);
      }
    }
  }

  // ----- What every run guarantees -----

  predicate InCallback(c: Call) {
    c.phase.Running? || c.phase.DeferredDrawn?
  }

  lemma CallbacksNeverOverlap(states: seq<System>, events: seq<Event>, n: nat, a: nat, b: nat)
    requires Behaviour(states, events) && n < |states|
    requires a in states[n].calls && InCallback(states[n].calls[a])
    requires b in states[n].calls && InCallback(states[n].calls[b])
    ensures a == b
  {
    ReachableInv(states, events, n);
  }

  /** A finished ordered call has run its callback; a finished superseding call has run it unless
      some call drew a strictly later generation. */
  lemma FinishedCallsRanOrWereSuperseded(states: seq<System>, events: seq<Event>, n: nat, id: nat)
    requires Behaviour(states, events) && n < |states|
    requires id in states[n].calls && states[n].calls[id].phase.Done? && !states[n].calls[id].kind.Canceller?
    ensures states[n].calls[id].kind.Ordered? ==> states[n].calls[id].ran
    ensures !states[n].calls[id].ran ==>
              exists other :: other in states[n].calls && states[n].calls[other].drew.Some? && states[n].calls[id].drew.Some?
                              && states[n].calls[other].drew.value > states[n].calls[id].drew.value
  {
    ReachableInv(states, events, n);
    var s := states[n];
    if !s.calls[id].ran {
      var newest := s.drawnBy[s.shared.generation - 1];
      assert s.calls[newest].drew == Some(s.shared.generation);
    }
  }

  /** At its turn a superseding call is skipped exactly when another call drew a later generation. */
  lemma SkippedExactlyWhenSuperseded(states: seq<System>, events: seq<Event>, n: nat, id: nat)
    requires Behaviour(states, events) && n < |events| && events[n] == Check(id)
    requires states[n].calls[id].kind.Superseding?
    ensures states[n + 1].calls[id].skipped <==>
              exists other :: other in states[n].calls && states[n].calls[other].drew.Some? && states[n].calls[id].drew.Some?
                              && states[n].calls[other].drew.value > states[n].calls[id].drew.value
  {
    ReachableInv(states, events, n);
    var s := states[n];
    var newest := s.drawnBy[s.shared.generation - 1];
    assert s.calls[newest].drew == Some(s.shared.generation);
  }

  /** Whatever ordered callbacks draw in between, the call that drew the greatest generation is
      never skipped: once its turn is over, it has run. */
  lemma NewestGenerationRuns(states: seq<System>, events: seq<Event>, n: nat)
    requires Behaviour(states, events) && n < |states| && states[n].shared.generation > 0
    ensures |states[n].drawnBy| == states[n].shared.generation
    ensures var newest := states[n].drawnBy[states[n].shared.generation - 1];
            && newest in states[n].calls
            && !states[n].calls[newest].skipped
            && (states[n].calls[newest].phase.Released? || states[n].calls[newest].phase.Done? ==> states[n].calls[newest].ran)
  {
    ReachableInv(states, events, n);
    var s := states[n];
    var newest := s.drawnBy[s.shared.generation - 1];
    assert s.calls[newest].drew == Some(s.shared.generation) && WellFormedCall(s.calls[newest]);
  }

  /** When a superseding callback starts, every context activated before it belongs to an earlier
      generation, and it is already cancelled unless another call has detached its cancel function
      and not called it yet. */
  lemma EarlierContextsAtStart(states: seq<System>, events: seq<Event>, n: nat, id: nat, context: nat)
    requires Behaviour(states, events) && n < |events| && events[n] == Start(id)
    requires context in states[n].shared.activated
    ensures context < states[n].calls[id].drew.value
    ensures context in states[n + 1].shared.cancelled <==> !InDetachedHands(states[n], context)
  {
    ReachableInv(states, events, n);
    var s := states[n];
    assert AboutToActivate(s.calls[id]) && AllBelow(s.shared.activated, s.calls[id].drew.value);
    if InDetachedHands(s, context) {
      var holder :| DetachedBy(s, holder, context);
    }
  }

  /** So all earlier contexts are cancelled at that moment exactly when no call is between taking
      a cancel function and calling it. */
  lemma StartFindsEarlierCancelledIff(states: seq<System>, events: seq<Event>, n: nat, id: nat)
    requires Behaviour(states, events) && n < |events| && events[n] == Start(id)
    ensures (forall g | g in states[n].shared.activated :: g in states[n + 1].shared.cancelled) <==>
            (forall h | h in states[n].calls && states[n].calls[h].phase.Detached? :: states[n].calls[h].phase.taken.None?)
  {
    ReachableInv(states, events, n);
    var s := states[n];
    forall g | g in s.shared.activated ensures g in states[n + 1].shared.cancelled <==> !InDetachedHands(s, g) {
      EarlierContextsAtStart(states, events, n, id, g);
    }
    forall h | h in s.calls && s.calls[h].phase.Detached? && s.calls[h].phase.taken.Some?
      ensures InDetachedHands(s, s.calls[h].phase.taken.value) && s.calls[h].phase.taken.value in s.shared.activated
    {
      assert DetachedBy(s, h, s.calls[h].phase.taken.value);
    }
    forall g | InDetachedHands(s, g) ensures exists h :: h in s.calls && s.calls[h].phase == Detached(Some(g)) {
      var h :| DetachedBy(s, h, g);
      assert h in s.calls && s.calls[h].phase == Detached(Some(g));
    }
  }

  /** No cancel function is ever called on a context that is already cancelled. */
  lemma ContextsCancelledOnce(states: seq<System>, events: seq<Event>, n: nat)
    requires Behaviour(states, events) && n < |events|
    ensures events[n].CancelDetached? ==> AsSet(states[n].calls[events[n].id].phase.taken) !! states[n].shared.cancelled
    ensures events[n].Start? || events[n].DeferredActivate? ==> AsSet(states[n].shared.active) !! states[n].shared.cancelled
  {
    ReachableInv(states, events, n);
    if events[n].CancelDetached? && states[n].calls[events[n].id].phase.taken.Some? {
      assert DetachedBy(states[n], events[n].id, states[n].calls[events[n].id].phase.taken.value);
    }
  }

  /** The drain counter is the number of calls in flight, so idleness is real. */
  lemma PendingCountsCallsInFlight(states: seq<System>, events: seq<Event>, n: nat)
    requires Behaviour(states, events) && n < |states|
    ensures states[n].shared.pending == |InFlight(states[n])|
    ensures states[n].shared.pending == 0 <==>
              forall id | id in states[n].calls && !states[n].calls[id].kind.Canceller? :: states[n].calls[id].phase.Done?
  {
    ReachableInv(states, events, n);
    var s := states[n];
    if s.shared.pending == 0 {
      assert InFlight(s) == {};
      forall id | id in s.calls && !s.calls[id].kind.Canceller? ensures s.calls[id].phase.Done? {
        assert id !in InFlight(s);
      }
    } else {
      var id :| id in InFlight(s);
      assert id in s.calls && !s.calls[id].kind.Canceller? && !s.calls[id].phase.Done?;
    }
  }

  // ----- Which generation a superseding call detaches -----

  predicate Activates(e: Event) {
    e.Start? || e.DeferredActivate?
  }

  /** Step m activates the context, and nobody takes or replaces it before step n. */
  ghost predicate LeftActive(states: seq<System>, events: seq<Event>, m: nat, n: nat, context: nat)
    requires Behaviour(states, events) && m < n <= |events|
  {
    && Activates(events[m]) && states[m].calls[events[m].id].drew == Some(context)
    && forall i | m < i < n :: !Activates(events[i]) && !events[i].DetachActive?
  }

  lemma {:induction false} ActiveWasLeft(states: seq<System>, events: seq<Event>, d: nat, n: nat, context: nat)
    requires Behaviour(states, events) && d <= n < |states|
    requires states[n].shared.active == Some(context) && states[d].shared.active != Some(context)
    ensures exists m: nat | d <= m < n :: LeftActive(states, events, m, n, context)
  {
    assert states[n] == Next(states[n - 1], events[n - 1]);
    if Activates(events[n - 1]) {
      assert LeftActive(states, events, n - 1, n, context);
    } else {
      ActiveWasLeft(states, events, d, n - 1, context);
      var m: nat :| d <= m < n - 1 && LeftActive(states, events, m, n - 1, context);
      assert LeftActive(states, events, m, n, context);
    }
  }

  lemma {:induction false} LeftIsActive(states: seq<System>, events: seq<Event>, m: nat, n: nat, context: nat)
    requires Behaviour(states, events) && m < n < |states| && LeftActive(states, events, m, n, context)
    ensures states[n].shared.active == Some(context)
  {
    assert states[n] == Next(states[n - 1], events[n - 1]);
    if m < n - 1 {
      assert LeftActive(states, events, m, n - 1, context);
      LeftIsActive(states, events, m, n - 1, context);
    }
  }

  lemma {:induction false} DrewStaysOn(states: seq<System>, events: seq<Event>, d: nat, n: nat, id: nat)
    requires Behaviour(states, events) && d <= n < |states| && id in states[d].calls && states[d].calls[id].drew.Some?
    ensures id in states[n].calls && states[n].calls[id].drew == states[d].calls[id].drew
  {
    if d < n {
      DrewStaysOn(states, events, d, n - 1, id);
      ReachableInv(states, events, n - 1);
      assert WellFormedCall(states[n - 1].calls[id]);
      assert states[n] == Next(states[n - 1], events[n - 1]);
    }
  }

  /** A superseding call that drew its generation at step d and detaches at step n takes the context of
      a later generation than its own exactly when one was activated in between and nobody took or
      replaced it since. Its own it never takes. */
  lemma DetachTakesLaterIff(states: seq<System>, events: seq<Event>, d: nat, n: nat, id: nat)
    requires Behaviour(states, events) && d < n < |events| && events[d] == DrawNext(id) && events[n] == DetachActive(id)
    ensures var drew, active := states[n].calls[id].drew, states[n].shared.active;
      && drew == Some(states[d + 1].shared.generation) && active != drew
      && (active.Some? && active.value > drew.value
          <==> exists m: nat, context: nat | d < m < n && context > drew.value :: LeftActive(states, events, m, n, context))
  {
    assert states[d + 1] == Next(states[d], events[d]);
    DrewStaysOn(states, events, d + 1, n, id);
    var drew, active := states[n].calls[id].drew.value, states[n].shared.active;
    ReachableInv(states, events, n);
    ReachableInv(states, events, d);
    if active.Some? && active.value > drew {
      assert states[d].shared.active != active;
      ActiveWasLeft(states, events, d, n, active.value);
      var m: nat :| d <= m < n && LeftActive(states, events, m, n, active.value);
      assert d < m;
    }
    if m: nat, context: nat :| d < m < n && context > drew && LeftActive(states, events, m, n, context) {
      LeftIsActive(states, events, m, n, context);
    }
  }

  /** Activating a context, by contrast, cancels one of an earlier generation only. */
  lemma ActivationCancelsEarlier(states: seq<System>, events: seq<Event>, n: nat)
    requires Behaviour(states, events) && n < |events| && Activates(events[n])
    ensures forall g | g in states[n + 1].shared.cancelled && g !in states[n].shared.cancelled ::
              states[n].calls[events[n].id].drew.Some? && g < states[n].calls[events[n].id].drew.value
  {
    ReachableInv(states, events, n);
    assert states[n + 1] == Next(states[n], events[n]);
    assert AboutToActivate(states[n].calls[events[n].id]);
  }

  // ----- A run in which a superseding callback starts before an older context is cancelled -----

  ghost predicate Reachable(s: System) {
    exists states, events :: Behaviour(states, events) && s == states[|events|]
  }

  lemma StepStaysReachable(s: System, e: Event)
    requires Reachable(s) && Enabled(s, e)
    ensures Reachable(Next(s, e))
  {
    var states, events :| Behaviour(states, events) && s == states[|events|];
    var states', events' := states + [Next(s, e)], events + [e];
    assert Behaviour(states', events') && Next(s, e) == states'[|events'|];
  }

  lemma InitialIsReachable()
    ensures Reachable(INITIAL)
  {
    var none: seq<Event> := [];
    assert Behaviour([INITIAL], none) && INITIAL == [INITIAL][|none|];
  }

  /** A superseding call arrives and queues, undisturbed. */
  lemma Arrive(s: System, id: nat) returns (s': System)
    requires Reachable(s) && id !in s.calls
    ensures Reachable(s') && s'.mutex == s.mutex && s'.shared.generation == s.shared.generation + 1 && s'.shared.active == None
    ensures s'.calls == s.calls[id := Call(Superseding, Queued, Some(s.shared.generation + 1), false, false)]
    ensures s'.shared.activated == s.shared.activated && s'.shared.cancelled == s.shared.cancelled + AsSet(s.shared.active)
  {
    var s1 := DetachedArrival(s, id);
    StepStaysReachable(s1, CancelDetached(id));
    s' := Next(s1, CancelDetached(id));
  }

  /** The same call, stopped between taking the stored cancel function and calling it. */
  lemma DetachedArrival(s: System, id: nat) returns (s': System)
    requires Reachable(s) && id !in s.calls
    ensures Reachable(s') && s'.mutex == s.mutex && s'.shared.generation == s.shared.generation + 1 && s'.shared.active == None
    ensures s'.calls == s.calls[id := Call(Superseding, Detached(s.shared.active), Some(s.shared.generation + 1), false, false)]
    ensures s'.shared.activated == s.shared.activated && s'.shared.cancelled == s.shared.cancelled
  {
    StepStaysReachable(s, Enter(id, Superseding));
    var s1 := Next(s, Enter(id, Superseding));
    StepStaysReachable(s1, DrawNext(id));
    var s2 := Next(s1, DrawNext(id));
    StepStaysReachable(s2, DetachActive(id));
    s' := Next(s2, DetachActive(id));
  }

  /** The newest queued call takes the mutex and starts its callback. */
  lemma TakeTurn(s: System, id: nat) returns (s': System)
    requires Reachable(s) && s.mutex == None && s.shared.active == None
    requires id in s.calls && s.calls[id] == Call(Superseding, Queued, Some(s.shared.generation), false, false)
    ensures Reachable(s') && s'.mutex == Some(id) && s'.shared == Activate(s.shared, s.shared.generation)
    ensures s'.calls == s.calls[id := Call(Superseding, Running, Some(s.shared.generation), true, false)]
  {
    StepStaysReachable(s, Lock(id));
    var s1 := Next(s, Lock(id));
    StepStaysReachable(s1, Check(id));
    var s2 := Next(s1, Check(id));
    StepStaysReachable(s2, Start(id));
    s' := Next(s2, Start(id));
  }

  /** A lone call that has released the mutex leaves its context active. */
  lemma FirstCallLeavesContext() returns (s: System)
    ensures Reachable(s) && s.mutex == None && s.calls.Keys == {0}
    ensures s.shared.generation == 1 && s.shared.active == Some(1) && s.shared.activated == {1} && s.shared.cancelled == {}
  {
    InitialIsReachable();
    s := Arrive(INITIAL, 0);
    s := TakeTurn(s, 0);
    StepStaysReachable(s, Return(0));
    s := Next(s, Return(0));
    StepStaysReachable(s, Unlock(0));
    s := Next(s, Unlock(0));
  }

  /** Call 0 finished under generation 1; call 1 has detached that generation's context and not
      cancelled it; call 2 already runs. */
  lemma LateCancellation() returns (s: System)
    ensures Reachable(s)
    ensures 2 in s.calls && s.calls[2].kind.Superseding? && s.calls[2].phase.Running? && s.calls[2].drew == Some(3)
    ensures 1 in s.shared.activated && 1 !in s.shared.cancelled
  {
    s := FirstCallLeavesContext();
    s := DetachedArrival(s, 1);
    s := Arrive(s, 2);
    s := TakeTurn(s, 2);
  }

  /** Call 0 has drawn generation 1 and not detached yet; call 1 draws generation 2 and runs; then call 0
      detaches and cancels the context of call 1, whose generation is still the newest. */
  lemma NewestRunsCancelled() returns (s: System)
    ensures Reachable(s)
    ensures 1 in s.calls && s.calls[1].kind.Superseding? && s.calls[1].phase.Running? && s.calls[1].drew == Some(s.shared.generation)
    ensures s.shared.generation in s.shared.cancelled
  {
    InitialIsReachable();
    StepStaysReachable(INITIAL, Enter(0, Superseding));
    s := Next(INITIAL, Enter(0, Superseding));
    StepStaysReachable(s, DrawNext(0));
    s := Next(s, DrawNext(0));
    s := Arrive(s, 1);
    s := TakeTurn(s, 1);
    StepStaysReachable(s, DetachActive(0));
    s := Next(s, DetachActive(0));
    StepStaysReachable(s, CancelDetached(0));
    s := Next(s, CancelDetached(0));
  }

  // ----- Progress -----

  predicate IsStepOf(e: Event, id: nat) {
    !e.Enter? && e.id == id
  }

  /** The next step of a call that holds the mutex or needs none. */
  function OwnStep(id: nat, c: Call): Event {
    match c.phase
    case Entered => if c.kind.Superseding? then DrawNext(id) else if c.kind.Canceller? then DetachActive(id) else Lock(id)
    case Drawn => DetachActive(id)
    case Detached(_) => CancelDetached(id)
    case Queued => Lock(id)
    case Locked => Check(id)
    case Admitted => Start(id)
    case Running => Return(id)
    case DeferredDrawn => DeferredActivate(id)
    case Skipped => Unlock(id)
    case Returned => Unlock(id)
    case Released => Drain(id)
    case Done => Drain(id)
  }

  /** No call waits for good: while one is not done, it or the holder of the mutex can take a step. */
  lemma NeverStuck(states: seq<System>, events: seq<Event>, n: nat, id: nat)
    requires Behaviour(states, events) && n < |states| && id in states[n].calls && !states[n].calls[id].phase.Done?
    ensures exists e, mover :: Enabled(states[n], e) && IsStepOf(e, mover) && (mover == id || states[n].mutex == Some(mover))
  {
    ReachableInv(states, events, n);
    var s := states[n];
    var e := OwnStep(id, s.calls[id]);
    if e.Lock? && s.mutex.Some? {
      var holder := s.mutex.value;
      assert WellFormedCall(s.calls[holder]);
      assert Enabled(s, OwnStep(holder, s.calls[holder])) && IsStepOf(OwnStep(holder, s.calls[holder]), holder);
    } else {
      assert WellFormedCall(s.calls[id]);
      assert Enabled(s, e) && IsStepOf(e, id);
    }
  }

  /** Whatever a run has come to, a call of any kind may begin, and a running ordered callback that has
      drawn no generation may draw one. */
  lemma CallersAreFree(states: seq<System>, events: seq<Event>, id: nat, kind: Kind)
    requires Behaviour(states, events)
    ensures var s := states[|events|];
            && (id !in s.calls ==> Behaviour(states + [Next(s, Enter(id, kind))], events + [Enter(id, kind)]))
            && (id in s.calls && s.calls[id].kind.Ordered? && s.calls[id].phase.Running? && s.calls[id].drew.None? ==>
                  Behaviour(states + [Next(s, DeferredDraw(id))], events + [DeferredDraw(id)]))
  {
  }
}
