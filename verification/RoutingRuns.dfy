/** What runs of interleaved refresh operations come to: when something retired is in force, when a
 capture has gone stale, and what a permission swap replaces. */
module RoutingRuns {
  import opened Wrappers
  import opened RefreshTopology
  import opened RoutingInterleavings
  import opened RoutingOwnership

  // ----- When something in force is retired -----

  /** Operation x took the generation at step k, it was retired at step j, and x put it back at step r. */
  ghost predicate StaleAt(states: seq<World>, events: seq<Event>, k: nat, j: nat, r: nat, x: nat, g: Gen)
    requires k < j < r < |events| <= |states|
  {
    && StepOf(events[k], x) && g in Takes(states[k], events[k])
    && events[j].Retire? && events[j].gen == g
    && StepOf(events[r], x) && g in Puts(states[r], events[r])
  }

  ghost predicate StaleWrite(states: seq<World>, events: seq<Event>, n: nat)
    requires n <= |events| <= |states|
  {
    exists k: nat, j: nat, r: nat, x: nat, g: Gen | k < j < r < n :: StaleAt(states, events, k, j, r, x, g)
  }

  /** A generation is retired while it is in the map or in the routes. */
  ghost predicate HastyAt(states: seq<World>, events: seq<Event>, j: nat)
    requires j < |events| <= |states|
  {
    events[j].Retire? && InForce(states[j], events[j].gen)
  }

  ghost predicate HastyStop(states: seq<World>, events: seq<Event>, n: nat)
    requires n <= |events| <= |states|
  {
    exists j: nat | j < n :: HastyAt(states, events, j)
  }

  lemma MoverHolds(w: World, e: Event, g: Gen)
    requires Enabled(w, e) && Moves(e) && OpAfter(w, e).Some? && g in Held(OpAfter(w, e).value)
    ensures g in Takes(w, e) || (e.id in w.ops && g in Held(w.ops[e.id]))
  {
  }

  lemma HeldComesFrom(w: World, e: Event, x: nat, g: Gen)
    requires Enabled(w, e) && x in Next(w, e).ops && g in Held(Next(w, e).ops[x])
    ensures (x in w.ops && g in Held(w.ops[x])) || (StepOf(e, x) && g in Takes(w, e))
  {
    if StepOf(e, x) {
      MoverBecomes(w, e, x);
      MoverHolds(w, e, g);
    } else {
      OthersKeep(w, e, x);
    }
  }

  lemma {:induction false} TakenEarlier(states: seq<World>, events: seq<Event>, n: nat, x: nat, g: Gen)
    requires Behaviour(states, events) && n < |states| && x in states[n].ops && g in Held(states[n].ops[x])
    ensures exists k: nat | k < n :: StepOf(events[k], x) && g in Takes(states[k], events[k])
  {
    assert n > 0;
    assert StepAt(states, events, n - 1);
    HeldComesFrom(states[n - 1], events[n - 1], x, g);
    if x in states[n - 1].ops && g in Held(states[n - 1].ops[x]) {
      TakenEarlier(states, events, n - 1, x, g);
    }
  }

  lemma {:induction false} RetiredStays(states: seq<World>, events: seq<Event>, m: nat, n: nat)
    requires Behaviour(states, events) && m <= n < |states|
    ensures states[m].retired <= states[n].retired && states[m].condemned <= states[n].condemned
  {
    if m < n {
      RetiredStays(states, events, m, n - 1);
      assert StepAt(states, events, n - 1);
    }
  }

  lemma {:induction false} RetiredBetween(states: seq<World>, events: seq<Event>, m: nat, n: nat, g: Gen)
    requires Behaviour(states, events) && m <= n < |states| && g !in states[m].retired && g in states[n].retired
    ensures exists j: nat | m <= j < n :: events[j].Retire? && events[j].gen == g
  {
    assert StepAt(states, events, n - 1);
    if g in states[n - 1].retired {
      RetiredBetween(states, events, m, n - 1, g);
    } else {
      BooksComeFrom(states[n - 1], events[n - 1], g);
    }
  }

  lemma StaleIsUnhealthy(states: seq<World>, events: seq<Event>, k: nat, j: nat, r: nat, x: nat, g: Gen)
    requires Behaviour(states, events) && k < j < r < |events| && StaleAt(states, events, k, j, r, x, g)
    ensures !Healthy(states[r + 1])
  {
    assert StepAt(states, events, j);
    assert StepAt(states, events, r);
    RetiredStays(states, events, j + 1, r + 1);
    var e, after := events[r], states[r + 1].subsystems;
    if e.SetNext? || e.Restore? {
      assert states[r].ops[e.id].next.cluster in after;
    }
    assert InForce(states[r + 1], g);
  }

  lemma UnhealthyStep(states: seq<World>, events: seq<Event>, r: nat)
    requires Behaviour(states, events) && r < |events|
    requires (forall i | 0 <= i <= r :: Healthy(states[i])) && !Healthy(states[r + 1])
    ensures StaleWrite(states, events, r + 1) || HastyStop(states, events, r + 1)
  {
    var w, e := states[r], events[r];
    assert StepAt(states, events, r);
    var g :| InForce(states[r + 1], g) && g in states[r + 1].retired;
    InForceComesFrom(w, e, g);
    BooksComeFrom(w, e, g);
    Reachable(states, events, r);
    if InForce(w, g) {
      assert HastyAt(states, events, r);
    } else {
      PutComesFrom(w, e, g);
      var x :| StepOf(e, x) && x in w.ops && (g in Held(w.ops[x]) || g in Own(w.ops[x]));
      assert g in w.retired;
      assert forall y | y in w.ops && g in Own(w.ops[y]) :: Private(w, g);
      RetiredPutIsStale(states, events, r, x, g);
    }
  }

  lemma RetiredSinceTaken(states: seq<World>, events: seq<Event>, k: nat, r: nat, x: nat, g: Gen)
    requires Behaviour(states, events) && k < r < |events| && Healthy(states[k])
    requires StepOf(events[k], x) && g in Takes(states[k], events[k])
    requires StepOf(events[r], x) && g in Puts(states[r], events[r]) && g in states[r].retired
    ensures exists j: nat | k < j < r :: StaleAt(states, events, k, j, r, x, g)
  {
    assert StepAt(states, events, k);
    assert InForce(states[k], g) && !events[k].Retire?;
    RetiredBetween(states, events, k, r, g);
    var j: nat :| k <= j < r && events[j].Retire? && events[j].gen == g;
    assert StaleAt(states, events, k, j, r, x, g);
  }

  lemma RetiredPutIsStale(states: seq<World>, events: seq<Event>, r: nat, x: nat, g: Gen)
    requires Behaviour(states, events) && r < |events|
    requires forall i | 0 <= i <= r :: Healthy(states[i])
    requires StepOf(events[r], x) && x in states[r].ops && g in Held(states[r].ops[x]) && g in states[r].retired
    requires g in Puts(states[r], events[r])
    ensures StaleWrite(states, events, r + 1)
  {
    TakenEarlier(states, events, r, x, g);
    var k: nat :| k < r && StepOf(events[k], x) && g in Takes(states[k], events[k]);
    RetiredSinceTaken(states, events, k, r, x, g);
  }

  /** Nothing retired is ever in force exactly when no operation puts back what was retired since it took
      it, and nothing is retired while in force. */
  lemma {:induction false} HealthyIffNoStaleWrite(states: seq<World>, events: seq<Event>, n: nat)
    requires Behaviour(states, events) && n <= |events|
    ensures (forall i | 0 <= i <= n :: Healthy(states[i])) <==> !StaleWrite(states, events, n) && !HastyStop(states, events, n)
  {
    if StaleWrite(states, events, n) {
      var k: nat, j: nat, r: nat, x: nat, g: Gen :| k < j < r < n && StaleAt(states, events, k, j, r, x, g);
      StaleIsUnhealthy(states, events, k, j, r, x, g);
    } else if HastyStop(states, events, n) {
      var j: nat :| j < n && HastyAt(states, events, j);
      assert StepAt(states, events, j) && InForce(states[j + 1], events[j].gen);
    } else if n > 0 {
      assert !StaleWrite(states, events, n - 1) && !HastyStop(states, events, n - 1);
      HealthyIffNoStaleWrite(states, events, n - 1);
      if !Healthy(states[n]) {
        UnhealthyStep(states, events, n - 1);
      }
    }
  }

  // ----- When a captured topology has gone stale -----

  /** Past the captured topology; no operation comes back from there. */
  predicate Past(op: Op) {
    op.Restoring? || op.Publishing? || op.Committing? || op.Stopping?
  }

  predicate Kept(w: World, x: nat, topology: Topology) {
    x in w.ops && (Past(w.ops[x]) || (w.ops[x].Captured? && w.ops[x].topology == topology))
  }

  lemma KeptStays(w: World, e: Event, x: nat, topology: Topology)
    requires Enabled(w, e) && Kept(w, x, topology)
    ensures Kept(Next(w, e), x, topology)
  {
  }

  lemma CaptureKept(states: seq<World>, events: seq<Event>, k: nat, n: nat, x: nat)
    requires Behaviour(states, events) && k < n < |states| && events[k] == Capture(x)
    ensures Kept(states[n], x, states[k].subsystems)
  {
    var topology := states[k].subsystems;
    forall w, e | Enabled(w, e) && Kept(w, x, topology) ensures Kept(Next(w, e), x, topology) {
      KeptStays(w, e, x, topology);
    }
    assert StepAt(states, events, k);
    StaysTrue(states, events, k + 1, n, w => Kept(w, x, topology));
  }

  lemma {:induction false} DoomedSince(states: seq<World>, events: seq<Event>, k: nat, n: nat, g: Gen)
    requires Behaviour(states, events) && k <= n < |states|
    ensures g in states[n].condemned <==> g in states[k].condemned || exists j | k <= j < n :: g in Dooms(states[j], events[j])
  {
    if k < n {
      DoomedSince(states, events, k, n - 1, g);
      assert StepAt(states, events, n - 1);
      assert states[n].condemned == states[n - 1].condemned + Dooms(states[n - 1], events[n - 1]);
    }
  }

  ghost predicate RoutesDoomed(w: World) {
    w.routes.Some? && exists g | g in Values(w.routes.value) :: g in w.condemned
  }

  /** Between its capture and its route some operation turned to stopping what the capture lists. */
  ghost predicate OvertakenAt(states: seq<World>, events: seq<Event>, k: nat, j: nat, g: Gen)
    requires k < |states| && j < |events| <= |states|
  {
    g in Values(states[k].subsystems) && g in Dooms(states[j], events[j])
  }

  /** A rebuild routes a generation that is being stopped exactly when the map named one already as it
      was captured, or some step since the capture, the route included, turned to stopping one that
      the capture names. */
  lemma RoutesDoomedIffOvertaken(states: seq<World>, events: seq<Event>, k: nat, r: nat, x: nat, bootstrap: bool)
    requires Behaviour(states, events) && k < r < |events| && events[k] == Capture(x) && events[r] == Route(x, bootstrap)
    requires bootstrap || states[r].routes.Some?
    ensures RoutesDoomed(states[r + 1]) <==>
      || (exists g | g in Values(states[k].subsystems) :: g in states[k].condemned)
      || (exists j: nat, g: Gen | k <= j <= r :: OvertakenAt(states, events, k, j, g))
  {
    CaptureKept(states, events, k, r, x);
    assert StepAt(states, events, r);
    assert states[r + 1].routes == Some(states[k].subsystems);
    forall g | g in Values(states[k].subsystems)
      ensures g in states[r + 1].condemned <==> g in states[k].condemned || exists j: nat | k <= j <= r :: OvertakenAt(states, events, k, j, g)
    {
      DoomedSince(states, events, k, r + 1, g);
      assert forall j: nat | k <= j <= r :: OvertakenAt(states, events, k, j, g) <==> g in Dooms(states[j], events[j]);
    }
  }

  // ----- What a permission swap replaces -----

  /** From the last look at the expected generation on, until the new one is set. */
  predicate About(op: Op, next: Gen) {
    op == Ready(next) || (op.Registering? && op.next == next)
  }

  predicate Set(op: Op) {
    op.Registered? || op.Captured? || Past(op)
  }

  lemma AboutStays(w: World, e: Event, x: nat, next: Gen)
    requires Enabled(w, e) && x in w.ops && (About(w.ops[x], next) || Set(w.ops[x]))
    ensures x in Next(w, e).ops && (Set(Next(w, e).ops[x]) || (About(w.ops[x], next) && About(Next(w, e).ops[x], next)))
  {
  }

  lemma AboutWritesNothing(w: World, e: Event, x: nat, next: Gen)
    requires Enabled(w, e) && x in w.ops && About(w.ops[x], next) && StepOf(e, x) && About(Next(w, e).ops[x], next)
    ensures Next(w, e).subsystems == w.subsystems
  {
  }

  predicate BuiltBy(w: World, x: nat, next: Gen) {
    x in w.ops && w.ops[x].Built? && w.ops[x].next == next
  }

  lemma AboutUntilSet(states: seq<World>, events: seq<Event>, f: nat, n: nat, s: nat, x: nat, next: Gen)
    requires Behaviour(states, events) && f < n <= s < |events| && events[f] == Accept(x) && events[s] == SetNext(x)
    requires BuiltBy(states[f], x, next)
    ensures x in states[n].ops && About(states[n].ops[x], next)
  {
    AboutOrSetSince(states, events, f, n, x, next);
    assert StepAt(states, events, s);
    if IsSet(states[n], x) {
      SetStays(states, events, n, s, x);
    }
  }

  predicate IsSet(w: World, x: nat) {
    x in w.ops && Set(w.ops[x])
  }

  predicate AboutOrSet(w: World, x: nat, next: Gen) {
    IsSet(w, x) || (x in w.ops && About(w.ops[x], next))
  }

  lemma AboutOrSetSince(states: seq<World>, events: seq<Event>, f: nat, n: nat, x: nat, next: Gen)
    requires Behaviour(states, events) && f < n < |states| && events[f] == Accept(x) && BuiltBy(states[f], x, next)
    ensures AboutOrSet(states[n], x, next)
  {
    assert StepAt(states, events, f);
    forall w, e | Enabled(w, e) && AboutOrSet(w, x, next) ensures AboutOrSet(Next(w, e), x, next) {
      AboutStays(w, e, x, next);
    }
    StaysTrue(states, events, f + 1, n, w => AboutOrSet(w, x, next));
  }

  lemma SetStays(states: seq<World>, events: seq<Event>, m: nat, n: nat, x: nat)
    requires Behaviour(states, events) && m <= n < |states| && IsSet(states[m], x)
    ensures IsSet(states[n], x)
  {
    forall w, e | Enabled(w, e) && IsSet(w, x) ensures IsSet(Next(w, e), x) {
      AboutStays(w, e, x, Gen("", 0));
    }
    StaysTrue(states, events, m, n, w => IsSet(w, x));
  }

  /** Step m changes the cluster's entry, and no later one before s does. */
  ghost predicate LastChange(states: seq<World>, m: nat, s: nat, cluster: string)
    requires m < s < |states|
  {
    && Lookup(states[m + 1].subsystems, cluster) != Lookup(states[m].subsystems, cluster)
    && forall i | m < i <= s :: Lookup(states[i].subsystems, cluster) == Lookup(states[m + 1].subsystems, cluster)
  }

  lemma {:induction false} LastChangeDecides(states: seq<World>, f: nat, s: nat, cluster: string)
    requires f <= s < |states|
    ensures Lookup(states[s].subsystems, cluster) == Lookup(states[f].subsystems, cluster)
      || exists m: nat | f <= m < s :: LastChange(states, m, s, cluster)
  {
    if f < s {
      if Lookup(states[s].subsystems, cluster) != Lookup(states[s - 1].subsystems, cluster) {
        assert LastChange(states, s - 1, s, cluster);
      } else {
        LastChangeDecides(states, f, s - 1, cluster);
        if Lookup(states[s - 1].subsystems, cluster) != Lookup(states[f].subsystems, cluster) {
          var m: nat :| f <= m < s - 1 && LastChange(states, m, s - 1, cluster);
          assert LastChange(states, m, s, cluster);
        }
      }
    }
  }

  ghost predicate OvertakenSwap(states: seq<World>, events: seq<Event>, m: nat, s: nat, x: nat, cluster: string, expected: Gen)
    requires m < s < |events| <= |states|
  {
    LastChange(states, m, s, cluster) && !StepOf(events[m], x) && Lookup(states[m + 1].subsystems, cluster) != Some(expected)
  }

  /** A permission swap replaces another generation than the one it expects exactly when, after its last
      look, another operation changed the cluster's entry and left something else there. */
  lemma SwapReplacesExpectedUnlessOvertaken(states: seq<World>, events: seq<Event>, f: nat, s: nat, x: nat, next: Gen, expected: Gen)
    requires Behaviour(states, events) && f < s < |events| && events[f] == Accept(x) && events[s] == SetNext(x)
    requires Lookup(states[f].ops, x) == Some(Built(next, Some(expected)))
    ensures states[s + 1].subsystems == states[s].subsystems[next.cluster := next]
    ensures Lookup(states[s].subsystems, next.cluster) != Some(expected)
      <==> exists m: nat | f < m < s :: OvertakenSwap(states, events, m, s, x, next.cluster, expected)
  {
    AboutUntilSet(states, events, f, s, s, x, next);
    assert StepAt(states, events, s);
    assert StepAt(states, events, f);
    LastChangeDecides(states, f + 1, s, next.cluster);
    if Lookup(states[s].subsystems, next.cluster) != Some(expected) {
      var m: nat :| f + 1 <= m < s && LastChange(states, m, s, next.cluster);
      ChangedByOther(states, events, f, m, s, x, next);
      assert OvertakenSwap(states, events, m, s, x, next.cluster, expected);
    }
  }

  lemma ChangedByOther(states: seq<World>, events: seq<Event>, f: nat, m: nat, s: nat, x: nat, next: Gen)
    requires Behaviour(states, events) && f < m < s < |events| && events[f] == Accept(x) && events[s] == SetNext(x)
    requires BuiltBy(states[f], x, next) && states[m + 1].subsystems != states[m].subsystems
    ensures !StepOf(events[m], x)
  {
    if StepOf(events[m], x) {
      AboutUntilSet(states, events, f, m, s, x, next);
      AboutUntilSet(states, events, f, m + 1, s, x, next);
      assert StepAt(states, events, m);
      AboutWritesNothing(states[m], events[m], x, next);
    }
  }
}
