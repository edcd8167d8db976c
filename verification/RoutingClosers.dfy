/** How often the mmap closers of cooled generations run while the refresh operations interleave. */
module RoutingClosers {
  import opened Wrappers
  import opened RefreshTopology
  import opened RoutingInterleavings

  /** A closer waits, is about to run, or ran once; the last two only for a retired generation. */
  ghost predicate ClosersOnce(w: World) {
    && (forall c | c in w.cooled :: c.index < w.mapped && c !in w.taken && c !in w.closes)
    && (forall c | c in w.taken :: c.index < w.mapped && c !in w.closes && c.gen in w.retired)
    && (forall c | c in w.closes :: c.index < w.mapped && w.closes[c] == 1 && c.gen in w.retired)
  }

  ghost predicate Somewhere(w: World, i: nat) {
    exists c: Closer | c.index == i :: c in w.cooled || c in w.taken || c in w.closes
  }

  lemma StepKeepsClosers(w: World, e: Event)
    requires ClosersOnce(w) && Enabled(w, e)
    ensures ClosersOnce(Next(w, e))
  {
  }

  lemma StaysSomewhere(w: World, e: Event, i: nat)
    requires Enabled(w, e) && i < Next(w, e).mapped && (i < w.mapped ==> Somewhere(w, i))
    ensures Somewhere(Next(w, e), i)
  {
    var w' := Next(w, e);
    if i < w.mapped {
      var c: Closer :| c.index == i && (c in w.cooled || c in w.taken || c in w.closes);
      assert c in w'.cooled || c in w'.taken || c in w'.closes;
    } else {
      assert Closer(e.gen, i) in w'.cooled;
    }
  }

  /** However cooling and stopping interleave, every mmap closer is still waiting, about to run, or was
      run exactly once, and none runs before its generation has been retired. */
  lemma {:induction false} EachCloserOnce(states: seq<World>, events: seq<Event>, n: nat)
    requires Behaviour(states, events) && n < |states|
    ensures ClosersOnce(states[n]) && forall i: nat | i < states[n].mapped :: Somewhere(states[n], i)
  {
    if n > 0 {
      EachCloserOnce(states, events, n - 1);
      assert StepAt(states, events, n - 1);
      StepKeepsClosers(states[n - 1], events[n - 1]);
      forall i: nat | i < states[n].mapped ensures Somewhere(states[n], i) {
        StaysSomewhere(states[n - 1], events[n - 1], i);
      }
    }
  }

  function Seeing(w: World): View {
    View(Published(w.routes), w.retired, set c | c in w.closes)
  }

  /** So a reader is safe as long as nothing routed is retired: its closers have not run then either. */
  lemma HealthyIsSafe(states: seq<World>, events: seq<Event>, n: nat)
    requires Behaviour(states, events) && n < |states| && Healthy(states[n])
    ensures Safe(Seeing(states[n]))
  {
    EachCloserOnce(states, events, n);
    var w := states[n];
    forall c | c in Published(w.routes) ensures Servable(Published(w.routes)[c], w.retired, Seeing(w).closed) {
      assert InForce(w, w.routes.value[c]);
    }
  }
}
