/** What every interleaving of the refresh operations keeps: who may know of a generation. */
module RoutingOwnership {
  import opened Wrappers
  import opened RefreshTopology
  import opened RoutingInterleavings

  /** Serials are given out once. */
  ghost predicate Serials(w: World) {
    && (forall g | g in w.condemned || g in w.retired || g in w.runtimes || InForce(w, g) :: g.serial < w.built)
    && (forall x, g | x in w.ops && (g in Seen(w.ops[x]) || g in Own(w.ops[x])) :: g.serial < w.built)
  }

  ghost predicate Private(w: World, g: Gen) {
    g !in w.condemned && g !in w.retired && g !in w.runtimes && g !in Values(w.subsystems)
  }

  ghost predicate OwnPrivate(w: World) {
    forall x, g | x in w.ops && g in Own(w.ops[x]) :: Private(w, g)
  }

  /** What an operation has built is known to it alone. */
  ghost predicate OwnUnseen(w: World) {
    forall x, y, g | x in w.ops && y in w.ops && g in Own(w.ops[x]) :: g !in Seen(w.ops[y]) && (g in Own(w.ops[y]) ==> x == y)
  }

  /** .. and is routed only by a selection update about to put it into the map. */
  ghost predicate OwnUnrouted(w: World) {
    forall x, g | x in w.ops && g in Own(w.ops[x]) && !w.ops[x].Replacing? :: !Routed(w, g)
  }

  ghost predicate Ended(w: World) {
    && w.retired <= w.condemned
    && forall x | x in w.ops :: Ending(w.ops[x]) <= w.condemned
  }

  ghost predicate Ownership(w: World) {
    Serials(w) && OwnPrivate(w) && OwnUnseen(w) && OwnUnrouted(w) && Ended(w)
  }

  // Where things come from.

  lemma OthersKeep(w: World, e: Event, x: nat)
    requires Enabled(w, e) && !StepOf(e, x)
    ensures Lookup(Next(w, e).ops, x) == Lookup(w.ops, x)
  {
  }

  lemma MoverBecomes(w: World, e: Event, x: nat)
    requires Enabled(w, e) && StepOf(e, x)
    ensures Lookup(Next(w, e).ops, x) == OpAfter(w, e)
  {
  }

  lemma MoverSees(w: World, e: Event, g: Gen)
    requires Enabled(w, e) && Moves(e) && OpAfter(w, e).Some? && g in Seen(OpAfter(w, e).value)
    ensures g in Values(w.subsystems) || g in w.runtimes || (e.id in w.ops && (g in Seen(w.ops[e.id]) || g in Own(w.ops[e.id])))
  {
  }

  lemma SeenComesFrom(w: World, e: Event, y: nat, g: Gen)
    requires Enabled(w, e) && y in Next(w, e).ops && g in Seen(Next(w, e).ops[y])
    ensures g in Values(w.subsystems) || g in w.runtimes || (y in w.ops && (g in Seen(w.ops[y]) || g in Own(w.ops[y])))
  {
    if StepOf(e, y) {
      MoverBecomes(w, e, y);
      MoverSees(w, e, g);
    } else {
      OthersKeep(w, e, y);
    }
  }

  lemma MoverOwns(w: World, e: Event, g: Gen)
    requires Enabled(w, e) && Moves(e) && OpAfter(w, e).Some? && g in Own(OpAfter(w, e).value)
    ensures g.serial == w.built || (e.id in w.ops && g in Own(w.ops[e.id]))
  {
  }

  lemma OwnComesFrom(w: World, e: Event, x: nat, g: Gen)
    requires Enabled(w, e) && x in Next(w, e).ops && g in Own(Next(w, e).ops[x])
    ensures (StepOf(e, x) && g.serial == w.built) || (x in w.ops && g in Own(w.ops[x]))
  {
    if StepOf(e, x) {
      MoverBecomes(w, e, x);
      MoverOwns(w, e, g);
    } else {
      OthersKeep(w, e, x);
    }
  }

  lemma InForceComesFrom(w: World, e: Event, g: Gen)
    requires Enabled(w, e) && InForce(Next(w, e), g)
    ensures InForce(w, g) || g in Puts(w, e)
  {
  }

  lemma PutComesFrom(w: World, e: Event, g: Gen)
    requires Enabled(w, e) && g in Puts(w, e)
    ensures exists x :: StepOf(e, x) && x in w.ops && (g in Held(w.ops[x]) || g in Own(w.ops[x]))
  {
    assert StepOf(e, e.id);
  }

  lemma BooksComeFrom(w: World, e: Event, g: Gen)
    requires Enabled(w, e)
    ensures g in Next(w, e).retired ==> g in w.retired || (e.Retire? && e.gen == g && e.id in w.ops && g in Ending(w.ops[e.id]))
    ensures g in Next(w, e).runtimes ==> g in w.runtimes || (e.Commit? && e.id in w.ops && g in Seen(w.ops[e.id]))
  {
  }

  lemma DoomedAreEnding(w: World, e: Event, g: Gen)
    requires Enabled(w, e) && g in Dooms(w, e)
    ensures Moves(e) && OpAfter(w, e).Some? && g in Ending(OpAfter(w, e).value)
  {
  }

  lemma CondemnedComesFrom(w: World, e: Event, g: Gen)
    requires Enabled(w, e) && g in Next(w, e).condemned && g !in w.condemned
    ensures exists x :: StepOf(e, x) && x in Next(w, e).ops && g in Ending(Next(w, e).ops[x])
  {
    DoomedAreEnding(w, e, g);
    assert StepOf(e, e.id);
    MoverBecomes(w, e, e.id);
  }

  lemma BooksKeepSerials(w: World, e: Event, g: Gen)
    requires Serials(w) && Enabled(w, e)
    requires forall x, h | x in Next(w, e).ops && h in Seen(Next(w, e).ops[x]) :: h.serial < Next(w, e).built
    ensures g in Next(w, e).condemned || g in Next(w, e).retired || g in Next(w, e).runtimes ==> g.serial < Next(w, e).built
  {
    BooksComeFrom(w, e, g);
    if g in Next(w, e).condemned && g !in w.condemned {
      CondemnedComesFrom(w, e, g);
    }
  }

  lemma InForceKeepsSerials(w: World, e: Event, g: Gen)
    requires Serials(w) && Enabled(w, e) && InForce(Next(w, e), g)
    ensures g.serial < Next(w, e).built
  {
    InForceComesFrom(w, e, g);
    if g in Puts(w, e) {
      PutComesFrom(w, e, g);
    }
  }

  lemma StepKeepsSerials(w: World, e: Event)
    requires Serials(w) && Enabled(w, e)
    ensures Serials(Next(w, e))
  {
    var w' := Next(w, e);
    forall x, g | x in w'.ops && (g in Seen(w'.ops[x]) || g in Own(w'.ops[x])) ensures g.serial < w'.built {
      if g in Seen(w'.ops[x]) {
        SeenComesFrom(w, e, x, g);
      } else {
        OwnComesFrom(w, e, x, g);
      }
    }
    forall g | g in w'.condemned || g in w'.retired || g in w'.runtimes || InForce(w', g) ensures g.serial < w'.built {
      BooksKeepSerials(w, e, g);
      if InForce(w', g) {
        InForceKeepsSerials(w, e, g);
      }
    }
  }

  lemma MoverEnds(w: World, e: Event, g: Gen)
    requires Ended(w) && Enabled(w, e) && Moves(e) && OpAfter(w, e).Some? && g in Ending(OpAfter(w, e).value)
    ensures g in w.condemned || g in Dooms(w, e)
  {
  }

  lemma StepKeepsEnded(w: World, e: Event)
    requires Ended(w) && Enabled(w, e)
    ensures Ended(Next(w, e))
  {
    var w' := Next(w, e);
    forall x, g | x in w'.ops && g in Ending(w'.ops[x]) ensures g in w'.condemned {
      if StepOf(e, x) {
        MoverBecomes(w, e, x);
        MoverEnds(w, e, g);
      } else {
        OthersKeep(w, e, x);
      }
    }
    forall g | g in w'.retired ensures g in w'.condemned {
      BooksComeFrom(w, e, g);
    }
  }

  lemma MoverSeesNotOwn(w: World, e: Event, g: Gen)
    requires Ownership(w) && Enabled(w, e) && Moves(e) && OpAfter(w, e).Some? && g in Own(OpAfter(w, e).value)
    ensures g !in Seen(OpAfter(w, e).value)
  {
    assert e.id in w.ops && g in Own(w.ops[e.id]) ==> Private(w, g) && g !in Seen(w.ops[e.id]);
  }

  lemma SeenIsNotOwn(w: World, e: Event, y: nat, g: Gen)
    requires Ownership(w) && Enabled(w, e) && y in Next(w, e).ops && g in Own(Next(w, e).ops[y])
    ensures g !in Seen(Next(w, e).ops[y])
  {
    if StepOf(e, y) {
      MoverBecomes(w, e, y);
      MoverSeesNotOwn(w, e, g);
    } else {
      OthersKeep(w, e, y);
    }
  }

  lemma StepKeepsOwnUnseen(w: World, e: Event)
    requires Ownership(w) && Enabled(w, e)
    ensures OwnUnseen(Next(w, e))
  {
    var ops := Next(w, e).ops;
    forall x, y, g | x in ops && y in ops && g in Own(ops[x])
      ensures g !in Seen(ops[y]) && (g in Own(ops[y]) ==> x == y)
    {
      OwnComesFrom(w, e, x, g);
      assert x in w.ops && g in Own(w.ops[x]) ==> Private(w, g);
      if g in Own(ops[y]) {
        OwnComesFrom(w, e, y, g);
        SeenIsNotOwn(w, e, y, g);
      }
      if g in Seen(ops[y]) {
        SeenComesFrom(w, e, y, g);
      }
    }
  }

  lemma StaysUnmapped(w: World, e: Event, x: nat, g: Gen)
    requires Ownership(w) && Enabled(w, e) && OwnUnseen(Next(w, e))
    requires x in Next(w, e).ops && g in Own(Next(w, e).ops[x])
    ensures g !in Values(MapAfter(w, e))
  {
    OwnComesFrom(w, e, x, g);
    assert x in w.ops && g in Own(w.ops[x]) ==> Private(w, g);
    assert g in Values(w.subsystems) ==> InForce(w, g);
    assert forall y | StepOf(e, y) && y in w.ops :: g !in Seen(w.ops[y]);
  }

  lemma StaysPrivate(w: World, e: Event, x: nat, g: Gen)
    requires Ownership(w) && Enabled(w, e) && OwnUnseen(Next(w, e))
    requires x in Next(w, e).ops && g in Own(Next(w, e).ops[x])
    ensures Private(Next(w, e), g)
  {
    StaysUnmapped(w, e, x, g);
    OwnComesFrom(w, e, x, g);
    BooksComeFrom(w, e, g);
    if g in Next(w, e).condemned && g !in w.condemned {
      CondemnedComesFrom(w, e, g);
    }
    assert x in w.ops && g in Own(w.ops[x]) ==> Private(w, g);
  }

  lemma StepKeepsOwnPrivate(w: World, e: Event)
    requires Ownership(w) && Enabled(w, e) && OwnUnseen(Next(w, e))
    ensures OwnPrivate(Next(w, e))
  {
    var w' := Next(w, e);
    forall x, g | x in w'.ops && g in Own(w'.ops[x]) ensures Private(w', g) {
      StaysPrivate(w, e, x, g);
    }
  }

  lemma RoutedComesFrom(w: World, e: Event, g: Gen)
    requires Enabled(w, e) && Routed(Next(w, e), g) && !Routed(w, g)
    ensures e.Route? && g in Values(w.ops[e.id].topology)
    ensures g in Seen(w.ops[e.id]) || (g in Own(w.ops[e.id]) && Lookup(Next(w, e).ops, e.id).Some? && Next(w, e).ops[e.id].Replacing?)
  {
  }

  lemma StepKeepsOwnUnrouted(w: World, e: Event)
    requires Ownership(w) && Enabled(w, e) && OwnUnseen(Next(w, e))
    ensures OwnUnrouted(Next(w, e))
  {
    var w' := Next(w, e);
    forall x, g | x in w'.ops && g in Own(w'.ops[x]) && !w'.ops[x].Replacing? ensures !Routed(w', g) {
      OwnComesFrom(w, e, x, g);
      if Routed(w', g) && !Routed(w, g) {
        RoutedComesFrom(w, e, g);
      }
      StaysUnreplaced(w, e, x);
    }
  }

  lemma StaysUnreplaced(w: World, e: Event, x: nat)
    requires Enabled(w, e) && x in Next(w, e).ops && !Next(w, e).ops[x].Replacing?
    ensures x in w.ops && w.ops[x].Replacing? ==> Own(Next(w, e).ops[x]) == {}
  {
  }

  lemma {:induction false} Reachable(states: seq<World>, events: seq<Event>, n: nat)
    requires Behaviour(states, events) && n < |states|
    ensures Ownership(states[n])
  {
    if n > 0 {
      Reachable(states, events, n - 1);
      var w, e := states[n - 1], events[n - 1];
      assert StepAt(states, events, n - 1);
      StepKeepsSerials(w, e);
      StepKeepsEnded(w, e);
      StepKeepsOwnUnseen(w, e);
      StepKeepsOwnPrivate(w, e);
      StepKeepsOwnUnrouted(w, e);
    }
  }

  /** What every step keeps stays true. */
  lemma {:induction false} StaysTrue(states: seq<World>, events: seq<Event>, m: nat, n: nat, kept: World -> bool)
    requires Behaviour(states, events) && m <= n < |states| && kept(states[m])
    requires forall w, e | Enabled(w, e) && kept(w) :: kept(Next(w, e))
    ensures kept(states[n])
  {
    if m < n {
      StaysTrue(states, events, m, n - 1, kept);
      assert StepAt(states, events, n - 1);
    }
  }
}
