/**
 The coalescing queue of cluster runtime intents and the filter for stale ones
 (backend/cluster_runtime_intent.go).

 The queue keeps the newest pending intent of each kind and cluster. Publishers and consumers meet
 over a wakeup channel with one slot, so a publisher never blocks; the state machine interleaves any
 number of them with the one-time stop.
 */
module IntentQueue {
  import opened Wrappers

  /** `payload` stands for the paths, cause, auth state and diagnostic an intent carries. */
  datatype Intent = Intent(kind: string, cluster: string, generation: nat, payload: string)

  datatype Key = Key(kind: string, cluster: string)

  function KeyOf(intent: Intent): Key {
    Key(intent.kind, intent.cluster)
  }

  type Pending = m: map<Key, Intent> | forall k | k in m :: KeyOf(m[k]) == k

  // ----- The delivery order -----

  /** Lexicographic order of strings, as Go compares them. */
  predicate StringLess(a: string, b: string)
    decreases |a|
  {
    if b == "" then false
    else if a == "" then true
    else a[0] < b[0] || (a[0] == b[0] && StringLess(a[1..], b[1..]))
  }

  /** The comparison of `Drain`: by generation, then kind, then cluster. */
  predicate Before(a: Intent, b: Intent) {
    if a.generation != b.generation then a.generation < b.generation
    else if a.kind != b.kind then StringLess(a.kind, b.kind)
    else StringLess(a.cluster, b.cluster)
  }

  /** The first character in which two strings differ decides, and a proper prefix comes first. */
  lemma {:induction false} DecidedIsLess(a: string, b: string, k: nat)
    requires k <= |a| && k < |b| && a[..k] == b[..k] && (k == |a| || a[k] < b[k])
    ensures StringLess(a, b)
    decreases k
  {
    if k > 0 {
      assert a[0] == a[..k][0] == b[..k][0] == b[0];
      assert a[1..][..k - 1] == a[..k][1..] && b[1..][..k - 1] == b[..k][1..];
      DecidedIsLess(a[1..], b[1..], k - 1);
    }
  }

  /** And nothing else makes one string come before another. */
  lemma {:induction false} LessIsDecided(a: string, b: string) returns (k: nat)
    requires StringLess(a, b)
    ensures k <= |a| && k < |b| && a[..k] == b[..k] && (k == |a| || a[k] < b[k])
    decreases |a|
  {
    k := 0;
    if a != "" && a[0] == b[0] {
      k := LessIsDecided(a[1..], b[1..]);
      assert a[..k + 1] == [a[0]] + a[1..][..k] && b[..k + 1] == [b[0]] + b[1..][..k];
      k := k + 1;
    }
  }

  lemma {:induction false} StringLessTotal(a: string, b: string)
    ensures StringLess(a, b) || StringLess(b, a) || a == b
    ensures !(StringLess(a, b) && StringLess(b, a)) && !StringLess(a, a)
    decreases |a|
  {
    if a != "" {
      StringLessTotal(a[1..], a[1..]);
      if b != "" && a[0] == b[0] {
        StringLessTotal(a[1..], b[1..]);
        assert a == [a[0]] + a[1..] && b == [b[0]] + b[1..];
      }
    }
  }

  lemma {:induction false} StringLessTransitive(a: string, b: string, c: string)
    requires StringLess(a, b) && StringLess(b, c)
    ensures StringLess(a, c)
    decreases |a|
  {
    if a != "" && a[0] == b[0] && b[0] == c[0] {
      StringLessTransitive(a[1..], b[1..], c[1..]);
    }
  }

  lemma BeforeTransitive(a: Intent, b: Intent, c: Intent)
    requires Before(a, b) && Before(b, c)
    ensures Before(a, c)
  {
    if a.generation == b.generation == c.generation {
      if a.kind == b.kind == c.kind {
        StringLessTransitive(a.cluster, b.cluster, c.cluster);
      } else if a.kind != b.kind && b.kind != c.kind {
        StringLessTransitive(a.kind, b.kind, c.kind);
        StringLessTotal(a.kind, b.kind);
        StringLessTotal(b.kind, c.kind);
      }
    }
  }

  /** Intents of different keys are always ordered one way. */
  lemma BeforeTotal(a: Intent, b: Intent)
    ensures KeyOf(a) != KeyOf(b) ==> Before(a, b) != Before(b, a)
    ensures !Before(a, a)
  {
    StringLessTotal(a.kind, b.kind);
    StringLessTotal(a.cluster, b.cluster);
    StringLessTotal(a.cluster, a.cluster);
  }

  ghost predicate StrictlySorted(s: seq<Intent>) {
    forall i, j | 0 <= i < j < |s| :: Before(s[i], s[j])
  }

  ghost predicate KeysDiffer(s: seq<Intent>) {
    forall i, j | 0 <= i < j < |s| :: KeyOf(s[i]) != KeyOf(s[j])
  }

  function Insert(x: Intent, sorted: seq<Intent>): (r: seq<Intent>)
    ensures multiset(r) == multiset(sorted) + multiset{x}
  {
    if sorted == [] then [x]
    else if Before(x, sorted[0]) then [x] + sorted
    else
      assert sorted == [sorted[0]] + sorted[1..];
      [sorted[0]] + Insert(x, sorted[1..])
  }

  function Sort(s: seq<Intent>): (r: seq<Intent>)
    ensures multiset(r) == multiset(s)
  {
    if s == [] then []
    else
      assert s == [s[0]] + s[1..];
      Insert(s[0], Sort(s[1..]))
  }

  lemma {:induction false} InsertSorts(x: Intent, sorted: seq<Intent>)
    requires StrictlySorted(sorted) && forall y | y in sorted :: KeyOf(x) != KeyOf(y)
    ensures StrictlySorted(Insert(x, sorted))
  {
    if sorted != [] {
      BeforeTotal(x, sorted[0]);
      if Before(x, sorted[0]) {
        forall j | 0 < j < |sorted| ensures Before(x, sorted[j]) {
          BeforeTransitive(x, sorted[0], sorted[j]);
        }
      } else {
        var rest := Insert(x, sorted[1..]);
        InsertSorts(x, sorted[1..]);
        forall j | 0 <= j < |rest| ensures Before(sorted[0], rest[j]) {
          assert rest[j] in multiset(rest);
          assert rest[j] == x || rest[j] in sorted[1..];
        }
      }
    }
  }

  lemma {:induction false} SortSorts(s: seq<Intent>)
    requires KeysDiffer(s)
    ensures StrictlySorted(Sort(s))
  {
    if s != [] {
      SortSorts(s[1..]);
      forall y | y in Sort(s[1..]) ensures KeyOf(s[0]) != KeyOf(y) {
        assert y in multiset(Sort(s[1..]));
        assert y in s[1..];
      }
      InsertSorts(s[0], Sort(s[1..]));
    }
  }

  lemma SortedHeadsAgree(a: seq<Intent>, b: seq<Intent>)
    requires StrictlySorted(a) && StrictlySorted(b) && multiset(a) == multiset(b) && a != [] && b != []
    ensures a[0] == b[0]
  {
    assert a[0] in multiset(b) && b[0] in multiset(a);
    var i :| 0 <= i < |b| && b[i] == a[0];
    var j :| 0 <= j < |a| && a[j] == b[0];
    if i > 0 && j > 0 {
      assert Before(b[0], a[0]) && Before(a[0], b[0]);
      BeforeTransitive(a[0], b[0], a[0]);
      BeforeTotal(a[0], a[0]);
    }
  }

  /** There is only one delivery order, whatever order the map was ranged over in. */
  lemma {:induction false} SortedIsUnique(a: seq<Intent>, b: seq<Intent>)
    requires StrictlySorted(a) && StrictlySorted(b) && multiset(a) == multiset(b)
    ensures a == b
  {
    assert |multiset(a)| == |a| && |multiset(b)| == |b|;
    if a != [] {
      SortedHeadsAgree(a, b);
      assert a == [a[0]] + a[1..] && b == [b[0]] + b[1..];
      assert multiset(a[1..]) == multiset(a) - multiset{a[0]} == multiset(b[1..]);
      SortedIsUnique(a[1..], b[1..]);
    }
  }

  // ----- The queue -----

  /** `s` lists the pending intents, each once. */
  ghost predicate Lists(s: seq<Intent>, pending: Pending) {
    KeysDiffer(s) && (forall k | k in pending :: pending[k] in s) && AllFrom(s, pending)
  }

  ghost predicate AllFrom(s: seq<Intent>, pending: Pending) {
    forall x | x in s :: KeyOf(x) in pending && pending[KeyOf(x)] == x
  }

  class ClusterRuntimeIntentQueue {
    var pending: Pending
    var wakeup: bool   // whether the slot of the wakeup channel is full
    var closed: bool

    constructor ()
      ensures pending == map[] && !wakeup && !closed
    {
      pending, wakeup, closed := map[], false, false;
    }

    /** Keeps the newest intent of each key; ignored without a kind or after the stop. */
    method Publish(intent: Intent)
      modifies this
      ensures closed == old(closed)
      ensures pending == if intent.kind == "" || closed then old(pending) else old(pending)[Key(intent.kind, intent.cluster) := intent]
      ensures wakeup == (old(wakeup) || (intent.kind != "" && !closed))
    {
      if intent.kind == "" || closed {
        return;
      }
      pending := pending[KeyOf(intent) := intent];
      wakeup := true;
    }

    /** Takes everything pending and returns it in the one delivery order. */
    method Drain() returns (intents: seq<Intent>)
      modifies `pending
      ensures pending == map[] && Lists(intents, old(pending)) && StrictlySorted(intents)
      ensures forall i, j | 0 <= i < j < |intents| ::
                var a, b := intents[i], intents[j];
                || a.generation < b.generation
                || (a.generation == b.generation && StringLess(a.kind, b.kind))
                || (a.generation == b.generation && a.kind == b.kind && StringLess(a.cluster, b.cluster))
    {
      intents := [];
      var was, rest := pending, pending.Keys;
      while rest != {}
        invariant pending == was - (was.Keys - rest) && rest <= was.Keys
        invariant Lists(intents, was - rest)
      {
        var k :| k in rest;
        ListOneMore(intents, was, rest, k);
        intents := intents + [was[k]];
        pending, rest := pending - {k}, rest - {k};
      }
      assert was - rest == was;
      SortKeepsList(intents, was);
      intents := Sort(intents);
    }

    method Stop()
      modifies this
      ensures closed && wakeup == old(wakeup)
      ensures pending == if old(closed) then old(pending) else map[]
    {
      if !closed {
        closed, pending := true, map[];
      }
    }
  }

  lemma ListOneMore(s: seq<Intent>, was: Pending, rest: set<Key>, k: Key)
    requires k in rest && rest <= was.Keys && Lists(s, was - rest)
    ensures Lists(s + [was[k]], was - (rest - {k}))
  {
    var now := was - (rest - {k});
    forall k' | k' in now ensures now[k'] in s + [was[k]] {
      if k' != k {
        assert k' in was - rest;
      }
    }
  }

  lemma SortKeepsList(s: seq<Intent>, pending: Pending)
    requires Lists(s, pending)
    ensures Lists(Sort(s), pending) && StrictlySorted(Sort(s))
  {
    SortSorts(s);
    forall x ensures x in s <==> x in Sort(s) {
      assert x in multiset(s) <==> x in multiset(Sort(s));
    }
    StrictMeansDistinct(Sort(s), pending);
  }

  lemma StrictMeansDistinct(s: seq<Intent>, pending: Pending)
    requires StrictlySorted(s) && AllFrom(s, pending)
    ensures KeysDiffer(s)
  {
    forall i, j | 0 <= i < j < |s| ensures KeyOf(s[i]) != KeyOf(s[j]) {
      BeforeTotal(s[i], s[i]);
    }
  }

  // ----- Publishers, consumers and the stop, interleaved -----

  /** `sending` publishers are between their map write and their send, `draining` consumers between
      their receive and their drain. */
  datatype State = State(pending: Pending, wakeup: bool, closed: bool, sending: nat, draining: nat)

  datatype Event =
    | Write(intent: Intent)   // the mutex region of a publish that finds the queue open
    | Send
    | Receive
    | TakeAll                 // the mutex region of a drain
    | Close                   // the mutex region of the stop

  const INITIAL := State(map[], false, false, 0, 0)

  predicate Enabled(s: State, e: Event) {
    match e
    case Write(intent) => !s.closed && intent.kind != ""
    case Send => s.sending > 0
    case Receive => s.wakeup
    case TakeAll => s.draining > 0
    case Close => !s.closed
  }

  function Next(s: State, e: Event): State
    requires Enabled(s, e)
  {
    match e
    case Write(intent) => s.(pending := s.pending[KeyOf(intent) := intent], sending := s.sending + 1)
    case Send => s.(wakeup := true, sending := s.sending - 1)
    case Receive => s.(wakeup := false, draining := s.draining + 1)
    case TakeAll => s.(pending := map[], draining := s.draining - 1)
    case Close => s.(pending := map[], closed := true)
  }

  ghost predicate Behaviour(states: seq<State>, events: seq<Event>) {
    && |states| == |events| + 1
    && states[0] == INITIAL
    && forall i | 0 <= i < |events| :: Enabled(states[i], events[i]) && states[i + 1] == Next(states[i], events[i])
  }

  /** While the queue is open, pending work has a full slot or somebody under way to fill or drain it;
      after the stop nothing is pending again. */
  lemma {:induction false} NoLostWakeup(states: seq<State>, events: seq<Event>, n: nat)
    requires Behaviour(states, events) && n < |states|
    ensures var s := states[n];
            && (s.pending != map[] ==> s.wakeup || s.sending > 0 || s.draining > 0)
            && (s.closed ==> s.pending == map[])
  {
    if n > 0 {
      NoLostWakeup(states, events, n - 1);
    }
  }

  /** How many of the first n steps are of one kind. */
  function CountOf(events: seq<Event>, n: nat, kind: Event -> bool): nat
    requires n <= |events|
  {
    if n == 0 then 0 else CountOf(events, n - 1, kind) + if kind(events[n - 1]) then 1 else 0
  }

  /** Every write is sent once, every drain answers one receive, the slot holds at most the one send that
      nobody has received, and the queue is stopped at most once. */
  lemma {:induction false} HandOversAddUp(states: seq<State>, events: seq<Event>, n: nat)
    requires Behaviour(states, events) && n < |states|
    ensures var s := states[n];
            && CountOf(events, n, (e: Event) => e.Write?) == CountOf(events, n, (e: Event) => e.Send?) + s.sending
            && CountOf(events, n, (e: Event) => e.Receive?) == CountOf(events, n, (e: Event) => e.TakeAll?) + s.draining
            && CountOf(events, n, (e: Event) => e.Receive?) + (if s.wakeup then 1 else 0) <= CountOf(events, n, (e: Event) => e.Send?)
            && CountOf(events, n, (e: Event) => e.Close?) == if s.closed then 1 else 0
  {
    if n > 0 {
      HandOversAddUp(states, events, n - 1);
      assert Enabled(states[n - 1], events[n - 1]) && states[n] == Next(states[n - 1], events[n - 1]);
    }
  }

  /** The publish of a key that decides what is pending for it: the last one since the last drain. */
  function LastWrite(events: seq<Event>, n: nat, k: Key): Option<Intent>
    requires n <= |events|
  {
    if n == 0 then None
    else
      match events[n - 1]
      case Write(intent) => if intent.kind == k.kind && intent.cluster == k.cluster then Some(intent) else LastWrite(events, n - 1, k)
      case TakeAll => None
      case Close => None
      case _ => LastWrite(events, n - 1, k)
  }

  lemma {:induction false} PendingIsLastWrite(states: seq<State>, events: seq<Event>, n: nat, k: Key)
    requires Behaviour(states, events) && n < |states|
    ensures Lookup(states[n].pending, k) == LastWrite(events, n, k)
  {
    if n > 0 {
      PendingIsLastWrite(states, events, n - 1, k);
      assert Enabled(states[n - 1], events[n - 1]) && states[n] == Next(states[n - 1], events[n - 1]);
    }
  }

  /** Step j hands the intent of step i to a consumer, or a newer one published under its key. */
  ghost predicate Delivers(states: seq<State>, events: seq<Event>, i: nat, j: nat)
    requires j < |events| && j < |states| && i < |events| && events[i].Write?
  {
    var key := Key(events[i].intent.kind, events[i].intent.cluster);
    && i < j && events[j].TakeAll? && key in states[j].pending
    && states[j].pending[key].kind == key.kind && states[j].pending[key].cluster == key.cluster
    && exists m :: i <= m < j && events[m] == Write(states[j].pending[key])
  }

  /** Once the slot is empty and nobody is under way, every publish before was delivered, itself or
      through a newer one of its key, unless the queue was stopped. */
  lemma QuietMeansDelivered(states: seq<State>, events: seq<Event>, n: nat, i: nat)
    requires Behaviour(states, events) && n < |states| && i < n && events[i].Write?
    requires !states[n].closed && !states[n].wakeup && states[n].sending == 0 && states[n].draining == 0
    ensures exists j :: i < j < n && Delivers(states, events, i, j)
  {
    NoLostWakeup(states, events, n);
    var j := PendingUntilTaken(states, events, i, n);
  }

  lemma {:induction false} PendingUntilTaken(states: seq<State>, events: seq<Event>, i: nat, n: nat) returns (j: nat)
    requires Behaviour(states, events) && i < n < |states| && events[i].Write?
    requires !states[n].closed && KeyOf(events[i].intent) !in states[n].pending
    ensures i < j < n && Delivers(states, events, i, j)
  {
    assert states[i + 1] == Next(states[i], events[i]);
    j := i + 1;
    ghost var m := i;
    while j < n && !events[j].TakeAll?
      invariant i < j <= n && i <= m < j
      invariant KeyOf(events[i].intent) in states[j].pending && events[m] == Write(states[j].pending[KeyOf(events[i].intent)])
    {
      OpenBefore(states, events, j + 1, n);
      assert states[j + 1] == Next(states[j], events[j]);
      if events[j].Write? && KeyOf(events[j].intent) == KeyOf(events[i].intent) {
        m := j;
      }
      j := j + 1;
    }
  }

  lemma {:induction false} OpenBefore(states: seq<State>, events: seq<Event>, i: nat, n: nat)
    requires Behaviour(states, events) && i <= n < |states| && !states[n].closed
    ensures !states[i].closed
    decreases n - i
  {
    if i < n {
      OpenBefore(states, events, i + 1, n);
      assert states[i + 1] == Next(states[i], events[i]);
    }
  }

  lemma RunsGoOn(states: seq<State>, events: seq<Event>, e: Event)
    requires Behaviour(states, events) && Enabled(states[|events|], e)
    ensures Behaviour(states + [Next(states[|events|], e)], events + [e])
  {
  }

  /** While the queue is open any intent of a kind may be published and the queue may be stopped; and while
      something is pending, a send, a receive or a drain takes it one step nearer to being handed out. */
  lemma CallersAreFree(states: seq<State>, events: seq<Event>, intent: Intent)
    requires Behaviour(states, events) && intent.kind != ""
    ensures var s := states[|events|];
            && (!s.closed ==> Enabled(s, Write(intent)) && Enabled(s, Close))
            && (s.pending != map[] ==>
                  || (Enabled(s, TakeAll) && Next(s, TakeAll).pending == map[])
                  || (Enabled(s, Receive) && Next(s, Receive).draining > s.draining)
                  || (Enabled(s, Send) && Next(s, Send).wakeup && Next(s, Send).sending < s.sending))
  {
    NoLostWakeup(states, events, |events|);
  }

  // ----- The stale-intent filter -----

  type Latest = map<Key, nat>

  function LatestOf(latest: Latest, k: Key): nat {
    if k in latest then latest[k] else 0
  }

  predicate Admissible(latest: Latest, intent: Intent) {
    intent.kind != "" && intent.generation > LatestOf(latest, KeyOf(intent))
  }

  function AfterIntent(latest: Latest, intent: Intent): Latest {
    if Admissible(latest, intent) then latest[KeyOf(intent) := intent.generation] else latest
  }

  class WorkspaceIntents {
    var latest: Latest

    constructor ()
      ensures latest == map[]
    {
      latest := map[];
    }

    method Accept(intent: Intent) returns (accepted: bool)
      modifies this
      ensures accepted == Admissible(old(latest), intent) && latest == AfterIntent(old(latest), intent)
    {
      if intent.kind == "" || intent.generation == 0 {
        return false;
      }
      if intent.generation <= LatestOf(latest, KeyOf(intent)) {
        return false;
      }
      latest := latest[KeyOf(intent) := intent.generation];
      accepted := true;
    }

    method IsCurrent(intent: Intent) returns (current: bool)
      ensures current == (intent.kind != "" && intent.generation != 0 && LatestOf(latest, KeyOf(intent)) == intent.generation)
    {
      current := intent.kind != "" && intent.generation != 0 && LatestOf(latest, KeyOf(intent)) == intent.generation;
    }
  }

  /** The filter's state after the first n intents. */
  function AfterIntents(intents: seq<Intent>, n: nat): Latest
    requires n <= |intents|
  {
    if n == 0 then map[] else AfterIntent(AfterIntents(intents, n - 1), intents[n - 1])
  }

  predicate Accepted(intents: seq<Intent>, i: nat)
    requires i < |intents|
  {
    Admissible(AfterIntents(intents, i), intents[i])
  }

  lemma {:induction false} LatestIsGreatest(intents: seq<Intent>, n: nat, k: Key)
    requires n <= |intents| && k.kind != ""
    ensures forall j | 0 <= j < n && KeyOf(intents[j]) == k :: intents[j].generation <= LatestOf(AfterIntents(intents, n), k)
    ensures var latest := LatestOf(AfterIntents(intents, n), k);
            latest > 0 ==> exists j :: 0 <= j < n && KeyOf(intents[j]) == k && intents[j].generation == latest
  {
    if n > 0 {
      LatestIsGreatest(intents, n - 1, k);
    }
  }

  /** An intent is accepted exactly when it has a kind and a generation above every earlier one of its
      key, accepted or not; so accepted generations of a key strictly increase. */
  lemma AcceptedIffNewest(intents: seq<Intent>, i: nat)
    requires i < |intents|
    ensures Accepted(intents, i) <==>
            && intents[i].kind != "" && intents[i].generation != 0
            && forall j | 0 <= j < i && intents[j].kind == intents[i].kind && intents[j].cluster == intents[i].cluster ::
                 intents[j].generation < intents[i].generation
  {
    if intents[i].kind != "" {
      LatestIsGreatest(intents, i, KeyOf(intents[i]));
    }
  }
}
