/**
 Single-flight loading and resetting of the preferences (backend/preferences_service.go:119-240).

 Callers that find a load attempt under way join it; a reset waits for it, and loads wait for a reset.
 The two mutexes are never held together across a wait, so the regions below interleave freely.
 */
module Preferences {
  import opened Wrappers

  datatype Provenance = FromFile | StartupDefault

  /** `settings` is the content of the settings, opaque here. */
  datatype Snapshot = Snapshot(settings: string, provenance: Provenance)

  datatype Outcome = Read(settings: string) | Failure(error: string)

  /** Where the caller that owns an attempt is. */
  datatype Stage =
    | Reading
    | Deciding(outcome: Outcome)                         // the file was read
    | Storing(outcome: Outcome, provenance: Provenance)  // it was decided whether to fall back
    | Publishing(outcome: Outcome)                       // the settings were stored
    | Done

  datatype Attempt = Attempt(startup: bool, stage: Stage, snapshot: Option<Snapshot>, error: Option<string>)

  datatype Service = Service(
    attempts: seq<Attempt>, loadAttempt: Option<nat>, resetting: bool, settings: Option<Snapshot>
  )

  const FRESH := Service([], None, false, None)

  /** What the entry region of `ensureLoaded` does with a caller. */
  datatype Entry = Join(attempt: nat) | Own(attempt: nat) | Ready(snapshot: Snapshot)

  function EntryOf(s: Service): Entry {
    if s.loadAttempt.Some? then Join(s.loadAttempt.value)
    else if s.settings.Some? then Ready(s.settings.value)
    else Own(|s.attempts|)
  }

  function WithAttempt(s: Service, a: nat, attempt: Attempt): Service
    requires a < |s.attempts|
  {
    s.(attempts := s.attempts[a := attempt])
  }

  function AfterEnter(s: Service, startup: bool): Service
    requires s.loadAttempt.Some? ==> s.loadAttempt.value < |s.attempts|
  {
    match EntryOf(s)
    case Join(a) => if startup then WithAttempt(s, a, s.attempts[a].(startup := true)) else s
    case Own(a) => s.(attempts := s.attempts + [Attempt(startup, Reading, None, None)], loadAttempt := Some(a))
    case Ready(_) => s
  }

  function AfterRead(s: Service, a: nat, outcome: Outcome): Service
    requires a < |s.attempts|
  {
    WithAttempt(s, a, s.attempts[a].(stage := Deciding(outcome)))
  }

  /** A failed read falls back to the defaults if a startup caller has joined by now. */
  function AfterDecide(s: Service, a: nat, defaults: string): Service
    requires a < |s.attempts| && s.attempts[a].stage.Deciding?
  {
    var attempt := s.attempts[a];
    if attempt.stage.outcome.Failure? && attempt.startup
    then WithAttempt(s, a, attempt.(stage := Storing(Read(defaults), StartupDefault)))
    else WithAttempt(s, a, attempt.(stage := Storing(attempt.stage.outcome, FromFile)))
  }

  function AfterStore(s: Service, a: nat): Service
    requires a < |s.attempts| && s.attempts[a].stage.Storing?
  {
    var attempt := s.attempts[a];
    var outcome := attempt.stage.outcome;
    if outcome.Failure? then WithAttempt(s, a, attempt.(stage := Publishing(outcome)))
    else
      var snapshot := Some(Snapshot(outcome.settings, attempt.stage.provenance));
      WithAttempt(s, a, attempt.(stage := Publishing(outcome), snapshot := snapshot)).(settings := snapshot)
  }

  function AfterPublish(s: Service, a: nat): Service
    requires a < |s.attempts| && s.attempts[a].stage.Publishing?
  {
    var attempt := s.attempts[a];
    var error := if attempt.stage.outcome.Failure? then Some(attempt.stage.outcome.error) else None;
    WithAttempt(s, a, attempt.(stage := Done, error := error)).(loadAttempt := None)
  }

  class PreferencesService {
    var attempts: seq<Attempt>
    var loadAttempt: Option<nat>
    var resetting: bool
    var settings: Option<Snapshot>

    function State(): Service
      reads this
    {
      Service(attempts, loadAttempt, resetting, settings)
    }

    constructor ()
      ensures State() == FRESH
    {
      attempts, loadAttempt, resetting, settings := [], None, false, None;
    }

    method Enter(startup: bool) returns (entry: Entry)
      requires !resetting && (loadAttempt.Some? ==> loadAttempt.value < |attempts|)
      modifies this
      ensures entry == EntryOf(old(State())) && State() == AfterEnter(old(State()), startup)
    {
      if loadAttempt.Some? {
        var a := loadAttempt.value;
        if startup {
          attempts := attempts[a := attempts[a].(startup := true)];
        }
        return Join(a);
      }
      if settings.Some? {
        return Ready(settings.value);
      }
      entry := Own(|attempts|);
      loadAttempt := Some(|attempts|);
      attempts := attempts + [Attempt(startup, Reading, None, None)];
    }

    method ReadSettings(a: nat, outcome: Outcome)
      requires a < |attempts| && attempts[a].stage.Reading?
      modifies `attempts
      ensures State() == AfterRead(old(State()), a, outcome)
    {
      attempts := attempts[a := attempts[a].(stage := Deciding(outcome))];
    }

    method DecideFallback(a: nat, defaults: string)
      requires a < |attempts| && attempts[a].stage.Deciding?
      modifies `attempts
      ensures State() == AfterDecide(old(State()), a, defaults)
    {
      var outcome, provenance := attempts[a].stage.outcome, FromFile;
      var useFallback := outcome.Failure? && attempts[a].startup;
      if useFallback {
        outcome, provenance := Read(defaults), StartupDefault;
      }
      attempts := attempts[a := attempts[a].(stage := Storing(outcome, provenance))];
    }

    method StoreSettings(a: nat)
      requires a < |attempts| && attempts[a].stage.Storing?
      modifies `attempts, `settings
      ensures State() == AfterStore(old(State()), a)
    {
      var attempt := attempts[a];
      if attempt.stage.outcome.Read? {
        settings := Some(Snapshot(attempt.stage.outcome.settings, attempt.stage.provenance));
        attempt := attempt.(snapshot := settings);
      }
      attempts := attempts[a := attempt.(stage := Publishing(attempt.stage.outcome))];
    }

    method PublishAttempt(a: nat)
      requires a < |attempts| && attempts[a].stage.Publishing?
      modifies `attempts, `loadAttempt
      ensures State() == AfterPublish(old(State()), a)
    {
      var attempt := attempts[a];
      if attempt.stage.outcome.Failure? {
        attempt := attempt.(error := Some(attempt.stage.outcome.error));
      } else {
        attempt := attempt.(error := None);
      }
      attempts := attempts[a := attempt.(stage := Done)];
      loadAttempt := None;
    }

    method BeginReset() returns (begun: bool)
      modifies `resetting
      ensures begun == (!old(resetting) && loadAttempt.None?)
      ensures State() == if begun then old(State()).(resetting := true) else old(State())
    {
      if resetting || loadAttempt.Some? {
        return false;
      }
      resetting := true;
      begun := true;
    }

    method ClearSettings()
      modifies `settings
      ensures State() == old(State()).(settings := None)
    {
      settings := None;
    }

    method FinishReset()
      modifies `resetting
      ensures State() == old(State()).(resetting := false)
    {
      resetting := false;
    }
  }

  // ----- Any number of callers and resets, interleaved -----

  datatype Call =
    | Waiting(attempt: nat)                                    // joined, until the attempt is done
    | Loading(attempt: nat)                                    // owns the attempt
    | Returned(from: Option<nat>, snapshot: Option<Snapshot>, error: Option<string>)
    | Clearing
    | Cleared
    | ResetDone

  datatype State = State(service: Service, calls: map<nat, Call>)

  datatype Event =
    | EnsureLoaded(call: nat, startup: bool)
    | LoadStep(call: nat, outcome: Outcome, defaults: string)   // the owner's next region
    | Wake(call: nat)
    | StartReset(call: nat)
    | ResetStep(call: nat)
    | Change(snapshot: Snapshot)                                // another writer of the settings

  const INITIAL := State(FRESH, map[])

  predicate Enabled(s: State, e: Event) {
    match e
    case EnsureLoaded(c, _) => c !in s.calls && !s.service.resetting && (s.service.loadAttempt.Some? ==> s.service.loadAttempt.value < |s.service.attempts|)
    case LoadStep(c, _, _) =>
      c in s.calls && s.calls[c].Loading? && s.calls[c].attempt < |s.service.attempts| && !s.service.attempts[s.calls[c].attempt].stage.Done?
    case Wake(c) =>
      c in s.calls && s.calls[c].Waiting? && s.calls[c].attempt < |s.service.attempts| && s.service.attempts[s.calls[c].attempt].stage.Done?
    case StartReset(c) => c !in s.calls && !s.service.resetting && s.service.loadAttempt.None?
    case ResetStep(c) => c in s.calls && (s.calls[c].Clearing? || s.calls[c].Cleared?)
    case Change(_) => true
  }

  function Results(attempt: Attempt, a: nat): Call {
    Returned(Some(a), attempt.snapshot, attempt.error)
  }

  function NextLoad(s: State, c: nat, outcome: Outcome, defaults: string): State
    requires c in s.calls && s.calls[c].Loading? && s.calls[c].attempt < |s.service.attempts|
  {
    var a := s.calls[c].attempt;
    match s.service.attempts[a].stage
    case Reading => s.(service := AfterRead(s.service, a, outcome))
    case Deciding(_) => s.(service := AfterDecide(s.service, a, defaults))
    case Storing(_, _) => s.(service := AfterStore(s.service, a))
    case Publishing(_) =>
      var service := AfterPublish(s.service, a);
      State(service, s.calls[c := Results(service.attempts[a], a)])
    case Done => s
  }

  function Next(s: State, e: Event): State
    requires Enabled(s, e)
  {
    match e
    case EnsureLoaded(c, startup) =>
      State(AfterEnter(s.service, startup),
            s.calls[c := match EntryOf(s.service)
                         case Join(a) => Waiting(a)
                         case Own(a) => Loading(a)
                         case Ready(snapshot) => Returned(None, Some(snapshot), None)])
    case LoadStep(c, outcome, defaults) => NextLoad(s, c, outcome, defaults)
    case Wake(c) => var a := s.calls[c].attempt; s.(calls := s.calls[c := Results(s.service.attempts[a], a)])
    case StartReset(c) => State(s.service.(resetting := true), s.calls[c := Clearing])
    case ResetStep(c) =>
      if s.calls[c].Clearing? then State(s.service.(settings := None), s.calls[c := Cleared])
      else State(s.service.(resetting := false), s.calls[c := ResetDone])
    case Change(snapshot) => s.(service := s.service.(settings := Some(snapshot)))
  }

  ghost predicate Behaviour(states: seq<State>, events: seq<Event>) {
    && |states| == |events| + 1
    && states[0] == INITIAL
    && forall i | 0 <= i < |events| :: Enabled(states[i], events[i]) && states[i + 1] == Next(states[i], events[i])
  }

  predicate IsReset(call: Call) {
    call.Clearing? || call.Cleared?
  }

  predicate ActiveReset(s: State, c: nat) {
    c in s.calls && IsReset(s.calls[c])
  }

  predicate ActiveLoad(s: State, c: nat) {
    c in s.calls && s.calls[c].Loading?
  }

  /** The registered attempt is the one that is not done, and one caller owns it. */
  ghost predicate AttemptOwned(s: State) {
    && (forall c | c in s.calls && s.calls[c].Loading? :: s.service.loadAttempt == Some(s.calls[c].attempt))
    && (forall c, d | c in s.calls && s.calls[c].Loading? && d in s.calls && s.calls[d].Loading? :: c == d)
    && (s.service.loadAttempt.Some? ==> s.service.loadAttempt.value < |s.service.attempts|)
    && (forall a | 0 <= a < |s.service.attempts| :: s.service.attempts[a].stage.Done? <==> s.service.loadAttempt != Some(a))
  }

  ghost predicate ResetOwned(s: State) {
    && (forall c | c in s.calls && IsReset(s.calls[c]) :: s.service.resetting)
    && (forall c, d | c in s.calls && IsReset(s.calls[c]) && d in s.calls && IsReset(s.calls[d]) :: c == d)
    && (s.service.resetting ==> s.service.loadAttempt.None?)
  }

  /** Whoever returned from an attempt returned what the attempt holds. */
  ghost predicate ResultsMatch(s: State) {
    forall c | c in s.calls :: ResultMatches(s.service, s.calls[c])
  }

  ghost predicate Inv(s: State) {
    AttemptOwned(s) && ResetOwned(s) && ResultsMatch(s)
  }

  lemma StepKeepsAttempt(s: State, e: Event)
    requires AttemptOwned(s) && Enabled(s, e)
    ensures AttemptOwned(Next(s, e))
  {
  }

  lemma StepKeepsReset(s: State, e: Event)
    requires AttemptOwned(s) && ResetOwned(s) && Enabled(s, e)
    ensures ResetOwned(Next(s, e))
  {
  }

  lemma DoneAttemptsStay(s: State, e: Event, a: nat)
    requires AttemptOwned(s) && Enabled(s, e) && a < |s.service.attempts| && s.service.attempts[a].stage.Done?
    ensures a < |Next(s, e).service.attempts| && Next(s, e).service.attempts[a] == s.service.attempts[a]
  {
  }

  ghost predicate ResultMatches(service: Service, call: Call) {
    && (call.Waiting? ==> call.attempt < |service.attempts|)
    && (call.Returned? && call.from.Some? ==>
          var a := call.from.value; a < |service.attempts| && service.attempts[a].stage.Done? && call == Results(service.attempts[a], a))
  }

  lemma StepKeepsResult(s: State, e: Event, c: nat)
    requires AttemptOwned(s) && ResultsMatch(s) && Enabled(s, e) && c in Next(s, e).calls
    ensures ResultMatches(Next(s, e).service, Next(s, e).calls[c])
  {
    if c in s.calls {
      assert ResultMatches(s.service, s.calls[c]);
      if s.calls[c].Returned? && s.calls[c].from.Some? {
        DoneAttemptsStay(s, e, s.calls[c].from.value);
      }
    }
  }

  lemma StepKeepsResults(s: State, e: Event)
    requires AttemptOwned(s) && ResultsMatch(s) && Enabled(s, e)
    ensures ResultsMatch(Next(s, e))
  {
    forall c | c in Next(s, e).calls ensures ResultMatches(Next(s, e).service, Next(s, e).calls[c]) {
      StepKeepsResult(s, e, c);
    }
  }

  lemma {:induction false} ReachableInv(states: seq<State>, events: seq<Event>, n: nat)
    requires Behaviour(states, events) && n < |states|
    ensures Inv(states[n])
  {
    if n > 0 {
      ReachableInv(states, events, n - 1);
      StepKeepsAttempt(states[n - 1], events[n - 1]);
      StepKeepsReset(states[n - 1], events[n - 1]);
      StepKeepsResults(states[n - 1], events[n - 1]);
    }
  }

  // ----- What every run guarantees -----

  /** No load runs during a reset, and neither two loads nor two resets run at once. */
  lemma OneLoadOrReset(states: seq<State>, events: seq<Event>, n: nat, c: nat, d: nat)
    requires Behaviour(states, events) && n < |states|
    ensures !(ActiveLoad(states[n], c) && ActiveReset(states[n], d))
    ensures ActiveLoad(states[n], c) && ActiveLoad(states[n], d) ==> c == d
    ensures ActiveReset(states[n], c) && ActiveReset(states[n], d) ==> c == d
  {
    ReachableInv(states, events, n);
  }

  /** Everyone who joined an attempt, its owner included, returns the same snapshot and error. */
  lemma JoinersAgree(states: seq<State>, events: seq<Event>, n: nat, c: nat, d: nat)
    requires Behaviour(states, events) && n < |states| && c in states[n].calls && d in states[n].calls
    requires states[n].calls[c].Returned? && states[n].calls[d].Returned?
    requires states[n].calls[c].from.Some? && states[n].calls[d].from == states[n].calls[c].from
    ensures states[n].calls[c] == states[n].calls[d]
  {
    ReachableInv(states, events, n);
  }

  predicate Undecided(service: Service, a: nat) {
    a == |service.attempts| || (a < |service.attempts| && (service.attempts[a].stage.Reading? || service.attempts[a].stage.Deciding?))
  }

  /** A startup caller joins or begins the attempt before its fallback is decided. */
  predicate EntersEarly(s: State, e: Event, a: nat) {
    e.EnsureLoaded? && e.startup && (EntryOf(s.service) == Join(a) || EntryOf(s.service) == Own(a)) && Undecided(s.service, a)
  }

  ghost predicate StartupJoined(states: seq<State>, events: seq<Event>, n: nat, a: nat)
    requires n <= |events| && n <= |states|
  {
    exists i | 0 <= i < n :: EntersEarly(states[i], events[i], a)
  }

  /** The owner of the attempt reads the settings file in this step. */
  predicate ReadsFor(s: State, e: Event, a: nat) {
    && e.LoadStep? && e.call in s.calls && s.calls[e.call] == Loading(a)
    && a < |s.service.attempts| && s.service.attempts[a].stage.Reading?
  }

  /** What the attempt read from the file, once it has. */
  ghost function ReadOf(states: seq<State>, events: seq<Event>, n: nat, a: nat): Option<Outcome>
    requires n <= |events| && n <= |states|
  {
    if n == 0 then None
    else if ReadsFor(states[n - 1], events[n - 1], a) then Some(events[n - 1].outcome)
    else ReadOf(states, events, n - 1, a)
  }

  /** The owner of the attempt decides about the fallback in this step. */
  predicate DecidesFor(s: State, e: Event, a: nat) {
    && e.LoadStep? && e.call in s.calls && s.calls[e.call] == Loading(a)
    && a < |s.service.attempts| && s.service.attempts[a].stage.Deciding?
  }

  /** The default settings at hand when the attempt decided about its fallback. */
  ghost function DefaultsOf(states: seq<State>, events: seq<Event>, n: nat, a: nat): string
    requires n <= |events| && n <= |states|
  {
    if n == 0 then ""
    else if DecidesFor(states[n - 1], events[n - 1], a) then events[n - 1].defaults
    else DefaultsOf(states, events, n - 1, a)
  }

  /** What an attempt comes to: the file's settings, the defaults if the read failed and a startup caller
      had joined, or else the error. */
  ghost predicate Delivers(read: Outcome, joined: bool, defaults: string, snapshot: Option<Snapshot>, error: Option<string>) {
    match read
    case Read(settings) => snapshot == Some(Snapshot(settings, FromFile)) && error == None
    case Failure(message) =>
      if joined then snapshot == Some(Snapshot(defaults, StartupDefault)) && error == None
      else snapshot == None && error == Some(message)
  }

  ghost predicate StageFits(stage: Stage, read: Option<Outcome>, joined: bool, defaults: string, startup: bool, snapshot: Option<Snapshot>, error: Option<string>) {
    match stage
    case Reading => read == None && startup == joined && snapshot == None && error == None
    case Deciding(outcome) => read == Some(outcome) && startup == joined && snapshot == None && error == None
    case Storing(outcome, provenance) =>
      && read.Some? && snapshot == None && error == None
      && (match outcome
          case Read(settings) => Delivers(read.value, joined, defaults, Some(Snapshot(settings, provenance)), None)
          case Failure(message) => Delivers(read.value, joined, defaults, None, Some(message)))
    case Publishing(outcome) =>
      && read.Some? && error == None
      && Delivers(read.value, joined, defaults, snapshot, if outcome.Failure? then Some(outcome.error) else None)
    case Done => read.Some? && Delivers(read.value, joined, defaults, snapshot, error)
  }

  ghost predicate AttemptFits(service: Service, a: nat, read: Option<Outcome>, joined: bool, defaults: string) {
    if a >= |service.attempts| then read == None && !joined
    else
      var attempt := service.attempts[a];
      StageFits(attempt.stage, read, joined, defaults, attempt.startup, attempt.snapshot, attempt.error)
  }

  lemma LoadStepKeepsFit(s: State, e: Event, a: nat, read: Option<Outcome>, joined: bool, defaults: string)
    requires AttemptOwned(s) && AttemptFits(s.service, a, read, joined, defaults) && Enabled(s, e)
    requires e.LoadStep? && s.calls[e.call].attempt == a
    ensures AttemptFits(Next(s, e).service, a, if ReadsFor(s, e, a) then Some(e.outcome) else read, joined,
                        if DecidesFor(s, e, a) then e.defaults else defaults)
  {
  }

  lemma OthersKeepFit(s: State, e: Event, a: nat, read: Option<Outcome>, joined: bool, defaults: string)
    requires AttemptOwned(s) && AttemptFits(s.service, a, read, joined, defaults) && Enabled(s, e)
    requires e.LoadStep? ==> s.calls[e.call].attempt != a
    ensures AttemptFits(Next(s, e).service, a, read, joined || EntersEarly(s, e, a), defaults)
  {
  }

  lemma {:induction false} AttemptsFit(states: seq<State>, events: seq<Event>, n: nat, a: nat)
    requires Behaviour(states, events) && n < |states|
    ensures AttemptFits(states[n].service, a, ReadOf(states, events, n, a), StartupJoined(states, events, n, a), DefaultsOf(states, events, n, a))
  {
    if n > 0 {
      AttemptsFit(states, events, n - 1, a);
      ReachableInv(states, events, n - 1);
      var joined := StartupJoined(states, events, n - 1, a);
      var s, e := states[n - 1], events[n - 1];
      assert Enabled(s, e) && states[n] == Next(s, e);
      if e.LoadStep? && s.calls[e.call].attempt == a {
        LoadStepKeepsFit(s, e, a, ReadOf(states, events, n - 1, a), joined, DefaultsOf(states, events, n - 1, a));
      } else {
        OthersKeepFit(s, e, a, ReadOf(states, events, n - 1, a), joined, DefaultsOf(states, events, n - 1, a));
      }
      assert StartupJoined(states, events, n, a) <==> joined || EntersEarly(states[n - 1], events[n - 1], a);
    }
  }

  /** Whoever returns from an attempt gets the error exactly when the read failed and no startup caller
      had joined before the fallback was decided, the defaults exactly when it failed and one had, and
      what the file holds exactly when it did not fail. */
  lemma CallersGetWhatWasRead(states: seq<State>, events: seq<Event>, n: nat, c: nat)
    requires Behaviour(states, events) && n < |states| && c in states[n].calls
    requires states[n].calls[c].Returned? && states[n].calls[c].from.Some?
    ensures var call := states[n].calls[c];
      var read, joined := ReadOf(states, events, n, call.from.value), StartupJoined(states, events, n, call.from.value);
      && read.Some?
      && (call.error.Some? <==> read.value.Failure? && !joined)
      && (call.error.Some? ==> call.error.value == read.value.error && call.snapshot.None?)
      && (call.snapshot.Some? && call.snapshot.value.provenance == StartupDefault <==> read.value.Failure? && joined)
      && (read.value.Failure? && joined ==> call.snapshot == Some(Snapshot(DefaultsOf(states, events, n, call.from.value), StartupDefault)))
      && (call.snapshot.Some? && call.snapshot.value.provenance == FromFile <==> read.value.Read?)
      && (read.value.Read? ==> call.snapshot == Some(Snapshot(read.value.settings, FromFile)))
  {
    ReachableInv(states, events, n);
    AttemptsFit(states, events, n, states[n].calls[c].from.value);
  }

  /** Attempt a stores its snapshot in this step. */
  predicate StoresNow(s: State, s': State, a: nat) {
    && a < |s.service.attempts| && a < |s'.service.attempts|
    && s.service.attempts[a].snapshot.None? && s'.service.attempts[a].snapshot.Some?
  }

  /** A reset clears the settings in this step. */
  predicate ClearsNow(s: State, e: Event) {
    e.ResetStep? && e.call in s.calls && s.calls[e.call].Clearing?
  }

  /** What was last stored by an attempt or another writer, unless a reset cleared it since. */
  ghost function LastWritten(states: seq<State>, events: seq<Event>, n: nat): Option<Snapshot>
    requires n <= |events| && n < |states|
  {
    if n == 0 then None
    else
      var s, e, s' := states[n - 1], events[n - 1], states[n];
      if e.Change? then Some(e.snapshot)
      else if ClearsNow(s, e) then None
      else if exists a: nat :: StoresNow(s, s', a) then var a: nat :| StoresNow(s, s', a); s'.service.attempts[a].snapshot
      else LastWritten(states, events, n - 1)
  }

  /** No other writer, reset or attempt touches the settings in this step. */
  ghost predicate Undisturbed(s: State, e: Event, s': State) {
    !e.Change? && !ClearsNow(s, e) && forall a: nat :: !StoresNow(s, s', a)
  }

  lemma StoreStep(s: State, e: Event, a: nat)
    requires Enabled(s, e) && StoresNow(s, Next(s, e), a)
    ensures Next(s, e).service.settings == Next(s, e).service.attempts[a].snapshot && !e.Change? && !ClearsNow(s, e)
  {
  }

  lemma OtherStep(s: State, e: Event)
    requires AttemptOwned(s) && Enabled(s, e) && !e.Change? && !ClearsNow(s, e)
    requires forall a | 0 <= a < |s.service.attempts| :: s.service.attempts[a].stage.Storing? ==> s.service.attempts[a].snapshot.None?
    requires forall a :: !StoresNow(s, Next(s, e), a)
    ensures Next(s, e).service.settings == s.service.settings
  {
    if e.LoadStep? {
      assert !StoresNow(s, Next(s, e), s.calls[e.call].attempt);
    }
  }

  /** The service holds what was last stored, until a reset clears it. */
  lemma {:induction false} HoldsLastWritten(states: seq<State>, events: seq<Event>, n: nat)
    requires Behaviour(states, events) && n < |states|
    ensures states[n].service.settings == LastWritten(states, events, n)
  {
    if n > 0 {
      HoldsLastWritten(states, events, n - 1);
      ReachableInv(states, events, n - 1);
      var s, e := states[n - 1], events[n - 1];
      assert Enabled(s, e) && states[n] == Next(s, e);
      if a: nat :| StoresNow(s, states[n], a) {
        forall b | StoresNow(s, states[n], b) {
          StoreStep(s, e, b);
        }
      } else if !e.Change? && !ClearsNow(s, e) {
        forall a | 0 <= a < |s.service.attempts| ensures s.service.attempts[a].stage.Storing? ==> s.service.attempts[a].snapshot.None? {
          AttemptsFit(states, events, n - 1, a);
        }
        OtherStep(s, e);
      }
    }
  }

  /** A caller that finds no attempt under way returns at once with what was last stored and starts no
      attempt, or starts the only one if nothing is held; one that finds an attempt joins it. */
  lemma CallersShareWhatIsHeld(states: seq<State>, events: seq<Event>, n: nat, c: nat, startup: bool)
    requires Behaviour(states, events) && n < |events| && events[n] == EnsureLoaded(c, startup)
    ensures var held, before, after := LastWritten(states, events, n), states[n].service, states[n + 1].service;
            && (before.loadAttempt.None? && held.Some? ==>
                  states[n + 1].calls == states[n].calls[c := Returned(None, held, None)] && after == before)
            && (before.loadAttempt.None? && held.None? ==>
                  && states[n + 1].calls == states[n].calls[c := Loading(|before.attempts|)]
                  && after.loadAttempt == Some(|before.attempts|) && |after.attempts| == |before.attempts| + 1)
            && (before.loadAttempt.Some? ==>
                  && states[n + 1].calls == states[n].calls[c := Waiting(before.loadAttempt.value)]
                  && after.loadAttempt == before.loadAttempt && |after.attempts| == |before.attempts|)
  {
    HoldsLastWritten(states, events, n);
    assert Enabled(states[n], events[n]) && states[n + 1] == Next(states[n], events[n]);
  }

  lemma {:induction false} SnapshotStays(states: seq<State>, events: seq<Event>, i: nat, n: nat)
    requires Behaviour(states, events) && i <= n < |states|
    requires forall m | i <= m < n :: Undisturbed(states[m], events[m], states[m + 1])
    ensures LastWritten(states, events, n) == LastWritten(states, events, i)
    decreases n
  {
    if i < n {
      SnapshotStays(states, events, i, n - 1);
      assert Undisturbed(states[n - 1], events[n - 1], states[n]);
    }
  }

  /** What an attempt stored is what later callers get without loading again, until another writer, a
      reset or another attempt replaces it. */
  lemma StoredOnceReadByAll(states: seq<State>, events: seq<Event>, i: nat, n: nat, a: nat, c: nat, startup: bool)
    requires Behaviour(states, events) && i < n < |events| && StoresNow(states[i], states[i + 1], a)
    requires forall m | i < m < n :: Undisturbed(states[m], events[m], states[m + 1])
    requires events[n] == EnsureLoaded(c, startup) && states[n].service.loadAttempt.None?
    ensures Lookup(states[n + 1].calls, c) == Some(Returned(None, states[i + 1].service.attempts[a].snapshot, None))
    ensures states[n + 1].service == states[n].service
  {
    assert Enabled(states[i], events[i]) && states[i + 1] == Next(states[i], events[i]);
    StoreStep(states[i], events[i], a);
    HoldsLastWritten(states, events, i + 1);
    SnapshotStays(states, events, i + 1, n);
    CallersShareWhatIsHeld(states, events, n, c, startup);
  }

  /** An attempt under way has an owner, and a reset under way a caller. */
  ghost predicate SomeoneOwns(s: State) {
    && (s.service.loadAttempt.Some? ==> exists c :: ActiveLoad(s, c))
    && (s.service.resetting ==> exists c :: ActiveReset(s, c))
  }

  lemma StepKeepsOwner(s: State, e: Event)
    requires AttemptOwned(s) && ResetOwned(s) && SomeoneOwns(s) && Enabled(s, e)
    ensures SomeoneOwns(Next(s, e))
  {
    forall c | ActiveLoad(s, c) && Next(s, e).service.loadAttempt.Some? ensures ActiveLoad(Next(s, e), c) {
    }
    forall c | ActiveReset(s, c) && Next(s, e).service.resetting ensures ActiveReset(Next(s, e), c) {
    }
    if e.EnsureLoaded? && EntryOf(s.service).Own? {
      assert ActiveLoad(Next(s, e), e.call);
    }
    if e.StartReset? {
      assert ActiveReset(Next(s, e), e.call);
    }
  }

  lemma {:induction false} OwnersReachable(states: seq<State>, events: seq<Event>, n: nat)
    requires Behaviour(states, events) && n < |states|
    ensures SomeoneOwns(states[n])
  {
    if n > 0 {
      OwnersReachable(states, events, n - 1);
      ReachableInv(states, events, n - 1);
      StepKeepsOwner(states[n - 1], events[n - 1]);
    }
  }

  predicate IsOwnStep(e: Event, c: nat) {
    (e.LoadStep? || e.Wake? || e.ResetStep?) && e.call == c
  }

  /** How many steps a call still has to take itself. */
  function StepsLeft(s: State, c: nat): nat
    requires c in s.calls
  {
    match s.calls[c]
    case Waiting(_) => 1
    case Loading(a) =>
      if a >= |s.service.attempts| then 0
      else
        (match s.service.attempts[a].stage
         case Reading => 4
         case Deciding(_) => 3
         case Storing(_, _) => 2
         case Publishing(_) => 1
         case Done => 0)
    case Returned(_, _, _) => 0
    case Clearing => 2
    case Cleared => 1
    case ResetDone => 0
  }

  /** Nobody waits for good: while a call is unfinished, it or the owner of what it waits for can take a
      step that leaves it fewer to take, .. */
  lemma NeverStuck(states: seq<State>, events: seq<Event>, n: nat, c: nat)
    requires Behaviour(states, events) && n < |states| && c in states[n].calls
    requires var call := states[n].calls[c]; call.Waiting? || call.Loading? || call.Clearing? || call.Cleared?
    ensures exists e, mover ::
              && Enabled(states[n], e) && IsOwnStep(e, mover) && (mover == c || ActiveLoad(states[n], mover))
              && mover in states[n].calls && mover in Next(states[n], e).calls
              && StepsLeft(Next(states[n], e), mover) < StepsLeft(states[n], mover)
  {
    ReachableInv(states, events, n);
    OwnersReachable(states, events, n);
    var s := states[n];
    if IsReset(s.calls[c]) {
      assert Enabled(s, ResetStep(c)) && IsOwnStep(ResetStep(c), c);
    } else if s.calls[c].Waiting? && s.service.attempts[s.calls[c].attempt].stage.Done? {
      assert Enabled(s, Wake(c)) && IsOwnStep(Wake(c), c);
    } else {
      var owner :| ActiveLoad(s, owner);
      var e := LoadStep(owner, Read(""), "");
      assert Enabled(s, e) && IsOwnStep(e, owner);
    }
  }

  /** .. and no step of anybody leaves any call more. */
  lemma StepsOnlyShrink(states: seq<State>, events: seq<Event>, n: nat, c: nat)
    requires Behaviour(states, events) && n < |events| && c in states[n].calls
    ensures c in states[n + 1].calls && StepsLeft(states[n + 1], c) <= StepsLeft(states[n], c)
    ensures IsOwnStep(events[n], c) ==> StepsLeft(states[n + 1], c) < StepsLeft(states[n], c)
  {
    ReachableInv(states, events, n);
    assert Enabled(states[n], events[n]) && states[n + 1] == Next(states[n], events[n]);
  }

  lemma RunsGoOn(states: seq<State>, events: seq<Event>, e: Event)
    requires Behaviour(states, events) && Enabled(states[|events|], e)
    ensures Behaviour(states + [Next(states[|events|], e)], events + [e])
  {
  }

  /** Whatever a run has come to, anyone may change the settings; a load may begin unless a reset is under
      way, and a reset unless either is. */
  lemma CallersAreFree(states: seq<State>, events: seq<Event>, c: nat, startup: bool, snapshot: Snapshot)
    requires Behaviour(states, events) && c !in states[|events|].calls
    ensures var s := states[|events|];
            && Enabled(s, Change(snapshot))
            && (Enabled(s, EnsureLoaded(c, startup)) <==> !s.service.resetting)
            && (Enabled(s, StartReset(c)) <==> !s.service.resetting && s.service.loadAttempt.None?)
  {
    ReachableInv(states, events, |events|);
  }

  lemma Extend(states: seq<State>, events: seq<Event>, e: Event) returns (states': seq<State>, events': seq<Event>)
    requires Behaviour(states, events) && Enabled(states[|events|], e)
    ensures Behaviour(states', events') && events' == events + [e] && states'[|events'|] == Next(states[|events|], e)
  {
    RunsGoOn(states, events, e);
    states', events' := states + [Next(states[|events|], e)], events + [e];
  }

  /** A load whose read failed and that has decided not to fall back. */
  lemma DecidesAgainstFallback() returns (states: seq<State>, events: seq<Event>)
    ensures var step := LoadStep(0, Failure("unreadable"), "");
            && Behaviour(states, events) && events == [EnsureLoaded(0, false), step, step]
            && states[3] == State(Service([Attempt(false, Storing(Failure("unreadable"), FromFile), None, None)], Some(0), false, None), map[0 := Loading(0)])
  {
    var step := LoadStep(0, Failure("unreadable"), "");
    assert Behaviour([INITIAL], []);
    states, events := Extend([INITIAL], [], EnsureLoaded(0, false));
    assert states[1] == State(Service([Attempt(false, Reading, None, None)], Some(0), false, None), map[0 := Loading(0)]);
    states, events := Extend(states, events, step);
    assert states[2].service == Service([Attempt(false, Deciding(Failure("unreadable")), None, None)], Some(0), false, None);
    states, events := Extend(states, events, step);
  }

  /** A startup caller that joins only after the decision shares the error. */
  lemma LateStartupCallerGetsError() returns (states: seq<State>, events: seq<Event>)
    ensures Behaviour(states, events) && |states| == 8 && events[3] == EnsureLoaded(1, true)
    ensures Lookup(states[7].calls, 1) == Some(Returned(Some(0), None, Some("unreadable")))
  {
    var step, failure := LoadStep(0, Failure("unreadable"), ""), Failure("unreadable");
    states, events := DecidesAgainstFallback();
    states, events := Extend(states, events, EnsureLoaded(1, true));
    assert states[4] == State(Service([Attempt(true, Storing(failure, FromFile), None, None)], Some(0), false, None), map[0 := Loading(0), 1 := Waiting(0)]);
    states, events := Extend(states, events, step);
    assert states[5].service == Service([Attempt(true, Publishing(failure), None, None)], Some(0), false, None);
    states, events := Extend(states, events, step);
    assert states[6].service == Service([Attempt(true, Done, None, Some("unreadable"))], None, false, None);
    states, events := Extend(states, events, Wake(1));
  }
}
