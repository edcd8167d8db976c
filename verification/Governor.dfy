/**
 The resource governor: backend/refresh_governor.go and its policy backend/refresh/system/governor.go.

 The governor keeps the open clusters in most-recently-viewed order, assigns each a resource tier and
 dispatches the transitions that are missing. Transitions run outside its mutex and may be deferred,
 so the planned and the applied tiers are kept apart.
 */
module Governor {
  import opened Wrappers
  import opened Strings

  datatype Tier = Foreground | Background | Cold

  type Tiers = map<string, Tier>

  // ----- The most-recently-viewed order -----

  ghost predicate NoDuplicates(s: seq<string>) {
    forall i, j | 0 <= i < j < |s| :: s[i] != s[j]
  }

  ghost predicate Precedes(s: seq<string>, x: string, y: string) {
    exists i, j :: 0 <= i < j < |s| && s[i] == x && s[j] == y
  }

  /** The first n entries but id. */
  function Without(s: seq<string>, n: nat, id: string): seq<string>
    requires n <= |s|
  {
    if n == 0 then [] else Without(s, n - 1, id) + if s[n - 1] != id then [s[n - 1]] else []
  }

  function MovedToFront(mru: seq<string>, id: string): seq<string> {
    [id] + Without(mru, |mru|, id)
  }

  method MoveToFront(mru: seq<string>, id: string) returns (next: seq<string>)
    ensures next == MovedToFront(mru, id)
  {
    next := [id];
    for i := 0 to |mru|
      invariant next == [id] + Without(mru, i, id)
    {
      if mru[i] != id {
        next := next + [mru[i]];
      }
    }
  }

  lemma {:induction false} WithoutKeepsOthers(s: seq<string>, n: nat, id: string)
    requires n <= |s|
    ensures forall x :: x in Without(s, n, id) <==> x in s[..n] && x != id
    ensures NoDuplicates(s) ==> NoDuplicates(Without(s, n, id))
  {
    if n > 0 {
      WithoutKeepsOthers(s, n - 1, id);
      assert s[..n] == s[..n - 1] + [s[n - 1]];
      assert NoDuplicates(s) ==> s[n - 1] !in s[..n - 1];
    }
  }

  lemma {:induction false} WithoutKeepsOrder(s: seq<string>, n: nat, id: string, x: string, y: string)
    requires n <= |s| && x != id && y != id && Precedes(s[..n], x, y)
    ensures Precedes(Without(s, n, id), x, y)
  {
    var i, j :| 0 <= i < j < n && s[..n][i] == x && s[..n][j] == y;
    if j < n - 1 {
      assert s[..n - 1][i] == x && s[..n - 1][j] == y;
      WithoutKeepsOrder(s, n - 1, id, x, y);
      var w := Without(s, n - 1, id);
      var a, b :| 0 <= a < b < |w| && w[a] == x && w[b] == y;
      assert Without(s, n, id)[a] == x && Without(s, n, id)[b] == y;
    } else {
      WithoutKeepsOthers(s, n - 1, id);
      assert s[..n - 1][i] == x;
      var w := Without(s, n - 1, id);
      assert x in w;
      var a :| 0 <= a < |w| && w[a] == x;
      assert Without(s, n, id)[a] == x && Without(s, n, id)[|w|] == y;
    }
  }

  /** Viewing a cluster puts it first, adds nothing else and reorders nothing else. */
  lemma MoveToFrontMeaning(mru: seq<string>, id: string)
    requires NoDuplicates(mru)
    ensures var next := MovedToFront(mru, id);
            && NoDuplicates(next) && next[0] == id
            && (forall x :: x in next <==> x in mru || x == id)
            && (forall x, y | x != id && y != id && Precedes(mru, x, y) :: Precedes(next, x, y))
  {
    var w := Without(mru, |mru|, id);
    WithoutKeepsOthers(mru, |mru|, id);
    assert mru[..|mru|] == mru;
    assert id !in w;
    forall x, y | x != id && y != id && Precedes(mru, x, y) ensures Precedes([id] + w, x, y) {
      WithoutKeepsOrder(mru, |mru|, id, x, y);
      var a, b :| 0 <= a < b < |w| && w[a] == x && w[b] == y;
      assert ([id] + w)[a + 1] == x && ([id] + w)[b + 1] == y;
    }
  }

  /** The open ones among the first n ids, each once, in order. */
  function Kept(ids: seq<string>, n: nat, open: set<string>): seq<string>
    requires n <= |ids|
  {
    if n == 0 then []
    else
      var earlier := Kept(ids, n - 1, open);
      if ids[n - 1] in open && ids[n - 1] !in earlier then earlier + [ids[n - 1]] else earlier
  }

  /** `out` keeps the open ids in order and appends the other open ones in some order. */
  ghost predicate Intersection(ids: seq<string>, open: set<string>, out: seq<string>) {
    && Kept(ids, |ids|, open) <= out
    && NoDuplicates(out)
    && (forall x :: x in out <==> x in open)
  }

  lemma {:induction false} KeptMembers(ids: seq<string>, n: nat, open: set<string>)
    requires n <= |ids|
    ensures NoDuplicates(Kept(ids, n, open))
    ensures forall x :: x in Kept(ids, n, open) <==> x in ids[..n] && x in open
  {
    if n > 0 {
      KeptMembers(ids, n - 1, open);
      assert ids[..n] == ids[..n - 1] + [ids[n - 1]];
    }
  }

  method IntersectOrdered(ids: seq<string>, open: set<string>) returns (out: seq<string>)
    ensures Intersection(ids, open, out)
  {
    out := [];
    for i := 0 to |ids|
      invariant out == Kept(ids, i, open)
    {
      if ids[i] in open && ids[i] !in out {
        out := out + [ids[i]];
      }
    }
    KeptMembers(ids, |ids|, open);
    ghost var kept := out;
    var rest := open;
    while rest != {}
      invariant rest <= open && kept <= out && NoDuplicates(out)
      invariant forall x | x in out :: x in open
      invariant forall x | x in open && x !in rest :: x in out
    {
      var id :| id in rest;
      if id !in out {
        out := out + [id];
      }
      rest := rest - {id};
    }
  }

  lemma {:induction false} KeptKeepsOrder(ids: seq<string>, n: nat, open: set<string>, x: string, y: string)
    requires n <= |ids| && NoDuplicates(ids) && x in open && y in open && Precedes(ids[..n], x, y)
    ensures Precedes(Kept(ids, n, open), x, y)
  {
    var i, j :| 0 <= i < j < n && ids[..n][i] == x && ids[..n][j] == y;
    var earlier := Kept(ids, n - 1, open);
    KeptMembers(ids, n - 1, open);
    if j < n - 1 {
      assert ids[..n - 1][i] == x && ids[..n - 1][j] == y;
      KeptKeepsOrder(ids, n - 1, open, x, y);
      var a, b :| 0 <= a < b < |earlier| && earlier[a] == x && earlier[b] == y;
      assert Kept(ids, n, open)[a] == x && Kept(ids, n, open)[b] == y;
    } else {
      assert ids[..n - 1][i] == x && x in earlier && y !in ids[..n - 1];
      var a :| 0 <= a < |earlier| && earlier[a] == x;
      assert Kept(ids, n, open)[a] == x && Kept(ids, n, open)[|earlier|] == y;
    }
  }

  /** An intersection keeps the order of whatever stays. */
  lemma IntersectionKeepsOrder(ids: seq<string>, open: set<string>, out: seq<string>, x: string, y: string)
    requires NoDuplicates(ids) && Intersection(ids, open, out)
    requires x in open && y in open && Precedes(ids, x, y)
    ensures Precedes(out, x, y)
  {
    assert ids[..|ids|] == ids;
    KeptKeepsOrder(ids, |ids|, open, x, y);
    var kept := Kept(ids, |ids|, open);
    var a, b :| 0 <= a < b < |kept| && kept[a] == x && kept[b] == y;
    assert out[a] == x && out[b] == y;
  }

  /** Intersecting a list that already holds exactly the open ids returns it. */
  lemma {:induction false} KeptAll(ids: seq<string>, n: nat, open: set<string>)
    requires n <= |ids| && NoDuplicates(ids) && forall x | x in ids :: x in open
    ensures Kept(ids, n, open) == ids[..n]
  {
    if n > 0 {
      KeptAll(ids, n - 1, open);
      assert ids[..n] == ids[..n - 1] + [ids[n - 1]];
    }
  }

  lemma NoneBeyond(ids: seq<string>, open: set<string>, out: seq<string>, m: nat)
    requires ids <= out && NoDuplicates(out) && (forall x :: x in ids <==> x in open) && (forall x | x in out :: x in open)
    requires m < |out|
    ensures m < |ids|
  {
    assert out[m] in out;
    var k :| 0 <= k < |ids| && ids[k] == out[m];
    assert out[k] == out[m];
  }

  lemma IntersectionSettles(ids: seq<string>, open: set<string>, out: seq<string>)
    requires NoDuplicates(ids) && (forall x :: x in ids <==> x in open) && Intersection(ids, open, out)
    ensures out == ids
  {
    KeptAll(ids, |ids|, open);
    assert ids[..|ids|] == ids;
    if out != [] {
      NoneBeyond(ids, open, out, |out| - 1);
    }
  }

  // ----- The policy -----

  function Budget(keepWarm: nat, pressure: bool): nat {
    if pressure then 0 else keepWarm
  }

  /** How many of the first n clusters are not visible. */
  function HiddenBefore(mru: seq<string>, n: nat, visible: set<string>): nat
    requires n <= |mru|
  {
    if n == 0 then 0 else HiddenBefore(mru, n - 1, visible) + if mru[n - 1] in visible then 0 else 1
  }

  /** Visible clusters are Foreground; of the others the most recently viewed, up to the budget, are
      Background and the rest are Cold. */
  function TierAt(mru: seq<string>, i: nat, visible: set<string>, budget: nat): Tier
    requires i < |mru|
  {
    if mru[i] in visible then Foreground
    else if HiddenBefore(mru, i, visible) < budget then Background
    else Cold
  }

  ghost predicate Assigns(mru: seq<string>, visible: set<string>, budget: nat, tiers: Tiers) {
    && (forall id :: id in tiers <==> id in mru)
    && (forall i | 0 <= i < |mru| :: mru[i] in tiers && tiers[mru[i]] == TierAt(mru, i, visible, budget))
  }

  /** The tiers of the first n clusters. */
  function Assigned(mru: seq<string>, n: nat, visible: set<string>, budget: nat): Tiers
    requires n <= |mru|
  {
    if n == 0 then map[] else Assigned(mru, n - 1, visible, budget)[mru[n - 1] := TierAt(mru, n - 1, visible, budget)]
  }

  lemma {:induction false} AssignedAt(mru: seq<string>, n: nat, i: nat, visible: set<string>, budget: nat)
    requires NoDuplicates(mru) && i < n <= |mru|
    ensures var tiers := Assigned(mru, n, visible, budget); mru[i] in tiers && tiers[mru[i]] == TierAt(mru, i, visible, budget)
  {
    if i < n - 1 {
      AssignedAt(mru, n - 1, i, visible, budget);
    }
  }

  lemma {:induction false} AssignedOnly(mru: seq<string>, n: nat, visible: set<string>, budget: nat, id: string)
    requires n <= |mru| && id in Assigned(mru, n, visible, budget)
    ensures id in mru
  {
    if id != mru[n - 1] {
      AssignedOnly(mru, n - 1, visible, budget, id);
    }
  }

  lemma AssignedMeaning(mru: seq<string>, visible: set<string>, budget: nat)
    requires NoDuplicates(mru)
    ensures Assigns(mru, visible, budget, Assigned(mru, |mru|, visible, budget))
  {
    forall i | 0 <= i < |mru| { AssignedAt(mru, |mru|, i, visible, budget); }
    forall id | id in Assigned(mru, |mru|, visible, budget) { AssignedOnly(mru, |mru|, visible, budget, id); }
  }

  function InBackground(mru: seq<string>, n: nat, visible: set<string>, budget: nat): set<string>
    requires n <= |mru|
  {
    if n == 0 then {}
    else InBackground(mru, n - 1, visible, budget) + if TierAt(mru, n - 1, visible, budget) == Background then {mru[n - 1]} else {}
  }

  lemma {:induction false} NotYetInBackground(mru: seq<string>, n: nat, m: nat, visible: set<string>, budget: nat)
    requires NoDuplicates(mru) && n <= m < |mru|
    ensures mru[m] !in InBackground(mru, n, visible, budget)
  {
    if n > 0 {
      NotYetInBackground(mru, n - 1, m, visible, budget);
    }
  }

  /** The warm budget is kept, and used up before anything goes Cold. */
  lemma {:induction false} BackgroundWithinBudget(mru: seq<string>, n: nat, visible: set<string>, budget: nat)
    requires NoDuplicates(mru) && n <= |mru|
    ensures |InBackground(mru, n, visible, budget)| ==
            if HiddenBefore(mru, n, visible) < budget then HiddenBefore(mru, n, visible) else budget
  {
    if n > 0 {
      BackgroundWithinBudget(mru, n - 1, visible, budget);
      NotYetInBackground(mru, n - 1, n - 1, visible, budget);
    }
  }

  /** A hidden cluster is never warmer than one viewed more recently. */
  lemma {:induction false} WarmestFirst(mru: seq<string>, i: nat, j: nat, visible: set<string>, budget: nat)
    requires i < j < |mru| && TierAt(mru, j, visible, budget) == Background
    ensures TierAt(mru, i, visible, budget) != Cold && HiddenBefore(mru, i, visible) <= HiddenBefore(mru, j, visible)
  {
    if i + 1 < j {
      if mru[j - 1] in visible {
        HiddenGrows(mru, i, j, visible);
      } else {
        WarmestFirst(mru, i, j - 1, visible, budget);
      }
    }
  }

  lemma {:induction false} HiddenGrows(mru: seq<string>, i: nat, j: nat, visible: set<string>)
    requires i <= j <= |mru|
    ensures HiddenBefore(mru, i, visible) <= HiddenBefore(mru, j, visible)
    decreases j
  {
    if i < j {
      HiddenGrows(mru, i, j - 1, visible);
    }
  }

  function WithTier(tiers: Tiers, tier: Tier): set<string> {
    set id | id in tiers && tiers[id] == tier
  }

  function Least(a: nat, b: nat): nat {
    if a < b then a else b
  }

  lemma {:induction false} HiddenCount(mru: seq<string>, n: nat, visible: set<string>)
    requires NoDuplicates(mru) && n <= |mru|
    ensures HiddenBefore(mru, n, visible) == |set id | id in mru[..n] && id !in visible|
  {
    if n > 0 {
      HiddenCount(mru, n - 1, visible);
      var before := set id | id in mru[..n - 1] && id !in visible;
      assert mru[..n] == mru[..n - 1] + [mru[n - 1]];
      assert mru[n - 1] !in mru[..n - 1];
      assert (set id | id in mru[..n] && id !in visible) == if mru[n - 1] in visible then before else before + {mru[n - 1]};
    } else {
      assert (set id | id in mru[..n] && id !in visible) == {};
    }
  }

  lemma {:induction false} BackgroundMembers(mru: seq<string>, n: nat, visible: set<string>, budget: nat, id: string)
    requires n <= |mru|
    ensures id in InBackground(mru, n, visible, budget) <==>
            exists i :: 0 <= i < n && mru[i] == id && TierAt(mru, i, visible, budget) == Background
  {
    if n > 0 {
      BackgroundMembers(mru, n - 1, visible, budget, id);
    }
  }

  /** The policy in its own terms: visible clusters are Foreground, under pressure everything else is Cold,
      otherwise the most recently viewed of the others stay warm, as many as may. */
  lemma PolicyMeaning(keepWarm: nat, mru: seq<string>, visible: set<string>, pressure: bool, tiers: Tiers)
    requires NoDuplicates(mru) && Assigns(mru, visible, Budget(keepWarm, pressure), tiers)
    ensures forall id | id in tiers :: tiers[id] == Foreground <==> id in visible
    ensures pressure ==> forall id | id in tiers && id !in visible :: tiers[id] == Cold
    ensures !pressure ==> |WithTier(tiers, Background)| == Least(keepWarm, |set id | id in mru && id !in visible|)
    ensures forall x, y | Precedes(mru, x, y) && x !in visible && tiers[y] == Background :: tiers[x] == Background
  {
    var budget := Budget(keepWarm, pressure);
    forall id | id in tiers
      ensures tiers[id] == Foreground <==> id in visible
      ensures pressure && id !in visible ==> tiers[id] == Cold
    {
      var i :| 0 <= i < |mru| && mru[i] == id;
    }
    forall x, y | Precedes(mru, x, y) && x !in visible && tiers[y] == Background ensures tiers[x] == Background {
      var i, j :| 0 <= i < j < |mru| && mru[i] == x && mru[j] == y;
      WarmestFirst(mru, i, j, visible, budget);
    }
    BackgroundWithinBudget(mru, |mru|, visible, budget);
    HiddenCount(mru, |mru|, visible);
    assert mru[..|mru|] == mru;
    WarmSet(mru, visible, budget, tiers);
  }

  lemma WarmSet(mru: seq<string>, visible: set<string>, budget: nat, tiers: Tiers)
    requires NoDuplicates(mru) && Assigns(mru, visible, budget, tiers)
    ensures WithTier(tiers, Background) == InBackground(mru, |mru|, visible, budget)
  {
    forall id ensures id in WithTier(tiers, Background) <==> id in InBackground(mru, |mru|, visible, budget) {
      BackgroundMembers(mru, |mru|, visible, budget, id);
      if id in tiers {
        var i :| 0 <= i < |mru| && mru[i] == id;
        assert forall j | 0 <= j < |mru| && mru[j] == id :: j == i;
      }
    }
  }

  method Assign(keepWarm: nat, mru: seq<string>, visible: set<string>, pressure: bool) returns (out: Tiers)
    requires NoDuplicates(mru)
    ensures Assigns(mru, visible, Budget(keepWarm, pressure), out)
    ensures forall id | id in out :: out[id] == Foreground <==> id in visible
    ensures pressure ==> forall id | id in out && id !in visible :: out[id] == Cold
    ensures !pressure ==> |WithTier(out, Background)| == Least(keepWarm, |set id | id in mru && id !in visible|)
    ensures forall x, y | Precedes(mru, x, y) && x !in visible && out[y] == Background :: out[x] == Background
  {
    var warm := keepWarm;
    if pressure {
      warm := 0;
    }
    out := map[];
    var warmed := 0;
    for i := 0 to |mru|
      invariant out == Assigned(mru, i, visible, warm)
      invariant warmed == if HiddenBefore(mru, i, visible) < warm then HiddenBefore(mru, i, visible) else warm
    {
      if mru[i] in visible {
        out := out[mru[i] := Foreground];
      } else if warmed < warm {
        out := out[mru[i] := Background];
        warmed := warmed + 1;
      } else {
        out := out[mru[i] := Cold];
      }
    }
    AssignedMeaning(mru, visible, warm);
    PolicyMeaning(keepWarm, mru, visible, pressure, out);
  }

  datatype Transition = Transition(cluster: string, tier: Tier, ensureRunning: bool, teardown: bool)

  /** The clusters whose desired tier is not the applied one. */
  function Differing(applied: Tiers, desired: Tiers): set<string> {
    set id | id in desired && Lookup(applied, id) != Some(desired[id])
  }

  ghost predicate Plans(applied: Tiers, desired: Tiers, transitions: seq<Transition>) {
    && (forall i, j | 0 <= i < j < |transitions| :: transitions[i].cluster != transitions[j].cluster)
    && (forall id :: id in Differing(applied, desired) <==> exists i :: 0 <= i < |transitions| && transitions[i].cluster == id)
    && (forall t | t in transitions ::
          && t.cluster in Differing(applied, desired) && t.tier == desired[t.cluster]
          && t.teardown == (t.tier == Cold) && t.ensureRunning == !t.teardown)
  }

  method PlanGovernorTransitions(applied: Tiers, desired: Tiers) returns (transitions: seq<Transition>)
    ensures Plans(applied, desired, transitions)
    ensures forall id | id in desired && (id !in applied || applied[id] != desired[id]) ::
              exists i :: 0 <= i < |transitions| && transitions[i].cluster == id
    ensures forall t | t in transitions ::
              && t.cluster in desired && t.tier == desired[t.cluster] && (t.cluster !in applied || applied[t.cluster] != t.tier)
              && t.ensureRunning == (t.tier != Cold) && t.teardown == (t.tier == Cold)
  {
    transitions := [];
    var rest := desired.Keys;
    while rest != {}
      invariant rest <= desired.Keys
      invariant forall i, j | 0 <= i < j < |transitions| :: transitions[i].cluster != transitions[j].cluster
      invariant forall id :: id in Differing(applied, desired) && id !in rest <==>
                             exists i :: 0 <= i < |transitions| && transitions[i].cluster == id
      invariant forall t | t in transitions ::
                  && t.cluster in Differing(applied, desired) && t.tier == desired[t.cluster]
                  && t.teardown == (t.tier == Cold) && t.ensureRunning == !t.teardown
    {
      var id :| id in rest;
      rest := rest - {id};
      var tier := desired[id];
      if Lookup(applied, id) != Some(tier) {
        ghost var before := transitions;
        transitions := transitions + [Transition(id, tier, tier != Cold, tier == Cold)];
        assert transitions[|before|].cluster == id;
        assert forall i | 0 <= i < |before| :: transitions[i] == before[i];
      }
    }
    forall id | id in desired && (id !in applied || applied[id] != desired[id])
      ensures exists i :: 0 <= i < |transitions| && transitions[i].cluster == id
    {
      assert id in Differing(applied, desired) && id !in rest;
    }
  }

  // ----- The governor's state -----

  function VisibleIn(visible: string, windows: map<string, string>): set<string> {
    (if visible != "" then {visible} else {}) + set w | w in windows && windows[w] != "" :: windows[w]
  }

  /** Visible is what the process shows and what any of its windows shows. */
  lemma VisibleMeaning(visible: string, windows: map<string, string>, id: string)
    ensures id in VisibleIn(visible, windows) <==> id != "" && (id == visible || id in windows.Values)
  {
  }

  function OnlyOpen(tiers: Tiers, open: set<string>): Tiers {
    map id | id in tiers && id in open :: tiers[id]
  }

  /** The applied tiers once the transitions to `desired` were dispatched and the executor reached those
      in `reached`. */
  function AfterDispatch(applied: Tiers, desired: Tiers, reached: set<string>): Tiers {
    map id | id in applied.Keys + (Differing(applied, desired) * reached) ::
      if id in Differing(applied, desired) && id in reached then desired[id] else applied[id]
  }

  class ResourceGovernor {
    var mru: seq<string>
    var visible: string
    var windows: map<string, string>
    var planned: Tiers
    var applied: Tiers
    var pressure: bool
    var heapInUse: nat
    const budget: nat
    const keepWarm: nat
    var revision: nat   // the workspace revision

    ghost predicate Valid()
      reads this
    {
      NoDuplicates(mru)
    }

    constructor (keepWarm: nat, budget: nat)
      ensures Valid() && mru == [] && visible == "" && windows == map[] && planned == map[] && applied == map[]
      ensures this.keepWarm == keepWarm && this.budget == budget
    {
      this.keepWarm, this.budget := keepWarm, budget;
      mru, visible, windows, planned, applied := [], "", map[], map[], map[];
      pressure, heapInUse, revision := false, 0, 0;
    }

    function VisibleClusters(): set<string>
      reads this
    {
      VisibleIn(visible, windows)
    }

    /** `setGovernorVisibleLocked`: the revision moves exactly when the visible cluster does. */
    method SetVisibleLocked(cluster: string)
      modifies `visible, `revision
      ensures visible == cluster
      ensures revision == old(revision) + if old(visible) == cluster then 0 else 1
    {
      if visible == cluster {
        return;
      }
      visible := cluster;
      revision := revision + 1;
    }

    /** The mutex region of `SetVisibleCluster`. */
    method SetVisibleCluster(cluster: string) returns (reconcile: bool)
      requires Valid()
      modifies `mru, `visible, `revision
      ensures Valid() && reconcile == (cluster != "")
      ensures cluster == "" ==> unchanged(this)
      ensures cluster != "" ==> visible == cluster && mru == MovedToFront(old(mru), cluster)
      ensures cluster != "" ==> revision == old(revision) + if old(visible) == cluster then 0 else 1
    {
      if cluster == "" {
        return false;
      }
      SetVisibleLocked(cluster);
      MoveToFrontMeaning(mru, cluster);
      mru := MoveToFront(mru, cluster);
      reconcile := true;
    }

    /** The mutex region of `SetWindowVisibleCluster`. The first window takes over from the
        process-wide visible cluster. */
    method SetWindowVisibleCluster(window: string, cluster: string) returns (reconcile: bool)
      requires Valid()
      modifies `mru, `visible, `windows, `revision
      ensures Valid()
      ensures var w, c := TrimSpace(window), TrimSpace(cluster);
              && reconcile == (w != "" && (c != "" || w in old(windows)))
              && (w == "" ==> unchanged(this))
              && (w != "" && c == "" ==> windows == old(windows) - {w} && visible == old(visible) && mru == old(mru))
              && (w != "" && c != "" ==>
                    && windows == old(windows)[w := c] && mru == MovedToFront(old(mru), c)
                    && visible == (if old(windows) == map[] then "" else old(visible))
                    && (revision == old(revision) <==> visible == old(visible) && Lookup(old(windows), w) == Some(c)))
    {
      var w, c := TrimSpace(window), TrimSpace(cluster);
      if w == "" {
        return false;
      }
      if c == "" {
        reconcile := DropWindow(w);
        return;
      }
      if windows == map[] && visible != "" {
        visible := "";
        revision := revision + 1;
      }
      if Lookup(windows, w) != Some(c) {
        windows := windows[w := c];
        revision := revision + 1;
      }
      MoveToFrontMeaning(mru, c);
      mru := MoveToFront(mru, c);
      reconcile := true;
    }

    method DropWindow(window: string) returns (existed: bool)
      modifies `windows, `revision
      ensures existed == (window in old(windows)) && windows == old(windows) - {window}
      ensures revision == old(revision) + if existed then 1 else 0
    {
      existed := window in windows;
      if existed {
        windows := windows - {window};
        revision := revision + 1;
      }
    }

    /** The mutex region of `releaseWorkspaceWindowForeground`. */
    method ReleaseWindow(window: string) returns (reconcile: bool)
      modifies `windows, `revision
      ensures var w := TrimSpace(window);
              && reconcile == (w != "" && w in old(windows))
              && windows == (if w == "" then old(windows) else old(windows) - {w})
              && revision == old(revision) + if reconcile then 1 else 0
    {
      var w := TrimSpace(window);
      if w == "" {
        return false;
      }
      reconcile := DropWindow(w);
    }

    /** The mutex region of `handleGovernorPressureSample`: every sample over budget reconciles again. */
    method HandlePressureSample(sample: nat) returns (reconcile: bool)
      modifies `pressure, `heapInUse
      ensures pressure == (budget > 0 && sample > budget) && heapInUse == sample
      ensures reconcile == (pressure || old(pressure))
    {
      var underPressure := budget > 0 && sample > budget;
      var changed := underPressure != pressure;
      pressure, heapInUse := underPressure, sample;
      reconcile := changed || underPressure;
    }

    /** The mutex region of `seedGovernorFromOpenClusters`. */
    method Seed(open: set<string>)
      requires Valid()
      modifies `mru, `visible, `revision
      ensures Valid() && Intersection(old(mru), open, mru)
      ensures visible == if (old(visible) != "" && old(visible) in open) || open == {} then old(visible) else mru[0]
    {
      mru := IntersectOrdered(mru, open);
      if visible == "" || visible !in open {
        if |mru| > 0 {
          SetVisibleLocked(mru[0]);
        }
      }
      assert |mru| > 0 ==> mru[0] in open;
    }

    /** One whole reconcile. `reached` are the clusters for which the executor reports that it reached
        the tier it was asked for. */
    method Reconcile(open: set<string>, reached: set<string>) returns (transitions: seq<Transition>)
      requires Valid()
      modifies `mru, `planned, `applied
      ensures Valid()
      ensures var all := open + VisibleClusters();
              && Intersection(old(mru), all, mru)
              && Assigns(mru, VisibleClusters(), Budget(keepWarm, pressure), planned)
              && Plans(OnlyOpen(old(applied), all), planned, transitions)
              && applied == AfterDispatch(OnlyOpen(old(applied), all), planned, reached)
      ensures forall id | id in planned :: planned[id] == Foreground <==> id != "" && (id == visible || id in windows.Values)
      ensures pressure ==> forall id | id in planned :: planned[id] != Background
      ensures !pressure ==> |WithTier(planned, Background)| == Least(keepWarm, |set id | id in mru && id !in VisibleClusters()|)
    {
      var all := open + VisibleClusters();
      mru := IntersectOrdered(mru, all);
      applied := OnlyOpen(applied, all);
      planned := Assign(keepWarm, mru, VisibleClusters(), pressure);
      transitions := PlanGovernorTransitions(applied, planned);
      Dispatch(transitions, reached);
      forall id {
        VisibleMeaning(visible, windows, id);
      }
    }

    method Dispatch(transitions: seq<Transition>, reached: set<string>)
      requires Plans(applied, planned, transitions)
      modifies `applied
      ensures applied == AfterDispatch(old(applied), planned, reached)
    {
      for i := 0 to |transitions|
        invariant applied == AfterTransitions(old(applied), transitions, reached, i)
      {
        var t := transitions[i];
        if t.cluster in reached {
          applied := applied[t.cluster := t.tier];
        }
      }
      AllDispatched(old(applied), planned, transitions, reached);
    }
  }

  function AfterTransitions(applied: Tiers, transitions: seq<Transition>, reached: set<string>, n: nat): Tiers
    requires n <= |transitions|
  {
    if n == 0 then applied
    else
      var before, t := AfterTransitions(applied, transitions, reached, n - 1), transitions[n - 1];
      if t.cluster in reached then before[t.cluster := t.tier] else before
  }

  function ClustersOf(transitions: seq<Transition>, n: nat): set<string>
    requires n <= |transitions|
  {
    if n == 0 then {} else ClustersOf(transitions, n - 1) + {transitions[n - 1].cluster}
  }

  lemma PlannedTransition(applied: Tiers, desired: Tiers, transitions: seq<Transition>, i: nat)
    requires Plans(applied, desired, transitions) && i < |transitions|
    ensures transitions[i].cluster in Differing(applied, desired) && transitions[i].tier == desired[transitions[i].cluster]
  {
    assert transitions[i] in transitions;
  }

  lemma {:induction false} SomeDispatched(applied: Tiers, desired: Tiers, transitions: seq<Transition>, reached: set<string>, n: nat)
    requires Plans(applied, desired, transitions) && n <= |transitions|
    ensures AfterTransitions(applied, transitions, reached, n) ==
            AfterDispatch(applied, desired, reached * ClustersOf(transitions, n))
  {
    if n > 0 {
      SomeDispatched(applied, desired, transitions, reached, n - 1);
      PlannedTransition(applied, desired, transitions, n - 1);
      DispatchOneMore(applied, desired, reached, ClustersOf(transitions, n - 1), transitions[n - 1].cluster);
    }
  }

  lemma {:induction false} ClustersOfAll(transitions: seq<Transition>, i: nat, n: nat)
    requires i < n <= |transitions|
    ensures transitions[i].cluster in ClustersOf(transitions, n)
  {
    if i < n - 1 {
      ClustersOfAll(transitions, i, n - 1);
    }
  }

  lemma PlanCoversDiffering(applied: Tiers, desired: Tiers, transitions: seq<Transition>, all: set<string>)
    requires Plans(applied, desired, transitions)
    requires forall i | 0 <= i < |transitions| :: transitions[i].cluster in all
    ensures Differing(applied, desired) <= all
  {
  }

  lemma OnlyDifferingMatters(applied: Tiers, desired: Tiers, a: set<string>, b: set<string>)
    requires forall id | id in Differing(applied, desired) :: id in a <==> id in b
    ensures AfterDispatch(applied, desired, a) == AfterDispatch(applied, desired, b)
  {
  }

  lemma AllDispatched(applied: Tiers, desired: Tiers, transitions: seq<Transition>, reached: set<string>)
    requires Plans(applied, desired, transitions)
    ensures AfterTransitions(applied, transitions, reached, |transitions|) == AfterDispatch(applied, desired, reached)
  {
    var all := ClustersOf(transitions, |transitions|);
    SomeDispatched(applied, desired, transitions, reached, |transitions|);
    forall i | 0 <= i < |transitions| ensures transitions[i].cluster in all {
      ClustersOfAll(transitions, i, |transitions|);
    }
    PlanCoversDiffering(applied, desired, transitions, all);
    OnlyDifferingMatters(applied, desired, reached * all, reached);
  }

  lemma DispatchOneMore(applied: Tiers, desired: Tiers, reached: set<string>, dispatched: set<string>, id: string)
    requires id in Differing(applied, desired)
    ensures var before := AfterDispatch(applied, desired, reached * dispatched);
            AfterDispatch(applied, desired, reached * (dispatched + {id})) ==
            if id in reached then before[id := desired[id]] else before
  {
  }

  lemma AssignsOnce(mru: seq<string>, visible: set<string>, budget: nat, a: Tiers, b: Tiers)
    requires Assigns(mru, visible, budget, a) && Assigns(mru, visible, budget, b)
    ensures a == b
  {
    forall id | id in a ensures a[id] == b[id] {
      var i :| 0 <= i < |mru| && mru[i] == id;
    }
  }

  /** What was reached is not planned again, what was deferred is. */
  lemma DifferingAfterDispatch(applied: Tiers, desired: Tiers, reached: set<string>)
    ensures Differing(AfterDispatch(applied, desired, reached), desired) == Differing(applied, desired) - reached
  {
  }

  /** A plan is empty exactly when nothing differs. */
  lemma EmptyPlan(applied: Tiers, desired: Tiers, transitions: seq<Transition>)
    requires Plans(applied, desired, transitions)
    ensures transitions == [] <==> Differing(applied, desired) == {}
  {
    assert transitions != [] ==> transitions[0] in transitions;
  }

  /** A second reconcile on unchanged inputs keeps the order and the plan and dispatches exactly what
      the executor deferred; nothing, if every transition succeeded. */
  lemma SecondReconcile(
    mru: seq<string>, mru': seq<string>, all: set<string>, visible: set<string>, budget: nat,
    applied: Tiers, planned: Tiers, planned': Tiers, reached: set<string>, second: seq<Transition>
  )
    requires NoDuplicates(mru) && (forall x :: x in mru <==> x in all) && Intersection(mru, all, mru')
    requires Assigns(mru, visible, budget, planned) && Assigns(mru', visible, budget, planned')
    requires applied.Keys <= all
    requires Plans(OnlyOpen(AfterDispatch(applied, planned, reached), all), planned', second)
    ensures mru' == mru && planned' == planned
    ensures forall id :: id in Differing(applied, planned) - reached <==> exists i :: 0 <= i < |second| && second[i].cluster == id
    ensures Differing(applied, planned) <= reached ==> second == []
  {
    IntersectionSettles(mru, all, mru');
    AssignsOnce(mru, visible, budget, planned, planned');
    var after := AfterDispatch(applied, planned, reached);
    assert OnlyOpen(after, all) == after;
    DifferingAfterDispatch(applied, planned, reached);
    EmptyPlan(after, planned, second);
  }

  // ----- Visibility, pressure and reconciles, interleaved -----

  /** One reconcile is under way at a time; `work` are its transitions still to be dispatched and
      `tracked` the clusters that were open or visible when it began. */
  datatype State = State(
    mru: seq<string>, visible: string, windows: map<string, string>, pressure: bool,
    planned: Tiers, applied: Tiers, tracked: set<string>, work: set<string>, reconciling: bool
  )

  datatype Event =
    | View(cluster: string)
    | ViewInWindow(window: string, cluster: string)
    | LeaveWindow(window: string)
    | Sample(underPressure: bool)
    | SeedFrom(open: set<string>, mru: seq<string>)
    | Begin(open: set<string>, mru: seq<string>, planned: Tiers)   // the first mutex region of a reconcile
    | Report(cluster: string, reached: bool)                       // one executor call and its bookkeeping
    | Finish

  const INITIAL := State([], "", map[], false, map[], map[], {}, {}, false)

  function OpenOrVisible(s: State, open: set<string>): set<string> {
    open + VisibleIn(s.visible, s.windows)
  }

  ghost predicate Enabled(keepWarm: nat, s: State, e: Event) {
    match e
    case View(c) => c != ""
    case ViewInWindow(w, c) => w != "" && c != ""
    case LeaveWindow(_) => true
    case Sample(_) => true
    case SeedFrom(open, mru) => Intersection(s.mru, open, mru)
    case Begin(open, mru, planned) =>
      && !s.reconciling && Intersection(s.mru, OpenOrVisible(s, open), mru)
      && Assigns(mru, VisibleIn(s.visible, s.windows), Budget(keepWarm, s.pressure), planned)
    case Report(c, _) => c in s.work && c in s.planned
    case Finish => s.reconciling && s.work == {}
  }

  function Next(s: State, e: Event): State
    requires e.Report? ==> e.cluster in s.planned
  {
    match e
    case View(c) => s.(visible := c, mru := MovedToFront(s.mru, c))
    case ViewInWindow(w, c) =>
      s.(visible := if s.windows == map[] then "" else s.visible, windows := s.windows[w := c], mru := MovedToFront(s.mru, c))
    case LeaveWindow(w) => s.(windows := s.windows - {w})
    case Sample(p) => s.(pressure := p)
    case SeedFrom(open, mru) =>
      s.(mru := mru, visible := if (s.visible != "" && s.visible in open) || mru == [] then s.visible else mru[0])
    case Begin(open, mru, planned) =>
      var applied := OnlyOpen(s.applied, OpenOrVisible(s, open));
      s.(mru := mru, planned := planned, applied := applied, tracked := OpenOrVisible(s, open),
         work := Differing(applied, planned), reconciling := true)
    case Report(c, reached) =>
      s.(applied := if reached then s.applied[c := s.planned[c]] else s.applied, work := s.work - {c})
    case Finish => s.(reconciling := false)
  }

  ghost predicate Behaviour(keepWarm: nat, states: seq<State>, events: seq<Event>) {
    && |states| == |events| + 1
    && states[0] == INITIAL
    && forall i | 0 <= i < |events| :: Enabled(keepWarm, states[i], events[i]) && states[i + 1] == Next(states[i], events[i])
  }

  ghost predicate Inv(s: State) {
    && NoDuplicates(s.mru)
    && s.applied.Keys <= s.tracked && s.planned.Keys == s.tracked
    && s.work <= Differing(s.applied, s.planned)
  }

  lemma StepKeepsInv(keepWarm: nat, s: State, e: Event)
    requires Inv(s) && Enabled(keepWarm, s, e)
    ensures Inv(Next(s, e))
  {
    match e
    case View(c) => MoveToFrontMeaning(s.mru, c);
    case ViewInWindow(_, c) => MoveToFrontMeaning(s.mru, c);
    case _ =>
  }

  lemma {:induction false} ReachableInv(keepWarm: nat, states: seq<State>, events: seq<Event>, n: nat)
    requires Behaviour(keepWarm, states, events) && n < |states|
    ensures Inv(states[n])
  {
    if n > 0 {
      ReachableInv(keepWarm, states, events, n - 1);
      StepKeepsInv(keepWarm, states[n - 1], events[n - 1]);
    }
  }

  /** Whatever happened before, beginning a reconcile leaves an order without duplicates of exactly the
      open and visible clusters, in which those that stay keep their places relative to each other. */
  lemma OrderAfterBegin(keepWarm: nat, states: seq<State>, events: seq<Event>, n: nat, x: string, y: string)
    requires Behaviour(keepWarm, states, events) && n < |events| && events[n].Begin?
    ensures var all, after := OpenOrVisible(states[n], events[n].open), states[n + 1].mru;
            && NoDuplicates(after) && (forall id :: id in after <==> id in all)
            && (x in all && y in all && Precedes(states[n].mru, x, y) ==> Precedes(after, x, y))
  {
    ReachableInv(keepWarm, states, events, n);
    var all := OpenOrVisible(states[n], events[n].open);
    assert Enabled(keepWarm, states[n], events[n]);
    if x in all && y in all && Precedes(states[n].mru, x, y) {
      IntersectionKeepsOrder(states[n].mru, all, events[n].mru, x, y);
    }
  }

  /** Only clusters that were open or visible when the last reconcile began have an applied tier, and
      each such tier is one the executor reported to have reached. */
  lemma {:induction false} AppliedWasReached(keepWarm: nat, states: seq<State>, events: seq<Event>, n: nat, c: string)
    requires Behaviour(keepWarm, states, events) && n < |states| && c in states[n].applied
    ensures c in states[n].tracked
    ensures exists i :: 0 <= i < n && events[i] == Report(c, true) && Lookup(states[i].planned, c) == Some(states[n].applied[c])
  {
    ReachableInv(keepWarm, states, events, n);
    assert states[n] == Next(states[n - 1], events[n - 1]) && Enabled(keepWarm, states[n - 1], events[n - 1]);
    if events[n - 1] != Report(c, true) {
      AppliedWasReached(keepWarm, states, events, n - 1, c);
    } else {
      assert Lookup(states[n - 1].planned, c) == Some(states[n].applied[c]);
    }
  }

  /** A transition that was deferred is planned again by the next reconcile that still wants its tier. */
  lemma DeferredIsPlannedAgain(keepWarm: nat, states: seq<State>, events: seq<Event>, i: nat, j: nat, c: string)
    requires Behaviour(keepWarm, states, events) && i < j < |events|
    requires events[i] == Report(c, false) && events[j].Begin?
    requires forall m | i < m < j :: events[m] != Report(c, true)
    requires Lookup(events[j].planned, c) == Lookup(states[i].planned, c)
    ensures c in states[j + 1].work
  {
    ReachableInv(keepWarm, states, events, i);
    StaysUnapplied(keepWarm, states, events, i, j, c);
    assert Enabled(keepWarm, states[j], events[j]) && states[j + 1] == Next(states[j], events[j]);
  }

  lemma UnappliedStep(keepWarm: nat, s: State, e: Event, c: string, tier: Tier)
    requires Enabled(keepWarm, s, e) && e != Report(c, true) && Lookup(s.applied, c) != Some(tier)
    ensures Lookup(Next(s, e).applied, c) != Some(tier)
  {
  }

  lemma {:induction false} StaysUnapplied(keepWarm: nat, states: seq<State>, events: seq<Event>, i: nat, j: nat, c: string)
    requires Behaviour(keepWarm, states, events) && i < j < |states| && events[i] == Report(c, false)
    requires Inv(states[i])
    requires forall m | i < m < j :: events[m] != Report(c, true)
    ensures c in states[i].planned && Lookup(states[j].applied, c) != Some(states[i].planned[c])
    decreases j
  {
    var s, e := states[j - 1], events[j - 1];
    assert Enabled(keepWarm, s, e) && states[j] == Next(s, e);
    if j > i + 1 {
      StaysUnapplied(keepWarm, states, events, i, j - 1, c);
    }
    UnappliedStep(keepWarm, s, e, c, states[i].planned[c]);
  }

  lemma SettlingStep(keepWarm: nat, s: State, e: Event)
    requires Enabled(keepWarm, s, e) && Differing(s.applied, s.planned) == s.work
    requires !e.Begin? && !e.Finish? && (e.Report? ==> e.reached)
    ensures Differing(Next(s, e).applied, Next(s, e).planned) == Next(s, e).work
    ensures Next(s, e).reconciling == s.reconciling
  {
  }

  /** If every call of a reconcile reached its tier, what differs from the plan is what is still to be
      dispatched: nothing, once it finishes. */
  lemma {:induction false} SuccessfulReconcileSettles(keepWarm: nat, states: seq<State>, events: seq<Event>, i: nat, n: nat)
    requires Behaviour(keepWarm, states, events) && i < n < |states| && events[i].Begin?
    requires forall m | i < m < n :: !events[m].Begin? && !events[m].Finish? && (events[m].Report? ==> events[m].reached)
    ensures Differing(states[n].applied, states[n].planned) == states[n].work && states[n].reconciling
    decreases n
  {
    assert Enabled(keepWarm, states[n - 1], events[n - 1]) && states[n] == Next(states[n - 1], events[n - 1]);
    if n > i + 1 {
      SuccessfulReconcileSettles(keepWarm, states, events, i, n - 1);
      SettlingStep(keepWarm, states[n - 1], events[n - 1]);
    }
  }

  // ----- What the user looks at, and what memory allows -----

  predicate MovesVisible(e: Event) {
    e.View? || e.ViewInWindow? || e.SeedFrom?
  }

  lemma {:induction false} VisibleStays(keepWarm: nat, states: seq<State>, events: seq<Event>, i: nat, j: nat)
    requires Behaviour(keepWarm, states, events) && i <= j < |states|
    requires forall m | i <= m < j :: !MovesVisible(events[m])
    ensures states[j].visible == states[i].visible
    decreases j
  {
    if i < j {
      VisibleStays(keepWarm, states, events, i, j - 1);
      assert states[j] == Next(states[j - 1], events[j - 1]);
    }
  }

  /** The cluster viewed last is Foreground in the next plan, whatever the pressure. */
  lemma LastViewedIsForeground(keepWarm: nat, states: seq<State>, events: seq<Event>, i: nat, j: nat, c: string)
    requires Behaviour(keepWarm, states, events) && i < j < |events|
    requires events[i] == View(c) && events[j].Begin?
    requires forall m | i < m < j :: !MovesVisible(events[m])
    ensures Lookup(states[j + 1].planned, c) == Some(Foreground)
  {
    assert Enabled(keepWarm, states[i], events[i]) && states[i + 1] == Next(states[i], events[i]);
    VisibleStays(keepWarm, states, events, i + 1, j);
    PlannedForeground(keepWarm, states, events, j, c);
  }

  /** Visible clusters, and only those, are planned Foreground. */
  lemma PlannedForeground(keepWarm: nat, states: seq<State>, events: seq<Event>, j: nat, c: string)
    requires Behaviour(keepWarm, states, events) && j < |events| && events[j].Begin?
    ensures c != "" && (c == states[j].visible || c in states[j].windows.Values) <==> Lookup(states[j + 1].planned, c) == Some(Foreground)
  {
    ReachableInv(keepWarm, states, events, j);
    assert Enabled(keepWarm, states[j], events[j]) && states[j + 1] == Next(states[j], events[j]);
    VisibleMeaning(states[j].visible, states[j].windows, c);
    PolicyMeaning(keepWarm, states[j + 1].mru, VisibleIn(states[j].visible, states[j].windows), states[j].pressure, states[j + 1].planned);
  }

  predicate MovesWindow(e: Event, window: string) {
    (e.ViewInWindow? && e.window == window) || e == LeaveWindow(window)
  }

  lemma {:induction false} WindowStays(keepWarm: nat, states: seq<State>, events: seq<Event>, i: nat, j: nat, window: string)
    requires Behaviour(keepWarm, states, events) && i <= j < |states|
    requires forall m | i <= m < j :: !MovesWindow(events[m], window)
    ensures Lookup(states[j].windows, window) == Lookup(states[i].windows, window)
    decreases j
  {
    if i < j {
      WindowStays(keepWarm, states, events, i, j - 1, window);
      assert states[j] == Next(states[j - 1], events[j - 1]);
    }
  }

  /** So is the cluster each window shows, until that window shows another one or goes. */
  lemma ShownInWindowIsForeground(keepWarm: nat, states: seq<State>, events: seq<Event>, i: nat, j: nat, window: string, c: string)
    requires Behaviour(keepWarm, states, events) && i < j < |events|
    requires events[i] == ViewInWindow(window, c) && events[j].Begin?
    requires forall m | i < m < j :: !MovesWindow(events[m], window)
    ensures Lookup(states[j + 1].planned, c) == Some(Foreground)
  {
    assert Enabled(keepWarm, states[i], events[i]) && states[i + 1] == Next(states[i], events[i]);
    WindowStays(keepWarm, states, events, i + 1, j, window);
    assert states[j].windows[window] == c;
    PlannedForeground(keepWarm, states, events, j, c);
  }

  lemma {:induction false} PressureStays(keepWarm: nat, states: seq<State>, events: seq<Event>, i: nat, j: nat)
    requires Behaviour(keepWarm, states, events) && i <= j < |states|
    requires forall m | i <= m < j :: !events[m].Sample?
    ensures states[j].pressure == states[i].pressure
    decreases j
  {
    if i < j {
      PressureStays(keepWarm, states, events, i, j - 1);
      assert states[j] == Next(states[j - 1], events[j - 1]);
    }
  }

  /** After a sample under pressure a plan keeps nothing warm that nobody looks at; after one without, as
      many such clusters as may be stay warm, and those are the most recently viewed. */
  lemma PlanFollowsPressure(keepWarm: nat, states: seq<State>, events: seq<Event>, i: nat, j: nat)
    requires Behaviour(keepWarm, states, events) && i < j < |events|
    requires events[i].Sample? && events[j].Begin?
    requires forall m | i < m < j :: !events[m].Sample?
    ensures var s := states[j + 1];
            var hidden := set id | id in s.mru && (id == "" || (id != states[j].visible && id !in states[j].windows.Values));
            && s.planned.Keys == s.tracked
            && (events[i].underPressure ==> forall id | id in hidden :: Lookup(s.planned, id) == Some(Cold))
            && (!events[i].underPressure ==> |WithTier(s.planned, Background)| == Least(keepWarm, |hidden|))
            && (forall x, y | Precedes(s.mru, x, y) && x in hidden && Lookup(s.planned, y) == Some(Background) ::
                  Lookup(s.planned, x) == Some(Background))
  {
    ReachableInv(keepWarm, states, events, j);
    ReachableInv(keepWarm, states, events, j + 1);
    assert states[i + 1] == Next(states[i], events[i]);
    PressureStays(keepWarm, states, events, i + 1, j);
    assert Enabled(keepWarm, states[j], events[j]) && states[j + 1] == Next(states[j], events[j]);
    PlanPolicy(keepWarm, states[j], events[j]);
  }

  lemma PlanPolicy(keepWarm: nat, s: State, e: Event)
    requires Inv(s) && e.Begin? && Enabled(keepWarm, s, e)
    ensures var hidden := set id | id in e.mru && (id == "" || (id != s.visible && id !in s.windows.Values));
            && (s.pressure ==> forall id | id in hidden :: Lookup(e.planned, id) == Some(Cold))
            && (!s.pressure ==> |WithTier(e.planned, Background)| == Least(keepWarm, |hidden|))
            && (forall x, y | Precedes(e.mru, x, y) && x in hidden && Lookup(e.planned, y) == Some(Background) ::
                  Lookup(e.planned, x) == Some(Background))
  {
    var visible := VisibleIn(s.visible, s.windows);
    forall id {
      VisibleMeaning(s.visible, s.windows, id);
    }
    assert (set id | id in e.mru && (id == "" || (id != s.visible && id !in s.windows.Values))) == set id | id in e.mru && id !in visible;
    PolicyMeaning(keepWarm, e.mru, visible, s.pressure, e.planned);
  }

  lemma RunsGoOn(keepWarm: nat, states: seq<State>, events: seq<Event>, e: Event)
    requires Behaviour(keepWarm, states, events) && Enabled(keepWarm, states[|events|], e)
    ensures Behaviour(keepWarm, states + [Next(states[|events|], e)], events + [e])
  {
  }

  /** Whatever a run has come to, any cluster may be viewed, any window may show a cluster or go, pressure
      may be sampled, and a reconcile may begin over any open clusters if none is under way. */
  lemma CallersAreFree(keepWarm: nat, states: seq<State>, events: seq<Event>, e: Event, open: set<string>, mru: seq<string>)
    requires Behaviour(keepWarm, states, events) && Intersection(states[|events|].mru, OpenOrVisible(states[|events|], open), mru)
    ensures match e
            case View(c) => c != "" ==> Enabled(keepWarm, states[|events|], e)
            case ViewInWindow(w, c) => w != "" && c != "" ==> Enabled(keepWarm, states[|events|], e)
            case LeaveWindow(_) => Enabled(keepWarm, states[|events|], e)
            case Sample(_) => Enabled(keepWarm, states[|events|], e)
            case _ => true
    ensures !states[|events|].reconciling ==> exists planned :: Enabled(keepWarm, states[|events|], Begin(open, mru, planned))
  {
    var s := states[|events|];
    var visible, budget := VisibleIn(s.visible, s.windows), Budget(keepWarm, s.pressure);
    AssignedMeaning(mru, visible, budget);
    if !s.reconciling {
      assert Enabled(keepWarm, s, Begin(open, mru, Assigned(mru, |mru|, visible, budget)));
    }
  }
}
