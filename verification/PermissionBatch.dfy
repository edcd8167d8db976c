/**
 Batch permission evaluation (backend/resource_gateway_permissions.go:121-301,390-461).

 Each query of a batch is settled by a preparation error, by the rules of its namespace, or by one
 access review. Resolutions and namespace rules are shared between queries under joined string keys.
 */
module PermissionBatch {
  import opened Wrappers
  import opened PermissionRules

  /** A normalized query. */
  datatype Query = Query(
    id: string, cluster: string, group: string, version: string, kind: string,
    verb: string, namespace: string, subresource: string, name: string
  )

  /** What resolution may depend on; the kind is in lower case. */
  datatype Identity = Identity(cluster: string, group: string, version: string, kind: string)

  datatype Resolution = Resolved(group: string, resource: string, namespaced: bool) | Unresolvable(error: string)

  datatype RuleStatus = RuleStatus(rules: seq<Rule>, incomplete: bool)

  datatype Review = Answered(allowed: bool, reason: string) | ReviewFailed(error: string)

  type Pair = (string, string)

  /** The calls into Kubernetes, each answering the same question the same way throughout a batch. */
  datatype Oracles = Oracles(
    resolve: Identity -> Resolution,
    rules: Pair -> Option<RuleStatus>,        // the rules of a cluster's namespace, unless fetching fails
    available: string -> bool,                // whether access reviews of a cluster can run at all
    review: (string, Access, string) -> Review
  )

  /** How cache keys and lower-case kinds are formed. */
  datatype Keys = Keys(lower: string -> string, resolution: Identity -> string, pair: Pair -> string)

  datatype Failure = MissingField | Unresolved(error: string) | Unavailable | CheckFailed(error: string) | AllChecksFailed

  datatype Verdict = Failed(failure: Failure) | RuleAllowed | RuleDenied | Reviewed(allowed: bool, reason: string)

  predicate Complete(q: Query) {
    q.id != "" && q.verb != "" && q.kind != "" && q.cluster != ""
  }

  function IdentityOf(k: Keys, q: Query): Identity {
    Identity(q.cluster, q.group, q.version, k.lower(q.kind))
  }

  function PairOf(q: Query): Pair {
    (q.cluster, q.namespace)
  }

  function AccessOf(q: Query, r: Resolution): Access
    requires r.Resolved?
  {
    Access(r.group, r.resource, q.verb, q.subresource, q.name)
  }

  // ----- One query alone -----

  /** What the rules of the namespace decide, if anything. */
  function ByRules(status: Option<RuleStatus>, a: Access): Option<Verdict> {
    if status.None? then None
    else if SomeGrants(status.value.rules, a) then Some(RuleAllowed)
    else if !status.value.incomplete then Some(RuleDenied)
    else None
  }

  predicate InNamespace(q: Query, r: Resolution) {
    r.Resolved? && r.namespaced && q.namespace != ""
  }

  /** The namespace a review is asked about: none for cluster-scoped resources. */
  function ReviewNamespace(q: Query, r: Resolution): string {
    if InNamespace(q, r) then q.namespace else ""
  }

  function ReviewOf(o: Oracles, q: Query, r: Resolution): Review
    requires r.Resolved?
  {
    o.review(q.cluster, AccessOf(q, r), ReviewNamespace(q, r))
  }

  function ByReview(o: Oracles, q: Query, r: Resolution, allFailed: bool): Verdict
    requires r.Resolved?
  {
    if !o.available(q.cluster) then Failed(Unavailable)
    else if allFailed then Failed(AllChecksFailed)
    else
      match ReviewOf(o, q, r)
      case Answered(allowed, reason) => Reviewed(allowed, reason)
      case ReviewFailed(error) => Failed(CheckFailed(error))
  }

  /** What the query asks for, evaluated with nothing shared. */
  function Alone(k: Keys, o: Oracles, q: Query): Verdict {
    if !Complete(q) then Failed(MissingField)
    else
      var r := o.resolve(IdentityOf(k, q));
      if r.Unresolvable? then Failed(Unresolved(r.error))
      else
        var decided := if InNamespace(q, r) then ByRules(o.rules(PairOf(q)), AccessOf(q, r)) else None;
        if decided.Some? then decided.value else ByReview(o, q, r, ReviewOf(o, q, r).ReviewFailed?)
  }

  // ----- A batch -----

  datatype Prepared = Prepared(index: nat, query: Query, resolution: Resolution, key: Option<string>)

  /** The resolution cache after the first n queries. */
  function CacheAfter(k: Keys, o: Oracles, queries: seq<Query>, n: nat): map<string, Resolution>
    requires n <= |queries|
  {
    if n == 0 then map[]
    else
      var cache, q := CacheAfter(k, o, queries, n - 1), queries[n - 1];
      var key := k.resolution(IdentityOf(k, q));
      if !Complete(q) || key in cache then cache else cache[key := o.resolve(IdentityOf(k, q))]
  }

  /** The resolution query i is given: the one of the first query with its key. */
  function ResolutionOf(k: Keys, o: Oracles, queries: seq<Query>, i: nat): Resolution
    requires i < |queries| && Complete(queries[i])
  {
    CacheAfter(k, o, queries, i + 1)[k.resolution(IdentityOf(k, queries[i]))]
  }

  function Prepare(k: Keys, o: Oracles, queries: seq<Query>, i: nat): Option<Prepared>
    requires i < |queries|
  {
    if !Complete(queries[i]) then None
    else
      var r := ResolutionOf(k, o, queries, i);
      if r.Unresolvable? then None
      else Some(Prepared(i, queries[i], r, if InNamespace(queries[i], r) then Some(k.pair(PairOf(queries[i]))) else None))
  }

  function PrepareError(k: Keys, o: Oracles, queries: seq<Query>, i: nat): Verdict
    requires i < |queries| && Prepare(k, o, queries, i).None?
  {
    if !Complete(queries[i]) then Failed(MissingField) else Failed(Unresolved(ResolutionOf(k, o, queries, i).error))
  }

  /** The namespaces to fetch rules for after the first n queries: the last one of each key. */
  function FetchesAfter(k: Keys, o: Oracles, queries: seq<Query>, n: nat): map<string, Pair>
    requires n <= |queries|
  {
    if n == 0 then map[]
    else
      var fetches, p := FetchesAfter(k, o, queries, n - 1), Prepare(k, o, queries, n - 1);
      if p.Some? && p.value.key.Some? then fetches[p.value.key.value := PairOf(queries[n - 1])] else fetches
  }

  function RulesFor(o: Oracles, fetches: map<string, Pair>, key: string): Option<RuleStatus> {
    if key in fetches then o.rules(fetches[key]) else None
  }

  /** What the rules decide for a prepared query. */
  function Evaluate(o: Oracles, fetches: map<string, Pair>, p: Prepared): Option<Verdict>
    requires p.resolution.Resolved?
  {
    if p.key.None? then None else ByRules(RulesFor(o, fetches, p.key.value), AccessOf(p.query, p.resolution))
  }

  /** Query i is left to an access review. */
  predicate ToReview(k: Keys, o: Oracles, queries: seq<Query>, i: nat)
    requires i < |queries|
  {
    var p := Prepare(k, o, queries, i);
    p.Some? && Evaluate(o, FetchesAfter(k, o, queries, |queries|), p.value).None?
  }

  /** Every access review of the cluster in this batch fails. */
  ghost predicate AllReviewsFail(k: Keys, o: Oracles, queries: seq<Query>, cluster: string) {
    forall i | 0 <= i < |queries| && queries[i].cluster == cluster && ToReview(k, o, queries, i) ::
      ReviewOf(o, queries[i], ResolutionOf(k, o, queries, i)).ReviewFailed?
  }

  /** What a batch answers for query i. */
  ghost function BatchVerdict(k: Keys, o: Oracles, queries: seq<Query>, i: nat): Verdict
    requires i < |queries|
  {
    var p := Prepare(k, o, queries, i);
    if p.None? then PrepareError(k, o, queries, i)
    else
      var decided := Evaluate(o, FetchesAfter(k, o, queries, |queries|), p.value);
      if decided.Some? then decided.value
      else ByReview(o, queries[i], p.value.resolution, AllReviewsFail(k, o, queries, queries[i].cluster))
  }

  // ----- When sharing changes no answer -----

  /** No two complete queries of the batch share a key without asking about the same thing. */
  ghost predicate ResolutionKeysFaithful(k: Keys, queries: seq<Query>) {
    forall i, j | 0 <= i < |queries| && 0 <= j < |queries| && Complete(queries[i]) && Complete(queries[j])
      && k.resolution(IdentityOf(k, queries[i])) == k.resolution(IdentityOf(k, queries[j])) ::
      IdentityOf(k, queries[i]) == IdentityOf(k, queries[j])
  }

  predicate Namespaced(q: Query) {
    Complete(q) && q.namespace != ""
  }

  ghost predicate PairKeysFaithful(k: Keys, queries: seq<Query>) {
    forall i, j | 0 <= i < |queries| && 0 <= j < |queries| && Namespaced(queries[i]) && Namespaced(queries[j])
      && k.pair(PairOf(queries[i])) == k.pair(PairOf(queries[j])) ::
      PairOf(queries[i]) == PairOf(queries[j])
  }

  /** The same answer; a failed check may be worded for one check or for all of them. */
  predicate Agree(batch: Verdict, alone: Verdict) {
    batch == alone || (alone == Failed(AllChecksFailed) && batch.Failed? && batch.failure.CheckFailed?)
  }

  lemma {:induction false} CacheEntryFrom(k: Keys, o: Oracles, queries: seq<Query>, n: nat, key: string) returns (j: nat)
    requires n <= |queries| && key in CacheAfter(k, o, queries, n)
    ensures j < n && Complete(queries[j]) && k.resolution(IdentityOf(k, queries[j])) == key
    ensures CacheAfter(k, o, queries, n)[key] == o.resolve(IdentityOf(k, queries[j]))
  {
    if key in CacheAfter(k, o, queries, n - 1) {
      j := CacheEntryFrom(k, o, queries, n - 1, key);
    } else {
      j := n - 1;
    }
  }

  lemma {:induction false} FetchEntryFrom(k: Keys, o: Oracles, queries: seq<Query>, n: nat, key: string) returns (j: nat)
    requires n <= |queries| && key in FetchesAfter(k, o, queries, n)
    ensures j < n && Namespaced(queries[j]) && k.pair(PairOf(queries[j])) == key
    ensures FetchesAfter(k, o, queries, n)[key] == PairOf(queries[j])
  {
    var p := Prepare(k, o, queries, n - 1);
    if p.Some? && p.value.key == Some(key) {
      j := n - 1;
    } else {
      j := FetchEntryFrom(k, o, queries, n - 1, key);
    }
  }

  lemma {:induction false} FetchPresent(k: Keys, o: Oracles, queries: seq<Query>, i: nat, n: nat)
    requires i < n <= |queries| && Prepare(k, o, queries, i).Some? && Prepare(k, o, queries, i).value.key.Some?
    ensures Prepare(k, o, queries, i).value.key.value in FetchesAfter(k, o, queries, n)
  {
    if i < n - 1 {
      FetchPresent(k, o, queries, i, n - 1);
    }
  }

  lemma OwnResolution(k: Keys, o: Oracles, queries: seq<Query>, i: nat)
    requires ResolutionKeysFaithful(k, queries) && i < |queries| && Complete(queries[i])
    ensures ResolutionOf(k, o, queries, i) == o.resolve(IdentityOf(k, queries[i]))
  {
    var j := CacheEntryFrom(k, o, queries, i + 1, k.resolution(IdentityOf(k, queries[i])));
  }

  lemma OwnRules(k: Keys, o: Oracles, queries: seq<Query>, i: nat)
    requires PairKeysFaithful(k, queries) && i < |queries|
    requires Prepare(k, o, queries, i).Some? && Prepare(k, o, queries, i).value.key.Some?
    ensures RulesFor(o, FetchesAfter(k, o, queries, |queries|), Prepare(k, o, queries, i).value.key.value) == o.rules(PairOf(queries[i]))
  {
    FetchPresent(k, o, queries, i, |queries|);
    var j := FetchEntryFrom(k, o, queries, |queries|, Prepare(k, o, queries, i).value.key.value);
  }

  /** With faithful keys every query is answered as if it were alone in its batch. */
  lemma FaithfulBatchAgrees(k: Keys, o: Oracles, queries: seq<Query>, i: nat)
    requires ResolutionKeysFaithful(k, queries) && PairKeysFaithful(k, queries) && i < |queries|
    ensures Agree(BatchVerdict(k, o, queries, i), Alone(k, o, queries[i]))
  {
    if Complete(queries[i]) {
      OwnResolution(k, o, queries, i);
      var p := Prepare(k, o, queries, i);
      if p.Some? && p.value.key.Some? {
        OwnRules(k, o, queries, i);
      }
    }
  }

  lemma {:induction false} FirstOfKey(k: Keys, queries: seq<Query>, i: nat) returns (f: nat)
    requires i < |queries| && Complete(queries[i])
    ensures f <= i && Complete(queries[f]) && k.resolution(IdentityOf(k, queries[f])) == k.resolution(IdentityOf(k, queries[i]))
    ensures forall j | 0 <= j < f && Complete(queries[j]) ::
              k.resolution(IdentityOf(k, queries[j])) != k.resolution(IdentityOf(k, queries[i]))
  {
    f := i;
    if j :| 0 <= j < i && Complete(queries[j]) && k.resolution(IdentityOf(k, queries[j])) == k.resolution(IdentityOf(k, queries[i])) {
      f := FirstOfKey(k, queries, j);
    }
  }

  lemma {:induction false} FirstIsCached(k: Keys, o: Oracles, queries: seq<Query>, f: nat, n: nat)
    requires f < n <= |queries| && Complete(queries[f])
    requires forall j | 0 <= j < f && Complete(queries[j]) ::
              k.resolution(IdentityOf(k, queries[j])) != k.resolution(IdentityOf(k, queries[f]))
    ensures var key := k.resolution(IdentityOf(k, queries[f]));
            key in CacheAfter(k, o, queries, n) && CacheAfter(k, o, queries, n)[key] == o.resolve(IdentityOf(k, queries[f]))
  {
    if f < n - 1 {
      FirstIsCached(k, o, queries, f, n - 1);
    } else if k.resolution(IdentityOf(k, queries[f])) in CacheAfter(k, o, queries, f) {
      var j := CacheEntryFrom(k, o, queries, f, k.resolution(IdentityOf(k, queries[f])));
    }
  }

  /** Queries about different resources that share a key: some cluster tells them apart. */
  lemma SharedResolutionDiffers(k: Keys, queries: seq<Query>, i: nat, j: nat) returns (o: Oracles, t: nat)
    requires i < |queries| && j < |queries| && Complete(queries[i]) && Complete(queries[j])
    requires k.resolution(IdentityOf(k, queries[i])) == k.resolution(IdentityOf(k, queries[j]))
    requires IdentityOf(k, queries[i]) != IdentityOf(k, queries[j])
    ensures t < |queries| && !Agree(BatchVerdict(k, o, queries, t), Alone(k, o, queries[t]))
  {
    var f := FirstOfKey(k, queries, i);
    var first := IdentityOf(k, queries[f]);
    t := if IdentityOf(k, queries[i]) != first then i else j;
    o := Oracles(id => if id == first then Unresolvable("unknown") else Resolved("", "", false), _ => None, _ => true, (_, _, _) => Answered(true, ""));
    FirstIsCached(k, o, queries, f, t + 1);
    assert BatchVerdict(k, o, queries, t) == Failed(Unresolved("unknown"));
    assert Alone(k, o, queries[t]) == Reviewed(true, "");
  }

  lemma {:induction false} LastOfPair(k: Keys, queries: seq<Query>, i: nat, n: nat) returns (l: nat)
    requires i < n <= |queries| && Namespaced(queries[i])
    ensures i <= l < n && Namespaced(queries[l]) && k.pair(PairOf(queries[l])) == k.pair(PairOf(queries[i]))
    ensures forall j | l < j < n && Namespaced(queries[j]) :: k.pair(PairOf(queries[j])) != k.pair(PairOf(queries[i]))
    decreases n - i
  {
    l := i;
    if j :| i < j < n && Namespaced(queries[j]) && k.pair(PairOf(queries[j])) == k.pair(PairOf(queries[i])) {
      l := LastOfPair(k, queries, j, n);
    }
  }

  /** Oracles under which every complete query resolves to a namespaced resource. */
  ghost predicate AllNamespaced(o: Oracles) {
    forall id :: o.resolve(id) == Resolved("", "", true)
  }

  lemma NamespacedIsPrepared(k: Keys, o: Oracles, queries: seq<Query>, i: nat)
    requires AllNamespaced(o) && i < |queries| && Namespaced(queries[i])
    ensures Prepare(k, o, queries, i) == Some(Prepared(i, queries[i], Resolved("", "", true), Some(k.pair(PairOf(queries[i])))))
  {
    var j := CacheEntryFrom(k, o, queries, i + 1, k.resolution(IdentityOf(k, queries[i])));
  }

  lemma {:induction false} LastIsFetched(k: Keys, o: Oracles, queries: seq<Query>, l: nat, n: nat)
    requires AllNamespaced(o) && l < n <= |queries| && Namespaced(queries[l])
    requires forall j | l < j < n && Namespaced(queries[j]) :: k.pair(PairOf(queries[j])) != k.pair(PairOf(queries[l]))
    ensures var key := k.pair(PairOf(queries[l]));
            key in FetchesAfter(k, o, queries, n) && FetchesAfter(k, o, queries, n)[key] == PairOf(queries[l])
  {
    if l < n - 1 {
      LastIsFetched(k, o, queries, l, n - 1);
      if Prepare(k, o, queries, n - 1).Some? && Prepare(k, o, queries, n - 1).value.key.Some? {
        assert Namespaced(queries[n - 1]);
      }
    } else {
      NamespacedIsPrepared(k, o, queries, l);
    }
  }

  /** Namespaces that share a key: some rules tell them apart. */
  lemma SharedPairDiffers(k: Keys, queries: seq<Query>, i: nat, j: nat) returns (o: Oracles, t: nat)
    requires i < |queries| && j < |queries| && Namespaced(queries[i]) && Namespaced(queries[j])
    requires k.pair(PairOf(queries[i])) == k.pair(PairOf(queries[j])) && PairOf(queries[i]) != PairOf(queries[j])
    ensures t < |queries| && !Agree(BatchVerdict(k, o, queries, t), Alone(k, o, queries[t]))
  {
    var l := LastOfPair(k, queries, i, |queries|);
    var last := PairOf(queries[l]);
    t := if PairOf(queries[i]) != last then i else j;
    o := Oracles(_ => Resolved("", "", true), p => if p == last then Some(RuleStatus([], false)) else None, _ => true, (_, _, _) => Answered(true, ""));
    NamespacedIsPrepared(k, o, queries, t);
    LastIsFetched(k, o, queries, l, |queries|);
    assert BatchVerdict(k, o, queries, t) == RuleDenied;
    assert Alone(k, o, queries[t]) == Reviewed(true, "");
  }

  /** A batch answers every query as if it were alone, whatever the clusters answer, exactly when its
      queries share keys only with queries about the same resource type and namespace. */
  lemma BatchAgreesIffKeysFaithful(k: Keys, queries: seq<Query>)
    ensures ResolutionKeysFaithful(k, queries) && PairKeysFaithful(k, queries) <==>
            forall o: Oracles, i: nat | i < |queries| :: Agree(BatchVerdict(k, o, queries, i), Alone(k, o, queries[i]))
  {
    if ResolutionKeysFaithful(k, queries) && PairKeysFaithful(k, queries) {
      forall o: Oracles, i: nat | i < |queries| {
        FaithfulBatchAgrees(k, o, queries, i);
      }
    } else if !ResolutionKeysFaithful(k, queries) {
      var i, j :| 0 <= i < |queries| && 0 <= j < |queries| && Complete(queries[i]) && Complete(queries[j])
        && k.resolution(IdentityOf(k, queries[i])) == k.resolution(IdentityOf(k, queries[j]))
        && IdentityOf(k, queries[i]) != IdentityOf(k, queries[j]);
      var o, t := SharedResolutionDiffers(k, queries, i, j);
    } else {
      var i, j :| 0 <= i < |queries| && 0 <= j < |queries| && Namespaced(queries[i]) && Namespaced(queries[j])
        && k.pair(PairOf(queries[i])) == k.pair(PairOf(queries[j])) && PairOf(queries[i]) != PairOf(queries[j]);
      var o, t := SharedPairDiffers(k, queries, i, j);
    }
  }

  /** A batch of one is the query alone. */
  lemma SingletonIsAlone(k: Keys, o: Oracles, q: Query)
    ensures BatchVerdict(k, o, [q], 0) == Alone(k, o, q)
  {
    FaithfulBatchAgrees(k, o, [q], 0);
    if Complete(q) {
      OwnResolution(k, o, [q], 0);
    }
  }

  // ----- The keys of the code -----

  /** `permissionResolutionCacheKey`. */
  function JoinedResolutionKey(id: Identity): string {
    id.cluster + "|" + id.group + "|" + id.version + "|" + id.kind
  }

  /** The diagnostic key, which is also the key of the namespace's rules. */
  function JoinedPairKey(p: Pair): string {
    p.0 + "|" + p.1
  }

  lemma JoinCancels(a: string, b: string, x: string, y: string)
    requires a + "|" + x == b + "|" + y && '|' !in a && '|' !in b
    ensures a == b && x == y
  {
    var s := a + "|" + x;
    assert s[|a|] == '|' && s[|b|] == '|';
    assert forall i | 0 <= i < |a| :: s[i] == a[i] && a[i] in a;
    assert forall i | 0 <= i < |b| :: s[i] == b[i] && b[i] in b;
    assert |a| == |b|;
    assert s[..|a|] == a && s[..|b|] == b && s[|a| + 1..] == x && s[|b| + 1..] == y;
  }

  /** Keys are faithful as long as no cluster id, group or version contains the delimiter. */
  lemma PlainKeysFaithful(k: Keys, queries: seq<Query>)
    requires k.resolution == JoinedResolutionKey && k.pair == JoinedPairKey
    requires forall q | q in queries :: '|' !in q.cluster && '|' !in q.group && '|' !in q.version
    ensures ResolutionKeysFaithful(k, queries) && PairKeysFaithful(k, queries)
  {
    forall i, j | 0 <= i < |queries| && 0 <= j < |queries| && k.resolution(IdentityOf(k, queries[i])) == k.resolution(IdentityOf(k, queries[j]))
      ensures IdentityOf(k, queries[i]) == IdentityOf(k, queries[j])
    {
      assert queries[i] in queries && queries[j] in queries;
      PlainResolutionKey(IdentityOf(k, queries[i]), IdentityOf(k, queries[j]));
    }
    forall i, j | 0 <= i < |queries| && 0 <= j < |queries| && k.pair(PairOf(queries[i])) == k.pair(PairOf(queries[j]))
      ensures PairOf(queries[i]) == PairOf(queries[j])
    {
      assert queries[i] in queries && queries[j] in queries;
      JoinCancels(queries[i].cluster, queries[j].cluster, queries[i].namespace, queries[j].namespace);
    }
  }

  predicate PlainIdentity(id: Identity) {
    '|' !in id.cluster && '|' !in id.group && '|' !in id.version
  }

  lemma PlainResolutionKey(a: Identity, b: Identity)
    requires JoinedResolutionKey(a) == JoinedResolutionKey(b) && PlainIdentity(a) && PlainIdentity(b)
    ensures a == b
  {
    var x, y := a.version + "|" + a.kind, b.version + "|" + b.kind;
    assert JoinedResolutionKey(a) == a.cluster + "|" + (a.group + "|" + x);
    assert JoinedResolutionKey(b) == b.cluster + "|" + (b.group + "|" + y);
    JoinCancels(a.cluster, b.cluster, a.group + "|" + x, b.group + "|" + y);
    JoinCancels(a.group, b.group, x, y);
    JoinCancels(a.version, b.version, a.kind, b.kind);
  }

  lemma JoinCancelsRight(a: string, b: string, x: string, y: string)
    requires a + "|" + x == b + "|" + y && '|' !in x && '|' !in y
    ensures a == b && x == y
  {
    var s := a + "|" + x;
    assert s[|a|] == '|' && s[|b|] == '|';
    assert forall i | |a| < i < |s| :: s[i] == x[i - |a| - 1] && s[i] in x;
    assert forall i | |b| < i < |s| :: s[i] == y[i - |b| - 1] && s[i] in y;
    assert |a| == |b|;
    assert s[..|a|] == a && s[..|b|] == b && s[|a| + 1..] == x && s[|b| + 1..] == y;
  }

  /** And whatever the cluster ids are, as long as no namespace, group, version or lower-case kind
      contains the delimiter, as none that Kubernetes accepts does. */
  lemma PlainResourcesFaithful(k: Keys, queries: seq<Query>)
    requires k.resolution == JoinedResolutionKey && k.pair == JoinedPairKey
    requires forall q | q in queries :: '|' !in q.namespace && '|' !in q.group && '|' !in q.version && '|' !in k.lower(q.kind)
    ensures ResolutionKeysFaithful(k, queries) && PairKeysFaithful(k, queries)
  {
    forall i, j | 0 <= i < |queries| && 0 <= j < |queries| && k.resolution(IdentityOf(k, queries[i])) == k.resolution(IdentityOf(k, queries[j]))
      ensures IdentityOf(k, queries[i]) == IdentityOf(k, queries[j])
    {
      assert queries[i] in queries && queries[j] in queries;
      var a, b := IdentityOf(k, queries[i]), IdentityOf(k, queries[j]);
      JoinCancelsRight(a.cluster + "|" + a.group + "|" + a.version, b.cluster + "|" + b.group + "|" + b.version, a.kind, b.kind);
      JoinCancelsRight(a.cluster + "|" + a.group, b.cluster + "|" + b.group, a.version, b.version);
      JoinCancelsRight(a.cluster, b.cluster, a.group, b.group);
    }
    forall i, j | 0 <= i < |queries| && 0 <= j < |queries| && k.pair(PairOf(queries[i])) == k.pair(PairOf(queries[j]))
      ensures PairOf(queries[i]) == PairOf(queries[j])
    {
      assert queries[i] in queries && queries[j] in queries;
      JoinCancelsRight(queries[i].cluster, queries[j].cluster, queries[i].namespace, queries[j].namespace);
    }
  }

  /** A delimiter inside a cluster id and one inside another query's namespace or group can make the
      two share a key. */
  lemma DelimitersCollide()
    ensures JoinedPairKey(("a|b", "c")) == JoinedPairKey(("a", "b|c"))
    ensures JoinedResolutionKey(Identity("a|b", "c", "v1", "x")) == JoinedResolutionKey(Identity("a", "b|c", "v1", "x"))
  {
    assert "a|b" + "|" + "c" == "a" + "|" + "b|c";
  }

  // ----- Soundness and counts -----

  /** What one query comes to, read off its own fields: the verb, resolved group, resource with subresource
      and name are what a rule has to cover and what a review is asked about. */
  lemma AloneByFields(k: Keys, o: Oracles, q: Query)
    ensures var r := o.resolve(Identity(q.cluster, q.group, q.version, k.lower(q.kind)));
            var rules := o.rules((q.cluster, q.namespace));
            Alone(k, o, q) ==
            if q.id == "" || q.verb == "" || q.kind == "" || q.cluster == "" then Failed(MissingField)
            else if r.Unresolvable? then Failed(Unresolved(r.error))
            else
              var combined := if q.subresource == "" then r.resource else r.resource + "/" + q.subresource;
              var answer := o.review(q.cluster, Access(r.group, r.resource, q.verb, q.subresource, q.name), if r.namespaced then q.namespace else "");
              var useRules := r.namespaced && q.namespace != "" && rules.Some?;
              if useRules && (exists rule ::
                                 && rule in rules.value.rules
                                 && ("*" in rule.verbs || q.verb in rule.verbs)
                                 && ("*" in rule.groups || r.group in rule.groups)
                                 && ("*" in rule.resources || combined in rule.resources || (q.subresource != "" && "*/" + q.subresource in rule.resources))
                                 && (rule.names == [] || (q.name != "" && q.name in rule.names)))
              then RuleAllowed
              else if useRules && !rules.value.incomplete then RuleDenied
              else if !o.available(q.cluster) then Failed(Unavailable)
              else if answer.ReviewFailed? then Failed(AllChecksFailed)
              else Reviewed(answer.allowed, answer.reason)
  {
  }

  /** In a batch, the rules fetched for a namespaced query allow it exactly when one of them covers its own
      verb, resolved group, resource with subresource, and name; they deny it only when they are complete
      and none does; and they leave it to a review when they could not be fetched or are incomplete. */
  lemma RulesDecideSoundly(k: Keys, o: Oracles, queries: seq<Query>, i: nat)
    requires i < |queries| && Complete(queries[i])
    requires ResolutionOf(k, o, queries, i).Resolved? && ResolutionOf(k, o, queries, i).namespaced && queries[i].namespace != ""
    ensures var q, r := queries[i], ResolutionOf(k, o, queries, i);
            var combined := if q.subresource == "" then r.resource else r.resource + "/" + q.subresource;
            var rules := RulesFor(o, FetchesAfter(k, o, queries, |queries|), k.pair((q.cluster, q.namespace)));
            var covered := rules.Some? && (exists rule ::
                                             && rule in rules.value.rules
                                             && ("*" in rule.verbs || q.verb in rule.verbs)
                                             && ("*" in rule.groups || r.group in rule.groups)
                                             && ("*" in rule.resources || combined in rule.resources || (q.subresource != "" && "*/" + q.subresource in rule.resources))
                                             && (rule.names == [] || (q.name != "" && q.name in rule.names)));
            && (BatchVerdict(k, o, queries, i) == RuleAllowed <==> covered)
            && (BatchVerdict(k, o, queries, i) == RuleDenied <==> rules.Some? && !rules.value.incomplete && !covered)
            && (ToReview(k, o, queries, i) <==> rules.None? || (rules.value.incomplete && !covered))
  {
  }

  /** A review is asked about exactly the query's own cluster, verb, subresource and name, the resolved
      group and resource, and the namespace if the resource has one; its answer is the query's. */
  lemma ReviewsAskTheQuery(k: Keys, o: Oracles, queries: seq<Query>, i: nat)
    requires i < |queries| && ToReview(k, o, queries, i)
    ensures ResolutionOf(k, o, queries, i).Resolved?
    ensures var q, r := queries[i], ResolutionOf(k, o, queries, i);
            var answer := o.review(q.cluster, Access(r.group, r.resource, q.verb, q.subresource, q.name), if r.namespaced then q.namespace else "");
            && (AllReviewsFail(k, o, queries, q.cluster) ==> answer.ReviewFailed?)
            && BatchVerdict(k, o, queries, i) ==
               if !o.available(q.cluster) then Failed(Unavailable)
               else if AllReviewsFail(k, o, queries, q.cluster) then Failed(AllChecksFailed)
               else if answer.Answered? then Reviewed(answer.allowed, answer.reason)
               else Failed(CheckFailed(answer.error))
  {
  }

  function CountWhere(p: int -> bool, n: nat): nat {
    if n == 0 then 0 else CountWhere(p, n - 1) + if p(n - 1) then 1 else 0
  }

  /** How many of the first n queries are counted under a key, .. */
  function Checks(k: Keys, o: Oracles, queries: seq<Query>, n: nat, key: string): nat {
    CountWhere(i => 0 <= i < |queries| && KeyedBy(k, o, queries, i, key), n)
  }

  /** .. and how many of those fall back to a review. */
  function Fallbacks(k: Keys, o: Oracles, queries: seq<Query>, n: nat, key: string): nat {
    CountWhere(i => 0 <= i < |queries| && KeyedBy(k, o, queries, i, key) && ToReview(k, o, queries, i), n)
  }

  predicate KeyedBy(k: Keys, o: Oracles, queries: seq<Query>, i: nat, key: string)
    requires i < |queries|
  {
    Prepare(k, o, queries, i).Some? && Prepare(k, o, queries, i).value.key == Some(key)
  }

  /** A query is counted under the key of its own cluster and namespace, if its resource has one. */
  lemma KeyedMeaning(k: Keys, o: Oracles, queries: seq<Query>, i: nat, key: string)
    requires i < |queries|
    ensures KeyedBy(k, o, queries, i, key) <==>
            && Complete(queries[i]) && ResolutionOf(k, o, queries, i).Resolved? && ResolutionOf(k, o, queries, i).namespaced
            && queries[i].namespace != "" && k.pair((queries[i].cluster, queries[i].namespace)) == key
  {
  }

  lemma {:induction false} CountIsSize(p: int -> bool, n: nat)
    ensures CountWhere(p, n) == |set i | 0 <= i < n && p(i)|
  {
    if n > 0 {
      CountIsSize(p, n - 1);
      var before := set i | 0 <= i < n - 1 && p(i);
      assert (set i | 0 <= i < n && p(i)) == if p(n - 1) then before + {n - 1} else before;
    }
  }

  /** The counts of a key are the numbers of queries counted under it and of those left to a review. */
  lemma CountsMeaning(k: Keys, o: Oracles, queries: seq<Query>, key: string)
    ensures Checks(k, o, queries, |queries|, key) == |set i | 0 <= i < |queries| && KeyedBy(k, o, queries, i, key)|
    ensures Fallbacks(k, o, queries, |queries|, key) ==
            |set i | 0 <= i < |queries| && KeyedBy(k, o, queries, i, key) && ToReview(k, o, queries, i)|
  {
    var p := i => 0 <= i < |queries| && KeyedBy(k, o, queries, i, key);
    var q := i => 0 <= i < |queries| && KeyedBy(k, o, queries, i, key) && ToReview(k, o, queries, i);
    CountIsSize(p, |queries|);
    CountIsSize(q, |queries|);
    assert (set i | 0 <= i < |queries| && p(i)) == set i | 0 <= i < |queries| && KeyedBy(k, o, queries, i, key);
    assert (set i | 0 <= i < |queries| && q(i)) == set i | 0 <= i < |queries| && KeyedBy(k, o, queries, i, key) && ToReview(k, o, queries, i);
  }

  datatype Diagnostic = Diagnostic(checks: nat, fallbacks: nat)

  function DiagnosticOf(diagnostics: map<string, Diagnostic>, key: string): Diagnostic {
    if key in diagnostics then diagnostics[key] else Diagnostic(0, 0)
  }

  /** The queries of one cluster left to a review, in order. */
  function Reviews(k: Keys, o: Oracles, queries: seq<Query>, n: nat, cluster: string): seq<nat>
    requires n <= |queries|
  {
    if n == 0 then []
    else
      Reviews(k, o, queries, n - 1, cluster)
      + if ToReview(k, o, queries, n - 1) && queries[n - 1].cluster == cluster then [n - 1] else []
  }

  function ReviewsOf(reviews: map<string, seq<nat>>, cluster: string): seq<nat> {
    if cluster in reviews then reviews[cluster] else []
  }

  lemma {:induction false} ReviewsMembers(k: Keys, o: Oracles, queries: seq<Query>, n: nat, cluster: string, i: nat)
    requires n <= |queries|
    ensures i in Reviews(k, o, queries, n, cluster) <==> i < n && ToReview(k, o, queries, i) && queries[i].cluster == cluster
  {
    if n > 0 {
      ReviewsMembers(k, o, queries, n - 1, cluster, i);
    }
  }

  ghost predicate Increasing(r: seq<nat>, n: nat) {
    (forall a, b | 0 <= a < b < |r| :: r[a] < r[b]) && forall a | 0 <= a < |r| :: r[a] < n
  }

  lemma {:induction false} ReviewsIncrease(k: Keys, o: Oracles, queries: seq<Query>, n: nat, cluster: string)
    requires n <= |queries|
    ensures Increasing(Reviews(k, o, queries, n, cluster), n)
  {
    if n > 0 {
      ReviewsIncrease(k, o, queries, n - 1, cluster);
      var earlier, r := Reviews(k, o, queries, n - 1, cluster), Reviews(k, o, queries, n, cluster);
      assert r == earlier || r == earlier + [n - 1];
    }
  }

  // ----- The batch as it runs -----

  /** What is settled after preparation, .. */
  function Stage1(k: Keys, o: Oracles, queries: seq<Query>, i: nat): Option<Verdict>
    requires i < |queries|
  {
    if Prepare(k, o, queries, i).None? then Some(PrepareError(k, o, queries, i)) else None
  }

  /** .. and after the rules were consulted. */
  ghost function Stage2(k: Keys, o: Oracles, queries: seq<Query>, i: nat): Option<Verdict>
    requires i < |queries|
  {
    if ToReview(k, o, queries, i) then None else Some(BatchVerdict(k, o, queries, i))
  }

  class PermissionQueryBatch {
    const k: Keys
    const o: Oracles
    const queries: seq<Query>
    var results: seq<Option<Verdict>>
    var cache: map<string, Resolution>
    var prepared: seq<Option<Prepared>>          // None in place of a query that failed to prepare
    var fetches: map<string, Pair>
    var reviews: map<string, seq<nat>>
    var diagnostics: map<string, Diagnostic>

    constructor (k: Keys, o: Oracles, queries: seq<Query>)
      ensures this.k == k && this.o == o && this.queries == queries
      ensures results == seq(|queries|, _ => None) && prepared == [] && cache == map[] && fetches == map[]
      ensures reviews == map[] && diagnostics == map[]
    {
      this.k, this.o, this.queries := k, o, queries;
      results, prepared := seq(|queries|, _ => None), [];
      cache, fetches, reviews, diagnostics := map[], map[], map[], map[];
    }

    /** A query is settled once: every caller has to show that it is not settled yet. */
    method Settle(i: nat, v: Verdict)
      requires i < |results| && results[i].None?
      modifies `results
      ensures results == old(results)[i := Some(v)]
    {
      results := results[i := Some(v)];
    }

    method ResolveCached(q: Query) returns (r: Resolution)
      modifies `cache
      ensures var key := k.resolution(IdentityOf(k, q));
              && cache == (if key in old(cache) then old(cache) else old(cache)[key := o.resolve(IdentityOf(k, q))])
              && r == cache[key]
    {
      var key := k.resolution(IdentityOf(k, q));
      if key in cache {
        return cache[key];
      }
      r := o.resolve(IdentityOf(k, q));
      cache := cache[key := r];
    }

    method RegisterPrepared(i: nat, q: Query, r: Resolution) returns (p: Prepared)
      requires r.Resolved?
      modifies `fetches, `diagnostics
      ensures p == Prepared(i, q, r, if InNamespace(q, r) then Some(k.pair(PairOf(q))) else None)
      ensures fetches == if p.key.Some? then old(fetches)[p.key.value := PairOf(q)] else old(fetches)
      ensures forall key :: DiagnosticOf(diagnostics, key) ==
                            var was := DiagnosticOf(old(diagnostics), key); if p.key == Some(key) then was.(checks := was.checks + 1) else was
    {
      p := Prepared(i, q, r, None);
      if r.namespaced && q.namespace != "" {
        var key := k.pair(PairOf(q));
        p := p.(key := Some(key));
        var diagnostic := DiagnosticOf(diagnostics, key);
        diagnostics := diagnostics[key := diagnostic.(checks := diagnostic.checks + 1)];
        fetches := fetches[key := PairOf(q)];
      }
    }

    /** `preparePermissionQuery`: the prepared query without its key, or why there is none. */
    method PrepareQuery(i: nat) returns (r: Resolution, failure: Option<Failure>)
      requires i < |queries| && cache == CacheAfter(k, o, queries, i)
      modifies `cache
      ensures cache == CacheAfter(k, o, queries, i + 1)
      ensures failure.Some? <==> Prepare(k, o, queries, i).None?
      ensures failure.Some? ==> Failed(failure.value) == PrepareError(k, o, queries, i)
      ensures failure.None? ==> r.Resolved? && r == Prepare(k, o, queries, i).value.resolution
    {
      var q := queries[i];
      if !Complete(q) {
        return Unresolvable(""), Some(MissingField);
      }
      r := ResolveCached(q);
      failure := if r.Unresolvable? then Some(Unresolved(r.error)) else None;
    }

    ghost predicate Shared(n: nat)
      reads this
    {
      && n <= |queries|
      && cache == CacheAfter(k, o, queries, n) && fetches == FetchesAfter(k, o, queries, n)
      && (forall key :: DiagnosticOf(diagnostics, key) == Diagnostic(Checks(k, o, queries, n, key), 0))
    }

    ghost predicate PreparedUpTo(n: nat)
      reads this
    {
      && n <= |queries| == |results| && |prepared| == n
      && (forall i | 0 <= i < n :: results[i] == Stage1(k, o, queries, i))
      && (forall i | n <= i < |queries| :: results[i] == None)
      && (forall i | 0 <= i < n :: prepared[i] == Prepare(k, o, queries, i))
    }

    method PreparePermissionQueries()
      requires PreparedUpTo(0) && Shared(0)
      modifies `results, `cache, `prepared, `fetches, `diagnostics
      ensures PreparedUpTo(|queries|) && Shared(|queries|)
    {
      for i := 0 to |queries|
        invariant PreparedUpTo(i) && Shared(i)
      {
        var r, failure := PrepareQuery(i);
        if failure.Some? {
          FailQuery(i, failure.value);
        } else {
          KeepQuery(i, r);
        }
      }
    }

    method FailQuery(i: nat, failure: Failure)
      requires PreparedUpTo(i) && i < |queries| && Prepare(k, o, queries, i).None? && Failed(failure) == PrepareError(k, o, queries, i)
      modifies `results, `prepared
      ensures PreparedUpTo(i + 1)
    {
      Settle(i, Failed(failure));
      prepared := prepared + [None];
    }

    method KeepQuery(i: nat, r: Resolution)
      requires PreparedUpTo(i) && i < |queries| && Prepare(k, o, queries, i).Some?
      requires r.Resolved? && r == Prepare(k, o, queries, i).value.resolution && fetches == FetchesAfter(k, o, queries, i)
      requires forall key :: DiagnosticOf(diagnostics, key) == Diagnostic(Checks(k, o, queries, i, key), 0)
      modifies `prepared, `fetches, `diagnostics
      ensures PreparedUpTo(i + 1) && fetches == FetchesAfter(k, o, queries, i + 1)
      ensures forall key :: DiagnosticOf(diagnostics, key) == Diagnostic(Checks(k, o, queries, i + 1, key), 0)
    {
      var p := RegisterPrepared(i, queries[i], r);
      assert Some(p) == Prepare(k, o, queries, i);
      prepared := prepared + [Some(p)];
    }

    /** The rules of every namespace to fetch; one call each. */
    method FetchRules() returns (rules: map<string, Option<RuleStatus>>)
      ensures rules == map key | key in fetches :: o.rules(fetches[key])
    {
      rules := map[];
      var rest := fetches.Keys;
      while rest != {}
        invariant rest <= fetches.Keys
        invariant rules == map key | key in fetches && key !in rest :: o.rules(fetches[key])
      {
        var key :| key in rest;
        rules := rules[key := o.rules(fetches[key])];
        rest := rest - {key};
      }
    }

    ghost predicate ResultsEvaluated(n: nat)
      reads this
    {
      && n <= |queries| == |results|
      && (forall i | 0 <= i < n :: results[i] == Stage2(k, o, queries, i))
      && (forall i | n <= i < |queries| :: results[i] == Stage1(k, o, queries, i))
    }

    ghost predicate ReviewsCollected(n: nat)
      reads this
    {
      && n <= |queries|
      && (forall c :: ReviewsOf(reviews, c) == Reviews(k, o, queries, n, c))
      && (forall key :: DiagnosticOf(diagnostics, key) == Diagnostic(Checks(k, o, queries, |queries|, key), Fallbacks(k, o, queries, n, key)))
    }

    method EnqueueReview(p: Prepared)
      modifies `reviews
      ensures forall c :: ReviewsOf(reviews, c) == ReviewsOf(old(reviews), c) + if c == p.query.cluster then [p.index] else []
    {
      reviews := reviews[p.query.cluster := ReviewsOf(reviews, p.query.cluster) + [p.index]];
    }

    method CountFallback(key: Option<string>)
      modifies `diagnostics
      ensures forall d :: DiagnosticOf(diagnostics, d) ==
                          var was := DiagnosticOf(old(diagnostics), d); if key == Some(d) then was.(fallbacks := was.fallbacks + 1) else was
    {
      if key.Some? {
        var was := DiagnosticOf(diagnostics, key.value);
        diagnostics := diagnostics[key.value := was.(fallbacks := was.fallbacks + 1)];
      }
    }

    /** What the fetched rules decide; only a decision settles the query. */
    method DecideByRules(p: Prepared, rules: map<string, Option<RuleStatus>>) returns (decided: Option<Verdict>)
      requires p.resolution.Resolved? && rules == map key | key in fetches :: o.rules(fetches[key])
      ensures decided == Evaluate(o, fetches, p)
    {
      if p.key.None? {
        return None;
      }
      var fetched := if p.key.value in rules then rules[p.key.value] else None;
      if fetched.None? {
        return None;
      }
      var matches := MatchRules(fetched.value.rules, AccessOf(p.query, p.resolution));
      if matches {
        return Some(RuleAllowed);
      }
      if !fetched.value.incomplete {
        return Some(RuleDenied);
      }
      decided := None;
    }

    method EvaluatePermissionQueries(rules: map<string, Option<RuleStatus>>)
      requires PreparedUpTo(|queries|) && Shared(|queries|) && reviews == map[]
      requires rules == map key | key in fetches :: o.rules(fetches[key])
      modifies `results, `reviews, `diagnostics
      ensures ResultsEvaluated(|queries|) && ReviewsCollected(|queries|)
    {
      for i := 0 to |queries|
        invariant ResultsEvaluated(i) && ReviewsCollected(i)
      {
        if prepared[i].Some? {
          EvaluateOne(i, prepared[i].value, rules);
        } else {
          NothingToEvaluate(i);
        }
      }
    }

    lemma NothingToEvaluate(i: nat)
      requires i < |queries| && ResultsEvaluated(i) && ReviewsCollected(i) && Prepare(k, o, queries, i).None?
      ensures ResultsEvaluated(i + 1) && ReviewsCollected(i + 1)
    {
    }

    method EvaluateOne(i: nat, p: Prepared, rules: map<string, Option<RuleStatus>>)
      requires i < |queries| && ResultsEvaluated(i) && ReviewsCollected(i) && Prepare(k, o, queries, i) == Some(p)
      requires fetches == FetchesAfter(k, o, queries, |queries|) && rules == map key | key in fetches :: o.rules(fetches[key])
      modifies `results, `reviews, `diagnostics
      ensures ResultsEvaluated(i + 1) && ReviewsCollected(i + 1)
    {
      var decided := DecideByRules(p, rules);
      if decided.Some? {
        Settle(i, decided.value);
        NothingToReview(i);
      } else {
        LeaveToReview(i, p);
      }
    }

    lemma NothingToReview(i: nat)
      requires i < |queries| && ReviewsCollected(i) && !ToReview(k, o, queries, i)
      ensures ReviewsCollected(i + 1)
    {
    }

    method LeaveToReview(i: nat, p: Prepared)
      requires i < |queries| && ReviewsCollected(i) && Prepare(k, o, queries, i) == Some(p) && ToReview(k, o, queries, i)
      modifies `reviews, `diagnostics
      ensures ReviewsCollected(i + 1)
    {
      CountFallback(p.key);
      EnqueueReview(p);
    }

    /** Everything is settled but the reviews of the clusters in `rest`. */
    ghost predicate SettledBut(rest: set<string>)
      reads this
    {
      && |results| == |queries|
      && forall i | 0 <= i < |queries| ::
           results[i] == if ToReview(k, o, queries, i) && queries[i].cluster in rest then None else Some(BatchVerdict(k, o, queries, i))
    }

    method SettleAll(items: seq<nat>, verdicts: seq<Verdict>)
      requires |items| == |verdicts| && Increasing(items, |results|) && forall a | 0 <= a < |items| :: results[items[a]].None?
      modifies `results
      ensures |results| == |old(results)|
      ensures forall a | 0 <= a < |items| :: results[items[a]] == Some(verdicts[a])
      ensures forall i | 0 <= i < |results| && i !in items :: results[i] == old(results)[i]
    {
      for j := 0 to |items|
        invariant |results| == |old(results)|
        invariant forall a | 0 <= a < j :: results[items[a]] == Some(verdicts[a])
        invariant forall a | j <= a < |items| :: results[items[a]].None?
        invariant forall i | 0 <= i < |results| && i !in items :: results[i] == old(results)[i]
      {
        Settle(items[j], verdicts[j]);
      }
    }

    /** The reviews of one cluster: unavailable, all failed, or one answer each. */
    method ExecuteReviews(cluster: string, items: seq<nat>) returns (verdicts: seq<Verdict>)
      requires |prepared| == |queries| && forall i | 0 <= i < |queries| :: prepared[i] == Prepare(k, o, queries, i)
      requires items == Reviews(k, o, queries, |queries|, cluster)
      ensures |verdicts| == |items|
      ensures forall a | 0 <= a < |items| :: items[a] < |queries| && verdicts[a] == BatchVerdict(k, o, queries, items[a])
    {
      ReviewsIncrease(k, o, queries, |queries|, cluster);
      forall a | 0 <= a < |items| ensures ToReview(k, o, queries, items[a]) && queries[items[a]].cluster == cluster {
        ReviewsMembers(k, o, queries, |queries|, cluster, items[a]);
      }
      if !o.available(cluster) {
        return seq(|items|, _ => Failed(Unavailable));
      }
      var answers, failures := [], 0;
      for a := 0 to |items|
        invariant |answers| == a && 0 <= failures <= a
        invariant forall b | 0 <= b < a :: answers[b] == ReviewOf(o, queries[items[b]], ResolutionOf(k, o, queries, items[b]))
        invariant failures == a <==> forall b | 0 <= b < a :: answers[b].ReviewFailed?
      {
        var p := prepared[items[a]].value;
        var answer := o.review(cluster, AccessOf(p.query, p.resolution), ReviewNamespace(p.query, p.resolution));
        answers := answers + [answer];
        failures := failures + if answer.ReviewFailed? then 1 else 0;
      }
      AllFailedIff(cluster, items, answers);
      if failures == |items| {
        return seq(|items|, _ => Failed(AllChecksFailed));
      }
      verdicts := seq(|items|, a requires 0 <= a < |items| => if answers[a].Answered? then Reviewed(answers[a].allowed, answers[a].reason) else Failed(CheckFailed(answers[a].error)));
    }

    lemma AllFailedIff(cluster: string, items: seq<nat>, answers: seq<Review>)
      requires items == Reviews(k, o, queries, |queries|, cluster) && |answers| == |items|
      requires forall a | 0 <= a < |items| ::
                 && items[a] < |queries| && ToReview(k, o, queries, items[a])
                 && answers[a] == ReviewOf(o, queries[items[a]], ResolutionOf(k, o, queries, items[a]))
      ensures AllReviewsFail(k, o, queries, cluster) <==> forall a | 0 <= a < |items| :: answers[a].ReviewFailed?
    {
      if forall a | 0 <= a < |items| :: answers[a].ReviewFailed? {
        forall i | 0 <= i < |queries| && queries[i].cluster == cluster && ToReview(k, o, queries, i)
          ensures ReviewOf(o, queries[i], ResolutionOf(k, o, queries, i)).ReviewFailed?
        {
          ReviewsMembers(k, o, queries, |queries|, cluster, i);
          var a :| 0 <= a < |items| && items[a] == i;
          assert answers[a].ReviewFailed?;
        }
      }
      forall a | 0 <= a < |items| ensures queries[items[a]].cluster == cluster {
        ReviewsMembers(k, o, queries, |queries|, cluster, items[a]);
      }
    }

    method ExecuteReviewBatches()
      requires |prepared| == |queries| && forall i | 0 <= i < |queries| :: prepared[i] == Prepare(k, o, queries, i)
      requires ResultsEvaluated(|queries|) && ReviewsCollected(|queries|)
      modifies `results
      ensures SettledBut({})
    {
      var rest := reviews.Keys;
      forall i | 0 <= i < |queries| && ToReview(k, o, queries, i) ensures queries[i].cluster in rest {
        ReviewsMembers(k, o, queries, |queries|, queries[i].cluster, i);
      }
      while rest != {}
        invariant rest <= reviews.Keys && SettledBut(rest)
      {
        var cluster :| cluster in rest;
        ExecuteCluster(cluster, reviews[cluster], rest);
        rest := rest - {cluster};
      }
    }

    /** `executeSSARFallback`. */
    method ExecuteCluster(cluster: string, items: seq<nat>, ghost rest: set<string>)
      requires |prepared| == |queries| && forall i | 0 <= i < |queries| :: prepared[i] == Prepare(k, o, queries, i)
      requires items == Reviews(k, o, queries, |queries|, cluster) && SettledBut(rest) && cluster in rest
      modifies `results
      ensures SettledBut(rest - {cluster})
    {
      ReviewsIncrease(k, o, queries, |queries|, cluster);
      forall i | 0 <= i < |queries| ensures i in items <==> ToReview(k, o, queries, i) && queries[i].cluster == cluster {
        ReviewsMembers(k, o, queries, |queries|, cluster, i);
      }
      assert forall a | 0 <= a < |items| :: items[a] in items && results[items[a]].None?;
      var verdicts := ExecuteReviews(cluster, items);
      SettleAll(items, verdicts);
      forall i | 0 <= i < |queries|
        ensures results[i] == if ToReview(k, o, queries, i) && queries[i].cluster in rest - {cluster} then None else Some(BatchVerdict(k, o, queries, i))
      {
        if i in items {
          var a :| 0 <= a < |items| && items[a] == i;
          assert results[items[a]] == Some(verdicts[a]);
        } else {
          assert results[i] == old(results)[i];
        }
      }
    }

    /** `QueryPermissions`: every query is settled, exactly once, with what the batch answers for it, and
        the counts of every key are the numbers of its queries and of its fallbacks. */
    method QueryPermissions()
      requires results == seq(|queries|, _ => None) && prepared == [] && cache == map[] && fetches == map[]
      requires reviews == map[] && diagnostics == map[]
      modifies this
      ensures |results| == |queries|
      ensures forall i | 0 <= i < |queries| :: results[i] == Some(BatchVerdict(k, o, queries, i))
      ensures forall key :: DiagnosticOf(diagnostics, key) ==
                            Diagnostic(Checks(k, o, queries, |queries|, key), Fallbacks(k, o, queries, |queries|, key))
    {
      PreparePermissionQueries();
      var rules := FetchRules();
      EvaluatePermissionQueries(rules);
      ExecuteReviewBatches();
    }
  }
}
