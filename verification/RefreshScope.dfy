/**
 Cluster scopes of refresh requests (backend/refresh/scope.go): `cluster|scope`, where the cluster part
 may be a comma-separated list.
 */
module RefreshScope {
  import opened Strings

  /** `strings.Split(s, ",")`. */
  function SplitAt(s: string, c: char): (parts: seq<string>)
    ensures |parts| >= 1
    ensures c !in s ==> parts == [s]
    decreases |s|
  {
    var i := IndexOf(s, c);
    if i == |s| then [s] else [s[..i]] + SplitAt(s[i + 1..], c)
  }

  function SplitClusterScope(raw: string): (string, string) {
    var trimmed := TrimSpace(raw);
    var i := IndexOf(trimmed, '|');
    if i < |trimmed| && TrimSpace(trimmed[..i]) != "" then (TrimSpace(trimmed[..i]), TrimSpace(trimmed[i + 1..]))
    else ("", trimmed)
  }

  const PREFIX := "clusters="

  function WithoutPrefix(s: string): string {
    if PREFIX <= s then TrimSpace(s[|PREFIX|..]) else s
  }

  /** The distinct non-empty strings among the first n, in order. */
  function Distinct(ids: seq<string>, n: nat): seq<string>
    requires n <= |ids|
  {
    if n == 0 then []
    else
      var earlier, id := Distinct(ids, n - 1), ids[n - 1];
      if id == "" || id in earlier then earlier else earlier + [id]
  }

  function AllTrimmed(parts: seq<string>): seq<string> {
    seq(|parts|, i requires 0 <= i < |parts| => TrimSpace(parts[i]))
  }

  function ClusterList(raw: string): seq<string> {
    var ids := AllTrimmed(SplitAt(WithoutPrefix(TrimSpace(raw)), ','));
    Distinct(ids, |ids|)
  }

  method ParseClusterList(raw: string) returns (ids: seq<string>)
    ensures ids == ClusterList(raw)
  {
    ids := CollectDistinct(SplitAt(WithoutPrefix(TrimSpace(raw)), ','));
  }

  /** The loop of `parseClusterList`. */
  method CollectDistinct(parts: seq<string>) returns (ids: seq<string>)
    ensures ids == Distinct(AllTrimmed(parts), |parts|)
  {
    ids := [];
    ghost var trimmed := AllTrimmed(parts);
    for i := 0 to |parts|
      invariant ids == Distinct(trimmed, i)
    {
      var id := TrimSpace(parts[i]);
      assert id == trimmed[i];
      if id != "" && id !in ids {
        ids := ids + [id];
      }
    }
  }

  function SplitClusterScopeList(raw: string): (seq<string>, string) {
    var (token, scope) := SplitClusterScope(raw);
    (if IsBlank(token) then [] else ClusterList(token), scope)
  }

  function JoinClusterScope(cluster: string, scope: string): string {
    var id, value := TrimSpace(cluster), TrimSpace(scope);
    if id == "" then value else id + "|" + value
  }

  /** A cluster id that a scope can carry alone. */
  predicate Plain(id: string) {
    id != "" && IsTrimmed(id) && '|' !in id && ',' !in id && !(PREFIX <= id)
  }

  lemma {:induction false} JoinedIsTrimmed(id: string, value: string)
    requires id != "" && IsTrimmed(id) && IsTrimmed(value)
    ensures IsTrimmed(id + "|" + value)
  {
    var joined := id + "|" + value;
    assert joined[0] == id[0];
    assert joined[|joined| - 1] == if value == "" then '|' else value[|value| - 1];
  }

  lemma SplitJoinedToken(token: string, value: string)
    requires token != "" && IsTrimmed(token) && '|' !in token && IsTrimmed(value)
    ensures SplitClusterScope(token + "|" + value) == (token, value)
  {
    var joined := token + "|" + value;
    JoinedIsTrimmed(token, value);
    IndexOfFirst(token, value, '|');
    assert joined[..|token|] == token && joined[|token| + 1..] == value;
  }

  lemma {:induction false} ListOfOne(id: string)
    requires Plain(id)
    ensures ClusterList(id) == [id]
  {
    assert WithoutPrefix(TrimSpace(id)) == id;
    var parts := SplitAt(id, ',');
    assert parts == [id];
    assert AllTrimmed(parts) == parts;
    assert Distinct(parts, 0) == [] && Distinct(parts, 1) == [id];
  }

  /** Splitting a joined scope returns the cluster alone and the trimmed scope, empty ones included. */
  lemma {:induction false} SplitUndoesJoin(id: string, scope: string)
    requires Plain(id)
    ensures SplitClusterScopeList(JoinClusterScope(id, scope)).0 == [id]
    ensures SplitClusterScopeList(JoinClusterScope(id, scope)).1 == TrimSpace(scope)
  {
    SplitJoinedToken(id, TrimSpace(scope));
    ListOfOne(id);
  }

  // ----- Which targets survive being joined into a scope again -----

  lemma {:induction false} TrimKeepsChars(s: string)
    ensures forall c | c in TrimSpace(s) :: c in s
  {
    var left := TrimLeft(s);
    assert forall c | c in left :: c in s;
    assert TrimSpace(s) == left[..|TrimSpace(s)|];
  }

  lemma {:induction false} PartsAreFree(s: string, d: char, i: nat)
    requires i < |SplitAt(s, d)|
    ensures d !in SplitAt(s, d)[i] && |SplitAt(s, d)[i]| <= |s| && forall c | c in SplitAt(s, d)[i] :: c in s
    decreases |s|
  {
    var j := IndexOf(s, d);
    if i > 0 {
      PartsAreFree(s[j + 1..], d, i - 1);
    }
  }

  /** The listed clusters are the distinct trimmed parts that are not empty, .. */
  lemma {:induction false} DistinctMember(ids: seq<string>, n: nat, x: string)
    requires n <= |ids|
    ensures x in Distinct(ids, n) <==> x != "" && x in ids[..n]
  {
    if n > 0 {
      DistinctMember(ids, n - 1, x);
      assert ids[..n] == ids[..n - 1] + [ids[n - 1]];
    }
  }

  /** .. each once, in the order of their first places. */
  lemma {:induction false} DistinctOnce(ids: seq<string>, n: nat, i: nat, j: nat)
    requires n <= |ids| && i < j < |Distinct(ids, n)|
    ensures Distinct(ids, n)[i] != Distinct(ids, n)[j]
    ensures exists a :: 0 <= a < n && ids[a] == Distinct(ids, n)[i] && Distinct(ids, n)[j] !in ids[..a]
  {
    var earlier := Distinct(ids, n - 1);
    if j < |earlier| {
      DistinctOnce(ids, n - 1, i, j);
    } else {
      DistinctMember(ids, n - 1, earlier[i]);
      DistinctMember(ids, n - 1, ids[n - 1]);
      var a :| 0 <= a < n - 1 && ids[a] == earlier[i];
      assert forall b | 0 <= b < n - 1 :: ids[b] in ids[..n - 1];
      assert forall x | x in ids[..a] :: x in ids[..n - 1];
    }
  }

  lemma FromPart(parts: seq<string>, id: string) returns (i: nat)
    requires id in Distinct(AllTrimmed(parts), |parts|)
    ensures i < |parts| && id == TrimSpace(parts[i]) && id != ""
  {
    var ids := AllTrimmed(parts);
    DistinctMember(ids, |ids|, id);
    assert ids[..|ids|] == ids;
    i :| 0 <= i < |ids| && ids[i] == id;
  }

  lemma ListedPart(text: string, id: string)
    requires var parts := SplitAt(text, ','); id in Distinct(AllTrimmed(parts), |parts|)
    ensures id != "" && IsTrimmed(id) && ',' !in id && |id| <= |text| && forall c | c in id :: c in text
  {
    var i := FromPart(SplitAt(text, ','), id);
    PartsAreFree(text, ',', i);
    TrimKeepsChars(SplitAt(text, ',')[i]);
  }

  /** Every id of a list is trimmed, free of commas, and made of characters of the list. */
  lemma {:induction false} ListedIds(raw: string, id: string)
    ensures id in ClusterList(raw) ==> id != "" && IsTrimmed(id) && ',' !in id && forall c | c in id :: c in raw
    ensures id in ClusterList(raw) ==> |id| <= |WithoutPrefix(TrimSpace(raw))|
  {
    if id in ClusterList(raw) {
      var text := WithoutPrefix(TrimSpace(raw));
      TrimKeepsChars(raw);
      TrimKeepsChars(TrimSpace(raw)[if PREFIX <= TrimSpace(raw) then |PREFIX| else 0..]);
      assert forall c | c in text :: c in raw;
      ListedPart(text, id);
    }
  }

  lemma {:induction false} PrefixedListDiffers(id: string)
    requires PREFIX <= id && IsTrimmed(id)
    ensures ClusterList(id) != [id]
  {
    assert |WithoutPrefix(id)| < |id|;
    forall other | other in ClusterList(id) ensures other != id {
      ListedIds(id, other);
    }
    assert id in [id];
  }

  /** What every cluster id that a request names is. */
  predicate Listable(id: string) {
    id != "" && IsTrimmed(id) && '|' !in id && ',' !in id
  }

  lemma {:induction false} RequestedIsListable(raw: string, id: string)
    ensures id in SplitClusterScopeList(raw).0 ==> Listable(id)
  {
    var token := SplitClusterScope(raw).0;
    ListedIds(token, id);
    TrimKeepsChars(TrimSpace(raw)[..IndexOf(TrimSpace(raw), '|')]);
  }

  /** The cluster of a job comes back from the scope its child job is given exactly when the id does not
      itself start with the list prefix. */
  lemma {:induction false} TargetSurvivesIff(id: string, scope: string)
    requires Listable(id)
    ensures SplitClusterScope(JoinClusterScope(id, scope)).0 == id
    ensures SplitClusterScopeList(JoinClusterScope(id, scope)).0 == [id] <==> !(PREFIX <= id)
    ensures SplitClusterScopeList(JoinClusterScope(id, scope)).1 == TrimSpace(scope)
  {
    var value := TrimSpace(scope);
    SplitJoinedToken(id, value);
    if PREFIX <= id {
      PrefixedListDiffers(id);
    } else {
      SplitUndoesJoin(id, scope);
    }
  }

  // ----- Lists of clusters -----

  function JoinWith(parts: seq<string>, c: char): string
    requires parts != []
  {
    if |parts| == 1 then parts[0] else parts[0] + [c] + JoinWith(parts[1..], c)
  }

  lemma SplitFirst(first: string, rest: string, c: char)
    requires c !in first
    ensures SplitAt(first + [c] + rest, c) == [first] + SplitAt(rest, c)
  {
    var s := first + [c] + rest;
    IndexOfFirst(first, rest, c);
    assert s[..|first|] == first && s[|first| + 1..] == rest;
  }

  lemma {:induction false} SplitUndoesJoinWith(parts: seq<string>, c: char)
    requires parts != [] && forall p | p in parts :: c !in p
    ensures SplitAt(JoinWith(parts, c), c) == parts
  {
    assert parts[0] in parts;
    assert parts == [parts[0]] + parts[1..];
    if |parts| > 1 {
      SplitUndoesJoinWith(parts[1..], c);
      SplitFirst(parts[0], JoinWith(parts[1..], c), c);
    }
  }

  lemma {:induction false} JoinedIds(ids: seq<string>)
    requires ids != [] && forall id | id in ids :: Listable(id)
    ensures var joined := JoinWith(ids, ','); joined != "" && IsTrimmed(joined) && '|' !in joined
  {
    assert ids[0] in ids;
    if |ids| > 1 {
      JoinedIds(ids[1..]);
      var joined, rest := JoinWith(ids, ','), JoinWith(ids[1..], ',');
      assert joined[0] == ids[0][0] && joined[|joined| - 1] == rest[|rest| - 1];
    }
  }

  lemma {:induction false} DistinctKeeps(ids: seq<string>, n: nat)
    requires n <= |ids| && "" !in ids && (forall i, j | 0 <= i < j < |ids| :: ids[i] != ids[j])
    ensures Distinct(ids, n) == ids[..n]
  {
    if n > 0 {
      DistinctKeeps(ids, n - 1);
      assert ids[..n] == ids[..n - 1] + [ids[n - 1]];
      assert ids[n - 1] in ids && ids[n - 1] !in ids[..n - 1];
    }
  }

  lemma TrimmedStay(ids: seq<string>)
    requires forall id | id in ids :: Listable(id)
    ensures AllTrimmed(ids) == ids && "" !in ids
  {
    forall i | 0 <= i < |ids| ensures AllTrimmed(ids)[i] == ids[i] {
      assert ids[i] in ids;
    }
  }

  lemma PrefixIsDropped(joined: string)
    requires joined != "" && IsTrimmed(joined) && '|' !in joined
    ensures var token := PREFIX + joined; IsTrimmed(token) && '|' !in token && WithoutPrefix(TrimSpace(token)) == joined
  {
    var token := PREFIX + joined;
    assert token[0] == 'c' && token[|token| - 1] == joined[|joined| - 1];
    assert '|' !in PREFIX;
    assert token[|PREFIX|..] == joined;
  }

  lemma ListOfMany(ids: seq<string>)
    requires ids != [] && (forall id | id in ids :: Listable(id)) && (forall i, j | 0 <= i < j < |ids| :: ids[i] != ids[j])
    ensures var token := PREFIX + JoinWith(ids, ','); IsTrimmed(token) && '|' !in token && ClusterList(token) == ids
  {
    JoinedIds(ids);
    PrefixIsDropped(JoinWith(ids, ','));
    SplitUndoesJoinWith(ids, ',');
    TrimmedStay(ids);
    DistinctKeeps(ids, |ids|);
    assert ids[..|ids|] == ids;
  }

  /** A scope that lists clusters gives exactly those clusters, in order, and the scope part. */
  lemma ListRoundTrip(ids: seq<string>, scope: string)
    requires ids != [] && (forall id | id in ids :: Listable(id)) && (forall i, j | 0 <= i < j < |ids| :: ids[i] != ids[j])
    ensures SplitClusterScopeList(PREFIX + JoinWith(ids, ',') + "|" + TrimSpace(scope)) == (ids, TrimSpace(scope))
  {
    ListOfMany(ids);
    SplitJoinedToken(PREFIX + JoinWith(ids, ','), TrimSpace(scope));
  }
}
