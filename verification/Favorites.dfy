/**
 The collection of favorites (backend/favorites_service_persistence.go:297-324 and 401-539).

 Every operation loads the file, changes the list and saves it; a failed save leaves the file as it
 was. The file's list is the field `favorites` here.
 */
module Favorites {
  import opened Wrappers
  import opened Strings

  /** `content` stands for everything a favorite carries besides its name, place and panes. */
  datatype Favorite = Favorite(id: string, name: string, panes: set<string>, content: string, order: int)

  ghost predicate UniqueIds(favs: seq<Favorite>) {
    forall i, j | 0 <= i < j < |favs| :: favs[i].id != favs[j].id
  }

  ghost predicate OrderedByIndex(favs: seq<Favorite>) {
    forall i | 0 <= i < |favs| :: favs[i].order == i
  }

  /** All that matters here of `strings.TrimSpace` is that trimming twice is trimming once. */
  type Trim = string -> string

  ghost predicate TrimsOnce(trim: Trim) {
    forall s: string :: trim(trim(s)) == trim(s)
  }

  lemma TrimSpaceTrimsOnce()
    ensures TrimsOnce(TrimSpace)
  {
  }

  ghost predicate NamesDistinct(trim: Trim, favs: seq<Favorite>) {
    forall i, j | 0 <= i < j < |favs| :: trim(favs[i].name) != trim(favs[j].name)
  }

  predicate ValidPanes(trim: Trim, panes: set<string>) {
    panes != {} && forall p | p in panes :: trim(p) != ""
  }

  /** Another favorite than the excluded one has this trimmed name. */
  predicate NameTaken(trim: Trim, favs: seq<Favorite>, name: string, excluded: string) {
    exists i :: 0 <= i < |favs| && favs[i].id != excluded && trim(favs[i].name) == name
  }

  datatype Outcome = Done(favorite: Favorite) | InvalidPanes | EmptyName | NameExists | NotFound | SaveFailed

  // ----- Reordering -----

  function AsMap(favs: seq<Favorite>, n: nat): map<string, Favorite>
    requires n <= |favs|
  {
    if n == 0 then map[] else AsMap(favs, n - 1)[favs[n - 1].id := favs[n - 1]]
  }

  /** The favorites named by the first n ids, unknown and repeated ids skipped. */
  function Listed(favs: seq<Favorite>, ids: seq<string>, n: nat): seq<Favorite>
    requires n <= |ids|
  {
    if n == 0 then []
    else
      Listed(favs, ids, n - 1)
      + if ids[n - 1] in AsMap(favs, |favs|) && ids[n - 1] !in ids[..n - 1] then [AsMap(favs, |favs|)[ids[n - 1]]] else []
  }

  /** Those of the first n favorites that the ids do not name. */
  function Unlisted(favs: seq<Favorite>, ids: seq<string>, n: nat): seq<Favorite>
    requires n <= |favs|
  {
    if n == 0 then [] else Unlisted(favs, ids, n - 1) + if favs[n - 1].id !in ids then [favs[n - 1]] else []
  }

  function Renumbered(favs: seq<Favorite>, n: nat): (r: seq<Favorite>)
    requires n <= |favs|
    ensures |r| == n
  {
    if n == 0 then [] else Renumbered(favs, n - 1) + [favs[n - 1].(order := n - 1)]
  }

  function Reordered(favs: seq<Favorite>, ids: seq<string>): seq<Favorite> {
    var all := Listed(favs, ids, |ids|) + Unlisted(favs, ids, |favs|);
    Renumbered(all, |all|)
  }

  lemma {:induction false} AsMapHolds(favs: seq<Favorite>, n: nat)
    requires n <= |favs| && UniqueIds(favs)
    ensures forall i | 0 <= i < n :: favs[i].id in AsMap(favs, n) && AsMap(favs, n)[favs[i].id] == favs[i]
    ensures forall id | id in AsMap(favs, n) :: exists i :: 0 <= i < n && favs[i].id == id
  {
    if n > 0 {
      AsMapHolds(favs, n - 1);
    }
  }

  lemma {:induction false} RenumberedAt(favs: seq<Favorite>, n: nat, i: nat)
    requires i < n <= |favs|
    ensures Renumbered(favs, n)[i] == favs[i].(order := i)
  {
    if i < n - 1 {
      RenumberedAt(favs, n - 1, i);
    }
  }

  lemma {:induction false} ListedMembers(favs: seq<Favorite>, ids: seq<string>, n: nat, f: Favorite)
    requires n <= |ids| && UniqueIds(favs)
    ensures f in Listed(favs, ids, n) <==> f in favs && f.id in ids[..n]
  {
    AsMapHolds(favs, |favs|);
    if n > 0 {
      ListedMembers(favs, ids, n - 1, f);
      assert ids[..n] == ids[..n - 1] + [ids[n - 1]];
    }
  }

  lemma {:induction false} ListedOnce(favs: seq<Favorite>, ids: seq<string>, n: nat)
    requires n <= |ids| && UniqueIds(favs)
    ensures UniqueIds(Listed(favs, ids, n))
  {
    if n > 0 {
      ListedOnce(favs, ids, n - 1);
      AsMapHolds(favs, |favs|);
      var earlier := Listed(favs, ids, n - 1);
      forall i | 0 <= i < |earlier| ensures earlier[i].id in ids[..n - 1] {
        ListedMembers(favs, ids, n - 1, earlier[i]);
      }
    }
  }

  lemma {:induction false} UnlistedMembers(favs: seq<Favorite>, ids: seq<string>, n: nat, f: Favorite)
    requires n <= |favs|
    ensures f in Unlisted(favs, ids, n) <==> f in favs[..n] && f.id !in ids
  {
    if n > 0 {
      UnlistedMembers(favs, ids, n - 1, f);
      assert favs[..n] == favs[..n - 1] + [favs[n - 1]];
    }
  }

  lemma {:induction false} UnlistedOnce(favs: seq<Favorite>, ids: seq<string>, n: nat)
    requires n <= |favs| && UniqueIds(favs)
    ensures UniqueIds(Unlisted(favs, ids, n))
  {
    if n > 0 {
      UnlistedOnce(favs, ids, n - 1);
      var earlier := Unlisted(favs, ids, n - 1);
      forall i | 0 <= i < |earlier| ensures earlier[i].id != favs[n - 1].id {
        UnlistedMembers(favs, ids, n - 1, earlier[i]);
      }
    }
  }

  lemma ListedAll(favs: seq<Favorite>, ids: seq<string>, f: Favorite)
    requires UniqueIds(favs)
    ensures f in Listed(favs, ids, |ids|) <==> f in favs && f.id in ids
    ensures f in Unlisted(favs, ids, |favs|) <==> f in favs && f.id !in ids
  {
    assert ids[..|ids|] == ids && favs[..|favs|] == favs;
    ListedMembers(favs, ids, |ids|, f);
    UnlistedMembers(favs, ids, |favs|, f);
  }

  lemma UniqueTogether(a: seq<Favorite>, b: seq<Favorite>)
    requires UniqueIds(a) && UniqueIds(b) && forall i, j | 0 <= i < |a| && 0 <= j < |b| :: a[i].id != b[j].id
    ensures UniqueIds(a + b)
  {
  }

  /** Before renumbering: each favorite once. */
  lemma ArrangedOnce(favs: seq<Favorite>, ids: seq<string>)
    requires UniqueIds(favs)
    ensures var all := Listed(favs, ids, |ids|) + Unlisted(favs, ids, |favs|);
            UniqueIds(all) && forall f :: f in all <==> f in favs
  {
    var listed, unlisted := Listed(favs, ids, |ids|), Unlisted(favs, ids, |favs|);
    ListedOnce(favs, ids, |ids|);
    UnlistedOnce(favs, ids, |favs|);
    forall f ensures f in listed + unlisted <==> f in favs {
      ListedAll(favs, ids, f);
    }
    forall i, j | 0 <= i < |listed| && 0 <= j < |unlisted| ensures listed[i].id != unlisted[j].id {
      ListedAll(favs, ids, listed[i]);
      ListedAll(favs, ids, unlisted[j]);
    }
    UniqueTogether(listed, unlisted);
  }

  /** Unique lists with the same members are as long as each other. */
  lemma {:induction false} SameMembersSameLength(a: seq<Favorite>, b: seq<Favorite>)
    requires UniqueIds(a) && UniqueIds(b) && forall f :: f in a <==> f in b
    ensures |a| == |b| && multiset(a) == multiset(b)
  {
    forall f ensures multiset(a)[f] == multiset(b)[f] {
      CountOnce(a, f);
      CountOnce(b, f);
    }
    assert multiset(a) == multiset(b);
    assert |multiset(a)| == |a| && |multiset(b)| == |b|;
  }

  lemma {:induction false} CountOnce(a: seq<Favorite>, f: Favorite)
    requires UniqueIds(a)
    ensures multiset(a)[f] == if f in a then 1 else 0
  {
    if a != [] {
      assert a == [a[0]] + a[1..];
      CountOnce(a[1..], f);
    }
  }

  function Unplaced(f: Favorite): Favorite {
    f.(order := 0)
  }

  /** Any id list yields a permutation whose orders are the indices: nothing is lost, nothing doubled. */
  lemma ReorderPermutes(favs: seq<Favorite>, ids: seq<string>)
    requires UniqueIds(favs)
    ensures |Reordered(favs, ids)| == |favs| && OrderedByIndex(Reordered(favs, ids)) && UniqueIds(Reordered(favs, ids))
    ensures forall f | f in favs :: exists g :: g in Reordered(favs, ids) && Unplaced(g) == Unplaced(f)
    ensures forall g | g in Reordered(favs, ids) :: exists f :: f in favs && Unplaced(g) == Unplaced(f)
  {
    var all := Listed(favs, ids, |ids|) + Unlisted(favs, ids, |favs|);
    var r := Reordered(favs, ids);
    ArrangedOnce(favs, ids);
    SameMembersSameLength(all, favs);
    forall i | 0 <= i < |all| ensures r[i] == all[i].(order := i) {
      RenumberedAt(all, |all|, i);
    }
    forall f | f in favs ensures exists g :: g in r && Unplaced(g) == Unplaced(f) {
      assert f in all;
      var i :| 0 <= i < |all| && all[i] == f;
      assert r[i] in r && Unplaced(r[i]) == Unplaced(f);
    }
    forall g | g in r ensures exists f :: f in favs && Unplaced(g) == Unplaced(f) {
      var i :| 0 <= i < |r| && r[i] == g;
      assert all[i] in all && Unplaced(g) == Unplaced(all[i]);
    }
  }

  // ----- The order after reordering -----

  function FirstIndex(ids: seq<string>, id: string): (i: nat)
    requires id in ids
    ensures i < |ids| && ids[i] == id && id !in ids[..i]
  {
    if ids[0] == id then 0
    else
      var i := 1 + FirstIndex(ids[1..], id);
      assert ids[..i] == [ids[0]] + ids[1..][..i - 1];
      i
  }

  function IdsOf(favs: seq<Favorite>): (ids: seq<string>)
    ensures |ids| == |favs| && forall i | 0 <= i < |favs| :: ids[i] == favs[i].id
  {
    seq(|favs|, i requires 0 <= i < |favs| => favs[i].id)
  }

  lemma {:induction false} FirstIndexIs(ids: seq<string>, i: nat)
    requires i < |ids| && ids[i] !in ids[..i]
    ensures FirstIndex(ids, ids[i]) == i
  {
    if i > 0 {
      assert ids[0] in ids[..i] && forall k | 0 <= k < i - 1 :: ids[1..][k] in ids[..i];
      FirstIndexIs(ids[1..], i - 1);
    }
  }

  type Places = map<string, nat>

  /** Where each id is first named. */
  function FirstPlaces(ids: seq<string>): Places {
    map id | id in ids :: FirstIndex(ids, id)
  }

  /** The ids of `favs` come in the order of their places, all below n. */
  ghost predicate Follows(favs: seq<Favorite>, places: Places, n: nat) {
    && (forall i | 0 <= i < |favs| :: favs[i].id in places && places[favs[i].id] < n)
    && forall i, j | 0 <= i < j < |favs| :: places[favs[i].id] < places[favs[j].id]
  }

  ghost predicate PlacesFirsts(places: Places, ids: seq<string>) {
    forall i {:trigger IsFirst(ids, i)} | 0 <= i < |ids| && IsFirst(ids, i) :: ids[i] in places && places[ids[i]] == i
  }

  /** The id at i is named there for the first time. */
  predicate IsFirst(ids: seq<string>, i: nat)
    requires i < |ids|
  {
    ids[i] !in ids[..i]
  }

  ghost predicate PlacesEach(places: Places, favs: seq<Favorite>) {
    forall i | 0 <= i < |favs| :: favs[i].id in places && places[favs[i].id] == i
  }

  lemma FirstPlacesFit(ids: seq<string>, favs: seq<Favorite>)
    requires UniqueIds(favs)
    ensures PlacesFirsts(FirstPlaces(ids), ids) && PlacesEach(FirstPlaces(IdsOf(favs)), favs)
  {
    forall i | 0 <= i < |ids| && IsFirst(ids, i) ensures FirstIndex(ids, ids[i]) == i {
      FirstIndexIs(ids, i);
    }
    forall i | 0 <= i < |favs| ensures favs[i].id in IdsOf(favs) && FirstIndex(IdsOf(favs), favs[i].id) == i {
      FirstIndexIs(IdsOf(favs), i);
    }
  }

  lemma FollowsMore(earlier: seq<Favorite>, f: Favorite, places: Places, n: nat)
    requires Follows(earlier, places, n)
    ensures Follows(earlier, places, n + 1)
    ensures f.id in places && places[f.id] == n ==> Follows(earlier + [f], places, n + 1)
  {
  }

  lemma {:induction false} AsMapKeys(favs: seq<Favorite>, n: nat, id: string)
    requires n <= |favs| && id in AsMap(favs, n)
    ensures AsMap(favs, n)[id].id == id
  {
    if id != favs[n - 1].id {
      AsMapKeys(favs, n - 1, id);
    }
  }

  lemma {:induction false} ListedFollows(favs: seq<Favorite>, ids: seq<string>, places: Places, n: nat, listed: seq<Favorite>)
    requires n <= |ids| && PlacesFirsts(places, ids) && listed == Listed(favs, ids, n)
    ensures Follows(listed, places, n)
  {
    if n > 0 {
      var earlier, known := Listed(favs, ids, n - 1), AsMap(favs, |favs|);
      ListedFollows(favs, ids, places, n - 1, earlier);
      if ids[n - 1] in known {
        AsMapKeys(favs, |favs|, ids[n - 1]);
        FollowsMore(earlier, known[ids[n - 1]], places, n - 1);
        assert IsFirst(ids, n - 1) <==> ids[n - 1] !in ids[..n - 1];
      }
    }
  }

  lemma {:induction false} UnlistedFollows(favs: seq<Favorite>, ids: seq<string>, places: Places, n: nat)
    requires n <= |favs| && PlacesEach(places, favs)
    ensures Follows(Unlisted(favs, ids, n), places, n)
  {
    if n > 0 {
      UnlistedFollows(favs, ids, places, n - 1);
    }
  }

  /** The listed favorites come first, in list order; the others keep their old order. */
  lemma ReorderOrder(favs: seq<Favorite>, ids: seq<string>, i: nat, j: nat)
    requires UniqueIds(favs) && i < j < |Reordered(favs, ids)|
    ensures var a, b := Reordered(favs, ids)[i].id, Reordered(favs, ids)[j].id;
            && (b in ids ==> a in ids)
            && (a in ids && b in ids ==> FirstIndex(ids, a) < FirstIndex(ids, b))
            && (a !in ids ==> a in IdsOf(favs) && b in IdsOf(favs) && FirstIndex(IdsOf(favs), a) < FirstIndex(IdsOf(favs), b))
  {
    var listed, unlisted := Listed(favs, ids, |ids|), Unlisted(favs, ids, |favs|);
    var all := listed + unlisted;
    RenumberedAt(all, |all|, i);
    RenumberedAt(all, |all|, j);
    FirstPlacesFit(ids, favs);
    ListedFollows(favs, ids, FirstPlaces(ids), |ids|, listed);
    UnlistedFollows(favs, ids, FirstPlaces(IdsOf(favs)), |favs|);
    ListedAll(favs, ids, all[i]);
    ListedAll(favs, ids, all[j]);
  }

  // ----- The service -----

  function Normalized(trim: Trim, fav: Favorite, id: string, order: int): Favorite {
    fav.(id := id, name := trim(fav.name), order := order)
  }

  function Without(favs: seq<Favorite>, i: nat): seq<Favorite>
    requires i < |favs|
  {
    var rest := favs[..i] + favs[i + 1..];
    Renumbered(rest, |rest|)
  }

  /** Names compare by what `NameTaken` compares; an entry without an id escapes that check. */
  predicate NamelessTwin(trim: Trim, favs: seq<Favorite>, name: string) {
    exists i :: 0 <= i < |favs| && favs[i].id == "" && trim(favs[i].name) == name
  }

  class FavoritesService {
    var favorites: seq<Favorite>
    const trim: Trim

    ghost predicate Valid()
      reads this
    {
      UniqueIds(favorites) && OrderedByIndex(favorites) && NamesDistinct(trim, favorites)
    }

    constructor (stored: seq<Favorite>)
      ensures favorites == stored && trim == TrimSpace
    {
      favorites, trim := stored, TrimSpace;
    }

    method ValidateUniqueName(name: string, excluded: string) returns (taken: bool)
      ensures taken == NameTaken(trim, favorites, name, excluded)
    {
      for i := 0 to |favorites|
        invariant forall j | 0 <= j < i :: favorites[j].id == excluded || trim(favorites[j].name) != name
      {
        if favorites[i].id != excluded && trim(favorites[i].name) == name {
          return true;
        }
      }
      taken := false;
    }

    /** Appends under a fresh id with the next order, unless the panes or the name are refused. */
    method AddFavorite(fav: Favorite, id: string, saveOk: bool) returns (outcome: Outcome)
      requires forall f | f in favorites :: f.id != id
      modifies this
      ensures outcome.Done? <==>
                ValidPanes(trim, fav.panes) && trim(fav.name) != "" && !NameTaken(trim, old(favorites), trim(fav.name), "") && saveOk
      ensures !outcome.Done? ==> favorites == old(favorites)
      ensures outcome.Done? ==>
                && outcome.favorite == Favorite(id, trim(fav.name), fav.panes, fav.content, |old(favorites)|)
                && outcome.favorite == Normalized(trim, fav, id, |old(favorites)|) && favorites == old(favorites) + [outcome.favorite]
      ensures outcome == InvalidPanes <==> fav.panes == {} || exists p :: p in fav.panes && trim(p) == ""
      ensures outcome == EmptyName ==> trim(fav.name) == ""
      ensures outcome == NameExists ==> exists i :: 0 <= i < |old(favorites)| && old(favorites)[i].id != "" && trim(old(favorites)[i].name) == trim(fav.name)
      ensures outcome == SaveFailed ==> !saveOk
      ensures outcome != NotFound
    {
      if !ValidPanes(trim, fav.panes) {
        return InvalidPanes;
      }
      var name := trim(fav.name);
      if name == "" {
        return EmptyName;
      }
      var taken := ValidateUniqueName(name, "");
      if taken {
        return NameExists;
      }
      if !saveOk {
        return SaveFailed;
      }
      var added := fav.(id := id, name := name, order := |favorites|);
      favorites := favorites + [added];
      outcome := Done(added);
    }

    /** Replaces the favorite with this id, keeping its order. */
    method UpdateFavorite(fav: Favorite, saveOk: bool) returns (outcome: Outcome)
      modifies this
      ensures !outcome.Done? ==> favorites == old(favorites)
      ensures outcome.Done? ==>
                && ValidPanes(trim, fav.panes) && trim(fav.name) != "" && !NameTaken(trim, old(favorites), trim(fav.name), fav.id) && saveOk
                && exists i :: 0 <= i < |old(favorites)| && old(favorites)[i].id == fav.id
                     && outcome.favorite == Favorite(fav.id, trim(fav.name), fav.panes, fav.content, old(favorites)[i].order)
                     && outcome.favorite == Normalized(trim, fav, fav.id, old(favorites)[i].order)
                     && favorites == old(favorites)[i := outcome.favorite]
      ensures outcome == InvalidPanes <==> fav.panes == {} || exists p :: p in fav.panes && trim(p) == ""
      ensures outcome == EmptyName ==> trim(fav.name) == ""
      ensures outcome == NameExists ==>
                exists i :: 0 <= i < |old(favorites)| && old(favorites)[i].id != fav.id && trim(old(favorites)[i].name) == trim(fav.name)
      ensures outcome == SaveFailed ==> !saveOk
      ensures outcome == NotFound ==> forall f | f in old(favorites) :: f.id != fav.id
    {
      if !ValidPanes(trim, fav.panes) {
        return InvalidPanes;
      }
      var name := trim(fav.name);
      if name == "" {
        return EmptyName;
      }
      for i := 0 to |favorites|
        invariant forall j | 0 <= j < i :: favorites[j].id != fav.id
        invariant favorites == old(favorites)
      {
        if favorites[i].id == fav.id {
          var taken := ValidateUniqueName(name, fav.id);
          if taken {
            return NameExists;
          }
          if !saveOk {
            return SaveFailed;
          }
          var updated := fav.(name := name, order := favorites[i].order);
          favorites := favorites[i := updated];
          return Done(updated);
        }
      }
      outcome := NotFound;
    }

    method Renumber(favs: seq<Favorite>) returns (r: seq<Favorite>)
      ensures r == Renumbered(favs, |favs|)
    {
      r := [];
      for i := 0 to |favs|
        invariant r == Renumbered(favs, i)
      {
        r := r + [favs[i].(order := i)];
      }
    }

    /** Removes the favorite with this id and closes the gap. */
    method DeleteFavorite(id: string, saveOk: bool) returns (outcome: Outcome)
      modifies this
      ensures outcome == NotFound <==> forall f | f in old(favorites) :: f.id != id
      ensures outcome.Done? <==> saveOk && exists f :: f in old(favorites) && f.id == id
      ensures !outcome.Done? ==> favorites == old(favorites)
      ensures outcome.Done? ==>
                exists i :: 0 <= i < |old(favorites)| && old(favorites)[i].id == id && favorites == Without(old(favorites), i)
                         && outcome.favorite == old(favorites)[i]
    {
      var index := 0;
      while index < |favorites| && favorites[index].id != id
        invariant 0 <= index <= |favorites|
        invariant forall j | 0 <= j < index :: favorites[j].id != id
      {
        index := index + 1;
      }
      if index == |favorites| {
        return NotFound;
      }
      if !saveOk {
        return SaveFailed;
      }
      outcome := Done(favorites[index]);
      favorites := Renumber(favorites[..index] + favorites[index + 1..]);
    }

    /** Puts the listed favorites first; the map of those not placed yet shrinks as the loops go. */
    method SetFavoriteOrder(ids: seq<string>, saveOk: bool) returns (saved: bool)
      requires UniqueIds(favorites)
      modifies this
      ensures saved == saveOk
      ensures favorites == if saved then Reordered(old(favorites), ids) else old(favorites)
    {
      var lookup := BuildLookup();
      var reordered;
      reordered, lookup := PlaceListed(favorites, ids, lookup);
      reordered := PlaceOthers(favorites, ids, reordered, lookup);
      if saveOk {
        favorites := Renumber(reordered);
      }
      saved := saveOk;
    }

    method PlaceListed(favs: seq<Favorite>, ids: seq<string>, known: map<string, Favorite>)
      returns (placed: seq<Favorite>, lookup: map<string, Favorite>)
      requires known == AsMap(favs, |favs|)
      ensures placed == Listed(favs, ids, |ids|)
      ensures forall id :: id in lookup <==> id in known && id !in ids
    {
      placed, lookup := [], known;
      for i := 0 to |ids|
        invariant placed == Listed(favs, ids, i)
        invariant forall id :: id in lookup <==> id in known && id !in ids[..i]
        invariant forall id | id in lookup :: lookup[id] == known[id]
      {
        assert ids[..i + 1] == ids[..i] + [ids[i]];
        if ids[i] in lookup {
          placed := placed + [lookup[ids[i]]];
          lookup := lookup - {ids[i]};
        }
      }
      assert ids[..|ids|] == ids;
    }

    method PlaceOthers(favs: seq<Favorite>, ids: seq<string>, listed: seq<Favorite>, unplaced: map<string, Favorite>)
      returns (placed: seq<Favorite>)
      requires UniqueIds(favs) && forall id :: id in unplaced <==> id in AsMap(favs, |favs|) && id !in ids
      ensures placed == listed + Unlisted(favs, ids, |favs|)
    {
      placed := listed;
      var lookup := unplaced;
      AsMapHolds(favs, |favs|);
      for i := 0 to |favs|
        invariant placed == listed + Unlisted(favs, ids, i)
        invariant forall id :: id in lookup <==> id in unplaced && id !in AsMap(favs, i)
      {
        NotYetSeen(favs, i, i);
        if favs[i].id in lookup {
          placed := placed + [favs[i]];
          lookup := lookup - {favs[i].id};
        }
      }
    }

    method BuildLookup() returns (lookup: map<string, Favorite>)
      ensures lookup == AsMap(favorites, |favorites|)
    {
      lookup := map[];
      for i := 0 to |favorites|
        invariant lookup == AsMap(favorites, i)
      {
        lookup := lookup[favorites[i].id := favorites[i]];
      }
    }
  }

  lemma {:induction false} NotYetSeen(favs: seq<Favorite>, n: nat, i: nat)
    requires n <= i < |favs| && UniqueIds(favs)
    ensures favs[i].id !in AsMap(favs, n)
  {
    if n > 0 {
      NotYetSeen(favs, n - 1, i);
    }
  }

  // ----- What the operations keep -----

  /** Adding keeps ids unique and orders equal to indices, and keeps names distinct exactly when no
      stored favorite without an id has the name. */
  lemma AddKeepsCollection(trim: Trim, favs: seq<Favorite>, fav: Favorite, id: string)
    requires TrimsOnce(trim) && UniqueIds(favs) && OrderedByIndex(favs) && NamesDistinct(trim, favs) && (forall f | f in favs :: f.id != id)
    requires !NameTaken(trim, favs, trim(fav.name), "")
    ensures var after := favs + [Normalized(trim, fav, id, |favs|)];
            && UniqueIds(after) && OrderedByIndex(after)
            && (NamesDistinct(trim, after) <==> !NamelessTwin(trim, favs, trim(fav.name)))
  {
    var after, name := favs + [Normalized(trim, fav, id, |favs|)], trim(fav.name);
    assert trim(name) == name;
    if NamelessTwin(trim, favs, name) {
      var i :| 0 <= i < |favs| && favs[i].id == "" && trim(favs[i].name) == name;
      assert trim(after[i].name) == trim(after[|favs|].name);
    } else {
      forall i | 0 <= i < |favs| ensures trim(after[i].name) != name {
        assert favs[i].id == "" || favs[i].id != "";
      }
    }
  }

  /** Updating keeps all three. */
  lemma UpdateKeepsCollection(trim: Trim, favs: seq<Favorite>, fav: Favorite, i: nat)
    requires TrimsOnce(trim) && UniqueIds(favs) && OrderedByIndex(favs) && NamesDistinct(trim, favs) && i < |favs| && favs[i].id == fav.id
    requires !NameTaken(trim, favs, trim(fav.name), fav.id)
    ensures var after := favs[i := Normalized(trim, fav, fav.id, favs[i].order)];
            UniqueIds(after) && OrderedByIndex(after) && NamesDistinct(trim, after)
  {
    var after, name := favs[i := Normalized(trim, fav, fav.id, favs[i].order)], trim(fav.name);
    assert trim(name) == name;
    forall j | 0 <= j < |favs| && j != i ensures trim(after[j].name) != name {
      assert favs[j].id != fav.id;
    }
  }

  /** Renumbering changes nothing but the orders. */
  lemma RenumberKeepsRest(trim: Trim, favs: seq<Favorite>)
    ensures var r := Renumbered(favs, |favs|);
            && OrderedByIndex(r) && (UniqueIds(favs) ==> UniqueIds(r)) && (NamesDistinct(trim, favs) ==> NamesDistinct(trim, r))
  {
    var r := Renumbered(favs, |favs|);
    forall i | 0 <= i < |favs| ensures r[i] == favs[i].(order := i) {
      RenumberedAt(favs, |favs|, i);
    }
  }

  /** Deleting removes exactly one favorite and keeps all three for the others. */
  lemma DeleteKeepsCollection(trim: Trim, favs: seq<Favorite>, i: nat)
    requires UniqueIds(favs) && NamesDistinct(trim, favs) && i < |favs|
    ensures var after := Without(favs, i);
            && UniqueIds(after) && OrderedByIndex(after) && NamesDistinct(trim, after)
            && |after| == |favs| - 1
            && forall j | 0 <= j < |after| :: after[j] == favs[if j < i then j else j + 1].(order := j)
  {
    var rest := favs[..i] + favs[i + 1..];
    assert forall j | 0 <= j < |rest| :: rest[j] == favs[if j < i then j else j + 1];
    RenumberKeepsRest(trim, rest);
    forall j | 0 <= j < |rest| ensures Renumbered(rest, |rest|)[j] == rest[j].(order := j) {
      RenumberedAt(rest, |rest|, j);
    }
  }

  /** So does reordering. */
  lemma ReorderKeepsCollection(trim: Trim, favs: seq<Favorite>, ids: seq<string>)
    requires UniqueIds(favs) && NamesDistinct(trim, favs)
    ensures UniqueIds(Reordered(favs, ids)) && OrderedByIndex(Reordered(favs, ids)) && NamesDistinct(trim, Reordered(favs, ids))
  {
    var all := Listed(favs, ids, |ids|) + Unlisted(favs, ids, |favs|);
    ArrangedOnce(favs, ids);
    forall i, j | 0 <= i < j < |all| ensures trim(all[i].name) != trim(all[j].name) {
      assert all[i] in favs && all[j] in favs;
      var a :| 0 <= a < |favs| && favs[a] == all[i];
      var b :| 0 <= b < |favs| && favs[b] == all[j];
      assert a != b;
    }
    RenumberKeepsRest(trim, all);
  }
}
