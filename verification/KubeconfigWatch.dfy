/**
 Merging of watched kubeconfig paths and acceptance of file events
 (backend/kubeconfig_contract.go:165-219, backend/kubeconfig_watcher.go:126-217).

 Several entries may ask for the same directory, each for all of its files or for some names. The
 merge works entry by entry; what it must compute does not mention any order.
 */
module KubeconfigWatch {
  import opened Wrappers

  /** An entry without filters, nil or empty alike, asks for every file of its directory. */
  datatype WatchedPath = WatchedPath(dir: string, filters: set<string>)

  datatype WatchDirectory = WatchDirectory(unfiltered: bool, filters: set<string>)

  type Merged = map<string, WatchDirectory>

  // ----- The specification -----

  predicate Mentioned(paths: seq<WatchedPath>, dir: string) {
    exists p :: p in paths && p.dir == dir
  }

  predicate AsksForAll(paths: seq<WatchedPath>, dir: string) {
    exists p :: p in paths && p.dir == dir && p.filters == {}
  }

  function NamesFor(paths: seq<WatchedPath>, dir: string): set<string> {
    set p, f | p in paths && p.dir == dir && f in p.filters :: f
  }

  /** Every existing directory that is mentioned: unfiltered if some entry asks for all of it,
      otherwise with the union of the names asked for. */
  ghost predicate Specified(isDir: string -> bool, paths: seq<WatchedPath>, merged: Merged) {
    forall d :: SpecifiedAt(isDir, paths, merged, d)
  }

  /** What that says of one directory. */
  ghost predicate SpecifiedAt(isDir: string -> bool, paths: seq<WatchedPath>, merged: Merged, d: string) {
    && (d in merged <==> isDir(d) && Mentioned(paths, d))
    && (d in merged ==> merged[d] == if AsksForAll(paths, d) then WatchDirectory(true, {}) else WatchDirectory(false, NamesFor(paths, d)))
  }

  // ----- The merge -----

  /** `mergeWatchedPathFilters`. */
  function WithFilters(entry: WatchDirectory, filters: set<string>): WatchDirectory {
    if filters == {} then WatchDirectory(true, {})
    else if entry.unfiltered then entry
    else entry.(filters := entry.filters + filters)
  }

  /** `addKubeconfigWatchDirectory`. */
  function WithDirectory(merged: Merged, dir: string, filters: set<string>): Merged {
    merged[dir := WithFilters(if dir in merged then merged[dir] else WatchDirectory(false, {}), filters)]
  }

  function MergedFrom(isDir: string -> bool, paths: seq<WatchedPath>, n: nat): Merged
    requires n <= |paths|
  {
    if n == 0 then map[]
    else
      var before, p := MergedFrom(isDir, paths, n - 1), paths[n - 1];
      if isDir(p.dir) then WithDirectory(before, p.dir, p.filters) else before
  }

  lemma OneMorePath(paths: seq<WatchedPath>, p: WatchedPath, d: string)
    ensures Mentioned(paths + [p], d) <==> Mentioned(paths, d) || p.dir == d
    ensures AsksForAll(paths + [p], d) <==> AsksForAll(paths, d) || (p.dir == d && p.filters == {})
    ensures NamesFor(paths + [p], d) == NamesFor(paths, d) + if p.dir == d then p.filters else {}
  {
    assert p in paths + [p];
  }

  lemma MergeOneMoreAt(isDir: string -> bool, paths: seq<WatchedPath>, p: WatchedPath, merged: Merged, d: string)
    requires SpecifiedAt(isDir, paths, merged, d)
    ensures SpecifiedAt(isDir, paths + [p], if isDir(p.dir) then WithDirectory(merged, p.dir, p.filters) else merged, d)
  {
    OneMorePath(paths, p, d);
    if !Mentioned(paths, d) {
      assert !AsksForAll(paths, d) && NamesFor(paths, d) == {};
    }
  }

  lemma MergeOneMore(isDir: string -> bool, paths: seq<WatchedPath>, p: WatchedPath, merged: Merged)
    requires Specified(isDir, paths, merged)
    ensures Specified(isDir, paths + [p], if isDir(p.dir) then WithDirectory(merged, p.dir, p.filters) else merged)
  {
    var after := if isDir(p.dir) then WithDirectory(merged, p.dir, p.filters) else merged;
    forall d ensures SpecifiedAt(isDir, paths + [p], after, d) {
      MergeOneMoreAt(isDir, paths, p, merged, d);
    }
  }

  /** The merge computes the specification. */
  lemma {:induction false} MergeMeaning(isDir: string -> bool, paths: seq<WatchedPath>, n: nat)
    requires n <= |paths|
    ensures Specified(isDir, paths[..n], MergedFrom(isDir, paths, n))
  {
    if n > 0 {
      MergeMeaning(isDir, paths, n - 1);
      MergeOneMore(isDir, paths[..n - 1], paths[n - 1], MergedFrom(isDir, paths, n - 1));
      assert paths[..n] == paths[..n - 1] + [paths[n - 1]];
    }
  }

  lemma SpecifiedOnce(isDir: string -> bool, paths: seq<WatchedPath>, a: Merged, b: Merged)
    requires Specified(isDir, paths, a) && Specified(isDir, paths, b)
    ensures a == b
  {
    forall d ensures d in a <==> d in b {
      assert SpecifiedAt(isDir, paths, a, d) && SpecifiedAt(isDir, paths, b, d);
    }
    forall d | d in a ensures a[d] == b[d] {
      assert SpecifiedAt(isDir, paths, a, d) && SpecifiedAt(isDir, paths, b, d);
    }
  }

  lemma SameEntries(a: seq<WatchedPath>, b: seq<WatchedPath>, d: string)
    requires forall p :: p in a <==> p in b
    ensures Mentioned(a, d) == Mentioned(b, d) && AsksForAll(a, d) == AsksForAll(b, d) && NamesFor(a, d) == NamesFor(b, d)
  {
  }

  /** Lists with the same entries, in any order and number, merge to the same result. */
  lemma MergeIgnoresOrder(isDir: string -> bool, a: seq<WatchedPath>, b: seq<WatchedPath>)
    requires forall p :: p in a <==> p in b
    ensures MergedFrom(isDir, a, |a|) == MergedFrom(isDir, b, |b|)
  {
    MergeMeaning(isDir, a, |a|);
    MergeMeaning(isDir, b, |b|);
    assert a[..|a|] == a && b[..|b|] == b;
    var merged := MergedFrom(isDir, b, |b|);
    forall d ensures SpecifiedAt(isDir, a, merged, d) {
      SameEntries(a, b, d);
      assert SpecifiedAt(isDir, b, merged, d);
    }
    SpecifiedOnce(isDir, a, MergedFrom(isDir, a, |a|), MergedFrom(isDir, b, |b|));
  }

  /** `result` lists the merged directories, each once, in any order. */
  ghost predicate Lists(result: seq<WatchedPath>, merged: Merged) {
    && (forall i, j | 0 <= i < j < |result| :: result[i].dir != result[j].dir)
    && (forall p | p in result :: p.dir in merged && p == PathOf(merged, p.dir))
    && (forall d | d in merged :: PathOf(merged, d) in result)
  }

  function PathOf(merged: Merged, dir: string): WatchedPath
    requires dir in merged
  {
    WatchedPath(dir, if merged[dir].unfiltered then {} else merged[dir].filters)
  }

  /** No directory is filtered by nothing. */
  predicate Proper(merged: Merged) {
    forall d | d in merged :: if merged[d].unfiltered then merged[d].filters == {} else merged[d].filters != {}
  }

  lemma MergedIsProper(isDir: string -> bool, paths: seq<WatchedPath>, merged: Merged)
    requires Specified(isDir, paths, merged)
    ensures Proper(merged)
  {
    forall d | d in merged && merged[d].unfiltered ensures merged[d].filters == {} {
      assert SpecifiedAt(isDir, paths, merged, d);
    }
    forall d | d in merged && !merged[d].unfiltered ensures merged[d].filters != {} {
      assert SpecifiedAt(isDir, paths, merged, d);
      var p :| p in paths && p.dir == d;
      var f :| f in p.filters;
      assert f in NamesFor(paths, d);
    }
  }

  lemma ListedOnce(result: seq<WatchedPath>, merged: Merged, d: string)
    requires Lists(result, merged) && Proper(merged)
    ensures Mentioned(result, d) <==> d in merged
    ensures d in merged ==> AsksForAll(result, d) == merged[d].unfiltered && NamesFor(result, d) == merged[d].filters
  {
    assert d in merged ==> PathOf(merged, d) in result;
  }

  /** Merging what a merge produced changes nothing. */
  lemma MergeAgain(isDir: string -> bool, paths: seq<WatchedPath>, merged: Merged, result: seq<WatchedPath>)
    requires Specified(isDir, paths, merged) && Lists(result, merged)
    ensures MergedFrom(isDir, result, |result|) == merged
  {
    MergedIsProper(isDir, paths, merged);
    MergeMeaning(isDir, result, |result|);
    assert result[..|result|] == result;
    forall d ensures SpecifiedAt(isDir, result, merged, d) {
      assert SpecifiedAt(isDir, paths, merged, d);
      ListedOnce(result, merged, d);
    }
    SpecifiedOnce(isDir, result, merged, MergedFrom(isDir, result, |result|));
  }

  // ----- The watcher -----

  class KubeconfigWatcher {
    var watched: seq<WatchedPath>
    var fileFilters: map<string, set<string>>
    var registered: set<string>               // directories the system watcher has
    const isDir: string -> bool
    const skips: string -> bool               // names that are never kubeconfigs

    ghost predicate Valid(merged: Merged)
      reads this
    {
      && Lists(watched, merged)
      && fileFilters == map d | d in merged && !merged[d].unfiltered :: merged[d].filters
    }

    constructor (isDir: string -> bool, skips: string -> bool)
      ensures Valid(map[]) && registered == {} && this.isDir == isDir && this.skips == skips
    {
      this.isDir, this.skips := isDir, skips;
      watched, fileFilters, registered := [], map[], {};
    }

    method MergeWatchedPaths(paths: seq<WatchedPath>) returns (merged: Merged)
      ensures Specified(isDir, paths, merged)
    {
      merged := map[];
      for i := 0 to |paths|
        invariant merged == MergedFrom(isDir, paths, i)
      {
        if isDir(paths[i].dir) {
          var entry := if paths[i].dir in merged then merged[paths[i].dir] else WatchDirectory(false, {});
          merged := merged[paths[i].dir := WithFilters(entry, paths[i].filters)];
        }
      }
      MergeMeaning(isDir, paths, |paths|);
      assert paths[..|paths|] == paths;
    }

    /** `kubeconfigWatchedPaths`. */
    method WatchedPathsOf(merged: Merged) returns (result: seq<WatchedPath>)
      ensures Lists(result, merged)
    {
      result := [];
      var rest := merged.Keys;
      while rest != {}
        invariant rest <= merged.Keys
        invariant Lists(result, merged - rest)
      {
        var d :| d in rest;
        ListOneMore(result, merged, rest, d);
        result := result + [WatchedPath(d, if merged[d].unfiltered then {} else merged[d].filters)];
        rest := rest - {d};
      }
      assert merged - rest == merged;
    }

    /** `replaceWatchedPaths`. */
    method ReplaceWatchedPaths(merged: Merged)
      requires Proper(merged)
      modifies `watched, `fileFilters
      ensures Valid(merged)
    {
      var paths := WatchedPathsOf(merged);
      watched := paths;
      fileFilters := FiltersOf(paths, merged);
    }

    method FiltersOf(paths: seq<WatchedPath>, ghost merged: Merged) returns (filters: map<string, set<string>>)
      requires Lists(paths, merged) && Proper(merged)
      ensures filters == map d | d in merged && !merged[d].unfiltered :: merged[d].filters
    {
      filters := map[];
      for i := 0 to |paths|
        invariant forall d | d in filters :: d in merged && !merged[d].unfiltered && filters[d] == merged[d].filters
        invariant forall j | 0 <= j < i && paths[j].filters != {} :: paths[j].dir in filters
      {
        assert paths[i] in paths;
        if paths[i].filters != {} {
          filters := filters[paths[i].dir := paths[i].filters];
        }
      }
      forall d | d in merged && !merged[d].unfiltered ensures d in filters {
        assert PathOf(merged, d) in paths;
      }
    }

    /** `reconcileWatchedDirectories`; adding a directory may fail. */
    method ReconcileWatchedDirectories(current: set<string>, desired: set<string>, failing: set<string>)
      modifies `registered
      ensures registered == (old(registered) - (current - desired)) + (desired - current - failing)
    {
      var rest := current;
      while rest != {}
        invariant rest <= current && registered == old(registered) - (current - rest - desired)
      {
        var dir :| dir in rest;
        if dir !in desired {
          registered := registered - {dir};
        }
        rest := rest - {dir};
      }
      rest := desired;
      while rest != {}
        invariant rest <= desired
        invariant registered == (old(registered) - (current - desired)) + (desired - rest - current - failing)
      {
        var dir :| dir in rest;
        if dir !in current && dir !in failing {
          registered := registered + {dir};
        }
        rest := rest - {dir};
      }
    }

    /** `updateWatchedPaths`. */
    method UpdateWatchedPaths(paths: seq<WatchedPath>, failing: set<string>) returns (ghost merged: Merged)
      modifies this
      ensures Specified(isDir, paths, merged) && Valid(merged)
      ensures registered == (old(registered) - (DirsOf(old(watched)) - merged.Keys)) + (merged.Keys - DirsOf(old(watched)) - failing)
      ensures DirsOf(watched) == merged.Keys
      ensures old(registered) == DirsOf(old(watched)) && failing == {} ==> registered == DirsOf(watched)
    {
      var next := MergeWatchedPaths(paths);
      MergedIsProper(isDir, paths, next);
      ReconcileWatchedDirectories(DirsOf(watched), next.Keys, failing);
      ReplaceWatchedPaths(next);
      merged := next;
    }

    /** `acceptsEventPath`: a filtered directory accepts exactly the names asked for, any other one every
        name that is not skipped. */
    method AcceptsEventPath(dir: string, file: string, ghost paths: seq<WatchedPath>, ghost merged: Merged) returns (accepted: bool)
      requires Specified(isDir, paths, merged) && Valid(merged)
      ensures accepted <==>
                if isDir(dir) && Mentioned(paths, dir) && !AsksForAll(paths, dir)
                then exists p :: p in paths && p.dir == dir && file in p.filters
                else !skips(file)
    {
      assert SpecifiedAt(isDir, paths, merged, dir);
      if dir !in fileFilters {
        return !skips(file);
      }
      accepted := file in fileFilters[dir];
      assert file in NamesFor(paths, dir) <==> exists p :: p in paths && p.dir == dir && file in p.filters;
    }
  }

  function DirsOf(paths: seq<WatchedPath>): set<string> {
    set p | p in paths :: p.dir
  }

  lemma DirsOfMeaning(paths: seq<WatchedPath>, d: string)
    ensures d in DirsOf(paths) <==> exists i :: 0 <= i < |paths| && paths[i].dir == d
  {
  }

  /** The system watcher has exactly the watched directories as long as it accepts them all. */
  lemma RegisteredIsWatched(registered: set<string>, watched: seq<WatchedPath>, merged: Merged)
    requires registered == DirsOf(watched)
    ensures (registered - (DirsOf(watched) - merged.Keys)) + (merged.Keys - DirsOf(watched) - {}) == merged.Keys
  {
  }

  lemma ListOneMore(result: seq<WatchedPath>, merged: Merged, rest: set<string>, d: string)
    requires d in rest && rest <= merged.Keys && Lists(result, merged - rest)
    ensures Lists(result + [PathOf(merged, d)], merged - (rest - {d}))
  {
    var more := result + [PathOf(merged, d)];
    forall e | e in merged - (rest - {d}) ensures PathOf(merged, e) in more {
      if e != d {
        assert e in merged - rest;
      }
    }
  }
}
