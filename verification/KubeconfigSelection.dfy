/** The `path:context` form of kubeconfig selections (backend/kubeconfig_selection_contract.go). */
module KubeconfigSelection {
  import opened Strings

  datatype Selection = Selection(path: string, context: string, raw: string)

  datatype Parsed = Ok(selection: Selection) | EmptySelection | MissingPath

  predicate IsAlpha(c: char) {
    'a' <= c <= 'z' || 'A' <= c <= 'Z'
  }

  /** A letter and a colon, at the end or before something else than another colon. */
  predicate HasDrivePrefix(value: string) {
    |value| >= 2 && IsAlpha(value[0]) && value[1] == ':' && (|value| == 2 || value[2] != ':')
  }

  /** `selectionDelimiterIndex`: the first colon after a drive prefix; the length if there is none. */
  function DelimiterIndex(value: string): (i: nat)
    ensures i <= |value| && (i < |value| ==> value[i] == ':')
  {
    var start := if HasDrivePrefix(value) then 2 else 0;
    start + IndexOf(value[start..], ':')
  }

  /** `splitSelectionParts` of a trimmed selection. */
  function SplitParts(trimmed: string): (string, string) {
    var i := DelimiterIndex(trimmed);
    if i == |trimmed| then (trimmed, "") else (trimmed[..i], trimmed[i + 1..])
  }

  function Parse(selection: string): Parsed {
    var trimmed := TrimSpace(selection);
    if trimmed == "" then EmptySelection
    else
      var (path, context) := SplitParts(trimmed);
      if IsBlank(path) then MissingPath else Ok(Selection(path, context, selection))
  }

  function Print(s: Selection): string {
    if s.context == "" then s.path else s.path + ":" + s.context
  }

  // ----- Printing, then parsing -----

  predicate SameParts(parsed: Parsed, path: string, context: string) {
    parsed.Ok? && parsed.selection.path == path && parsed.selection.context == context
  }

  /** A drive prefix and a non-empty rest without colons. */
  predicate IsDrivePath(path: string) {
    |path| >= 3 && IsAlpha(path[0]) && path[1] == ':' && ':' !in path[2..]
  }

  /** The path can be told apart from the context that follows it. */
  predicate Separable(path: string, context: string) {
    || IsDrivePath(path)
    || (path != "" && ':' !in path && (|path| == 1 && IsAlpha(path[0]) ==> context != "" && context[0] == ':'))
  }

  lemma {:induction false} IndexOfNone(s: string, c: char)
    ensures IndexOf(s, c) == |s| <==> c !in s
  {
    if s != "" {
      IndexOfNone(s[1..], c);
      assert s == [s[0]] + s[1..];
    }
  }

  /** The delimiter of a printed selection is the colon it was printed with exactly when the path is
      separable. */
  lemma {:induction false} PrintedDelimiter(path: string, context: string)
    requires context != ""
    ensures path != "" && DelimiterIndex(path + ":" + context) == |path| <==> Separable(path, context)
  {
    var value := path + ":" + context;
    if HasDrivePrefix(value) {
      assert IsAlpha(path[0]) || |path| == 0;
      if |path| >= 2 {
        assert value[..2] == path[..2];
        assert value[2..] == path[2..] + [':'] + context;
        if ':' !in path[2..] {
          IndexOfFirst(path[2..], context, ':');
        } else {
          EarlierColon(path[2..], context);
        }
        assert ':' in path by { assert path[1] == ':'; }
      }
    } else {
      assert value[0..] == path + [':'] + context;
      if ':' !in path {
        IndexOfFirst(path, context, ':');
      } else {
        EarlierColon(path, context);
      }
    }
  }

  /** One letter and a colon in front are taken for a drive, and so belong to the path; anything else in
      front ends the path at its colon. */
  lemma DriveLettersOnly(c: char, rest: string, context: string)
    requires c != ':' && rest != "" && ':' !in rest
    ensures var value := [c] + ":" + rest + ":" + context;
            SplitParts(value) ==
            if 'a' <= c <= 'z' || 'A' <= c <= 'Z' then ([c] + ":" + rest, context) else ([c], rest + ":" + context)
  {
    var value := [c] + ":" + rest + ":" + context;
    assert rest[0] in rest;
    if IsAlpha(c) {
      IndexOfFirst(rest, context, ':');
      assert value[2..] == rest + [':'] + context;
      assert value[..2 + |rest|] == [c] + ":" + rest && value[2 + |rest| + 1..] == context;
    } else {
      IndexOfFirst([c], rest + ":" + context, ':');
      assert value[0..] == [c] + [':'] + (rest + ":" + context);
      assert value[..1] == [c] && value[2..] == rest + ":" + context;
    }
  }

  lemma {:induction false} EarlierColon(before: string, after: string)
    requires ':' in before
    ensures IndexOf(before + [':'] + after, ':') < |before|
  {
    var all := before + [':'] + after;
    var j :| 0 <= j < |before| && before[j] == ':';
    assert all[j] == ':';
  }

  /** What parsing does with a text whose trimmed form is known. */
  lemma {:induction false} ParseOf(selection: string, trimmed: string)
    requires TrimSpace(selection) == trimmed
    ensures Parse(selection) ==
            if trimmed == "" then EmptySelection
            else if IsBlank(SplitParts(trimmed).0) then MissingPath
            else Ok(Selection(SplitParts(trimmed).0, SplitParts(trimmed).1, selection))
  {
  }

  lemma {:induction false} EmptyPathIsMissing(context: string)
    ensures SplitParts(":" + context).0 == ""
  {
    var value := ":" + context;
    assert value[0..] == value;
    assert DelimiterIndex(value) == 0;
  }

  /** Parsing what was printed returns the same path and context exactly when the printed text has no
      outer white space and its path is separable. */
  lemma {:induction false} PrintThenParse(path: string, context: string)
    requires context != ""
    ensures SameParts(Parse(Print(Selection(path, context, ""))), path, context) <==>
            IsTrimmed(path + ":" + context) && Separable(path, context)
  {
    var value := path + ":" + context;
    ParseOf(value, TrimSpace(value));
    if !IsTrimmed(value) {
      ShorterTrim(value);
      PartsAreShort(TrimSpace(value));
      return;
    }
    assert TrimSpace(value) == value;
    PrintedDelimiter(path, context);
    if Separable(path, context) {
      assert value[..|path|] == path && value[|path| + 1..] == context;
      PathNotBlank(path, value);
    } else {
      NotSameSplit(path, context);
      if path == "" {
        EmptyPathIsMissing(context);
      }
    }
  }

  lemma {:induction false} PathNotBlank(path: string, value: string)
    requires path != "" && IsTrimmed(value) && path <= value
    ensures !IsBlank(path)
  {
    assert !IsSpace(path[0]) by { assert value[0] == path[0]; }
    assert TrimLeft(path) == path;
  }

  lemma {:induction false} NotSameSplit(path: string, context: string)
    requires context != "" && !(path != "" && DelimiterIndex(path + ":" + context) == |path|)
    ensures path == "" || SplitParts(path + ":" + context) != (path, context)
  {
    var value := path + ":" + context;
    var i := DelimiterIndex(value);
    assert i < |value| ==> |value[..i]| == i;
  }

  lemma {:induction false} ShorterTrim(value: string)
    requires !IsTrimmed(value)
    ensures |TrimSpace(value)| < |value|
  {
    var left := TrimLeft(value);
    assert |TrimSpace(value)| <= |left| <= |value|;
  }

  /** Path, colon and context together are never longer than the trimmed text. */
  lemma {:induction false} PartsAreShort(trimmed: string)
    ensures var (path, context) := SplitParts(trimmed);
            |path| + |context| + (if context == "" then 0 else 1) <= |trimmed|
  {
  }

  // ----- Parsing, then printing -----

  /** A path that parsing found splits no further. */
  lemma {:induction false} FoundPathIsWhole(trimmed: string)
    requires trimmed != ""
    ensures var path := SplitParts(trimmed).0; SplitParts(path) == (path, "")
  {
    var i := DelimiterIndex(trimmed);
    if i == |trimmed| {
    } else {
      var path := trimmed[..i];
      if HasDrivePrefix(trimmed) {
        assert path[2..] == trimmed[2..][..i - 2];
        assert ':' !in path[2..];
        assert HasDrivePrefix(path);
        IndexOfNone(path[2..], ':');
      } else {
        assert trimmed[0..] == trimmed;
        assert ':' !in path;
        assert path[0..] == path;
        IndexOfNone(path, ':');
      }
    }
  }

  lemma {:induction false} TrimmedPathReparses(path: string)
    requires IsTrimmed(path) && !IsBlank(path) && SplitParts(path) == (path, "")
    ensures SameParts(Parse(path), path, "")
  {
    ParseOf(path, path);
  }

  lemma {:induction false} OtherPathDoesNot(path: string)
    requires !IsTrimmed(path)
    ensures !SameParts(Parse(path), path, "")
  {
    var trimmed := TrimSpace(path);
    ParseOf(path, trimmed);
    ShorterTrim(path);
    PartsAreShort(trimmed);
  }

  /** A parsed context comes with the whole trimmed text as its printed form. */
  lemma {:induction false} ContextPrintsWhole(trimmed: string)
    requires SplitParts(trimmed).1 != ""
    ensures trimmed == SplitParts(trimmed).0 + ":" + SplitParts(trimmed).1
  {
    var i := DelimiterIndex(trimmed);
    assert trimmed == trimmed[..i] + [trimmed[i]] + trimmed[i + 1..];
  }

  lemma {:induction false} ReprintedParts(trimmed: string, path: string, context: string)
    requires IsTrimmed(trimmed) && trimmed != "" && SplitParts(trimmed) == (path, context) && !IsBlank(path)
    ensures SameParts(Parse(if context == "" then path else path + ":" + context), path, context) <==> context != "" || IsTrimmed(path)
  {
    if context != "" {
      ContextPrintsWhole(trimmed);
      ParseOf(trimmed, trimmed);
    } else {
      FoundPathIsWhole(trimmed);
      if IsTrimmed(path) {
        TrimmedPathReparses(path);
      } else {
        OtherPathDoesNot(path);
      }
    }
  }

  /** Printing what was parsed and parsing it again gives the same path and context exactly when there
      is a context or the path has no outer white space. */
  lemma {:induction false} ParseThenPrint(selection: string)
    ensures var parsed := Parse(selection);
            parsed.Ok? ==>
              var s := parsed.selection;
              SameParts(Parse(Print(s)), s.path, s.context) <==> s.context != "" || IsTrimmed(s.path)
  {
    var trimmed := TrimSpace(selection);
    ParseOf(selection, trimmed);
    if Parse(selection).Ok? {
      ReprintedParts(trimmed, SplitParts(trimmed).0, SplitParts(trimmed).1);
    }
  }
}
