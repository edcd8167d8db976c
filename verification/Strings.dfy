/** The string operations of Go's `strings` package that the modelled code relies on. */
module Strings {

  /** `unicode.IsSpace`: the White_Space characters. */
  predicate IsSpace(c: char) {
    || '\t' <= c <= '\r'
    || c == ' ' || c == '\U{85}' || c == '\U{A0}' || c == '\U{1680}'
    || '\U{2000}' <= c <= '\U{200A}'
    || c == '\U{2028}' || c == '\U{2029}' || c == '\U{202F}' || c == '\U{205F}' || c == '\U{3000}'
  }

  function TrimLeft(s: string): (r: string)
    ensures |r| <= |s| && s[|s| - |r|..] == r
    ensures r != "" ==> !IsSpace(r[0])
    ensures forall i | 0 <= i < |s| - |r| :: IsSpace(s[i])
  {
    if s == "" || !IsSpace(s[0]) then s else TrimLeft(s[1..])
  }

  function TrimRight(s: string): (r: string)
    ensures |r| <= |s| && s[..|r|] == r
    ensures r != "" ==> !IsSpace(r[|r| - 1])
    ensures forall i | |r| <= i < |s| :: IsSpace(s[i])
  {
    if s == "" || !IsSpace(s[|s| - 1]) then s else TrimRight(s[..|s| - 1])
  }

  /** `strings.TrimSpace`. */
  function TrimSpace(s: string): (r: string)
    ensures IsTrimmed(r)
    ensures IsTrimmed(s) ==> r == s
  {
    TrimRight(TrimLeft(s))
  }

  /** Trimming drops white space at both ends and nothing else. */
  lemma TrimSpaceMeaning(s: string) returns (i: nat, j: nat)
    ensures i <= j <= |s| && TrimSpace(s) == s[i..j]
    ensures forall k | 0 <= k < i || j <= k < |s| :: IsSpace(s[k])
  {
    var left := TrimLeft(s);
    var r := TrimRight(left);
    i, j := |s| - |left|, |s| - |left| + |r|;
    assert left == s[i..] && r == left[..|r|];
    forall k | j <= k < |s| ensures IsSpace(s[k]) {
      assert s[k] == left[k - i];
    }
  }

  /** No outer white space. */
  predicate IsTrimmed(s: string) {
    s == "" || (!IsSpace(s[0]) && !IsSpace(s[|s| - 1]))
  }

  predicate IsBlank(s: string) {
    TrimSpace(s) == ""
  }

  /** The position of the first c, or the length. */
  function IndexOf(s: string, c: char): (i: nat)
    ensures i <= |s| && (forall j | 0 <= j < i :: s[j] != c) && (i < |s| ==> s[i] == c)
  {
    if s == "" || s[0] == c then 0 else 1 + IndexOf(s[1..], c)
  }

  lemma {:induction false} IndexOfFirst(before: string, after: string, c: char)
    requires c !in before
    ensures IndexOf(before + [c] + after, c) == |before|
  {
    var all := before + [c] + after;
    if before != "" {
      IndexOfFirst(before[1..], after, c);
      assert all[1..] == before[1..] + [c] + after;
      assert all[0] == before[0] && before[0] in before;
    }
  }
}
