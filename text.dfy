/** Python's `str.lower()` and the substring test `p in s`. */
module Text {

  function LowerChar(c: char): char {
    if 'A' <= c <= 'Z' then (c as int + 32) as char else c
  }

  /** `s.lower()`, for the ASCII letters. */
  function Lower(s: string): (r: string)
    ensures |r| == |s|
    ensures forall i :: 0 <= i < |s| ==> r[i] == LowerChar(s[i])
  {
    if s == [] then [] else [LowerChar(s[0])] + Lower(s[1..])
  }

  /** `p` occurs in `s` at `i`, compared from the `k`-th character on. */
  function MatchesAt(s: string, p: string, i: nat, k: nat): bool
    requires i + |p| <= |s| && k <= |p|
    decreases |p| - k
  {
    k == |p| || (s[i + k] == p[k] && MatchesAt(s, p, i, k + 1))
  }

  function OccursFrom(s: string, p: string, i: nat): bool
    decreases |s| - i
  {
    i + |p| <= |s| && (MatchesAt(s, p, i, 0) || OccursFrom(s, p, i + 1))
  }

  /** Python's `p in s` on two strings. */
  function Contains(s: string, p: string): bool {
    OccursFrom(s, p, 0)
  }

  /** `p` is the slice of `s` that starts at `i`. */
  ghost predicate OccursAt(s: string, p: string, i: int) {
    0 <= i && i + |p| <= |s| && s[i..i + |p|] == p
  }

  lemma {:induction false} MatchesAtIsSlice(s: string, p: string, i: nat, k: nat)
    requires i + |p| <= |s| && k <= |p|
    ensures MatchesAt(s, p, i, k) <==> s[i + k..i + |p|] == p[k..]
    decreases |p| - k
  {
    if k < |p| {
      MatchesAtIsSlice(s, p, i, k + 1);
      assert s[i + k..i + |p|] == [s[i + k]] + s[i + k + 1..i + |p|];
      assert p[k..] == [p[k]] + p[k + 1..];
    }
  }

  lemma {:induction false} OccursFromIsSomeSlice(s: string, p: string, i: nat)
    ensures OccursFrom(s, p, i) <==> exists j :: i <= j && OccursAt(s, p, j)
    decreases |s| - i
  {
    if i + |p| <= |s| {
      MatchesAtIsSlice(s, p, i, 0);
      OccursFromIsSomeSlice(s, p, i + 1);
      if MatchesAt(s, p, i, 0) {
        assert OccursAt(s, p, i);
      }
      if exists j :: i <= j && OccursAt(s, p, j) {
        var j :| i <= j && OccursAt(s, p, j);
        assert j == i || i + 1 <= j;
      }
    }
  }

  /** The recursive test agrees with the definition of a substring: some
      slice of `s` equals `p`. */
  lemma ContainsIsSubstring(s: string, p: string)
    ensures Contains(s, p) <==> exists j :: OccursAt(s, p, j)
  {
    OccursFromIsSomeSlice(s, p, 0);
  }

  /** The empty string is a substring of every string, and every string of itself. */
  lemma ContainsTrivial(s: string)
    ensures Contains(s, "") && Contains(s, s)
  {
    ContainsIsSubstring(s, "");
    ContainsIsSubstring(s, s);
    assert OccursAt(s, "", 0);
    assert OccursAt(s, s, 0);
  }

  /** A string that lacks some prefix of `p` lacks `p`. */
  lemma AbsentPrefix(s: string, p: string, n: nat)
    requires n <= |p| && !Contains(s, p[..n])
    ensures !Contains(s, p)
  {
    ContainsIsSubstring(s, p);
    ContainsIsSubstring(s, p[..n]);
    forall j | OccursAt(s, p, j) ensures OccursAt(s, p[..n], j) {
      assert s[j..j + n] == s[j..j + |p|][..n];
    }
  }
}
