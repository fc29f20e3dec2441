/** Python's substring test `pat in s` on strings. */
module Text {

  /** The characters of `pat` occur in `s` from index `i + k` on. */
  predicate MatchesAt(s: string, pat: string, i: nat, k: nat)
    requires i + |pat| <= |s|
    decreases |pat| - k
  {
    k >= |pat| || (s[i + k] == pat[k] && MatchesAt(s, pat, i, k + 1))
  }

  /** `pat` occurs in `s` at some index `i` or later. */
  predicate ContainsFrom(s: string, pat: string, i: nat)
    decreases |s| - i
  {
    i + |pat| <= |s| && (MatchesAt(s, pat, i, 0) || ContainsFrom(s, pat, i + 1))
  }

  /** `pat in s` */
  predicate Contains(s: string, pat: string)
  {
    ContainsFrom(s, pat, 0)
  }

  lemma {:induction false} MatchesAtChar(s: string, pat: string, i: nat, k: nat, j: nat)
    requires i + |pat| <= |s| && k <= j < |pat|
    requires MatchesAt(s, pat, i, k)
    ensures s[i + j] == pat[j]
    decreases j - k
  {
    if k < j {
      MatchesAtChar(s, pat, i, k + 1, j);
    }
  }

  /** If one character of `pat` never occurs in `s` from index `i` on, then
      `pat` does not occur there either. */
  lemma {:induction false} AbsentFrom(s: string, pat: string, i: nat, k: nat)
    requires k < |pat|
    requires forall j :: i <= j < |s| ==> s[j] != pat[k]
    ensures !ContainsFrom(s, pat, i)
    decreases |s| - i
  {
    if i + |pat| <= |s| {
      if MatchesAt(s, pat, i, 0) {
        MatchesAtChar(s, pat, i, 0, k);
      }
      AbsentFrom(s, pat, i + 1, k);
    }
  }

  /** A string starting with `pat` contains it. */
  lemma {:induction false} PrefixContains(s: string, pat: string)
    requires |pat| <= |s| && s[..|pat|] == pat
    ensures Contains(s, pat)
  {
    PrefixMatches(s, pat, 0);
  }

  lemma {:induction false} PrefixMatches(s: string, pat: string, k: nat)
    requires |pat| <= |s| && s[..|pat|] == pat && k <= |pat|
    ensures MatchesAt(s, pat, 0, k)
    decreases |pat| - k
  {
    if k < |pat| {
      assert s[..|pat|][k] == s[k];
      PrefixMatches(s, pat, k + 1);
    }
  }

  /** A string lacking one of the characters of `pat` does not contain it. */
  lemma Lacks(s: string, pat: string, k: nat)
    requires k < |pat| && pat[k] !in s
    ensures !Contains(s, pat)
  {
    AbsentFrom(s, pat, 0, k);
  }
}
