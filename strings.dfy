/**
 * The string operations the page relies on, with JavaScript's semantics:
 * `endsWith`, `replace` with a string pattern (first occurrence only) and
 * `slice(0, n)` (which clamps to the string's length).
 */
module Strings {

  /** `s.endsWith(suffix)` */
  predicate EndsWith(s: string, suffix: string) {
    |suffix| <= |s| && s[|s| - |suffix|..] == suffix
  }

  /** `pat` occurs in `s` starting at index `i`. */
  predicate OccursAt(s: string, pat: string, i: nat) {
    i + |pat| <= |s| && s[i..i + |pat|] == pat
  }

  /** The first index at or after `from` where `pat` occurs, or -1 (`indexOf`). */
  function IndexOf(s: string, pat: string, from: nat): (r: int)
    decreases |s| - from
    ensures r == -1 || (from <= r && OccursAt(s, pat, r))
    ensures forall i: nat :: from <= i && (r == -1 || i < r) ==> !OccursAt(s, pat, i)
  {
    if from + |pat| > |s| then -1
    else if OccursAt(s, pat, from) then from
    else IndexOf(s, pat, from + 1)
  }

  /** `s.replace(pat, rep)` for a string `pat`. */
  function ReplaceFirst(s: string, pat: string, rep: string): string {
    var i := IndexOf(s, pat, 0);
    if i < 0 then s else s[..i] + rep + s[i + |pat|..]
  }

  /** `replace` leaves `s` alone when `pat` does not occur, and otherwise rewrites only its first occurrence. */
  lemma ReplaceFirstSpec(s: string, pat: string, rep: string)
    ensures (forall i: nat :: !OccursAt(s, pat, i)) ==> ReplaceFirst(s, pat, rep) == s
    ensures forall i: nat ::
              OccursAt(s, pat, i) && (forall j: nat :: j < i ==> !OccursAt(s, pat, j)) ==>
                ReplaceFirst(s, pat, rep) == s[..i] + rep + s[i + |pat|..]
  {
    var k := IndexOf(s, pat, 0);
    forall i: nat | OccursAt(s, pat, i) && (forall j: nat :: j < i ==> !OccursAt(s, pat, j))
      ensures k == i
    {
    }
  }

  /** When the only occurrence of `pat` is the suffix, `replace` rewrites that suffix. */
  lemma ReplaceSuffix(s: string, pat: string, rep: string)
    requires EndsWith(s, pat) && |pat| > 0
    requires forall i: nat :: i < |s| - |pat| ==> !OccursAt(s, pat, i)
    ensures ReplaceFirst(s, pat, rep) == s[..|s| - |pat|] + rep
  {
    ReplaceFirstSpec(s, pat, rep);
    assert OccursAt(s, pat, |s| - |pat|);
  }

  /** `s.slice(0, n)`: the first `n` characters, or all of `s` when it is shorter. */
  function Take(s: string, n: nat): (r: string)
    ensures |r| == if |s| < n then |s| else n
    ensures r <= s
  {
    if |s| < n then s else s[..n]
  }
}
