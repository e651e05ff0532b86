/**
 * The string operations the filters use: `toLowerCase`, `includes` and the
 * emptiness test on `trim()`. Lower-casing and white space are modelled on
 * ASCII only.
 */
module Text {

  function LowerChar(c: char): (d: char)
    ensures 'A' <= c <= 'Z' ==> 'a' <= d <= 'z'
    ensures !('A' <= c <= 'Z') ==> d == c
  {
    if 'A' <= c <= 'Z' then (c as int + 32) as char else c
  }

  /** `s.toLowerCase()` for ASCII letters; every other character is kept. */
  function Lower(s: string): (r: string)
    ensures |r| == |s|
    ensures forall i :: 0 <= i < |r| ==> r[i] == LowerChar(s[i])
  {
    if s == [] then [] else [LowerChar(s[0])] + Lower(s[1..])
  }

  /** `n` occurs in `h` starting at position `i`. */
  predicate OccursAt(h: string, n: string, i: int) {
    0 <= i && i + |n| <= |h| && h[i..i + |n|] == n
  }

  /** The characters `n[k..]` match `h` from position `i + k` on. */
  predicate MatchesFrom(h: string, n: string, i: nat, k: nat)
    requires i + |n| <= |h| && k <= |n|
    decreases |n| - k
  {
    k == |n| || (h[i + k] == n[k] && MatchesFrom(h, n, i, k + 1))
  }

  lemma {:induction false} MatchesFromOccurs(h: string, n: string, i: nat, k: nat)
    requires i + |n| <= |h| && k <= |n|
    ensures MatchesFrom(h, n, i, k) <==> h[i + k..i + |n|] == n[k..]
    decreases |n| - k
  {
    if k < |n| {
      MatchesFromOccurs(h, n, i, k + 1);
      assert h[i + k..i + |n|] == [h[i + k]] + h[i + k + 1..i + |n|];
      assert n[k..] == [n[k]] + n[k + 1..];
    }
  }

  /** `h.includes(n)`: `n` occurs in `h` as a contiguous block, starting at `from` or later. */
  function Contains(h: string, n: string, from: nat := 0): (r: bool)
    ensures r <==> exists j :: from <= j && OccursAt(h, n, j)
    decreases |h| - from
  {
    if from + |n| > |h| then false
    else
      MatchesFromOccurs(h, n, from, 0);
      assert MatchesFrom(h, n, from, 0) <==> OccursAt(h, n, from);
      MatchesFrom(h, n, from, 0) || Contains(h, n, from + 1)
  }

  /** Every string includes itself, and every string includes "". */
  lemma ContainsSelfAndEmpty(s: string)
    ensures Contains(s, s)
    ensures Contains(s, "")
  {
    assert OccursAt(s, s, 0);
    assert OccursAt(s, "", 0);
  }

  /** The characters `c` and `d` never stand side by side in `s`, ignoring case. */
  predicate PairAbsent(s: string, c: char, d: char) {
    forall j :: 0 <= j < |s| - 1 ==> !(LowerChar(s[j]) == c && LowerChar(s[j + 1]) == d)
  }

  /** A string in which two neighbouring characters of `n` never stand side by side cannot contain `n`, ignoring case. */
  lemma PairAbsentNotContained(h: string, n: string, k: nat)
    requires k + 1 < |n|
    requires PairAbsent(h, n[k], n[k + 1])
    ensures !Contains(Lower(h), n)
  {
    var l := Lower(h);
    forall j | 0 <= j && j + |n| <= |l|
      ensures !OccursAt(l, n, j)
    {
      assert l[j..j + |n|][k] == l[j + k] && l[j..j + |n|][k + 1] == l[j + k + 1];
    }
  }

  /** A string whose first characters spell `n` contains `n`. */
  lemma PrefixContained(h: string, n: string)
    requires |n| <= |h| && forall i :: 0 <= i < |n| ==> h[i] == n[i]
    ensures Contains(h, n)
  {
    assert h[0..|n|] == n;
    assert OccursAt(h, n, 0);
  }

  predicate IsSpace(c: char) {
    c == ' ' || c == '\t' || c == '\n' || c == '\r' || c == '\U{000B}' || c == '\U{000C}'
  }

  /** `!s.trim()`: the string is empty once white space is stripped from both ends. */
  predicate IsBlank(s: string) {
    forall i :: 0 <= i < |s| ==> IsSpace(s[i])
  }
}
