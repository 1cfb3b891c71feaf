/** The two string operations the classification rules use: `str.lower()` and `in` on strings. */
module Text {

  /** ASCII lower-casing of one character. */
  function LowerChar(c: char): char {
    if 'A' <= c <= 'Z' then (c as int + 32) as char else c
  }

  /** `s.lower()`: every character lower-cased, position by position, and no capital letter left. */
  function Lower(s: string): (r: string)
    ensures |r| == |s|
    ensures forall i :: 0 <= i < |s| ==> r[i] == LowerChar(s[i])
    ensures forall i :: 0 <= i < |r| ==> !('A' <= r[i] <= 'Z')
  {
    if s == [] then [] else [LowerChar(s[0])] + Lower(s[1..])
  }

  /** `k` occurs in `s` starting at position `i`. */
  ghost predicate OccursAt(k: string, s: string, i: int) {
    0 <= i && i + |k| <= |s| && s[i..i + |k|] == k
  }

  /** The reference meaning of Python's `k in s`: `k` occurs at some position of `s`. */
  ghost predicate Occurs(k: string, s: string) {
    exists i :: OccursAt(k, s, i)
  }

  predicate StartsWith(s: string, p: string) {
    |p| <= |s| && s[..|p|] == p
  }

  /** When `k` is not a prefix of a non-empty `s`, it occurs in `s` iff it occurs in `s[1..]`. */
  lemma OccursInTail(k: string, s: string)
    requires |s| > 0 && !StartsWith(s, k)
    ensures Occurs(k, s) <==> Occurs(k, s[1..])
  {
    if Occurs(k, s) {
      var i :| OccursAt(k, s, i);
      assert i != 0;
      assert s[1..][i - 1..i - 1 + |k|] == s[i..i + |k|];
      assert OccursAt(k, s[1..], i - 1);
    }
    if Occurs(k, s[1..]) {
      var j :| OccursAt(k, s[1..], j);
      assert s[j + 1..j + 1 + |k|] == s[1..][j..j + |k|];
      assert OccursAt(k, s, j + 1);
    }
  }

  /** Python's `k in s` on strings, computed by scanning `s` from the left. */
  function Contains(s: string, k: string): (r: bool)
    ensures r <==> Occurs(k, s)
    decreases |s|
  {
    if StartsWith(s, k) then
      assert OccursAt(k, s, 0) by { assert s[0..0 + |k|] == s[..|k|]; }
      true
    else if |s| == 0 then
      false
    else
      OccursInTail(k, s);
      Contains(s[1..], k)
  }
}
