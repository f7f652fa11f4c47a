/**
 * Strings as sequences of characters: the substring test behind Swift's
 * `String.contains(_:)` and the lower-casing applied to classifier labels.
 */
module Text {

  /** `k` occurs in `s` starting at index `i`. */
  predicate OccursAt(k: string, s: string, i: int)
  {
    0 <= i && i + |k| <= |s| && s[i..i + |k|] == k
  }

  /** `k` is a substring of `s`. */
  ghost predicate Occurs(k: string, s: string)
  {
    exists i :: OccursAt(k, s, i)
  }

  /** Executable substring test: `s.contains(k)`, trying each start position from the left. */
  function Contains(s: string, k: string): (b: bool)
    ensures b <==> Occurs(k, s)
    decreases |s|
  {
    if |s| < |k| then
      assert forall i :: !OccursAt(k, s, i);
      false
    else if s[..|k|] == k then
      assert OccursAt(k, s, 0);
      true
    else
      OccursInTail(s, k);
      Contains(s[1..], k)
  }

  /** When `k` is not a prefix of `s`, it occurs in `s` exactly when it occurs in `s[1..]`. */
  lemma OccursInTail(s: string, k: string)
    requires |k| <= |s| && s[..|k|] != k
    ensures Occurs(k, s) <==> Occurs(k, s[1..])
  {
    if Occurs(k, s[1..]) {
      var i :| OccursAt(k, s[1..], i);
      assert s[1..][i..i + |k|] == s[i + 1..i + 1 + |k|];
      assert OccursAt(k, s, i + 1);
    }
    if Occurs(k, s) {
      var i :| OccursAt(k, s, i);
      assert i != 0;
      assert s[1..][i - 1..i - 1 + |k|] == s[i..i + |k|];
      assert OccursAt(k, s[1..], i - 1);
    }
  }

  /** A substring of a substring is a substring. */
  lemma OccursTransitive(a: string, b: string, c: string)
    requires Occurs(a, b) && Occurs(b, c)
    ensures Occurs(a, c)
  {
    var i :| OccursAt(a, b, i);
    var j :| OccursAt(b, c, j);
    assert forall m :: 0 <= m < |a| ==> c[j + i..j + i + |a|][m] == b[i + m] == a[m];
    assert OccursAt(a, c, j + i);
  }

  /** Lower-casing of one character (ASCII letters only). */
  function LowerChar(ch: char): char
  {
    if 'A' <= ch <= 'Z' then (ch as int + ('a' as int - 'A' as int)) as char else ch
  }

  /** `s.lowercased()`, character by character. */
  function Lower(s: string): (r: string)
    ensures |r| == |s|
    ensures forall i :: 0 <= i < |s| && 'A' <= s[i] <= 'Z' ==> r[i] as int == s[i] as int + 32
    ensures forall i :: 0 <= i < |s| && !('A' <= s[i] <= 'Z') ==> r[i] == s[i]
  {
    seq(|s|, i requires 0 <= i < |s| => LowerChar(s[i]))
  }

  /** Lower-cased text has no upper-case letter, and lower-casing it again changes nothing. */
  lemma LowerIsLowerCase(s: string)
    ensures forall i :: 0 <= i < |s| ==> !('A' <= Lower(s)[i] <= 'Z')
    ensures Lower(Lower(s)) == Lower(s)
  {
  }
}
