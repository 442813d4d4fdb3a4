/** The two string operations the intent classifier relies on:
    lower-casing a query and testing whether a keyword occurs in it. */
module Text {

  /** Lower-cases an ASCII capital letter and leaves every other character alone. */
  function LowerChar(c: char): char
  {
    if 'A' <= c <= 'Z' then (c as int + 32) as char else c
  }

  /** True when no character of `s` is an ASCII capital letter. */
  predicate IsLower(s: string)
  {
    forall i :: 0 <= i < |s| ==> !('A' <= s[i] <= 'Z')
  }

  /** The lower-cased copy of `s`, character by character. */
  function Lower(s: string): (r: string)
    ensures |r| == |s|
    ensures forall i :: 0 <= i < |s| ==> r[i] == LowerChar(s[i])
    ensures IsLower(r)
  {
    if s == [] then [] else [LowerChar(s[0])] + Lower(s[1..])
  }

  /** Lower-casing a string that holds no capital letter changes nothing. */
  lemma LowerOfLower(s: string)
    requires IsLower(s)
    ensures Lower(s) == s
  {
  }

  /** Lower-casing twice is lower-casing once. */
  lemma LowerIdempotent(s: string)
    ensures Lower(Lower(s)) == Lower(s)
  {
    LowerOfLower(Lower(s));
  }

  /** `w` occurs in `s` starting at index `i`. */
  predicate OccursAt(s: string, w: string, i: nat)
  {
    i + |w| <= |s| && s[i..i + |w|] == w
  }

  /** An occurrence in the tail of `s` is an occurrence in `s` one index later. */
  lemma OccursInTail(s: string, w: string)
    requires s != []
    ensures forall i: nat :: OccursAt(s[1..], w, i) <==> OccursAt(s, w, i + 1)
  {
    forall i: nat
      ensures OccursAt(s[1..], w, i) <==> OccursAt(s, w, i + 1)
    {
      if i + |w| <= |s[1..]| {
        assert s[1..][i..i + |w|] == s[i + 1..i + 1 + |w|];
      }
    }
  }

  /** Substring test: `w` occurs somewhere in `s` (Python's `w in s`).
      The empty word occurs in every string. */
  function Contains(s: string, w: string): (b: bool)
    ensures b <==> exists i: nat :: OccursAt(s, w, i)
    decreases |s|
  {
    if |w| > |s| then
      assert forall i: nat :: !OccursAt(s, w, i);
      false
    else if s[..|w|] == w then
      assert OccursAt(s, w, 0);
      true
    else
      OccursInTail(s, w);
      var b := Contains(s[1..], w);
      assert b ==> exists i: nat :: OccursAt(s, w, i) by {
        if b {
          var i: nat :| OccursAt(s[1..], w, i);
          assert OccursAt(s, w, i + 1);
        }
      }
      assert (exists i: nat :: OccursAt(s, w, i)) ==> b by {
        if exists i: nat :: OccursAt(s, w, i) {
          var i: nat :| OccursAt(s, w, i);
          assert i != 0;
          assert OccursAt(s[1..], w, i - 1);
        }
      }
      b
  }

  /** A keyword whose first letter appears nowhere it could start is absent. */
  lemma FirstLetterAbsent(s: string, w: string)
    requires w != []
    requires forall i :: 0 <= i <= |s| - |w| ==> s[i] != w[0]
    ensures !Contains(s, w)
  {
  }
}
