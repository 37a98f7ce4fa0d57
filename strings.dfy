/**
 * Substring search on strings, as `String.prototype.includes` does it when
 * called without a start position: `s.includes(p)` holds when `p` occurs in
 * `s` at some index (the empty string occurs everywhere).
 */
module Strings {

  /** `p` occurs in `s` starting at index `i`. */
  ghost predicate OccursAt(s: string, p: string, i: int)
  {
    0 <= i && i + |p| <= |s| && s[i..i + |p|] == p
  }

  /** `p` is a prefix of `s`. */
  predicate StartsWith(s: string, p: string)
  {
    |p| <= |s| && s[..|p|] == p
  }

  /** `s.includes(p)`: tries every start position of `s` from the left. */
  function Includes(s: string, p: string): (b: bool)
    ensures b <==> exists i :: OccursAt(s, p, i)
    decreases |s|
  {
    if StartsWith(s, p) then
      assert OccursAt(s, p, 0);
      true
    else if |s| == 0 then
      false
    else
      OccurrenceInTail(s, p);
      Includes(s[1..], p)
  }

  /** When `p` is not a prefix of a non-empty `s`, its occurrences in `s` are those in `s[1..]`, shifted by one. */
  lemma OccurrenceInTail(s: string, p: string)
    requires |s| > 0 && !StartsWith(s, p)
    ensures (exists i :: OccursAt(s, p, i)) <==> (exists i :: OccursAt(s[1..], p, i))
  {
    if i :| OccursAt(s, p, i) {
      assert i != 0;
      assert s[1..][i - 1..i - 1 + |p|] == s[i..i + |p|];
      assert OccursAt(s[1..], p, i - 1);
    }
    if i :| OccursAt(s[1..], p, i) {
      assert s[1..][i..i + |p|] == s[i + 1..i + 1 + |p|];
      assert OccursAt(s, p, i + 1);
    }
  }

  /**
   * None of `frags[lo..]` is included in `s` when each holds, at the index
   * `at` gives it, a character that `s` lacks.
   */
  lemma NoneIncluded(s: string, frags: seq<string>, lo: nat, at: seq<int>)
    requires |at| == |frags|
    requires forall j :: lo <= j < |frags| ==> 0 <= at[j] < |frags[j]|
    requires forall j :: lo <= j < |frags| ==> frags[j][at[j]] !in s
    ensures forall j :: lo <= j < |frags| ==> !Includes(s, frags[j])
  {
  }

  /** Inclusion is transitive: a string that includes `p` includes every fragment of `p`. */
  lemma {:induction false} IncludesTransitive(s: string, p: string, q: string)
    requires Includes(s, p) && Includes(p, q)
    ensures Includes(s, q)
  {
    var i :| OccursAt(s, p, i);
    var j :| OccursAt(p, q, j);
    assert forall k :: 0 <= k < |q| ==> s[i + j + k] == s[i..i + |p|][j + k] == q[k];
    assert OccursAt(s, q, i + j);
  }

  /** A fragment occurring at a known index is included. */
  lemma IncludedAt(s: string, p: string, i: int)
    requires 0 <= i && i + |p| <= |s| && s[i..i + |p|] == p
    ensures Includes(s, p)
  {
    assert OccursAt(s, p, i);
  }
}
