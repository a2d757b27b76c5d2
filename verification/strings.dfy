/** The two string operations the scorer relies on: `String.prototype.includes`
    (substring search) and `String.prototype.toLowerCase`, the latter restricted
    to ASCII letters. */
module Strings {

  /** `p` occurs in `s` starting at index `i`. */
  predicate OccursAt(s: string, p: string, i: int)
  {
    0 <= i && i + |p| <= |s| && s[i..i + |p|] == p
  }

  /** `s.includes(p)`: a left-to-right scan for the first position where `p`
      occurs. The empty pattern occurs in every string. */
  function Includes(s: string, p: string): (found: bool)
    ensures p == [] ==> found
    ensures found ==> |p| <= |s|
    decreases |s|
  {
    if |s| < |p| then false
    else s[..|p|] == p || (0 < |s| && Includes(s[1..], p))
  }

  /** The scan finds `p` exactly when `p` occurs somewhere in `s`. */
  lemma {:induction false} IncludesIff(s: string, p: string)
    ensures Includes(s, p) <==> exists i :: OccursAt(s, p, i)
    decreases |s|
  {
    if |s| < |p| {
      assert forall i :: !OccursAt(s, p, i);
    } else if s[..|p|] == p {
      assert OccursAt(s, p, 0);
    } else {
      IncludesIff(s[1..], p);
      forall i | OccursAt(s[1..], p, i) ensures OccursAt(s, p, i + 1) {
        assert s[1..][i..i + |p|] == s[i + 1..i + 1 + |p|];
      }
      forall j | OccursAt(s, p, j) ensures OccursAt(s[1..], p, j - 1) {
        assert j != 0 by { assert s[0..|p|] == s[..|p|]; }
        assert s[1..][j - 1..j - 1 + |p|] == s[j..j + |p|];
      }
    }
  }

  predicate IsUpper(c: char)
  {
    'A' <= c <= 'Z'
  }

  /** ASCII lowering of one character; every other character is kept. */
  function LowerChar(c: char): (r: char)
    ensures !IsUpper(r)
    ensures IsUpper(c) ==> r as int == c as int + 32
    ensures !IsUpper(c) ==> r == c
  {
    if IsUpper(c) then (c as int - 'A' as int + 'a' as int) as char else c
  }

  /** `s.toLowerCase()` over ASCII letters. */
  function ToLower(s: string): (r: string)
    ensures |r| == |s|
    ensures forall i :: 0 <= i < |s| ==> r[i] == LowerChar(s[i])
  {
    seq(|s|, i requires 0 <= i < |s| => LowerChar(s[i]))
  }

  /** A lowered string holds no upper-case letter, so a pattern that holds one
      can never be found in it. */
  lemma UpperCasePatternNotIncluded(s: string, p: string, k: int)
    requires 0 <= k < |p| && IsUpper(p[k])
    ensures !Includes(ToLower(s), p)
  {
    IncludesIff(ToLower(s), p);
  }
}
