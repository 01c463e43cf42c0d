/**
 * The few Python string operations the device identifiers use: `startswith`, the `in` test for substrings,
 * `lower` (on ASCII letters) and a one-character `replace`.
 */
module Strings {
  /** `s.startswith(prefix)`. */
  predicate StartsWith(s: string, prefix: string)
  {
    |prefix| <= |s| && s[..|prefix|] == prefix
  }

  /** `sub in s`: sub occurs in s at some position. */
  predicate Contains(s: string, sub: string)
    decreases |s|
  {
    StartsWith(s, sub) || (s != [] && Contains(s[1..], sub))
  }

  /** sub occurs in s at position i. */
  predicate OccursAt(s: string, sub: string, i: int)
  {
    0 <= i <= |s| - |sub| && s[i..i + |sub|] == sub
  }

  /** `Contains` holds exactly when sub occurs at some position of s. */
  lemma {:induction false} ContainsAt(s: string, sub: string)
    ensures Contains(s, sub) <==> exists i :: OccursAt(s, sub, i)
    decreases |s|
  {
    if StartsWith(s, sub) {
      assert OccursAt(s, sub, 0);
    } else if s == [] {
    } else {
      ContainsAt(s[1..], sub);
      if Contains(s[1..], sub) {
        var i :| OccursAt(s[1..], sub, i);
        assert s[i + 1..i + 1 + |sub|] == s[1..][i..i + |sub|];
        assert OccursAt(s, sub, i + 1);
      } else {
        forall i | OccursAt(s, sub, i) ensures false {
          if i > 0 {
            OccursShift(s, sub, i);
          }
        }
      }
    }
  }

  /** An occurrence past the first position of s is an occurrence in the rest of s. */
  lemma OccursShift(s: string, sub: string, i: int)
    requires 0 < i
    ensures OccursAt(s, sub, i) ==> OccursAt(s[1..], sub, i - 1)
  {
    if OccursAt(s, sub, i) {
      forall k | 0 <= k < |sub| ensures s[1..][i - 1..i - 1 + |sub|][k] == sub[k] {
        assert s[1..][i - 1..i - 1 + |sub|][k] == s[i + k] == s[i..i + |sub|][k];
      }
      assert s[1..][i - 1..i - 1 + |sub|] == sub;
    }
  }

  /** The empty string occurs in every string. */
  lemma ContainsEmpty(s: string)
    ensures Contains(s, "")
  {
    assert s[..0] == "";
  }

  predicate IsUpper(c: char)
  {
    'A' <= c <= 'Z'
  }

  /** The lower-case form of an ASCII letter; every other character is kept. */
  function LowerChar(c: char): (d: char)
    ensures !IsUpper(d)
    ensures !IsUpper(c) ==> d == c
    ensures IsUpper(c) ==> d as int == c as int + 32
  {
    if IsUpper(c) then (c as int + 32) as char else c
  }

  /** `s.lower()`, on ASCII letters. */
  function Lower(s: string): (r: string)
    ensures |r| == |s|
    ensures forall i :: 0 <= i < |s| ==> r[i] == LowerChar(s[i])
  {
    seq(|s|, i requires 0 <= i < |s| => LowerChar(s[i]))
  }

  /** Lower-casing twice is lower-casing once, and a string without upper-case letters is its own lower-case
      form. */
  lemma LowerIdempotent(s: string)
    ensures Lower(Lower(s)) == Lower(s)
    ensures (forall i :: 0 <= i < |s| ==> !IsUpper(s[i])) ==> Lower(s) == s
  {
  }

  /** `s.replace(a, b)` for one-character strings a and b. */
  function Replace(s: string, a: char, b: char): (r: string)
    ensures |r| == |s|
    ensures forall i :: 0 <= i < |s| ==> r[i] == (if s[i] == a then b else s[i])
  {
    seq(|s|, i requires 0 <= i < |s| => if s[i] == a then b else s[i])
  }
}
