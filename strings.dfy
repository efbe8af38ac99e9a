/**
  The few Python `str` operations the pipeline relies on, stated on `seq<char>`:
  `isspace`/`strip`, `lower`, the substring test `w in s`, `s.split(sep)[0]`
  and `" ".join(parts)`.
*/
module Strings {

  /** Python's `str.isspace()` for one character: the whitespace characters of Unicode that `strip()` removes. */
  predicate IsSpace(c: char)
  {
    c in Whitespace
  }

  /** The characters for which Python's `str.isspace()` holds. */
  const Whitespace: set<char> := {
    ' ', '\t', '\n', '\r', '\U{000B}', '\U{000C}', '\U{001C}', '\U{001D}', '\U{001E}', '\U{001F}',
    '\U{0085}', '\U{00A0}', '\U{1680}', '\U{2000}', '\U{2001}', '\U{2002}', '\U{2003}', '\U{2004}',
    '\U{2005}', '\U{2006}', '\U{2007}', '\U{2008}', '\U{2009}', '\U{200A}', '\U{2028}', '\U{2029}',
    '\U{202F}', '\U{205F}', '\U{3000}'
  }

  predicate AllSpace(s: string)
  {
    forall i :: 0 <= i < |s| ==> IsSpace(s[i])
  }

  /** Neither the first nor the last character is whitespace (vacuous for the empty string). */
  predicate NoEdgeSpace(s: string)
  {
    |s| == 0 || (!IsSpace(s[0]) && !IsSpace(s[|s| - 1]))
  }

  /** Number of leading whitespace characters. */
  function LeadingSpaces(s: string): (n: nat)
    ensures n <= |s|
    ensures forall i :: 0 <= i < n ==> IsSpace(s[i])
    ensures n < |s| ==> !IsSpace(s[n])
  {
    if |s| > 0 && IsSpace(s[0]) then 1 + LeadingSpaces(s[1..]) else 0
  }

  /** Number of trailing whitespace characters. */
  function TrailingSpaces(s: string): (n: nat)
    ensures n <= |s|
    ensures forall i :: |s| - n <= i < |s| ==> IsSpace(s[i])
    ensures n < |s| ==> !IsSpace(s[|s| - n - 1])
  {
    if |s| > 0 && IsSpace(s[|s| - 1]) then 1 + TrailingSpaces(s[..|s| - 1]) else 0
  }

  /**
    Python's `s.strip()`: the slice of `s` that starts after its leading
    whitespace and has no whitespace at either end; everything outside the
    slice is whitespace.
  */
  function Strip(s: string): (r: string)
    ensures NoEdgeSpace(r)
    ensures LeadingSpaces(s) + |r| <= |s| && r == s[LeadingSpaces(s)..LeadingSpaces(s) + |r|]
    ensures forall i :: 0 <= i < |s| && !(LeadingSpaces(s) <= i < LeadingSpaces(s) + |r|) ==> IsSpace(s[i])
  {
    var i := LeadingSpaces(s);
    var j := TrailingSpaces(s[i..]);
    s[i..|s| - j]
  }

  /** A string without surrounding whitespace is its own strip. */
  lemma StripNoEdge(s: string)
    requires NoEdgeSpace(s)
    ensures Strip(s) == s
  {
  }

  /** Whitespace only strips to the empty string, and only whitespace does. */
  lemma StripEmpty(s: string)
    ensures Strip(s) == [] <==> AllSpace(s)
  {
  }

  /** `strip` is idempotent. */
  lemma StripIdempotent(s: string)
    ensures Strip(Strip(s)) == Strip(s)
  {
    StripNoEdge(Strip(s));
  }

  /** Python's `str.lower()` for one character, on the ASCII letters. */
  function LowerChar(c: char): (d: char)
    ensures 'A' <= c <= 'Z' ==> d as int == c as int + 32
    ensures !('A' <= c <= 'Z') ==> d == c
  {
    if 'A' <= c <= 'Z' then (c as int + 32) as char else c
  }

  /** Python's `str.lower()`, character by character. */
  function Lower(s: string): (r: string)
    ensures |r| == |s|
    ensures forall i :: 0 <= i < |s| ==> r[i] == LowerChar(s[i])
  {
    seq(|s|, i requires 0 <= i < |s| => LowerChar(s[i]))
  }

  /** Lower-casing twice is lower-casing once. */
  lemma LowerIdempotent(s: string)
    ensures Lower(Lower(s)) == Lower(s)
  {
  }

  /** `w` occurs in `s` starting at index `i`. */
  predicate OccursAt(s: string, w: string, i: nat)
  {
    i + |w| <= |s| && s[i..i + |w|] == w
  }

  /** Python's substring test `w in s` (the empty string occurs in every string). */
  function Contains(s: string, w: string): bool
  {
    if |w| > |s| then false
    else s[..|w|] == w || Contains(s[1..], w)
  }

  /** `Contains` decides whether `w` occurs somewhere in `s`. */
  lemma {:induction false} ContainsIff(s: string, w: string)
    ensures Contains(s, w) <==> exists i: nat :: OccursAt(s, w, i)
  {
    if |w| > |s| {
      assert forall i: nat :: !OccursAt(s, w, i);
    } else if s[..|w|] == w {
      assert OccursAt(s, w, 0);
    } else {
      ContainsIff(s[1..], w);
      ShiftOccurrence(s, w);
      if Contains(s, w) {
        var i: nat :| OccursAt(s[1..], w, i);
        assert OccursAt(s, w, i + 1);
      } else {
        forall i: nat ensures !OccursAt(s, w, i) {
          if i > 0 {
            assert !OccursAt(s[1..], w, i - 1);
          }
        }
      }
    }
  }

  /** An occurrence in `s[1..]` is an occurrence in `s` one place later, and every occurrence past index 0 arises that way. */
  lemma ShiftOccurrence(s: string, w: string)
    requires |s| > 0
    ensures forall i: nat :: OccursAt(s[1..], w, i) <==> OccursAt(s, w, i + 1)
  {
    forall i: nat
      ensures OccursAt(s[1..], w, i) <==> OccursAt(s, w, i + 1)
    {
      if i + |w| <= |s| - 1 {
        assert s[1..][i..i + |w|] == s[i + 1..i + 1 + |w|];
      }
    }
  }

  /**
    Python's `s.split(sep)[0]`: the part of `s` before the first occurrence of
    `sep`, or all of `s` when `sep` does not occur (Python refuses an empty `sep`).
  */
  function BeforeFirst(s: string, sep: string): (r: string)
    requires |sep| > 0
    ensures |r| <= |s| && r == s[..|r|]
    ensures forall i: nat :: i < |r| ==> !OccursAt(s, sep, i)
    ensures |r| < |s| ==> OccursAt(s, sep, |r|)
  {
    if |s| < |sep| then
      s
    else if s[..|sep|] == sep then
      ""
    else
      var r := BeforeFirst(s[1..], sep);
      BeforeFirstStep(s, sep, r);
      [s[0]] + r
  }

  lemma BeforeFirstStep(s: string, sep: string, r: string)
    requires |sep| > 0 && |s| >= |sep| && s[..|sep|] != sep
    requires |r| <= |s| - 1 && forall i: nat :: i < |r| ==> !OccursAt(s[1..], sep, i)
    requires |r| < |s| - 1 ==> OccursAt(s[1..], sep, |r|)
    ensures forall i: nat :: i < |r| + 1 ==> !OccursAt(s, sep, i)
    ensures |r| + 1 < |s| ==> OccursAt(s, sep, |r| + 1)
  {
    ShiftOccurrence(s, sep);
    forall i: nat | i < |r| + 1 ensures !OccursAt(s, sep, i) {
      if i > 0 {
        assert !OccursAt(s[1..], sep, i - 1);
      }
    }
  }

  /** The cut leaves `s` whole exactly when the separator does not occur in it. */
  lemma BeforeFirstWhole(s: string, sep: string)
    requires |sep| > 0
    ensures BeforeFirst(s, sep) == s <==> !Contains(s, sep)
  {
    var r := BeforeFirst(s, sep);
    ContainsIff(s, sep);
    if r == s {
      forall i: nat ensures !OccursAt(s, sep, i) {
        if i >= |s| {
          assert i + |sep| > |s|;
        }
      }
    }
  }

  /**
    Python's `" ".join(parts)`: empty for no parts, otherwise it starts with the
    first part, followed by a space when more parts come.
  */
  function JoinSpaces(parts: seq<string>): (r: string)
    ensures |parts| == 0 ==> r == ""
    ensures |parts| == 1 ==> r == parts[0]
    ensures |parts| > 0 ==> |parts[0]| <= |r| && r[..|parts[0]|] == parts[0]
    ensures |parts| > 1 ==> |parts[0]| < |r| && r[|parts[0]|] == ' '
  {
    if |parts| == 0 then ""
    else if |parts| == 1 then parts[0]
    else parts[0] + " " + JoinSpaces(parts[1..])
  }

  /** Joining one part more appends a space and that part: the parts follow one another, one space apart. */
  lemma {:induction false} JoinSpacesSnoc(parts: seq<string>, p: string)
    requires |parts| > 0
    ensures JoinSpaces(parts + [p]) == JoinSpaces(parts) + " " + p
  {
    var all := parts + [p];
    if |parts| > 1 {
      assert all[1..] == parts[1..] + [p];
      JoinSpacesSnoc(parts[1..], p);
    }
  }

  /** The list comprehension `[p for p in parts if p]`: the non-empty parts, in order. */
  function NonEmpty(parts: seq<string>): (r: seq<string>)
    ensures |r| <= |parts|
    ensures forall p :: p in r <==> p in parts && p != ""
  {
    if |parts| == 0 then []
    else if parts[0] == "" then NonEmpty(parts[1..])
    else [parts[0]] + NonEmpty(parts[1..])
  }
}
