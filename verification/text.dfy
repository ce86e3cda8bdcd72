/**
 The string operations the rule engine and the export rely on, restricted to
 ASCII: case folding (`str.lower`), the first-occurrence search
 (`str.find`, which answers -1 when there is none) and the replacement of one
 character by another (`str.replace` with one-character arguments).
 */
module Text {

  /** `k` occurs in `s` starting at index `i`. */
  predicate OccursAt(s: string, k: string, i: int) {
    0 <= i && i + |k| <= |s| && s[i..i + |k|] == k
  }

  predicate IsUpper(c: char) {
    'A' <= c <= 'Z'
  }

  /** Folds an upper-case ASCII letter to lower case; keeps every other character. */
  function LowerChar(c: char): (d: char)
    ensures !IsUpper(d)
    ensures IsUpper(c) ==> d as int == c as int - 'A' as int + 'a' as int
    ensures !IsUpper(c) ==> d == c
  {
    if IsUpper(c) then (c as int - 'A' as int + 'a' as int) as char else c
  }

  /** The string with every ASCII letter folded to lower case, and nothing else changed. */
  function Lower(s: string): (r: string)
    ensures |r| == |s|
    ensures forall i :: 0 <= i < |s| ==> !IsUpper(r[i])
    ensures forall i :: 0 <= i < |s| && IsUpper(s[i]) ==> r[i] as int == s[i] as int - 'A' as int + 'a' as int
    ensures forall i :: 0 <= i < |s| && !IsUpper(s[i]) ==> r[i] == s[i]
  {
    seq(|s|, i requires 0 <= i < |s| => LowerChar(s[i]))
  }

  /** Two characters that are equal, or the upper- and lower-case forms of one ASCII letter. */
  predicate SameLetter(c: char, d: char) {
    || c == d
    || (IsUpper(c) && d as int == c as int - 'A' as int + 'a' as int)
    || (IsUpper(d) && c as int == d as int - 'A' as int + 'a' as int)
  }

  /** Two strings that agree letter by letter up to ASCII case. */
  predicate EqualIgnoringCase(a: string, b: string) {
    |a| == |b| && forall i :: 0 <= i < |a| ==> SameLetter(a[i], b[i])
  }

  /** Folding makes two strings equal exactly when they agree up to ASCII case. */
  lemma LowerEqualIffIgnoringCase(a: string, b: string)
    ensures Lower(a) == Lower(b) <==> EqualIgnoringCase(a, b)
  {
    if Lower(a) == Lower(b) {
      forall i | 0 <= i < |a| ensures SameLetter(a[i], b[i]) {
        assert Lower(a)[i] == Lower(b)[i];
      }
    }
    if EqualIgnoringCase(a, b) {
      forall i | 0 <= i < |a| ensures Lower(a)[i] == Lower(b)[i] {
        assert SameLetter(a[i], b[i]);
      }
    }
  }

  /**
   The least index at or after `from` where `k` occurs in `s`, or -1 when it
   occurs nowhere there.
   */
  function FindFrom(s: string, k: string, from: nat): (r: int)
    ensures r == -1 || (from <= r && OccursAt(s, k, r))
    ensures r == -1 ==> forall i :: from <= i ==> !OccursAt(s, k, i)
    ensures r != -1 ==> forall i :: from <= i < r ==> !OccursAt(s, k, i)
    decreases |s| + 1 - from
  {
    if from + |k| > |s| then -1
    else if OccursAt(s, k, from) then from
    else FindFrom(s, k, from + 1)
  }

  /**
   `s.find(k)`: the first index at which `k` occurs in `s`, or -1. It is not
   -1 exactly when `k` occurs somewhere in `s`.
   */
  function Find(s: string, k: string): (r: int)
    ensures r == -1 || OccursAt(s, k, r)
    ensures r != -1 <==> exists i :: OccursAt(s, k, i)
    ensures r != -1 ==> forall i :: 0 <= i < r ==> !OccursAt(s, k, i)
  {
    FindFrom(s, k, 0)
  }

  /** A keyword with a character the text lacks occurs nowhere in the text. */
  lemma MissingCharNoOccurrence(s: string, k: string, c: char)
    requires c in k && c !in s
    ensures forall i :: !OccursAt(s, k, i)
  {
  }

  /** `s.replace(a, b)` for single characters: each `a` becomes `b`, nothing else moves. */
  function ReplaceChar(s: string, a: char, b: char): (r: string)
    ensures |r| == |s|
    ensures forall i :: 0 <= i < |s| ==> r[i] == (if s[i] == a then b else s[i])
  {
    if s == [] then []
    else [if s[0] == a then b else s[0]] + ReplaceChar(s[1..], a, b)
  }

  /** After replacing `a` by a different character, no `a` is left. */
  lemma ReplaceCharRemoves(s: string, a: char, b: char)
    requires a != b
    ensures a !in ReplaceChar(s, a, b)
  {
    var r := ReplaceChar(s, a, b);
    forall i | 0 <= i < |r| ensures r[i] != a {
    }
  }

  /** Replacing a character the string does not contain changes nothing. */
  lemma ReplaceCharAbsent(s: string, a: char, b: char)
    requires a !in s
    ensures ReplaceChar(s, a, b) == s
  {
  }
}
