/**
 * The two standard-library string operations the analyzer relies on:
 * `str::find` (first occurrence of a pattern) and `str::split` (pieces between
 * separators), stated over strings of characters.
 */
module Text {
  import opened Wrappers

  /** `pat` occurs in `s` starting at index `i`. */
  predicate IsOccurrence(s: string, pat: string, i: int)
  {
    0 <= i && i + |pat| <= |s| && s[i..i + |pat|] == pat
  }

  /** `pat` occurs somewhere in `s`. */
  predicate Occurs(s: string, pat: string)
  {
    exists i :: 0 <= i <= |s| && IsOccurrence(s, pat, i)
  }

  /** An occurrence in `s` past its first character is an occurrence in `s[1..]`, one place earlier. */
  lemma ShiftOccurrence(s: string, pat: string)
    requires |s| > 0
    ensures forall i :: 1 <= i ==> (IsOccurrence(s, pat, i) <==> IsOccurrence(s[1..], pat, i - 1))
  {
  }

  /** `pat` occurs in `s` at index `i` and nowhere before it. */
  predicate IsFirstOccurrence(s: string, pat: string, i: int)
  {
    IsOccurrence(s, pat, i) && forall j :: 0 <= j < i ==> !IsOccurrence(s, pat, j)
  }

  /** `s.find(pat)`: the index of the first occurrence of `pat` in `s`, if any. */
  function FirstOccurrence(s: string, pat: string): (r: Option<nat>)
    ensures r.Some? ==> IsOccurrence(s, pat, r.value)
    ensures r.Some? ==> forall i :: 0 <= i < r.value ==> !IsOccurrence(s, pat, i)
    ensures r.None? <==> !Occurs(s, pat)
    decreases |s|
  {
    if |s| < |pat| then None
    else if s[..|pat|] == pat then Some(0)
    else
      ShiftOccurrence(s, pat);
      assert !IsOccurrence(s, pat, 0);
      match FirstOccurrence(s[1..], pat)
      case None =>
        assert forall i :: 1 <= i ==> !IsOccurrence(s, pat, i);
        None
      case Some(k) =>
        assert IsOccurrence(s, pat, k + 1);
        Some(k + 1)
  }

  /** `s.split(sep)` collected into a sequence: the pieces between separators, never empty. */
  function Split(s: string, sep: char): (parts: seq<string>)
    ensures |parts| >= 1
    ensures forall k :: 0 <= k < |parts| ==> sep !in parts[k]
    ensures parts[0] <= s
    ensures |parts[0]| < |s| ==> s[|parts[0]|] == sep
    decreases |s|
  {
    if s == [] then [[]]
    else
      var rest := Split(s[1..], sep);
      if s[0] == sep then [[]] + rest
      else [[s[0]] + rest[0]] + rest[1..]
  }

  /** `parts.join(sep)`: the inverse of `Split`. */
  function Join(parts: seq<string>, sep: char): string
    requires |parts| >= 1
  {
    if |parts| == 1 then parts[0] else parts[0] + [sep] + Join(parts[1..], sep)
  }

  /** Splitting loses nothing: joining the pieces with the separator gives back the input. */
  lemma {:induction false} JoinSplit(s: string, sep: char)
    ensures Join(Split(s, sep), sep) == s
  {
    if s != [] {
      var rest := Split(s[1..], sep);
      JoinSplit(s[1..], sep);
      var parts := Split(s, sep);
      if s[0] == sep {
        assert parts == [[]] + rest;
        assert parts[1..] == rest;
      } else {
        assert parts == [[s[0]] + rest[0]] + rest[1..];
        if |rest| > 1 {
          assert parts[1..] == rest[1..];
          assert Join(rest, sep) == rest[0] + [sep] + Join(rest[1..], sep);
        }
      }
    }
  }

  /** `iter.next()` on the pieces of a split: the first piece, if there is one. */
  function Next(parts: seq<string>): Option<string>
  {
    if |parts| == 0 then None else Some(parts[0])
  }
}
