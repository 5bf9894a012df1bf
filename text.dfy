/**
  Case-insensitive substring search, the model of
  `field.toLowerCase().includes(search.toLowerCase())`. Lower-casing is
  modelled over ASCII letters only.
*/
module Text {

  predicate IsUpper(c: char) { 'A' <= c <= 'Z' }

  /** `toLowerCase` on one character, for the ASCII range. */
  function LowerChar(c: char): (r: char)
    ensures !IsUpper(r)
    ensures IsUpper(c) ==> r as int == c as int + 32
    ensures !IsUpper(c) ==> r == c
  {
    if IsUpper(c) then (c as int + 32) as char else c
  }

  /** `s.toLowerCase()` for ASCII text. */
  function Lower(s: string): string {
    seq(|s|, i requires 0 <= i < |s| => LowerChar(s[i]))
  }

  /** `n` is a prefix of `h`. */
  predicate StartsWith(h: string, n: string) {
    |n| <= |h| && h[..|n|] == n
  }

  /** `h.includes(n)`: `n` occurs in `h` as a contiguous block, tried at every start position. */
  predicate Includes(h: string, n: string) {
    StartsWith(h, n) || (h != [] && Includes(h[1..], n))
  }

  /** The case-insensitive match the dashboard uses for its search box. */
  predicate MatchesIgnoringCase(field: string, search: string) {
    Includes(Lower(field), Lower(search))
  }

  /** `n` occurs in `h` starting at position `i`. */
  predicate OccursAt(h: string, n: string, i: int) {
    0 <= i <= |h| - |n| && h[i..i + |n|] == n
  }

  /** `Includes` is exactly "`n` occurs in `h` at some position". */
  lemma {:induction false} IncludesIffOccurs(h: string, n: string)
    ensures Includes(h, n) <==> exists i :: OccursAt(h, n, i)
  {
    if StartsWith(h, n) {
      assert OccursAt(h, n, 0);
    }
    if h != [] {
      IncludesIffOccurs(h[1..], n);
      if Includes(h[1..], n) {
        var i :| OccursAt(h[1..], n, i);
        assert OccursAt(h, n, i + 1);
      }
      if exists i :: OccursAt(h, n, i) {
        var i :| OccursAt(h, n, i);
        if i > 0 {
          assert OccursAt(h[1..], n, i - 1);
        }
      }
    }
  }

  /** The empty string occurs in every string, so an empty search matches everything. */
  lemma IncludesEmpty(h: string)
    ensures Includes(h, "")
  {
  }

  /** If some character of the needle never occurs in the haystack, the needle does not occur. */
  lemma {:induction false} AbsentCharExcludes(h: string, n: string, c: char)
    requires c in n && c !in h
    ensures !Includes(h, n)
  {
    if h != [] {
      AbsentCharExcludes(h[1..], n, c);
    }
  }

  /** Lower-casing twice is lower-casing once. */
  lemma LowerIdempotent(s: string)
    ensures Lower(Lower(s)) == Lower(s)
  {
  }

  /** Matching ignores the case of the searched field: an all-lower-case field matches as itself. */
  lemma MatchIgnoresFieldCase(field: string, search: string)
    ensures MatchesIgnoringCase(field, search) <==> MatchesIgnoringCase(Lower(field), search)
  {
    LowerIdempotent(field);
  }
}
