/**
 * `strings.EqualFold`, compared rune by rune (a `char` here is one rune).
 * Case folding covers ASCII letters and the two non-ASCII runes that fold
 * onto ASCII letters (U+017F onto `s`, U+212A onto `k`); two other non-ASCII
 * runes match only when they are equal.
 */
module Strings {

  predicate IsUpperAscii(c: char) {
    'A' <= c <= 'Z'
  }

  predicate IsLowerAscii(c: char) {
    'a' <= c <= 'z'
  }

  /** The ASCII lower-case form of a letter; every other rune is left alone. */
  function ToLowerAscii(c: char): (l: char)
    ensures IsUpperAscii(c) ==> IsLowerAscii(l)
    ensures !IsUpperAscii(c) ==> l == c
  {
    if IsUpperAscii(c) then (c as int + 32) as char else c
  }

  /**
   * Two runes whose case-fold orbits meet. Besides the ASCII upper/lower pairs,
   * two non-ASCII runes fold onto ASCII letters: LATIN SMALL LETTER LONG S
   * (U+017F) joins {S, s} and KELVIN SIGN (U+212A) joins {K, k}.
   */
  predicate FoldEquivalent(c: char, d: char) {
    c == d
    || (c <= '\U{7F}' && d <= '\U{7F}' && ToLowerAscii(c) == ToLowerAscii(d))
    || (ToLowerAscii(c) in {'s', '\U{017F}'} && ToLowerAscii(d) in {'s', '\U{017F}'})
    || (ToLowerAscii(c) in {'k', '\U{212A}'} && ToLowerAscii(d) in {'k', '\U{212A}'})
  }

  predicate EqualFold(s: string, t: string) {
    |s| == |t| && forall i :: 0 <= i < |s| ==> FoldEquivalent(s[i], t[i])
  }

  /** The spellings that equal "asc" under case folding. */
  lemma EqualFoldAsc(s: string)
    ensures EqualFold(s, "asc") <==>
      |s| == 3 && s[0] in {'a', 'A'} && s[1] in {'s', 'S', '\U{017F}'} && s[2] in {'c', 'C'}
  {
    if |s| == 3 {
      assert FoldEquivalent(s[0], 'a') <==> s[0] in {'a', 'A'};
      assert FoldEquivalent(s[1], 's') <==> s[1] in {'s', 'S', '\U{017F}'};
      assert FoldEquivalent(s[2], 'c') <==> s[2] in {'c', 'C'};
      assert "asc"[0] == 'a' && "asc"[1] == 's' && "asc"[2] == 'c';
    }
  }
}
