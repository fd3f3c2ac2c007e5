/**
 Small facts about strings (sequences of characters) used to state where a
 piece of text shows up inside a report.
 */
module Strings {

  /** `p` is a prefix of `s`, Python's `s.startswith(p)`. */
  predicate StartsWith(s: string, p: string) {
    |p| <= |s| && s[..|p|] == p
  }

  /** `a` occurs in `s` starting at index `i`. */
  predicate OccursAt(a: string, s: string, i: int) {
    0 <= i && i + |a| <= |s| && s[i..i + |a|] == a
  }

  /** A string occurs at the end of any concatenation that ends with it. */
  lemma OccursAtEnd(x: string, a: string)
    ensures OccursAt(a, x + a, |x|)
  {
  }

  /** An occurrence survives further concatenation on the right. */
  lemma OccursExtend(a: string, s: string, i: int, y: string)
    requires OccursAt(a, s, i)
    ensures OccursAt(a, s + y, i)
  {
  }

  /** Two strings whose first characters differ cannot both start a common prefix. */
  lemma FirstCharDecides(s: string, p: string)
    requires |s| > 0 && |p| > 0 && s[0] != p[0]
    ensures !StartsWith(s, p)
  {
  }
}
