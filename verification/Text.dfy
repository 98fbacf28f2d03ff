/**
 The string operations the program relies on: Python's lexicographic order, `strip`, `lower` and
 `casefold`.
 */
module Text {

  /** Python's `<` on strings: by the first differing code point, a proper prefix being smaller. */
  predicate Less(a: string, b: string) {
    b != [] && (a == [] || a[0] < b[0] || (a[0] == b[0] && Less(a[1..], b[1..])))
  }

  lemma {:induction false} LessTotal(a: string, b: string)
    ensures Less(a, b) || a == b || Less(b, a)
  {
    if a != [] && b != [] && a[0] == b[0] {
      LessTotal(a[1..], b[1..]);
      assert a == [a[0]] + a[1..] && b == [b[0]] + b[1..];
    }
  }

  lemma {:induction false} LessAsymmetric(a: string, b: string)
    requires Less(a, b)
    ensures a != b && !Less(b, a)
  {
    if a != [] && a[0] == b[0] {
      LessAsymmetric(a[1..], b[1..]);
    }
  }

  lemma {:induction false} LessTransitive(a: string, b: string, c: string)
    requires Less(a, b) && Less(b, c)
    ensures Less(a, c)
  {
    if a != [] && a[0] == b[0] == c[0] {
      LessTransitive(a[1..], b[1..], c[1..]);
    }
  }

  predicate IsSpace(c: char) {
    c in {' ', '\t', '\n', '\r', '\U{000B}', '\U{000C}', '\U{001C}', '\U{001D}', '\U{001E}', '\U{001F}'}
  }

  function StripLeft(s: string): (r: string)
    ensures r == [] || !IsSpace(r[0])
    ensures s != [] && !IsSpace(s[0]) ==> r == s
  {
    if s != [] && IsSpace(s[0]) then StripLeft(s[1..]) else s
  }

  function StripRight(s: string): (r: string)
    ensures r <= s
    ensures r == [] || !IsSpace(r[|r| - 1])
    ensures s != [] && !IsSpace(s[|s| - 1]) ==> r == s
  {
    if s != [] && IsSpace(s[|s| - 1]) then StripRight(s[..|s| - 1]) else s
  }

  /** Python's `strip()` for the ASCII white space that identifiers can carry. */
  function Strip(s: string): string {
    StripRight(StripLeft(s))
  }

  lemma StripIdempotent(s: string)
    ensures Strip(Strip(s)) == Strip(s)
  {
    var r := Strip(s);
    if r != [] {
      assert r[0] == StripLeft(s)[0];
    }
  }

  /** `lower()` of one character, exact for ASCII, the Kelvin sign U+212A, which becomes "k", and the
      three characters named below. */
  function LowerChar(c: char): char {
    if 'A' <= c <= 'Z' then (c - 'A') + 'a'
    else if c == '\U{212A}' then 'k'
    else if c == '\U{1E9E}' then '\U{00DF}'
    else c
  }

  /** `casefold()` of one character: as `lower()`, except that U+00DF and U+1E9E become "ss" and
      the long s U+017F becomes "s".  With the Kelvin sign these are the only characters outside
      ASCII that can occur in a text that folds to one of the words this program compares with. */
  function FoldChar(c: char): string {
    if c == '\U{00DF}' || c == '\U{1E9E}' then "ss"
    else if c == '\U{017F}' then "s"
    else [LowerChar(c)]
  }

  function Lower(s: string): (r: string)
    ensures |r| == |s|
    ensures forall i :: 0 <= i < |s| ==> r[i] == LowerChar(s[i])
  {
    seq(|s|, i requires 0 <= i < |s| => LowerChar(s[i]))
  }

  function CaseFold(s: string): string {
    if s == [] then [] else FoldChar(s[0]) + CaseFold(s[1..])
  }

  predicate Plain(s: string) {
    forall i :: 0 <= i < |s| ==> s[i] !in {'\U{00DF}', '\U{1E9E}', '\U{017F}'}
  }

  /** Away from the three special characters the two foldings agree. */
  lemma {:induction false} FoldIsLowerOnPlain(s: string)
    requires Plain(s)
    ensures CaseFold(s) == Lower(s)
  {
    if s != [] {
      assert FoldChar(s[0]) == [LowerChar(s[0])];
      FoldIsLowerOnPlain(s[1..]);
      assert Lower(s) == [LowerChar(s[0])] + Lower(s[1..]);
    }
  }
}
