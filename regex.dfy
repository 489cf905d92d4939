/**
  The fragment of Python's `re` syntax that the router's patterns use, with a relational
  semantics: `Match(r, s, i, k)` holds when `r` can match exactly `s[i..k]`. Python's
  backtracking search finds a match of these patterns exactly when one exists, so
  `re.search(r, s) is not None` is `Search(r, s)`.
*/
module Regex {
  import opened Text

  /** Character classes: `\s`, a range such as `[A-Z]`, or an explicit set such as `['’]`. */
  datatype CharSet = Whitespace | Range(lo: char, hi: char) | OneOf(chars: string)

  predicate InSet(cs: CharSet, c: char) {
    match cs
    case Whitespace => IsSpace(c)
    case Range(lo, hi) => lo <= c <= hi
    case OneOf(chars) => c in chars
  }

  /** Upper bound of a repetition: `*` and `+` have none, `?` and `{1,6}` have one. */
  datatype Bound = Unbounded | AtMost(n: nat)

  datatype Regex =
    | Lit(w: string)                          // literal text
    | Rep(cs: CharSet, min: nat, max: Bound)  // a run of class characters: `\s*`, `\s+`, `[A-Z]{1,6}`, `/?`
    | Cat(a: Regex, b: Regex)                 // `ab`
    | Alt(a: Regex, b: Regex)                 // `a|b`
    | Opt(a: Regex)                           // `(a)?`
    | Start                                   // `^`
    | WordBoundary                            // `\b`

  /** Python's `\w` (letters, digits and `_`) on the code points up to U+00FF. */
  predicate IsWordChar(c: char) {
    ('0' <= c <= '9') || ('A' <= c <= 'Z') || c == '_' || ('a' <= c <= 'z')
    || c == '\U{AA}' || c == '\U{B2}' || c == '\U{B3}' || c == '\U{B5}' || c == '\U{B9}'
    || c == '\U{BA}' || ('\U{BC}' <= c <= '\U{BE}')
    || ('\U{C0}' <= c <= '\U{FF}' && c != '\U{D7}' && c != '\U{F7}')
  }

  /** A word character sits just before (after) position `i`. */
  predicate WordBefore(s: string, i: nat) requires i <= |s| { i > 0 && IsWordChar(s[i - 1]) }
  predicate WordAfter(s: string, i: nat) requires i <= |s| { i < |s| && IsWordChar(s[i]) }

  predicate Match(r: Regex, s: string, i: nat, k: nat)
    requires i <= k <= |s|
    decreases r
  {
    match r
    case Lit(w) => s[i..k] == w
    case Rep(cs, lo, hi) =>
      lo <= k - i && (hi.Unbounded? || k - i <= hi.n) && forall m :: i <= m < k ==> InSet(cs, s[m])
    case Cat(a, b) => exists j :: i <= j <= k && Match(a, s, i, j) && Match(b, s, j, k)
    case Alt(a, b) => Match(a, s, i, k) || Match(b, s, i, k)
    case Opt(a) => k == i || Match(a, s, i, k)
    case Start => i == 0 && k == 0
    case WordBoundary => k == i && WordBefore(s, i) != WordAfter(s, i)
  }

  /** `abc...` for a non-empty list of parts. */
  function Concat(rs: seq<Regex>): Regex
    requires rs != []
  {
    if |rs| == 1 then rs[0] else Cat(rs[0], Concat(rs[1..]))
  }

  /** `(a|b|c...)` for a non-empty list of alternatives, tried left to right. */
  function AnyOf(rs: seq<Regex>): Regex
    requires rs != []
  {
    if |rs| == 1 then rs[0] else Alt(rs[0], AnyOf(rs[1..]))
  }

  /** `\b(r)\b` */
  function Bounded(r: Regex): Regex {
    Cat(WordBoundary, Cat(r, WordBoundary))
  }

  /** `re.search(r, s) is not None`. */
  predicate Search(r: Regex, s: string) {
    exists i, k :: 0 <= i <= k <= |s| && Match(r, s, i, k)
  }

  /** Two patterns that match the same spans of `s`. */
  predicate SameSpans(r1: Regex, r2: Regex, s: string) {
    forall i, k :: 0 <= i <= k <= |s| ==> (Match(r1, s, i, k) <==> Match(r2, s, i, k))
  }

  /** A match of `ab` splits into a match of `a` followed by a match of `b`. */
  lemma CatSplit(a: Regex, b: Regex, s: string, i: nat, k: nat)
    requires i <= k <= |s| && Match(Cat(a, b), s, i, k)
    ensures exists j :: i <= j <= k && Match(a, s, i, j) && Match(b, s, j, k)
  {
  }

  /** A match of `a` followed by a match of `b` is a match of `ab`. */
  lemma CatJoin(a: Regex, b: Regex, s: string, i: nat, j: nat, k: nat)
    requires i <= j <= k <= |s| && Match(a, s, i, j) && Match(b, s, j, k)
    ensures Match(Cat(a, b), s, i, k)
  {
  }

  /** One direction of `SameSpansInContext`, at one span. */
  lemma ContextSpan(pre: Regex, r1: Regex, r2: Regex, post: Regex, s: string, i: nat, k: nat)
    requires SameSpans(r1, r2, s)
    requires i <= k <= |s| && Match(Cat(pre, Cat(r1, post)), s, i, k)
    ensures Match(Cat(pre, Cat(r2, post)), s, i, k)
  {
    var j :| i <= j <= k && Match(pre, s, i, j) && Match(Cat(r1, post), s, j, k);
    CatSplit(r1, post, s, j, k);
    var m :| j <= m <= k && Match(r1, s, j, m) && Match(post, s, m, k);
    assert Match(Cat(r2, post), s, j, k);
  }

  /** Patterns that match the same spans are found by `re.search` on the same texts, also when
      each is put between the same prefix and suffix. */
  lemma SameSpansInContext(pre: Regex, r1: Regex, r2: Regex, post: Regex, s: string)
    requires SameSpans(r1, r2, s)
    ensures Search(Cat(pre, Cat(r1, post)), s) <==> Search(Cat(pre, Cat(r2, post)), s)
  {
    if Search(Cat(pre, Cat(r1, post)), s) {
      var i, k :| 0 <= i <= k <= |s| && Match(Cat(pre, Cat(r1, post)), s, i, k);
      ContextSpan(pre, r1, r2, post, s, i, k);
    }
    if Search(Cat(pre, Cat(r2, post)), s) {
      var i, k :| 0 <= i <= k <= |s| && Match(Cat(pre, Cat(r2, post)), s, i, k);
      ContextSpan(pre, r2, r1, post, s, i, k);
    }
  }
}
