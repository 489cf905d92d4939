/**
  Python `str` operations the tools rely on, over Dafny strings (sequences of Unicode scalar
  values): `isspace`, `strip`/`rstrip`, `lower`/`upper`, `split()`, `splitlines()`,
  `split(c, 1)`, `join`, and the regular-expression substitutions `re.sub(r"\s+", " ", s)`
  and `re.sub("[...]", repl, s)` on single characters.
*/
module Text {
  import opened Wrappers

  /** Python's `str.isspace` on one character (the same set as the regex class `\s`). */
  predicate IsSpace(c: char) {
    ('\t' <= c <= '\r') || ('\U{1C}' <= c <= ' ') || c == '\U{85}' || c == '\U{A0}'
    || c == '\U{1680}' || ('\U{2000}' <= c <= '\U{200A}') || c == '\U{2028}' || c == '\U{2029}'
    || c == '\U{202F}' || c == '\U{205F}' || c == '\U{3000}'
  }

  /** The line boundaries of Python's `str.splitlines`; every one of them is whitespace. */
  predicate IsLineBreak(c: char)
    ensures IsLineBreak(c) ==> IsSpace(c)
  {
    ('\n' <= c <= '\r') || ('\U{1C}' <= c <= '\U{1E}') || c == '\U{85}' || c == '\U{2028}'
    || c == '\U{2029}'
  }

  predicate NoSpace(s: string) {
    forall i :: 0 <= i < |s| ==> !IsSpace(s[i])
  }

  predicate AllSpace(s: string) {
    forall i :: 0 <= i < |s| ==> IsSpace(s[i])
  }

  predicate NoLineBreak(s: string) {
    forall i :: 0 <= i < |s| ==> !IsLineBreak(s[i])
  }

  /** The only whitespace is the plain space. */
  ghost predicate OnlyPlainSpaces(s: string) {
    forall i :: 0 <= i < |s| ==> (IsSpace(s[i]) ==> s[i] == ' ')
  }

  /** Never two whitespace characters in a row. */
  ghost predicate NoDoubleSpace(s: string) {
    forall i, j :: 0 <= i < j < |s| && j == i + 1 ==> !(IsSpace(s[i]) && IsSpace(s[j]))
  }

  /** No character of `cs` occurs. */
  ghost predicate Avoids(s: string, cs: set<char>) {
    forall i :: 0 <= i < |s| ==> s[i] !in cs
  }

  /** Python truthiness of an optional string: present and non-empty. */
  predicate Truthy(o: Option<string>) {
    o.Some? && o.value != []
  }

  predicate StartsWith(s: string, prefix: string) {
    |prefix| <= |s| && s[..|prefix|] == prefix
  }

  /** The text from position `a` starts with the slice `s[a..b]`. */
  lemma StartsWithSlice(s: string, a: nat, b: nat)
    requires a <= b <= |s|
    ensures StartsWith(s[a..], s[a..b])
  {
    assert s[a..][..b - a] == s[a..b];
  }

  // ---------------------------------------------------------------- case mapping

  /** Characters that `str.lower` changes, on the ASCII and Latin-1 range. */
  predicate IsUpperCase(c: char) {
    ('A' <= c <= 'Z') || ('\U{C0}' <= c <= '\U{DE}' && c != '\U{D7}')
  }

  /** Characters that `str.upper` maps one-to-one, on the ASCII and Latin-1 range. */
  predicate IsLowerCase(c: char) {
    ('a' <= c <= 'z') || ('\U{E0}' <= c <= '\U{FE}' && c != '\U{F7}')
  }

  function Lower(c: char): (d: char)
    ensures !IsUpperCase(d)
    ensures IsUpperCase(c) || d == c
    ensures IsSpace(d) <==> IsSpace(c)
  {
    if IsUpperCase(c) then (c as int + 32) as char else c
  }

  function Upper(c: char): (d: char)
    ensures !IsLowerCase(d)
    ensures IsLowerCase(c) || d == c
  {
    if IsLowerCase(c) then (c as int - 32) as char else c
  }

  /** `s.lower()`: length-preserving, and a fixed point of itself. */
  function LowerStr(s: string): (r: string)
    ensures |r| == |s|
    ensures forall i :: 0 <= i < |s| ==> r[i] == Lower(s[i]) && !IsUpperCase(r[i])
  {
    seq(|s|, i requires 0 <= i < |s| => Lower(s[i]))
  }

  function UpperStr(s: string): (r: string)
    ensures |r| == |s|
    ensures forall i :: 0 <= i < |s| ==> r[i] == Upper(s[i]) && !IsLowerCase(r[i])
  {
    seq(|s|, i requires 0 <= i < |s| => Upper(s[i]))
  }

  lemma LowerStrIdempotent(s: string)
    ensures LowerStr(LowerStr(s)) == LowerStr(s)
  {
  }

  // ---------------------------------------------------------------- stripping

  /** `s.lstrip()`: drops the longest all-whitespace prefix. */
  function LStrip(s: string): (r: string)
    ensures |r| <= |s|
    ensures forall i :: 0 <= i < |s| - |r| ==> IsSpace(s[i])
    ensures r == [] || !IsSpace(r[0])
  {
    if s != [] && IsSpace(s[0]) then LStrip(s[1..]) else s
  }

  /** `s.rstrip()`: drops the longest all-whitespace suffix. */
  function RStrip(s: string): (r: string)
    ensures |r| <= |s|
    ensures forall i :: |r| <= i < |s| ==> IsSpace(s[i])
    ensures r == [] || !IsSpace(r[|r| - 1])
  {
    if s != [] && IsSpace(s[|s| - 1]) then RStrip(s[..|s| - 1]) else s
  }

  /** What `lstrip()` keeps is a suffix of the text. */
  lemma {:induction false} LStripSuffix(s: string)
    ensures LStrip(s) == s[|s| - |LStrip(s)|..]
  {
    if s != [] && IsSpace(s[0]) {
      LStripSuffix(s[1..]);
      assert s[1..][|s| - 1 - |LStrip(s)|..] == s[|s| - |LStrip(s)|..];
    }
  }

  /** What `rstrip()` keeps is a prefix of the text. */
  lemma {:induction false} RStripPrefix(s: string)
    ensures RStrip(s) == s[..|RStrip(s)|]
  {
    if s != [] && IsSpace(s[|s| - 1]) {
      RStripPrefix(s[..|s| - 1]);
      assert s[..|s| - 1][..|RStrip(s)|] == s[..|RStrip(s)|];
    }
  }

  /** `s.strip()`. */
  function Strip(s: string): (r: string)
    ensures r == [] || (!IsSpace(r[0]) && !IsSpace(r[|r| - 1]))
    ensures r == [] <==> AllSpace(s)
    ensures |r| <= |s|
  {
    var t := LStrip(s);
    LStripSuffix(s);
    RStripPrefix(t);
    assert t == [] ==> AllSpace(s) by {
      if t == [] { assert s[..|s|] == s; }
    }
    RStrip(t)
  }

  /** `strip()` gives a slice of the text: it starts where `lstrip()` does. */
  lemma StripSlice(s: string)
    ensures |s| - |LStrip(s)| + |Strip(s)| <= |s|
    ensures forall i :: 0 <= i < |Strip(s)| ==> Strip(s)[i] == s[|s| - |LStrip(s)| + i]
  {
    var t := LStrip(s);
    LStripSuffix(s);
    RStripPrefix(t);
    assert Strip(s) == RStrip(t);
  }

  /** Stripping keeps only characters of the text. */
  lemma StripChars(s: string)
    ensures forall i :: 0 <= i < |Strip(s)| ==> Strip(s)[i] in s
  {
    var t := LStrip(s);
    var a := |s| - |t|;
    LStripSuffix(s);
    RStripPrefix(t);
    forall i | 0 <= i < |Strip(s)| ensures Strip(s)[i] in s {
      assert Strip(s)[i] == t[i] == s[a + i];
    }
  }

  /** A character absent from a text is absent from the stripped text. */
  lemma StripAvoids(s: string, c: char)
    requires c !in s
    ensures c !in Strip(s)
  {
    StripChars(s);
  }

  /** Stripping changes nothing when neither end is whitespace. */
  lemma StripUnchanged(s: string)
    requires s == [] || (!IsSpace(s[0]) && !IsSpace(s[|s| - 1]))
    ensures Strip(s) == s
  {
  }

  /** Stripping leading whitespace that ends at position `j`. */
  lemma {:induction false} LStripAt(s: string, j: nat)
    requires j <= |s| && AllSpace(s[..j]) && (j == |s| || !IsSpace(s[j]))
    ensures LStrip(s) == s[j..]
  {
    LStripSuffix(s);
    var n := |s| - |LStrip(s)|;
    if n < j {
      assert false;
    } else if n > j {
      assert false;
    }
  }

  /** Stripping trailing whitespace that starts at position `j`. */
  lemma {:induction false} RStripAt(s: string, j: nat)
    requires j <= |s| && AllSpace(s[j..]) && (j == 0 || !IsSpace(s[j - 1]))
    ensures RStrip(s) == s[..j]
  {
    RStripPrefix(s);
    var n := |RStrip(s)|;
    if n < j {
      assert false;
    } else if n > j {
      assert false;
    }
  }

  /** Stripping both ends of a text whose non-blank part is `s[a..b]`. */
  lemma StripAt(s: string, a: nat, b: nat)
    requires a < b <= |s| && AllSpace(s[..a]) && AllSpace(s[b..])
    requires !IsSpace(s[a]) && !IsSpace(s[b - 1])
    ensures Strip(s) == s[a..b]
  {
    var t := s[a..];
    LStripAt(s, a);
    SliceOfSlice(s, a, b);
    RStripAt(t, b - a);
    StripIsRStripOfLStrip(s);
  }

  /** `strip()` is `rstrip()` after `lstrip()`. */
  lemma StripIsRStripOfLStrip(s: string)
    ensures Strip(s) == RStrip(LStrip(s))
  {
  }

  /** Slicing a suffix is slicing the text. */
  lemma SliceOfSlice(s: string, a: nat, b: nat)
    requires a <= b <= |s|
    ensures s[a..][..b - a] == s[a..b] && s[a..][b - a..] == s[b..]
  {
  }

  /** `s.rstrip(chars)`: drops the longest suffix made of characters in `cs`. */
  function RStripChars(s: string, cs: set<char>): (r: string)
    ensures |r| <= |s| && r == s[..|r|]
    ensures forall i :: |r| <= i < |s| ==> s[i] in cs
    ensures r == [] || r[|r| - 1] !in cs
  {
    if s != [] && s[|s| - 1] in cs then RStripChars(s[..|s| - 1], cs) else s
  }

  /** `rstrip(chars)` changes nothing when the text does not end in one of them. */
  lemma RStripCharsUnchanged(s: string, cs: set<char>)
    requires s == [] || s[|s| - 1] !in cs
    ensures RStripChars(s, cs) == s
  {
  }

  // ---------------------------------------------------------------- substitutions

  /** `re.sub("[cs]", "", s)`: deletes every character of `cs`, keeping the others in order. */
  function RemoveChars(s: string, cs: set<char>): (r: string)
    ensures |r| <= |s|
    ensures forall i :: 0 <= i < |r| ==> r[i] !in cs && r[i] in s
    ensures (forall i :: 0 <= i < |s| ==> s[i] !in cs) ==> r == s
  {
    if s == [] then []
    else if s[0] in cs then RemoveChars(s[1..], cs)
    else [s[0]] + RemoveChars(s[1..], cs)
  }

  /** `re.sub("[cs]", d, s)` for a one-character replacement `d`. */
  function ReplaceChars(s: string, cs: set<char>, d: char): (r: string)
    ensures |r| == |s|
    ensures forall i :: 0 <= i < |s| ==> r[i] == if s[i] in cs then d else s[i]
  {
    seq(|s|, i requires 0 <= i < |s| => if s[i] in cs then d else s[i])
  }

  /** Replacing characters that do not occur changes nothing. */
  lemma ReplaceNothing(s: string, cs: set<char>, d: char)
    requires Avoids(s, cs)
    ensures ReplaceChars(s, cs, d) == s
  {
  }

  /**
    `re.sub(r"\s+", " ", s)`: every maximal run of whitespace becomes one space. The result
    never holds two whitespace characters in a row, and it starts (ends) with whitespace exactly
    when `s` does.
  */
  function CollapseSpaces(s: string): (r: string)
    ensures (r == []) == (s == [])
    ensures NoDoubleSpace(r)
    ensures r != [] ==> (IsSpace(r[0]) <==> IsSpace(s[0]))
    ensures r != [] ==> (IsSpace(r[|r| - 1]) <==> IsSpace(s[|s| - 1]))
    decreases |s|
  {
    if s == [] then []
    else if IsSpace(s[0]) then
      var t := LStrip(s);
      LStripSuffix(s);
      assert t == [] ==> AllSpace(s) by {
        if t == [] { assert s[..|s|] == s; }
      }
      " " + CollapseSpaces(t)
    else
      [s[0]] + CollapseSpaces(s[1..])
  }

  /** The only whitespace `CollapseSpaces` produces is a plain space; every other character of
      its result comes from its argument. */
  lemma {:induction false} CollapseSpacesChars(s: string)
    ensures forall c :: c in CollapseSpaces(s) ==> if IsSpace(c) then c == ' ' else c in s
    decreases |s|
  {
    if s == [] {
    } else if IsSpace(s[0]) {
      var t := LStrip(s);
      LStripSuffix(s);
      CollapseSpacesChars(t);
      forall c | c in t ensures c in s {
        var k :| 0 <= k < |t| && t[k] == c;
        assert s[|s| - |t| + k] == c;
      }
    } else {
      CollapseSpacesChars(s[1..]);
      forall c | c in s[1..] ensures c in s {
        var k :| 0 <= k < |s[1..]| && s[1..][k] == c;
        assert s[k + 1] == c;
      }
    }
  }

  /** The only whitespace in a collapsed text is the plain space. */
  lemma CollapseSpacesPlain(s: string)
    ensures OnlyPlainSpaces(CollapseSpaces(s))
  {
    var r := CollapseSpaces(s);
    CollapseSpacesChars(s);
    forall i | 0 <= i < |r| ensures IsSpace(r[i]) ==> r[i] == ' ' {
      assert r[i] in r;
    }
  }

  /** Collapsing whitespace brings in no character of `cs` other than, possibly, the space. */
  lemma CollapseSpacesAvoids(s: string, cs: set<char>)
    requires ' ' !in cs && Avoids(s, cs)
    ensures Avoids(CollapseSpaces(s), cs)
  {
    var r := CollapseSpaces(s);
    CollapseSpacesChars(s);
    forall i | 0 <= i < |r| ensures r[i] !in cs {
      assert r[i] in r;
      if !IsSpace(r[i]) {
        var k :| 0 <= k < |s| && s[k] == r[i];
      }
    }
  }

  /** Dropping the first character keeps plain, single spacing. */
  lemma SingleSpacedTail(s: string)
    requires s != [] && OnlyPlainSpaces(s) && NoDoubleSpace(s)
    ensures OnlyPlainSpaces(s[1..]) && NoDoubleSpace(s[1..])
  {
    var t := s[1..];
    assert forall i :: 0 <= i < |t| ==> t[i] == s[i + 1];
  }

  /** A text already made of plain, single spaces is its own collapse. */
  lemma {:induction false} CollapseSpacesFixed(s: string)
    requires OnlyPlainSpaces(s) && NoDoubleSpace(s)
    ensures CollapseSpaces(s) == s
    decreases |s|
  {
    if s != [] {
      SingleSpacedTail(s);
      CollapseSpacesFixed(s[1..]);
      if IsSpace(s[0]) {
        assert s[0] == ' ';
        assert |s| == 1 || !IsSpace(s[1]);
        assert s[..1] == [s[0]];
        LStripAt(s, 1);
        assert " " + s[1..] == s;
      } else {
        assert [s[0]] + s[1..] == s;
      }
    }
  }

  // ---------------------------------------------------------------- splitting

  /** Length of the leading run of non-whitespace characters. */
  function WordLen(s: string): (n: nat)
    ensures n <= |s| && NoSpace(s[..n]) && (n == |s| || IsSpace(s[n]))
  {
    if s == [] || IsSpace(s[0]) then 0 else 1 + WordLen(s[1..])
  }

  /**
    `s.split()`: the maximal runs of non-whitespace characters, in order. Every piece is
    non-empty and holds no whitespace; there is none exactly when `s` is all whitespace.
  */
  function SplitWs(s: string): (r: seq<string>)
    ensures forall i :: 0 <= i < |r| ==> r[i] != [] && NoSpace(r[i])
    ensures r == [] <==> AllSpace(s)
    decreases |s|
  {
    if s == [] then []
    else if IsSpace(s[0]) then
      assert AllSpace(s) <==> AllSpace(s[1..]);
      SplitWs(s[1..])
    else
      var n := WordLen(s);
      [s[..n]] + SplitWs(s[n..])
  }

  /** The first word of `w + t` is `w` when `t` is empty or starts with whitespace. */
  lemma {:induction false} WordLenOf(w: string, t: string)
    requires NoSpace(w) && (t == [] || IsSpace(t[0]))
    ensures WordLen(w + t) == |w|
    decreases |w|
  {
    if w == [] {
      assert w + t == t;
    } else {
      assert (w + t)[1..] == w[1..] + t;
      WordLenOf(w[1..], t);
    }
  }

  /** Splitting a word followed by whitespace-led text. */
  lemma SplitWsWord(w: string, rest: string)
    requires w != [] && NoSpace(w) && (rest == [] || IsSpace(rest[0]))
    ensures SplitWs(w + rest) == [w] + SplitWs(rest)
  {
    WordLenOf(w, rest);
    var s := w + rest;
    assert s[..|w|] == w && s[|w|..] == rest;
  }

  /** `split()` on words joined by single spaces gives the words back. */
  lemma {:induction false} SplitWsJoin(ws: seq<string>)
    requires forall i :: 0 <= i < |ws| ==> ws[i] != [] && NoSpace(ws[i])
    ensures SplitWs(Join(ws, " ")) == ws
  {
    if |ws| == 1 {
      SplitWsWord(ws[0], []);
      assert ws[0] + [] == ws[0];
    } else if |ws| > 1 {
      var rest := Join(ws[1..], " ");
      assert Join(ws, " ") == ws[0] + (" " + rest);
      SplitWsWord(ws[0], " " + rest);
      assert (" " + rest)[1..] == rest;
      SplitWsJoin(ws[1..]);
      assert [ws[0]] + ws[1..] == ws;
    }
  }

  /** A character of a slice is a character of the whole. */
  lemma SliceChars(s: string, a: nat, b: nat)
    requires a <= b <= |s|
    ensures forall c :: c in s[a..b] ==> c in s
  {
    forall c | c in s[a..b] ensures c in s {
      var k :| 0 <= k < b - a && s[a..b][k] == c;
      assert s[a + k] == c;
    }
  }

  /** Every character of every piece of `SplitWs(s)` is a character of `s`. */
  lemma {:induction false} SplitWsChars(s: string)
    ensures forall i, c :: 0 <= i < |SplitWs(s)| && c in SplitWs(s)[i] ==> c in s
    decreases |s|
  {
    if s == [] {
    } else if IsSpace(s[0]) {
      SplitWsChars(s[1..]);
      SliceChars(s, 1, |s|);
      assert SplitWs(s) == SplitWs(s[1..]);
      assert s[1..|s|] == s[1..];
    } else {
      var n := WordLen(s);
      SplitWsChars(s[n..]);
      SliceChars(s, n, |s|);
      SliceChars(s, 0, n);
      var r := SplitWs(s);
      assert r == [s[..n]] + SplitWs(s[n..]);
      assert s[0..n] == s[..n] && s[n..|s|] == s[n..];
      forall i, c | 0 <= i < |r| && c in r[i] ensures c in s {
        if i > 0 { assert r[i] == SplitWs(s[n..])[i - 1]; }
      }
    }
  }

  /** Length of the text before the first line boundary. */
  function LineLen(s: string): (n: nat)
    ensures n <= |s| && NoLineBreak(s[..n]) && (n == |s| || IsLineBreak(s[n]))
  {
    if s == [] || IsLineBreak(s[0]) then 0 else 1 + LineLen(s[1..])
  }

  /**
    `s.splitlines()`: the pieces between line boundaries ("\r\n" is one boundary), without a
    trailing empty piece. No piece holds a line boundary, and a text without one is one line.
  */
  function SplitLines(s: string): (r: seq<string>)
    ensures forall i :: 0 <= i < |r| ==> NoLineBreak(r[i])
    ensures NoLineBreak(s) ==> r == if s == [] then [] else [s]
    decreases |s|
  {
    if s == [] then []
    else
      var n := LineLen(s);
      if n == |s| then
        assert s[..n] == s;
        [s]
      else
        var skip := if s[n] == '\r' && n + 1 < |s| && s[n + 1] == '\n' then 2 else 1;
        [s[..n]] + SplitLines(s[n + skip..])
  }

  /** The first line of `w + t` is `w` when `t` is empty or starts with a line boundary. */
  lemma {:induction false} LineLenOf(w: string, t: string)
    requires NoLineBreak(w) && (t == [] || IsLineBreak(t[0]))
    ensures LineLen(w + t) == |w|
    decreases |w|
  {
    if w == [] {
      assert w + t == t;
    } else {
      assert (w + t)[1..] == w[1..] + t;
      LineLenOf(w[1..], t);
    }
  }

  /** `splitlines()` on non-empty lines joined by `"\n"` gives the lines back. */
  lemma {:induction false} SplitLinesJoin(ls: seq<string>)
    requires forall i :: 0 <= i < |ls| ==> ls[i] != [] && NoLineBreak(ls[i])
    ensures SplitLines(Join(ls, "\n")) == ls
  {
    if |ls| == 1 {
      assert NoLineBreak(ls[0]);
    } else if |ls| > 1 {
      SplitLinesCons(ls[0], Join(ls[1..], "\n"));
      SplitLinesJoin(ls[1..]);
      assert [ls[0]] + ls[1..] == ls;
    }
  }

  /** A non-empty line, a `"\n"` and a rest split into that line and the lines of the rest. */
  lemma SplitLinesCons(w: string, rest: string)
    requires w != [] && NoLineBreak(w)
    ensures SplitLines(w + "\n" + rest) == [w] + SplitLines(rest)
  {
    var s := w + "\n" + rest;
    LineLenOf(w, "\n" + rest);
    assert s == w + ("\n" + rest);
    assert s[..|w|] == w && s[|w|] == '\n' && s[|w| + 1..] == rest;
  }

  /** Index of the first occurrence of `c`. */
  function IndexOf(s: string, c: char): (i: nat)
    requires c in s
    ensures i < |s| && s[i] == c && c !in s[..i]
  {
    if s[0] == c then 0 else 1 + IndexOf(s[1..], c)
  }

  /** `s.split(c, 1)` when `c` occurs in `s`: the text before and after its first occurrence. */
  function SplitOnce(s: string, c: char): (r: (string, string))
    requires c in s
    ensures r.0 + [c] + r.1 == s && c !in r.0
  {
    var i := IndexOf(s, c);
    (s[..i], s[i + 1..])
  }

  /** Splitting at a known first occurrence. */
  lemma SplitOnceAt(s: string, c: char, k: nat)
    requires k < |s| && s[k] == c && c !in s[..k]
    ensures SplitOnce(s, c) == (s[..k], s[k + 1..])
  {
    var i := IndexOf(s, c);
    assert forall j :: 0 <= j < k ==> s[..k][j] == s[j];
    assert forall j :: 0 <= j < i ==> s[..i][j] == s[j];
  }

  /** `sep.join(xs)`. */
  function Join(xs: seq<string>, sep: string): string {
    if xs == [] then [] else if |xs| == 1 then xs[0] else xs[0] + sep + Join(xs[1..], sep)
  }

  /** Where the `i`-th piece starts in `sep.join(xs)`: the lengths of the pieces before it, each followed by `sep`. */
  function JoinOffset(xs: seq<string>, sep: string, i: nat): nat
    requires i <= |xs|
  {
    if i == 0 then 0 else |xs[0]| + |sep| + JoinOffset(xs[1..], sep, i - 1)
  }

  /** In `sep.join(xs)`, the `i`-th piece sits at its offset. */
  lemma {:induction false} JoinPiece(xs: seq<string>, sep: string, i: nat)
    requires i < |xs|
    ensures var j, o := Join(xs, sep), JoinOffset(xs, sep, i);
      o + |xs[i]| <= |j| && j[o..o + |xs[i]|] == xs[i]
  {
    if i > 0 {
      var rest := Join(xs[1..], sep);
      JoinPiece(xs[1..], sep, i - 1);
      assert xs[1..][i - 1] == xs[i];
      var h := xs[0] + sep;
      assert Join(xs, sep) == h + rest;
      var o := JoinOffset(xs[1..], sep, i - 1);
      assert (h + rest)[|h| + o..|h| + o + |xs[i]|] == rest[o..o + |xs[i]|];
    } else if |xs| > 1 {
      assert Join(xs, sep) == xs[0] + (sep + Join(xs[1..], sep));
    }
  }

  /** In `sep.join(xs)`, `sep` follows every piece but the last. */
  lemma {:induction false} JoinSeparator(xs: seq<string>, sep: string, i: nat)
    requires i + 1 < |xs|
    ensures var j, e := Join(xs, sep), JoinOffset(xs, sep, i) + |xs[i]|;
      e + |sep| <= |j| && j[e..e + |sep|] == sep
  {
    var rest := Join(xs[1..], sep);
    var h := xs[0] + sep;
    assert Join(xs, sep) == h + rest;
    if i > 0 {
      JoinSeparator(xs[1..], sep, i - 1);
      var e := JoinOffset(xs[1..], sep, i - 1) + |xs[i]|;
      assert (h + rest)[|h| + e..|h| + e + |sep|] == rest[e..e + |sep|];
    } else {
      assert (h + rest)[|xs[0]|..|xs[0]| + |sep|] == h[|xs[0]|..];
    }
  }

  /** `sep.join(xs)` ends where the last piece ends: nothing follows it. */
  lemma {:induction false} JoinLength(xs: seq<string>, sep: string)
    requires xs != []
    ensures |Join(xs, sep)| == JoinOffset(xs, sep, |xs| - 1) + |xs[|xs| - 1]|
  {
    if |xs| > 1 {
      JoinLength(xs[1..], sep);
    }
  }

  /** Joining one more piece appends the separator and that piece. */
  lemma {:induction false} JoinAppend(xs: seq<string>, x: string, sep: string)
    requires xs != []
    ensures Join(xs + [x], sep) == Join(xs, sep) + sep + x
  {
    if |xs| > 1 {
      JoinAppend(xs[1..], x, sep);
      assert (xs + [x])[1..] == xs[1..] + [x];
    }
  }
}
