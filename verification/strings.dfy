/** Character classes and string operations the application borrows from Python:
    `str.isspace`, `str.strip`, `str.upper`, the substring test `a in b`,
    case-insensitive comparison as `re.IGNORECASE` performs it, and the
    `name` / `stem` of a `pathlib.Path`. */
module Strings {

  /** Python's `str.isspace()`: exactly the characters `.strip()` removes and `\s` matches. */
  predicate IsSpace(c: char)
    ensures c < '\U{80}' ==> (IsSpace(c) <==> c in " \t\n\r\U{B}\U{C}\U{1C}\U{1D}\U{1E}\U{1F}")
  {
    || ('\t' <= c <= '\r')
    || ('\U{1C}' <= c <= ' ')
    || c == '\U{85}' || c == '\U{A0}' || c == '\U{1680}'
    || ('\U{2000}' <= c <= '\U{200A}')
    || c == '\U{2028}' || c == '\U{2029}' || c == '\U{202F}' || c == '\U{205F}' || c == '\U{3000}'
  }

  /** A decimal digit, as `[0-9]` (and, for ASCII text, `\d`) matches it. */
  predicate IsDigit(c: char) {
    '0' <= c <= '9'
  }

  /** `sub` occurs in `s` starting at index `i`. */
  predicate OccursAt(s: string, i: int, sub: string) {
    0 <= i && i + |sub| <= |s| && s[i..i + |sub|] == sub
  }

  /** Python's `sub in s`. */
  predicate Contains(s: string, sub: string) {
    exists i | 0 <= i <= |s| - |sub| :: OccursAt(s, i, sub)
  }

  /** `s` ends with `suffix` (the glob `*.html` on a single name). */
  predicate EndsWith(s: string, suffix: string) {
    |suffix| <= |s| && s[|s| - |suffix|..] == suffix
  }

  /** A substring of a substring is a substring. */
  lemma ContainsTransitive(a: string, b: string, c: string)
    requires Contains(a, b) && Contains(b, c)
    ensures Contains(a, c)
  {
    var i :| 0 <= i <= |a| - |b| && OccursAt(a, i, b);
    var j :| 0 <= j <= |b| - |c| && OccursAt(b, j, c);
    assert forall k | 0 <= k < |c| :: a[i + j + k] == b[j + k] == c[k];
    assert OccursAt(a, i + j, c);
  }

  /** Every string occurs in itself, and in any extension of itself. */
  lemma ContainsConcat(pre: string, s: string, post: string)
    ensures Contains(pre + s + post, s)
  {
    var t := pre + s + post;
    assert t[|pre|..|pre| + |s|] == s;
    assert OccursAt(t, |pre|, s);
  }

  /** Both pieces set between three others occur in the whole. */
  lemma ContainsBothParts(a: string, b: string, c: string, d: string, e: string)
    ensures Contains(a + b + c + d + e, b) && Contains(a + b + c + d + e, d)
  {
    var t := a + b + c + d + e;
    var i := |a| + |b| + |c|;
    assert t[|a|..|a| + |b|] == b;
    assert t[i..i + |d|] == d;
    assert OccursAt(t, |a|, b) && OccursAt(t, i, d);
  }

  /** `r` is `s` with its leading and trailing whitespace removed, and nothing else removed. */
  ghost predicate IsStripOf(r: string, s: string) {
    exists a, b | 0 <= a <= b <= |s| ::
      && r == s[a..b]
      && (forall k | 0 <= k < a :: IsSpace(s[k]))
      && (forall k | b <= k < |s| :: IsSpace(s[k]))
      && (r == [] || (!IsSpace(r[0]) && !IsSpace(r[|r| - 1])))
  }

  /** Drops leading whitespace. */
  function TrimStart(s: string): (r: string)
    ensures |r| <= |s| && r == s[|s| - |r|..]
    ensures forall k | 0 <= k < |s| - |r| :: IsSpace(s[k])
    ensures r == [] || !IsSpace(r[0])
  {
    if s != [] && IsSpace(s[0]) then TrimStart(s[1..]) else s
  }

  /** Drops trailing whitespace. */
  function TrimEnd(s: string): (r: string)
    ensures |r| <= |s| && r == s[..|r|]
    ensures forall k | |r| <= k < |s| :: IsSpace(s[k])
    ensures r == [] || !IsSpace(r[|r| - 1])
  {
    if s != [] && IsSpace(s[|s| - 1]) then TrimEnd(s[..|s| - 1]) else s
  }

  /** Python's `s.strip()`. */
  function Strip(s: string): (r: string)
    ensures IsStripOf(r, s)
    ensures Contains(s, r)
    ensures forall c | c in r :: c in s
  {
    var u := TrimStart(s);
    var r := TrimEnd(u);
    TrimsGiveStrip(s, u, r);
    r
  }

  /** Trimming the start and then the end leaves the strip. */
  lemma TrimsGiveStrip(s: string, u: string, r: string)
    requires |u| <= |s| && u == s[|s| - |u|..]
    requires forall k | 0 <= k < |s| - |u| :: IsSpace(s[k])
    requires u == [] || !IsSpace(u[0])
    requires |r| <= |u| && r == u[..|r|]
    requires forall k | |r| <= k < |u| :: IsSpace(u[k])
    requires r == [] || !IsSpace(r[|r| - 1])
    ensures IsStripOf(r, s)
    ensures Contains(s, r)
    ensures forall c | c in r :: c in s
  {
    var a := |s| - |u|;
    var b := a + |r|;
    assert r == s[a..b];
    forall k | b <= k < |s|
      ensures IsSpace(s[k])
    {
      assert s[k] == u[k - a];
    }
    assert r != [] ==> s[a] == u[0];
    StripWitness(s, a, b);
  }

  /** A slice with only whitespace around it, and none at its ends, is the strip. */
  lemma StripWitness(s: string, a: int, b: int)
    requires 0 <= a <= b <= |s|
    requires forall k | 0 <= k < a :: IsSpace(s[k])
    requires forall k | b <= k < |s| :: IsSpace(s[k])
    requires a == b || (!IsSpace(s[a]) && !IsSpace(s[b - 1]))
    ensures IsStripOf(s[a..b], s)
    ensures Contains(s, s[a..b])
    ensures forall c | c in s[a..b] :: c in s
  {
    var r := s[a..b];
    assert r == [] || (r[0] == s[a] && r[|r| - 1] == s[b - 1]);
    assert OccursAt(s, a, r);
  }

  /** Stripping a string that neither starts nor ends with whitespace changes nothing. */
  lemma StripIdentity(s: string)
    requires s == [] || (!IsSpace(s[0]) && !IsSpace(s[|s| - 1]))
    ensures Strip(s) == s
  {
  }

  /** The length of the longest run of characters satisfying `p` from index `j`
      (what a greedy `[...]*` consumes there). */
  function RunLength(t: string, j: nat, p: char -> bool): (n: nat)
    requires j <= |t|
    decreases |t| - j
    ensures j + n <= |t|
    ensures forall k | j <= k < j + n :: p(t[k])
    ensures j + n == |t| || !p(t[j + n])
  {
    if j < |t| && p(t[j]) then 1 + RunLength(t, j + 1, p) else 0
  }

  /** Python's `s.rfind(c)`: the last index holding `c`, or -1. */
  function LastIndexOf(s: string, c: char): (r: int)
    ensures -1 <= r < |s|
    ensures r >= 0 ==> s[r] == c
    ensures forall k | r < k < |s| :: s[k] != c
  {
    if s == [] then -1
    else if s[|s| - 1] == c then |s| - 1
    else LastIndexOf(s[..|s| - 1], c)
  }

  /** `Path(p).name`: the final component of a slash-separated path. */
  function BaseName(path: string): (r: string)
    ensures EndsWith(path, r)
    ensures '/' !in r
    ensures |r| < |path| ==> path[|path| - |r| - 1] == '/'
  {
    path[LastIndexOf(path, '/') + 1..]
  }

  /** `Path(p).stem`: the final component without its last suffix. As in
      `pathlib`, a dot that opens the name or closes it does not start a suffix. */
  function Stem(path: string): (r: string)
    ensures var name := BaseName(path);
      && |r| <= |name| && r == name[..|r|]
      && (r != name <==> (0 < |r| < |name| - 1 && name[|r|] == '.' && '.' !in name[|r| + 1..]))
    ensures var name := BaseName(path);
      (exists d | 0 < d < |name| - 1 :: name[d] == '.' && '.' !in name[d + 1..]) ==> r != name
  {
    var name := BaseName(path);
    var i := LastIndexOf(name, '.');
    if 0 < i < |name| - 1 then name[..i] else name
  }

  /** Python's `str.upper()` on one character, exact for ASCII and Latin-1
      (including the expansions of `ß`, `ÿ` and `µ`); other characters are kept. */
  function UpperChar(c: char): string {
    if 'a' <= c <= 'z' || ('\U{E0}' <= c <= '\U{FE}' && c != '\U{F7}') then [(c as int - 32) as char]
    else if c == '\U{FF}' then "\U{178}"
    else if c == '\U{B5}' then "\U{39C}"
    else if c == '\U{DF}' then "SS"
    else [c]
  }

  /** Python's `str.upper()`, character by character. */
  function Upper(s: string): (r: string)
    ensures |s| <= |r|
  {
    if s == [] then [] else UpperChar(s[0]) + Upper(s[1..])
  }

  /** Without `ß` (the one character that `upper()` turns into two), upper-casing
      maps the string character by character, position for position. */
  lemma {:induction false} UpperByCharacter(s: string)
    requires forall c | c in s :: |UpperChar(c)| == 1
    ensures |Upper(s)| == |s|
    ensures forall k | 0 <= k < |s| :: Upper(s)[k] == UpperChar(s[k])[0]
  {
    if s != [] {
      assert forall c | c in s[1..] :: c in s;
      UpperByCharacter(s[1..]);
      assert s[0] in s;
      assert forall k | 1 <= k < |s| :: s[k] == s[1..][k - 1];
    }
  }

  /** Upper-casing distributes over concatenation. */
  lemma {:induction false} UpperConcat(a: string, b: string)
    ensures Upper(a + b) == Upper(a) + Upper(b)
  {
    if a == [] {
      assert a + b == b;
    } else {
      assert (a + b)[0] == a[0];
      assert (a + b)[1..] == a[1..] + b;
      UpperConcat(a[1..], b);
    }
  }

  /** A string made of characters that `upper()` keeps is its own upper-case form. */
  lemma {:induction false} UpperFixed(s: string)
    requires forall k | 0 <= k < |s| :: UpperChar(s[k]) == [s[k]]
    ensures Upper(s) == s
  {
    if s != [] {
      UpperFixed(s[1..]);
    }
  }

  /** What `upper()` produces for one character, it keeps. */
  lemma UpperCharFixed(c: char)
    ensures Upper(UpperChar(c)) == UpperChar(c)
  {
    UpperFixed(UpperChar(c));
  }

  /** Upper-casing twice is upper-casing once. */
  lemma {:induction false} UpperIdempotent(s: string)
    ensures Upper(Upper(s)) == Upper(s)
  {
    if s != [] {
      UpperConcat(UpperChar(s[0]), Upper(s[1..]));
      UpperCharFixed(s[0]);
      UpperIdempotent(s[1..]);
    }
  }

  /** Upper-casing keeps a substring a substring: `sub in s` implies `sub.upper() in s.upper()`. */
  lemma UpperKeepsContains(s: string, sub: string)
    requires Contains(s, sub)
    ensures Contains(Upper(s), Upper(sub))
  {
    var i :| 0 <= i <= |s| - |sub| && OccursAt(s, i, sub);
    assert s == s[..i] + sub + s[i + |sub|..];
    UpperConcat(s[..i] + sub, s[i + |sub|..]);
    UpperConcat(s[..i], sub);
    ContainsConcat(Upper(s[..i]), Upper(sub), Upper(s[i + |sub|..]));
  }

  /** The single-character lower-casing `re.IGNORECASE` compares by, exact for ASCII and Latin-1. */
  function LowerChar(c: char): char {
    if 'A' <= c <= 'Z' || ('\U{C0}' <= c <= '\U{DE}' && c != '\U{D7}') then (c as int + 32) as char else c
  }

  /** `pat` matches `t` at `i` ignoring case. */
  predicate FoldOccursAt(t: string, i: int, pat: string) {
    0 <= i && i + |pat| <= |t| && forall k | 0 <= k < |pat| :: LowerChar(t[i + k]) == LowerChar(pat[k])
  }
}
