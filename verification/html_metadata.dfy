/** Metadata read from a rendered (HTML) opinion: the case number and the title.
    Each is found by an ordered list of patterns, the first that matches wins,
    and a fixed sentinel answers when none does. */
module HtmlMetadata {
  import opened Wrappers
  import opened Strings

  const NotAvailable := "N/A"
  const Untitled := "Documento sem título"

  // ---------------------------------------------------------------------------
  // The case-number patterns

  /** The CNJ layout `\d{7}-\d{2}\.\d{4}\.\d{1}\.\d{2}\.\d{4}`, `d` standing for a digit. */
  const CnjShape := "ddddddd-dd.dddd.d.dd.dddd"

  predicate FitsShape(shape: char, c: char) {
    if shape == 'd' then IsDigit(c) else c == shape
  }

  /** A CNJ-shaped number starts at `i`. */
  predicate CnjAt(t: string, i: int) {
    0 <= i && i + |CnjShape| <= |t| && forall k | 0 <= k < |CnjShape| :: FitsShape(CnjShape[k], t[i + k])
  }

  const LongNumberLabel := "Número do Processo"
  const ShortNumberLabel := "Processo"

  predicate IsSeparator(c: char) {
    c == ':' || IsSpace(c)
  }

  predicate IsNumberChar(c: char) {
    IsDigit(c) || c == '-' || c == '.'
  }

  /** `[:\s]*([0-9\-\.]+)` matches from `j` capturing `t[a..b]`: separators up to
      `a`, number characters from `a` up to `b`, and no number character at `b`
      (the `+` is greedy). No character is both a separator and a number
      character, so the separators necessarily stop at `a`. */
  ghost predicate NumberSpan(t: string, j: int, a: int, b: int) {
    && 0 <= j <= a < b <= |t|
    && (forall k | j <= k < a :: IsSeparator(t[k]))
    && (forall k | a <= k < b :: IsNumberChar(t[k]))
    && (b == |t| || !IsNumberChar(t[b]))
  }

  /** A match of `[:\s]*([0-9\-\.]+)` is made of the two greedy runs from `j`. */
  lemma NumberSpanIsRuns(t: string, j: nat, a: int, b: int)
    requires j <= |t| && NumberSpan(t, j, a, b)
    ensures a == j + RunLength(t, j, IsSeparator)
    ensures b == a + RunLength(t, a, IsNumberChar)
  {
    assert IsNumberChar(t[a]);
  }

  /** Hence every match from `j` is the same one. */
  lemma NumberSpansAreRuns(t: string, j: nat)
    requires j <= |t|
    ensures forall a, b | NumberSpan(t, j, a, b) ::
      a == j + RunLength(t, j, IsSeparator) && b == a + RunLength(t, a, IsNumberChar)
  {
    forall a, b | NumberSpan(t, j, a, b)
      ensures a == j + RunLength(t, j, IsSeparator) && b == a + RunLength(t, a, IsNumberChar)
    {
      NumberSpanIsRuns(t, j, a, b);
    }
  }

  /** `[:\s]*([0-9\-\.]+)` from `j`: separators, then the captured number if there is one. */
  function NumberAfter(t: string, j: nat): (r: Option<string>)
    requires j <= |t|
    ensures forall a, b | NumberSpan(t, j, a, b) :: r == Some(t[a..b])
    ensures r.Some? ==> exists a, b :: NumberSpan(t, j, a, b) && r.value == t[a..b]
    ensures r.Some? ==> r.value != [] && forall c | c in r.value :: IsNumberChar(c)
    ensures r.Some? ==> Contains(t, r.value)
  {
    var s := j + RunLength(t, j, IsSeparator);
    var n := RunLength(t, s, IsNumberChar);
    NumberSpansAreRuns(t, j);
    if n == 0 then None
    else
      assert NumberSpan(t, j, s, s + n);
      assert OccursAt(t, s, t[s..s + n]);
      Some(t[s..s + n])
  }

  /** `(?:Número do Processo|Processo)[:\s]*([0-9\-\.]+)` matches at `i`, ignoring
      case, capturing `t[a..b]`. */
  ghost predicate LabelSpan(t: string, i: int, a: int, b: int) {
    || (FoldOccursAt(t, i, LongNumberLabel) && NumberSpan(t, i + |LongNumberLabel|, a, b))
    || (FoldOccursAt(t, i, ShortNumberLabel) && NumberSpan(t, i + |ShortNumberLabel|, a, b))
  }

  /** The two labels start with different letters, so at most one is at `i`. */
  lemma LabelsExclusive(t: string, i: int)
    ensures !(FoldOccursAt(t, i, LongNumberLabel) && FoldOccursAt(t, i, ShortNumberLabel))
  {
    assert LowerChar(LongNumberLabel[0]) == 'n' && LowerChar(ShortNumberLabel[0]) == 'p';
    if FoldOccursAt(t, i, LongNumberLabel) {
      assert LowerChar(t[i]) == 'n';
    }
  }

  /** `(?:Número do Processo|Processo)[:\s]*([0-9\-\.]+)` at `i`, ignoring case: the
      first alternative is tried first and the second only if the first fails. */
  function NumberLabelAt(t: string, i: int): (r: Option<string>)
    ensures forall a, b | LabelSpan(t, i, a, b) :: r == Some(t[a..b])
    ensures r.Some? ==> exists a, b :: LabelSpan(t, i, a, b) && r.value == t[a..b]
    ensures r.Some? ==> r.value != [] && forall c | c in r.value :: IsNumberChar(c)
    ensures r.Some? ==> Contains(t, r.value)
  {
    LabelsExclusive(t, i);
    if FoldOccursAt(t, i, LongNumberLabel) && NumberAfter(t, i + |LongNumberLabel|).Some? then
      NumberAfter(t, i + |LongNumberLabel|)
    else if FoldOccursAt(t, i, ShortNumberLabel) then
      NumberAfter(t, i + |ShortNumberLabel|)
    else None
  }

  // ---------------------------------------------------------------------------
  // The title patterns

  const TitleOpen := "<title>"
  const TitleClose := "</title>"
  const HeadingOpen := "<h1"
  const HeadingClose := "</h1>"

  /** No newline in `t[a..b]`. */
  ghost predicate LineFree(t: string, a: int, b: int) {
    0 <= a <= b <= |t| && forall k | a <= k < b :: t[k] != '\n'
  }

  lemma LineFreeSlice(t: string, a: int, b: int)
    requires LineFree(t, a, b)
    ensures '\n' !in t[a..b]
  {
  }

  /** `(.+?)close` from `start` ends at `e`: at least one character, no newline,
      and `e` is the first position after `start` where `close` occurs. */
  ghost predicate ContentEnd(t: string, start: int, close: string, e: int) {
    && start < e
    && LineFree(t, start, e)
    && FoldOccursAt(t, e, close)
    && forall m | start < m < e :: !FoldOccursAt(t, m, close)
  }

  /** `<title>(.+?)</title>` matches at `i`, ignoring case, with the content ending at `e`. */
  ghost predicate TitleSpan(t: string, i: int, e: int) {
    FoldOccursAt(t, i, TitleOpen) && ContentEnd(t, i + |TitleOpen|, TitleClose, e)
  }

  /** `[^>]*>` from `from` ends at `g`: the first `>` at or after `from`. */
  ghost predicate OpenerEnd(t: string, from: int, g: int) {
    0 <= from <= g < |t| && t[g] == '>' && forall k | from <= k < g :: t[k] != '>'
  }

  /** `<h1[^>]*>(.+?)</h1>` matches at `i`, ignoring case, with the opening tag's
      `>` at `g` and the content ending at `e`. */
  ghost predicate HeadingSpan(t: string, i: int, g: int, e: int) {
    && FoldOccursAt(t, i, HeadingOpen)
    && OpenerEnd(t, i + |HeadingOpen|, g)
    && ContentEnd(t, g + 1, HeadingClose, e)
  }

  /** The search of `(.+?)close` for an end at or after `e`. */
  function CloseFrom(t: string, start: nat, close: string, e: nat): (r: Option<nat>)
    requires start < e <= |t|
    requires LineFree(t, start, e - 1)
    decreases |t| - e
    ensures r.Some? ==> e <= r.value <= |t| && LineFree(t, start, r.value) && FoldOccursAt(t, r.value, close)
    ensures r.Some? ==> forall m | e <= m < r.value :: !FoldOccursAt(t, m, close)
    ensures r.None? ==> forall m | e <= m <= |t| && LineFree(t, start, m) :: !FoldOccursAt(t, m, close)
  {
    if t[e - 1] == '\n' then None
    else if FoldOccursAt(t, e, close) then Some(e)
    else if e == |t| then None
    else CloseFrom(t, start, close, e + 1)
  }

  /** The lazy `(.+?)close` from `start`: the end of the shortest non-empty,
      newline-free content that `close` follows. */
  function LazyClose(t: string, start: nat, close: string): (r: Option<nat>)
    requires start <= |t|
    ensures r.Some? ==> start < r.value <= |t| && LineFree(t, start, r.value) && FoldOccursAt(t, r.value, close)
    ensures r.Some? ==> forall m | start < m < r.value :: !FoldOccursAt(t, m, close)
    ensures r.None? ==> forall m | start < m <= |t| && LineFree(t, start, m) :: !FoldOccursAt(t, m, close)
  {
    if start == |t| then None else CloseFrom(t, start, close, start + 1)
  }

  /** `<title>(.+?)</title>` at `i`, ignoring case: the element's content. */
  function TitleAt(t: string, i: int): (r: Option<string>)
    ensures forall e | TitleSpan(t, i, e) :: r == Some(t[i + |TitleOpen|..e])
    ensures r.Some? ==> exists e :: TitleSpan(t, i, e) && r.value == t[i + |TitleOpen|..e]
    ensures r.Some? ==> r.value != [] && '\n' !in r.value
  {
    if FoldOccursAt(t, i, TitleOpen) then
      match LazyClose(t, i + |TitleOpen|, TitleClose)
      case Some(e) =>
        LineFreeSlice(t, i + |TitleOpen|, e);
        assert TitleSpan(t, i, e);
        Some(t[i + |TitleOpen|..e])
      case None => None
    else None
  }

  predicate IsNotGt(c: char) {
    c != '>'
  }

  /** `<h1[^>]*>(.+?)</h1>` at `i`, ignoring case: the element's content, markup included. */
  function HeadingAt(t: string, i: int): (r: Option<string>)
    ensures forall g, e | HeadingSpan(t, i, g, e) :: r == Some(t[g + 1..e])
    ensures r.Some? ==> exists g, e :: HeadingSpan(t, i, g, e) && r.value == t[g + 1..e]
    ensures r.Some? ==> r.value != [] && '\n' !in r.value
  {
    if FoldOccursAt(t, i, HeadingOpen) then
      var g := i + |HeadingOpen| + RunLength(t, i + |HeadingOpen|, IsNotGt);
      if g < |t| then
        match LazyClose(t, g + 1, HeadingClose)
        case Some(e) =>
          LineFreeSlice(t, g + 1, e);
          assert HeadingSpan(t, i, g, e);
          Some(t[g + 1..e])
        case None => None
      else None
    else None
  }

  // ---------------------------------------------------------------------------
  // Searching

  /** The four patterns of this module. */
  datatype Probe = Cnj | LabelledNumber | Title | Heading

  /** What the pattern captures when it matches at `i`. */
  function MatchAt(t: string, probe: Probe, i: int): Option<string> {
    match probe
    case Cnj => if CnjAt(t, i) then Some(t[i..i + |CnjShape|]) else None
    case LabelledNumber => NumberLabelAt(t, i)
    case Title => TitleAt(t, i)
    case Heading => HeadingAt(t, i)
  }

  predicate Matches(t: string, probe: Probe, i: int) {
    MatchAt(t, probe, i).Some?
  }

  predicate Found(t: string, probe: Probe) {
    exists i | 0 <= i < |t| :: Matches(t, probe, i)
  }

  /** `i` is the leftmost match, the one `re.search` reports. */
  ghost predicate FirstMatchAt(t: string, probe: Probe, i: int) {
    Matches(t, probe, i) && forall k | 0 <= k < i :: !Matches(t, probe, k)
  }

  function Find(t: string, probe: Probe, from: nat): (r: Option<nat>)
    requires from <= |t|
    ensures r.Some? ==> from <= r.value < |t| && Matches(t, probe, r.value)
    ensures r.Some? ==> forall k | from <= k < r.value :: !Matches(t, probe, k)
    ensures r.None? ==> forall k | from <= k < |t| :: !Matches(t, probe, k)
  {
    var p := (i: nat) => Matches(t, probe, i);
    var r := FirstWhere(|t|, p, from);
    var end := if r.Some? then r.value else |t|;
    forall k | from <= k < end
      ensures !Matches(t, probe, k)
    {
      assert !p(k);
    }
    assert r.Some? ==> p(r.value);
    r
  }

  /** The least position from `from` on, below `n`, where `p` holds. */
  function FirstWhere(n: nat, p: nat -> bool, from: nat): (r: Option<nat>)
    requires from <= n
    decreases n - from
    ensures r.Some? ==> from <= r.value < n && p(r.value)
    ensures r.Some? ==> forall k | from <= k < r.value :: !p(k)
    ensures r.None? ==> forall k | from <= k < n :: !p(k)
  {
    if from == n then None
    else if p(from) then Some(from)
    else FirstWhere(n, p, from + 1)
  }

  // ---------------------------------------------------------------------------
  // Removing markup: `re.sub(r'<[^>]+>', '', s)`

  /** A tag opens at `p`: a `<` followed by something other than `>`. */
  predicate TagOpensAt(s: string, p: int) {
    0 <= p < |s| - 1 && s[p] == '<' && s[p + 1] != '>'
  }

  /** No tag is left: no `>` follows a `<` that opens a tag. */
  predicate NoTag(s: string) {
    forall p {:trigger TagOpensAt(s, p)} | 0 <= p < |s| && TagOpensAt(s, p) :: '>' !in s[p..]
  }

  /** Deletes, left to right, every `<`, non-empty run of non-`>` characters, `>`. */
  function StripTags(s: string): (r: string)
    decreases |s|
    ensures NoTag(r)
    ensures forall c | c in r :: c in s
    ensures s != [] && s[0] != '<' ==> r != [] && r[0] == s[0]
    ensures '<' !in s ==> r == s
  {
    if s == [] then []
    else
      var q := 1 + RunLength(s, 1, IsNotGt);
      if s[0] == '<' && 2 <= q < |s| then StripTags(s[q + 1..])
      else
        var rest := StripTags(s[1..]);
        assert s[0] == '<' ==> (rest != [] && rest[0] == '>') || '>' !in rest;
        NoTagCons(s[0], rest);
        [s[0]] + rest
  }

  /** A first character other than `<` is kept, and the rest is processed alone. */
  lemma StripTagsPlainHead(s: string)
    requires s != [] && s[0] != '<'
    ensures StripTags(s) == [s[0]] + StripTags(s[1..])
  {
  }

  /** A tag, `<` then a non-empty run without `>` then `>`, is deleted whole. */
  lemma StripTagsDropsTag(u: string, b: string)
    requires u != [] && '>' !in u
    ensures StripTags("<" + u + ">" + b) == StripTags(b)
  {
    var s := "<" + u + ">" + b;
    assert s[1 + |u|] == '>';
    assert forall k | 1 <= k < 1 + |u| :: s[k] == u[k - 1];
    assert RunLength(s, 1, IsNotGt) == |u|;
    assert s[|u| + 2..] == b;
  }

  /** A `<` that opens no tag, because `>` follows at once or never, is kept. */
  lemma StripTagsKeepsLoneAngle(b: string)
    requires b == [] || b[0] == '>' || '>' !in b
    ensures StripTags("<" + b) == "<" + StripTags(b)
  {
    var s := "<" + b;
    assert s[1..] == b;
    assert forall k | 1 <= k < |s| :: s[k] == b[k - 1];
  }

  /** Putting a character in front of a tag-free string leaves it tag-free, unless
      that character opens a tag closed further on. */
  lemma NoTagCons(c: char, rest: string)
    requires NoTag(rest)
    requires c == '<' ==> (rest != [] && rest[0] == '>') || '>' !in rest
    ensures NoTag([c] + rest)
  {
    var r := [c] + rest;
    forall p | 0 <= p < |r| && TagOpensAt(r, p)
      ensures '>' !in r[p..]
    {
      if p == 0 {
        assert r[p..] == r && r[1..] == rest;
      } else {
        assert TagOpensAt(rest, p - 1);
        assert r[p..] == rest[p - 1..];
      }
    }
  }

  /** A slice of a tag-free string is tag-free. */
  lemma NoTagSlice(s: string, a: int, b: int)
    requires NoTag(s) && 0 <= a <= b <= |s|
    ensures NoTag(s[a..b])
  {
    var r := s[a..b];
    forall p | 0 <= p < |r| && TagOpensAt(r, p)
      ensures '>' !in r[p..]
    {
      assert TagOpensAt(s, a + p);
      assert r[p..] == s[a + p..b];
    }
  }

  /** Neither can taking any substring. */
  lemma NoTagContained(s: string, r: string)
    requires NoTag(s) && Contains(s, r)
    ensures NoTag(r)
  {
    var i :| 0 <= i <= |s| - |r| && OccursAt(s, i, r);
    NoTagSlice(s, i, i + |r|);
  }

  /** Trimming whitespace cannot uncover a tag. */
  lemma StripKeepsNoTag(s: string)
    requires NoTag(s)
    ensures NoTag(Strip(s))
  {
    NoTagContained(s, Strip(s));
  }

  // ---------------------------------------------------------------------------
  // The two extractors

  /** `extrair_numero_processo_html`: the leftmost CNJ-shaped number; otherwise the
      number after the leftmost `Número do Processo` / `Processo` label; otherwise `N/A`. */
  function ExtractCaseNumber(t: string): (r: string)
    ensures forall i | FirstMatchAt(t, Cnj, i) :: r == t[i..i + |CnjShape|]
    ensures !Found(t, Cnj) ==> forall i | FirstMatchAt(t, LabelledNumber, i) :: r == MatchAt(t, LabelledNumber, i).value
    ensures r == NotAvailable <==> !Found(t, Cnj) && !Found(t, LabelledNumber)
    ensures r != NotAvailable ==> r != [] && Contains(t, r)
  {
    match Find(t, Cnj, 0)
    case Some(i) =>
      assert forall j | FirstMatchAt(t, Cnj, j) :: j == i;
      var v := t[i..i + |CnjShape|];
      assert OccursAt(t, i, v) && |v| != |NotAvailable|;
      v
    case None =>
      match Find(t, LabelledNumber, 0)
      case Some(i) =>
        assert forall j | FirstMatchAt(t, LabelledNumber, j) :: j == i;
        var v := MatchAt(t, LabelledNumber, i).value;
        NumberIsNotSentinel(v);
        Strip(v)
      case None => NotAvailable
  }

  /** A captured number is its own strip, and never the sentinel. */
  lemma NumberIsNotSentinel(v: string)
    requires v != [] && forall c | c in v :: IsNumberChar(c)
    ensures Strip(v) == v && v != NotAvailable
  {
    assert IsNumberChar(v[0]) && IsNumberChar(v[|v| - 1]);
    StripIdentity(v);
  }

  /** `extrair_titulo_html`: the content of the leftmost `<title>` element; otherwise
      that of the leftmost `<h1>` with its markup removed; otherwise a fixed label.
      Both are stripped of surrounding whitespace. */
  function ExtractTitle(t: string): (r: string)
    ensures forall i | FirstMatchAt(t, Title, i) :: r == Strip(MatchAt(t, Title, i).value)
    ensures !Found(t, Title) ==> forall i | FirstMatchAt(t, Heading, i) :: r == Strip(StripTags(MatchAt(t, Heading, i).value))
    ensures !Found(t, Title) && Found(t, Heading) ==> NoTag(r)
    ensures !Found(t, Title) && !Found(t, Heading) ==> r == Untitled
    ensures '\n' !in r
  {
    match Find(t, Title, 0)
    case Some(i) =>
      assert forall j | FirstMatchAt(t, Title, j) :: j == i;
      Strip(MatchAt(t, Title, i).value)
    case None =>
      match Find(t, Heading, 0)
      case Some(i) =>
        assert forall j | FirstMatchAt(t, Heading, j) :: j == i;
        var v := StripTags(MatchAt(t, Heading, i).value);
        StripKeepsNoTag(v);
        Strip(v)
      case None => Untitled
  }
}
