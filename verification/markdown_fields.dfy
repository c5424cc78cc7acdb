/** The field extractors for free-text (markdown) opinions: each one looks for a
    `**Label:** value` line and falls back to a second label, a marker scan, a
    currency scan or a sentinel. None of them ever fails. */
module MarkdownFields {
  import opened Wrappers
  import opened Strings

  const CaseNumberLabel := "**Número do Processo (CNJ):** "
  const ClassificationLabel := "**Classificação:** "
  const ClaimValueLabel := "**Valor da Causa:** "
  const OpposingPartyLabel := "**Parte Contrária:** "
  const AuthorLabel := "**Autor:** "
  const NatureLabel := "**Natureza:** "
  const ActionTypeLabel := "**Tipo de Ação:** "

  const NotAvailable := "N/A"
  const NotInformed := "Não informado"

  const RiskHigh := "RISCO ALTO"
  const RiskMedium := "RISCO MÉDIO"
  const RiskMediumLow := "RISCO MÉDIO-BAIXO"
  const Probable := "PROVÁVEL"
  const Possible := "POSSÍVEL"
  const Remote := "REMOTA"

  /** What the classification extractor can answer when no label is present. */
  const MarkerAnswers: set<string> := {RiskHigh, RiskMedium, Probable, Possible, Remote, NotInformed}

  // ---------------------------------------------------------------------------
  // The labelled pattern `**Label:** (.+)`

  /** The pattern matches at `i`: the label, then at least one more character of
      the same line (`.` never matches a newline). */
  predicate LabelAt(t: string, key: string, i: int) {
    OccursAt(t, i, key) && i + |key| < |t| && t[i + |key|] != '\n'
  }

  /** Some position of `t` matches the labelled pattern. */
  predicate HasLabel(t: string, key: string) {
    exists i | 0 <= i < |t| :: LabelAt(t, key, i)
  }

  /** `i` is the leftmost match, the one `re.search` reports. */
  ghost predicate FirstLabelAt(t: string, key: string, i: int) {
    LabelAt(t, key, i) && forall k | 0 <= k < i :: !LabelAt(t, key, k)
  }

  /** What the greedy `.+` captures from `j`: everything up to the next newline or the end. */
  function RestOfLine(t: string, j: nat): (r: string)
    requires j <= |t|
    decreases |t| - j
    ensures j + |r| <= |t| && r == t[j..j + |r|]
    ensures '\n' !in r
    ensures j + |r| == |t| || t[j + |r|] == '\n'
  {
    if j == |t| || t[j] == '\n' then "" else [t[j]] + RestOfLine(t, j + 1)
  }

  /** The rest of the line is the slice up to the first newline. */
  lemma RestOfLineUpTo(t: string, j: nat, e: nat)
    requires j <= e <= |t|
    requires '\n' !in t[j..e]
    requires e == |t| || t[e] == '\n'
    ensures RestOfLine(t, j) == t[j..e]
  {
    var r := RestOfLine(t, j);
    assert forall k | j <= k < j + |r| :: t[k] == r[k - j];
    assert forall k | j <= k < e :: t[k] == t[j..e][k - j];
  }

  /** `match.group(1).strip()` for a match at `i`. */
  function Capture(t: string, key: string, i: int): (r: string)
    requires LabelAt(t, key, i)
    ensures IsStripOf(r, RestOfLine(t, i + |key|))
    ensures Contains(t, r)
    ensures '\n' !in r
  {
    var line := RestOfLine(t, i + |key|);
    assert OccursAt(t, i + |key|, line);
    ContainsTransitive(t, line, Strip(line));
    Strip(line)
  }

  /** The leftmost match at or after `from`. */
  function FindLabel(t: string, key: string, from: nat): (r: Option<nat>)
    requires from <= |t|
    decreases |t| - from
    ensures r.Some? ==> from <= r.value < |t| && LabelAt(t, key, r.value)
    ensures r.Some? ==> forall k | from <= k < r.value :: !LabelAt(t, key, k)
    ensures r.None? ==> forall k | from <= k < |t| :: !LabelAt(t, key, k)
  {
    if from == |t| then None
    else if LabelAt(t, key, from) then Some(from)
    else FindLabel(t, key, from + 1)
  }

  /** `re.search(r'\*\*Label:\*\* (.+)', t)` followed by `.group(1).strip()`. */
  function Labelled(t: string, key: string): (r: Option<string>)
    ensures r.Some? <==> HasLabel(t, key)
    ensures forall i | FirstLabelAt(t, key, i) :: r == Some(Capture(t, key, i))
    ensures r.Some? ==> '\n' !in r.value
  {
    match FindLabel(t, key, 0)
    case Some(i) =>
      assert forall j | FirstLabelAt(t, key, j) :: j == i;
      Some(Capture(t, key, i))
    case None => None
  }

  // ---------------------------------------------------------------------------
  // The five extractors

  /** `extrair_numero_processo`: the labelled case number, or `N/A`. */
  function ExtractCaseNumber(t: string): (r: string)
    ensures forall i | FirstLabelAt(t, CaseNumberLabel, i) :: r == Capture(t, CaseNumberLabel, i)
    ensures !HasLabel(t, CaseNumberLabel) ==> r == NotAvailable
    ensures '\n' !in r
  {
    Labelled(t, CaseNumberLabel).GetOr(NotAvailable)
  }

  /** `extrair_classificacao`: the labelled classification; otherwise the first
      marker present, tested in a fixed order; otherwise `Não informado`. */
  function ExtractClassification(t: string): (r: string)
    ensures forall i | FirstLabelAt(t, ClassificationLabel, i) :: r == Capture(t, ClassificationLabel, i)
    ensures !HasLabel(t, ClassificationLabel) ==> r in MarkerAnswers
    ensures !HasLabel(t, ClassificationLabel) ==>
      && (r == RiskHigh <==> Contains(t, RiskHigh))
      && (r == RiskMedium <==> !Contains(t, RiskHigh) && Contains(t, RiskMedium))
      && (r == Probable <==> !Contains(t, RiskHigh) && !Contains(t, RiskMedium) && Contains(t, Probable))
      && (r == Possible <==> !Contains(t, RiskHigh) && !Contains(t, RiskMedium) && !Contains(t, Probable)
                             && Contains(t, Possible))
      && (r == Remote <==> !Contains(t, RiskHigh) && !Contains(t, RiskMedium) && !Contains(t, Probable)
                           && !Contains(t, Possible) && Contains(t, Remote))
      && (r == NotInformed <==> !Contains(t, RiskHigh) && !Contains(t, RiskMedium) && !Contains(t, Probable)
                                && !Contains(t, Possible) && !Contains(t, Remote))
  {
    match Labelled(t, ClassificationLabel)
    case Some(v) => v
    case None =>
      MediumLowImpliesMedium(t);
      if Contains(t, RiskHigh) then RiskHigh
      else if Contains(t, RiskMedium) || Contains(t, RiskMediumLow) then RiskMedium
      else if Contains(t, Probable) then Probable
      else if Contains(t, Possible) then Possible
      else if Contains(t, Remote) then Remote
      else NotInformed
  }

  /** The second test of the medium branch is subsumed by the first: any text
      holding `RISCO MÉDIO-BAIXO` holds `RISCO MÉDIO`. */
  lemma MediumLowImpliesMedium(t: string)
    ensures Contains(t, RiskMediumLow) ==> Contains(t, RiskMedium)
  {
    if Contains(t, RiskMediumLow) {
      assert OccursAt(RiskMediumLow, 0, RiskMedium);
      ContainsTransitive(t, RiskMediumLow, RiskMedium);
    }
  }

  /** `extrair_valor`: the labelled claim value; otherwise the leftmost `R$` amount; otherwise `N/A`. */
  function ExtractClaimValue(t: string): (r: string)
    ensures forall i | FirstLabelAt(t, ClaimValueLabel, i) :: r == Capture(t, ClaimValueLabel, i)
    ensures !HasLabel(t, ClaimValueLabel) ==> forall i | FirstCurrencyAt(t, i) :: r == CurrencyMatch(t, i)
    ensures !HasLabel(t, ClaimValueLabel) && !HasCurrency(t) ==> r == NotAvailable
  {
    match Labelled(t, ClaimValueLabel)
    case Some(v) => v
    case None =>
      match FindCurrency(t, 0)
      case Some(i) => CurrencyMatch(t, i)
      case None => NotAvailable
  }

  /** `extrair_parte_contraria`: `Parte Contrária`, else `Autor`, else `N/A`. */
  function ExtractOpposingParty(t: string): (r: string)
    ensures forall i | FirstLabelAt(t, OpposingPartyLabel, i) :: r == Capture(t, OpposingPartyLabel, i)
    ensures !HasLabel(t, OpposingPartyLabel) ==>
      forall i | FirstLabelAt(t, AuthorLabel, i) :: r == Capture(t, AuthorLabel, i)
    ensures !HasLabel(t, OpposingPartyLabel) && !HasLabel(t, AuthorLabel) ==> r == NotAvailable
    ensures '\n' !in r
  {
    match Labelled(t, OpposingPartyLabel)
    case Some(v) => v
    case None => Labelled(t, AuthorLabel).GetOr(NotAvailable)
  }

  /** `extrair_natureza`: `Natureza`, else `Tipo de Ação`, else `N/A`. */
  function ExtractNature(t: string): (r: string)
    ensures forall i | FirstLabelAt(t, NatureLabel, i) :: r == Capture(t, NatureLabel, i)
    ensures !HasLabel(t, NatureLabel) ==>
      forall i | FirstLabelAt(t, ActionTypeLabel, i) :: r == Capture(t, ActionTypeLabel, i)
    ensures !HasLabel(t, NatureLabel) && !HasLabel(t, ActionTypeLabel) ==> r == NotAvailable
    ensures '\n' !in r
  {
    match Labelled(t, NatureLabel)
    case Some(v) => v
    case None => Labelled(t, ActionTypeLabel).GetOr(NotAvailable)
  }

  // ---------------------------------------------------------------------------
  // The currency fallback `R\$\s*[\d\.,]+`

  predicate IsAmountChar(c: char) {
    IsDigit(c) || c == '.' || c == ','
  }

  /** Where the amount would start after an `R$` at `i` and the whitespace that follows it. */
  function AmountStart(t: string, i: nat): (s: nat)
    requires i + 2 <= |t|
    ensures s <= |t|
  {
    i + 2 + RunLength(t, i + 2, IsSpace)
  }

  /** The scanner's test: `R$` at `i`, and an amount character right after the whitespace run. */
  predicate CurrencyAt(t: string, i: int) {
    OccursAt(t, i, "R$") && AmountStart(t, i) < |t| && IsAmountChar(t[AmountStart(t, i)])
  }

  /** Every character of `t[a..b]` is whitespace. */
  ghost predicate AllSpace(t: string, a: int, b: int) {
    0 <= a <= b <= |t| && forall k | a <= k < b :: IsSpace(t[k])
  }

  /** Every character of `t[a..b]` is an amount character. */
  ghost predicate AllAmount(t: string, a: int, b: int) {
    0 <= a <= b <= |t| && forall k | a <= k < b :: IsAmountChar(t[k])
  }

  /** The regular expression's own reading: `R$`, then some whitespace up to `e`,
      then at least one amount character up to `f`. */
  ghost predicate PatternMatchesCurrencyAt(t: string, i: int) {
    && OccursAt(t, i, "R$")
    && exists e, f | i + 2 <= e < f <= |t| :: AllSpace(t, i + 2, e) && AllAmount(t, e, f)
  }

  predicate HasCurrency(t: string) {
    exists i | 0 <= i < |t| :: CurrencyAt(t, i)
  }

  /** The leftmost currency match at or after `from`. */
  function FindCurrency(t: string, from: nat): (r: Option<nat>)
    requires from <= |t|
    decreases |t| - from
    ensures r.Some? ==> from <= r.value < |t| && CurrencyAt(t, r.value)
    ensures r.Some? ==> forall k | from <= k < r.value :: !CurrencyAt(t, k)
    ensures r.None? ==> forall k | from <= k < |t| :: !CurrencyAt(t, k)
  {
    if from == |t| then None
    else if CurrencyAt(t, from) then Some(from)
    else FindCurrency(t, from + 1)
  }

  ghost predicate FirstCurrencyAt(t: string, i: int) {
    CurrencyAt(t, i) && forall k | 0 <= k < i :: !CurrencyAt(t, k)
  }

  /** `r`, read at `i`, is `R$`, whitespace up to `e`, and amount characters from `e`
      to its end, at least one. */
  ghost predicate CurrencySpan(t: string, i: int, e: int, r: string) {
    i + 2 <= e < i + |r| && AllSpace(t, i + 2, e) && AllAmount(t, e, i + |r|)
  }

  /** `match.group(0)` for a currency match at `i`: `R$`, the whitespace, and the
      maximal run of amount characters. */
  function CurrencyMatch(t: string, i: int): (r: string)
    requires CurrencyAt(t, i)
    ensures OccursAt(t, i, r)
    ensures |r| >= 3 && r[..2] == "R$" && IsAmountChar(r[|r| - 1])
    ensures forall k | 2 <= k < |r| :: IsSpace(r[k]) || IsAmountChar(r[k])
    ensures i + |r| == |t| || !IsAmountChar(t[i + |r|])
    ensures exists e :: CurrencySpan(t, i, e, r)
  {
    var s := AmountStart(t, i);
    var r := t[i..s + RunLength(t, s, IsAmountChar)];
    assert CurrencySpan(t, i, s, r);
    r
  }

  /** The scanner finds exactly the positions where the regular expression matches:
      whitespace and amount characters never overlap, so the greedy `\s*` never
      needs to give anything back. */
  lemma CurrencyScanMatchesPattern(t: string, i: int)
    ensures CurrencyAt(t, i) <==> PatternMatchesCurrencyAt(t, i)
  {
    if CurrencyAt(t, i) {
      ScanGivesPattern(t, i);
    }
    if PatternMatchesCurrencyAt(t, i) {
      var e, f :| i + 2 <= e < f <= |t| && AllSpace(t, i + 2, e) && AllAmount(t, e, f);
      PatternGivesScan(t, i, e, f);
    }
  }

  lemma ScanGivesPattern(t: string, i: int)
    requires CurrencyAt(t, i)
    ensures PatternMatchesCurrencyAt(t, i)
  {
    var e := AmountStart(t, i);
    assert AllSpace(t, i + 2, e) && AllAmount(t, e, e + 1);
  }

  lemma PatternGivesScan(t: string, i: int, e: int, f: int)
    requires OccursAt(t, i, "R$")
    requires i + 2 <= e < f <= |t| && AllSpace(t, i + 2, e) && AllAmount(t, e, f)
    ensures CurrencyAt(t, i)
  {
    var s := AmountStart(t, i);
    assert forall k | i + 2 <= k < s :: IsSpace(t[k]);
    assert s < |t| ==> !IsSpace(t[s]);
    assert IsAmountChar(t[e]);
    assert s == e;
  }

  // ---------------------------------------------------------------------------
  // Properties

  /** A body whose first classification line reads `RISCO ALTO` is classified `RISCO ALTO`. */
  lemma LabelledHighRisk(pre: string, post: string)
    requires forall k | 0 <= k < |pre| :: !LabelAt(pre + ClassificationLabel + RiskHigh + post, ClassificationLabel, k)
    requires post == [] || post[0] == '\n'
    ensures ExtractClassification(pre + ClassificationLabel + RiskHigh + post) == RiskHigh
  {
    HighRiskLabelFirst(pre, post);
    HighRiskCapture(pre, post);
  }

  lemma HighRiskLabelFirst(pre: string, post: string)
    requires forall k | 0 <= k < |pre| :: !LabelAt(pre + ClassificationLabel + RiskHigh + post, ClassificationLabel, k)
    ensures FirstLabelAt(pre + ClassificationLabel + RiskHigh + post, ClassificationLabel, |pre|)
  {
    var t := pre + ClassificationLabel + RiskHigh + post;
    var j := |pre| + |ClassificationLabel|;
    assert t[|pre|..j] == ClassificationLabel;
    assert t[j] == RiskHigh[0];
  }

  lemma HighRiskCapture(pre: string, post: string)
    requires LabelAt(pre + ClassificationLabel + RiskHigh + post, ClassificationLabel, |pre|)
    requires post == [] || post[0] == '\n'
    ensures Capture(pre + ClassificationLabel + RiskHigh + post, ClassificationLabel, |pre|) == RiskHigh
  {
    var t := pre + ClassificationLabel + RiskHigh + post;
    var j := |pre| + |ClassificationLabel|;
    assert t[j..j + |RiskHigh|] == RiskHigh;
    assert post != [] ==> t[j + |RiskHigh|] == post[0];
    RestOfLineUpTo(t, j, j + |RiskHigh|);
    StripIdentity(RiskHigh);
  }

  /** Without a key, a text that mentions only the medium-low risk is reported as
      plain `RISCO MÉDIO`: the low part is lost. */
  lemma MediumLowReportedAsMedium(t: string)
    requires !HasLabel(t, ClassificationLabel)
    requires !Contains(t, RiskHigh) && Contains(t, RiskMediumLow)
    ensures ExtractClassification(t) == RiskMedium
  {
    MediumLowImpliesMedium(t);
  }

  /** A labelled value always stays on its own line, but the currency fallback does
      not: `\s` also matches a newline. */
  lemma CurrencyMayCrossLines()
    ensures ExtractClaimValue("R$\n5") == "R$\n5"
  {
    var t := "R$\n5";
    assert !HasLabel(t, ClaimValueLabel);
    assert RunLength(t, 2, IsSpace) == 1;
    assert CurrencyAt(t, 0);
    assert FirstCurrencyAt(t, 0);
  }
}
