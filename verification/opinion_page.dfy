/** The list logic of `pagina_pareceres_json` and the badge of `get_badge_html`:
    the risk summary, the two filters, and the order of the list. */
module OpinionPage {
  import opened Wrappers
  import opened Strings
  import opened JsonValues
  import opened Sequences
  import opened Sorting
  import opened RecordStore

  // ---------------------------------------------------------------------------
  // Risk buckets

  const ProbableMarker := "PROVÁVEL"
  const HighMarker := "ALTO"
  const PossibleMarker := "POSSÍVEL"
  const MediumMarker := "MÉDIO"
  const RemoteMarker := "REMOTA"
  const LowMarker := "BAIXO"

  predicate HighText(u: string) {
    Contains(u, ProbableMarker) || Contains(u, HighMarker)
  }

  predicate MediumText(u: string) {
    Contains(u, PossibleMarker) || Contains(u, MediumMarker)
  }

  predicate LowText(u: string) {
    Contains(u, RemoteMarker) || Contains(u, LowMarker)
  }

  /** `str(p.get('classificacao', '')).upper()`: the text the summary tests. */
  function RiskText(o: Opinion): string {
    Upper(Display(Lookup(o, Classificacao, String(""))))
  }

  predicate IsHigh(o: Opinion) {
    HighText(RiskText(o))
  }

  predicate IsMedium(o: Opinion) {
    MediumText(RiskText(o))
  }

  predicate IsLow(o: Opinion) {
    LowText(RiskText(o))
  }

  /** The four figures of the summary row. */
  datatype Summary = Summary(total: nat, high: nat, medium: nat, low: nat)

  /** The summary: each bucket counts the records whose classification mentions one
      of its two markers; the buckets are tested independently of each other. */
  function Summarize(ops: seq<Opinion>): (r: Summary)
    ensures r.total == |ops|
    ensures r.high <= r.total && r.medium <= r.total && r.low <= r.total
    ensures r.high == |Filter(ops, IsHigh)|
    ensures r.medium == |Filter(ops, IsMedium)|
    ensures r.low == |Filter(ops, IsLow)|
  {
    Summary(|ops|, CountWhere(ops, IsHigh), CountWhere(ops, IsMedium), CountWhere(ops, IsLow))
  }

  /** A record with the given classification and nothing else of interest. */
  function Classified(c: string): Opinion {
    Opinion("p.json", "p.json", String(""), String(""), Markdown("N/A", c, "N/A", "N/A", "N/A"))
  }

  const MediumLow := "RISCO MÉDIO-BAIXO"

  lemma ClassifiedRiskText(c: string)
    ensures RiskText(Classified(c)) == Upper(c)
  {
    assert Lookup(Classified(c), Classificacao, String("")) == String(c);
  }

  lemma UpperMediumLow()
    ensures Upper(MediumLow) == MediumLow
  {
    UpperFixed(MediumLow);
  }

  lemma MediumLowText()
    ensures RiskText(Classified(MediumLow)) == MediumLow
  {
    UpperMediumLow();
    ClassifiedRiskText(MediumLow);
  }

  lemma MediumLowMarkers()
    ensures !HighText(MediumLow) && MediumText(MediumLow) && LowText(MediumLow)
  {
    var c := MediumLow;
    assert OccursAt(c, 6, MediumMarker);
    assert OccursAt(c, 12, LowMarker);
    forall i | 0 <= i <= |c| - |HighMarker|
      ensures !OccursAt(c, i, HighMarker)
    {
      assert c[i..i + |HighMarker|][0] == c[i];
      assert c[i..i + |HighMarker|][1] == c[i + 1];
    }
    forall i | 0 <= i <= |c| - |ProbableMarker|
      ensures !OccursAt(c, i, ProbableMarker)
    {
      assert c[i..i + |ProbableMarker|][0] == c[i];
      assert c[i..i + |ProbableMarker|][1] == c[i + 1];
    }
  }

  /** The buckets overlap: `RISCO MÉDIO-BAIXO` counts as medium risk and as low risk. */
  lemma BucketsOverlap()
    ensures Summarize([Classified(MediumLow)]) == Summary(1, 0, 1, 1)
  {
    MediumLowText();
    MediumLowMarkers();
  }

  // ---------------------------------------------------------------------------
  // The badge

  const BadgeHigh := "badge-provavel"
  const BadgeMedium := "badge-possivel"
  const BadgeLow := "badge-remota"
  const BadgeFallback := "badge-medio"

  /** `get_badge_html`'s choice of class: the three bucket tests in order of
      severity, and a fallback when none holds. */
  function BadgeClass(c: Json): (r: string)
    ensures var u := Upper(Display(c));
      && (r == BadgeHigh <==> HighText(u))
      && (r == BadgeMedium <==> !HighText(u) && MediumText(u))
      && (r == BadgeLow <==> !HighText(u) && !MediumText(u) && LowText(u))
      && (r == BadgeFallback <==> !HighText(u) && !MediumText(u) && !LowText(u))
  {
    var u := Upper(Display(c));
    if HighText(u) then BadgeHigh
    else if MediumText(u) then BadgeMedium
    else if LowText(u) then BadgeLow
    else BadgeFallback
  }

  /** The badge markup: the class, then the classification as it is written. */
  function Badge(c: Json): (r: string)
    ensures Contains(r, BadgeClass(c)) && Contains(r, Display(c))
  {
    var kind, shown := BadgeClass(c), Display(c);
    ContainsBothParts("<span class=\"", kind, "\">", shown, "</span>");
    "<span class=\"" + kind + "\">" + shown + "</span>"
  }

  /** No marker fits in a text of fewer than four characters. */
  lemma ShortTextHasNoMarker(u: string)
    requires |u| < 4
    ensures !HighText(u) && !MediumText(u) && !LowText(u)
  {
  }

  /** The list shows a record's badge with the default `N/A` while the summary reads
      the classification with the default `''`; the two agree anyway: the badge is
      the most severe bucket the record is counted in. */
  lemma BadgeAgreesWithSummary(o: Opinion)
    ensures BadgeClass(Lookup(o, Classificacao, String("N/A"))) == BadgeHigh <==> IsHigh(o)
    ensures BadgeClass(Lookup(o, Classificacao, String("N/A"))) == BadgeMedium <==> !IsHigh(o) && IsMedium(o)
    ensures BadgeClass(Lookup(o, Classificacao, String("N/A"))) == BadgeLow <==> !IsHigh(o) && !IsMedium(o) && IsLow(o)
    ensures BadgeClass(Lookup(o, Classificacao, String("N/A"))) == BadgeFallback <==> !IsHigh(o) && !IsMedium(o) && !IsLow(o)
  {
    if Get(o, Classificacao).None? {
      UpperFixed("N/A");
      assert Upper("") == "";
      ShortTextHasNoMarker("N/A");
      ShortTextHasNoMarker("");
    }
  }

  // ---------------------------------------------------------------------------
  // The filters

  /** `filtro_processo.upper() in str(p.get('numero_processo', '')).upper()`. */
  predicate CaseNumberMatches(o: Opinion, query: string) {
    Contains(Upper(Display(Lookup(o, NumeroProcesso, String("")))), Upper(query))
  }

  /** The case-number search: an empty query keeps the list as it is. */
  function FilterByCaseNumber(ops: seq<Opinion>, query: string): (r: seq<Opinion>)
    ensures query == [] ==> r == ops
    ensures IsSubseq(r, ops)
    ensures forall k | 0 <= k < |ops| :: ops[k] in r <==> query == [] || CaseNumberMatches(ops[k], query)
  {
    IsSubseqReflexive(ops);
    if query == [] then ops else Filter(ops, (o: Opinion) => CaseNumberMatches(o, query))
  }

  /** The entry of the classification menu that stands for no filtering. */
  const AllOption := "Todas"

  /** `p.get('classificacao', 'N/A')`: what the menu offers for a record. */
  function OfferedClassification(o: Opinion): Json {
    Lookup(o, Classificacao, String("N/A"))
  }

  /** The menu's entries besides `Todas`: one per classification offered. */
  function ClassificationOptions(ops: seq<Opinion>): (r: set<Json>)
    ensures forall k | 0 <= k < |ops| :: OfferedClassification(ops[k]) in r
    ensures forall c | c in r :: exists k | 0 <= k < |ops| :: OfferedClassification(ops[k]) == c
  {
    set k | 0 <= k < |ops| :: OfferedClassification(ops[k])
  }

  /** `p.get('classificacao')`: the record's classification, `None` both when the
      key is missing and when it holds JSON `null`. */
  function StoredClassification(o: Opinion): (r: Json)
    ensures HasKey(o, Classificacao) ==> Some(r) == Get(o, Classificacao)
    ensures !HasKey(o, Classificacao) ==> r == Null
  {
    Get(o, Classificacao).GetOr(Null)
  }

  /** The classification filter as written: `p.get('classificacao') == filtro`, which
      compares against the key's value without the default the menu used. */
  function FilterByClassificationAsWritten(ops: seq<Opinion>, choice: Json): (r: seq<Opinion>)
    ensures choice == String(AllOption) ==> r == ops
    ensures IsSubseq(r, ops)
    ensures forall k | 0 <= k < |ops| :: ops[k] in r <==> choice == String(AllOption) || PyEq(StoredClassification(ops[k]), choice)
  {
    IsSubseqReflexive(ops);
    if choice == String(AllOption) then ops
    else Filter(ops, (o: Opinion) => PyEq(StoredClassification(o), choice))
  }

  /** A record without `resultado` has no classification: the menu offers `N/A` for
      it, and choosing `N/A` then shows nothing. */
  lemma NotAvailableSelectsNothing()
    ensures var o := Opinion("a.json", "a.json", String(""), String(""), Unanalysed);
      && String("N/A") in ClassificationOptions([o])
      && FilterByClassificationAsWritten([o], String("N/A")) == []
  {
    var o := Opinion("a.json", "a.json", String(""), String(""), Unanalysed);
    assert OfferedClassification([o][0]) == String("N/A");
    assert !PyEq(StoredClassification(o), String("N/A"));
  }

  /** A record whose classification is JSON `null` and a record without `resultado`
      both read as `None`, so the `None` entry of the menu shows the two of them. */
  lemma NullAndMissingAlike()
    ensures var nulled := Opinion("a.json", "a.json", String(""), String(""), Structured(Null, Null, Null, Null, Null, Null));
      var bare := Opinion("b.json", "b.json", String(""), String(""), Unanalysed);
      FilterByClassificationAsWritten([nulled, bare], Null) == [nulled, bare]
  {
    var nulled := Opinion("a.json", "a.json", String(""), String(""), Structured(Null, Null, Null, Null, Null, Null));
    var bare := Opinion("b.json", "b.json", String(""), String(""), Unanalysed);
    FilterKeepsAll([nulled, bare], (o: Opinion) => PyEq(StoredClassification(o), Null));
  }

  /** A classification stored as `true` is selected by the entry `1`, as Python's
      `True == 1` has it. */
  lemma TrueSelectedByOne()
    ensures var o := Opinion("a.json", "a.json", String(""), String(""), Structured(Null, Bool(true), Null, Null, Null, Null));
      FilterByClassificationAsWritten([o], Number(1)) == [o]
  {
    var o := Opinion("a.json", "a.json", String(""), String(""), Structured(Null, Bool(true), Null, Null, Null, Null));
    FilterKeepsAll([o], (o: Opinion) => PyEq(StoredClassification(o), Number(1)));
  }

  /** The classification filter, comparing with the same default the menu uses. */
  function FilterByClassification(ops: seq<Opinion>, choice: Json): (r: seq<Opinion>)
    ensures choice == String(AllOption) ==> r == ops
    ensures IsSubseq(r, ops)
    ensures forall k | 0 <= k < |ops| :: ops[k] in r <==> choice == String(AllOption) || PyEq(OfferedClassification(ops[k]), choice)
  {
    IsSubseqReflexive(ops);
    if choice == String(AllOption) then ops
    else Filter(ops, (o: Opinion) => PyEq(OfferedClassification(o), choice))
  }

  /** Every entry of the menu shows at least the records it was offered for. */
  lemma EveryOptionSelectsItsRecords(ops: seq<Opinion>)
    ensures forall c | c in ClassificationOptions(ops) :: FilterByClassification(ops, c) != []
    ensures forall k | 0 <= k < |ops| :: ops[k] in FilterByClassification(ops, OfferedClassification(ops[k]))
  {
    forall c | c in ClassificationOptions(ops)
      ensures FilterByClassification(ops, c) != []
    {
      var k :| 0 <= k < |ops| && OfferedClassification(ops[k]) == c;
      assert ops[k] in FilterByClassification(ops, c);
    }
  }

  /** The two filters differ only on records without a classification. */
  lemma FiltersAgreeWhenClassified(ops: seq<Opinion>, choice: Json)
    requires forall k | 0 <= k < |ops| :: Get(ops[k], Classificacao).Some?
    ensures FilterByClassificationAsWritten(ops, choice) == FilterByClassification(ops, choice)
  {
    if choice != String(AllOption) {
      FilterSameTest(ops, (o: Opinion) => PyEq(StoredClassification(o), choice), (o: Opinion) => PyEq(OfferedClassification(o), choice));
    }
  }

  /** The filters applied one after the other leave a subsequence of the records. */
  lemma FiltersKeepOrder(ops: seq<Opinion>, query: string, choice: Json)
    ensures IsSubseq(FilterByClassification(FilterByCaseNumber(ops, query), choice), ops)
  {
    var byNumber := FilterByCaseNumber(ops, query);
    IsSubseqTransitive(FilterByClassification(byNumber, choice), byNumber, ops);
  }

  // ---------------------------------------------------------------------------
  // The order of the list

  /** `x.get('timestamp', '')` as a sort key. Booleans compare as the numbers 0 and 1. */
  function TimestampKey(o: Opinion): (r: Key)
    ensures o.timestamp.String? ==> r == Text(o.timestamp.s)
    ensures o.timestamp.Number? || o.timestamp.Bool? ==> r == Num(PyNumber(o.timestamp) as real)
  {
    match o.timestamp
    case String(s) => Text(s)
    case Number(n) => Num(n as real)
    case Bool(b) => Num(if b then 1.0 else 0.0)
    case _ => Text("")
  }

  /** Python orders two textual timestamps as strings, and two numeric ones
      (booleans among them) as the numbers they count as. */
  lemma TimestampsCompare(a: Opinion, b: Opinion)
    ensures a.timestamp.String? && b.timestamp.String? ==>
      (Less(TimestampKey(a), TimestampKey(b)) <==> StrLess(a.timestamp.s, b.timestamp.s))
    ensures (a.timestamp.Number? || a.timestamp.Bool?) && (b.timestamp.Number? || b.timestamp.Bool?) ==>
      (Less(TimestampKey(a), TimestampKey(b)) <==> PyNumber(a.timestamp) < PyNumber(b.timestamp))
  {
  }

  /** Python can compare the timestamps: all strings, or all numbers and booleans. */
  predicate ComparableTimestamps(ops: seq<Opinion>) {
    || (forall k | 0 <= k < |ops| :: ops[k].timestamp.String?)
    || (forall k | 0 <= k < |ops| :: ops[k].timestamp.Number? || ops[k].timestamp.Bool?)
  }

  /** `pareceres_filtrados.sort(key=timestamp, reverse=True)`: the same records, the
      most recent timestamp first. */
  function SortByTimestamp(ops: seq<Opinion>): (r: seq<Opinion>)
    requires |ops| <= 1 || ComparableTimestamps(ops)
    ensures multiset(r) == multiset(ops)
    ensures forall i, j | 0 <= i < j < |r| :: !Less(TimestampKey(r[i]), TimestampKey(r[j]))
  {
    var r := Sort(ops, TimestampKey, true);
    assert forall i, j | 0 <= i < j < |r| :: !Before(r[j], r[i], TimestampKey, true);
    r
  }

  /** Records with equal timestamps stay in the order the scan produced them. */
  lemma SortByTimestampStable(ops: seq<Opinion>, k: Key)
    requires |ops| <= 1 || ComparableTimestamps(ops)
    ensures WithKey(SortByTimestamp(ops), TimestampKey, k) == WithKey(ops, TimestampKey, k)
  {
    SortStable(ops, TimestampKey, true, k);
  }

  lemma ExampleDatesOrdered()
    ensures StrLess("2024-01-05", "2024-03-01")
  {
    assert "2024-01-05" == "2024-0" + "1-05" && "2024-03-01" == "2024-0" + "3-01";
    StrLessAfterPrefix("2024-0", "1-05", "3-01");
  }

  /** Of two records with textual timestamps, the later one comes first. */
  lemma LaterTimestampFirst(older: Opinion, newer: Opinion)
    requires older.timestamp.String? && newer.timestamp.String?
    requires StrLess(older.timestamp.s, newer.timestamp.s)
    ensures SortByTimestamp([older, newer]) == [newer, older]
  {
    assert [older, newer][1..] == [newer];
    assert Sort([newer], TimestampKey, true) == [newer];
    assert Before(newer, older, TimestampKey, true);
    assert Insert(older, [newer], TimestampKey, true) == [newer, older];
  }

  /** ISO-8601 timestamps sort the later one first. */
  lemma SortByTimestampExample()
    ensures var older := Opinion("a.json", "a.json", String("2024-01-05"), String(""), Unanalysed);
      var newer := Opinion("b.json", "b.json", String("2024-03-01"), String(""), Unanalysed);
      SortByTimestamp([older, newer]) == [newer, older]
  {
    ExampleDatesOrdered();
    LaterTimestampFirst(
      Opinion("a.json", "a.json", String("2024-01-05"), String(""), Unanalysed),
      Opinion("b.json", "b.json", String("2024-03-01"), String(""), Unanalysed));
  }
}
