/** `buscar_pareceres_json`: the opinion records built from the folder of JSON
    files. The folder is given as the sequence of its files in enumeration order,
    each with the value its contents decode to, if they decode at all. */
module RecordStore {
  import opened Wrappers
  import opened Strings
  import opened JsonValues
  import opened FolderScan
  import MarkdownFields

  /** One `*.json` file: its path, its name (the last component of the path) and
      its decoded contents (`None` when reading or decoding fails). */
  datatype JsonFile = JsonFile(path: string, name: string, payload: Option<Json>)

  /** What a record holds beyond its four base keys, by the type of `resultado`. */
  datatype Analysis =
    | Unanalysed
      /** `resultado` is markdown text: the fields are extracted from it. */
    | Markdown(caseNumber: string, classification: string, value: string, opposingParty: string, nature: string)
      /** `resultado` is an object: the fields are read from its keys. */
    | Structured(cnj: Json, lossProbability: Json, contingency: Json, counterparty: Json, matter: Json, phase: Json)

  /** One record (`info`): the file's path and name, two values copied from the
      file, and the analysis. */
  datatype Opinion = Opinion(path: string, name: string, timestamp: Json, hash: Json, analysis: Analysis)

  const MarkdownKind := "parecer_markdown"
  const StructuredKind := "analise_estruturada"

  /** The keys a record can have, named as in the code. */
  datatype Field =
    | Arquivo | Nome | Timestamp | Hash
    | Tipo | NumeroProcesso | Classificacao | Valor | ParteContraria | Natureza | Fase

  /** The four keys every record has. */
  predicate IsBaseKey(f: Field) {
    f.Arquivo? || f.Nome? || f.Timestamp? || f.Hash?
  }

  /** `key in info`: the keys a record has, by its analysis. */
  predicate HasKey(o: Opinion, key: Field) {
    match o.analysis
    case Unanalysed => IsBaseKey(key)
    case Markdown(_, _, _, _, _) => !key.Fase?
    case Structured(_, _, _, _, _, _) => true
  }

  /** `info.get(key)`: the record seen as a dictionary. */
  function Get(o: Opinion, key: Field): (r: Option<Json>)
    ensures r.Some? <==> HasKey(o, key)
  {
    match key
    case Arquivo => Some(String(o.path))
    case Nome => Some(String(o.name))
    case Timestamp => Some(o.timestamp)
    case Hash => Some(o.hash)
    case _ =>
      match o.analysis
      case Unanalysed => None
      case Markdown(n, c, v, p, na) =>
        (match key
         case Tipo => Some(String(MarkdownKind))
         case NumeroProcesso => Some(String(n))
         case Classificacao => Some(String(c))
         case Valor => Some(String(v))
         case ParteContraria => Some(String(p))
         case Natureza => Some(String(na))
         case _ => None)
      case Structured(n, c, v, p, na, f) =>
        match key
        case Tipo => Some(String(StructuredKind))
        case NumeroProcesso => Some(n)
        case Classificacao => Some(c)
        case Valor => Some(v)
        case ParteContraria => Some(p)
        case Natureza => Some(na)
        case _ => Some(f)
  }

  /** `info.get(key, default)`. */
  function Lookup(o: Opinion, key: Field, default: Json): (r: Json)
    ensures HasKey(o, key) ==> Get(o, key) == Some(r)
    ensures !HasKey(o, key) ==> r == default
  {
    Get(o, key).GetOr(default)
  }

  predicate HasText(m: map<string, Json>, key: string) {
    key in m && m[key].String?
  }

  predicate HasObject(m: map<string, Json>, key: string) {
    key in m && m[key].Object?
  }

  /** The fields a structured result provides, with the defaults the code uses. */
  function ReadStructured(m: map<string, Json>): Analysis {
    Structured(
      GetOr(m, "numero_cnj", String(MarkdownFields.NotAvailable)),
      GetOr(m, "probabilidade_perda", String(MarkdownFields.NotInformed)),
      GetOr(m, "valor_contingencia", String(MarkdownFields.NotAvailable)),
      GetOr(m, "parte_contraria", String(MarkdownFields.NotAvailable)),
      GetOr(m, "natureza", String(MarkdownFields.NotAvailable)),
      GetOr(m, "fase", String(MarkdownFields.NotAvailable)))
  }

  /** The fields extracted from a markdown result. */
  function ReadMarkdown(text: string): Analysis {
    Markdown(
      MarkdownFields.ExtractCaseNumber(text),
      MarkdownFields.ExtractClassification(text),
      MarkdownFields.ExtractClaimValue(text),
      MarkdownFields.ExtractOpposingParty(text),
      MarkdownFields.ExtractNature(text))
  }

  /** The branch on the type of `resultado`: text is parsed, an object is read, and
      anything else (or no `resultado` at all) adds nothing. */
  function Analyse(m: map<string, Json>): (a: Analysis)
    ensures a.Markdown? <==> HasText(m, "resultado")
    ensures a.Structured? <==> HasObject(m, "resultado")
  {
    if HasText(m, "resultado") then ReadMarkdown(m["resultado"].s)
    else if HasObject(m, "resultado") then ReadStructured(m["resultado"].members)
    else Unanalysed
  }

  /** The record built from a file that decoded to an object with members `m`. */
  function Normalize(path: string, name: string, m: map<string, Json>): (r: Opinion)
    ensures r.path == path && r.name == name
    ensures Get(r, Timestamp) == Some(GetOr(m, "timestamp", String("")))
    ensures Get(r, Hash) == Some(GetOr(m, "hash", String("")))
    ensures Get(r, Tipo) == Some(String(MarkdownKind)) <==> HasText(m, "resultado")
    ensures Get(r, Tipo) == Some(String(StructuredKind)) <==> HasObject(m, "resultado")
    ensures HasKey(r, Fase) <==> HasObject(m, "resultado")
    ensures (forall f: Field :: HasKey(r, f) == IsBaseKey(f)) <==> !HasText(m, "resultado") && !HasObject(m, "resultado")
  {
    Opinion(path, name, GetOr(m, "timestamp", String("")), GetOr(m, "hash", String("")), Analyse(m))
  }

  /** A markdown result is read by the five extractors. */
  lemma MarkdownFieldsExtracted(path: string, name: string, m: map<string, Json>)
    requires HasText(m, "resultado")
    ensures var a := Normalize(path, name, m).analysis; var text := m["resultado"].s;
      && a.Markdown?
      && a.caseNumber == MarkdownFields.ExtractCaseNumber(text)
      && a.classification == MarkdownFields.ExtractClassification(text)
      && a.value == MarkdownFields.ExtractClaimValue(text)
      && a.opposingParty == MarkdownFields.ExtractOpposingParty(text)
      && a.nature == MarkdownFields.ExtractNature(text)
  {
  }

  /** A structured result is read key by key, each missing key giving its default:
      `Não informado` for the classification, `N/A` for the rest. */
  lemma StructuredFieldsRead(path: string, name: string, m: map<string, Json>)
    requires HasObject(m, "resultado")
    ensures var r := Normalize(path, name, m); var res := m["resultado"].members;
      && Get(r, NumeroProcesso) == Some(GetOr(res, "numero_cnj", String("N/A")))
      && Get(r, Classificacao) == Some(GetOr(res, "probabilidade_perda", String("Não informado")))
      && Get(r, Valor) == Some(GetOr(res, "valor_contingencia", String("N/A")))
      && Get(r, ParteContraria) == Some(GetOr(res, "parte_contraria", String("N/A")))
      && Get(r, Natureza) == Some(GetOr(res, "natureza", String("N/A")))
      && Get(r, Fase) == Some(GetOr(res, "fase", String("N/A")))
  {
  }

  /** The body of the `try` for one file: a file that decoded to an object yields a
      record; anything else (an undecodable file, a list, a bare value, which fails
      on `dados.get`) raises and is skipped. */
  function LoadJson(f: JsonFile): (r: Option<Opinion>)
    ensures r.Some? <==> f.payload.Some? && f.payload.value.Object?
    ensures r.Some? ==> r.value.path == f.path && r.value.name == f.name
  {
    match f.payload
    case Some(Object(m)) => Some(Normalize(f.path, f.name, m))
    case _ => None
  }

  function JsonName(f: JsonFile): string {
    f.name
  }

  /** `buscar_pareceres_json(pasta)`: no folder, no records; otherwise one record per
      file that loads, in enumeration order, and one warning per file that does not. */
  function ScanOpinions(store: Option<seq<JsonFile>>): (r: Scan<Opinion>)
    ensures store.None? ==> r.records == [] && r.skipped == []
    ensures store.Some? ==> |r.records| + |r.skipped| == |store.value|
  {
    match store
    case None => Scan([], [])
    case Some(files) => ScanAll(files, LoadJson, JsonName)
  }

  /** Three files, the middle one undecodable: two records and one warning, and the
      records of files without `resultado` have only the four base keys. */
  lemma ScanExample()
    ensures var good := JsonFile("pareceres/a.json", "a.json", Some(Object(map[])));
      var scan := ScanOpinions(Some([good, JsonFile("pareceres/b.json", "b.json", None), good]));
      && |scan.records| == 2
      && scan.skipped == ["b.json"]
      && forall f: Field :: HasKey(scan.records[0], f) == IsBaseKey(f)
  {
    var good := JsonFile("pareceres/a.json", "a.json", Some(Object(map[])));
    var bad := JsonFile("pareceres/b.json", "b.json", None);
    assert ScanAll([good], LoadJson, JsonName) == Scan([Normalize(good.path, good.name, map[])], []);
    FailureIsolated([good], bad, [good], LoadJson, JsonName);
    ScanAllConcat([good], [good], LoadJson, JsonName);
  }
}
