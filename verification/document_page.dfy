/** The list logic of `pagina_arquivos_html`: the search box and the six orders of
    the list of rendered opinions. */
module DocumentPage {
  import opened Strings
  import opened Sequences
  import opened Sorting
  import opened DocumentStore

  /** The search test: the query, upper-cased, occurs in the upper-cased name, case
      number or title. */
  predicate DocMatches(d: Document, query: string) {
    || Contains(Upper(d.name), Upper(query))
    || Contains(Upper(d.caseNumber), Upper(query))
    || Contains(Upper(d.title), Upper(query))
  }

  /** The search: an empty query keeps the list as it is; otherwise the matching
      documents, in order. */
  function FilterDocuments(docs: seq<Document>, query: string): (r: seq<Document>)
    ensures query == [] ==> r == docs
    ensures IsSubseq(r, docs)
    ensures forall k | 0 <= k < |docs| :: docs[k] in r <==> query == [] || DocMatches(docs[k], query)
    ensures forall k | 0 <= k < |r| :: query == [] || DocMatches(r[k], query)
  {
    IsSubseqReflexive(docs);
    if query == [] then docs else Filter(docs, (d: Document) => DocMatches(d, query))
  }

  /** The search ignores case: a query and its upper-case form find the same documents. */
  lemma SearchIgnoresCase(docs: seq<Document>, query: string)
    ensures FilterDocuments(docs, query) == FilterDocuments(docs, Upper(query))
  {
    if query != [] {
      UpperIdempotent(query);
      assert |Upper(query)| >= |query| > 0;
      FilterSameTest(docs, (d: Document) => DocMatches(d, query), (d: Document) => DocMatches(d, Upper(query)));
    }
  }

  /** A document is found by any piece of its name. */
  lemma FoundByName(docs: seq<Document>, k: nat, query: string)
    requires k < |docs| && Contains(docs[k].name, query)
    ensures docs[k] in FilterDocuments(docs, query)
  {
    UpperKeepsContains(docs[k].name, query);
  }

  /** The entries of the "Ordenar por" menu. */
  datatype Order = MostRecent | Oldest | NameAsc | NameDesc | Largest | Smallest

  function ModifiedKey(d: Document): Key {
    Num(d.mtime)
  }

  function NameKey(d: Document): Key {
    Text(d.name)
  }

  function SizeKey(d: Document): Key {
    Num(d.size as real)
  }

  /** The key and direction of each entry. */
  function SortKey(order: Order): Document -> Key {
    match order
    case MostRecent | Oldest => ModifiedKey
    case NameAsc | NameDesc => NameKey
    case Largest | Smallest => SizeKey
  }

  predicate Descending(order: Order) {
    order.MostRecent? || order.NameDesc? || order.Largest?
  }

  /** `arquivos_filtrados.sort(...)` for the chosen entry: the same documents, in the
      order the entry names. */
  function SortDocuments(docs: seq<Document>, order: Order): (r: seq<Document>)
    ensures multiset(r) == multiset(docs)
    ensures forall i, j | 0 <= i < j < |r| ::
      && (order == MostRecent ==> r[i].mtime >= r[j].mtime)
      && (order == Oldest ==> r[i].mtime <= r[j].mtime)
      && (order == NameAsc ==> !StrLess(r[j].name, r[i].name))
      && (order == NameDesc ==> !StrLess(r[i].name, r[j].name))
      && (order == Largest ==> r[i].size >= r[j].size)
      && (order == Smallest ==> r[i].size <= r[j].size)
  {
    var r := Sort(docs, SortKey(order), Descending(order));
    assert forall i, j | 0 <= i < j < |r| :: !Before(r[j], r[i], SortKey(order), Descending(order));
    r
  }

  /** Documents the chosen key does not tell apart stay in their listing order. */
  lemma SortDocumentsStable(docs: seq<Document>, order: Order, k: Key)
    ensures WithKey(SortDocuments(docs, order), SortKey(order), k) == WithKey(docs, SortKey(order), k)
  {
    SortStable(docs, SortKey(order), Descending(order), k);
  }
}
