/** `buscar_arquivos_html`: the descriptions of the rendered opinions in the HTML
    folder, and the two summary figures the HTML page shows about them. */
module DocumentStore {
  import opened Wrappers
  import opened Strings
  import opened FolderScan
  import opened SizeFormat
  import HtmlMetadata

  /** What `stat()` reports: the size in bytes and the modification time in seconds. */
  datatype Stat = Stat(size: nat, mtime: real)

  /** One `*.html` file: its path, its name, its `stat()` (`None` when it raises) and
      its text (`None` when reading or decoding it raises). */
  datatype HtmlFile = HtmlFile(path: string, name: string, stat: Option<Stat>, contents: Option<string>)

  /** One description (`info`). */
  datatype Document = Document(
    path: string, name: string, size: nat, sizeLabel: SizeLabel, mtime: real,
    caseNumber: string, title: string)

  /** The case number and title of a file whose text could be read. */
  function ReadMetadata(contents: string): (r: (string, string))
    ensures r.0 == HtmlMetadata.NotAvailable <==>
      !HtmlMetadata.Found(contents, HtmlMetadata.Cnj) && !HtmlMetadata.Found(contents, HtmlMetadata.LabelledNumber)
    ensures '\n' !in r.1
  {
    (HtmlMetadata.ExtractCaseNumber(contents), HtmlMetadata.ExtractTitle(contents))
  }

  /** The body of the outer `try` for one file: without `stat()` the file is skipped;
      with it the file is always described, a failure to read its text giving the
      number `N/A` and the file's stem as title. */
  function Describe(f: HtmlFile): (r: Option<Document>)
    ensures r.Some? <==> f.stat.Some?
    ensures r.Some? ==> var d := r.value;
      && d.path == f.path && d.name == f.name
      && d.size == f.stat.value.size && d.mtime == f.stat.value.mtime
      && d.sizeLabel == FormatSize(d.size)
    ensures r.Some? && f.contents.None? ==>
      r.value.caseNumber == HtmlMetadata.NotAvailable && r.value.title == Stem(f.name)
    ensures r.Some? && f.contents.Some? ==>
      (r.value.caseNumber, r.value.title) == ReadMetadata(f.contents.value)
  {
    match f.stat
    case None => None
    case Some(st) =>
      var (number, title) :=
        match f.contents
        case Some(text) => ReadMetadata(text)
        case None => (HtmlMetadata.NotAvailable, Stem(f.name));
      Some(Document(f.path, f.name, st.size, FormatSize(st.size), st.mtime, number, title))
  }

  function HtmlName(f: HtmlFile): string {
    f.name
  }

  /** `buscar_arquivos_html(pasta_html)`: no folder, no descriptions; otherwise one
      per file whose `stat()` succeeds, in enumeration order. */
  function ScanDocuments(store: Option<seq<HtmlFile>>): (r: Scan<Document>)
    ensures store.None? ==> r.records == [] && r.skipped == []
    ensures store.Some? ==> |r.records| + |r.skipped| == |store.value|
  {
    match store
    case None => Scan([], [])
    case Some(files) => ScanAll(files, Describe, HtmlName)
  }

  /** A file whose text cannot be read is still listed; only a failing `stat()` drops it. */
  lemma UnreadableFileListed(before: seq<HtmlFile>, f: HtmlFile, after: seq<HtmlFile>)
    requires f.stat.Some? && f.contents.None?
    ensures var scan := ScanDocuments(Some(before + [f] + after));
      var doc := Describe(f).value;
      && scan.records == ScanAll(before, Describe, HtmlName).records + [doc] + ScanAll(after, Describe, HtmlName).records
      && doc.caseNumber == HtmlMetadata.NotAvailable && doc.title == Stem(f.name)
  {
    ScanAllConcat(before + [f], after, Describe, HtmlName);
    ScanAllConcat(before, [f], Describe, HtmlName);
    assert ScanAll([f], Describe, HtmlName).records == [Describe(f).value];
  }

  /** `sum(a['tamanho'] for a in arquivos_html)`. */
  function TotalSize(docs: seq<Document>): (r: nat)
    ensures r == 0 <==> forall k | 0 <= k < |docs| :: docs[k].size == 0
  {
    if docs == [] then 0
    else
      assert forall k | 1 <= k < |docs| :: docs[k] == docs[1..][k - 1];
      docs[0].size + TotalSize(docs[1..])
  }

  lemma {:induction false} TotalSizeConcat(a: seq<Document>, b: seq<Document>)
    ensures TotalSize(a + b) == TotalSize(a) + TotalSize(b)
  {
    if a == [] {
      assert a + b == b;
    } else {
      assert (a + b)[0] == a[0] && (a + b)[1..] == a[1..] + b;
      TotalSizeConcat(a[1..], b);
    }
  }

  /** The total bounds the size of every file. */
  lemma {:induction false} TotalSizeBounds(docs: seq<Document>)
    ensures forall k | 0 <= k < |docs| :: docs[k].size <= TotalSize(docs)
  {
    forall k | 0 <= k < |docs|
      ensures docs[k].size <= TotalSize(docs)
    {
      assert docs == docs[..k] + [docs[k]] + docs[k + 1..];
      TotalSizeConcat(docs[..k] + [docs[k]], docs[k + 1..]);
      TotalSizeConcat(docs[..k], [docs[k]]);
    }
  }

  /** `max(arquivos_html, key=lambda x: x['timestamp_modificacao'])`: the position of
      the first file with the latest modification time. */
  method MostRecent(docs: seq<Document>) returns (i: nat)
    requires docs != []
    ensures i < |docs|
    ensures forall j | 0 <= j < |docs| :: docs[j].mtime <= docs[i].mtime
    ensures forall j | 0 <= j < i :: docs[j].mtime < docs[i].mtime
  {
    i := 0;
    var k := 1;
    while k < |docs|
      invariant 1 <= k <= |docs| && i < k
      invariant forall j | 0 <= j < k :: docs[j].mtime <= docs[i].mtime
      invariant forall j | 0 <= j < i :: docs[j].mtime < docs[i].mtime
    {
      if docs[k].mtime > docs[i].mtime {
        i := k;
      }
      k := k + 1;
    }
  }
}
