# Legal-opinion viewer: extraction and correspondence core

`app_pareceres.py` is a Streamlit application that lists legal opinions
("pareceres") about court cases. The opinions come from two folders:

- a folder of JSON records, each holding a timestamp, a hash and a `resultado`
  (either a markdown opinion or a structured analysis);
- a folder of rendered HTML opinions.

Its pure logic turns these into lists and summaries. It has three parts:

- field extractors that read a case number, risk classification, claim value,
  opposing party and nature out of markdown text;
- the case number and title of an HTML page, and a human-readable file size;
- list operations for the two pages: risk counts, text and classification
  filters, sort orders, the risk badge, and the match between a JSON record
  and its HTML file.

This project models that logic as pure Dafny functions over strings and
sequences, and proves what each part promises.

Modules, in the order the program uses them:

| file | module | what it holds |
|---|---|---|
| `wrappers.dfy` | `Wrappers` | `Option` |
| `strings.dfy` | `Strings` | `isspace`, `strip`, containment, `str.upper()`, path stem |
| `json.dfy` | `JsonValues` | decoded JSON values, `dict.get`, `str()` |
| `size_format.dfy` | `SizeFormat` | `formatar_tamanho` |
| `markdown_fields.dfy` | `MarkdownFields` | the five markdown extractors |
| `html_metadata.dfy` | `HtmlMetadata` | `extrair_numero_processo_html`, `extrair_titulo_html` |
| `sequences.dfy` | `Sequences` | list comprehensions with a test, counting |
| `sorting.dfy` | `Sorting` | Python's comparison of keys, and a stable `list.sort` |
| `folder_scan.dfy` | `FolderScan` | the per-file `try` loop both folder scans share |
| `record_store.dfy` | `RecordStore` | `buscar_pareceres_json` |
| `document_store.dfy` | `DocumentStore` | `buscar_arquivos_html`, the HTML page's total size and latest file |
| `correspondence.dfy` | `Correspondence` | `buscar_html_correspondente` |
| `opinion_page.dfy` | `OpinionPage` | the JSON page's counts, filters and order, and `get_badge_html` |
| `document_page.dfy` | `DocumentPage` | the HTML page's search and its six orders |

Modelling choices:

- **Regular expressions** are hand-written scanners. Each scanner is proved
  to find the leftmost position where the pattern matches, which is what
  `re.search` reports. A labelled pattern `**Label:** (.+)` needs at least one
  character after the label on the same line. If the first occurrence of a
  label has nothing after it, the search moves on to the next occurrence,
  as Python's does.
- **Folders** are sequences of entries in enumeration order:
  - a JSON entry carries its decoded contents, or nothing if decoding failed;
  - an HTML entry carries its `stat()` result and its text, each optional.
- **`str.upper()`** is exact on ASCII and Latin-1, including `ß`→`SS`,
  `ÿ`→`Ÿ` and `µ`→`Μ`. Whitespace is Python's `str.isspace()` set. `\d`
  means the ASCII digits.
- **Sorting** is a stable insertion sort on a key. `reverse=True` is
  stable as well, as in Python.

Two details of the patterns that are easy to misread:

- The CNJ pattern escapes every dot, the last two included, so the model
  requires literal dots between all its groups.
- An unlabelled body that contains `POSSÍVEL` is classified `POSSÍVEL` only
  when none of `RISCO ALTO`, `RISCO MÉDIO` and `PROVÁVEL` occurs, because
  those are tested first. `MarkdownFields.ExtractClassification` states the
  exact condition.

## Model

| member | source | states |
|---|---|---|
| SizeFormat.FormatSize | app_pareceres.py:357-363 | The unit is B, KB, MB, GB exactly on the ranges below 1024, 1024², 1024³, 1024⁴; anything at or above 1024⁴ is TB. The magnitude times the unit's scale is the byte count, and is below 1024 except in TB (the escalation never stops early). |
| SizeFormat.Escalate | app_pareceres.py:359-363 | Each pass of the loop keeps magnitude × scale equal to the byte count, and the unit it stops at is the first one under which the magnitude is below 1024. |
| SizeFormat.SizeExamples | app_pareceres.py:357-363 | 500 bytes is 500.0 B, 1536 bytes is 1.5 KB, 1024³ bytes is 1.0 GB. |
| MarkdownFields.RestOfLine | app_pareceres.py:396 | What the greedy `(.+)` captures: a slice of the text with no newline, that ends at a newline or at the end of the text. |
| MarkdownFields.FindLabel | app_pareceres.py:396 | The scan for `**Label:** (.+)` returns the leftmost position where the label is followed by a character on the same line; None means no position matches. |
| MarkdownFields.Labelled | app_pareceres.py:396-399 | A capture exists iff some position matches; it is the stripped rest of the line after the leftmost match; it never holds a newline. |
| MarkdownFields.Capture | app_pareceres.py:398 | `match.group(1).strip()` is the rest of the line after the label with exactly its leading and trailing whitespace removed; it is a substring of the text and holds no newline. |
| MarkdownFields.ExtractCaseNumber | app_pareceres.py:394-399 | The stripped rest of the line after the leftmost `**Número do Processo (CNJ):** ` match; `N/A` without one; never a newline. |
| MarkdownFields.ExtractClassification | app_pareceres.py:402-420 | A labelled classification wins. Without a label, the result is one of the six answers, and each answer holds exactly when its marker is present and no earlier marker is. |
| MarkdownFields.MediumLowImpliesMedium | app_pareceres.py:411 | The `RISCO MÉDIO-BAIXO` test adds nothing: a text holding it holds `RISCO MÉDIO`. |
| MarkdownFields.MediumLowReportedAsMedium | app_pareceres.py:409-412 | An unlabelled text with `RISCO MÉDIO-BAIXO` and no `RISCO ALTO` is classified `RISCO MÉDIO`. |
| MarkdownFields.LabelledHighRisk | app_pareceres.py:404-406 | A text whose first classification line reads `RISCO ALTO` is classified `RISCO ALTO`, whatever follows. |
| MarkdownFields.ExtractClaimValue | app_pareceres.py:423-433 | The labelled claim value wins; otherwise the leftmost `R$` amount match; `N/A` when there is neither. |
| MarkdownFields.FindCurrency | app_pareceres.py:429 | The scan for `R\$\s*[\d\.,]+` returns the leftmost match position; None means no position matches. |
| MarkdownFields.CurrencyMatch | app_pareceres.py:429-431 | The match occurs at its position and reads `R$`, then a whitespace run, then a non-empty run of amount characters up to its end; that run is maximal. |
| MarkdownFields.CurrencyScanMatchesPattern | app_pareceres.py:429 | The scanner's test holds at a position iff the regular expression matches there (some whitespace run, then at least one amount character). |
| MarkdownFields.CurrencyMayCrossLines | app_pareceres.py:429-431 | Unlike a labelled value, the currency fallback can span lines: `R$\n5` gives `R$\n5`. |
| MarkdownFields.ExtractOpposingParty | app_pareceres.py:436-446 | `Parte Contrária` wins, else `Autor`, else `N/A`; each capture is the leftmost match's stripped rest of line; never a newline. |
| MarkdownFields.ExtractNature | app_pareceres.py:449-459 | `Natureza` wins, else `Tipo de Ação`, else `N/A`; each capture is the leftmost match's stripped rest of line; never a newline. |
| HtmlMetadata.NumberAfter | app_pareceres.py:374 | `[:\s]*([0-9\-\.]+)` from a position matches iff a run of `:` and whitespace is followed by at least one digit, hyphen or dot. The capture is then exactly the longest such run, starting where the separators stop. |
| HtmlMetadata.NumberSpanIsRuns | app_pareceres.py:374 | Any way of matching `[:\s]*([0-9\-\.]+)` is the greedy separator run followed by the greedy number run, so the match is unique. |
| HtmlMetadata.NumberLabelAt | app_pareceres.py:374 | The label pattern matches at a position iff `Número do Processo` or `Processo`, ignoring case, stands there and is followed by a separator run and a number. The capture is exactly that number run. |
| HtmlMetadata.Find | app_pareceres.py:369-387 | The search for each of the four patterns returns the leftmost match position; None means no position matches. |
| HtmlMetadata.LazyClose | app_pareceres.py:383 | The lazy `(.+?)</title>` ends at the first case-insensitive closing tag after at least one character, with no newline before it. |
| HtmlMetadata.CloseFrom | app_pareceres.py:383-387 | The search for the closing tag from a given end returns the first one on the same line; None means there is none. |
| HtmlMetadata.TitleAt | app_pareceres.py:383 | `<title>(.+?)</title>` matches at a position iff `<title>`, ignoring case, stands there and a closing tag follows on the same line after at least one character. The capture is exactly the text up to the first such closing tag. |
| HtmlMetadata.HeadingAt | app_pareceres.py:387 | `<h1[^>]*>(.+?)</h1>` matches at a position iff `<h1`, ignoring case, stands there, a `>` follows somewhere, and a closing tag follows that `>` on the same line after at least one character. The capture is exactly the text from the first `>` to the first such closing tag. |
| HtmlMetadata.ExtractCaseNumber | app_pareceres.py:366-378 | The leftmost CNJ-shaped substring (25 characters) wins; otherwise the number after the leftmost label match; the result is `N/A` iff neither pattern matches, and otherwise is non-empty and occurs in the text. |
| HtmlMetadata.NumberIsNotSentinel | app_pareceres.py:376-378 | A captured number is unchanged by `strip()` and is never `N/A`, so the sentinel means "not found". |
| HtmlMetadata.StripTags | app_pareceres.py:389 | `re.sub(r'<[^>]+>', '', …)` leaves no tag, adds no character, keeps a first character that is not `<`, and returns a text without `<` unchanged. |
| HtmlMetadata.StripTagsPlainHead | app_pareceres.py:389 | A first character other than `<` is kept, in front of what the rest of the text becomes. |
| HtmlMetadata.StripTagsDropsTag | app_pareceres.py:389 | A `<`, a non-empty run without `>`, and a `>` are deleted together, and the rest is processed as if they were absent. |
| HtmlMetadata.StripTagsKeepsLoneAngle | app_pareceres.py:389 | A `<` followed at once by `>`, or never followed by `>`, is kept. |
| HtmlMetadata.StripKeepsNoTag | app_pareceres.py:389 | Stripping whitespace from a tag-free string cannot uncover a tag. |
| HtmlMetadata.NoTagContained | app_pareceres.py:389 | Every substring of a tag-free string is tag-free. |
| HtmlMetadata.ExtractTitle | app_pareceres.py:381-391 | The leftmost `<title>` content, stripped, wins; otherwise the leftmost `<h1>` content with its tags removed and stripped, which is tag-free; otherwise `Documento sem título`; never a newline. |
| Sequences.Filter | app_pareceres.py:607 | `[x for x in s if p(x)]` is a subsequence of `s`, keeps every element that passes, and only those. |
| Sequences.FilterCount | app_pareceres.py:607 | `[x for x in s if p(x)]` holds each passing element exactly as many times as `s` does, and no failing one. |
| Sequences.FilterKeepsAll | app_pareceres.py:607 | A filter returns its input unchanged iff every element passes. |
| Sequences.CountWhere | app_pareceres.py:560 | `sum(1 for x in s if p(x))` is the length of the filtered list, so it never exceeds the total. |
| Sequences.IsSubseqTransitive | app_pareceres.py:604-610 | Filtering a filtered list leaves a subsequence of the original. |
| Sorting.StrLessTransitive | app_pareceres.py:622 | Python's string order is transitive. |
| Sorting.StrLessTotal | app_pareceres.py:622 | Any two distinct strings are ordered one way or the other. |
| Sorting.StrLessAfterPrefix | app_pareceres.py:622 | Strings with a common prefix are ordered by the first character that differs. |
| Sorting.InsertSorted | app_pareceres.py:622 | Inserting into a sorted list keeps it sorted and adds exactly the element. |
| Sorting.Sort | app_pareceres.py:622 | `list.sort(key=…, reverse=…)` returns a permutation of its input in which no element precedes one it should follow. |
| Sorting.SortStable | app_pareceres.py:622 | Elements with equal keys keep their original relative order, with or without `reverse=True`. |
| FolderScan.ScanAll | app_pareceres.py:271-313 | Every file gives either one record or one warning. |
| FolderScan.ScanAllSelects | app_pareceres.py:271-311 | The records are the results of exactly the files that load, and the warnings name exactly the files that do not, both in enumeration order. |
| FolderScan.ScanAllConcat | app_pareceres.py:271-311 | Scanning two batches of files in turn gives the records and warnings of each batch, in order. |
| FolderScan.FailureIsolated | app_pareceres.py:309-311 | A failing file leaves the other records as if it were absent and adds only its own warning. |
| RecordStore.Get | app_pareceres.py:277-305 | A record has a key iff its analysis provides it. |
| RecordStore.Lookup | app_pareceres.py:597 | `info.get(key, default)` is the key's value when the record has the key, and the default when it does not. |
| JsonValues.Display | app_pareceres.py:490 | `str(v)` of a string is the string itself; `str(None)` is `None`; `str(True)` and `str(False)` are `True` and `False`. `str(n)` of a number is `-` exactly when it is negative, then decimal digits that denote its magnitude, with no leading zero. |
| JsonValues.PyEq | app_pareceres.py:610 | Python's `==` on decoded values: every value equals itself; a string or `None` equals only itself; a boolean equals the number 1 or 0 it counts as. |
| JsonValues.DisplayNumberInjective | app_pareceres.py:607 | Distinct numbers display differently, so a case-number search tells numbers apart. |
| RecordStore.Analyse | app_pareceres.py:285-305 | The analysis is markdown iff `resultado` is text, and structured iff it is an object. |
| RecordStore.Normalize | app_pareceres.py:277-305 | Path and name are kept; timestamp and hash default to `''`. `tipo` is `parecer_markdown` iff `resultado` is text and `analise_estruturada` iff it is an object. Only the structured branch sets `fase`. A record has exactly the four base keys iff `resultado` is neither. |
| RecordStore.MarkdownFieldsExtracted | app_pareceres.py:289-295 | A text `resultado` is read by the five markdown extractors. |
| RecordStore.StructuredFieldsRead | app_pareceres.py:298-305 | An object `resultado` is read key by key, with the defaults `N/A`, and `Não informado` for the classification. |
| RecordStore.LoadJson | app_pareceres.py:272-307 | A file yields a record iff it decodes to an object; the record keeps the file's path and name. |
| RecordStore.ScanOpinions | app_pareceres.py:263-313 | No folder gives no records; otherwise records plus warnings account for every file. |
| RecordStore.ScanExample | app_pareceres.py:263-313 | With an undecodable file between two good ones: two records, one warning naming it, and a record without `resultado` has only the four base keys. |
| DocumentStore.ReadMetadata | app_pareceres.py:341-343 | The case number is `N/A` iff neither HTML number pattern matches; the title has no newline. |
| DocumentStore.Describe | app_pareceres.py:325-352 | A file is described iff `stat()` succeeds. The description records the size, its label and the mtime. Unreadable text gives `N/A` and the file's stem as title; otherwise the two HTML extractors are used. |
| DocumentStore.ScanDocuments | app_pareceres.py:316-354 | No folder gives no descriptions; otherwise descriptions plus warnings account for every file. |
| DocumentStore.UnreadableFileListed | app_pareceres.py:339-348 | A file whose text cannot be read is still listed, in its place, with `N/A` and its stem. |
| DocumentStore.TotalSize | app_pareceres.py:698 | `sum(a['tamanho'] for a in arquivos_html)` is zero exactly when every file is empty. |
| DocumentStore.TotalSizeConcat | app_pareceres.py:698 | The total size of two lists is the sum of their totals. |
| DocumentStore.TotalSizeBounds | app_pareceres.py:698 | The total size is at least the size of every file. |
| DocumentStore.MostRecent | app_pareceres.py:707-708 | `max(…, key=mtime)` is the first file whose modification time is the largest. |
| Correspondence.MatchesIsStemContainment | app_pareceres.py:473-482 | The three-pattern test is the same as testing that the name contains the stem. |
| Correspondence.FirstFrom | app_pareceres.py:480-485 | The scan returns the first corresponding name from a position on; None means there is none. |
| Correspondence.Resolve | app_pareceres.py:462-485 | No folder gives None. A result is a listed `.html` name that contains the stem of the JSON path, and no earlier `.html` name does. None means no `.html` name contains it. |
| Correspondence.ResolveExample | app_pareceres.py:462-485 | `pareceres/caso123.json` resolves to `parecer_caso123.html` after an unrelated `index.html`; a missing or empty folder gives None. |
| OpinionPage.Summarize | app_pareceres.py:555-584 | The total is the number of records; each bucket counts exactly the records that pass its test, and so never exceeds the total. |
| OpinionPage.BucketsOverlap | app_pareceres.py:560-584 | The buckets overlap: a record classified `RISCO MÉDIO-BAIXO` is counted as medium and as low, and not as high. |
| OpinionPage.BadgeClass | app_pareceres.py:490-499 | The badge class is the first bucket (high, medium, low) whose markers the upper-cased text contains, else `badge-medio`. |
| OpinionPage.Badge | app_pareceres.py:501 | The markup carries the class and the classification as written. |
| OpinionPage.BadgeAgreesWithSummary | app_pareceres.py:560-584 | The badge the list shows for a record (line 637, default `N/A`) is the most severe bucket the summary counts it in, and `badge-medio` iff it is counted in none. |
| OpinionPage.FilterByCaseNumber | app_pareceres.py:606-607 | An empty query keeps the list; otherwise a subsequence that keeps a record iff the query, upper-cased, occurs in its upper-cased case number. |
| OpinionPage.ClassificationOptions | app_pareceres.py:597 | The menu offers each record's classification (`N/A` when missing), and nothing else. |
| OpinionPage.StoredClassification | app_pareceres.py:610 | `p.get('classificacao')` is the stored classification when the key exists, and `None` when it does not. |
| OpinionPage.FilterByClassificationAsWritten | app_pareceres.py:609-610 | `Todas` keeps the list. Otherwise the result is a subsequence that keeps a record iff `p.get('classificacao') == filtro` in Python's sense: a missing key reads as `None`, and `True == 1`. |
| OpinionPage.NullAndMissingAlike | app_pareceres.py:610 | A record whose classification is JSON `null` and a record without `resultado` are both kept when the choice is `None`. |
| OpinionPage.TrueSelectedByOne | app_pareceres.py:610 | A classification stored as `true` is kept when the choice is `1`. |
| OpinionPage.NotAvailableSelectsNothing | app_pareceres.py:597-610 | A record without `resultado` makes the menu offer `N/A`, and choosing it shows nothing. |
| OpinionPage.FilterByClassification | app_pareceres.py:597-610 | `Todas` keeps the list. Otherwise the result is a subsequence that keeps a record iff the classification the menu offered for it equals the choice in Python's sense. |
| OpinionPage.EveryOptionSelectsItsRecords | app_pareceres.py:597-610 | Every menu entry shows at least one record, and every record is shown under the entry offered for it. |
| OpinionPage.FiltersAgreeWhenClassified | app_pareceres.py:597-610 | The two classification filters agree on lists where every record has a classification. |
| OpinionPage.FiltersKeepOrder | app_pareceres.py:604-610 | The two filters in sequence leave a subsequence of the records. |
| OpinionPage.TimestampKey | app_pareceres.py:622 | `x.get('timestamp', '')` sorts as text when it is a string, and as the number it counts as when it is a number or a boolean. |
| OpinionPage.TimestampsCompare | app_pareceres.py:622 | Two text timestamps are ordered as Python orders strings. Two numeric ones are ordered as numbers, with `False` as 0 and `True` as 1. |
| OpinionPage.SortByTimestamp | app_pareceres.py:622 | The sort is a permutation of the records, non-increasing in timestamp. |
| OpinionPage.SortByTimestampStable | app_pareceres.py:622 | Records with equal timestamps keep their scan order. |
| OpinionPage.LaterTimestampFirst | app_pareceres.py:622 | Of two records with text timestamps, the later one comes first. |
| OpinionPage.SortByTimestampExample | app_pareceres.py:621-622 | A record from 2024-03-01 is listed before one from 2024-01-05. |
| DocumentPage.FilterDocuments | app_pareceres.py:724-733 | An empty query keeps the list; otherwise a subsequence that keeps a file iff the upper-cased query occurs in its upper-cased name, case number or title. |
| DocumentPage.SearchIgnoresCase | app_pareceres.py:726-733 | A query and its upper-case form find the same files. |
| DocumentPage.FoundByName | app_pareceres.py:726-733 | A file is found by any substring of its name. |
| DocumentPage.SortDocuments | app_pareceres.py:744-756 | Each order entry returns a permutation: mtime non-increasing or non-decreasing, name ascending or descending, size non-increasing or non-decreasing. |
| DocumentPage.SortDocumentsStable | app_pareceres.py:744-756 | Files the chosen key does not tell apart keep their listing order. |
| Strings.IsSpace | app_pareceres.py:374 | On ASCII, the whitespace of `\s` and `strip()` is exactly space, tab, newline, carriage return, vertical tab, form feed and the four separators 0x1C–0x1F. |
| Strings.Strip | app_pareceres.py:398 | `strip()` removes exactly the leading and trailing whitespace, leaves a substring, and adds no character. |
| Strings.BaseName | app_pareceres.py:279 | `Path(p).name` ends the path, holds no `/`, and is preceded by a `/` unless it is the whole path. |
| Strings.Upper | app_pareceres.py:607 | `str.upper()` never shortens a string. |
| Strings.UpperByCharacter | app_pareceres.py:607 | Unless the text holds `ß`, `upper()` keeps its length and maps it position by position. |
| Strings.UpperKeepsContains | app_pareceres.py:607 | If `sub` occurs in `s`, then `sub.upper()` occurs in `s.upper()`. |
| Strings.UpperIdempotent | app_pareceres.py:726-733 | Upper-casing twice is upper-casing once. |
| Strings.Stem | app_pareceres.py:470 | `Path(p).stem` is a prefix of the last path component. It differs from the component exactly when the component's last dot is neither its first nor its last character, and then it stops at that dot. |

## Left out

- Authentication (`load_credentials`, `check_password`, the secrets file) and session state: I/O and UI state.
- Streamlit rendering, CSS, `exibir_html`, and the base64 download in `exibir_pdf_download`: presentation only.
- Lines 21–27 of `app_pareceres.py`: shell commands, not Python.
- `iniciar.py` and `instalacao/`: environment setup through subprocess and interactive prompts.
- SizeFormat.FormatSize: the `:.1f` rendering is not modelled. The label is the exact magnitude, as a real number, and its unit.
- `data_modificacao` and the latest-modification date on the HTML page: these use `datetime.fromtimestamp` and a time zone. The model keeps the raw `st_mtime`.
- Directory walking, `glob`, `stat()`, file reading and JSON decoding are inputs:
  - each folder is a sequence of entries in enumeration order;
  - each entry's name is given rather than computed from its path;
  - a failure is an absent value.
  A `stat()` failure and a `datetime.fromtimestamp` failure both skip the file.
- Correspondence.Resolve: returns the matching entry's name. The code returns `str(path)`, which is the folder path joined with that name.
- JSON values are modelled with integer numbers only. `str()` of a list or object is not modelled: its display is empty.
- Strings.FoldOccursAt: `re.IGNORECASE` is modelled as lower-casing ASCII and Latin-1 letters only. Python also matches `ſ` (U+017F) with `s`, `ı` and `İ` (U+0131, U+0130) with `i`, and the Kelvin sign (U+212A) with `k`. A text that spells a label with those characters matches in Python but not in the model.
- JsonValues.PyEq: `True == 1` and `False == 0` are modelled at the top level. Lists and objects are compared structurally, so `[True] == [1]`, true in Python, is false here.
- OpinionPage.ClassificationOptions: Python's `set()` keeps only one of `True` and `1`, since they are equal and hash alike. The model keeps both as menu entries; each selects the same records.
- `str.upper()` beyond Latin-1 keeps the character. `\s` is Python's whitespace set; `\d` is ASCII digits only.
- OpinionPage.SortByTimestamp requires the timestamps to be comparable: all text, or all numbers and booleans. Python raises `TypeError` on a mix; that page error is not modelled.
- Sorting.Less places numbers before text so that the order is total. The pages never compare a number with text.
- OpinionPage.ClassificationOptions: the menu order that `list(set(…))` produces is arbitrary and is not modelled; the options are a set. An unhashable classification (a list or object), which makes `set()` raise, is not modelled either.
- The in-place aliasing of the filtered list when no filter applies has no visible effect and is not modelled.

## Findings

| source | as written | input that shows it | evidently intended | confidence | as-written member | corrected member |
|---|---|---|---|---|---|---|
| app_pareceres.py:597-610 | The menu offers `p.get('classificacao', 'N/A')`, but the filter compares `p.get('classificacao') == filtro`, with no default. A missing key then reads as `None`. | One record from a JSON file without `resultado`. The menu offers `N/A`; choosing it shows no records. | The filter uses the same default as the menu, so every entry shows the records it was offered for. | not executed | OpinionPage.FilterByClassificationAsWritten, OpinionPage.NotAvailableSelectsNothing | OpinionPage.FilterByClassification, OpinionPage.EveryOptionSelectsItsRecords |
