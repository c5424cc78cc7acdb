/** `buscar_html_correspondente`: the rendered opinion that goes with a JSON record,
    found by the names of the files in the HTML folder. */
module Correspondence {
  import opened Wrappers
  import opened Strings

  const HtmlSuffix := ".html"

  /** The three names tried, in order: `stem.html`, `parecer_stem.html`, `relatorio_stem.html`. */
  function Patterns(stem: string): seq<string> {
    [stem + HtmlSuffix, "parecer_" + stem + HtmlSuffix, "relatorio_" + stem + HtmlSuffix]
  }

  /** The test applied to one file name, written as the code writes it: some pattern
      occurs in the name, or the stem itself does. */
  predicate Matches(name: string, stem: string) {
    exists k | 0 <= k < |Patterns(stem)| :: Contains(name, Patterns(stem)[k]) || Contains(name, stem)
  }

  /** Every pattern contains the stem, so the test is stem containment alone. */
  lemma MatchesIsStemContainment(name: string, stem: string)
    ensures Matches(name, stem) <==> Contains(name, stem)
  {
    if Contains(name, stem) {
      assert Contains(name, Patterns(stem)[0]) || Contains(name, stem);
    }
    if Matches(name, stem) {
      var k :| 0 <= k < |Patterns(stem)| && (Contains(name, Patterns(stem)[k]) || Contains(name, stem));
      if Contains(name, Patterns(stem)[k]) {
        ContainsConcat([], stem, HtmlSuffix);
        ContainsConcat("parecer_", stem, HtmlSuffix);
        ContainsConcat("relatorio_", stem, HtmlSuffix);
        assert [] + stem + HtmlSuffix == Patterns(stem)[0];
        ContainsTransitive(name, Patterns(stem)[k], stem);
      }
    }
  }

  /** A name the glob `*.html` lists. */
  predicate IsHtmlName(name: string) {
    EndsWith(name, HtmlSuffix)
  }

  /** A name that is returned for `stem`. */
  predicate Corresponds(name: string, stem: string) {
    IsHtmlName(name) && Matches(name, stem)
  }

  /** The first entry from `from` on that corresponds to `stem`. */
  function FirstFrom(names: seq<string>, stem: string, from: nat): (r: Option<nat>)
    requires from <= |names|
    decreases |names| - from
    ensures r.Some? ==> from <= r.value < |names| && Corresponds(names[r.value], stem)
    ensures r.Some? ==> forall k | from <= k < r.value :: !Corresponds(names[k], stem)
    ensures r.None? ==> forall k | from <= k < |names| :: !Corresponds(names[k], stem)
  {
    if from == |names| then None
    else if Corresponds(names[from], stem) then Some(from)
    else FirstFrom(names, stem, from + 1)
  }

  /** `buscar_html_correspondente(caminho_json, pasta_html)`, the folder given as the
      names of its top-level entries in enumeration order (`None` when it does not
      exist): the first `.html` name containing the stem of the JSON path. */
  function Resolve(jsonPath: string, folder: Option<seq<string>>): (r: Option<string>)
    ensures folder.None? ==> r.None?
    ensures r.Some? ==> r.value in folder.value && IsHtmlName(r.value) && Contains(r.value, Stem(jsonPath))
    ensures folder.Some? && r.None? ==>
      forall k | 0 <= k < |folder.value| && IsHtmlName(folder.value[k]) :: !Contains(folder.value[k], Stem(jsonPath))
    ensures folder.Some? && r.Some? ==> exists i | 0 <= i < |folder.value| ::
      && folder.value[i] == r.value
      && forall k | 0 <= k < i && IsHtmlName(folder.value[k]) :: !Contains(folder.value[k], Stem(jsonPath))
  {
    match folder
    case None => None
    case Some(names) =>
      var stem := Stem(jsonPath);
      match FirstFrom(names, stem, 0)
      case Some(i) =>
        MatchesIsStemContainment(names[i], stem);
        forall k | 0 <= k < i && IsHtmlName(names[k])
          ensures !Contains(names[k], stem)
        {
          MatchesIsStemContainment(names[k], stem);
        }
        Some(names[i])
      case None =>
        forall k | 0 <= k < |names| && IsHtmlName(names[k])
          ensures !Contains(names[k], stem)
        {
          MatchesIsStemContainment(names[k], stem);
        }
        None
  }

  lemma ExampleStem()
    ensures Stem("pareceres/caso123.json") == "caso123"
  {
    assert "pareceres/caso123.json"[9] == '/';
    assert LastIndexOf("pareceres/caso123.json", '/') == 9;
    assert BaseName("pareceres/caso123.json") == "caso123.json";
    assert "caso123.json"[7] == '.';
    assert LastIndexOf("caso123.json", '.') == 7;
  }

  lemma ExampleNames()
    ensures !Corresponds("index.html", "caso123")
    ensures Corresponds("parecer_caso123.html", "caso123")
  {
    var stem, other, page := "caso123", "index.html", "parecer_caso123.html";
    MatchesIsStemContainment(other, stem);
    MatchesIsStemContainment(page, stem);
    assert OccursAt(page, 8, stem);
    forall i | 0 <= i <= |other| - |stem|
      ensures !OccursAt(other, i, stem)
    {
      assert other[i..i + |stem|][0] == other[i] != stem[0];
    }
    assert EndsWith(page, HtmlSuffix);
  }

  /** `caso123.json` goes with `parecer_caso123.html`, even after an unrelated page;
      without a folder, or with an empty one, nothing is found. */
  lemma ResolveExample()
    ensures Resolve("pareceres/caso123.json", Some(["index.html", "parecer_caso123.html"])) == Some("parecer_caso123.html")
    ensures Resolve("pareceres/caso123.json", None) == None
    ensures Resolve("pareceres/caso123.json", Some([])) == None
  {
    ExampleStem();
    ExampleFirst();
  }

  lemma ExampleFirst()
    ensures FirstFrom(["index.html", "parecer_caso123.html"], "caso123", 0) == Some(1)
  {
    ExampleNames();
    var names := ["index.html", "parecer_caso123.html"];
    assert names[0] == "index.html" && names[1] == "parecer_caso123.html";
    assert FirstFrom(names, "caso123", 1) == Some(1);
  }
}
