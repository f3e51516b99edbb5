/**
 * The Firecrawl tester command-line tool: how it chooses a schema, completes
 * the format list, splits its list arguments, picks the extraction mode, and
 * previews long lists. Each command is reduced to the client call it makes.
 */
module FirecrawlTester {
  import opened Wrappers
  import opened Text
  import opened JsonValue
  import opened Schemas
  import opened Firecrawl

  // ---------------------------------------------------------------- schema selection

  /** The schema named by `--url-type`; an unknown name selects none. */
  function NamedSchema(urlType: string): (r: Option<Schema>)
    ensures r.Some? <==> urlType in {"business", "court", "judgment"}
  {
    if urlType == "business" then Some(BusinessRegistrationSchema())
    else if urlType == "court" then Some(CourtCaseSchema())
    else if urlType == "judgment" then Some(JudgmentSchema())
    else None
  }

  /** The schema of `scrape` and `crawl`: only with `--extract-data`, by `--url-type` when given, else detected from the URL. */
  function ChosenSchema(extractData: bool, urlType: Option<string>, url: string): Option<Schema>
  {
    if !extractData then None
    else if Given(urlType) then NamedSchema(urlType.value)
    else GetSchemaForUrl(url)
  }

  /**
   * No schema without `--extract-data`; a given `--url-type` decides alone,
   * so an unknown type selects no schema even where the URL would be
   * detected; without one the URL is classified.
   */
  lemma ChosenSchemaCases(extractData: bool, urlType: Option<string>, url: string)
    ensures !extractData ==> ChosenSchema(extractData, urlType, url).None?
    ensures extractData && Given(urlType) ==>
      (ChosenSchema(extractData, urlType, url).Some? <==> urlType.value in {"business", "court", "judgment"})
    ensures extractData && !Given(urlType) ==> ChosenSchema(extractData, urlType, url) == GetSchemaForUrl(url)
    ensures ChosenSchema(extractData, urlType, url).Some? ==> WellFormed(ChosenSchema(extractData, urlType, url).value)
  {
  }

  /** The formats asked for, with `json` appended when a schema is used and it is missing. */
  function WithJson(formats: seq<string>, useSchema: bool): (r: seq<string>)
    ensures useSchema ==> "json" in r
    ensures forall x :: x in r <==> x in formats || (useSchema && x == "json")
    ensures |formats| <= |r| <= |formats| + 1 && r[..|formats|] == formats
  {
    if useSchema && "json" !in formats then formats + ["json"] else formats
  }

  /** No two entries equal. */
  predicate Distinct(s: seq<string>) { forall i, j :: 0 <= i < j < |s| ==> s[i] != s[j] }

  /** Completing the formats never repeats one. */
  lemma WithJsonDistinct(formats: seq<string>, useSchema: bool)
    requires Distinct(formats)
    ensures Distinct(WithJson(formats, useSchema))
  {
    var r := WithJson(formats, useSchema);
    if r != formats {
      assert forall i :: 0 <= i < |formats| ==> r[i] == formats[i] && formats[i] in formats;
    }
  }

  /** The call of the `scrape` command. */
  function ScrapeCommand(url: string, formatsArg: string, extractData: bool, urlType: Option<string>): ScrapeCall
  {
    var schema := ChosenSchema(extractData, urlType, url);
    var formats := WithJson(Split(formatsArg, ','), schema.Some?);
    ScrapeUrl(url, formats, if schema.Some? then Some(ToJson(schema.value)) else None)
  }

  /** The scrape carries the chosen schema exactly when one was chosen, and then asks for JSON. */
  lemma ScrapeCommandSchema(url: string, formatsArg: string, extractData: bool, urlType: Option<string>)
    ensures var c := ScrapeCommand(url, formatsArg, extractData, urlType); var schema := ChosenSchema(extractData, urlType, url);
      && c.url == url
      && (c.jsonOptions.Some? <==> schema.Some?)
      && (schema.Some? ==> c.jsonOptions == Some(ToJson(schema.value)) && "json" in c.formats)
      && (schema.None? ==> c.formats == Split(formatsArg, ','))
  {
  }

  /** A comma-separated list option: split when given, empty otherwise. */
  function ListOption(arg: Option<string>): (r: seq<string>)
    ensures forall i :: 0 <= i < |r| ==> ',' !in r[i]
    ensures Given(arg) ==> r != [] && Join(r, ",") == arg.value
    ensures !Given(arg) ==> r == []
  {
    if Given(arg) then
      SplitPartsFree(arg.value, ',');
      SplitJoin(arg.value, ',');
      Split(arg.value, ',')
    else []
  }

  /** The crawl parameters of the `crawl` command. */
  function CrawlCommand(url: string, limit: int, maxDepth: int, formatsArg: string, extractData: bool,
                        urlType: Option<string>, excludes: Option<string>, includes: Option<string>): Json
  {
    var schema := ChosenSchema(extractData, urlType, url);
    var formats := WithJson(Split(formatsArg, ','), schema.Some?);
    CrawlParams(limit, maxDepth, formats, ListOption(excludes), ListOption(includes),
                if schema.Some? then Some(ToJson(schema.value)) else None)
  }

  /** The crawl attaches the chosen schema as JSON options exactly when one was chosen. */
  lemma CrawlCommandSchema(url: string, limit: int, maxDepth: int, formatsArg: string, extractData: bool,
                           urlType: Option<string>, excludes: Option<string>, includes: Option<string>)
    ensures var p := CrawlCommand(url, limit, maxDepth, formatsArg, extractData, urlType, excludes, includes);
      var schema := ChosenSchema(extractData, urlType, url);
      var so := p.fields["scrapeOptions"];
      && ("jsonOptions" in so.fields <==> schema.Some?)
      && (schema.Some? ==> so.fields["jsonOptions"] == JObj(map["schema" := ToJson(schema.value)]))
      && p.fields["crawlerOptions"] == JObj(map["excludes" := StrArray(ListOption(excludes)),
                                                "includes" := StrArray(ListOption(includes))])
  {
  }

  /** The formats of the `search` command: the split list, or markdown alone. */
  function SearchFormats(formatsArg: Option<string>): (r: seq<string>)
    ensures r != []
    ensures !Given(formatsArg) ==> r == ["markdown"]
    ensures Given(formatsArg) ==> Join(r, ",") == formatsArg.value
  {
    if Given(formatsArg) then
      SplitJoin(formatsArg.value, ',');
      Split(formatsArg.value, ',')
    else ["markdown"]
  }

  // ---------------------------------------------------------------- extraction mode

  const GENERAL_PROMPT := "Extract all important legal information from this page, including entities, dates, case numbers, and status information."

  /**
   * The call of the `extract` command: a prompt wins; without one the named
   * schema, else the schema detected from the first URL, else the general
   * prompt.
   */
  function ExtractCommand(urlsArg: string, urlType: Option<string>, prompt: Option<string>): (r: ExtractCall)
    ensures r.urls == Split(urlsArg, ',')
    ensures r.schema.Some? != r.prompt.Some?
  {
    var urls := Split(urlsArg, ',');
    var named := if Given(urlType) then NamedSchema(urlType.value) else None;
    var schema := if named.None? then GetSchemaForUrl(urls[0]) else named;
    var res :=
      if Given(prompt) then ExtractStructuredData(UrlList(urls), None, prompt)
      else if schema.None? then ExtractStructuredData(UrlList(urls), None, Some(GENERAL_PROMPT))
      else ExtractStructuredData(UrlList(urls), Some(ToJson(schema.value)), None);
    assert |GENERAL_PROMPT| > 0;
    res.value
  }

  /** The precedence of the extraction modes, all of them reaching the service. */
  lemma ExtractCommandPrecedence(urlsArg: string, urlType: Option<string>, prompt: Option<string>)
    ensures var r := ExtractCommand(urlsArg, urlType, prompt);
      var named := if Given(urlType) then NamedSchema(urlType.value) else None;
      var detected := GetSchemaForUrl(Split(urlsArg, ',')[0]);
      && (Given(prompt) ==> r.prompt == prompt && r.schema.None?)
      && (!Given(prompt) && named.Some? ==> r.schema == Some(ToJson(named.value)))
      && (!Given(prompt) && named.None? && detected.Some? ==> r.schema == Some(ToJson(detected.value)))
      && (!Given(prompt) && named.None? && detected.None? ==> r.prompt == Some(GENERAL_PROMPT))
  {
  }

  // ---------------------------------------------------------------- list previews

  /** The line counting what a preview leaves out. */
  function MoreLine(total: int, shown: int): string
  {
    "... and " + IntToString(total - shown) + " more"
  }

  /** `map`'s listing: the first ten URLs numbered from 1, then how many more there are. */
  function MapPreview(urls: seq<string>): seq<string>
  {
    var top := Take(urls, 10);
    seq(|top|, i requires 0 <= i < |top| => IntToString(i + 1) + ". " + top[i])
      + (if |urls| > 10 then [MoreLine(|urls|, 10)] else [])
  }

  /** `extract`'s listing: the first five URLs as bullets, then how many more there are. */
  function UrlsPreview(urls: seq<string>): seq<string>
  {
    var top := Take(urls, 5);
    seq(|top|, i requires 0 <= i < |top| => "- " + top[i])
      + (if |urls| > 5 then [MoreLine(|urls|, 5)] else [])
  }

  /**
   * The map listing shows the first ten URLs in order, each after its
   * number, and a count line exactly when some are left out.
   */
  lemma MapPreviewShape(urls: seq<string>)
    ensures var p := MapPreview(urls);
      && |p| == (if |urls| > 10 then 11 else |urls|)
      && (forall i :: 0 <= i < |urls| && i < 10 ==> p[i] == IntToString(i + 1) + ". " + urls[i] && EndsWith(p[i], urls[i]))
      && (|urls| > 10 ==> p[10] == MoreLine(|urls|, 10))
  {
    var p := MapPreview(urls);
    forall i | 0 <= i < |urls| && i < 10 ensures p[i] == IntToString(i + 1) + ". " + urls[i] && EndsWith(p[i], urls[i]) {
      EndsWithAppended(IntToString(i + 1) + ". ", urls[i]);
    }
  }

  /** The extract listing shows the first five URLs in order and a count line exactly when some are left out. */
  lemma UrlsPreviewShape(urls: seq<string>)
    ensures var p := UrlsPreview(urls);
      && |p| == (if |urls| > 5 then 6 else |urls|)
      && (forall i :: 0 <= i < |urls| && i < 5 ==> p[i] == "- " + urls[i])
      && (|urls| > 5 ==> p[5] == MoreLine(|urls|, 5))
  {
  }

  /** A markdown body as previewed: up to 500 characters, with `...` when cut. */
  function MarkdownPreview(markdown: string): (r: string)
    ensures |r| <= 503
    ensures |markdown| <= 500 ==> r == markdown
    ensures |markdown| > 500 ==> |r| == 503 && StartsWith(markdown, r[..500]) && EndsWith(r, "...")
  {
    if |markdown| > 500 then markdown[..500] + "..." else markdown
  }
}
