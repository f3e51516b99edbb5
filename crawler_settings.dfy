/**
 * Building a crawler from a configuration (src/crawler.py, `LegalCrawler.__init__`
 * and `_validate_crawler_config`): the configured limits are clamped, unsafe
 * document types are dropped, and the configuration is refused with a
 * `CrawlerError` when nothing could be crawled with it.
 */
module CrawlerSettings {
  import opened Wrappers
  import opened Text
  import opened JsonValue
  import opened Configuration
  import opened Urls
  import opened CrawlerSafety

  /** The floor on the delay between requests, in seconds. */
  const MIN_REQUEST_DELAY: real := 0.5
  /** The caps on `max_pages` and `max_depth`. */
  const MAX_PAGES_CAP := 1000
  const MAX_DEPTH_CAP := 5

  /** Why a configuration is refused with `CrawlerError`. */
  datatype ConfigProblem =
    | NotANumber          // a numeric setting raised ValueError
    | NoSources
    | EmptySourceUrl
    | InvalidSourceUrl    // urlparse raised ValueError
    | BadSourceScheme
    | NonPositiveMaxPages
    | NoDocumentTypes

  /**
   * What construction raises: a `CrawlerError`, or an exception the
   * constructor does not catch (it catches only `ValidationError` and
   * `ValueError`), named by its Python type.
   */
  datatype InitError = CrawlerError(problem: ConfigProblem) | Uncaught(exception: string)

  /** A configured source: its name and selectors as configured, and its URL. */
  datatype Source = Source(name: Json, url: string, selectors: Json)

  /** The state `__init__` leaves behind besides the empty crawl fields. */
  datatype Settings = Settings(
    headers: map<string, Json>,
    requestDelay: real,
    maxPages: int,
    maxDepth: int,
    documentTypes: seq<string>,
    sources: seq<Source>)

  /** The URLs of the configured sources, in order. */
  function SourceUrls(sources: seq<Source>): (r: seq<string>)
    ensures |r| == |sources| && forall i :: 0 <= i < |r| ==> r[i] == sources[i].url
  {
    seq(|sources|, i requires 0 <= i < |sources| => sources[i].url)
  }

  /** A source URL that passes construction: non-empty, parsed, http or https. */
  predicate IsCrawlableSource(url: string)
  {
    url != "" && ParseUrl(url).Some? && IsWebScheme(ParseUrl(url).value.scheme)
  }

  /** What every constructed crawler satisfies. */
  predicate ValidSettings(s: Settings)
  {
    && MIN_REQUEST_DELAY <= s.requestDelay
    && 1 <= s.maxPages <= MAX_PAGES_CAP
    && s.maxDepth <= MAX_DEPTH_CAP
    && s.documentTypes != []
    && (forall i :: 0 <= i < |s.documentTypes| ==> Lower(s.documentTypes[i]) !in UNSAFE_EXTENSIONS)
    && s.sources != []
    && (forall i :: 0 <= i < |s.sources| ==> IsCrawlableSource(s.sources[i].url))
  }

  /** How a failed `float()` or `int()` leaves the constructor: `ValueError` is caught, `TypeError` is not. */
  function Numeric<T>(r: Result<T, ConversionError>): (q: Result<T, InitError>)
    ensures r.Success? ==> q == Success(r.value)
    ensures r == Failure(ValueError) ==> q == Failure(CrawlerError(NotANumber))
    ensures r == Failure(TypeError) ==> q == Failure(Uncaught("TypeError"))
  {
    match r
    case Success(v) => Success(v)
    case Failure(ValueError) => Failure(CrawlerError(NotANumber))
    case Failure(TypeError) => Failure(Uncaught("TypeError"))
  }

  /** The strings of a JSON list, or `None` when some item is not a string. */
  function StringItems(items: seq<Json>): (r: Option<seq<string>>)
    ensures r.Some? <==> forall i :: 0 <= i < |items| ==> items[i].JStr?
    ensures r.Some? ==> |r.value| == |items| && forall i :: 0 <= i < |items| ==> items[i] == JStr(r.value[i])
    decreases |items|
  {
    if items == [] then Some([])
    else if !items[0].JStr? then None
    else match StringItems(items[1..])
      case None => None
      case Some(rest) => Some([items[0].s] + rest)
  }

  /**
   * The configured document types as Python iterates them: a list of strings,
   * or the one-character strings of a string. A non-string item raises
   * `AttributeError` on `.lower()`; a number, boolean or null is not iterable.
   */
  function ConfiguredTypes(v: Json): Result<seq<string>, InitError>
  {
    match v
    case JArr(items) =>
      var strings := StringItems(items);
      if strings.Some? then Success(strings.value) else Failure(Uncaught("AttributeError"))
    case JStr(s) => Success(seq(|s|, i requires 0 <= i < |s| => [s[i]]))
    case JObj(_) => Failure(Uncaught("TypeError"))
    case _ => Failure(Uncaught("TypeError"))
  }

  /** The items `keep` accepts, in order. */
  function Keep<T>(xs: seq<T>, keep: T -> bool): (r: seq<T>)
    ensures forall i :: 0 <= i < |r| ==> r[i] in xs && keep(r[i])
    ensures forall t :: t in xs && keep(t) ==> t in r
    ensures |r| <= |xs|
    decreases |xs|
  {
    if xs == [] then []
    else
      var rest := Keep(xs[..|xs| - 1], keep);
      var last := xs[|xs| - 1];
      assert xs == xs[..|xs| - 1] + [last];
      rest + (if keep(last) then [last] else [])
  }

  /** Keeping what every item satisfies keeps the whole list. */
  lemma {:induction false} KeepAll<T>(xs: seq<T>, keep: T -> bool)
    requires forall i :: 0 <= i < |xs| ==> keep(xs[i])
    ensures Keep(xs, keep) == xs
    decreases |xs|
  {
    if xs != [] {
      var n := |xs|;
      KeepAll(xs[..n - 1], keep);
      assert xs[..n - 1] + [xs[n - 1]] == xs;
    }
  }

  /** A document type whose lower-cased form is not an unsafe extension. */
  predicate IsSafeType(t: string) { Lower(t) !in UNSAFE_EXTENSIONS }

  /** The document types whose lower-cased form is not an unsafe extension, in their configured order. */
  function SafeTypes(types: seq<string>): (r: seq<string>)
    ensures forall i :: 0 <= i < |r| ==> r[i] in types && Lower(r[i]) !in UNSAFE_EXTENSIONS
    ensures forall t :: t in types && Lower(t) !in UNSAFE_EXTENSIONS ==> t in r
    ensures |r| <= |types|
  {
    var r := Keep(types, IsSafeType);
    assert forall i :: 0 <= i < |r| ==> IsSafeType(r[i]);
    r
  }

  /** One entry of `sources`: a mapping with a non-empty http or https `url`. */
  function ParseSource(item: Json): (r: Result<Source, InitError>)
    ensures r.Success? ==> IsCrawlableSource(r.value.url)
    ensures r.Success? ==> item.JObj? && Lookup(item.fields, "url", JStr("")) == JStr(r.value.url)
  {
    match item
    case JObj(fields) =>
      var url := Lookup(fields, "url", JStr(""));
      if !Truthy(url) then Failure(CrawlerError(EmptySourceUrl))
      else if !url.JStr? then Failure(Uncaught("AttributeError"))
      else if ParseUrl(url.s).None? then Failure(CrawlerError(InvalidSourceUrl))
      else if !IsWebScheme(ParseUrl(url.s).value.scheme) then Failure(CrawlerError(BadSourceScheme))
      else Success(Source(Lookup(fields, "name", JStr("unknown")), url.s, Lookup(fields, "selectors", JObj(map[]))))
    case _ => Failure(Uncaught("AttributeError"))
  }

  /** The sources in order, or the error of the first entry that fails. */
  function ParseSourceItems(items: seq<Json>): (r: Result<seq<Source>, InitError>)
    ensures r.Success? ==> |r.value| == |items| && forall i :: 0 <= i < |items| ==> ParseSource(items[i]) == Success(r.value[i])
    decreases |items|
  {
    if items == [] then Success([])
    else match ParseSource(items[0])
      case Failure(e) => Failure(e)
      case Success(first) =>
        match ParseSourceItems(items[1..])
        case Failure(e) => Failure(e)
        case Success(rest) => Success([first] + rest)
  }

  /** A refusal comes from the first source entry that fails, and every entry before it passes. */
  lemma {:induction false} ParseSourceItemsFirstFailure(items: seq<Json>)
    ensures ParseSourceItems(items).Failure? ==>
      exists i :: 0 <= i < |items| && ParseSource(items[i]) == Failure(ParseSourceItems(items).error)
        && forall j :: 0 <= j < i ==> ParseSource(items[j]).Success?
    decreases |items|
  {
    if items != [] && ParseSource(items[0]).Success? && ParseSourceItems(items[1..]).Failure? {
      ParseSourceItemsFirstFailure(items[1..]);
      var e := ParseSourceItems(items[1..]).error;
      var i :| 0 <= i < |items[1..]| && ParseSource(items[1..][i]) == Failure(e)
               && forall j :: 0 <= j < i ==> ParseSource(items[1..][j]).Success?;
      assert ParseSource(items[i + 1]) == Failure(e);
      forall j | 0 <= j < i + 1 ensures ParseSource(items[j]).Success? {
        if j > 0 { assert items[j] == items[1..][j - 1]; }
      }
    }
  }

  /** `_validate_crawler_config`'s walk over `sources`: falsy means none; a non-list is not a list of mappings. */
  function ParseSources(v: Json): (r: Result<seq<Source>, InitError>)
    ensures r.Success? ==> r.value != [] && forall i :: 0 <= i < |r.value| ==> IsCrawlableSource(r.value[i].url)
  {
    if !Truthy(v) then Failure(CrawlerError(NoSources))
    else match v
      case JArr(items) => ParseSourceItems(items)
      case JStr(_) => Failure(Uncaught("AttributeError"))
      case JObj(_) => Failure(Uncaught("AttributeError"))
      case _ => Failure(Uncaught("TypeError"))
  }

  function Max(a: real, b: real): real { if a < b then b else a }

  function Min(a: int, b: int): int { if a < b then a else b }

  /**
   * `LegalCrawler(config)`: the headers, the delay raised to at least half a
   * second, pages capped at 1000, depth capped at 5, and the safe document
   * types; then the sources, the page count and the document types are
   * checked, in that order. The check that the delay is at least half a second
   * cannot fail after the clamp, so it is not modelled as a branch.
   */
  function Init(c: Config): (r: Result<Settings, InitError>)
    ensures r.Success? ==> ValidSettings(r.value)
    ensures r.Success? ==> Headers(c) == Success(r.value.headers)
    ensures r.Success? ==> (RequestDelay(c).Success?
      && r.value.requestDelay == Max(RequestDelay(c).value, MIN_REQUEST_DELAY))
    ensures r.Success? ==> MaxPages(c).Success? && r.value.maxPages == Min(MaxPages(c).value, MAX_PAGES_CAP)
    ensures r.Success? ==> MaxDepth(c).Success? && r.value.maxDepth == Min(MaxDepth(c).value, MAX_DEPTH_CAP)
    ensures r.Success? ==> (ConfiguredTypes(DocumentTypes(c)).Success?
      && r.value.documentTypes == SafeTypes(ConfiguredTypes(DocumentTypes(c)).value))
  {
    var headers :- Numeric(Headers(c));
    var delay :- Numeric(RequestDelay(c));
    var pages :- Numeric(MaxPages(c));
    var depth :- Numeric(MaxDepth(c));
    var configured :- ConfiguredTypes(DocumentTypes(c));
    var types := SafeTypes(configured);
    var sources :- ParseSources(Sources(c));
    if Min(pages, MAX_PAGES_CAP) <= 0 then Failure(CrawlerError(NonPositiveMaxPages))
    else if types == [] then Failure(CrawlerError(NoDocumentTypes))
    else
      assert forall i :: 0 <= i < |types| ==> Lower(types[i]) !in UNSAFE_EXTENSIONS;
      Success(Settings(headers, Max(delay, MIN_REQUEST_DELAY), Min(pages, MAX_PAGES_CAP),
                       Min(depth, MAX_DEPTH_CAP), types, sources))
  }

  /** The refusals: no sources, a page limit that is not positive, and only unsafe document types. */
  lemma InitRefusals(c: Config)
    requires Headers(c).Success? && RequestDelay(c).Success? && MaxPages(c).Success? && MaxDepth(c).Success?
    requires ConfiguredTypes(DocumentTypes(c)).Success?
    ensures !Truthy(Sources(c)) ==> Init(c) == Failure(CrawlerError(NoSources))
    ensures ParseSources(Sources(c)).Success? && MaxPages(c).value <= 0 ==>
      Init(c) == Failure(CrawlerError(NonPositiveMaxPages))
    ensures (&& ParseSources(Sources(c)).Success? && MaxPages(c).value > 0
             && (forall t :: t in ConfiguredTypes(DocumentTypes(c)).value ==> Lower(t) in UNSAFE_EXTENSIONS)) ==>
      Init(c) == Failure(CrawlerError(NoDocumentTypes))
  {
    var types := SafeTypes(ConfiguredTypes(DocumentTypes(c)).value);
    if |types| > 0 {
      assert types[0] in ConfiguredTypes(DocumentTypes(c)).value;
    }
  }

  /** A source entry whose URL is empty, or is not http or https, refuses the configuration. */
  lemma BadSourceRefused(c: Config, items: seq<Json>, i: nat)
    requires Headers(c).Success? && RequestDelay(c).Success? && MaxPages(c).Success? && MaxDepth(c).Success?
    requires ConfiguredTypes(DocumentTypes(c)).Success?
    requires Sources(c) == JArr(items) && i < |items|
    requires items[i].JObj?
    requires var url := Lookup(items[i].fields, "url", JStr(""));
      url == JStr("") || (url.JStr? && ParseUrl(url.s).Some? && !IsWebScheme(ParseUrl(url.s).value.scheme))
    ensures Init(c).Failure?
  {
    assert ParseSource(items[i]).Failure?;
  }

  /** The default document types are read as listed. */
  lemma DefaultTypesRead()
    ensures ConfiguredTypes(StrArray(DEFAULT_DOCUMENT_TYPES)) == Success(DEFAULT_DOCUMENT_TYPES)
  {
    var defaults := DEFAULT_DOCUMENT_TYPES;
    var listed := StrArray(defaults).items;
    assert forall i :: 0 <= i < |listed| ==> listed[i] == JStr(defaults[i]);
    assert StringItems(listed).Some?;
    assert StringItems(listed).value == defaults;
  }

  lemma LowerFixed(t: string)
    requires forall i :: 0 <= i < |t| ==> IsLower(t[i])
    ensures Lower(t) == t
  {
  }

  /** Filtering keeps a list none of whose types is unsafe. */
  lemma SafeTypesKeepsSafe(types: seq<string>)
    requires forall i :: 0 <= i < |types| ==> Lower(types[i]) !in UNSAFE_EXTENSIONS
    ensures SafeTypes(types) == types
  {
    assert forall i :: 0 <= i < |types| ==> IsSafeType(types[i]);
    KeepAll(types, IsSafeType);
  }

  /** None of the default document types is an unsafe extension. */
  lemma DefaultTypesSafe()
    ensures SafeTypes(DEFAULT_DOCUMENT_TYPES) == DEFAULT_DOCUMENT_TYPES
  {
    var defaults := DEFAULT_DOCUMENT_TYPES;
    forall i | 0 <= i < |defaults| ensures Lower(defaults[i]) !in UNSAFE_EXTENSIONS {
      LowerFixed(defaults[i]);
    }
    SafeTypesKeepsSafe(defaults);
  }

  /** A single mapping naming only an http or https URL is read with the default name and selectors. */
  lemma SingleSourceRead(c: Config, url: string)
    requires c.data == map["sources" := JArr([JObj(map["url" := JStr(url)])])]
    requires IsCrawlableSource(url)
    ensures ParseSources(Sources(c)) == Success([Source(JStr("unknown"), url, JObj(map[]))])
  {
    var items := [JObj(map["url" := JStr(url)])];
    assert items[1..] == [];
    assert Sources(c) == JArr(items);
    assert "name" !in items[0].fields && "selectors" !in items[0].fields;
    assert ParseSource(items[0]) == Success(Source(JStr("unknown"), url, JObj(map[])));
    assert ParseSourceItems(items[1..]) == Success([]);
    var one := [Source(JStr("unknown"), url, JObj(map[]))];
    assert one + [] == one;
  }

  /** With nothing configured but one http source, the crawler gets the documented defaults. */
  lemma DefaultSettings(c: Config, url: string)
    requires c.data == map["sources" := JArr([JObj(map["url" := JStr(url)])])]
    requires IsCrawlableSource(url)
    ensures Init(c).Success?
    ensures Init(c).value.requestDelay == 1.0
    ensures Init(c).value.maxPages == 100
    ensures Init(c).value.maxDepth == 3
    ensures Init(c).value.documentTypes == DEFAULT_DOCUMENT_TYPES
    ensures Init(c).value.sources == [Source(JStr("unknown"), url, JObj(map[]))]
  {
    SingleSourceRead(c, url);
    OnlySourcesConfigured(c);
    DefaultsRead(c, [Source(JStr("unknown"), url, JObj(map[]))]);
  }

  /** Default settings and read sources give the default crawler. */
  lemma DefaultsRead(c: Config, sources: seq<Source>)
    requires Headers(c).Success? && RequestDelay(c) == Success(1.0) && MaxPages(c) == Success(100)
    requires MaxDepth(c) == Success(3) && DocumentTypes(c) == StrArray(DEFAULT_DOCUMENT_TYPES)
    requires ParseSources(Sources(c)) == Success(sources)
    ensures Init(c) == Success(Settings(Headers(c).value, 1.0, 100, 3, DEFAULT_DOCUMENT_TYPES, sources))
  {
    DefaultTypesRead();
    DefaultTypesSafe();
    assert DEFAULT_DOCUMENT_TYPES != [];
    InitSucceeds(c, 1.0, 100, 3, DEFAULT_DOCUMENT_TYPES, sources);
  }

  /** When every setting is read and the checks pass, the crawler holds the clamped settings. */
  lemma InitSucceeds(c: Config, delay: real, pages: int, depth: int, configured: seq<string>, sources: seq<Source>)
    requires Headers(c).Success? && RequestDelay(c) == Success(delay)
    requires MaxPages(c) == Success(pages) && MaxDepth(c) == Success(depth)
    requires ConfiguredTypes(DocumentTypes(c)) == Success(configured) && ParseSources(Sources(c)) == Success(sources)
    requires Min(pages, MAX_PAGES_CAP) > 0 && SafeTypes(configured) != []
    ensures Init(c) == Success(Settings(Headers(c).value, Max(delay, MIN_REQUEST_DELAY), Min(pages, MAX_PAGES_CAP),
                                        Min(depth, MAX_DEPTH_CAP), SafeTypes(configured), sources))
  {
  }

  /** A configuration that sets only `sources` reads every other setting at its default. */
  lemma OnlySourcesConfigured(c: Config)
    requires c.data.Keys == {"sources"}
    ensures Headers(c).Success?
    ensures RequestDelay(c) == Success(1.0)
    ensures MaxPages(c) == Success(100)
    ensures MaxDepth(c) == Success(3)
    ensures DocumentTypes(c) == StrArray(DEFAULT_DOCUMENT_TYPES)
  {
  }
}
