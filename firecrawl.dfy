/**
 * The Firecrawl client's argument handling and its generic legal schemas.
 * The service itself is not modelled: each client method is reduced to the
 * call it makes, given as a value.
 */
module Firecrawl {
  import opened Wrappers
  import opened Text
  import opened JsonValue
  import opened Schemas

  // ---------------------------------------------------------------- schemas

  /** Business registration records. */
  function BusinessRegistrationSchema(): (s: Schema)
    ensures WellFormed(s) && |s.required| == 4
  {
    Schema(map[
        "entity_name" := StringProp, "entity_type" := StringProp, "filing_number" := StringProp,
        "status" := StringProp, "formation_date" := StringProp, "jurisdiction" := StringProp,
        "registered_agent" := ObjectProp(["name", "address"]),
        "principals" := ObjectArray(["name", "title"])],
      ["entity_name", "entity_type", "filing_number", "status"])
  }

  /** Court case records. */
  function CourtCaseSchema(): (s: Schema)
    ensures WellFormed(s) && |s.required| == 4
  {
    Schema(map[
        "case_number" := StringProp, "court" := StringProp, "filing_date" := StringProp,
        "parties" := ObjectArray(["name", "role"]), "judges" := StringArray,
        "status" := StringProp, "disposition" := StringProp],
      ["case_number", "court", "filing_date", "parties"])
  }

  /** Judgment records. */
  function JudgmentSchema(): (s: Schema)
    ensures WellFormed(s) && |s.required| == 5
  {
    Schema(map[
        "case_number" := StringProp, "judgment_date" := StringProp, "judgment_type" := StringProp,
        "plaintiff" := StringProp, "defendant" := StringProp, "amount" := StringProp,
        "interest_rate" := StringProp, "status" := StringProp, "filing_location" := StringProp],
      ["case_number", "judgment_date", "plaintiff", "defendant", "amount"])
  }

  const BUSINESS_TERMS: seq<string> := ["sos.", "secretary", "business", "corporation", "entity"]
  const COURT_TERMS: seq<string> := ["court", "judiciary", "docket", "pacer"]
  const JUDGMENT_TERMS: seq<string> := ["judgment", "lien", "docket", "nyscef"]

  datatype Kind = BusinessRegistration | CourtCase | Judgment

  function SchemaOf(k: Kind): (s: Schema)
    ensures WellFormed(s)
  {
    match k
    case BusinessRegistration => BusinessRegistrationSchema()
    case CourtCase => CourtCaseSchema()
    case Judgment => JudgmentSchema()
  }

  /** The kind of records a URL holds, by the first term list that matches. */
  function KindForUrl(url: string): Option<Kind>
  {
    var low := Lower(url);
    if ContainsAny(low, BUSINESS_TERMS) then Some(BusinessRegistration)
    else if ContainsAny(low, COURT_TERMS) then Some(CourtCase)
    else if ContainsAny(low, JUDGMENT_TERMS) then Some(Judgment)
    else None
  }

  /** `LegalSchemas.get_schema_for_url` */
  function GetSchemaForUrl(url: string): (r: Option<Schema>)
    ensures r.Some? ==> WellFormed(r.value)
  {
    var k := KindForUrl(url);
    if k.Some? then Some(SchemaOf(k.value)) else None
  }

  lemma SchemasDistinct()
    ensures BusinessRegistrationSchema() != CourtCaseSchema()
    ensures BusinessRegistrationSchema() != JudgmentSchema()
    ensures CourtCaseSchema() != JudgmentSchema()
  {
    assert |BusinessRegistrationSchema().required| != |JudgmentSchema().required|;
    assert |CourtCaseSchema().required| != |JudgmentSchema().required|;
    assert BusinessRegistrationSchema().required[0] == "entity_name";
    assert CourtCaseSchema().required[0] == "case_number";
    assert "entity_name"[0] != "case_number"[0];
  }

  /**
   * The business terms are tested first, then the court terms, then the
   * judgment terms; a URL matching none has no schema.
   */
  lemma GetSchemaForUrlCases(url: string)
    ensures var low := Lower(url);
      && (GetSchemaForUrl(url) == Some(BusinessRegistrationSchema()) <==> ContainsAny(low, BUSINESS_TERMS))
      && (GetSchemaForUrl(url) == Some(CourtCaseSchema())
          <==> !ContainsAny(low, BUSINESS_TERMS) && ContainsAny(low, COURT_TERMS))
      && (GetSchemaForUrl(url) == Some(JudgmentSchema())
          <==> !ContainsAny(low, BUSINESS_TERMS) && !ContainsAny(low, COURT_TERMS) && ContainsAny(low, JUDGMENT_TERMS))
      && (GetSchemaForUrl(url) == None
          <==> !ContainsAny(low, BUSINESS_TERMS) && !ContainsAny(low, COURT_TERMS) && !ContainsAny(low, JUDGMENT_TERMS))
  {
    SchemaForKind(url, BusinessRegistration);
    SchemaForKind(url, CourtCase);
    SchemaForKind(url, Judgment);
  }

  /** A URL gets the schema of a kind exactly when it is classified as that kind. */
  lemma SchemaForKind(url: string, k: Kind)
    ensures GetSchemaForUrl(url) == Some(SchemaOf(k)) <==> KindForUrl(url) == Some(k)
    ensures GetSchemaForUrl(url) == None <==> KindForUrl(url) == None
  {
    SchemasDistinct();
  }

  /**
   * `docket` is a court term as well as a judgment term, and the court terms
   * are tried first, so a docket URL never gets the judgment schema.
   */
  lemma DocketNeverJudgment(url: string)
    requires Contains(Lower(url), "docket")
    ensures GetSchemaForUrl(url) != Some(JudgmentSchema())
    ensures GetSchemaForUrl(url).Some?
  {
    assert COURT_TERMS[2] == "docket";
    SchemasDistinct();
  }

  // ---------------------------------------------------------------- client calls

  /** A URL argument given either as one string or as a list. */
  datatype UrlArg = OneUrl(url: string) | UrlList(urls: seq<string>)

  /** `bool(s)` for an optional string: present and non-empty. */
  predicate Given(s: Option<string>) { s.Some? && s.value != "" }

  /** `bool(schema)` */
  predicate GivenSchema(s: Option<Json>) { s.Some? && Truthy(s.value) }

  /** The arguments of the service's extract call. */
  datatype ExtractCall = ExtractCall(urls: seq<string>, schema: Option<Json>, prompt: Option<string>)

  /**
   * `extract_structured_data` up to the service call: a single URL becomes a
   * one-element list, and without a schema and a prompt the call fails
   * before the service is reached.
   */
  function ExtractStructuredData(urls: UrlArg, schema: Option<Json>, prompt: Option<string>): (r: Result<ExtractCall, string>)
    ensures r.Failure? <==> !GivenSchema(schema) && !Given(prompt)
    ensures r.Success? ==> r.value.schema == schema && r.value.prompt == prompt
    ensures r.Success? && urls.OneUrl? ==> r.value.urls == [urls.url]
    ensures r.Success? && urls.UrlList? ==> r.value.urls == urls.urls
  {
    var list := if urls.OneUrl? then [urls.url] else urls.urls;
    if !GivenSchema(schema) && !Given(prompt) then Failure("Either schema or prompt must be provided")
    else Success(ExtractCall(list, schema, prompt))
  }

  /** The arguments of the service's scrape call; `jsonOptions` holds the schema when attached. */
  datatype ScrapeCall = ScrapeCall(url: string, formats: seq<string>, jsonOptions: Option<Json>)

  /** `scrape_url` up to the service call: json options only with a schema and the `json` format. */
  function ScrapeUrl(url: string, formats: seq<string>, jsonSchema: Option<Json>): (r: ScrapeCall)
    ensures r.url == url && r.formats == formats
    ensures r.jsonOptions.Some? <==> GivenSchema(jsonSchema) && "json" in formats
    ensures r.jsonOptions.Some? ==> r.jsonOptions == jsonSchema
  {
    if GivenSchema(jsonSchema) && "json" in formats then ScrapeCall(url, formats, jsonSchema)
    else ScrapeCall(url, formats, None)
  }

  /** The `crawl_params` dictionary of `crawl_url`. */
  function CrawlParams(limit: int, maxDepth: int, formats: seq<string>, excludes: seq<string>, includes: seq<string>,
                       jsonSchema: Option<Json>): (r: Json)
    ensures r.JObj? && r.fields.Keys == {"limit", "maxDepth", "crawlerOptions", "scrapeOptions"}
    ensures r.fields["limit"] == JInt(limit) && r.fields["maxDepth"] == JInt(maxDepth)
    ensures r.fields["crawlerOptions"] == JObj(map["excludes" := StrArray(excludes), "includes" := StrArray(includes)])
    ensures var so := r.fields["scrapeOptions"];
      && so.JObj? && "formats" in so.fields && so.fields["formats"] == StrArray(formats)
      && ("jsonOptions" in so.fields <==> GivenSchema(jsonSchema) && "json" in formats)
      && ("jsonOptions" in so.fields ==> so.fields["jsonOptions"] == JObj(map["schema" := jsonSchema.value]))
  {
    var scrape := map["formats" := StrArray(formats)];
    var scrape' := if GivenSchema(jsonSchema) && "json" in formats
                   then scrape["jsonOptions" := JObj(map["schema" := jsonSchema.value])]
                   else scrape;
    JObj(map["limit" := JInt(limit), "maxDepth" := JInt(maxDepth),
             "crawlerOptions" := JObj(map["excludes" := StrArray(excludes), "includes" := StrArray(includes)]),
             "scrapeOptions" := JObj(scrape')])
  }
}
