/**
 * The source-specific schemas for NYSCEF court records and BlackBookOnline
 * pages, and the classifier that picks one of them for a URL.
 */
module EnhancedSchemas {
  import opened Wrappers
  import opened Text
  import opened Schemas

  /** NYSCEF case data. */
  function NyscefCaseSchema(): (s: Schema)
    ensures WellFormed(s) && |s.required| == 5
  {
    Schema(map[
        "index_number" := StringProp, "case_name" := StringProp, "court" := StringProp,
        "county" := StringProp, "case_type" := StringProp, "filing_date" := StringProp,
        "status" := StringProp, "parties" := ObjectArray(["name", "role", "attorney"]),
        "judge" := StringProp,
        "documents" := ObjectArray(["number", "date_filed", "description", "document_type"]),
        "appearances" := ObjectArray(["date", "purpose", "outcome"])],
      ["index_number", "case_name", "court", "county", "filing_date"])
  }

  /** Judgment and lien filings. */
  function JudgmentLienSchema(): (s: Schema)
    ensures WellFormed(s) && |s.required| == 5
  {
    Schema(map[
        "document_type" := StringProp, "file_number" := StringProp, "filing_date" := StringProp,
        "filing_location" := StringProp, "creditor" := StringProp, "debtor" := StringProp,
        "amount" := StringProp, "status" := StringProp, "satisfaction_date" := StringProp,
        "expiration_date" := StringProp, "property_description" := StringProp,
        "additional_info" := StringProp],
      ["document_type", "file_number", "filing_date", "creditor", "debtor"])
  }

  /** Secretary-of-State business entity records. */
  function SecretaryOfStateSchema(): (s: Schema)
    ensures WellFormed(s) && |s.required| == 5
  {
    Schema(map[
        "entity_name" := StringProp, "entity_type" := StringProp, "entity_number" := StringProp,
        "state" := StringProp, "status" := StringProp, "formation_date" := StringProp,
        "good_standing" := BooleanProp, "registered_agent" := ObjectProp(["name", "address"]),
        "principals" := ObjectArray(["name", "title"]), "mailing_address" := StringProp,
        "physical_address" := StringProp, "last_report_filed" := StringProp,
        "next_report_due" := StringProp],
      ["entity_name", "entity_type", "entity_number", "state", "status"])
  }

  datatype Source = NyscefCase | SecretaryOfState | JudgmentLien

  function SchemaOf(k: Source): (s: Schema)
    ensures WellFormed(s)
  {
    match k
    case NyscefCase => NyscefCaseSchema()
    case SecretaryOfState => SecretaryOfStateSchema()
    case JudgmentLien => JudgmentLienSchema()
  }

  /** The kind of page a URL points at, tested in the order of `get_schema_for_url`; None when no schema applies. */
  function SourceForUrl(url: Option<string>): Option<Source>
  {
    if url.None? || url.value == "" then None
    else
      var low := Lower(url.value);
      if Contains(low, "nyscef") || Contains(low, "courts.state.ny.us") then Some(NyscefCase)
      else if Contains(low, "blackbookonline") && Contains(low, "secretary") then Some(SecretaryOfState)
      else if Contains(low, "blackbookonline")
           && (Contains(low, "ucc") || Contains(low, "county") || Contains(low, "public-records")) then Some(JudgmentLien)
      else None
  }

  /** `get_schema_for_url` */
  function GetSchemaForUrl(url: Option<string>): (r: Option<Schema>)
    ensures r.Some? ==> WellFormed(r.value)
  {
    var k := SourceForUrl(url);
    if k.Some? then Some(SchemaOf(k.value)) else None
  }

  /** The three schemas are told apart by their required lists. */
  lemma SchemasDistinct()
    ensures NyscefCaseSchema() != SecretaryOfStateSchema()
    ensures NyscefCaseSchema() != JudgmentLienSchema()
    ensures SecretaryOfStateSchema() != JudgmentLienSchema()
  {
    assert NyscefCaseSchema().required[0] == "index_number";
    assert SecretaryOfStateSchema().required[0] == "entity_name";
    assert JudgmentLienSchema().required[0] == "document_type";
    assert "index_number"[0] != "entity_name"[0];
    assert "index_number"[0] != "document_type"[0];
    assert "entity_name"[0] != "document_type"[0];
  }

  /**
   * The classifier's decision table: an empty or absent URL has no schema;
   * a NYSCEF or New York courts URL gets the case schema whatever else it
   * contains; a BlackBookOnline Secretary-of-State page gets the entity
   * schema; a BlackBookOnline UCC, county or public-records page gets the
   * judgment-lien schema; nothing else has a schema.
   */
  lemma GetSchemaForUrlCases(url: Option<string>)
    ensures url.None? || url.value == "" ==> GetSchemaForUrl(url) == None
    ensures url.Some? && url.value != "" ==>
      var low := Lower(url.value);
      && (GetSchemaForUrl(url) == Some(NyscefCaseSchema())
          <==> Contains(low, "nyscef") || Contains(low, "courts.state.ny.us"))
      && (GetSchemaForUrl(url) == Some(SecretaryOfStateSchema())
          <==> !Contains(low, "nyscef") && !Contains(low, "courts.state.ny.us")
               && Contains(low, "blackbookonline") && Contains(low, "secretary"))
      && (GetSchemaForUrl(url) == Some(JudgmentLienSchema())
          <==> !Contains(low, "nyscef") && !Contains(low, "courts.state.ny.us")
               && Contains(low, "blackbookonline") && !Contains(low, "secretary")
               && (Contains(low, "ucc") || Contains(low, "county") || Contains(low, "public-records")))
      && (GetSchemaForUrl(url) == None
          <==> !Contains(low, "nyscef") && !Contains(low, "courts.state.ny.us")
               && (!Contains(low, "blackbookonline")
                   || (!Contains(low, "secretary") && !Contains(low, "ucc") && !Contains(low, "county")
                       && !Contains(low, "public-records"))))
  {
    SchemaForSource(url, NyscefCase);
    SchemaForSource(url, SecretaryOfState);
    SchemaForSource(url, JudgmentLien);
  }

  /** A URL gets the schema of a kind of page exactly when it is classified as that kind. */
  lemma SchemaForSource(url: Option<string>, k: Source)
    ensures GetSchemaForUrl(url) == Some(SchemaOf(k)) <==> SourceForUrl(url) == Some(k)
    ensures GetSchemaForUrl(url) == None <==> SourceForUrl(url) == None
  {
    SchemasDistinct();
  }

  /** The match ignores letter case: a URL and its upper- or lowercased form get the same schema. */
  lemma GetSchemaForUrlIgnoresCase(url: string)
    ensures GetSchemaForUrl(Some(Upper(url))) == GetSchemaForUrl(Some(url))
    ensures GetSchemaForUrl(Some(Lower(url))) == GetSchemaForUrl(Some(url))
  {
    LowerIdempotent(url);
    assert Upper(url) == "" <==> url == "";
    assert Lower(url) == "" <==> url == "";
  }
}
