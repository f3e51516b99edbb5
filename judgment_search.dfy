/**
 * The enhanced judgment and lien search tool: the pages searched, the record
 * kind, schema and search URL chosen for each, the query list of the
 * standard search, and the console summary of the generated report.
 */
module JudgmentSearch {
  import opened Wrappers
  import opened Text
  import opened JsonValue
  import opened Schemas
  import EnhancedSchemas
  import opened Firecrawl
  import opened ResearchTools

  const NYSCEF := "https://iapps.courts.state.ny.us/nyscef/CaseSearch?TAB=name"
  const CORPORATIONS := "https://www.blackbookonline.info/USA-Corporations.aspx"
  const NATIONWIDE_COUNTIES := "https://www.blackbookonline.info/USA-County-Public-Records.aspx"
  const UCC_FILINGS := "https://www.blackbookonline.info/USA-UCC-Filings.aspx"

  // ---------------------------------------------------------------- targets

  /** The NYSCEF search is a target without a state, or for a state that uppercases to NY. */
  predicate NyscefTarget(state: Option<string>) { !Given(state) || Upper(state.value) == "NY" }

  function CountiesPage(stateAbbr: string): string
  {
    "https://www.blackbookonline.info/" + stateAbbr + "-Counties.aspx"
  }

  /** The target pages of `search_with_firecrawl`. */
  function Targets(state: Option<string>): seq<string>
  {
    var county := if Given(state) then CountiesPage(Upper(state.value)) else NATIONWIDE_COUNTIES;
    (if NyscefTarget(state) then [NYSCEF] else []) + [CORPORATIONS, county, UCC_FILINGS]
  }

  /**
   * NYSCEF comes first exactly when it is a target; then always the
   * corporations search, the county records (of the uppercased state, or
   * nationwide without one), and the UCC filings last.
   */
  lemma TargetsShape(state: Option<string>)
    ensures var t := Targets(state); var n := |t|;
      && (n == 4 <==> NyscefTarget(state)) && (n == 3 <==> !NyscefTarget(state))
      && (NyscefTarget(state) ==> t[0] == NYSCEF)
      && t[n - 3] == CORPORATIONS
      && t[n - 2] == (if Given(state) then CountiesPage(Upper(state.value)) else NATIONWIDE_COUNTIES)
      && t[n - 1] == UCC_FILINGS
  {
  }

  // ---------------------------------------------------------------- per-target choice

  /** The kind of records a target holds; it decides the schema and the prompt. */
  datatype Records = CourtCases | BusinessEntities | JudgmentLiens

  predicate IsCourtUrl(url: string)
  {
    Contains(Lower(url), "nyscef") || Contains(Lower(url), "courts.state.ny.us")
  }

  predicate IsBusinessUrl(url: string)
  {
    Contains(Lower(url), "corporations") || Contains(Lower(url), "secretary")
  }

  /** The records of a target: the court test first, then the business test, else liens. */
  function RecordsFor(url: string): (k: Records)
    ensures k == CourtCases <==> IsCourtUrl(url)
    ensures k == BusinessEntities <==> !IsCourtUrl(url) && IsBusinessUrl(url)
    ensures k == JudgmentLiens <==> !IsCourtUrl(url) && !IsBusinessUrl(url)
  {
    if IsCourtUrl(url) then CourtCases
    else if IsBusinessUrl(url) then BusinessEntities
    else JudgmentLiens
  }

  function SchemaFor(k: Records): (s: Schema)
    ensures WellFormed(s)
  {
    match k
    case CourtCases => EnhancedSchemas.NyscefCaseSchema()
    case BusinessEntities => EnhancedSchemas.SecretaryOfStateSchema()
    case JudgmentLiens => EnhancedSchemas.JudgmentLienSchema()
  }

  /** The URL searched directly: a court target gets the party name appended, others are searched as they are. */
  function SearchUrl(url: string, name: string): string
  {
    if IsCourtUrl(url) then url + "&PartyName=" + SearchParam(name) else url
  }

  /** A court search URL extends the target with the party name, spaces turned into `+`. */
  lemma SearchUrlShape(url: string, name: string)
    ensures StartsWith(SearchUrl(url, name), url)
    ensures IsCourtUrl(url) ==> ' ' !in SearchUrl(url, name)[|url|..]
    ensures !IsCourtUrl(url) ==> SearchUrl(url, name) == url
  {
    var r := SearchUrl(url, name);
    if IsCourtUrl(url) {
      assert r == url + ("&PartyName=" + SearchParam(name));
      assert r[..|url|] == url;
      assert r[|url|..] == "&PartyName=" + SearchParam(name);
    }
  }

  /**
   * The calls made for one target, with the schema and the prompt of its
   * records; only a court target is extracted directly when mapping finds no
   * links.
   */
  function CallsFor(url: string, mapped: Option<seq<string>>, name: string, preferPrompts: bool,
                    prompt: Records -> string): (r: seq<Call>)
    ensures |r| <= 5
  {
    var k := RecordsFor(url);
    var direct := if k == CourtCases then Some(SearchUrl(url, name)) else None;
    TargetCalls(url, mapped, direct, preferPrompts, ToJson(SchemaFor(k)), prompt(k))
  }

  /**
   * Without mapped links, a court target gets one schema extraction of its
   * party-name search URL, and every other target one scrape of the page in
   * markdown and JSON with its records' schema.
   */
  lemma CallsForNoLinks(url: string, name: string, preferPrompts: bool, prompt: Records -> string)
    ensures var r := CallsFor(url, Some([]), name, preferPrompts, prompt);
      var schema := ToJson(SchemaFor(RecordsFor(url)));
      && (IsCourtUrl(url) ==> r == [Extract(ExtractCall([SearchUrl(url, name)], Some(schema), None))])
      && (!IsCourtUrl(url) ==> r == [Scrape(ScrapeCall(url, ["markdown", "json"], Some(schema)))])
  {
  }

  // ---------------------------------------------------------------- standard-search queries

  /** `entity_desc` of the queries, from `--type`. */
  function EntityDesc(kind: string): string
  {
    if kind == "business" then "company" else if kind == "person" then "individual" else "entity"
  }

  /** One query of the list: the name, the query words, and the location and county filters. */
  function FilteredQuery(name: string, words: string, locationFilter: string, countyFilter: string): string
  {
    name + words + locationFilter + " " + countyFilter
  }

  /** The NYSCEF query is asked for exactly `NY` or without a state. */
  predicate NyscefQuery(state: Option<string>) { state == Some("NY") || !Given(state) }

  /** The words of the four judgment queries, for an entity description. */
  function QueryWords(desc: string): seq<string>
  {
    [" judgments ", " liens ", " civil suits ", " legal claims against " + desc + " "]
  }

  function LocationFilter(state: Option<string>): string { if Given(state) then "in " + state.value else "" }

  function CountyFilter(county: Option<string>): string { if Given(county) then "in " + county.value + " County" else "" }

  /** The query list before the blank ones are dropped: the four judgment queries, then the NYSCEF query or a blank. */
  function RawQueries(name: string, kind: string, state: Option<string>, county: Option<string>): seq<string>
  {
    var words := QueryWords(EntityDesc(kind));
    seq(4, i requires 0 <= i < 4 => FilteredQuery(name, words[i], LocationFilter(state), CountyFilter(county)))
      + [if NyscefQuery(state) then name + " NYSCEF case search" else ""]
  }

  /** `[clean(q) for q in qs if clean(q)]` */
  function KeepCleaned(qs: seq<string>, clean: string -> string): (r: seq<string>)
    ensures |r| <= |qs|
    ensures forall i :: 0 <= i < |r| ==> r[i] != ""
    ensures forall x :: x in r <==> exists i :: 0 <= i < |qs| && clean(qs[i]) != "" && x == clean(qs[i])
    decreases |qs|
  {
    if qs == [] then []
    else
      var n := |qs|;
      var front := KeepCleaned(qs[..n - 1], clean);
      assert forall i :: 0 <= i < n - 1 ==> qs[..n - 1][i] == qs[i];
      front + (if clean(qs[n - 1]) != "" then [clean(qs[n - 1])] else [])
  }

  /** When nothing cleans to blank, every entry is kept, cleaned and in order. */
  lemma {:induction false} KeepAllCleaned(qs: seq<string>, clean: string -> string)
    requires forall i :: 0 <= i < |qs| ==> clean(qs[i]) != ""
    ensures |KeepCleaned(qs, clean)| == |qs|
    ensures forall i :: 0 <= i < |qs| ==> KeepCleaned(qs, clean)[i] == clean(qs[i])
    decreases |qs|
  {
    if qs != [] {
      var n := |qs|;
      KeepAllCleaned(qs[..n - 1], clean);
      assert forall i :: 0 <= i < n - 1 ==> qs[..n - 1][i] == qs[i];
    }
  }

  /** An entry that cleans to blank at the end is dropped. */
  lemma DropBlankLast(qs: seq<string>, last: string, clean: string -> string)
    requires clean(last) == ""
    ensures KeepCleaned(qs + [last], clean) == KeepCleaned(qs, clean)
  {
    assert (qs + [last])[..|qs|] == qs;
  }

  /** A non-blank entry at the end is kept, cleaned. */
  lemma KeepLast(qs: seq<string>, last: string, clean: string -> string)
    requires clean(last) != ""
    ensures KeepCleaned(qs + [last], clean) == KeepCleaned(qs, clean) + [clean(last)]
  {
    assert (qs + [last])[..|qs|] == qs;
  }

  function Queries(name: string, kind: string, state: Option<string>, county: Option<string>): seq<string>
  {
    KeepCleaned(RawQueries(name, kind, state, county), Strip)
  }

  /** A text with a non-whitespace character is not blank once stripped. */
  lemma NotBlank(s: string, i: int)
    requires 0 <= i < |s| && !IsSpace(s[i])
    ensures Strip(s) != ""
  {
    StripEmptyIffBlank(s);
  }

  lemma FilteredQueryNotBlank(name: string, words: string, lf: string, cf: string)
    requires |words| >= 2 && !IsSpace(words[1])
    ensures Strip(FilteredQuery(name, words, lf, cf)) != ""
  {
    var q := FilteredQuery(name, words, lf, cf);
    assert q == name + (words + (lf + " " + cf));
    assert q[|name| + 1] == words[1];
    NotBlank(q, |name| + 1);
  }

  /**
   * None of the four judgment queries is ever dropped; the NYSCEF query is
   * the fifth exactly for `NY` or without a state, and every kept query is
   * the stripped raw query.
   */
  lemma QueriesShape(name: string, kind: string, state: Option<string>, county: Option<string>)
    ensures var raw := RawQueries(name, kind, state, county); var r := Queries(name, kind, state, county);
      && |r| == (if NyscefQuery(state) then 5 else 4)
      && (forall i :: 0 <= i < |r| ==> r[i] == Strip(raw[i]))
  {
    var raw := RawQueries(name, kind, state, county);
    var four := raw[..4];
    JudgmentQueriesNotBlank(name, kind, state, county);
    assert raw == four + [raw[4]];
    NyscefQueryNotBlank(name);
    StripEmptyIffBlank("");
    KeepFour(four, raw[4], Strip);
  }

  /** Of four entries that never clean to blank and a fifth, all are kept but a blank fifth. */
  lemma KeepFour(four: seq<string>, last: string, clean: string -> string)
    requires |four| == 4 && forall i :: 0 <= i < 4 ==> clean(four[i]) != ""
    ensures var r := KeepCleaned(four + [last], clean);
      && |r| == (if clean(last) != "" then 5 else 4)
      && forall i :: 0 <= i < |r| ==> r[i] == clean((four + [last])[i])
  {
    KeepAllCleaned(four, clean);
    if clean(last) != "" {
      KeepLast(four, last, clean);
    } else {
      DropBlankLast(four, last, clean);
    }
  }

  /** The four judgment queries always hold a word. */
  lemma JudgmentQueriesNotBlank(name: string, kind: string, state: Option<string>, county: Option<string>)
    ensures var raw := RawQueries(name, kind, state, county);
      forall i :: 0 <= i < 4 ==> Strip(raw[..4][i]) != ""
  {
    var words := QueryWords(EntityDesc(kind));
    QueryWordsStart(EntityDesc(kind));
    var raw := RawQueries(name, kind, state, county);
    forall i | 0 <= i < 4 ensures Strip(raw[..4][i]) != "" {
      FilteredQueryNotBlank(name, words[i], LocationFilter(state), CountyFilter(county));
    }
  }

  /** Every query's words begin with a space and then a letter. */
  lemma QueryWordsStart(desc: string)
    ensures var w := QueryWords(desc);
      |w| == 4 && forall i :: 0 <= i < 4 ==> |w[i]| >= 2 && !IsSpace(w[i][1])
  {
    var w := QueryWords(desc);
    assert w[0][1] == 'j' && w[1][1] == 'l' && w[2][1] == 'c' && w[3][1] == 'l';
  }

  lemma NyscefQueryNotBlank(name: string)
    ensures Strip(name + " NYSCEF case search") != ""
  {
    assert " NYSCEF case search"[1] == 'N';
    WordsAfterName(name, " NYSCEF case search");
  }

  lemma WordsAfterName(name: string, words: string)
    requires |words| >= 2 && !IsSpace(words[1])
    ensures Strip(name + words) != ""
  {
    assert (name + words)[|name| + 1] == words[1];
    NotBlank(name + words, |name| + 1);
  }

  /**
   * The two NY tests disagree on case: for `--state ny` the NYSCEF page is a
   * target but the NYSCEF query is not asked.
   */
  lemma LowercaseNyQuirk(name: string, kind: string, county: Option<string>)
    ensures Targets(Some("ny"))[0] == NYSCEF
    ensures |Queries(name, kind, Some("ny"), county)| == 4
  {
    assert Upper("ny")[0] == 'N' && Upper("ny")[1] == 'Y';
    assert Upper("ny") == "NY";
    assert Some("ny") != Some("NY");
    QueriesShape(name, kind, Some("ny"), county);
  }

  // ---------------------------------------------------------------- console summary

  /** A line containing `Summary` opens the summary. */
  predicate MentionsSummary(line: string) { Contains(line, "Summary") }

  /** A line starting with `#`, `##` or `**` closes it. */
  predicate IsStopLine(line: string) { StartsWith(line, "#") || StartsWith(line, "##") || StartsWith(line, "**") }

  /** The lines up to (not including) the first `stop` line. */
  function UntilStop(lines: seq<string>, stop: string -> bool): seq<string>
    decreases |lines|
  {
    if lines == [] || stop(lines[0]) then [] else [lines[0]] + UntilStop(lines[1..], stop)
  }

  /** The lines after the first `start` line, up to the next `stop` line. */
  function AfterMarker(lines: seq<string>, start: string -> bool, stop: string -> bool): seq<string>
    decreases |lines|
  {
    if lines == [] then []
    else if start(lines[0]) then UntilStop(lines[1..], stop)
    else AfterMarker(lines[1..], start, stop)
  }

  function SummarySection(lines: seq<string>): seq<string>
  {
    AfterMarker(lines, MentionsSummary, IsStopLine)
  }

  /** The summary loop of `generate_judgment_summary`, with its `in_summary` flag. */
  method ExtractSummary(lines: seq<string>) returns (summaryLines: seq<string>)
    ensures summaryLines == SummarySection(lines)
  {
    var inSummary := false;
    summaryLines := [];
    var i := 0;
    assert lines[0..] == lines;
    while i < |lines|
      invariant 0 <= i <= |lines|
      invariant !inSummary ==> summaryLines == [] && AfterMarker(lines[i..], MentionsSummary, IsStopLine) == SummarySection(lines)
      invariant inSummary ==> summaryLines + UntilStop(lines[i..], IsStopLine) == SummarySection(lines)
    {
      var line := lines[i];
      SummaryStep(lines, i, MentionsSummary, IsStopLine);
      if MentionsSummary(line) && !inSummary {
        inSummary := true;
      } else if inSummary && IsStopLine(line) {
        assert summaryLines + [] == summaryLines;
        return;
      } else if inSummary {
        AppendAssoc(summaryLines, [line], UntilStop(lines[i + 1..], IsStopLine));
        summaryLines := summaryLines + [line];
      }
      i := i + 1;
    }
    assert summaryLines + [] == summaryLines;
  }

  /** One step of both scans at position `i`. */
  lemma SummaryStep(lines: seq<string>, i: nat, start: string -> bool, stop: string -> bool)
    requires i < |lines|
    ensures UntilStop(lines[i..], stop) == if stop(lines[i]) then [] else [lines[i]] + UntilStop(lines[i + 1..], stop)
    ensures AfterMarker(lines[i..], start, stop) ==
      if start(lines[i]) then UntilStop(lines[i + 1..], stop) else AfterMarker(lines[i + 1..], start, stop)
  {
    assert lines[i..][0] == lines[i];
    assert lines[i..][1..] == lines[i + 1..];
  }

  /** The index of the first line satisfying `p`, or -1. */
  function FirstWhere(lines: seq<string>, p: string -> bool): (k: int)
    ensures -1 <= k < |lines|
    ensures k >= 0 ==> p(lines[k]) && forall i :: 0 <= i < k ==> !p(lines[i])
    ensures k < 0 ==> forall i :: 0 <= i < |lines| ==> !p(lines[i])
    decreases |lines|
  {
    if lines == [] then -1
    else if p(lines[0]) then 0
    else
      var k := FirstWhere(lines[1..], p);
      assert forall i :: 1 <= i < |lines| ==> lines[1..][i - 1] == lines[i];
      if k < 0 then -1 else k + 1
  }

  /** The lines before the first `stop` line: a prefix, free of stop lines, cut at a stop line or the end. */
  lemma {:induction false} UntilStopPrefix(lines: seq<string>, stop: string -> bool)
    ensures var r := UntilStop(lines, stop);
      && |r| <= |lines| && r == lines[..|r|]
      && (forall j :: 0 <= j < |r| ==> !stop(r[j]))
      && (|r| < |lines| ==> stop(lines[|r|]))
    decreases |lines|
  {
    if lines != [] && !stop(lines[0]) {
      UntilStopPrefix(lines[1..], stop);
      var rest := UntilStop(lines[1..], stop);
      assert UntilStop(lines, stop) == [lines[0]] + rest;
      assert lines[..|rest| + 1] == [lines[0]] + lines[1..][..|rest|];
    }
  }

  /** The marker scan picks the block after the first marker line, and nothing without one. */
  lemma {:induction false} AfterMarkerFirst(lines: seq<string>, start: string -> bool, stop: string -> bool)
    ensures var k := FirstWhere(lines, start);
      AfterMarker(lines, start, stop) == if k < 0 then [] else UntilStop(lines[k + 1..], stop)
    decreases |lines|
  {
    if lines != [] && !start(lines[0]) {
      AfterMarkerFirst(lines[1..], start, stop);
      var k := FirstWhere(lines[1..], start);
      if k >= 0 {
        assert lines[1..][k + 1..] == lines[k + 2..];
      }
    }
  }

  /**
   * The marker scan is the block of lines right after the first `start`
   * line, up to the next `stop` line; without a `start` line it is empty.
   */
  lemma MarkerBlock(lines: seq<string>, start: string -> bool, stop: string -> bool)
    ensures var k := FirstWhere(lines, start); var r := AfterMarker(lines, start, stop);
      && (k < 0 ==> r == [])
      && (k >= 0 ==> k + 1 + |r| <= |lines| && r == lines[k + 1..k + 1 + |r|])
      && (forall j :: 0 <= j < |r| ==> !stop(r[j]))
      && (k >= 0 && k + 1 + |r| < |lines| ==> stop(lines[k + 1 + |r|]))
  {
    var k := FirstWhere(lines, start);
    AfterMarkerFirst(lines, start, stop);
    if k >= 0 {
      var tail := lines[k + 1..];
      UntilStopPrefix(tail, stop);
      var r := UntilStop(tail, stop);
      assert tail[..|r|] == lines[k + 1..k + 1 + |r|];
      assert |r| < |tail| ==> tail[|r|] == lines[k + 1 + |r|];
    }
  }

  /**
   * The summary is the block of lines right after the first line mentioning
   * `Summary`, up to the next line starting with `#` or `**`; without such a
   * line it is empty.
   */
  lemma SummarySectionShape(lines: seq<string>)
    ensures var k := FirstWhere(lines, MentionsSummary); var r := SummarySection(lines);
      && (k < 0 ==> r == [])
      && (k >= 0 ==> k + 1 + |r| <= |lines| && r == lines[k + 1..k + 1 + |r|])
      && (forall j :: 0 <= j < |r| ==> !IsStopLine(r[j]))
      && (k >= 0 && k + 1 + |r| < |lines| ==> IsStopLine(lines[k + 1 + |r|]))
  {
    MarkerBlock(lines, MentionsSummary, IsStopLine);
  }

  /** What `generate_judgment_summary` prints between the rules. */
  function ConsoleSummary(answer: string): string
  {
    var lines := Split(answer, '\n');
    var section := SummarySection(lines);
    if section != [] then Join(section, "\n") else FallbackSummary(lines)
  }

  /** A report without a `Summary` line is shown by its first ten lines and an ellipsis. */
  lemma ConsoleSummaryFallback(answer: string)
    requires forall i :: 0 <= i < |Split(answer, '\n')| ==> !MentionsSummary(Split(answer, '\n')[i])
    ensures ConsoleSummary(answer) == FallbackSummary(Split(answer, '\n'))
    ensures EndsWith(ConsoleSummary(answer), "\n...")
  {
    SummarySectionShape(Split(answer, '\n'));
  }
}
