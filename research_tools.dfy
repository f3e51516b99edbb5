/**
 * What the business and judgment search tools share: the service calls made
 * for one target page, and the console fallback when no summary section is
 * found in a report.
 */
module ResearchTools {
  import opened Wrappers
  import opened Text
  import opened JsonValue
  import opened Firecrawl

  /** A name as a query parameter: `name.replace(" ", "+")`. */
  function SearchParam(term: string): (r: string)
    ensures ' ' !in r
  {
    ReplaceChar(term, ' ', "+")
  }

  /** One call to the extraction service. */
  datatype Call = Extract(request: ExtractCall) | Scrape(scrape: ScrapeCall)

  /** The extraction call for one URL, by prompt or by schema; none when the client refuses the arguments. */
  function ExtractOne(url: string, preferPrompts: bool, schema: Json, prompt: string): (r: seq<Call>)
    ensures |r| <= 1
    ensures r != [] ==> r[0].Extract? && r[0].request.urls == [url]
    ensures r != [] && preferPrompts ==> r[0].request == ExtractCall([url], None, Some(prompt))
    ensures r != [] && !preferPrompts ==> r[0].request == ExtractCall([url], Some(schema), None)
    ensures preferPrompts ==> (r != [] <==> prompt != "")
    ensures !preferPrompts ==> (r != [] <==> Truthy(schema))
  {
    var res := if preferPrompts then ExtractStructuredData(UrlList([url]), None, Some(prompt))
               else ExtractStructuredData(UrlList([url]), Some(schema), None);
    if res.Success? then [Extract(res.value)] else []
  }

  /** The extraction calls for the mapped links, in order. */
  function LinkCalls(links: seq<string>, preferPrompts: bool, schema: Json, prompt: string): (r: seq<Call>)
    ensures |r| <= |links|
    ensures (preferPrompts ==> prompt != "") && (!preferPrompts ==> Truthy(schema)) ==>
      |r| == |links| && forall i :: 0 <= i < |links| ==> r[i] == ExtractOne(links[i], preferPrompts, schema, prompt)[0]
    decreases |links|
  {
    if links == [] then []
    else
      var n := |links|;
      var r := LinkCalls(links[..n - 1], preferPrompts, schema, prompt) + ExtractOne(links[n - 1], preferPrompts, schema, prompt);
      assert (preferPrompts ==> prompt != "") && (!preferPrompts ==> Truthy(schema)) ==>
        forall i :: 0 <= i < n - 1 ==> links[..n - 1][i] == links[i];
      r
  }

  /**
   * The calls for one target: with mapped links, one extraction for each of
   * the first five; without, a direct extraction of `directUrl` when there is
   * one, else a scrape of the page in markdown and JSON. A failed mapping
   * (None) makes no call.
   */
  function TargetCalls(url: string, mapped: Option<seq<string>>, directUrl: Option<string>,
                       preferPrompts: bool, schema: Json, prompt: string): (r: seq<Call>)
    ensures |r| <= 5
    ensures mapped.None? ==> r == []
    ensures mapped.Some? && mapped.value != [] ==> r == LinkCalls(Take(mapped.value, 5), preferPrompts, schema, prompt)
    ensures mapped.Some? && mapped.value == [] && directUrl.Some? ==>
      r == ExtractOne(directUrl.value, false, schema, prompt)
    ensures mapped.Some? && mapped.value == [] && directUrl.None? ==>
      r == [Scrape(ScrapeUrl(url, ["markdown", "json"], Some(schema)))]
  {
    if mapped.None? then []
    else if mapped.value != [] then LinkCalls(Take(mapped.value, 5), preferPrompts, schema, prompt)
    else if directUrl.Some? then ExtractOne(directUrl.value, false, schema, prompt)
    else [Scrape(ScrapeUrl(url, ["markdown", "json"], Some(schema)))]
  }

  /** With mapped links, the calls go to the first (at most five) links in the order mapped. */
  lemma TargetCallsFollowLinks(url: string, links: seq<string>, directUrl: Option<string>,
                               preferPrompts: bool, schema: Json, prompt: string)
    requires links != [] && (preferPrompts ==> prompt != "") && (!preferPrompts ==> Truthy(schema))
    ensures var r := TargetCalls(url, Some(links), directUrl, preferPrompts, schema, prompt);
      && |r| == (if |links| < 5 then |links| else 5)
      && forall i :: 0 <= i < |r| ==> r[i].Extract? && r[i].request.urls == [links[i]]
  {
    var top := Take(links, 5);
    assert forall i :: 0 <= i < |top| ==> top[i] == links[i];
  }

  /** The console fallback: the first ten lines of the report and an ellipsis line. */
  function FallbackSummary(lines: seq<string>): (r: string)
    ensures EndsWith(r, "\n...")
  {
    EndsWithAppended(Join(Take(lines, 10), "\n"), "\n...");
    Join(Take(lines, 10), "\n") + "\n..."
  }
}
