# legal-search-agent, modelled in Dafny

legal-search-agent collects public legal records. A polite web crawler
downloads court, business-registry and lien pages into a directory of
documents, each with a `.meta.json` sidecar. A processor turns those documents
into structured JSON records. A search layer extracts query keywords. A
session store remembers the entities, queries and messages of a research
session. The command-line tools pick Firecrawl extraction targets and schemas
and summarise the generated reports.

This project models the parts that decide what is fetched, named, saved,
counted and reported, and proves their properties:

- `LegalCrawler` is a class over the crawl state. Its fields are the settings,
  the visited set, the FIFO frontier of `(url, depth)` entries, the document
  counter, the written files and the existing directories. Its methods follow
  `crawl`, `_process_url_safely`, `process_url`, `process_html_page`,
  `extract_links` and the three save steps.
- The URL, link and filename gatekeepers are pure functions. These are
  `_is_safe_url`, `is_valid_url`, `_is_safe_filename` and
  `get_filename_from_url`.
- Crawler construction is a function from the configuration to clamped
  settings or a `CrawlerError`. The configuration getters with their defaults
  and `get_headers` are functions too.
- `safe_execute` is a `Result`, and `validate_input` is a loop that collects
  the failing validator names.
- The processor's discovery, dispatch, title and section scanners and output
  naming are discovery and scanner loops proved against functions.
- `SessionManager` is a class whose session files are a map from id to
  session. `search` keeps its keyword extraction, query analysis, top-k slice
  and empty explanation.
- Both URL-to-schema classifiers and the fixed schemas are modelled, and so
  are the Firecrawl client's argument guards.
- The modelled decision rules of the CLI tools are duration formatting,
  truncated displays, the "continue" context sentence, target-page lists,
  per-page calls, query filtering, report-summary scans, schema and format
  selection, extraction-mode precedence and list previews.

The world outside the program is a parameter. This covers the network,
`urljoin`, MD5, BeautifulSoup's `select` and `get_text`, file writes,
directory creation, the clock, the entity regular expressions, and the
Firecrawl responses. The model states what the code does with whatever that
world answers.

The code's quirks are modelled as written, each with a lemma:

- `_is_safe_url` rejects every path starting with `/` (pattern `^\/`). So a
  safe URL that has a host has an empty path (`CrawlerSafety.SafeUrlHasEmptyPath`).
- `process_url` returns normally for an unsafe URL. That counts as success,
  and the URL is marked visited (`Crawler.LegalCrawler.ProcessUrl`,
  `Crawler.LegalCrawler.VisitEntry`).
- A content selector that matches no element saves nothing
  (`Crawler.LegalCrawler.ProcessHtmlPage`).
- The artifact is written before its sidecar. A failed sidecar write leaves an
  orphan artifact and an unchanged counter
  (`Crawler.LegalCrawler.SaveWithMetadata`).
- Length limiting keeps the whole extension, so a name with a long extension
  stays over 255 characters (`CrawlerSafety.LimitLength`).
- `is_valid_url` lowercases the URL but not the configured document types. So
  a type with an upper-case letter never matches
  (`CrawlerSafety.UpperCaseTypeNeverMatches`).
- Session ids have one-second resolution, and a save syncs only the first
  index record with the id (`Sessions.SyncedIndexSpec`).
- The judgment tool adds the NYSCEF target when the state uppercases to `NY`.
  It asks the NYSCEF query only when the state is exactly `NY`
  (`JudgmentSearch.LowercaseNyQuirk`).
- The Firecrawl tester selects no schema for an unknown `--url-type`, even
  where the URL would be detected (`FirecrawlTester.ChosenSchemaCases`).
- A URL containing `docket` never gets the judgment schema
  (`Firecrawl.DocketNeverJudgment`).

The tests at tests/test_config.py:44-90 expect `Config` to check its keys,
its delay and its source URLs. The tests at tests/test_config.py:112-126
expect a `ConfigError` for invalid JSON. src/config.py does no such checks,
and it lets the JSON decoder's own error through. The model follows
src/config.py: construction keeps any object, and a file that does not decode
fails with its own `InvalidJson` error.

Files: `crawler.dfy`, `crawler_safety.dfy`, `crawler_settings.dfy`,
`config.dfy`, `errors.dfy`, `processor.dfy`, `sessions.dfy`, `search.dfy`,
`enhanced_schemas.dfy`, `firecrawl.dfy`, `schema.dfy`, `session_tool.dfy`,
`business_search.dfy`, `judgment_search.dfy`, `research_tools.dfy` and
`firecrawl_tester.dfy`. `text.dfy`, `urls.dfy`, `json.dfy` and `wrappers.dfy`
give Python's string operations, the `urlparse` subset, JSON values, and
`Option`/`Result`.

## Model

| member | source | states |
|---|---|---|
| Configuration.FromFile | src/config.py:22-38 | A missing path fails with a file-not-found error before anything is read. A file that is not a JSON object fails as invalid JSON. Otherwise the configuration holds the file's object unchanged. |
| Configuration.Get | src/config.py:40-51 | A present key yields its stored value, and an absent key yields the default. |
| Configuration.ToFloat | src/config.py:71-78 | `float()` of a stored value: numbers convert and booleans count as numbers. Any other value fails. |
| Configuration.ToInt | src/config.py:80-87 | `int()` of a stored value: integers are kept, reals truncate toward zero, and booleans count. Any other value fails. |
| Configuration.Truncate | src/config.py:80-87 | Python's `int()` on a real rounds toward zero: the result lies within one of the input on the side of zero. |
| Configuration.Headers | src/config.py:107-121 | The headers are `User-Agent` from the user-agent getter, then `update` with the custom headers. An object is laid over it, so every custom header appears and a custom `User-Agent` wins. The empty string adds nothing and any other string is a `ValueError`. A list is applied pair by pair. Any other value is a `TypeError`. |
| Configuration.UpdatePairsShape | src/config.py:119 | `update` with a list succeeds iff every item is a pair. Otherwise it fails with the error of the first item that is not. On success the names are the old ones plus the pair names, and the last pair's value wins. |
| Configuration.EmptyConfigDefaults | src/config.py:53-121 | An empty configuration yields every getter's default. These are no sources, `LegalSearchAgent/1.0`, delay 1.0, 100 pages, depth 3, the five document types, and the single `User-Agent` header. |
| Configuration.StoredValuesReturned | src/config.py:40-121 | Stored values are returned instead of the defaults, and an extra header sits beside the stored agent. |
| Errors.NewError | src/error_handler.py:15-28 | An error keeps its class and message. Its details are the given map, or empty when none is given. |
| Errors.FamilyIsRooted | src/error_handler.py:31-63 | Every error class descends from `LegalSearchError`, and no subclass descends from another. |
| Errors.SafeExecute | src/error_handler.py:98-140 | A call that returns yields its value and logs nothing. A call that raises logs exactly once. It then yields the default, or raises the given class when `raise_error` is set. |
| Errors.FailedNamesExact | src/error_handler.py:157-161 | The collected names are exactly the names of the validators that fail. The list is empty iff every validator passes. |
| Errors.ValidateInput | src/error_handler.py:143-167 | It succeeds iff every validator passes. Otherwise it raises a `ValidationError` whose message lists the failing names in order. |
| CrawlerSettings.Numeric | src/crawler.py:70-72 | A `ValueError` from a numeric getter becomes a `CrawlerError`. A `TypeError` escapes the constructor. |
| CrawlerSettings.SafeTypes | src/crawler.py:56-60 | The kept types are exactly the configured types whose lowercased name is not an unsafe extension. |
| CrawlerSettings.ParseSource | src/crawler.py:86-95 | An accepted source has a non-empty http or https URL, as stored in the entry. |
| CrawlerSettings.ParseSourceItems | src/crawler.py:86-95 | On success every entry is parsed, in order. |
| CrawlerSettings.ParseSourceItemsFirstFailure | src/crawler.py:86-95 | A failure is the failure of the first entry that does not parse. |
| CrawlerSettings.ParseSources | src/crawler.py:82-95 | On success there is at least one source, and every source URL is crawlable. |
| CrawlerSettings.Init | src/crawler.py:46-109 | A constructed crawler satisfies the settings invariant. The headers are `get_headers`. The delay is `max(cfg, 0.5)`, pages are `min(cfg, 1000)` and depth is `min(cfg, 5)`. The document types are the safe configured ones. |
| CrawlerSettings.InitRefusals | src/crawler.py:80-107 | Construction is refused when there are no sources, when the page limit is not positive, or when every document type is unsafe. |
| CrawlerSettings.BadSourceRefused | src/crawler.py:86-95 | A source with an empty URL, or one that is not http or https, refuses the configuration. |
| CrawlerSettings.DefaultTypesRead | src/config.py:98-105 | The default document types are read as listed. |
| CrawlerSettings.DefaultTypesSafe | src/crawler.py:56-60 | No default document type is filtered out. |
| CrawlerSettings.SafeTypesKeepsSafe | src/crawler.py:56-60 | When every type is safe, filtering keeps the list unchanged, in order. |
| CrawlerSettings.SingleSourceRead | src/crawler.py:82-95 | A single source with only a URL reads as that URL, named `unknown`, with no selectors. |
| CrawlerSettings.OnlySourcesConfigured | src/config.py:62-121 | A configuration holding only sources reads every other setting at its default. |
| CrawlerSettings.DefaultsRead | src/crawler.py:46-67 | With default limits and types, construction keeps them and the parsed sources. |
| CrawlerSettings.InitSucceeds | src/crawler.py:46-109 | When every read succeeds and the checks pass, the settings are the clamped values. |
| CrawlerSettings.DefaultSettings | src/crawler.py:46-109 | A configuration of one crawlable source constructs a crawler with delay 1.0, 100 pages, depth 3 and the five default types. |
| CrawlerSafety.SafeUrlHasEmptyPath | src/crawler.py:305-321 | Because `^\/` rejects every path that starts with `/`, a safe URL with a host has an empty path. |
| CrawlerSafety.SafeUrlShape | src/crawler.py:284-328 | A safe URL has an http or https scheme. Its lowercased path does not end in `.` plus an unsafe extension. |
| CrawlerSafety.UpperCaseTypeNeverMatches | src/crawler.py:443-445 | A document type with an upper-case letter never matches the lowercased URL. |
| CrawlerSafety.SubdomainOfSourceAllowed | src/crawler.py:447-458 | An http or https URL whose host is a subdomain of a source host is allowed. |
| CrawlerSafety.FallbackNamesSafe | src/crawler.py:536-568 | The fallbacks `<md5>.bin` and `<md5>.txt` pass the filename check. |
| CrawlerSafety.FallbackNameSafe | src/crawler.py:536-568 | `<md5>.<ext>` passes the filename check for any plain, safe extension. |
| CrawlerSafety.ChosenFilenameSafe | src/crawler.py:477-483 | The name a save uses always passes the filename check: the generated name, or its fallback. |
| CrawlerSafety.SanitizeFilenameShape | src/crawler.py:628 | Sanitising keeps the length. It leaves only word characters, `-` and `.`, and keeps every character that is already one. |
| CrawlerSafety.SanitizeFilenameIdempotent | src/crawler.py:628 | Sanitising twice is sanitising once. |
| CrawlerSafety.SourceNameIsPlain | src/crawler.py:137-138 | A sanitised source name has no `/` and no `.`, and sanitising it again changes nothing. |
| CrawlerSafety.LimitLength | src/crawler.py:631-633 | Names up to 255 are kept. A longer name becomes the first 245 stem characters plus the whole extension. It stays over 255 when the extension is longer than ten characters. |
| CrawlerSafety.LimitLengthKeepsChars | src/crawler.py:628-633 | Length limiting keeps a sanitised name sanitised. |
| CrawlerSafety.FilenameCharacters | src/crawler.py:608-640 | Every generated filename, including the one from the exception path, holds only filename characters. So it is relative and has no unsafe character. |
| CrawlerSafety.FilenameCharsAreSafe | src/crawler.py:546-557 | A name of filename characters is not absolute and has none of the characters the filename check forbids. |
| Crawler.ReadBody | src/crawler.py:255-261 | The streamed body is kept iff its total length is at most 10 MiB. The kept body is the concatenation of the chunks. |
| Crawler.Dispatch | src/crawler.py:271-282 | `text/html` goes to HTML processing. Otherwise pdf, msword or openxml goes to the document save. Everything else is ignored. |
| Crawler.HtmlTakesPrecedence | src/crawler.py:271-279 | A content type containing `text/html` is HTML, whatever else it contains. |
| Crawler.RetryStep | src/crawler.py:200-216 | One more attempt after retriable ones keeps them all retriable when it retries, and completes the retry pattern when it does not retry or is the last. |
| Crawler.Delays | src/crawler.py:200-216 | The sleeps of `n` retries are `n` five-second delays. |
| Crawler.SleepStep | src/crawler.py:206-208 | One more five-second sleep after `n` retry sleeps gives the sleeps of `n + 1` retries. |
| Crawler.Attempts | src/crawler.py:200-211 | The loop makes from one up to the attempts still allowed, and one more only after a timeout or connection error. |
| Crawler.AttemptsRetried | src/crawler.py:200-208 | Every request of the retry loop before its last one timed out or could not connect. |
| Crawler.AttemptsEnd | src/crawler.py:204-211 | The loop ends on a timeout or connection error only once it made all three attempts. |
| Crawler.NormalizedHref | src/crawler.py:400-415 | A kept link has a non-empty href, and an absolute http or https href is kept as it is. |
| Crawler.LinkTargetsSound | src/crawler.py:398-419 | Every queued entry comes from a kept link of the page at depth plus one, and passes the admission test. |
| Crawler.LinkTargetsComplete | src/crawler.py:398-419 | Every kept link that passes the admission test is queued. |
| Crawler.CollectLinkTargets | src/crawler.py:398-419 | The link loop appends exactly the admitted targets, in link order. |
| Crawler.NewEntriesBounded | src/crawler.py:386-419 | At most 100 entries are queued per page. Each is one level deeper, allowed, safe and not yet visited. |
| Crawler.VisitLogStep | src/crawler.py:155-176 | Processing an unvisited URL and marking it only on success keeps the record. The visited set holds exactly the URLs that succeeded, and none of them is processed again. |
| Crawler.ArtifactNamesSafe | src/crawler.py:477-519 | The document and text saves always write under a name that passes the filename check. |
| Crawler.AttemptOfResponse | src/crawler.py:234-282 | An attempt at a safe URL whose outcome, files, count and queued links are those its response dictates is one `process_url` call, which also makes one request. |
| Crawler.AttemptOutcome | src/crawler.py:234-282 | A `process_url` call at a safe URL ends as the response to its own request dictates. |
| Crawler.RetriableOutcome | src/crawler.py:204-214 | An attempt is retried exactly when its request timed out or could not connect. |
| Crawler.FetchOutcomes | src/crawler.py:240-268 | Timeouts and connection errors, and nothing else, are retriable. HTTP errors, other request errors and a malformed `Content-Length` raise. A failed request saves and queues nothing. An oversized body returns with nothing saved or queued. |
| Crawler.DispatchOfKept | src/crawler.py:270-282 | A kept body of another type returns with nothing saved or queued. A PDF or Word body is saved as a binary under the document name and returns iff that save works. A page whose selectors are not an object raises. Any other page saves its content, returns iff that save works, and only then queues its links below the depth limit. |
| Crawler.AttemptBounds | src/crawler.py:218-282 | An attempt counts at most one document, and only when it returns. One that does not return queues nothing. A retriable one changes no file. What it queues is a bounded expansion of the page. |
| Crawler.RetryGoesOn | src/crawler.py:200-208 | A retriable attempt that is not the last queues nothing, changes nothing but the request count, and the loop goes on. |
| Crawler.RetryEnds | src/crawler.py:200-216 | An attempt that does not retry, or is the third, ends the loop, and the whole call is then as `RetriedBy` describes. |
| Crawler.AttemptsPattern | src/crawler.py:200-216 | As many attempts as the responses call for, all but the last retriable and the last retriable only after a retriable failure, follow the retry pattern. |
| Crawler.RetriedShape | src/crawler.py:200-216 | The attempts of a `_process_url_safely` call follow the retry pattern. Only the last saves or queues anything, from the state the retried ones left. |
| Crawler.RetriedOutcome | src/crawler.py:200-216 | Attempt `i` ends as the answer to the `i`-th request the call made. An unsafe URL completes without a request. |
| Crawler.RetriedByCases | src/crawler.py:234-237 | At an unsafe URL there is one attempt, which completes and changes nothing. At a safe URL every attempt makes exactly one request. |
| Crawler.RetriedBounds | src/crawler.py:187-216 | A call with retries follows the retry pattern and counts at most one document, only when its last attempt returned. Otherwise it queues nothing, and what it queues is a bounded expansion of the page. |
| Crawler.VisitLogSucceeded | src/crawler.py:158-175 | The visited set of a kept record is exactly the set of URLs whose processing succeeded. |
| Crawler.CrawlLogSkip | src/crawler.py:156-159 | Popping an entry whose URL succeeded earlier adds no outcome. |
| Crawler.CrawlLogVisit | src/crawler.py:156-176 | Popping an entry whose URL has not succeeded adds its outcome at the end of the record. |
| Crawler.CrawlLogPop | src/crawler.py:156-176 | One pop keeps the crawl record: a visited entry adds nothing, and any other entry adds its own outcome. |
| Crawler.CrawlLogBounded | src/crawler.py:155-179 | A source's crawl never processes more URLs than it popped. |
| Crawler.PopStep | src/crawler.py:155-176 | Taking the first frontier entry and appending what it queued at the back keeps the queue history in shape, and the frontier's weight falls. |
| Crawler.CrawledSourcesStep | src/crawler.py:131-147 | One more source is crawled exactly when its name is a string and its directory exists or can be made. |
| Crawler.CrawlLoopStep | src/crawler.py:131-181 | One iteration of the source loop at a named source keeps its invariant: the crawled sources are those picked from the prefix, and every directory made could be made. |
| Crawler.CrawlDone | src/crawler.py:131-181 | After the whole source loop, every source had a string name and the crawled sources are exactly those `CrawledSources` picks. |
| Crawler.LegalCrawler.constructor | src/crawler.py:36-72 | The settings are those the configuration constructs. The visited set, frontier and counter start empty, and nothing is written. |
| Crawler.LegalCrawler.WriteFile | src/crawler.py:485-486 | A write succeeds exactly when the path is writable, and only then is the file stored. |
| Crawler.LegalCrawler.SaveMetadata | src/crawler.py:570-595 | The sidecar `<path>.meta.json` holds the URL, the headers and the path. It is stored exactly when writable. |
| Crawler.LegalCrawler.SaveWithMetadata | src/crawler.py:485-493 | The counter rises iff both writes succeed. A failed sidecar leaves the artifact written and the counter unchanged. |
| Crawler.LegalCrawler.SaveDocument | src/crawler.py:463-498 | The body goes under the URL's filename, or `<md5>.bin` when that is unsafe. It is then saved as above. |
| Crawler.LegalCrawler.SaveTextContent | src/crawler.py:500-534 | The text goes under the URL's filename with `txt`, or `<md5>.txt` when that is unsafe. It is then saved as above. |
| Crawler.LegalCrawler.ExtractLinks | src/crawler.py:375-422 | The frontier grows by exactly the admitted targets of the first 100 selected links, in order. |
| Crawler.LegalCrawler.SaveWholePage | src/crawler.py:362-365 | The whole-page text is saved under the text name. The result, files and count are those of that save. |
| Crawler.LegalCrawler.SaveSelection | src/crawler.py:353-356 | The texts of the selected elements, joined by newlines, are saved under the text name. The result, files and count are those of that save. |
| Crawler.LegalCrawler.SavePage | src/crawler.py:349-365 | A content selector that matches saves the selected text, falling back to the whole page when that save raises. A selector that matches nothing saves nothing. No selector, or one that cannot be applied, saves the whole page. The result is false exactly when the last save raised. |
| Crawler.LegalCrawler.ProcessHtmlPage | src/crawler.py:330-373 | Selectors that are not an object raise with nothing saved. Otherwise the page is saved as `SavePage` says. It returns iff there was nothing to save or the save worked. Links are queued only then, and only below the depth limit, as `NewEntries`. |
| Crawler.LegalCrawler.ProcessUrl | src/crawler.py:218-282 | An unsafe URL completes with no request and nothing changed. A safe one makes exactly the next request, and ends, saves, counts and queues as its response dictates (`AttemptBy`). |
| Crawler.LegalCrawler.ProcessResponse | src/crawler.py:250-282 | The outcome, files, count and queued links are those the response dictates: a malformed `Content-Length` raises, an oversized declared or streamed body saves nothing, and a kept body is dispatched as `DispatchOfKept` says. |
| Crawler.LegalCrawler.ProcessBody | src/crawler.py:270-282 | A body the size cap kept is dispatched on its lower-cased content type, with the outcome, files, count and queued links the response dictates. |
| Crawler.LegalCrawler.TryOnce | src/crawler.py:200-216 | One `process_url` attempt after the retriable ones. A retriable attempt that is not the last queues nothing and lets the loop go on. Any other attempt ends the loop as `RetriedBy` describes. |
| Crawler.LegalCrawler.ProcessUrlSafely | src/crawler.py:187-216 | The attempts are those `RetriedBy` describes: as many as the responses call for, up to three, and only the last saves or queues. The result is true iff the last attempt completed. A five-second sleep follows each retried attempt, and none follows the last. |
| Crawler.LegalCrawler.VisitEntry | src/crawler.py:161-179 | An unvisited entry is processed with retries as `RetriedBy` describes, following the retry pattern. Its outcome is appended to the record. It is marked visited iff processing succeeded. It counts at most one document. The request delay is then slept. |
| Crawler.LegalCrawler.CrawlStep | src/crawler.py:155-179 | The first frontier entry is popped and what it queued goes at the back. A visited entry is skipped with nothing else changed. An unvisited one is processed with retries, and its outcome is appended to the record. The frontier's weight falls. |
| Crawler.LegalCrawler.CrawlSource | src/crawler.py:149-179 | A source starts from its URL at depth 0. It ends with the frontier empty or the page limit reached, with at most `max_pages` documents. Every queued entry is within the depth limit, allowed and safe. The record lists, in pop order, one outcome for each popped entry that was unvisited when popped. No URL that succeeded is processed again. |
| Crawler.LegalCrawler.CrawlNamedSource | src/crawler.py:131-181 | A source name that is not a string stops the crawl with nothing changed. Otherwise the directory `<output>/<sanitised name>` is made if missing. When it exists the source is crawled, with `CrawlSource`'s guarantees, and logged as crawled. Otherwise it is skipped with nothing else changed. |
| Crawler.LegalCrawler.CrawlNext | src/crawler.py:131-181 | Source `i` stops the loop iff its name is not a string. Otherwise it keeps the source loop's invariant. |
| Crawler.LegalCrawler.Crawl | src/crawler.py:111-185 | It fails with nothing changed when the output directory cannot be made. It succeeds iff that directory exists or can be made and every source has a string name. The sources crawled are then, in order, exactly those whose directory exists or can be made. |
| Processor.SelectedIffDocumentExtension | src/processor.py:46-50 | A file is selected iff it ends in `.txt`, `.html`, `.pdf`, `.doc` or `.docx`. A `.meta.json` sidecar is never selected. |
| Processor.SidecarHasNoDocumentExtension | src/processor.py:48 | A name ending in `.meta.json` has no document extension. |
| Processor.DiscoverDocuments | src/processor.py:45-50 | The walk loop yields each directory's selected files joined to its path, in walk order. |
| Processor.DiscoveredDispatchable | src/processor.py:46-83 | Every discovered document has a type `process_document` handles, and none is a sidecar. |
| Processor.KindOf | src/processor.py:73-83 | A path is handled iff it has a document extension. |
| Processor.ExtractContent | src/processor.py:151-187 | PDF and Word extraction never raise: a failed PDF read yields its partial text. |
| Processor.LoadMetadata | src/processor.py:101-107 | An absent sidecar gives `{}`. A present one gives its JSON, or fails when that cannot be loaded. |
| Processor.FirstNonBlank | src/processor.py:231-234 | The index found is the first line that is not blank once stripped, or none when all are blank. |
| Processor.TitleFromLines | src/processor.py:231-237 | The loop returns the first line that is non-blank once stripped, else the file's basename. |
| Processor.ExtractTitle | src/processor.py:230-237 | The title is that of the stripped, split content. |
| Processor.TitleIsFirstLine | src/processor.py:230-237 | A non-blank text's title is its first line, stripped, and is never empty. A blank text takes the basename. |
| Processor.ExtractSections | src/processor.py:252-290 | The loop with its running heading and body yields the sections of the scan. |
| Processor.PreambleDropped | src/processor.py:276-281 | Lines before the first heading contribute no section. |
| Processor.SectionOfBlock | src/processor.py:264-288 | A heading followed by non-heading lines adds exactly one section. It has the stripped heading and the newline-join of the non-empty stripped lines. |
| Processor.SectionHeadings | src/processor.py:256-288 | There is one section per heading line, in order. Every section heading matches `^[A-Z\s]+$` and is shorter than 100. |
| Processor.ExtractEntities | src/processor.py:302-323 | The result has exactly the five keys. Case numbers and dates are the regex matches, and courts, judges and parties are empty. |
| Processor.StructureContent | src/processor.py:207-214 | The source is `metadata['url']` when present, else the file path. Content and metadata pass through unchanged, with the five entity keys. |
| Processor.OutputNameRelative | src/processor.py:335-336 | The output file name is never absolute. |
| Processor.OutputPathShape | src/processor.py:335-336 | The output path is `output_dir/<stem>.json`. Two documents collide iff their stems agree. |
| Processor.SavesOnlyToOutputPath | src/processor.py:86-89 | A document is only ever saved at its own output path. |
| Processor.ProcessDocumentCases | src/processor.py:61-89 | Metadata is loaded before the type is checked. An unsupported type saves nothing. A handled type is saved when its text, metadata and output all work. |
| Processor.ProcessDirectory | src/processor.py:33-59 | It fails iff the output directory is missing and cannot be made. Otherwise the outcome is that of processing the discovered documents. |
| Processor.FailedOf | src/processor.py:58-59 | Every logged failure is a discovered document whose processing raised. |
| Processor.ProcessAllExact | src/processor.py:55-59 | Every written file is the output path of a saved document. Every saved document's file is written. The failures are logged in order, and nothing else is. |
| Sessions.FindId | src/session_manager.py:181-187 | The position found is the first index record with the id, or none. |
| Sessions.SyncedIndexSpec | src/session_manager.py:179-187 | After a save, the first record with the id has the current list lengths and the save time. Every other record is unchanged, including later ones with the same id. |
| Sessions.WithoutId | src/session_manager.py:348-351 | A record is kept iff it is in the index and its id differs. |
| Sessions.WithoutIdCollect | src/session_manager.py:348-351 | Removing the id collects, in index order, every record whose id differs. |
| Sessions.WithoutIdInOrder | src/session_manager.py:348-351 | The comprehension is an order-keeping filter. The kept records are those at an increasing list of positions, and that list holds exactly the positions whose id differs, so order and repeats are kept. |
| Sessions.WithoutAbsentId | src/session_manager.py:348-351 | Removing an id that is absent keeps the index as it is. |
| Sessions.TallyTotal | src/session_manager.py:409-424 | A histogram's counts add up to the number of keys counted. |
| Sessions.TallyCounts | src/session_manager.py:409-424 | Each key's count is the number of times it occurs. |
| Sessions.CountBy | src/session_manager.py:409-424 | The counting loop builds the histogram of its keys. |
| Sessions.SummaryCounts | src/session_manager.py:405-443 | The type, tool and role histograms sum to the list lengths and count each key exactly. `last_queries` is the last five or fewer query strings, in order. |
| Sessions.SnippetHasTerm | src/session_manager.py:486-489 | The snippet is `...` plus the window around the first match plus `...`. The text between the marks still contains the term, case-insensitively. |
| Sessions.EntityMatches | src/session_manager.py:470-473 | There is no entity match iff no entity name contains the term, case-insensitively. |
| Sessions.EntityMatchesCollect | src/session_manager.py:470-473 | The entity loop collects, in order, the name of each entity that matches. |
| Sessions.EntityMatchesInOrder | src/session_manager.py:470-473 | The entity matches are exactly the names of the entities whose lowercased name contains the term, in entity order, one per matching entity. |
| Sessions.QueryMatches | src/session_manager.py:476-479 | There is no query match iff no query contains the term, case-insensitively. |
| Sessions.QueryMatchesCollect | src/session_manager.py:476-479 | The query loop collects, in order, the text of each query that matches. |
| Sessions.QueryMatchesInOrder | src/session_manager.py:476-479 | The query matches are exactly the texts of the queries whose lowercased text contains the term, in query order, one per matching query. |
| Sessions.MessageMatches | src/session_manager.py:482-493 | There is no message match iff no message contains the term, case-insensitively. |
| Sessions.MessageMatchesCollect | src/session_manager.py:482-493 | The message loop collects, in order, the role and snippet of each message that matches. |
| Sessions.MessageMatchesInOrder | src/session_manager.py:482-493 | The message matches are exactly the matching messages, in order, each as its role and the snippet around its first match. |
| Sessions.SessionHit | src/session_manager.py:469-503 | A session is a hit iff some entity, query or message matches. A hit has the session's id and its stored name, or `Unnamed Session`. It has all entity and query matches, and the first three message matches or fewer. |
| Sessions.CollectInOrder | src/session_manager.py:458-503 | Collecting keeps order: the values are those found at an increasing list of positions, and that list holds every position where a value is found. |
| Sessions.SearchAllSound | src/session_manager.py:458-503 | Every hit is for a session of the index whose file exists. |
| Sessions.SearchAllComplete | src/session_manager.py:458-503 | Every indexed session with a file and a match is among the hits. |
| Sessions.SessionManager.constructor | src/session_manager.py:30-72 | The index is the loaded one, or empty when it is missing or unreadable. No session is active. |
| Sessions.SessionManager.SyncIndex | src/session_manager.py:180-187 | The update loop brings the first record with the id up to date. |
| Sessions.SessionManager.SaveCurrentSession | src/session_manager.py:167-194 | Nothing happens without an active session. A failed write changes nothing. Otherwise the session file is written and the index synced. |
| Sessions.SessionManager.CreateSession | src/session_manager.py:82-133 | The id is `session_<now>`, and an empty name defaults to `Session <stamp>`. Exactly one record is appended, with zero counts and `start_time == last_updated`. The new session is current, with empty lists. |
| Sessions.SessionManager.LoadSession | src/session_manager.py:135-165 | A missing file raises and changes nothing. Otherwise the stored session becomes current. |
| Sessions.SessionManager.AddEntity | src/session_manager.py:196-221 | Without a session nothing changes. Otherwise exactly one entity is appended, with `metadata or {}`, the other lists are kept, and the session is saved. |
| Sessions.SessionManager.AddQuery | src/session_manager.py:223-250 | Without a session nothing changes. Otherwise exactly one query record is appended, the other lists are kept, and the session is saved. |
| Sessions.SessionManager.AddMessage | src/session_manager.py:252-277 | Without a session nothing changes. Otherwise exactly one message is appended, the other lists are kept, and the session is saved. |
| Sessions.SessionManager.History | src/session_manager.py:279-290 | Empty without a session, else the current messages. |
| Sessions.SessionManager.Entities | src/session_manager.py:292-303 | Empty without a session, else the current entities. |
| Sessions.SessionManager.Queries | src/session_manager.py:305-316 | Empty without a session, else the current queries. |
| Sessions.SessionManager.DeleteSession | src/session_manager.py:327-371 | False, with nothing changed, for an unknown id or when the file cannot be removed. Otherwise the file is removed and the index becomes `WithoutId`, which keeps the other records in order (`WithoutIdInOrder`). The current session is reset if it was deleted. |
| Sessions.SessionManager.SummarizeSession | src/session_manager.py:373-443 | It summarises the named session, else the current one. It is empty without a target or its file. For a target with data, it raises iff the record has no start time, and otherwise returns exactly `Summarize` of that record. |
| Sessions.SessionManager.SearchSessions | src/session_manager.py:445-508 | The hits for the lowercased term, in index order. |
| Search.CleanChar | src/search.py:172 | An alphanumeric character becomes its lower-case form, and anything else becomes a space. |
| Search.Cleaned | src/search.py:172 | The cleaned text keeps the length. Every character is a space, a lower-case letter or a digit. A position is not a space iff the input character there is alphanumeric, and then it is that character lower-cased. |
| Search.KeepKeywords | src/search.py:182 | The kept words are exactly those longer than two characters that are not stopwords. |
| Search.KeywordsShape | src/search.py:172-184 | Every keyword is a lower-case alphanumeric word, longer than two characters, and not a stopword. |
| Search.KeepKeywordsInOrder | src/search.py:182 | Keywords keep their input order. |
| Search.KeywordsIdempotent | src/search.py:172-184 | Extracting the keywords of the space-joined keywords gives them back. |
| Search.AnalyzeQuery | src/search.py:149-154 | The length is the query's length. It is a question iff the query ends with `?`. The keywords are those of the query. |
| Search.SliceTo | src/search.py:88 | `docs[:k]` is a prefix of length `min(k, n)`, or `n + k` for a negative `k`. |
| Search.Rank | src/search.py:70-115 | At most `k` results, each from the retrieved document at its position, in order. |
| Search.ExplainCases | src/search.py:197-207 | The explanation is the fixed "No results found" text iff there are no results. Otherwise it starts with the count header. |
| EnhancedSchemas.NyscefCaseSchema | src/enhanced_legal_schemas.py:15-93 | Every required field is a property. |
| EnhancedSchemas.JudgmentLienSchema | src/enhanced_legal_schemas.py:96-156 | Every required field is a property. |
| EnhancedSchemas.SecretaryOfStateSchema | src/enhanced_legal_schemas.py:159-232 | Every required field is a property. |
| EnhancedSchemas.SchemaOf | src/enhanced_legal_schemas.py:15-232 | Each page kind's schema is well formed: every required field is one of its properties. |
| EnhancedSchemas.GetSchemaForUrl | src/enhanced_legal_schemas.py:235-263 | A schema returned for a URL is well formed. |
| EnhancedSchemas.SchemasDistinct | src/enhanced_legal_schemas.py:92-231 | The three schemas are pairwise different, so a page kind is recoverable from its schema. |
| EnhancedSchemas.GetSchemaForUrlCases | src/enhanced_legal_schemas.py:235-263 | Each classifier rule holds. An empty URL gets none. `nyscef` or `courts.state.ny.us` gets NYSCEF before every other test. `blackbookonline` with `secretary` gets Secretary-of-State. `blackbookonline` with ucc, county or public-records gets the lien schema. Anything else gets none. |
| EnhancedSchemas.SchemaForSource | src/enhanced_legal_schemas.py:245-263 | A URL gets a page kind's schema exactly when it is classified as that kind. |
| EnhancedSchemas.GetSchemaForUrlIgnoresCase | src/enhanced_legal_schemas.py:248 | A URL and its upper- or lower-cased form get the same schema. |
| Firecrawl.BusinessRegistrationSchema | src/firecrawl_integration.py:276-329 | Every required field is a property. |
| Firecrawl.CourtCaseSchema | src/firecrawl_integration.py:332-378 | Every required field is a property. |
| Firecrawl.JudgmentSchema | src/firecrawl_integration.py:381-429 | Every required field is a property. |
| Firecrawl.SchemaOf | src/firecrawl_integration.py:276-429 | Each record kind's schema is well formed. |
| Firecrawl.GetSchemaForUrl | src/firecrawl_integration.py:432-457 | A schema returned for a URL is well formed. |
| Firecrawl.SchemasDistinct | src/firecrawl_integration.py:328-428 | The three schemas are pairwise different. |
| Firecrawl.GetSchemaForUrlCases | src/firecrawl_integration.py:432-457 | The business terms are tested first, then the court terms, then the judgment terms. Otherwise there is no schema. |
| Firecrawl.SchemaForKind | src/firecrawl_integration.py:442-457 | A URL gets a kind's schema exactly when it is classified as that kind. |
| Firecrawl.DocketNeverJudgment | src/firecrawl_integration.py:449-454 | A `docket` URL always gets a schema, and never the judgment schema. |
| Firecrawl.ExtractStructuredData | src/firecrawl_integration.py:228-268 | It raises before any call iff neither schema nor prompt is given. A single URL becomes a one-element list, and the call carries the given schema and prompt. |
| Firecrawl.ScrapeUrl | src/firecrawl_integration.py:57-83 | JSON options are attached iff a schema is given and `json` is a format. |
| Firecrawl.CrawlParams | src/firecrawl_integration.py:85-148 | The crawl parameters carry the limit, depth, lists and formats. `jsonOptions` holds the schema iff one is given and `json` is a format. |
| Schemas.ContainsAny | src/firecrawl_integration.py:445 | True iff some term of the list occurs in the text. |
| Schemas.ToJson | src/firecrawl_integration.py:283-328 | A schema dictionary is an object of type `object` with the schema's property keys and its `required` list. |
| SessionTool.DurationParts | tools/session_management.py:27-37 | Below 60, seconds. Below 3600, whole minutes. Otherwise hours and minutes, with the minutes below 60 and under a minute lost. |
| SessionTool.FormatDurationHours | tools/session_management.py:34-37 | The hours form is `{s//3600} hours, {(s%3600)//60} minutes`, losing less than a minute. |
| SessionTool.ShownContent | tools/session_management.py:169-170 | Shown content is at most 100 characters. A longer message shows its first 97 and `...`. |
| SessionTool.ShownName | tools/session_management.py:59 | A listed name is a prefix of at most 30 characters. |
| SessionTool.NamesPhraseHasNames | tools/session_management.py:237-241 | Every entity name occurs in the phrase. One name stands alone, and two or more end with ` and ` plus the last. |
| SessionTool.ContinueContextMentions | tools/session_management.py:232-247 | The context names every entity and quotes each of the last five queries. Without queries, it ends with the request for next steps. |
| BusinessSearch.DirectSite | tools/enhanced_business_search.py:97-109 | A direct site exists exactly for NY, FL, CA and TX. |
| BusinessSearch.TargetsShape | tools/enhanced_business_search.py:82-113 | USA-Corporations comes first. With a state, the uppercased state page follows, and then one direct site for NY, FL, CA or TX. Without a state, only OpenCorporates follows. |
| BusinessSearch.CallsFor | tools/enhanced_business_search.py:123-179 | At most five service calls per target page. |
| BusinessSearch.ExtractFirstSection | tools/enhanced_business_search.py:399-413 | The summary loop yields the first section of the report. |
| BusinessSearch.FirstSectionShape | tools/enhanced_business_search.py:403-413 | The first section is the report's non-blank lines, in order, from the first up to the first heading after it, capped at ten and then `...`. So at most ten non-blank report lines are kept, and only the first may be a heading. |
| BusinessSearch.NonBlankLines | tools/enhanced_business_search.py:404-406 | The lines kept as non-blank are lines of the report, and none is blank. |
| BusinessSearch.FirstHeadingIs | tools/enhanced_business_search.py:407-408 | The position found holds a heading when it is in range, and no line before it is one. |
| BusinessSearch.SectionFromLater | tools/enhanced_business_search.py:404-413 | Once a line is kept, the rest of the section is the non-blank lines before the next heading, capped at the lines still allowed. |
| BusinessSearch.SectionFromFirst | tools/enhanced_business_search.py:404-413 | From a non-blank first line, the section is that line and the later non-blank lines before the next heading, capped at ten. |
| BusinessSearch.SectionFromStart | tools/enhanced_business_search.py:404-413 | The section is empty when every line is blank. Otherwise it is the first non-blank line and the later non-blank lines before the next heading, capped at ten and then `...`. |
| BusinessSearch.CheckArguments | tools/enhanced_business_search.py:447-451 | It is accepted iff exactly one of `--business` and `--owner` is given. |
| ResearchTools.SearchParam | tools/enhanced_business_search.py:119 | A search parameter has no space. |
| ResearchTools.ExtractOne | tools/enhanced_business_search.py:146-154 | One extraction per link: by prompt or by schema as preferred, and none when the client refuses the arguments. |
| ResearchTools.LinkCalls | tools/enhanced_business_search.py:143-154 | With usable arguments, one extraction per link, in order. |
| ResearchTools.TargetCalls | tools/enhanced_business_search.py:130-179 | Mapped links give extractions of the first five. Otherwise the direct URL is extracted when there is one, else the page is scraped in markdown and JSON. A failed mapping makes no call. |
| ResearchTools.TargetCallsFollowLinks | tools/enhanced_judgment_search.py:136-156 | The calls go to the first five or fewer mapped links, in the order mapped. |
| ResearchTools.FallbackSummary | tools/enhanced_business_search.py:417-419 | The fallback ends with a newline and `...`. |
| JudgmentSearch.TargetsShape | tools/enhanced_judgment_search.py:81-102 | NYSCEF is first iff there is no state or the state uppercases to NY. USA-Corporations follows. Next comes the `{STATE}-Counties` page, or the nationwide county page without a state. UCC filings is last. |
| JudgmentSearch.RecordsFor | tools/enhanced_judgment_search.py:117-128 | A nyscef or courts URL holds court cases. A corporations or secretary URL holds entities. Anything else holds liens. |
| JudgmentSearch.SchemaFor | tools/enhanced_judgment_search.py:113-128 | The schema for each record kind is well formed. |
| JudgmentSearch.CallsFor | tools/enhanced_judgment_search.py:110-177 | At most five service calls per target page. |
| JudgmentSearch.SearchUrlShape | tools/enhanced_judgment_search.py:106-128 | A court URL gets `&PartyName=` and the name with spaces as `+`. Other URLs are searched as they are. |
| JudgmentSearch.CallsForNoLinks | tools/enhanced_judgment_search.py:157-174 | Without links, a court page is extracted by schema at its search URL, and others are scraped. |
| JudgmentSearch.KeepCleaned | tools/enhanced_judgment_search.py:259 | The kept queries are exactly the stripped queries that are not blank. |
| JudgmentSearch.QueriesShape | tools/enhanced_judgment_search.py:246-259 | The four judgment queries are always kept, stripped. The NYSCEF query is kept iff the state is exactly NY or none is given. |
| JudgmentSearch.LowercaseNyQuirk | tools/enhanced_judgment_search.py:84-255 | For the state `ny`, the NYSCEF target is searched but the NYSCEF query is dropped. |
| JudgmentSearch.ExtractSummary | tools/enhanced_judgment_search.py:349-360 | The loop with its `in_summary` flag yields the summary section. |
| JudgmentSearch.SummarySectionShape | tools/enhanced_judgment_search.py:353-360 | The summary is the lines after the first `Summary` line, up to a line starting with `#` or `**`. It is empty without such a line. |
| JudgmentSearch.ConsoleSummaryFallback | tools/enhanced_judgment_search.py:362-366 | A report with no `Summary` line is shown by its first ten lines and `...`. |
| FirecrawlTester.NamedSchema | tools/firecrawl_test.py:34-44 | A schema is named exactly by `business`, `court` or `judgment`. |
| FirecrawlTester.ChosenSchemaCases | tools/firecrawl_test.py:31-49 | There is no schema without `--extract-data`. A given `--url-type` decides alone, so an unknown type selects none. Without one, the URL is classified. |
| FirecrawlTester.WithJson | tools/firecrawl_test.py:52-53 | `json` is appended iff a schema is used and it is missing. The asked formats stay first. |
| FirecrawlTester.WithJsonDistinct | tools/firecrawl_test.py:104-105 | Completing a duplicate-free format list never duplicates `json`. |
| FirecrawlTester.ScrapeCommandSchema | tools/firecrawl_test.py:25-58 | The scrape carries the chosen schema iff one was chosen, and then asks for JSON. |
| FirecrawlTester.ListOption | tools/firecrawl_test.py:108-109 | A given list splits on commas into parts that join back to it. It is empty when absent. |
| FirecrawlTester.CrawlCommandSchema | tools/firecrawl_test.py:77-132 | The crawl attaches the chosen schema iff one was chosen, with the split excludes and includes. |
| FirecrawlTester.SearchFormats | tools/firecrawl_test.py:218 | The split list, or markdown alone. |
| FirecrawlTester.ExtractCommand | tools/firecrawl_test.py:248-291 | The request goes to the split URLs, with exactly one of a schema and a prompt. |
| FirecrawlTester.ExtractCommandPrecedence | tools/firecrawl_test.py:261-291 | A prompt wins. Then comes the named schema, then the schema detected from the first URL, then the general prompt. |
| FirecrawlTester.MapPreviewShape | tools/firecrawl_test.py:196-200 | The first ten URLs, numbered in order, and `... and N more` iff there are more. |
| FirecrawlTester.UrlsPreviewShape | tools/firecrawl_test.py:253-258 | The first five URLs as bullets, and a count line iff there are more. |
| FirecrawlTester.MarkdownPreview | tools/firecrawl_test.py:63 | At most 500 characters plus `...` when cut. |

## Left out

- The network is the oracle `Env.fetch`, indexed by the number of requests made. Request headers and timeouts are not modelled.
- HTML parsing is an oracle: `select`, `get_text`, the script and style removal and the whitespace cleanup. So are `urljoin`, MD5, UTF-8 decoding, and the PDF text extractor.
- The file system is a writability predicate plus a map of written files. `os.makedirs` is folded into the predicate `mkdirOk`. `os.walk` is a given listing.
- `relpath` against the file's own directory is modelled as the basename.
- `time.sleep` is recorded as a ghost list of delays, not taken. Logging, tqdm progress bars and console printing are left out.
- The metadata sidecar's timestamp is left out. The session manager reads the clock once per public call, as a parameter. `datetime` formatting is a given string.
- In `crawl`, `safe_execute` around `_process_url_safely` is the identity, because that method never raises.
- Whether `os.remove` of a session file works is the oracle `removable`. The index file writes of the session manager are left out. Their failures are only logged. Index loading is a given optional list.
- The entity regular expressions of `extract_entities` are an oracle. Only the key shape is modelled.
- `lower`, `upper`, `isalnum` and `\w` are modelled on ASCII only. `strip` and `split()` use Python's whitespace set.
- Numbers written as strings are not parsed by `float()`/`int()`. Such a setting is a conversion failure.
- Configuration.FromFile: a file whose JSON is not an object fails as invalid JSON. Python would build a `Config` around it and fail later, at the first `get`.
- A configuration whose `document_types` is an object is a `TypeError` in the model. Python would iterate its keys.
- Configuration.Headers: a list item that is an object, or a pair whose name is not a string, fails with a `TypeError`. Python would apply a two-key dict as a pair of its keys, and would accept a non-string name. Header names are strings in the model, and it does not keep the order of an object's keys.
- A source entry that is not an object, or whose URL is truthy but not a string, raises `AttributeError`: from `source.get` (src/crawler.py:88) or from `urlparse` (src/crawler.py:93). The model gives that exception's name, `Uncaught("AttributeError")`, but not its message.
- Crawler.LegalCrawler.Valid: states only the settings invariant and a non-negative counter. The `document_count <= max_pages` bound is a postcondition of `CrawlSource`, because a save may pass the bound outside the loop guard.
- The relevance score `1.0 - i*0.1` and its `:.2f` formatting are floating point. They are formatted by a given function. Original-document loading is an oracle.
- Schema descriptions and the order of schema properties are left out. Extraction prompts are parameters.
- Firecrawl responses are not modelled. Only the calls the tools make are. A failed `map_website` makes no call.
- The standard-crawler branches of the tools, report file writing, `check_status`, `search_web` output and the `json.dump` outputs are left out. So are the interactive loop of the session tool and `format_timestamp`.
- `setup_logger`, the LangChain, Chroma and OpenAI wrappers, the Streamlit and Langflow front ends, main.py, tools/company_research.py and tools/judgment_research.py are not part of this model.
