/**
 * The crawl engine (src/crawler.py): per source, a FIFO frontier of
 * `(url, depth)` entries, a set of visited URLs and a document counter; a
 * bounded retry around the processing of one URL; a size-capped body reader;
 * HTML processing that saves text and queues links; and the save steps that
 * write the artifact, then its metadata sidecar, then count the document.
 *
 * The network, the HTML parser, `urljoin`, MD5, the file system and the
 * directory creation are the oracle `Env`; sleeps are recorded, not taken.
 */
module Crawler {
  import opened Wrappers
  import opened Text
  import opened JsonValue
  import opened Configuration
  import opened Urls
  import opened CrawlerSafety
  import opened CrawlerSettings

  newtype byte = x: int | 0 <= x < 256

  /** The cap on a downloaded body, 10 MiB. */
  const MAX_CONTENT_SIZE: nat := 10 * 1024 * 1024
  const MAX_RETRIES: nat := 3
  /** Seconds slept between two attempts at one URL. */
  const RETRY_DELAY: real := 5.0
  /** At most this many selected links of a page are considered. */
  const MAX_LINKS: nat := 100

  /** An entry of the frontier. */
  datatype QueueEntry = QueueEntry(url: string, depth: int)

  /** The `Content-Length` header: absent, a number, or text `int()` rejects. */
  datatype LengthHeader = Absent | Length(n: int) | Malformed

  /** What one `requests.get(url)` followed by `raise_for_status()` yields. */
  datatype Fetch =
    | Response(contentLength: LengthHeader, contentType: Option<string>, chunks: seq<seq<byte>>)
    | Timeout
    | ConnectionFailed
    | HttpError(status: int)
    | RequestFailed        // any other RequestException

  /** A selected HTML element: its stripped text and its `href` attribute. */
  datatype Element = Element(text: string, href: Option<string>)

  /**
   * The world outside the crawler. `fetch` is indexed by the number of
   * requests made before, so repeated requests may answer differently;
   * `select` is `soup.select`, `None` where it raises; `join` is `urljoin`,
   * `None` where it raises.
   */
  datatype Env = Env(
    fetch: (string, nat) -> Fetch,
    decode: seq<byte> -> string,
    select: (string, Json) -> Option<seq<Element>>,
    pageText: string -> string,
    join: (string, string) -> Option<string>,
    md5: string -> Digest,
    writable: string -> bool,
    mkdirOk: string -> bool)

  /** What a written file holds. */
  datatype StoredFile =
    | BinaryFile(bytes: seq<byte>)
    | TextFile(text: string)
    | MetadataFile(url: string, headers: map<string, Json>, filePath: string)

  /** How one attempt at a URL ended: returned, raised a retriable error, or raised another. */
  datatype Attempt = Completed | Retriable | Failed

  /** Where a content type sends the body. */
  datatype ContentKind = HtmlPage | Document | Unsupported

  // ---------------------------------------------------------------------
  // The body reader

  /** The chunks of a streamed body, concatenated. */
  function Flatten(chunks: seq<seq<byte>>): seq<byte>
    decreases |chunks|
  {
    if chunks == [] then [] else Flatten(chunks[..|chunks| - 1]) + chunks[|chunks| - 1]
  }

  /** A prefix of the chunks never holds more bytes than all of them. */
  lemma {:induction false} FlattenPrefix(chunks: seq<seq<byte>>, i: nat)
    requires i <= |chunks|
    ensures |Flatten(chunks[..i])| <= |Flatten(chunks)|
    decreases |chunks| - i
  {
    if i < |chunks| {
      FlattenPrefix(chunks, i + 1);
      assert chunks[..i + 1][..i] == chunks[..i];
    } else {
      assert chunks[..i] == chunks;
    }
  }

  /**
   * The accumulation loop of `process_url`: chunks are appended until the
   * body exceeds the cap, when the URL is skipped. So the body is kept exactly
   * when the whole stream fits under the cap.
   */
  method ReadBody(chunks: seq<seq<byte>>) returns (body: Option<seq<byte>>)
    ensures body.Some? <==> |Flatten(chunks)| <= MAX_CONTENT_SIZE
    ensures body.Some? ==> body.value == Flatten(chunks)
  {
    var content: seq<byte> := [];
    var i := 0;
    while i < |chunks|
      invariant 0 <= i <= |chunks|
      invariant content == Flatten(chunks[..i])
      invariant |content| <= MAX_CONTENT_SIZE
    {
      assert chunks[..i + 1][..i] == chunks[..i];
      content := content + chunks[i];
      i := i + 1;
      if |content| > MAX_CONTENT_SIZE {
        FlattenPrefix(chunks, i);
        return None;
      }
    }
    assert chunks[..i] == chunks;
    return Some(content);
  }

  /** `int(response.headers.get('Content-Length', 0))`, `None` where `int()` raises. */
  function DeclaredLength(h: LengthHeader): Option<int>
  {
    match h
    case Absent => Some(0)
    case Length(n) => Some(n)
    case Malformed => None
  }

  /** A response the size cap drops: declared over the cap, or streamed over it. */
  predicate Oversized(f: Fetch)
  {
    f.Response? && DeclaredLength(f.contentLength).Some?
    && (DeclaredLength(f.contentLength).value > MAX_CONTENT_SIZE || |Flatten(f.chunks)| > MAX_CONTENT_SIZE)
  }

  /** The dispatch on the lower-cased content type: HTML first, then the document types. */
  function Dispatch(contentType: string): (k: ContentKind)
    ensures k == HtmlPage <==> Contains(contentType, "text/html")
    ensures k == Document <==> (!Contains(contentType, "text/html")
      && (Contains(contentType, "pdf") || Contains(contentType, "msword")
          || Contains(contentType, "vnd.openxmlformats-officedocument")))
  {
    if Contains(contentType, "text/html") then HtmlPage
    else if Contains(contentType, "pdf") || Contains(contentType, "msword")
         || Contains(contentType, "vnd.openxmlformats-officedocument") then Document
    else Unsupported
  }

  /** A PDF or Word body served as HTML is processed as a page, not saved as a document. */
  lemma HtmlTakesPrecedence(contentType: string)
    requires Contains(contentType, "text/html")
    ensures Dispatch(contentType) == HtmlPage
  {
  }

  // ---------------------------------------------------------------------
  // Retries

  predicate AllRetriable(tried: seq<Attempt>)
  {
    forall i :: 0 <= i < |tried| ==> tried[i] == Retriable
  }

  /**
   * The attempts one processing makes: one to three, every one before the
   * last retriable, and a retriable last one only when the attempts ran out.
   */
  predicate RetryPattern(tried: seq<Attempt>)
  {
    && 1 <= |tried| <= MAX_RETRIES
    && AllRetriable(tried[..|tried| - 1])
    && (tried[|tried| - 1] == Retriable ==> |tried| == MAX_RETRIES)
  }

  /** One more attempt after retriable ones keeps the pattern, or completes it when it does not retry. */
  lemma RetryStep(tried: seq<Attempt>, r: Attempt)
    requires AllRetriable(tried) && |tried| < MAX_RETRIES
    ensures (tried + [r])[|tried|] == r
    ensures r == Retriable ==> AllRetriable(tried + [r])
    ensures r != Retriable || |tried| + 1 == MAX_RETRIES ==> RetryPattern(tried + [r])
  {
    assert (tried + [r])[..|tried|] == tried;
  }

  /** The sleeps after `n` retried attempts. */
  function Delays(n: nat): (r: seq<real>)
    ensures |r| == n && forall i :: 0 <= i < n ==> r[i] == RETRY_DELAY
  {
    if n == 0 then [] else Delays(n - 1) + [RETRY_DELAY]
  }

  /** One more retry sleep after the earlier ones. */
  lemma SleepStep(earlier: seq<real>, n: nat)
    ensures earlier + Delays(n) + [RETRY_DELAY] == earlier + Delays(n + 1)
  {
    assert Delays(n + 1) == Delays(n) + [RETRY_DELAY];
  }

  // ---------------------------------------------------------------------
  // Links

  /** `href` after the skip rules and normalisation, or `None` when the link is skipped. */
  function NormalizedHref(env: Env, base: string, link: Element): (r: Option<string>)
    ensures r.Some? ==> link.href.Some? && link.href.value != ""
    ensures r.Some? && (StartsWith(link.href.value, "http://") || StartsWith(link.href.value, "https://")) ==>
      r.value == link.href.value
  {
    match link.href
    case None => None
    case Some(h) =>
      if h == "" then None
      else if StartsWith(h, "#") || StartsWith(h, "javascript:") || StartsWith(h, "mailto:") || StartsWith(h, "tel:") then None
      else if StartsWith(h, "http://") || StartsWith(h, "https://") then Some(h)
      else env.join(base, h)
  }

  /** A link target that may be queued: allowed by `is_valid_url`, safe, and not yet visited. */
  predicate Admissible(s: Settings, visited: set<string>, url: string)
  {
    IsValidUrl(url, s.documentTypes, SourceUrls(s.sources)) && IsSafeUrl(url) && url !in visited
  }

  /** The admission test of `extract_links` as a function value. */
  function Admit(s: Settings, visited: set<string>): string -> bool
  {
    u => Admissible(s, visited, u)
  }

  /** The entries the loop of `extract_links` appends for `links`, in order, given the admission test. */
  function LinkTargets(env: Env, base: string, depth: int, links: seq<Element>, admit: string -> bool)
    : seq<QueueEntry>
    decreases |links|
  {
    if links == [] then []
    else
      var href := NormalizedHref(env, base, links[|links| - 1]);
      LinkTargets(env, base, depth, links[..|links| - 1], admit)
      + (if href.Some? && admit(href.value) then [QueueEntry(href.value, depth + 1)] else [])
  }

  /** One more link appends at most its own entry. */
  lemma LinkTargetsStep(env: Env, base: string, depth: int, links: seq<Element>, i: nat, admit: string -> bool)
    requires i < |links|
    ensures var href := NormalizedHref(env, base, links[i]);
      LinkTargets(env, base, depth, links[..i + 1], admit)
      == LinkTargets(env, base, depth, links[..i], admit)
         + (if href.Some? && admit(href.value) then [QueueEntry(href.value, depth + 1)] else [])
  {
    assert links[..i + 1][..i] == links[..i];
  }

  /** At most one entry per link, each one level deeper, admitted, and from a link. */
  lemma {:induction false} LinkTargetsSound(env: Env, base: string, depth: int, links: seq<Element>,
                                            admit: string -> bool)
    ensures |LinkTargets(env, base, depth, links, admit)| <= |links|
    ensures forall e :: e in LinkTargets(env, base, depth, links, admit) ==>
      e.depth == depth + 1 && admit(e.url)
      && exists i :: 0 <= i < |links| && NormalizedHref(env, base, links[i]) == Some(e.url)
    decreases |links|
  {
    if links != [] {
      var front := links[..|links| - 1];
      LinkTargetsSound(env, base, depth, front, admit);
      forall e | e in LinkTargets(env, base, depth, links, admit)
        ensures exists i :: 0 <= i < |links| && NormalizedHref(env, base, links[i]) == Some(e.url)
      {
        if e in LinkTargets(env, base, depth, front, admit) {
          var i :| 0 <= i < |front| && NormalizedHref(env, base, front[i]) == Some(e.url);
          assert front[i] == links[i];
        } else {
          assert NormalizedHref(env, base, links[|links| - 1]) == Some(e.url);
        }
      }
    }
  }

  /** Every admitted normalised link is queued. */
  lemma {:induction false} LinkTargetsComplete(env: Env, base: string, depth: int, links: seq<Element>,
                                               admit: string -> bool)
    ensures forall i :: (0 <= i < |links| && NormalizedHref(env, base, links[i]).Some?
      && admit(NormalizedHref(env, base, links[i]).value)) ==>
      QueueEntry(NormalizedHref(env, base, links[i]).value, depth + 1) in LinkTargets(env, base, depth, links, admit)
    decreases |links|
  {
    if links != [] {
      var front := links[..|links| - 1];
      LinkTargetsComplete(env, base, depth, front, admit);
      forall i | 0 <= i < |links| && NormalizedHref(env, base, links[i]).Some?
        && admit(NormalizedHref(env, base, links[i]).value)
        ensures QueueEntry(NormalizedHref(env, base, links[i]).value, depth + 1)
          in LinkTargets(env, base, depth, links, admit)
      {
        if i < |front| { assert front[i] == links[i]; }
      }
    }
  }

  /** The loop of `extract_links`: the admitted targets of `links`, in order. */
  method CollectLinkTargets(env: Env, base: string, depth: int, links: seq<Element>, admit: string -> bool)
    returns (added: seq<QueueEntry>)
    ensures added == LinkTargets(env, base, depth, links, admit)
  {
    added := [];
    var i := 0;
    while i < |links|
      invariant 0 <= i <= |links|
      invariant added == LinkTargets(env, base, depth, links[..i], admit)
    {
      LinkTargetsStep(env, base, depth, links, i, admit);
      var href := NormalizedHref(env, base, links[i]);
      if href.Some? && admit(href.value) {
        added := added + [QueueEntry(href.value, depth + 1)];
      }
      i := i + 1;
    }
    assert links[..i] == links;
  }

  /** The entries `extract_links` appends: none when the link selector raises, else those of its first 100 matches. */
  function NewEntries(s: Settings, env: Env, visited: set<string>, base: string, html: string, depth: int,
                      selectors: map<string, Json>): seq<QueueEntry>
  {
    var selected := env.select(html, Lookup(selectors, "links", JStr("a")));
    if selected.None? then [] else LinkTargets(env, base, depth, Take(selected.value, MAX_LINKS), Admit(s, visited))
  }

  /** At most 100 entries, each one level deeper than the page and admissible. */
  lemma NewEntriesBounded(s: Settings, env: Env, visited: set<string>, base: string, html: string, depth: int,
                          selectors: map<string, Json>)
    ensures var added := NewEntries(s, env, visited, base, html, depth, selectors);
      && |added| <= MAX_LINKS
      && forall e :: e in added ==> e.depth == depth + 1 && Admissible(s, visited, e.url)
  {
    var selected := env.select(html, Lookup(selectors, "links", JStr("a")));
    if selected.Some? {
      LinkTargetsSound(env, base, depth, Take(selected.value, MAX_LINKS), Admit(s, visited));
    }
  }

  /**
   * Entry `i` of a queue. The facts kept about every entry of a queue are
   * stated of this term, so that a proof draws them for the entries it names.
   */
  function EntryAt(q: seq<QueueEntry>, i: int): QueueEntry
    requires 0 <= i < |q|
  {
    q[i]
  }

  /** A URL `extract_links` lets onto the frontier: allowed by `is_valid_url`, and safe. */
  predicate Allowed(s: Settings, url: string)
  {
    IsValidUrl(url, s.documentTypes, SourceUrls(s.sources)) && IsSafeUrl(url)
  }

  /**
   * What one processing may append to the frontier: at most 100 entries, only
   * from a page above the depth limit, each one level deeper and allowed and safe.
   */
  predicate Expansion(s: Settings, added: seq<QueueEntry>, depth: int)
  {
    && |added| <= MAX_LINKS
    && (added != [] ==> depth < s.maxDepth)
    && forall i {:trigger EntryAt(added, i)} :: 0 <= i < |added| ==>
         EntryAt(added, i).depth == depth + 1 && Allowed(s, EntryAt(added, i).url)
  }

  // ---------------------------------------------------------------------
  // Termination of the crawl loop

  /**
   * The weight of one entry: an entry below the depth limit outweighs the at
   * most 100 entries its page can queue.
   */
  function LevelWeight(maxDepth: int, d: int): (w: nat)
    ensures w >= 1
    decreases if d < maxDepth then maxDepth - d else 0
  {
    if d >= maxDepth then 1 else 101 * LevelWeight(maxDepth, d + 1)
  }

  function Weight(maxDepth: int, q: seq<QueueEntry>): nat
    decreases |q|
  {
    if q == [] then 0 else LevelWeight(maxDepth, q[0].depth) + Weight(maxDepth, q[1..])
  }

  lemma {:induction false} WeightConcat(maxDepth: int, a: seq<QueueEntry>, b: seq<QueueEntry>)
    ensures Weight(maxDepth, a + b) == Weight(maxDepth, a) + Weight(maxDepth, b)
    decreases |a|
  {
    if a != [] {
      assert (a + b)[1..] == a[1..] + b;
      WeightConcat(maxDepth, a[1..], b);
    } else {
      assert a + b == b;
    }
  }

  lemma {:induction false} WeightOfLevel(maxDepth: int, q: seq<QueueEntry>, d: int)
    requires forall i :: 0 <= i < |q| ==> q[i].depth == d
    ensures Weight(maxDepth, q) == |q| * LevelWeight(maxDepth, d)
    decreases |q|
  {
    if q != [] {
      WeightOfLevel(maxDepth, q[1..], d);
    }
  }

  lemma MulMonotone(a: nat, b: nat, w: nat)
    requires a <= b
    ensures a * w <= b * w
  {
    assert b * w == a * w + (b - a) * w;
  }

  /** What a processed entry queues weighs less than the entry. */
  lemma ExpansionLighter(s: Settings, added: seq<QueueEntry>, depth: int)
    requires Expansion(s, added, depth)
    ensures Weight(s.maxDepth, added) < LevelWeight(s.maxDepth, depth)
  {
    if added != [] {
      var w := LevelWeight(s.maxDepth, depth + 1);
      forall i | 0 <= i < |added|
        ensures added[i].depth == depth + 1
      {
        assert EntryAt(added, i).depth == depth + 1;
      }
      WeightOfLevel(s.maxDepth, added, depth + 1);
      MulMonotone(|added|, MAX_LINKS, w);
      assert LevelWeight(s.maxDepth, depth) == 101 * w;
    }
  }

  /**
   * Every entry the frontier of a source held: first the source URL at depth
   * 0, then only entries within the depth limit that are allowed and safe.
   */
  predicate QueueShape(s: Settings, seed: string, enqueued: seq<QueueEntry>)
  {
    && |enqueued| >= 1 && enqueued[0] == QueueEntry(seed, 0)
    && forall i {:trigger EntryAt(enqueued, i)} :: 1 <= i < |enqueued| ==>
         1 <= EntryAt(enqueued, i).depth <= s.maxDepth && Allowed(s, EntryAt(enqueued, i).url)
  }

  /** Appending what a processing queues keeps the frontier's history in shape. */
  lemma QueueShapeExtend(s: Settings, seed: string, enqueued: seq<QueueEntry>, added: seq<QueueEntry>, depth: int)
    requires QueueShape(s, seed, enqueued) && Expansion(s, added, depth)
    requires depth >= 0
    ensures QueueShape(s, seed, enqueued + added)
  {
    var all := enqueued + added;
    forall i | 1 <= i < |all|
      ensures 1 <= EntryAt(all, i).depth <= s.maxDepth && Allowed(s, EntryAt(all, i).url)
    {
      if i < |enqueued| {
        assert EntryAt(all, i) == EntryAt(enqueued, i);
      } else {
        assert EntryAt(all, i) == EntryAt(added, i - |enqueued|);
      }
    }
  }

  /**
   * Taking the first entry off the frontier and appending what its processing
   * queued keeps the history in shape and lightens the frontier.
   */
  lemma PopStep(s: Settings, seed: string, popped: seq<QueueEntry>, frontier: seq<QueueEntry>, added: seq<QueueEntry>,
                popped': seq<QueueEntry>, frontier': seq<QueueEntry>)
    requires frontier != [] && QueueShape(s, seed, popped + frontier)
    requires Expansion(s, added, frontier[0].depth)
    requires popped' == popped + [frontier[0]] && frontier' == frontier[1..] + added
    ensures QueueShape(s, seed, popped' + frontier')
    ensures Weight(s.maxDepth, frontier') < Weight(s.maxDepth, frontier)
  {
    var entry := frontier[0];
    assert EntryAt(popped + frontier, |popped|) == entry;
    PopShape(s, seed, popped, frontier, added);
    PopLighter(s, frontier, added);
  }

  lemma PopShape(s: Settings, seed: string, popped: seq<QueueEntry>, frontier: seq<QueueEntry>, added: seq<QueueEntry>)
    requires frontier != [] && QueueShape(s, seed, popped + frontier) && frontier[0].depth >= 0
    requires Expansion(s, added, frontier[0].depth)
    ensures QueueShape(s, seed, (popped + [frontier[0]]) + (frontier[1..] + added))
  {
    assert (popped + [frontier[0]]) + (frontier[1..] + added) == (popped + frontier) + added;
    QueueShapeExtend(s, seed, popped + frontier, added, frontier[0].depth);
  }

  lemma PopLighter(s: Settings, frontier: seq<QueueEntry>, added: seq<QueueEntry>)
    requires frontier != [] && Expansion(s, added, frontier[0].depth)
    ensures Weight(s.maxDepth, frontier[1..] + added) < Weight(s.maxDepth, frontier)
  {
    ExpansionLighter(s, added, frontier[0].depth);
    WeightConcat(s.maxDepth, frontier[1..], added);
  }

  /**
   * The processing record of a source: the visited set holds exactly the
   * URLs whose processing succeeded, and a URL is never processed again after
   * it succeeded.
   */
  predicate VisitLog(outcomes: seq<(string, bool)>, visited: set<string>)
  {
    && (forall u :: u in visited ==> exists i :: 0 <= i < |outcomes| && LogAt(outcomes, i) == (u, true))
    && (forall i :: 0 <= i < |outcomes| && LogAt(outcomes, i).1 ==> LogAt(outcomes, i).0 in visited)
    && forall i, j :: 0 <= i < j < |outcomes| && LogAt(outcomes, i).1 ==> LogAt(outcomes, j).0 != LogAt(outcomes, i).0
  }

  /** Outcome `i` of a record; the facts `VisitLog` keeps are stated of this term. */
  function LogAt(outcomes: seq<(string, bool)>, i: int): (string, bool)
    requires 0 <= i < |outcomes|
  {
    outcomes[i]
  }

  /** Processing an unvisited URL, and marking it visited on success, keeps the record. */
  lemma VisitLogStep(outcomes: seq<(string, bool)>, visited: set<string>, url: string, ok: bool)
    requires VisitLog(outcomes, visited) && url !in visited
    ensures VisitLog(outcomes + [(url, ok)], if ok then visited + {url} else visited)
  {
    var next := outcomes + [(url, ok)];
    assert LogAt(next, |outcomes|) == (url, ok);
    forall u | u in (if ok then visited + {url} else visited)
      ensures exists i :: 0 <= i < |next| && LogAt(next, i) == (u, true)
    {
      if u in visited {
        var i :| 0 <= i < |outcomes| && LogAt(outcomes, i) == (u, true);
        assert LogAt(next, i) == (u, true);
      }
    }
    forall i | 0 <= i < |next| && LogAt(next, i).1
      ensures LogAt(next, i).0 in (if ok then visited + {url} else visited)
    {
      if i < |outcomes| { assert LogAt(next, i) == LogAt(outcomes, i); }
    }
    forall i, j | 0 <= i < j < |next| && LogAt(next, i).1
      ensures LogAt(next, j).0 != LogAt(next, i).0
    {
      if j < |outcomes| {
        assert LogAt(next, i) == LogAt(outcomes, i) && LogAt(next, j) == LogAt(outcomes, j);
      } else {
        assert LogAt(next, i) == LogAt(outcomes, i);
        assert LogAt(outcomes, i) == (LogAt(outcomes, i).0, true);
      }
    }
  }

  // ---------------------------------------------------------------------
  // File names

  /** The name a save writes under: the generated one when safe, else `<md5>.<fallback>`. */
  function ArtifactName(env: Env, url: string, extension: Option<string>, fallback: string): string
  {
    ChosenFilename(FilenameFromUrl(url, extension, env.md5(url)), env.md5(url) + "." + fallback)
  }

  function MetadataPath(p: string): string { p + ".meta.json" }

  /** The name a document or text save writes is always safe. */
  lemma ArtifactNamesSafe(env: Env, url: string)
    ensures IsSafeFilename(ArtifactName(env, url, None, "bin"))
    ensures IsSafeFilename(ArtifactName(env, url, Some("txt"), "txt"))
  {
    BinAndTxtPlain();
    FallbackNameSafe(env.md5(url), "bin");
    FallbackNameSafe(env.md5(url), "txt");
  }

  // ---------------------------------------------------------------------
  // What saves write

  /** Where `save_document` writes the body of `url`. */
  function DocumentPath(env: Env, url: string, dir: string): string
  {
    PathJoin(dir, ArtifactName(env, url, None, "bin"))
  }

  /** Where `save_text_content` writes the text of `url`. */
  function TextPath(env: Env, url: string, dir: string): string
  {
    PathJoin(dir, ArtifactName(env, url, Some("txt"), "txt"))
  }

  /** A save returns normally exactly when the artifact and then its sidecar can be written. */
  predicate SaveSucceeds(env: Env, path: string)
  {
    env.writable(path) && env.writable(MetadataPath(path))
  }

  /**
   * The files after a save of `data` under `path`: nothing when the artifact
   * cannot be written, the artifact alone when the sidecar cannot be, else both.
   */
  function AfterSave(env: Env, headers: map<string, Json>, files: map<string, StoredFile>, url: string,
                     path: string, data: StoredFile): map<string, StoredFile>
  {
    if !env.writable(path) then files
    else if !env.writable(MetadataPath(path)) then files[path := data]
    else files[path := data][MetadataPath(path) := MetadataFile(url, headers, path)]
  }

  /** A failed save that is repeated under the same path leaves only the second artifact. */
  lemma AfterFailedSave(env: Env, headers: map<string, Json>, files: map<string, StoredFile>, url: string,
                        path: string, a: StoredFile, b: StoredFile)
    requires !SaveSucceeds(env, path)
    ensures AfterSave(env, headers, AfterSave(env, headers, files, url, path, a), url, path, b)
            == AfterSave(env, headers, files, url, path, b)
  {
    if env.writable(path) {
      assert files[path := a][path := b] == files[path := b];
    }
  }

  /**
   * The save an attempt makes: the path, the data a successful save leaves
   * there, and the data a failed one leaves (the whole-page fallback of a page
   * whose selection could not be saved writes last).
   */
  datatype Save = Save(path: string, saved: StoredFile, onFailure: StoredFile)

  /** The files after the save `sv`, if there is one. */
  function FilesAfterSave(env: Env, headers: map<string, Json>, files: map<string, StoredFile>, url: string,
                          sv: Option<Save>): map<string, StoredFile>
  {
    match sv
    case None => files
    case Some(v) =>
      AfterSave(env, headers, files, url, v.path, if SaveSucceeds(env, v.path) then v.saved else v.onFailure)
  }

  /** The save `sv` counts a document. */
  predicate Stored(env: Env, sv: Option<Save>)
  {
    sv.Some? && SaveSucceeds(env, sv.value.path)
  }

  /** The text of selected elements, one per line. */
  function SelectionText(selected: seq<Element>): string
  {
    Join(seq(|selected|, k requires 0 <= k < |selected| => selected[k].text), "\n")
  }

  /**
   * What `process_html_page` saves first: the selected text; the whole page
   * text when no content selector is set or the selector raises; nothing when
   * the selector matches no element.
   */
  function PageContent(env: Env, html: string, selectors: map<string, Json>): Option<string>
  {
    var contentSelector := Lookup(selectors, "content", JNull);
    if !Truthy(contentSelector) then Some(env.pageText(html))
    else match env.select(html, contentSelector)
      case None => Some(env.pageText(html))
      case Some(selected) => if selected == [] then None else Some(SelectionText(selected))
  }

  /** The save of a page: its content under the `.txt` name; a failed save ends with the page text there. */
  function PageSave(env: Env, url: string, html: string, selectors: map<string, Json>, dir: string): Option<Save>
  {
    match PageContent(env, html, selectors)
    case None => None
    case Some(t) => Some(Save(TextPath(env, url, dir), TextFile(t), TextFile(env.pageText(html))))
  }

  // ---------------------------------------------------------------------
  // What one attempt does

  /** A response whose body the size cap keeps: a well-formed length within the cap, and a stream within it. */
  predicate Kept(f: Fetch)
  {
    f.Response? && DeclaredLength(f.contentLength).Some? && !Oversized(f)
  }

  /** Where the lower-cased `Content-Type` of a response sends its body. */
  function KindOf(f: Fetch): ContentKind
    requires f.Response?
  {
    Dispatch(Lower(f.contentType.UnwrapOr("")))
  }

  /**
   * The save `process_url` makes for the response `f`: a page's text, a PDF
   * or Word body under the URL's name, and nothing for a dropped response or
   * another content type.
   */
  function SaveOf(env: Env, url: string, selectors: Json, dir: string, f: Fetch): Option<Save>
  {
    if !Kept(f) then None
    else match KindOf(f)
      case HtmlPage =>
        if selectors.JObj? then PageSave(env, url, env.decode(Flatten(f.chunks)), selectors.fields, dir) else None
      case Document => Some(Save(DocumentPath(env, url, dir), BinaryFile(Flatten(f.chunks)), BinaryFile(Flatten(f.chunks))))
      case Unsupported => None
  }

  /**
   * How `process_url` ends on the response `f`: timeouts and connection
   * errors are retriable; HTTP and other request errors, a malformed length,
   * a page whose selectors are not an object and a failed save raise; the rest
   * returns.
   */
  function OutcomeOf(env: Env, url: string, selectors: Json, dir: string, f: Fetch): Attempt
  {
    match f
    case Timeout => Retriable
    case ConnectionFailed => Retriable
    case HttpError(_) => Failed
    case RequestFailed => Failed
    case Response(_, _, _) =>
      if DeclaredLength(f.contentLength).None? then Failed
      else if Oversized(f) then Completed
      else if KindOf(f) == HtmlPage && !selectors.JObj? then Failed
      else
        var sv := SaveOf(env, url, selectors, dir, f);
        if sv.None? || SaveSucceeds(env, sv.value.path) then Completed else Failed
  }

  /** What `process_url` queues on the response `f`: the links of a page processed without error, above the depth limit. */
  function QueuedBy(s: Settings, env: Env, visited: set<string>, url: string, depth: int, selectors: Json, dir: string,
                    f: Fetch): seq<QueueEntry>
  {
    if Kept(f) && KindOf(f) == HtmlPage && selectors.JObj? && OutcomeOf(env, url, selectors, dir, f) == Completed
       && depth < s.maxDepth
    then NewEntries(s, env, visited, url, env.decode(Flatten(f.chunks)), depth, selectors.fields)
    else []
  }

  /** A request failure `_process_url_safely` retries: a timeout or a connection error. */
  predicate RetriableFetch(f: Fetch)
  {
    f.Timeout? || f.ConnectionFailed?
  }

  /** The part of the crawler's state an attempt changes: the files, the document count and the request count. */
  datatype Store = Store(files: map<string, StoredFile>, count: int, requests: nat)

  /** The state after an attempt at a safe URL, which makes the next request. */
  function StoreAfter(s: Settings, env: Env, url: string, selectors: Json, dir: string, before: Store): Store
  {
    var sv := SaveOf(env, url, selectors, dir, env.fetch(url, before.requests));
    Store(FilesAfterSave(env, s.headers, before.files, url, sv),
          before.count + (if Stored(env, sv) then 1 else 0), before.requests + 1)
  }

  /**
   * One `process_url` call, where `safe` says whether the URL passes
   * `_is_safe_url`: an unsafe URL returns without a request; a safe one makes
   * the next request and ends, saves and queues as its response dictates.
   */
  predicate AttemptBy(s: Settings, env: Env, url: string, safe: bool, depth: int, selectors: Json, dir: string,
                      visited: set<string>, before: Store, after: Store, r: Attempt, added: seq<QueueEntry>)
  {
    if !safe then r == Completed && after == before && added == []
    else
      var f := env.fetch(url, before.requests);
      && r == OutcomeOf(env, url, selectors, dir, f)
      && after == StoreAfter(s, env, url, selectors, dir, before)
      && added == QueuedBy(s, env, visited, url, depth, selectors, dir, f)
  }

  /** An attempt at a safe URL ends, saves and queues as the response to its request dictates. */
  lemma AttemptOfResponse(s: Settings, env: Env, url: string, depth: int, selectors: Json, dir: string,
                          visited: set<string>, before: Store, after: Store, r: Attempt, added: seq<QueueEntry>)
    requires var f := env.fetch(url, before.requests);
      var sv := SaveOf(env, url, selectors, dir, f);
      && r == OutcomeOf(env, url, selectors, dir, f)
      && after == Store(FilesAfterSave(env, s.headers, before.files, url, sv),
                        before.count + (if Stored(env, sv) then 1 else 0), before.requests + 1)
      && added == QueuedBy(s, env, visited, url, depth, selectors, dir, f)
    ensures AttemptBy(s, env, url, true, depth, selectors, dir, visited, before, after, r, added)
  {
  }

  /** An attempt at a safe URL ends as the response to its request dictates. */
  lemma AttemptOutcome(s: Settings, env: Env, url: string, depth: int, selectors: Json, dir: string,
                       visited: set<string>, before: Store, after: Store, r: Attempt, added: seq<QueueEntry>)
    requires AttemptBy(s, env, url, true, depth, selectors, dir, visited, before, after, r, added)
    ensures r == OutcomeOf(env, url, selectors, dir, env.fetch(url, before.requests))
  {
  }

  /** How the attempt that makes request `n` at `url` ends; an unsafe URL returns without a request. */
  function OutcomeAt(env: Env, url: string, safe: bool, selectors: Json, dir: string, n: nat): Attempt
  {
    if safe then OutcomeOf(env, url, selectors, dir, env.fetch(url, n)) else Completed
  }

  /** The state before the last of `k` attempts from `before`: only the retried ones made requests. */
  function LastStore(safe: bool, before: Store, k: nat): Store
  {
    if safe && k > 0 then before.(requests := before.requests + k - 1) else before
  }

  /**
   * The number of attempts `_process_url_safely` makes at a safe URL from
   * request `n` on, counting from attempt `k`: a timeout or a connection
   * error is followed by one more attempt, until `MAX_RETRIES` were made.
   */
  function Attempts(env: Env, url: string, n: nat, k: nat): (m: nat)
    requires k < MAX_RETRIES
    ensures 1 <= m <= MAX_RETRIES - k
    decreases MAX_RETRIES - k
  {
    if RetriableFetch(env.fetch(url, n)) && k + 1 < MAX_RETRIES then 1 + Attempts(env, url, n + 1, k + 1) else 1
  }

  /** Every request of the loop before its last one failed retriably. */
  lemma {:induction false} AttemptsRetried(env: Env, url: string, n: nat, k: nat, i: nat)
    requires k < MAX_RETRIES && i + 1 < Attempts(env, url, n, k)
    decreases i
    ensures RetriableFetch(env.fetch(url, n + i))
  {
    if i > 0 {
      AttemptsRetried(env, url, n + 1, k + 1, i - 1);
    }
  }

  /** The loop ends on a retriable failure only when it made all its attempts. */
  lemma {:induction false} AttemptsEnd(env: Env, url: string, n: nat, k: nat)
    requires k < MAX_RETRIES
    decreases MAX_RETRIES - k
    ensures RetriableFetch(env.fetch(url, n + Attempts(env, url, n, k) - 1)) ==> k + Attempts(env, url, n, k) == MAX_RETRIES
  {
    if RetriableFetch(env.fetch(url, n)) && k + 1 < MAX_RETRIES {
      AttemptsEnd(env, url, n + 1, k + 1);
    }
  }

  /**
   * One `_process_url_safely` call from `before`, ending in `after` having
   * made the attempts `tried` and queued `added`: at an unsafe URL one attempt
   * that returns and changes nothing; at a safe one as many attempts as the
   * responses call for, every one before the last retriable, and the last a
   * `process_url` call from the state in which only the request count moved.
   */
  predicate RetriedBy(s: Settings, env: Env, url: string, safe: bool, depth: int, selectors: Json, dir: string,
                      visited: set<string>, before: Store, after: Store, tried: seq<Attempt>, added: seq<QueueEntry>)
  {
    if !safe then tried == [Completed] && after == before && added == []
    else
      var m := Attempts(env, url, before.requests, 0);
      && |tried| == m
      && AllRetriable(tried[..m - 1])
      && AttemptBy(s, env, url, safe, depth, selectors, dir, visited, LastStore(safe, before, m), after, tried[m - 1], added)
  }

  /**
   * The retry loop after the retriable attempts `tried` from `before`: each
   * of them made one request and changed nothing else, and the loop goes on
   * from `now` with the attempts the responses still call for.
   */
  predicate Continuing(env: Env, url: string, safe: bool, before: Store, tried: seq<Attempt>, now: Store)
  {
    && |tried| < MAX_RETRIES
    && AllRetriable(tried)
    && now == before.(requests := before.requests + |tried|)
    && (tried != [] ==> safe)
    && Attempts(env, url, before.requests, 0) == |tried| + Attempts(env, url, now.requests, |tried|)
  }

  /**
   * A retriable `process_url` call from `now` that is not the last attempt
   * of the retry loop makes no change but the request, and the loop goes on.
   */
  lemma RetryGoesOn(s: Settings, env: Env, url: string, safe: bool, depth: int, selectors: Json, dir: string,
                    visited: set<string>, before: Store, tried: seq<Attempt>, now: Store, after: Store,
                    added: seq<QueueEntry>)
    requires Continuing(env, url, safe, before, tried, now) && |tried| + 1 < MAX_RETRIES
    requires AttemptBy(s, env, url, safe, depth, selectors, dir, visited, now, after, Retriable, added)
    ensures added == [] && Continuing(env, url, safe, before, tried + [Retriable], after)
  {
    FetchOutcomes(s, env, visited, url, depth, selectors, dir, env.fetch(url, now.requests));
    RetryStep(tried, Retriable);
  }

  /**
   * A `process_url` call from `now` that does not retry, or is the last
   * attempt, ends the retry loop as `RetriedBy` describes.
   */
  lemma RetryEnds(s: Settings, env: Env, url: string, safe: bool, depth: int, selectors: Json, dir: string,
                  visited: set<string>, before: Store, tried: seq<Attempt>, now: Store, after: Store,
                  r: Attempt, added: seq<QueueEntry>)
    requires Continuing(env, url, safe, before, tried, now) && (r != Retriable || |tried| + 1 == MAX_RETRIES)
    requires AttemptBy(s, env, url, safe, depth, selectors, dir, visited, now, after, r, added)
    ensures RetriedBy(s, env, url, safe, depth, selectors, dir, visited, before, after, tried + [r], added)
  {
    RetryStep(tried, r);
    if safe {
      RetriableOutcome(env, url, selectors, dir, env.fetch(url, now.requests));
      assert LastStore(safe, before, |tried| + 1) == now;
    }
  }

  /**
   * As many attempts as the responses call for, all but the last retriable,
   * and the last retriable only when its request failed retriably: this is
   * the retry pattern.
   */
  lemma AttemptsPattern(env: Env, url: string, n: nat, tried: seq<Attempt>)
    requires |tried| == Attempts(env, url, n, 0) && AllRetriable(tried[..|tried| - 1])
    requires tried[|tried| - 1] == Retriable ==> RetriableFetch(env.fetch(url, n + |tried| - 1))
    ensures RetryPattern(tried)
  {
    AttemptsEnd(env, url, n, 0);
  }

  /**
   * One `_process_url_safely` call: the attempts follow the retry pattern,
   * and only the last attempt saves or queues anything, from the state the
   * retried ones left.
   */
  lemma RetriedShape(s: Settings, env: Env, url: string, safe: bool, depth: int, selectors: Json, dir: string,
                     visited: set<string>, before: Store, after: Store, tried: seq<Attempt>, added: seq<QueueEntry>)
    requires RetriedBy(s, env, url, safe, depth, selectors, dir, visited, before, after, tried, added)
    ensures RetryPattern(tried)
    ensures AttemptBy(s, env, url, safe, depth, selectors, dir, visited, LastStore(safe, before, |tried|), after,
                      tried[|tried| - 1], added)
  {
    if safe {
      var m := |tried|;
      var last := LastStore(safe, before, m);
      assert last.requests == before.requests + m - 1;
      AttemptOutcome(s, env, url, depth, selectors, dir, visited, last, after, tried[m - 1], added);
      RetriableOutcome(env, url, selectors, dir, env.fetch(url, last.requests));
      AttemptsPattern(env, url, before.requests, tried);
    }
  }

  /** Attempt `i` of a `_process_url_safely` call ends as the `i`-th request it makes answers. */
  lemma RetriedOutcome(s: Settings, env: Env, url: string, safe: bool, depth: int, selectors: Json, dir: string,
                       visited: set<string>, before: Store, after: Store, tried: seq<Attempt>, added: seq<QueueEntry>,
                       i: nat)
    requires RetriedBy(s, env, url, safe, depth, selectors, dir, visited, before, after, tried, added)
    requires i < |tried|
    ensures tried[i] == OutcomeAt(env, url, safe, selectors, dir, before.requests + i)
  {
    if safe && i + 1 < |tried| {
      AttemptsRetried(env, url, before.requests, 0, i);
      RetriableOutcome(env, url, selectors, dir, env.fetch(url, before.requests + i));
      assert tried[..|tried| - 1][i] == tried[i];
    }
  }

  /**
   * The attempts at an unsafe URL: one, which returns and changes nothing.
   * At a safe URL: every attempt makes one request.
   */
  lemma RetriedByCases(s: Settings, env: Env, url: string, safe: bool, depth: int, selectors: Json, dir: string,
                       visited: set<string>, before: Store, after: Store, tried: seq<Attempt>, added: seq<QueueEntry>)
    requires RetriedBy(s, env, url, safe, depth, selectors, dir, visited, before, after, tried, added)
    ensures !safe ==> tried == [Completed] && after == before && added == []
    ensures safe ==> after.requests == before.requests + |tried|
  {
  }

  /**
   * An attempt counts at most one document, and only when it returns; one
   * that does not return queues nothing; a retriable one changes no file; and
   * what it queues is a bounded expansion of the page.
   */
  lemma AttemptBounds(s: Settings, env: Env, url: string, depth: int, selectors: Json, dir: string,
                      visited: set<string>, before: Store)
    ensures var f := env.fetch(url, before.requests);
      var after := StoreAfter(s, env, url, selectors, dir, before);
      var r := OutcomeOf(env, url, selectors, dir, f);
      && (after.count == before.count || (r == Completed && after.count == before.count + 1))
      && (r != Completed ==> QueuedBy(s, env, visited, url, depth, selectors, dir, f) == [])
      && (r == Retriable ==> after.files == before.files && after.count == before.count)
      && Expansion(s, QueuedBy(s, env, visited, url, depth, selectors, dir, f), depth)
  {
    var f := env.fetch(url, before.requests);
    if Kept(f) && KindOf(f) == HtmlPage && selectors.JObj? {
      NewEntriesBounded(s, env, visited, url, env.decode(Flatten(f.chunks)), depth, selectors.fields);
    }
  }

  /**
   * A processing with retries follows the retry pattern, counts at most one
   * document, and only when its last attempt returns; otherwise it queues
   * nothing; and what it queues is a bounded expansion of the page.
   */
  lemma RetriedBounds(s: Settings, env: Env, url: string, safe: bool, depth: int, selectors: Json, dir: string,
                      visited: set<string>, before: Store, after: Store, tried: seq<Attempt>, added: seq<QueueEntry>)
    requires RetriedBy(s, env, url, safe, depth, selectors, dir, visited, before, after, tried, added)
    ensures |tried| > 0 && RetryPattern(tried)
    ensures after.count == before.count || (tried[|tried| - 1] == Completed && after.count == before.count + 1)
    ensures tried[|tried| - 1] != Completed ==> added == []
    ensures Expansion(s, added, depth)
  {
    RetriedShape(s, env, url, safe, depth, selectors, dir, visited, before, after, tried, added);
    AttemptBounds(s, env, url, depth, selectors, dir, visited, LastStore(safe, before, |tried|));
  }

  /** An attempt is retriable exactly when its request timed out or could not connect. */
  lemma RetriableOutcome(env: Env, url: string, selectors: Json, dir: string, f: Fetch)
    ensures OutcomeOf(env, url, selectors, dir, f) == Retriable <==> RetriableFetch(f)
  {
  }

  /**
   * How a request's failure ends an attempt: a timeout or connection error,
   * and nothing else, is retriable; an HTTP or other request error and a
   * malformed length raise; a failed request, and an oversized body, leave
   * nothing saved and nothing queued.
   */
  lemma FetchOutcomes(s: Settings, env: Env, visited: set<string>, url: string, depth: int, selectors: Json,
                      dir: string, f: Fetch)
    ensures OutcomeOf(env, url, selectors, dir, f) == Retriable <==> RetriableFetch(f)
    ensures f.HttpError? || f.RequestFailed? || (f.Response? && f.contentLength.Malformed?) ==>
      OutcomeOf(env, url, selectors, dir, f) == Failed
    ensures !f.Response? ==>
      SaveOf(env, url, selectors, dir, f) == None && QueuedBy(s, env, visited, url, depth, selectors, dir, f) == []
    ensures Oversized(f) ==>
      && OutcomeOf(env, url, selectors, dir, f) == Completed
      && SaveOf(env, url, selectors, dir, f) == None
      && QueuedBy(s, env, visited, url, depth, selectors, dir, f) == []
  {
  }

  /**
   * The dispatch of a kept body: another content type is ignored and returns;
   * a PDF or Word body is saved under the URL's name and returns iff that
   * save does; a page with selectors that are not an object raises, and any
   * other page saves its content and queues its links exactly when it returns
   * above the depth limit.
   */
  lemma DispatchOfKept(s: Settings, env: Env, visited: set<string>, url: string, depth: int, selectors: Json,
                       dir: string, f: Fetch)
    requires Kept(f)
    ensures KindOf(f) == Unsupported ==>
      SaveOf(env, url, selectors, dir, f) == None && OutcomeOf(env, url, selectors, dir, f) == Completed
      && QueuedBy(s, env, visited, url, depth, selectors, dir, f) == []
    ensures KindOf(f) == Document ==>
      && SaveOf(env, url, selectors, dir, f)
         == Some(Save(DocumentPath(env, url, dir), BinaryFile(Flatten(f.chunks)), BinaryFile(Flatten(f.chunks))))
      && (OutcomeOf(env, url, selectors, dir, f) == Completed <==> SaveSucceeds(env, DocumentPath(env, url, dir)))
      && QueuedBy(s, env, visited, url, depth, selectors, dir, f) == []
    ensures KindOf(f) == HtmlPage && !selectors.JObj? ==>
      SaveOf(env, url, selectors, dir, f) == None && OutcomeOf(env, url, selectors, dir, f) == Failed
      && QueuedBy(s, env, visited, url, depth, selectors, dir, f) == []
    ensures KindOf(f) == HtmlPage && selectors.JObj? ==>
      var html := env.decode(Flatten(f.chunks));
      var sv := PageSave(env, url, html, selectors.fields, dir);
      && SaveOf(env, url, selectors, dir, f) == sv
      && OutcomeOf(env, url, selectors, dir, f) == (if sv.None? || SaveSucceeds(env, sv.value.path) then Completed else Failed)
      && QueuedBy(s, env, visited, url, depth, selectors, dir, f)
         == if OutcomeOf(env, url, selectors, dir, f) == Completed && depth < s.maxDepth
            then NewEntries(s, env, visited, url, html, depth, selectors.fields) else []
  {
  }

  // ---------------------------------------------------------------------
  // The record of a crawl

  /** The URLs whose processing succeeded. */
  function Succeeded(outcomes: seq<(string, bool)>): set<string>
  {
    set i | 0 <= i < |outcomes| && outcomes[i].1 :: outcomes[i].0
  }

  /** The visited set of a well-kept record is the set of URLs that succeeded. */
  lemma VisitLogSucceeded(outcomes: seq<(string, bool)>, visited: set<string>)
    requires VisitLog(outcomes, visited)
    ensures visited == Succeeded(outcomes)
  {
    forall u | u in visited ensures u in Succeeded(outcomes) {
      var i :| 0 <= i < |outcomes| && LogAt(outcomes, i) == (u, true);
    }
    forall u | u in Succeeded(outcomes) ensures u in visited {
      var i :| 0 <= i < |outcomes| && outcomes[i].1 && outcomes[i].0 == u;
      assert LogAt(outcomes, i).1;
    }
  }

  /**
   * The record of the crawl of one source: `outcomes` holds, in pop order,
   * one outcome for each popped entry whose URL had not succeeded when it was
   * popped, and none for an entry whose URL had.
   */
  predicate CrawlLog(popped: seq<QueueEntry>, outcomes: seq<(string, bool)>)
    decreases |popped|
  {
    if popped == [] then outcomes == []
    else
      var e := popped[|popped| - 1];
      var front := popped[..|popped| - 1];
      || (e.url in Succeeded(outcomes) && CrawlLog(front, outcomes))
      || (&& outcomes != [] && outcomes[|outcomes| - 1].0 == e.url
          && e.url !in Succeeded(outcomes[..|outcomes| - 1])
          && CrawlLog(front, outcomes[..|outcomes| - 1]))
  }

  /** Popping an entry whose URL succeeded adds no outcome. */
  lemma CrawlLogSkip(popped: seq<QueueEntry>, outcomes: seq<(string, bool)>, e: QueueEntry)
    requires CrawlLog(popped, outcomes) && e.url in Succeeded(outcomes)
    ensures CrawlLog(popped + [e], outcomes)
  {
    assert (popped + [e])[..|popped|] == popped;
  }

  /** Popping an entry whose URL has not succeeded adds its outcome. */
  lemma CrawlLogVisit(popped: seq<QueueEntry>, outcomes: seq<(string, bool)>, e: QueueEntry, ok: bool)
    requires CrawlLog(popped, outcomes) && e.url !in Succeeded(outcomes)
    ensures CrawlLog(popped + [e], outcomes + [(e.url, ok)])
  {
    assert (popped + [e])[..|popped|] == popped;
    assert (outcomes + [(e.url, ok)])[..|outcomes|] == outcomes;
  }

  /**
   * One pop keeps the record: an entry whose URL had succeeded adds no
   * outcome, any other entry adds its own.
   */
  lemma CrawlLogPop(popped: seq<QueueEntry>, outcomes: seq<(string, bool)>, visited: set<string>, e: QueueEntry, ok: bool,
                    popped': seq<QueueEntry>, outcomes': seq<(string, bool)>)
    requires CrawlLog(popped, outcomes) && VisitLog(outcomes, visited)
    requires popped' == popped + [e]
    requires e.url in visited ==> outcomes' == outcomes
    requires e.url !in visited ==> outcomes' == outcomes + [(e.url, ok)]
    ensures CrawlLog(popped', outcomes')
  {
    VisitLogSucceeded(outcomes, visited);
    if e.url in visited {
      CrawlLogSkip(popped, outcomes, e);
    } else {
      CrawlLogVisit(popped, outcomes, e, ok);
    }
  }

  /** There are never more outcomes than popped entries. */
  lemma {:induction false} CrawlLogBounded(popped: seq<QueueEntry>, outcomes: seq<(string, bool)>)
    requires CrawlLog(popped, outcomes)
    ensures |outcomes| <= |popped|
    decreases |popped|
  {
    if popped != [] {
      var front := popped[..|popped| - 1];
      if popped[|popped| - 1].url in Succeeded(outcomes) && CrawlLog(front, outcomes) {
        CrawlLogBounded(front, outcomes);
      } else {
        CrawlLogBounded(front, outcomes[..|outcomes| - 1]);
      }
    }
  }

  // ---------------------------------------------------------------------
  // The sources crawled

  /** The directory a source with a string name is crawled into. */
  function SourceDir(outputDir: string, source: Source): string
    requires source.name.JStr?
  {
    PathJoin(outputDir, SanitizeSourceName(source.name.s))
  }

  /**
   * The sources `crawl` crawls, in order: those with a string name whose
   * directory exists or can be created.
   */
  function CrawledSources(env: Env, outputDir: string, existing: set<string>, sources: seq<Source>): seq<Source>
    decreases |sources|
  {
    if sources == [] then []
    else
      var src := sources[|sources| - 1];
      CrawledSources(env, outputDir, existing, sources[..|sources| - 1])
      + if src.name.JStr? && (SourceDir(outputDir, src) in existing || env.mkdirOk(SourceDir(outputDir, src)))
        then [src] else []
  }

  /** One more source of the list. */
  lemma CrawledSourcesStep(env: Env, outputDir: string, existing: set<string>, sources: seq<Source>, i: nat)
    requires i < |sources|
    ensures var src := sources[i];
      CrawledSources(env, outputDir, existing, sources[..i + 1])
      == CrawledSources(env, outputDir, existing, sources[..i])
         + if src.name.JStr? && (SourceDir(outputDir, src) in existing || env.mkdirOk(SourceDir(outputDir, src)))
           then [src] else []
  {
    assert sources[..i + 1][..i] == sources[..i];
  }

  /**
   * The invariant of the source loop of `crawl` after `i` sources: each had
   * a string name, every directory that exists existed or could be created,
   * and the sources crawled so far are those `CrawledSources` picks from the
   * prefix.
   */
  predicate CrawlProgress(env: Env, outputDir: string, existing: set<string>, sources: seq<Source>, i: nat,
                          base: seq<Source>, crawled: seq<Source>, dirs: set<string>)
  {
    && i <= |sources|
    && (forall j :: 0 <= j < i ==> sources[j].name.JStr?)
    && existing <= dirs && (forall d :: d in dirs ==> d in existing || env.mkdirOk(d))
    && crawled == base + CrawledSources(env, outputDir, existing, sources[..i])
  }

  /** One iteration of the source loop, at a source with a string name, keeps its invariant. */
  lemma CrawlLoopStep(env: Env, outputDir: string, existing: set<string>, sources: seq<Source>, i: nat,
                      base: seq<Source>, crawled: seq<Source>, crawled': seq<Source>,
                      dirs: set<string>, dirs': set<string>)
    requires i < |sources| && sources[i].name.JStr?
    requires CrawlProgress(env, outputDir, existing, sources, i, base, crawled, dirs)
    requires var sourceDir := SourceDir(outputDir, sources[i]);
      && dirs' == (if sourceDir in dirs || env.mkdirOk(sourceDir) then dirs + {sourceDir} else dirs)
      && crawled' == crawled + if sourceDir in dirs' then [sources[i]] else []
    ensures CrawlProgress(env, outputDir, existing, sources, i + 1, base, crawled', dirs')
  {
    CrawledSourcesStep(env, outputDir, existing, sources, i);
  }

  /** The invariant of the source loop of `crawl` once every source is done. */
  lemma CrawlDone(env: Env, outputDir: string, existing: set<string>, sources: seq<Source>,
                  base: seq<Source>, crawled: seq<Source>, dirs: set<string>)
    requires CrawlProgress(env, outputDir, existing, sources, |sources|, base, crawled, dirs)
    ensures forall i :: 0 <= i < |sources| ==> sources[i].name.JStr?
    ensures crawled == base + CrawledSources(env, outputDir, existing, sources)
  {
    assert sources[..|sources|] == sources;
  }

  // ---------------------------------------------------------------------
  // The crawler

  class LegalCrawler {
    const settings: Settings
    const env: Env
    var visited: set<string>
    var frontier: seq<QueueEntry>
    var documentCount: int
    /** The files written, by path. */
    var files: map<string, StoredFile>
    /** The directories that exist. */
    var dirs: set<string>
    /** The number of requests made so far. */
    var requests: nat
    /** The entries taken off the frontier of the current source, in order. */
    ghost var popped: seq<QueueEntry>
    /** The URLs of the current source handed to processing, with whether processing succeeded. */
    ghost var outcomes: seq<(string, bool)>
    /** The seconds slept, in order. */
    ghost var sleeps: seq<real>
    /** The sources crawled, in order. */
    ghost var crawled: seq<Source>

    /** The state every public operation keeps. */
    predicate Valid()
      reads this
    {
      ValidSettings(settings) && 0 <= documentCount
    }

    /** `LegalCrawler(config)` for a configuration `Init` accepts. */
    constructor(config: Config, env: Env, existing: set<string>)
      requires Init(config).Success?
      ensures Valid()
      ensures settings == Init(config).value && this.env == env
      ensures visited == {} && frontier == [] && documentCount == 0
      ensures files == map[] && dirs == existing && requests == 0 && crawled == []
    {
      settings := Init(config).value;
      this.env := env;
      visited := {};
      frontier := [];
      documentCount := 0;
      files := map[];
      dirs := existing;
      requests := 0;
      popped := [];
      outcomes := [];
      sleeps := [];
      crawled := [];
    }

    /** Writes one file; it succeeds exactly when the path is writable. */
    method WriteFile(path: string, data: StoredFile) returns (ok: bool)
      modifies this`files
      ensures ok == env.writable(path)
      ensures files == if ok then old(files)[path := data] else old(files)
    {
      ok := env.writable(path);
      if ok {
        files := files[path := data];
      }
    }

    /** `save_metadata`: the sidecar `<path>.meta.json` with the URL, the headers and the path. */
    method SaveMetadata(url: string, filePath: string) returns (ok: bool)
      modifies this`files
      ensures ok == env.writable(MetadataPath(filePath))
      ensures files == if ok then old(files)[MetadataPath(filePath) := MetadataFile(url, settings.headers, filePath)]
                       else old(files)
    {
      ok := WriteFile(MetadataPath(filePath), MetadataFile(url, settings.headers, filePath));
    }

    /**
     * The artifact, then its sidecar, then the count: the count rises exactly
     * when both writes succeed, and a failed sidecar leaves the artifact behind.
     */
    method SaveWithMetadata(url: string, path: string, data: StoredFile) returns (ok: bool)
      modifies this`files, this`documentCount
      ensures ok <==> env.writable(path) && env.writable(MetadataPath(path))
      ensures documentCount == if ok then old(documentCount) + 1 else old(documentCount)
      ensures !env.writable(path) ==> files == old(files)
      ensures env.writable(path) && !env.writable(MetadataPath(path)) ==> files == old(files)[path := data]
      ensures ok ==> files == old(files)[path := data][MetadataPath(path) := MetadataFile(url, settings.headers, path)]
      ensures files == AfterSave(env, settings.headers, old(files), url, path, data)
    {
      ok := WriteFile(path, data);
      if !ok {
        return;
      }
      ok := SaveMetadata(url, path);
      if !ok {
        return;
      }
      documentCount := documentCount + 1;
    }

    /** `save_document`: under the URL's filename, or `<md5>.bin` when that is unsafe. */
    method SaveDocument(url: string, content: seq<byte>, dir: string) returns (ok: bool)
      modifies this`files, this`documentCount
      ensures var path := PathJoin(dir, ArtifactName(env, url, None, "bin"));
        && (ok <==> env.writable(path) && env.writable(MetadataPath(path)))
        && documentCount == (if ok then old(documentCount) + 1 else old(documentCount))
        && (!env.writable(path) ==> files == old(files))
        && (env.writable(path) && !ok ==> files == old(files)[path := BinaryFile(content)])
        && (ok ==> files == old(files)[path := BinaryFile(content)]
                                      [MetadataPath(path) := MetadataFile(url, settings.headers, path)])
      ensures ok == SaveSucceeds(env, DocumentPath(env, url, dir))
      ensures files == AfterSave(env, settings.headers, old(files), url, DocumentPath(env, url, dir), BinaryFile(content))
    {
      var name := ArtifactName(env, url, None, "bin");
      ok := SaveWithMetadata(url, PathJoin(dir, name), BinaryFile(content));
    }

    /** `save_text_content`: under the URL's filename with extension `txt`, or `<md5>.txt` when that is unsafe. */
    method SaveTextContent(url: string, content: string, dir: string) returns (ok: bool)
      modifies this`files, this`documentCount
      ensures var path := PathJoin(dir, ArtifactName(env, url, Some("txt"), "txt"));
        && (ok <==> env.writable(path) && env.writable(MetadataPath(path)))
        && documentCount == (if ok then old(documentCount) + 1 else old(documentCount))
        && (!env.writable(path) ==> files == old(files))
        && (env.writable(path) && !ok ==> files == old(files)[path := TextFile(content)])
        && (ok ==> files == old(files)[path := TextFile(content)]
                                      [MetadataPath(path) := MetadataFile(url, settings.headers, path)])
      ensures ok == SaveSucceeds(env, TextPath(env, url, dir))
      ensures files == AfterSave(env, settings.headers, old(files), url, TextPath(env, url, dir), TextFile(content))
    {
      var name := ArtifactName(env, url, Some("txt"), "txt");
      ok := SaveWithMetadata(url, PathJoin(dir, name), TextFile(content));
    }

    /** `extract_links`: appends the admissible targets of the page's first 100 selected links. */
    method ExtractLinks(base: string, html: string, depth: int, selectors: map<string, Json>)
      modifies this`frontier
      ensures frontier == old(frontier) + NewEntries(settings, env, visited, base, html, depth, selectors)
    {
      var selected := env.select(html, Lookup(selectors, "links", JStr("a")));
      if selected.None? {
        return;
      }
      var added := CollectLinkTargets(env, base, depth, Take(selected.value, MAX_LINKS), Admit(settings, visited));
      frontier := frontier + added;
    }

    /** Saves the whole page text; a failed save raises out of the page. */
    method SaveWholePage(url: string, html: string, dir: string) returns (ok: bool)
      modifies this`files, this`documentCount
      ensures ok == SaveSucceeds(env, TextPath(env, url, dir))
      ensures files == AfterSave(env, settings.headers, old(files), url, TextPath(env, url, dir), TextFile(env.pageText(html)))
      ensures documentCount == if ok then old(documentCount) + 1 else old(documentCount)
    {
      ok := SaveTextContent(url, env.pageText(html), dir);
    }

    /** Saves the text of the selected elements, one per line. */
    method SaveSelection(url: string, selected: seq<Element>, dir: string) returns (ok: bool)
      modifies this`files, this`documentCount
      ensures ok == SaveSucceeds(env, TextPath(env, url, dir))
      ensures files == AfterSave(env, settings.headers, old(files), url, TextPath(env, url, dir), TextFile(SelectionText(selected)))
      ensures documentCount == if ok then old(documentCount) + 1 else old(documentCount)
    {
      var texts := seq(|selected|, k requires 0 <= k < |selected| => selected[k].text);
      ok := SaveTextContent(url, Join(texts, "\n"), dir);
    }

    /**
     * The saving part of `process_html_page`: the selected content (falling
     * back to the whole page if that raises), or the whole page when no
     * content selector is set; a selector that matches nothing saves nothing.
     * The result is false when saving raised.
     */
    method SavePage(url: string, html: string, selectors: map<string, Json>, dir: string) returns (ok: bool)
      modifies this`files, this`documentCount
      ensures var sv := PageSave(env, url, html, selectors, dir);
        && ok == (sv.None? || SaveSucceeds(env, sv.value.path))
        && files == FilesAfterSave(env, settings.headers, old(files), url, sv)
        && documentCount == old(documentCount) + (if Stored(env, sv) then 1 else 0)
    {
      ghost var sv := PageSave(env, url, html, selectors, dir);
      ghost var whole := TextFile(env.pageText(html));
      ok := true;
      var contentSelector := Lookup(selectors, "content", JNull);
      if Truthy(contentSelector) {
        var selected := env.select(html, contentSelector);
        if selected.Some? {
          if selected.value == [] {
            assert sv == None;
          } else {
            assert sv == Some(Save(TextPath(env, url, dir), TextFile(SelectionText(selected.value)), whole));
            ok := SaveSelection(url, selected.value, dir);
            if !ok {
              ok := SaveWholePage(url, html, dir);
              AfterFailedSave(env, settings.headers, old(files), url, TextPath(env, url, dir),
                              TextFile(SelectionText(selected.value)), TextFile(env.pageText(html)));
            }
          }
        } else {
          assert sv == Some(Save(TextPath(env, url, dir), whole, whole));
          ok := SaveWholePage(url, html, dir);
        }
      } else {
        assert sv == Some(Save(TextPath(env, url, dir), whole, whole));
        ok := SaveWholePage(url, html, dir);
      }
    }

    /**
     * `process_html_page`: saves the page as `SavePage` does, then queues its
     * links, only from a page above the depth limit and only when saving did
     * not raise.
     */
    method ProcessHtmlPage(url: string, html: string, depth: int, selectors: Json, dir: string)
      returns (r: Attempt, ghost added: seq<QueueEntry>)
      modifies this`files, this`documentCount, this`frontier
      ensures !selectors.JObj? ==> r == Failed && files == old(files) && documentCount == old(documentCount) && added == []
      ensures selectors.JObj? ==> var sv := PageSave(env, url, html, selectors.fields, dir);
        && r == (if sv.None? || SaveSucceeds(env, sv.value.path) then Completed else Failed)
        && files == FilesAfterSave(env, settings.headers, old(files), url, sv)
        && documentCount == old(documentCount) + (if Stored(env, sv) then 1 else 0)
        && added == if r == Completed && depth < settings.maxDepth
                    then NewEntries(settings, env, visited, url, html, depth, selectors.fields) else []
      ensures frontier == old(frontier) + added
    {
      added := [];
      if !selectors.JObj? {
        return Failed, added;
      }
      var ok := SavePage(url, html, selectors.fields, dir);
      if !ok {
        return Failed, added;
      }
      if depth < settings.maxDepth {
        ExtractLinks(url, html, depth, selectors.fields);
        added := NewEntries(settings, env, visited, url, html, depth, selectors.fields);
      }
      return Completed, added;
    }

    /**
     * `process_url`: an unsafe URL returns at once, without a request; an
     * oversized body is skipped; HTML is processed, PDF and Word bodies saved,
     * and anything else ignored. Timeouts and connection errors are retriable;
     * HTTP errors, other request errors and a malformed `Content-Length` are not.
     */
    method ProcessUrl(url: string, depth: int, selectors: Json, dir: string)
      returns (r: Attempt, ghost added: seq<QueueEntry>)
      modifies this`files, this`documentCount, this`frontier, this`requests
      ensures AttemptBy(settings, env, url, IsSafeUrl(url), depth, selectors, dir, visited,
                        Store(old(files), old(documentCount), old(requests)), Store(files, documentCount, requests), r, added)
      ensures frontier == old(frontier) + added
    {
      added := [];
      if !IsSafeUrl(url) {
        return Completed, added;
      }
      ghost var before := Store(files, documentCount, requests);
      var response := env.fetch(url, requests);
      FetchOutcomes(settings, env, visited, url, depth, selectors, dir, response);
      requests := requests + 1;
      match response
      case Timeout => r := Retriable;
      case ConnectionFailed => r := Retriable;
      case HttpError(_) => r := Failed;
      case RequestFailed => r := Failed;
      case Response(lengthHeader, contentType, chunks) =>
        r, added := ProcessResponse(url, depth, selectors, dir, response);
      AttemptOfResponse(settings, env, url, depth, selectors, dir, visited, before,
                        Store(files, documentCount, requests), r, added);
    }

    /**
     * The part of `process_url` after a response arrived: a malformed
     * `Content-Length` raises, an oversized body is skipped, and the body is
     * dispatched on its content type.
     */
    method ProcessResponse(url: string, depth: int, selectors: Json, dir: string, response: Fetch)
      returns (r: Attempt, ghost added: seq<QueueEntry>)
      requires response.Response?
      modifies this`files, this`documentCount, this`frontier
      ensures r == OutcomeOf(env, url, selectors, dir, response)
      ensures files == FilesAfterSave(env, settings.headers, old(files), url, SaveOf(env, url, selectors, dir, response))
      ensures documentCount == old(documentCount) + if Stored(env, SaveOf(env, url, selectors, dir, response)) then 1 else 0
      ensures added == QueuedBy(settings, env, visited, url, depth, selectors, dir, response)
      ensures frontier == old(frontier) + added
    {
      added := [];
      FetchOutcomes(settings, env, visited, url, depth, selectors, dir, response);
      var declared := DeclaredLength(response.contentLength);
      if declared.None? {
        return Failed, added;
      }
      if declared.value > MAX_CONTENT_SIZE {
        return Completed, added;
      }
      var body := ReadBody(response.chunks);
      if body.None? {
        return Completed, added;
      }
      r, added := ProcessBody(url, depth, selectors, dir, response, body.value);
    }

    /** The dispatch of a body the size cap kept, on the response's lower-cased content type. */
    method ProcessBody(url: string, depth: int, selectors: Json, dir: string, response: Fetch, body: seq<byte>)
      returns (r: Attempt, ghost added: seq<QueueEntry>)
      requires Kept(response) && body == Flatten(response.chunks)
      modifies this`files, this`documentCount, this`frontier
      ensures r == OutcomeOf(env, url, selectors, dir, response)
      ensures files == FilesAfterSave(env, settings.headers, old(files), url, SaveOf(env, url, selectors, dir, response))
      ensures documentCount == old(documentCount) + if Stored(env, SaveOf(env, url, selectors, dir, response)) then 1 else 0
      ensures added == QueuedBy(settings, env, visited, url, depth, selectors, dir, response)
      ensures frontier == old(frontier) + added
    {
      added := [];
      DispatchOfKept(settings, env, visited, url, depth, selectors, dir, response);
      var kind := Dispatch(Lower(response.contentType.UnwrapOr("")));
      if kind == HtmlPage {
        r, added := ProcessHtmlPage(url, env.decode(body), depth, selectors, dir);
      } else if kind == Document {
        var ok := SaveDocument(url, body, dir);
        r := if ok then Completed else Failed;
      } else {
        r := Completed;
      }
    }

    /**
     * The attempt after the retriable attempts `tried` of the retry loop from
     * `before`: `process_url`. It is the last attempt of the loop, or a
     * retriable one that queues nothing and leaves the state the next
     * attempt starts from.
     */
    method TryOnce(url: string, depth: int, selectors: Json, dir: string, ghost before: Store, ghost tried: seq<Attempt>)
      returns (r: Attempt, ghost added: seq<QueueEntry>)
      requires Continuing(env, url, IsSafeUrl(url), before, tried, Store(files, documentCount, requests))
      modifies this`files, this`documentCount, this`frontier, this`requests
      ensures frontier == old(frontier) + added
      ensures r == Retriable && |tried| + 1 < MAX_RETRIES ==>
        added == [] && Continuing(env, url, IsSafeUrl(url), before, tried + [r], Store(files, documentCount, requests))
      ensures r != Retriable || |tried| + 1 == MAX_RETRIES ==>
        RetriedBy(settings, env, url, IsSafeUrl(url), depth, selectors, dir, visited, before, Store(files, documentCount, requests),
                  tried + [r], added)
    {
      ghost var now := Store(files, documentCount, requests);
      r, added := ProcessUrl(url, depth, selectors, dir);
      if r == Retriable && |tried| + 1 < MAX_RETRIES {
        RetryGoesOn(settings, env, url, IsSafeUrl(url), depth, selectors, dir, visited, before, tried, now,
                    Store(files, documentCount, requests), added);
      } else {
        RetryEnds(settings, env, url, IsSafeUrl(url), depth, selectors, dir, visited, before, tried, now,
                  Store(files, documentCount, requests), r, added);
      }
    }

    /**
     * `_process_url_safely`: up to three attempts; the first that returns
     * makes it true, one that raises anything but a timeout or connection
     * error makes it false at once, and each retried attempt is followed by a
     * five-second sleep; there is no sleep after the last attempt.
     */
    method ProcessUrlSafely(url: string, depth: int, selectors: Json, dir: string)
      returns (ok: bool, ghost tried: seq<Attempt>, ghost added: seq<QueueEntry>)
      modifies this`files, this`documentCount, this`frontier, this`requests, this`sleeps
      ensures RetriedBy(settings, env, url, IsSafeUrl(url), depth, selectors, dir, visited,
                        Store(old(files), old(documentCount), old(requests)), Store(files, documentCount, requests), tried, added)
      ensures |tried| > 0 && (ok <==> tried[|tried| - 1] == Completed)
      ensures sleeps == old(sleeps) + Delays(|tried| - 1)
      ensures frontier == old(frontier) + added
    {
      ghost var before := Store(files, documentCount, requests);
      tried := [];
      var attempt := 0;
      while true
        invariant attempt == |tried|
        invariant Continuing(env, url, IsSafeUrl(url), before, tried, Store(files, documentCount, requests))
        invariant frontier == old(frontier)
        invariant sleeps == old(sleeps) + Delays(|tried|)
        decreases MAX_RETRIES - attempt
      {
        var r;
        r, added := TryOnce(url, depth, selectors, dir, before, tried);
        tried := tried + [r];
        attempt := attempt + 1;
        if r != Retriable || attempt == MAX_RETRIES {
          return r == Completed, tried, added;
        }
        SleepStep(old(sleeps), |tried| - 1);
        sleeps := sleeps + [RETRY_DELAY];
      }
    }

    /**
     * One unvisited frontier entry: process it with retries, mark it visited
     * when that succeeded, then sleep the request delay.
     */
    method VisitEntry(entry: QueueEntry, selectors: Json, dir: string, ghost before: Store, ghost seen: set<string>)
      returns (ok: bool, ghost tried: seq<Attempt>, ghost added: seq<QueueEntry>)
      requires entry.url !in visited && VisitLog(outcomes, visited)
      requires before == Store(files, documentCount, requests) && seen == visited
      modifies this`visited, this`frontier, this`documentCount, this`files, this`requests
      modifies this`outcomes, this`sleeps
      ensures RetriedBy(settings, env, entry.url, IsSafeUrl(entry.url), entry.depth, selectors, dir, seen,
                        before, Store(files, documentCount, requests), tried, added)
      ensures RetryPattern(tried)
      ensures ok <==> tried[|tried| - 1] == Completed
      ensures VisitLog(outcomes, visited)
      ensures outcomes == old(outcomes) + [(entry.url, ok)]
      ensures visited == if ok then old(visited) + {entry.url} else old(visited)
      ensures documentCount == old(documentCount) || (ok && documentCount == old(documentCount) + 1)
      ensures frontier == old(frontier) + added
      ensures Expansion(settings, added, entry.depth)
      ensures sleeps == old(sleeps) + Delays(|tried| - 1) + [settings.requestDelay]
    {
      ok, tried, added := ProcessUrlSafely(entry.url, entry.depth, selectors, dir);
      RetriedBounds(settings, env, entry.url, IsSafeUrl(entry.url), entry.depth, selectors, dir, seen,
                    before, Store(files, documentCount, requests), tried, added);
      VisitLogStep(outcomes, visited, entry.url, ok);
      outcomes := outcomes + [(entry.url, ok)];
      if ok {
        visited := visited + {entry.url};
      }
      sleeps := sleeps + [settings.requestDelay];
    }

    /**
     * The crawl of one source (the body of the `for source` loop of `crawl`):
     * reset the visited set, the frontier and the count; then, while the
     * frontier is non-empty and fewer than `max_pages` documents were saved,
     * take the first entry, skip it if its URL was visited, otherwise process
     * it, mark it visited when processing succeeded, and sleep the request delay.
     */
    method CrawlSource(source: Source, dir: string)
      requires 0 <= settings.maxPages
      modifies this`visited, this`frontier, this`documentCount, this`files, this`requests
      modifies this`popped, this`outcomes, this`sleeps
      ensures 0 <= documentCount <= settings.maxPages
      ensures frontier == [] || documentCount == settings.maxPages
      ensures QueueShape(settings, source.url, popped + frontier)
      ensures VisitLog(outcomes, visited)
      ensures CrawlLog(popped, outcomes) && |outcomes| <= |popped|
    {
      visited := {};
      frontier := [QueueEntry(source.url, 0)];
      documentCount := 0;
      popped := [];
      outcomes := [];
      while frontier != [] && documentCount < settings.maxPages
        invariant 0 <= documentCount <= settings.maxPages
        invariant QueueShape(settings, source.url, popped + frontier)
        invariant VisitLog(outcomes, visited)
        invariant CrawlLog(popped, outcomes)
        decreases Weight(settings.maxDepth, frontier)
      {
        ghost var tried, added := CrawlStep(source, dir);
      }
      CrawlLogBounded(popped, outcomes);
    }

    /**
     * One round of the crawl loop: take the first frontier entry; skip it,
     * changing nothing else, if its URL was visited; otherwise visit it, with
     * its outcome recorded and what it queued appended behind the rest of the
     * frontier. What it queues weighs less than it did.
     */
    method CrawlStep(source: Source, dir: string) returns (ghost tried: seq<Attempt>, ghost added: seq<QueueEntry>)
      requires frontier != [] && 0 <= documentCount < settings.maxPages
      requires QueueShape(settings, source.url, popped + frontier)
      requires VisitLog(outcomes, visited) && CrawlLog(popped, outcomes)
      modifies this`visited, this`frontier, this`documentCount, this`files, this`requests
      modifies this`popped, this`outcomes, this`sleeps
      ensures popped == old(popped) + [old(frontier)[0]]
      ensures frontier == old(frontier)[1..] + added
      ensures var e := old(frontier)[0];
        e.url in old(visited) ==>
          && tried == [] && added == [] && visited == old(visited) && outcomes == old(outcomes)
          && files == old(files) && documentCount == old(documentCount) && requests == old(requests)
          && sleeps == old(sleeps)
      ensures var e := old(frontier)[0];
        e.url !in old(visited) ==>
          && RetriedBy(settings, env, e.url, IsSafeUrl(e.url), e.depth, source.selectors, dir, old(visited),
                       Store(old(files), old(documentCount), old(requests)), Store(files, documentCount, requests), tried, added)
          && outcomes == old(outcomes) + [(e.url, tried[|tried| - 1] == Completed)]
      ensures 0 <= documentCount <= settings.maxPages
      ensures QueueShape(settings, source.url, popped + frontier)
      ensures VisitLog(outcomes, visited) && CrawlLog(popped, outcomes)
      ensures Weight(settings.maxDepth, frontier) < Weight(settings.maxDepth, old(frontier))
    {
      ghost var popped0, frontier0 := popped, frontier;
      var entry := frontier[0];
      frontier := frontier[1..];
      popped := popped + [entry];
      tried, added := [], [];
      var ok := false;
      if entry.url !in visited {
        ok, tried, added := VisitEntry(entry, source.selectors, dir, Store(old(files), old(documentCount), old(requests)),
                                       old(visited));
      } else {
        assert frontier == frontier + [];
      }
      CrawlLogPop(popped0, old(outcomes), old(visited), entry, ok, popped, outcomes);
      PopStep(settings, source.url, popped0, frontier0, added, popped, frontier);
    }

    /**
     * One iteration of the `for source` loop of `crawl`: a name that is not a
     * string raises (the result is false); otherwise the source is crawled
     * under `<output>/<sanitised name>`, unless that directory is missing and
     * cannot be created.
     */
    method CrawlNamedSource(outputDir: string, source: Source) returns (named: bool)
      requires 0 <= settings.maxPages && 0 <= documentCount
      modifies this
      ensures named == source.name.JStr? && 0 <= documentCount && old(dirs) <= dirs
      ensures !named ==> unchanged(this)
      ensures named ==> var sourceDir := SourceDir(outputDir, source);
        && dirs == (if sourceDir in old(dirs) || env.mkdirOk(sourceDir) then old(dirs) + {sourceDir} else old(dirs))
        && crawled == old(crawled) + if sourceDir in dirs then [source] else []
      ensures named && SourceDir(outputDir, source) in dirs ==>
        && documentCount <= settings.maxPages
        && (frontier == [] || documentCount == settings.maxPages)
        && QueueShape(settings, source.url, popped + frontier)
        && VisitLog(outcomes, visited) && CrawlLog(popped, outcomes)
      ensures named && SourceDir(outputDir, source) !in dirs ==>
        && visited == old(visited) && frontier == old(frontier)
        && documentCount == old(documentCount) && files == old(files) && requests == old(requests)
    {
      if !source.name.JStr? {
        return false;
      }
      named := true;
      var sourceDir := PathJoin(outputDir, SanitizeSourceName(source.name.s));
      if sourceDir !in dirs {
        if env.mkdirOk(sourceDir) {
          dirs := dirs + {sourceDir};
        }
      }
      if sourceDir in dirs {
        CrawlSource(source, sourceDir);
        crawled := crawled + [source];
      }
    }

    /**
     * Source `i` of the source loop of `crawl`: it stops the loop when the
     * name is not a string, and otherwise keeps the loop's invariant.
     */
    method CrawlNext(outputDir: string, ghost existing: set<string>, i: nat, ghost base: seq<Source>) returns (named: bool)
      requires i < |settings.sources| && 0 <= settings.maxPages && 0 <= documentCount
      requires CrawlProgress(env, outputDir, existing, settings.sources, i, base, crawled, dirs)
      modifies this
      ensures named == settings.sources[i].name.JStr? && 0 <= documentCount && old(dirs) <= dirs
      ensures named ==> CrawlProgress(env, outputDir, existing, settings.sources, i + 1, base, crawled, dirs)
    {
      ghost var crawled0, dirs0 := crawled, dirs;
      named := CrawlNamedSource(outputDir, settings.sources[i]);
      if named {
        CrawlLoopStep(env, outputDir, existing, settings.sources, i, base, crawled0, crawled, dirs0, dirs);
      }
    }

    /**
     * `crawl`: creates the output directory (failing when that fails), then
     * crawls every source in turn under `<output>/<sanitised name>`, skipping a
     * source whose directory cannot be created. A source name that is not a
     * string makes the crawl fail at that source.
     */
    method Crawl(outputDir: string) returns (r: Result<(), string>)
      requires Valid()
      modifies this
      ensures Valid()
      ensures outputDir !in old(dirs) && !env.mkdirOk(outputDir) ==> r.Failure? && unchanged(this)
      ensures r.Success? <==> (outputDir in old(dirs) || env.mkdirOk(outputDir))
                              && forall i :: 0 <= i < |settings.sources| ==> settings.sources[i].name.JStr?
      ensures r.Success? ==>
        && outputDir in dirs
        && crawled == old(crawled) + CrawledSources(env, outputDir, old(dirs) + {outputDir}, settings.sources)
      ensures old(dirs) <= dirs
    {
      if outputDir !in dirs {
        if !env.mkdirOk(outputDir) {
          return Failure("Failed to create output directory " + outputDir);
        }
        dirs := dirs + {outputDir};
      }
      ghost var existing := dirs;
      assert existing == old(dirs) + {outputDir};
      var i := 0;
      while i < |settings.sources|
        invariant 0 <= i <= |settings.sources|
        invariant 0 <= documentCount
        invariant old(dirs) <= dirs
        invariant CrawlProgress(env, outputDir, existing, settings.sources, i, old(crawled), crawled, dirs)
      {
        var named := CrawlNext(outputDir, existing, i, old(crawled));
        if !named {
          return Failure("Crawling failed");
        }
        i := i + 1;
      }
      CrawlDone(env, outputDir, existing, settings.sources, old(crawled), crawled, dirs);
      return Success(());
    }
  }
}
