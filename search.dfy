/**
 * The search engine's own logic: ranking of retrieved documents, query
 * analysis, keyword extraction and the explanation text. Retrieval (the
 * vector store and its compressor) is a parameter: the documents it returns.
 */
module Search {
  import opened Wrappers
  import opened Text
  import opened JsonValue

  // ---------------------------------------------------------------- keywords

  /** Words dropped by `extract_keywords`. */
  const STOPWORDS: set<string> := {
    "a", "an", "the", "and", "or", "but", "is", "are", "was", "were",
    "be", "been", "being", "in", "on", "at", "to", "for", "with",
    "by", "about", "as", "of", "that", "this", "these", "those"}

  /** `c.lower() if c.isalnum() else ' '` */
  function CleanChar(c: char): (r: char)
    ensures r == ' ' || IsLower(r) || IsDigit(r)
    ensures IsAlnum(c) <==> r != ' '
  {
    if IsAlnum(c) then LowerChar(c) else ' '
  }

  /**
   * The text with everything but letters and digits turned into spaces and
   * letters lowercased: position by position, a space exactly where the text
   * is not alphanumeric, and otherwise the lowercased character.
   */
  function Cleaned(text: string): (r: string)
    ensures |r| == |text|
    ensures forall i :: 0 <= i < |r| ==> r[i] == ' ' || IsLower(r[i]) || IsDigit(r[i])
    ensures forall i :: 0 <= i < |r| ==> (r[i] != ' ' <==> IsAlnum(text[i]))
    ensures forall i :: 0 <= i < |r| && IsAlnum(text[i]) ==> r[i] == LowerChar(text[i])
  {
    seq(|text|, i requires 0 <= i < |text| => CleanChar(text[i]))
  }

  /** A word that `extract_keywords` keeps. */
  predicate IsKeyword(w: string)
  {
    w !in STOPWORDS && |w| > 2
  }

  /** Lowercase letters and digits only. */
  predicate IsLowerAlnum(w: string)
  {
    forall i :: 0 <= i < |w| ==> IsLower(w[i]) || IsDigit(w[i])
  }

  /** The words kept, in order. */
  function KeepKeywords(ws: seq<string>): (r: seq<string>)
    ensures forall w :: w in r <==> w in ws && IsKeyword(w)
    ensures |r| <= |ws|
    decreases |ws|
  {
    if ws == [] then []
    else (if IsKeyword(ws[0]) then [ws[0]] else []) + KeepKeywords(ws[1..])
  }

  /** `extract_keywords` */
  function Keywords(text: string): seq<string>
  {
    KeepKeywords(Words(Cleaned(text)))
  }

  /** Each word of a cleaned text is made of lowercase letters and digits. */
  lemma {:induction false} WordsOfCleanText(s: string)
    requires forall i :: 0 <= i < |s| ==> s[i] == ' ' || IsLower(s[i]) || IsDigit(s[i])
    ensures forall j :: 0 <= j < |Words(s)| ==> IsLowerAlnum(Words(s)[j])
    decreases |s|
  {
    if s != [] && IsSpace(s[0]) {
      WordsOfCleanText(s[1..]);
    } else if s != [] {
      var n := WordLength(s);
      WordsOfCleanText(s[n..]);
      assert Words(s) == [s[..n]] + Words(s[n..]);
    }
  }

  /**
   * Every keyword is a word of at least three lowercase letters or digits
   * that is not a stopword.
   */
  lemma KeywordsShape(text: string)
    ensures forall j :: 0 <= j < |Keywords(text)| ==>
      var w := Keywords(text)[j];
      IsWord(w) && IsLowerAlnum(w) && |w| > 2 && w !in STOPWORDS
  {
    var ws := Words(Cleaned(text));
    WordsOfCleanText(Cleaned(text));
    forall j | 0 <= j < |Keywords(text)|
      ensures var w := Keywords(text)[j]; IsWord(w) && IsLowerAlnum(w) && |w| > 2 && w !in STOPWORDS
    {
      var w := Keywords(text)[j];
      assert w in KeepKeywords(ws);
      var k :| 0 <= k < |ws| && ws[k] == w;
    }
  }

  /** `r` is `ws` with some elements left out, the rest in their order. */
  predicate Subsequence(r: seq<string>, ws: seq<string>)
    decreases |ws|
  {
    if r == [] then true
    else if ws == [] then false
    else if r[0] == ws[0] then Subsequence(r[1..], ws[1..])
    else Subsequence(r, ws[1..])
  }

  /** The keywords keep the order in which the words occur. */
  lemma {:induction false} KeepKeywordsInOrder(ws: seq<string>)
    ensures Subsequence(KeepKeywords(ws), ws)
    decreases |ws|
  {
    if ws != [] {
      KeepKeywordsInOrder(ws[1..]);
      if IsKeyword(ws[0]) {
        assert KeepKeywords(ws)[1..] == KeepKeywords(ws[1..]);
      } else {
        assert KeepKeywords(ws) == KeepKeywords(ws[1..]);
        SubsequenceDrop(KeepKeywords(ws[1..]), ws);
      }
    }
  }

  lemma SubsequenceDrop(r: seq<string>, ws: seq<string>)
    requires ws != [] && Subsequence(r, ws[1..])
    requires r == [] || r[0] != ws[0]
    ensures Subsequence(r, ws)
  {
  }

  /** A list whose words are all keywords is kept whole. */
  lemma {:induction false} KeepAllKeywords(ws: seq<string>)
    requires forall j :: 0 <= j < |ws| ==> IsKeyword(ws[j])
    ensures KeepKeywords(ws) == ws
    decreases |ws|
  {
    if ws != [] {
      KeepAllKeywords(ws[1..]);
      assert [ws[0]] + ws[1..] == ws;
    }
  }

  /** Joining lowercase-alphanumeric words with spaces yields a text that cleaning leaves alone. */
  lemma {:induction false} JoinIsClean(ws: seq<string>)
    requires forall j :: 0 <= j < |ws| ==> IsLowerAlnum(ws[j])
    ensures Cleaned(Join(ws, " ")) == Join(ws, " ")
    decreases |ws|
  {
    if |ws| == 1 {
      assert Join(ws, " ") == ws[0];
    } else if |ws| > 1 {
      JoinIsClean(ws[1..]);
      var rest := Join(ws[1..], " ");
      var s := ws[0] + " " + rest;
      assert Join(ws, " ") == s;
      forall i | 0 <= i < |s| ensures CleanChar(s[i]) == s[i] {
        if i < |ws[0]| {
          assert s[i] == ws[0][i];
        } else if i > |ws[0]| {
          assert s[i] == rest[i - |ws[0]| - 1];
          assert Cleaned(rest)[i - |ws[0]| - 1] == CleanChar(rest[i - |ws[0]| - 1]);
        }
      }
    }
  }

  /** Extracting keywords from the space-joined keywords gives the same keywords. */
  lemma KeywordsIdempotent(text: string)
    ensures Keywords(Join(Keywords(text), " ")) == Keywords(text)
  {
    var kws := Keywords(text);
    KeywordsShape(text);
    JoinIsClean(kws);
    WordsOfJoin(kws);
    KeepAllKeywords(kws);
  }

  // ---------------------------------------------------------------- analysis

  datatype QueryAnalysis = QueryAnalysis(query: string, length: nat, isQuestion: bool, keywords: seq<string>)

  /** `analyze_query` */
  function AnalyzeQuery(query: string): (a: QueryAnalysis)
    ensures a.query == query && a.length == |query|
    ensures a.isQuestion <==> |query| > 0 && query[|query| - 1] == '?'
    ensures a.keywords == Keywords(query)
  {
    QueryAnalysis(query, |query|, EndsWith(query, "?"), Keywords(query))
  }

  // ---------------------------------------------------------------- ranking

  /** A document the retriever returns. */
  datatype Doc = Doc(metadata: map<string, Json>, pageContent: string)

  /**
   * One formatted result. The relevance score `1.0 - rank * 0.1` is kept as
   * the rank it is computed from.
   */
  datatype Hit = Hit(source: Json, title: Json, rank: nat, content: string, documentPath: Json, original: Option<Json>)

  /** `docs[:k]` with Python's slice bounds (a negative `k` counts from the end). */
  function SliceTo<T>(docs: seq<T>, k: int): (r: seq<T>)
    ensures |r| <= |docs| && r == docs[..|r|]
    ensures k >= 0 ==> |r| == if k < |docs| then k else |docs|
    ensures k < 0 ==> |r| == if |docs| + k < 0 then 0 else |docs| + k
  {
    if k >= 0 then Take(docs, k)
    else if |docs| + k < 0 then []
    else docs[..|docs| + k]
  }

  /** `get_original_document`: nothing for an empty path; otherwise whatever loading the path gives. */
  function OriginalDocument(load: Json -> Option<Json>, documentPath: Json): Option<Json>
  {
    if !Truthy(documentPath) then None else load(documentPath)
  }

  /** The result for the document at position `i`. */
  function HitOf(load: Json -> Option<Json>, doc: Doc, i: nat): Hit
  {
    var path := Lookup(doc.metadata, "document_path", JStr(""));
    Hit(Lookup(doc.metadata, "source", JStr("Unknown")), Lookup(doc.metadata, "title", JStr("Untitled")),
      i, doc.pageContent, path, OriginalDocument(load, path))
  }

  /**
   * `search`: one result per document among the first `k` retrieved, in the
   * retriever's order, with the documented metadata defaults.
   */
  method Rank(load: Json -> Option<Json>, docs: seq<Doc>, k: int) returns (results: seq<Hit>)
    ensures |results| == |SliceTo(docs, k)| && |results| <= |docs|
    ensures k >= 0 ==> |results| <= k
    ensures forall i :: 0 <= i < |results| ==>
      && results[i].rank == i
      && results[i].content == docs[i].pageContent
      && results[i].source == Lookup(docs[i].metadata, "source", JStr("Unknown"))
      && results[i].title == Lookup(docs[i].metadata, "title", JStr("Untitled"))
      && results[i].documentPath == Lookup(docs[i].metadata, "document_path", JStr(""))
      && results[i].original == OriginalDocument(load, results[i].documentPath)
  {
    var top := SliceTo(docs, k);
    results := [];
    var i := 0;
    while i < |top|
      invariant 0 <= i <= |top|
      invariant |results| == i
      invariant forall j :: 0 <= j < i ==> results[j] == HitOf(load, docs[j], j)
    {
      results := results + [HitOf(load, top[i], i)];
      i := i + 1;
    }
  }

  // ---------------------------------------------------------------- explanation

  const NO_RESULTS := "No results found for your query."

  /** The first line of a non-empty explanation. */
  function Header(query: string, n: nat): string
  {
    "Found " + NatToString(n) + " documents related to your query: '" + query + "'\n\n"
  }

  /**
   * The numbered lines, shown from the first number `from`. `show` prints a
   * title or source, `score` prints the relevance of a rank with two decimals.
   */
  function ResultLines(results: seq<Hit>, from: nat, show: Json -> string, score: nat -> string): string
    decreases |results|
  {
    if results == [] then ""
    else
      var h := results[0];
      NatToString(from + 1) + ". " + show(h.title) + " (from " + show(h.source) + ", relevance: " + score(h.rank) + ")\n"
        + ResultLines(results[1..], from + 1, show, score)
  }

  /** `explain_results` */
  function Explain(query: string, results: seq<Hit>, show: Json -> string, score: nat -> string): string
  {
    if results == [] then NO_RESULTS
    else Header(query, |results|) + ResultLines(results, 0, show, score)
  }

  /**
   * The fixed message is given exactly when there are no results; otherwise
   * the explanation opens with the count and the query.
   */
  lemma ExplainCases(query: string, results: seq<Hit>, show: Json -> string, score: nat -> string)
    ensures Explain(query, results, show, score) == NO_RESULTS <==> results == []
    ensures results != [] ==> StartsWith(Explain(query, results, show, score), Header(query, |results|))
  {
    if results != [] {
      var r := Explain(query, results, show, score);
      var hd := Header(query, |results|);
      assert r == hd + ResultLines(results, 0, show, score);
      assert r[..|hd|] == hd;
      assert hd[0] == 'F';
      assert NO_RESULTS[0] == 'N';
    }
  }
}
