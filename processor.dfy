/**
 * The document processor: discovers raw documents under an input directory,
 * extracts their text by file type, structures it (title, sections, entity
 * table) and saves one JSON record per document in the output directory.
 *
 * The file system, the HTML and PDF text extractors and the two entity
 * regular expressions are the oracle `Env`.
 */
module Processor {
  import opened Wrappers
  import opened Text
  import opened JsonValue
  import opened Urls

  /** What the processor observes of the outside world. */
  datatype Env = Env(
    present: string -> bool,            // `os.path.exists`
    mkdirOk: string -> bool,            // `os.makedirs` succeeds
    readJson: string -> Option<Json>,   // `json.load` of a file; None when it raises
    readText: string -> Option<string>, // reading a text file; None when it cannot be opened
    htmlText: string -> Option<string>, // cleaned text of an HTML file; None when it cannot be opened
    pdfText: string -> string,          // text of a PDF file; extraction errors are swallowed
    caseNumbers: string -> seq<string>, // `re.findall` of the case-number pattern
    dates: string -> seq<string>,       // `re.findall` of the date pattern
    writable: string -> bool)           // writing the output file succeeds

  /** Why processing one document raised. */
  datatype Fault =
    | BadMetadata        // the sidecar exists but is not valid JSON
    | MetadataNotObject  // the sidecar holds JSON that is not an object
    | Unreadable         // the document cannot be opened
    | WriteFailed        // the output file cannot be written
    | OutputDirFailed    // the output directory cannot be created

  // ---------------------------------------------------------------- discovery

  const METADATA_SUFFIX := ".meta.json"

  predicate HasDocumentExtension(f: string)
  {
    EndsWith(f, ".txt") || EndsWith(f, ".html") || EndsWith(f, ".pdf") || EndsWith(f, ".doc") || EndsWith(f, ".docx")
  }

  /** The file filter of `process_directory`. */
  predicate Selected(f: string)
  {
    HasDocumentExtension(f) && !EndsWith(f, METADATA_SUFFIX)
  }

  /** The last characters of the extensions involved, which tell them apart from the sidecar suffix. */
  lemma SuffixLastChars()
    ensures ".txt"[3] == 't' && ".html"[4] == 'l' && ".pdf"[3] == 'f' && ".doc"[3] == 'c' && ".docx"[4] == 'x'
    ensures METADATA_SUFFIX[9] == 'n'
  {
  }

  /** A metadata sidecar never carries a document extension. */
  lemma SidecarHasNoDocumentExtension(f: string)
    requires EndsWith(f, METADATA_SUFFIX)
    ensures !HasDocumentExtension(f)
  {
    SuffixLastChars();
    EndsWithLast(f, METADATA_SUFFIX);
    if EndsWith(f, ".txt") { EndsWithLast(f, ".txt"); }
    if EndsWith(f, ".html") { EndsWithLast(f, ".html"); }
    if EndsWith(f, ".pdf") { EndsWithLast(f, ".pdf"); }
    if EndsWith(f, ".doc") { EndsWithLast(f, ".doc"); }
    if EndsWith(f, ".docx") { EndsWithLast(f, ".docx"); }
  }

  /**
   * A file is selected exactly when it has a document extension; sidecars are
   * never selected.
   */
  lemma SelectedIffDocumentExtension(f: string)
    ensures Selected(f) <==> HasDocumentExtension(f)
    ensures EndsWith(f, METADATA_SUFFIX) ==> !Selected(f)
  {
    if EndsWith(f, METADATA_SUFFIX) {
      SidecarHasNoDocumentExtension(f);
    }
  }

  /** The selected files of one directory, joined to its path, in listing order. */
  function SelectIn(root: string, files: seq<string>): seq<string>
    decreases |files|
  {
    if files == [] then []
    else
      var f := files[|files| - 1];
      SelectIn(root, files[..|files| - 1]) + (if Selected(f) then [PathJoin(root, f)] else [])
  }

  /** The documents of an `os.walk` listing: each directory's selected files, in walk order. */
  function Discovered(walk: seq<(string, seq<string>)>): seq<string>
    decreases |walk|
  {
    if walk == [] then []
    else
      var last := walk[|walk| - 1];
      Discovered(walk[..|walk| - 1]) + SelectIn(last.0, last.1)
  }

  /** The discovery loop of `process_directory`. */
  method DiscoverDocuments(walk: seq<(string, seq<string>)>) returns (documents: seq<string>)
    ensures documents == Discovered(walk)
  {
    documents := [];
    var k := 0;
    while k < |walk|
      invariant 0 <= k <= |walk|
      invariant documents == Discovered(walk[..k])
    {
      var root := walk[k].0;
      var files := walk[k].1;
      var before := documents;
      var j := 0;
      while j < |files|
        invariant 0 <= j <= |files|
        invariant documents == before + SelectIn(root, files[..j])
      {
        assert files[..j + 1][..j] == files[..j];
        if Selected(files[j]) {
          documents := documents + [PathJoin(root, files[j])];
        }
        j := j + 1;
      }
      assert files[..j] == files;
      assert walk[..k + 1][..k] == walk[..k];
      k := k + 1;
    }
    assert walk[..k] == walk;
  }

  /** A joined path ends with the file name that was joined. */
  lemma JoinedEndsWithName(root: string, f: string)
    ensures EndsWith(PathJoin(root, f), f)
  {
    if IsAbsolute(f) {
      assert f[|f| - |f|..] == f;
    }
  }

  /** Every document of a directory ends with a document extension. */
  lemma {:induction false} SelectInDispatchable(root: string, files: seq<string>)
    ensures forall d :: d in SelectIn(root, files) ==> HasDocumentExtension(d)
    decreases |files|
  {
    if files != [] {
      var f := files[|files| - 1];
      SelectInDispatchable(root, files[..|files| - 1]);
      if Selected(f) {
        var d := PathJoin(root, f);
        JoinedEndsWithName(root, f);
        if EndsWith(f, ".txt") { EndsWithTrans(d, f, ".txt"); }
        if EndsWith(f, ".html") { EndsWithTrans(d, f, ".html"); }
        if EndsWith(f, ".pdf") { EndsWithTrans(d, f, ".pdf"); }
        if EndsWith(f, ".doc") { EndsWithTrans(d, f, ".doc"); }
        if EndsWith(f, ".docx") { EndsWithTrans(d, f, ".docx"); }
      }
    }
  }

  /**
   * Every discovered document has a type `process_document` handles, and none
   * of them is a metadata sidecar.
   */
  lemma {:induction false} DiscoveredDispatchable(walk: seq<(string, seq<string>)>)
    ensures forall d :: d in Discovered(walk) ==> KindOf(d) != Unsupported && !EndsWith(d, METADATA_SUFFIX)
    decreases |walk|
  {
    if walk != [] {
      var last := walk[|walk| - 1];
      DiscoveredDispatchable(walk[..|walk| - 1]);
      SelectInDispatchable(last.0, last.1);
      forall d | d in SelectIn(last.0, last.1)
        ensures KindOf(d) != Unsupported && !EndsWith(d, METADATA_SUFFIX)
      {
        if EndsWith(d, METADATA_SUFFIX) {
          SidecarHasNoDocumentExtension(d);
        }
      }
    }
  }

  // ---------------------------------------------------------------- dispatch

  datatype Kind = TextFile | HtmlFile | PdfFile | WordFile | Unsupported

  /** The extension test of `process_document`, in its order. */
  function KindOf(path: string): (k: Kind)
    ensures k != Unsupported <==> HasDocumentExtension(path)
  {
    if EndsWith(path, ".txt") then TextFile
    else if EndsWith(path, ".html") then HtmlFile
    else if EndsWith(path, ".pdf") then PdfFile
    else if EndsWith(path, ".doc") || EndsWith(path, ".docx") then WordFile
    else Unsupported
  }

  /** The placeholder text of a Word document. */
  function WordPlaceholder(path: string): string
  {
    "[Content of Word document: " + path + "]"
  }

  /** The text extracted from a document of a handled type; None when extraction raises. */
  function ExtractContent(env: Env, path: string, kind: Kind): (r: Option<string>)
    requires kind != Unsupported
    ensures kind == PdfFile || kind == WordFile ==> r.Some?
  {
    match kind
    case TextFile => env.readText(path)
    case HtmlFile => env.htmlText(path)
    case PdfFile => Some(env.pdfText(path))
    case WordFile => Some(WordPlaceholder(path))
  }

  /** `load_metadata`: the sidecar's JSON, or `{}` when there is no sidecar. */
  function LoadMetadata(env: Env, path: string): (r: Result<Json, Fault>)
    ensures !env.present(path + METADATA_SUFFIX) ==> r == Success(JObj(map[]))
    ensures env.present(path + METADATA_SUFFIX) ==>
      (r.Success? <==> env.readJson(path + METADATA_SUFFIX).Some?)
  {
    var metaPath := path + METADATA_SUFFIX;
    if env.present(metaPath) then
      match env.readJson(metaPath)
      case Some(j) => Success(j)
      case None => Failure(BadMetadata)
    else Success(JObj(map[]))
  }

  // ---------------------------------------------------------------- title

  /** The index of the first line that is not blank once stripped, or -1. */
  function FirstNonBlank(lines: seq<string>): (k: int)
    ensures -1 <= k < |lines|
    ensures k >= 0 ==> Strip(lines[k]) != ""
    ensures forall j :: 0 <= j < |lines| && (k < 0 || j < k) ==> Strip(lines[j]) == ""
    decreases |lines|
  {
    if lines == [] then -1
    else if Strip(lines[0]) != "" then 0
    else
      var k := FirstNonBlank(lines[1..]);
      if k < 0 then -1 else k + 1
  }

  lemma FirstNonBlankAt(lines: seq<string>, i: int)
    requires 0 <= i < |lines| && Strip(lines[i]) != ""
    requires forall j :: 0 <= j < i ==> Strip(lines[j]) == ""
    ensures FirstNonBlank(lines) == i
  {
  }

  /** The title heuristic: the first non-blank stripped line of the stripped content, else the file's basename. */
  function Title(content: string, filePath: string): string
  {
    TitleOfLines(Split(Strip(content), '\n'), filePath)
  }

  function TitleOfLines(lines: seq<string>, filePath: string): string
  {
    var k := FirstNonBlank(lines);
    if k >= 0 then Strip(lines[k]) else Basename(filePath)
  }

  /** The line loop of `extract_title`: the first line that is not blank once stripped, else the basename. */
  method TitleFromLines(lines: seq<string>, filePath: string) returns (title: string)
    ensures title == TitleOfLines(lines, filePath)
  {
    var i := 0;
    while i < |lines|
      invariant 0 <= i <= |lines|
      invariant forall j :: 0 <= j < i ==> Strip(lines[j]) == ""
    {
      var line := Strip(lines[i]);
      if line != "" {
        FirstNonBlankAt(lines, i);
        return line;
      }
      i := i + 1;
    }
    return Basename(filePath);
  }

  /** `extract_title` */
  method ExtractTitle(content: string, filePath: string) returns (title: string)
    ensures title == Title(content, filePath)
  {
    title := TitleFromLines(Split(Strip(content), '\n'), filePath);
  }

  /**
   * Because the content is stripped before it is split, the title of a
   * non-blank text is always its first line, stripped, and is never empty; a
   * blank text takes the file's basename.
   */
  lemma TitleIsFirstLine(content: string, filePath: string)
    ensures !IsBlank(content) ==>
      Title(content, filePath) == Strip(Split(Strip(content), '\n')[0]) && Title(content, filePath) != ""
    ensures IsBlank(content) ==> Title(content, filePath) == Basename(filePath)
  {
    StripEmptyIffBlank(content);
    var s := Strip(content);
    var lines := Split(s, '\n');
    if s != "" {
      var i := FindChar(s, '\n');
      assert i != 0;
      assert lines[0] == if i < 0 then s else s[..i];
      assert lines[0][0] == s[0];
      StripEmptyIffBlank(lines[0]);
      assert FirstNonBlank(lines) == 0;
    } else {
      assert lines == [""];
      StripEmptyIffBlank("");
    }
  }

  // ---------------------------------------------------------------- sections

  datatype Section = Section(heading: string, content: string)

  /** A stripped line that `^[A-Z\s]+$` matches and that is shorter than 100 characters. */
  predicate IsHeading(line: string)
  {
    line != [] && |line| < 100 && forall i :: 0 <= i < |line| ==> IsUpper(line[i]) || IsSpace(line[i])
  }

  /** The running state of `extract_sections`: finished sections, the open heading and its lines. */
  datatype ScanState = ScanState(done: seq<Section>, current: Option<string>, body: seq<string>)

  const START := ScanState([], None, [])

  /** The finished sections once the open one, if any, is closed. */
  function Flush(st: ScanState): seq<Section>
  {
    if st.current.Some? then st.done + [Section(st.current.value, Join(st.body, "\n"))] else st.done
  }

  /** One iteration of the line loop. */
  function Step(st: ScanState, raw: string): ScanState
  {
    var line := Strip(raw);
    if line == "" then st
    else if IsHeading(line) then ScanState(Flush(st), Some(line), [])
    else if st.current.Some? then st.(body := st.body + [line])
    else st
  }

  /** The loop run from state `st` over `lines`. */
  function Run(st: ScanState, lines: seq<string>): ScanState
    decreases |lines|
  {
    if lines == [] then st else Step(Run(st, lines[..|lines| - 1]), lines[|lines| - 1])
  }

  function SectionsOfLines(lines: seq<string>): seq<Section>
  {
    Flush(Run(START, lines))
  }

  /** The sections of a text, as `extract_sections` builds them. */
  function Sections(content: string): seq<Section>
  {
    SectionsOfLines(Split(content, '\n'))
  }

  /** `extract_sections` */
  method ExtractSections(content: string) returns (sections: seq<Section>)
    ensures sections == Sections(content)
  {
    sections := [];
    var lines := Split(content, '\n');
    var currentSection: Option<string> := None;
    var currentContent: seq<string> := [];
    var i := 0;
    while i < |lines|
      invariant 0 <= i <= |lines|
      invariant ScanState(sections, currentSection, currentContent) == Run(START, lines[..i])
    {
      RunStep(lines, i);
      sections, currentSection, currentContent := ScanLine(sections, currentSection, currentContent, lines[i]);
      i := i + 1;
    }
    assert lines[..i] == lines;
    if currentSection.Some? {
      sections := sections + [Section(currentSection.value, Join(currentContent, "\n"))];
    }
  }

  /** The body of the line loop of `extract_sections`. */
  method ScanLine(sections: seq<Section>, currentSection: Option<string>, currentContent: seq<string>, raw: string)
    returns (sections': seq<Section>, currentSection': Option<string>, currentContent': seq<string>)
    ensures ScanState(sections', currentSection', currentContent')
            == Step(ScanState(sections, currentSection, currentContent), raw)
  {
    sections', currentSection', currentContent' := sections, currentSection, currentContent;
    var line := Strip(raw);
    if line != "" {
      if IsHeading(line) {
        if currentSection.Some? {
          sections' := sections + [Section(currentSection.value, Join(currentContent, "\n"))];
        }
        currentSection' := Some(line);
        currentContent' := [];
      } else if currentSection.Some? {
        currentContent' := currentContent + [line];
      }
    }
  }

  /** Running over one more line is one more step. */
  lemma RunStep(lines: seq<string>, i: int)
    requires 0 <= i < |lines|
    ensures Run(START, lines[..i + 1]) == Step(Run(START, lines[..i]), lines[i])
  {
    assert lines[..i + 1][..i] == lines[..i];
  }

  /** Running over two pieces is running over the first, then the second. */
  lemma {:induction false} RunAppend(st: ScanState, xs: seq<string>, ys: seq<string>)
    ensures Run(st, xs + ys) == Run(Run(st, xs), ys)
    decreases |ys|
  {
    if ys == [] {
      assert xs + ys == xs;
    } else {
      var n := |ys|;
      assert (xs + ys)[..|xs + ys| - 1] == xs + ys[..n - 1];
      assert (xs + ys)[|xs + ys| - 1] == ys[n - 1];
      RunAppend(st, xs, ys[..n - 1]);
    }
  }

  /** No line is a heading once stripped. */
  predicate NoHeading(lines: seq<string>)
  {
    forall i :: 0 <= i < |lines| ==> !IsHeading(Strip(lines[i]))
  }

  /** The non-empty stripped lines, in order. */
  function BodyLines(lines: seq<string>): seq<string>
    decreases |lines|
  {
    if lines == [] then []
    else
      var line := Strip(lines[|lines| - 1]);
      BodyLines(lines[..|lines| - 1]) + (if line == "" then [] else [line])
  }

  /** Lines without headings only extend the open section, or are dropped when none is open. */
  lemma {:induction false} RunBody(st: ScanState, body: seq<string>)
    requires NoHeading(body)
    ensures Run(st, body) == if st.current.Some? then st.(body := st.body + BodyLines(body)) else st
    decreases |body|
  {
    if body == [] {
      assert st.body + [] == st.body;
    } else {
      var n := |body|;
      var pre := body[..n - 1];
      assert NoHeading(pre) by {
        forall i | 0 <= i < |pre| ensures !IsHeading(Strip(pre[i])) {
          assert pre[i] == body[i];
        }
      }
      RunBody(st, body[..n - 1]);
      assert !IsHeading(Strip(body[n - 1]));
      if st.current.Some? {
        var line := Strip(body[n - 1]);
        assert st.body + BodyLines(body[..n - 1]) + (if line == "" then [] else [line])
          == st.body + BodyLines(body);
      }
    }
  }

  /** Lines before the first heading are dropped. */
  lemma PreambleDropped(pre: seq<string>, rest: seq<string>)
    requires NoHeading(pre)
    ensures SectionsOfLines(pre + rest) == SectionsOfLines(rest)
    ensures SectionsOfLines(pre) == []
  {
    RunBody(START, pre);
    RunAppend(START, pre, rest);
  }

  /**
   * A heading followed by heading-free lines adds exactly one section: the
   * stripped heading with the newline-join of the non-empty stripped lines.
   */
  lemma SectionOfBlock(ls: seq<string>, h: string, body: seq<string>)
    requires IsHeading(Strip(h)) && NoHeading(body)
    ensures SectionsOfLines(ls + [h] + body)
         == SectionsOfLines(ls) + [Section(Strip(h), Join(BodyLines(body), "\n"))]
  {
    var st := Run(START, ls);
    RunAppend(START, ls + [h], body);
    RunAppend(START, ls, [h]);
    assert [h][..0] == [];
    var afterHeading := ScanState(Flush(st), Some(Strip(h)), []);
    assert Run(START, ls + [h]) == afterHeading;
    RunBody(afterHeading, body);
    assert [] + BodyLines(body) == BodyLines(body);
  }

  /** The headings of a list of sections. */
  function Headings(ss: seq<Section>): (hs: seq<string>)
    ensures |hs| == |ss|
    ensures forall i :: 0 <= i < |ss| ==> hs[i] == ss[i].heading
  {
    seq(|ss|, i requires 0 <= i < |ss| => ss[i].heading)
  }

  /** The stripped heading lines, in order. */
  function HeadingLines(lines: seq<string>): seq<string>
    decreases |lines|
  {
    if lines == [] then []
    else
      var line := Strip(lines[|lines| - 1]);
      HeadingLines(lines[..|lines| - 1]) + (if IsHeading(line) then [line] else [])
  }

  function OptionList(o: Option<string>): seq<string>
  {
    if o.Some? then [o.value] else []
  }

  /** Closing the open section adds its heading to the headings. */
  lemma FlushHeadings(st: ScanState)
    ensures Headings(Flush(st)) == Headings(st.done) + OptionList(st.current)
  {
    if st.current.Some? {
      var last := Section(st.current.value, Join(st.body, "\n"));
      assert Headings(st.done + [last]) == Headings(st.done) + [last.heading];
    }
  }

  /** One step adds the line to the headings exactly when it is a heading. */
  lemma StepHeadings(st: ScanState, raw: string)
    ensures Headings(Step(st, raw).done) + OptionList(Step(st, raw).current)
         == Headings(st.done) + OptionList(st.current) + (if IsHeading(Strip(raw)) then [Strip(raw)] else [])
  {
    var line := Strip(raw);
    if line != "" && IsHeading(line) {
      FlushHeadings(st);
    } else {
      assert Headings(st.done) + OptionList(st.current) + [] == Headings(st.done) + OptionList(st.current);
    }
  }

  lemma {:induction false} RunHeadings(lines: seq<string>)
    ensures Headings(Run(START, lines).done) + OptionList(Run(START, lines).current) == HeadingLines(lines)
    decreases |lines|
  {
    if lines != [] {
      var n := |lines|;
      RunHeadings(lines[..n - 1]);
      StepHeadings(Run(START, lines[..n - 1]), lines[n - 1]);
    }
  }

  /** There is one section per heading line, in order, headed by that line. */
  lemma SectionHeadings(lines: seq<string>)
    ensures Headings(SectionsOfLines(lines)) == HeadingLines(lines)
    ensures forall i :: 0 <= i < |SectionsOfLines(lines)| ==> IsHeading(SectionsOfLines(lines)[i].heading)
  {
    RunHeadings(lines);
    FlushHeadings(Run(START, lines));
    HeadingLinesAreHeadings(lines);
    forall i | 0 <= i < |SectionsOfLines(lines)| ensures IsHeading(SectionsOfLines(lines)[i].heading) {
      assert Headings(SectionsOfLines(lines))[i] == SectionsOfLines(lines)[i].heading;
    }
  }

  lemma {:induction false} HeadingLinesAreHeadings(lines: seq<string>)
    ensures forall i :: 0 <= i < |HeadingLines(lines)| ==> IsHeading(HeadingLines(lines)[i])
    decreases |lines|
  {
    if lines != [] {
      HeadingLinesAreHeadings(lines[..|lines| - 1]);
    }
  }

  // ---------------------------------------------------------------- entities and structure

  const ENTITY_KEYS: set<string> := {"case_numbers", "dates", "courts", "judges", "parties"}

  /** `extract_entities`: the five entity lists, three of which are always empty. */
  function ExtractEntities(env: Env, content: string): (r: map<string, seq<string>>)
    ensures r.Keys == ENTITY_KEYS
    ensures r["case_numbers"] == env.caseNumbers(content) && r["dates"] == env.dates(content)
    ensures r["courts"] == [] && r["judges"] == [] && r["parties"] == []
  {
    map["case_numbers" := env.caseNumbers(content), "dates" := env.dates(content),
        "courts" := [], "judges" := [], "parties" := []]
  }

  /** The saved record of one document. */
  datatype Structured = Structured(
    title: string,
    source: Json,
    content: string,
    sections: seq<Section>,
    entities: map<string, seq<string>>,
    metadata: map<string, Json>)

  /** `structure_content` */
  function StructureContent(env: Env, content: string, filePath: string, metadata: map<string, Json>): (r: Structured)
    ensures r.source == if "url" in metadata then metadata["url"] else JStr(filePath)
    ensures r.content == content && r.metadata == metadata
    ensures r.entities.Keys == ENTITY_KEYS
  {
    Structured(Title(content, filePath), Lookup(metadata, "url", JStr(filePath)), content,
               Sections(content), ExtractEntities(env, content), metadata)
  }

  // ---------------------------------------------------------------- output path

  /** The basename of a path without its extension. */
  function Stem(path: string): (r: string)
    ensures '/' !in r
  {
    var (stem, ext) := SplitExt(Basename(path));
    assert forall i :: 0 <= i < |stem| ==> stem[i] == (stem + ext)[i];
    stem
  }

  /** `save_processed_document`'s output path: `output_dir/<stem>.json`. */
  function OutputPath(outDir: string, path: string): string
  {
    PathJoin(outDir, Stem(path) + ".json")
  }

  lemma OutputNameRelative(path: string)
    ensures !IsAbsolute(Stem(path) + ".json")
  {
    var name := Stem(path) + ".json";
    assert name[0] != '/' by {
      if Stem(path) != "" {
        assert name[0] == Stem(path)[0];
      }
    }
    assert |name| >= 1 && name[..1] == [name[0]];
  }

  /**
   * The output path is the output directory joined with the stem and `.json`,
   * and two documents share an output path exactly when their stems agree, so
   * `a.txt` and `a.html`, or two `a.pdf` in different directories, overwrite
   * each other.
   */
  lemma OutputPathShape(outDir: string, p: string, q: string)
    ensures outDir != "" && !EndsWith(outDir, "/") ==> OutputPath(outDir, p) == outDir + "/" + Stem(p) + ".json"
    ensures OutputPath(outDir, p) == OutputPath(outDir, q) <==> Stem(p) == Stem(q)
  {
    OutputNameRelative(p);
    OutputNameRelative(q);
    var x := Stem(p) + ".json";
    var y := Stem(q) + ".json";
    var a := if outDir == "" || EndsWith(outDir, "/") then outDir else outDir + "/";
    assert OutputPath(outDir, p) == a + x;
    assert OutputPath(outDir, q) == a + y;
    if a + x == a + y {
      assert x == (a + x)[|a|..];
      assert y == (a + y)[|a|..];
      assert Stem(p) == x[..|x| - 5];
      assert Stem(q) == y[..|y| - 5];
    }
  }

  // ---------------------------------------------------------------- one document

  /** What a successful `process_document` saved: the output path and the record. */
  datatype Saved = Saved(path: string, record: Structured)

  /** `process_document`; `Success(None)` when the type is not handled and nothing is saved. */
  function ProcessDocument(env: Env, path: string, outDir: string): Result<Option<Saved>, Fault>
  {
    var metadata :- LoadMetadata(env, path);
    var kind := KindOf(path);
    if kind == Unsupported then Success(None)
    else
      match ExtractContent(env, path, kind)
      case None => Failure(Unreadable)
      case Some(content) =>
        if !metadata.JObj? then Failure(MetadataNotObject)
        else
          var record := StructureContent(env, content, path, metadata.fields);
          var out := OutputPath(outDir, path);
          if env.writable(out) then Success(Some(Saved(out, record))) else Failure(WriteFailed)
  }

  /** The result of `process_document` is a save at `out`. */
  predicate SavedAt(r: Result<Option<Saved>, Fault>, out: string)
  {
    r.Success? && r.value.Some? && r.value.value.path == out
  }

  /** The document saved something at `out`. */
  predicate SavesTo(env: Env, outDir: string, path: string, out: string)
  {
    SavedAt(ProcessDocument(env, path, outDir), out)
  }

  /** A document is only ever saved at its own output path. */
  lemma SavesOnlyToOutputPath(env: Env, outDir: string, path: string)
    ensures forall k :: SavesTo(env, outDir, path, k) ==> k == OutputPath(outDir, path)
  {
    ProcessDocumentCases(env, path, outDir);
  }

  /**
   * The metadata is loaded before the type is looked at, so a broken sidecar
   * fails even an unsupported file; an unsupported file with loadable metadata
   * saves nothing; a handled file is saved at its output path exactly when its
   * text can be extracted, its metadata is an object and the output can be
   * written.
   */
  lemma ProcessDocumentCases(env: Env, path: string, outDir: string)
    ensures LoadMetadata(env, path).Failure? ==>
      ProcessDocument(env, path, outDir) == Failure(LoadMetadata(env, path).error)
    ensures LoadMetadata(env, path).Success? && KindOf(path) == Unsupported ==>
      ProcessDocument(env, path, outDir) == Success(None)
    ensures LoadMetadata(env, path).Success? && KindOf(path) != Unsupported ==>
      (ProcessDocument(env, path, outDir).Success? <==>
        ExtractContent(env, path, KindOf(path)).Some? && LoadMetadata(env, path).value.JObj?
        && env.writable(OutputPath(outDir, path)))
    ensures ProcessDocument(env, path, outDir).Success? && ProcessDocument(env, path, outDir).value.Some? ==>
      && KindOf(path) != Unsupported
      && SavesTo(env, outDir, path, OutputPath(outDir, path))
      && ProcessDocument(env, path, outDir).value.value.record
         == StructureContent(env, ExtractContent(env, path, KindOf(path)).value, path, LoadMetadata(env, path).value.fields)
  {
  }

  // ---------------------------------------------------------------- the directory

  /** What a run over a directory leaves behind: the written output files and the documents that raised. */
  datatype Outcome = Outcome(saved: map<string, Structured>, failed: seq<string>)

  /** The result of processing each document, in order. */
  function Results(env: Env, outDir: string, docs: seq<string>): (rs: seq<Result<Option<Saved>, Fault>>)
    ensures |rs| == |docs|
    ensures forall i :: 0 <= i < |docs| ==> rs[i] == ProcessDocument(env, docs[i], outDir)
  {
    seq(|docs|, i requires 0 <= i < |docs| => ProcessDocument(env, docs[i], outDir))
  }

  /** The outcome after one document's result `r` is recorded; an exception is logged and the loop goes on. */
  function Record(o: Outcome, doc: string, r: Result<Option<Saved>, Fault>): Outcome
  {
    match r
    case Failure(_) => o.(failed := o.failed + [doc])
    case Success(None) => o
    case Success(Some(s)) => o.(saved := o.saved[s.path := s.record])
  }

  /** The processing loop over documents `docs` whose results are `rs`. */
  function RecordAll(docs: seq<string>, rs: seq<Result<Option<Saved>, Fault>>): Outcome
    requires |rs| == |docs|
    decreases |docs|
  {
    if docs == [] then Outcome(map[], [])
    else
      var n := |docs|;
      Record(RecordAll(docs[..n - 1], rs[..n - 1]), docs[n - 1], rs[n - 1])
  }

  function ProcessAll(env: Env, outDir: string, docs: seq<string>): Outcome
  {
    RecordAll(docs, Results(env, outDir, docs))
  }

  /** `process_directory`; a failure to create the output directory raises out of it. */
  method ProcessDirectory(env: Env, walk: seq<(string, seq<string>)>, outDir: string)
    returns (r: Result<Outcome, Fault>)
    ensures r.Success? <==> env.present(outDir) || env.mkdirOk(outDir)
    ensures r.Success? ==> r.value == ProcessAll(env, outDir, Discovered(walk))
  {
    if !env.present(outDir) && !env.mkdirOk(outDir) {
      return Failure(OutputDirFailed);
    }
    var documents := DiscoverDocuments(walk);
    ghost var results := Results(env, outDir, documents);
    var outcome := Outcome(map[], []);
    var i := 0;
    while i < |documents|
      invariant 0 <= i <= |documents|
      invariant outcome == RecordAll(documents[..i], results[..i])
    {
      RecordAllStep(documents, results, i);
      outcome := Record(outcome, documents[i], ProcessDocument(env, documents[i], outDir));
      i := i + 1;
    }
    assert documents[..i] == documents;
    assert results[..i] == results;
    return Success(outcome);
  }

  /** Recording one more document extends the recorded prefix. */
  lemma RecordAllStep(docs: seq<string>, rs: seq<Result<Option<Saved>, Fault>>, i: int)
    requires |rs| == |docs| && 0 <= i < |docs|
    ensures RecordAll(docs[..i + 1], rs[..i + 1]) == Record(RecordAll(docs[..i], rs[..i]), docs[i], rs[i])
  {
    assert docs[..i + 1][..i] == docs[..i];
    assert rs[..i + 1][..i] == rs[..i];
  }

  /** What one iteration adds: the saved document's output file, or the document to the failures. */
  lemma RecordStep(o: Outcome, d: string, r: Result<Option<Saved>, Fault>)
    ensures forall k :: k in Record(o, d, r).saved <==> k in o.saved || SavedAt(r, k)
    ensures Record(o, d, r).failed == o.failed + (if r.Failure? then [d] else [])
  {
  }

  lemma {:induction false} RecordAllSound(docs: seq<string>, rs: seq<Result<Option<Saved>, Fault>>)
    requires |rs| == |docs|
    ensures forall k :: k in RecordAll(docs, rs).saved ==> exists i :: 0 <= i < |rs| && SavedAt(rs[i], k)
    decreases |docs|
  {
    if docs != [] {
      var n := |docs|;
      RecordAllSound(docs[..n - 1], rs[..n - 1]);
      RecordStep(RecordAll(docs[..n - 1], rs[..n - 1]), docs[n - 1], rs[n - 1]);
      forall k | k in RecordAll(docs, rs).saved
        ensures exists i :: 0 <= i < |rs| && SavedAt(rs[i], k)
      {
        if !SavedAt(rs[n - 1], k) {
          var i :| 0 <= i < n - 1 && SavedAt(rs[..n - 1][i], k);
          assert rs[..n - 1][i] == rs[i];
        }
      }
    }
  }

  lemma {:induction false} RecordAllComplete(docs: seq<string>, rs: seq<Result<Option<Saved>, Fault>>)
    requires |rs| == |docs|
    ensures forall i, k :: 0 <= i < |rs| && SavedAt(rs[i], k) ==> k in RecordAll(docs, rs).saved
    decreases |docs|
  {
    if docs != [] {
      var n := |docs|;
      RecordAllComplete(docs[..n - 1], rs[..n - 1]);
      RecordStep(RecordAll(docs[..n - 1], rs[..n - 1]), docs[n - 1], rs[n - 1]);
      forall i, k | 0 <= i < |rs| && SavedAt(rs[i], k)
        ensures k in RecordAll(docs, rs).saved
      {
        if i < n - 1 {
          assert rs[..n - 1][i] == rs[i];
        }
      }
    }
  }

  /** The documents whose result is a failure, in order. */
  function FailedOf(docs: seq<string>, rs: seq<Result<Option<Saved>, Fault>>): (r: seq<string>)
    requires |rs| == |docs|
    ensures forall d :: d in r ==> exists i :: 0 <= i < |docs| && docs[i] == d && rs[i].Failure?
    decreases |docs|
  {
    if docs == [] then []
    else
      var n := |docs|;
      var earlier := FailedOf(docs[..n - 1], rs[..n - 1]);
      assert forall d :: d in earlier ==> exists i :: 0 <= i < n && docs[i] == d && rs[i].Failure? by {
        forall d | d in earlier ensures exists i :: 0 <= i < n && docs[i] == d && rs[i].Failure? {
          var i :| 0 <= i < n - 1 && docs[..n - 1][i] == d && rs[..n - 1][i].Failure?;
          assert docs[i] == d && rs[i].Failure?;
        }
      }
      earlier + (if rs[n - 1].Failure? then [docs[n - 1]] else [])
  }

  lemma {:induction false} RecordAllFailures(docs: seq<string>, rs: seq<Result<Option<Saved>, Fault>>)
    requires |rs| == |docs|
    ensures RecordAll(docs, rs).failed == FailedOf(docs, rs)
    decreases |docs|
  {
    if docs != [] {
      var n := |docs|;
      RecordAllFailures(docs[..n - 1], rs[..n - 1]);
      RecordStep(RecordAll(docs[..n - 1], rs[..n - 1]), docs[n - 1], rs[n - 1]);
    }
  }

  /**
   * Every written file is the output path of a document that was processed
   * and saved, every document whose processing saved something has its output
   * file, and the documents that raised are logged in order and nothing else is.
   */
  lemma ProcessAllExact(env: Env, outDir: string, docs: seq<string>)
    ensures forall k :: k in ProcessAll(env, outDir, docs).saved ==>
      exists i :: 0 <= i < |docs| && SavesTo(env, outDir, docs[i], k) && k == OutputPath(outDir, docs[i])
    ensures forall i, k :: 0 <= i < |docs| && SavesTo(env, outDir, docs[i], k) ==>
      k in ProcessAll(env, outDir, docs).saved
    ensures ProcessAll(env, outDir, docs).failed == FailedOf(docs, Results(env, outDir, docs))
  {
    var rs := Results(env, outDir, docs);
    RecordAllSound(docs, rs);
    RecordAllComplete(docs, rs);
    RecordAllFailures(docs, rs);
    forall k | k in ProcessAll(env, outDir, docs).saved
      ensures exists i :: 0 <= i < |docs| && SavesTo(env, outDir, docs[i], k) && k == OutputPath(outDir, docs[i])
    {
      var i :| 0 <= i < |rs| && SavedAt(rs[i], k);
      assert SavesTo(env, outDir, docs[i], k) by {
        assert rs[i] == ProcessDocument(env, docs[i], outDir);
      }
      SavesOnlyToOutputPath(env, outDir, docs[i]);
    }
  }
}
