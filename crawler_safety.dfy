/**
 * The crawler's gatekeepers (src/crawler.py): which URLs may be requested,
 * which may be queued, which filenames may be written, and how a filename is
 * derived from a URL.
 */
module CrawlerSafety {
  import opened Wrappers
  import opened Text
  import opened Urls

  /** Extensions never downloaded, never requested and never written. */
  const UNSAFE_EXTENSIONS: set<string> := {"exe", "dll", "bat", "sh", "command", "js", "jsp", "php", "asp", "aspx"}

  /** Characters a written filename may not contain. */
  const UNSAFE_FILENAME_CHARS: set<char> := {'/', '\\', ':', '*', '?', '"', '<', '>', '|', ';', '&'}

  predicate IsWebScheme(scheme: string) { scheme == "http" || scheme == "https" }

  /** `<\s*script` matches in `p`: a `<` followed by optional whitespace and `script`. */
  predicate HasScriptTag(p: string)
  {
    exists i :: 0 <= i < |p| && p[i] == '<' && StartsWith(TrimStart(p[i + 1..]), "script")
  }

  /** The path of a URL trips one of the unsafe patterns or ends in an unsafe extension. */
  predicate IsUnsafePath(path: string)
  {
    Contains(path, "../") || StartsWith(path, "/") || StartsWith(path, "~/") || ';' in path
    || HasScriptTag(path) || (exists ext :: ext in UNSAFE_EXTENSIONS && EndsWith(path, "." + ext))
  }

  /**
   * `_is_safe_url`: a non-empty URL that parses, has scheme http or https, and
   * whose lower-cased path trips none of the unsafe patterns.
   */
  predicate IsSafeUrl(url: string)
  {
    url != "" && ParseUrl(url).Some? && IsWebScheme(ParseUrl(url).value.scheme)
    && !IsUnsafePath(Lower(ParseUrl(url).value.path))
  }

  /**
   * The pattern `^\/` meant for absolute file paths is applied to the URL
   * path, which is either empty or starts with `/` once the URL names a host:
   * so a safe URL with a host has an empty path.
   */
  lemma SafeUrlHasEmptyPath(url: string)
    requires IsSafeUrl(url)
    requires ParseUrl(url).value.netloc != ""
    ensures ParseUrl(url).value.path == ""
  {
    PathAfterNetloc(url);
  }

  /** A safe URL has scheme http or https and no unsafe extension at the end of its lower-cased path. */
  lemma SafeUrlShape(url: string, ext: string)
    requires IsSafeUrl(url)
    requires ext in UNSAFE_EXTENSIONS
    ensures IsWebScheme(ParseUrl(url).value.scheme)
    ensures !EndsWith(Lower(ParseUrl(url).value.path), "." + ext)
  {
  }

  /** The network locations of the configured source URLs, or `None` where a source URL does not parse. */
  function SourceNetlocs(sourceUrls: seq<string>): Option<seq<string>>
    decreases |sourceUrls|
  {
    if sourceUrls == [] then Some([])
    else
      match (ParseUrl(sourceUrls[0]), SourceNetlocs(sourceUrls[1..]))
      case (Some(u), Some(rest)) => Some([u.netloc] + rest)
      case _ => None
  }

  /** `netloc` is a non-empty allowed domain or one of its subdomains. */
  predicate HostUnder(netloc: string, domains: seq<string>)
  {
    exists d :: d in domains && d != "" && (netloc == d || EndsWith(netloc, "." + d))
  }

  /** The whole URL, lower-cased, ends in `.<type>` for one of the document types as configured. */
  predicate NamesDocumentType(url: string, documentTypes: seq<string>)
  {
    exists t :: t in documentTypes && EndsWith(Lower(url), "." + t)
  }

  /**
   * `is_valid_url`: scheme http or https, and either the URL names a wanted
   * document type or its host is a source's host or a subdomain of one.
   */
  predicate IsValidUrl(url: string, documentTypes: seq<string>, sourceUrls: seq<string>)
  {
    match ParseUrl(url)
    case None => false
    case Some(u) =>
      IsWebScheme(u.scheme)
      && (NamesDocumentType(url, documentTypes)
          || (SourceNetlocs(sourceUrls).Some? && HostUnder(u.netloc, SourceNetlocs(sourceUrls).value)))
  }

  /**
   * The document types are compared as configured against the lower-cased URL,
   * so a type written with an upper-case letter never admits a URL.
   */
  lemma UpperCaseTypeNeverMatches(url: string, t: string, k: nat)
    requires k < |t| && IsUpper(t[k])
    ensures !EndsWith(Lower(url), "." + t)
  {
    var lu := Lower(url);
    var suffix := "." + t;
    if |suffix| <= |lu| {
      var pos := |lu| - |suffix| + 1 + k;
      assert lu[|lu| - |suffix|..][1 + k] == lu[pos];
      assert !IsUpper(lu[pos]);
      assert suffix[1 + k] == t[k];
    }
  }

  /** A host one label below an allowed domain is under it. */
  lemma SubdomainUnder(domains: seq<string>, i: nat, prefix: string)
    requires i < |domains| && domains[i] != ""
    ensures HostUnder(prefix + "." + domains[i], domains)
  {
    var d := domains[i];
    EndsWithAppended(prefix, "." + d);
    assert prefix + "." + d == prefix + ("." + d);
    assert d in domains;
  }

  /** A host one label below a source's host is allowed. */
  lemma SubdomainOfSourceAllowed(url: string, documentTypes: seq<string>, sourceUrls: seq<string>, i: nat, prefix: string)
    requires ParseUrl(url).Some? && IsWebScheme(ParseUrl(url).value.scheme)
    requires SourceNetlocs(sourceUrls).Some? && i < |SourceNetlocs(sourceUrls).value|
    requires SourceNetlocs(sourceUrls).value[i] != ""
    requires ParseUrl(url).value.netloc == prefix + "." + SourceNetlocs(sourceUrls).value[i]
    ensures IsValidUrl(url, documentTypes, sourceUrls)
  {
    SubdomainUnder(SourceNetlocs(sourceUrls).value, i, prefix);
  }

  /** `ext.lower()[1:]` */
  function ExtensionName(ext: string): string
  {
    var l := Lower(ext);
    if l == [] then [] else l[1..]
  }

  /**
   * `_is_safe_filename`: relative, no `..`, none of the unsafe characters, not
   * hidden, and no unsafe extension.
   */
  predicate IsSafeFilename(name: string)
  {
    !IsAbsolute(name) && !Contains(name, "..")
    && (forall i :: 0 <= i < |name| ==> name[i] !in UNSAFE_FILENAME_CHARS)
    && !StartsWith(name, ".")
    && ExtensionName(SplitExt(name).1) !in UNSAFE_EXTENSIONS
  }

  /** An MD5 hex digest: 32 lower-case hexadecimal digits. */
  predicate IsHexDigest(s: string)
  {
    |s| == 32 && forall i :: 0 <= i < |s| ==> IsDigit(s[i]) || 'a' <= s[i] <= 'f'
  }

  type Digest = s: string | IsHexDigest(s) witness "00000000000000000000000000000000"

  /** A digest followed by one dotted extension has no `..` and splits at that dot. */
  lemma DigestNameParts(digest: Digest, ext: string)
    requires '.' !in ext && '/' !in ext
    ensures !Contains(digest + "." + ext, "..")
    ensures SplitExt(digest + "." + ext) == (digest, "." + ext)
  {
    var s := digest + "." + ext;
    assert forall j :: 0 <= j < 32 ==> s[j] == digest[j];
    assert forall j :: 33 <= j < |s| ==> s[j] == ext[j - 33];
    assert s[32] == '.';
    forall k | 0 <= k && k + 2 <= |s| ensures !OccursAt(s, "..", k) {
      assert s[k..k + 2][0] == s[k] && s[k..k + 2][1] == s[k + 1];
      if k < 32 {
        assert s[k] == digest[k];
      } else {
        assert s[k + 1] == ext[k + 1 - 33];
      }
    }
    assert forall k :: !OccursAt(s, "..", k);
    assert RFindChar(s, '/') == -1;
    assert RFindChar(s, '.') == 32;
    assert s[0] == digest[0] && s[0] != '.';
    assert HasNonDotBetween(s, 0, 32);
    assert s[..32] == digest;
    assert s[32..] == "." + ext;
  }

  /** The fallback names the save operations substitute, `<md5>.bin` and `<md5>.txt`, are safe. */
  lemma FallbackNamesSafe(digest: Digest)
    ensures IsSafeFilename(digest + ".bin")
    ensures IsSafeFilename(digest + ".txt")
  {
    var b := digest + ".bin";
    var t := digest + ".txt";
    assert b == digest + "." + "bin";
    assert t == digest + "." + "txt";
    BinAndTxtPlain();
    FallbackNameSafe(digest, "bin");
    FallbackNameSafe(digest, "txt");
  }

  /** An extension of lower-case letters only that is not on the unsafe list. */
  predicate PlainExtension(ext: string)
  {
    (forall i :: 0 <= i < |ext| ==> IsLower(ext[i])) && ext !in UNSAFE_EXTENSIONS
  }

  lemma BinAndTxtPlain()
    ensures PlainExtension("bin") && PlainExtension("txt")
  {
    assert "bin"[0] == 'b' && "bin"[1] == 'i' && "bin"[2] == 'n';
    assert "txt"[0] == 't' && "txt"[1] == 'x' && "txt"[2] == 't';
  }

  /** `<digest>.<ext>` is a safe filename for a plain extension. */
  lemma FallbackNameSafe(digest: Digest, ext: string)
    requires PlainExtension(ext)
    ensures IsSafeFilename(digest + "." + ext)
  {
    DigestNameParts(digest, ext);
    var s := digest + "." + ext;
    var dotted := "." + ext;
    assert Lower(dotted) == dotted by {
      forall i | 0 <= i < |dotted| ensures Lower(dotted)[i] == dotted[i] {
        if i > 0 { assert dotted[i] == ext[i - 1]; }
      }
    }
    assert ExtensionName(dotted) == ext;
    assert FilenameCharsOnly(ext);
    DigestNameChars(digest, ext);
    FilenameCharsAreSafe(s);
    assert s[0] == digest[0];
  }

  /** The filename the save operations write: the generated one when safe, otherwise the fallback. */
  function ChosenFilename(generated: string, fallback: string): string
  {
    if IsSafeFilename(generated) then generated else fallback
  }

  /** Whatever the URL, the filename written by a save operation is safe. */
  lemma ChosenFilenameSafe(generated: string, digest: Digest)
    ensures IsSafeFilename(ChosenFilename(generated, digest + ".bin"))
    ensures IsSafeFilename(ChosenFilename(generated, digest + ".txt"))
  {
    FallbackNamesSafe(digest);
  }

  /** Characters `re.sub(r'[^\w\-\.]', '_', …)` keeps. */
  predicate IsFilenameChar(c: char) { IsWordChar(c) || c == '-' || c == '.' }

  /** `re.sub(r'[^\w\-\.]', '_', name)` */
  function SanitizeFilename(name: string): (r: string)
  {
    seq(|name|, i requires 0 <= i < |name| => if IsFilenameChar(name[i]) then name[i] else '_')
  }

  /** Sanitising keeps the length and the kept characters, and leaves only kept characters. */
  lemma SanitizeFilenameShape(name: string)
    ensures |SanitizeFilename(name)| == |name|
    ensures forall i :: 0 <= i < |name| ==> IsFilenameChar(SanitizeFilename(name)[i])
    ensures forall i :: 0 <= i < |name| && IsFilenameChar(name[i]) ==> SanitizeFilename(name)[i] == name[i]
  {
  }

  /** Sanitising a sanitised name changes nothing. */
  lemma SanitizeFilenameIdempotent(name: string)
    ensures SanitizeFilename(SanitizeFilename(name)) == SanitizeFilename(name)
  {
    SanitizeFilenameShape(name);
    SanitizeFilenameShape(SanitizeFilename(name));
  }

  /** `re.sub(r'[^\w\-]', '_', name)`: the per-source directory name. */
  function SanitizeSourceName(name: string): (r: string)
  {
    seq(|name|, i requires 0 <= i < |name| => if IsWordChar(name[i]) || name[i] == '-' then name[i] else '_')
  }

  /** A source directory name has no `/` and no `.`, so joining it under the output directory cannot leave it. */
  lemma SourceNameIsPlain(name: string)
    ensures '/' !in SanitizeSourceName(name) && '.' !in SanitizeSourceName(name)
    ensures SanitizeSourceName(SanitizeSourceName(name)) == SanitizeSourceName(name)
  {
  }

  /**
   * The length limit: a name over 255 characters keeps its whole extension and
   * the first 245 characters of the rest, so names with an extension longer
   * than ten characters can stay over 255.
   */
  function LimitLength(name: string): (r: string)
    ensures |name| <= 255 ==> r == name
    ensures |name| > 255 ==> var (stem, ext) := SplitExt(name);
      && EndsWith(r, ext)
      && StartsWith(r, Take(stem, 245))
      && |r| == |Take(stem, 245)| + |ext|
      && (|ext| <= 10 ==> |r| <= 255)
      && (|stem| >= 245 && |ext| > 10 ==> |r| > 255)
  {
    if |name| > 255 then
      var (stem, ext) := SplitExt(name);
      var r := Take(stem, 245) + ext;
      assert r[|r| - |ext|..] == ext;
      assert r[..|Take(stem, 245)|] == Take(stem, 245);
      r
    else name
  }

  /** `extension or 'html'` */
  function ExtensionOrHtml(extension: Option<string>): string
  {
    if extension.Some? && extension.value != "" then extension.value else "html"
  }

  /** The name `get_filename_from_url` builds before sanitising. */
  function RawFilename(path: string, extension: Option<string>, digest: Digest): string
  {
    var base := Basename(path);
    if base == "" || '.' !in base then digest + "." + ExtensionOrHtml(extension)
    else if extension.Some? && extension.value != "" then SplitExt(base).0 + "." + extension.value
    else base
  }

  /**
   * `get_filename_from_url`: the URL path's basename (its extension replaced
   * when one is asked for), or `<md5>.<extension or html>` when the basename is
   * empty or has no dot; then sanitised and length-limited. A URL that does
   * not parse gets the digest name directly.
   */
  function FilenameFromUrl(url: string, extension: Option<string>, digest: Digest): string
  {
    match ParseUrl(url)
    case None => digest + "." + ExtensionOrHtml(extension)
    case Some(u) => LimitLength(SanitizeFilename(RawFilename(u.path, extension, digest)))
  }

  /** All characters of `s` are kept by filename sanitising. */
  predicate FilenameCharsOnly(s: string) { forall i :: 0 <= i < |s| ==> IsFilenameChar(s[i]) }

  lemma LimitLengthKeepsChars(name: string)
    requires FilenameCharsOnly(name)
    ensures FilenameCharsOnly(LimitLength(name))
  {
    if |name| > 255 {
      var (stem, ext) := SplitExt(name);
      var t := Take(stem, 245);
      PartsKeepChars(name, stem, ext, t);
      assert LimitLength(name) == t + ext;
    }
  }

  /** A prefix of the stem followed by the extension keeps only characters of the name. */
  lemma PartsKeepChars(name: string, stem: string, ext: string, t: string)
    requires stem + ext == name && |t| <= |stem| && t == stem[..|t|] && FilenameCharsOnly(name)
    ensures FilenameCharsOnly(t + ext)
  {
    var f := t + ext;
    forall i | 0 <= i < |f| ensures IsFilenameChar(f[i]) {
      if i < |t| { assert f[i] == name[i]; }
      else { assert f[i] == name[|stem| + i - |t|]; }
    }
  }

  lemma DigestNameChars(digest: Digest, e: string)
    requires FilenameCharsOnly(e)
    ensures FilenameCharsOnly(digest + "." + e)
  {
    var f := digest + "." + e;
    forall i | 0 <= i < |f| ensures IsFilenameChar(f[i]) {
      if i < 32 { assert f[i] == digest[i]; }
      else if i > 32 { assert f[i] == e[i - 33]; }
    }
  }

  /** A generated filename contains only word characters, `-` and `.`, so it is never absolute and never has an unsafe character. */
  lemma FilenameCharacters(url: string, extension: Option<string>, digest: Digest)
    requires extension.None? || FilenameCharsOnly(extension.value)
    ensures var f := FilenameFromUrl(url, extension, digest);
      && FilenameCharsOnly(f)
      && !IsAbsolute(f)
      && (forall i :: 0 <= i < |f| ==> f[i] !in UNSAFE_FILENAME_CHARS)
  {
    var f := FilenameFromUrl(url, extension, digest);
    var parsed := ParseUrl(url);
    if parsed.None? {
      assert FilenameCharsOnly("html");
      DigestNameChars(digest, ExtensionOrHtml(extension));
    } else {
      var raw := RawFilename(parsed.value.path, extension, digest);
      SanitizeFilenameShape(raw);
      LimitLengthKeepsChars(SanitizeFilename(raw));
    }
    FilenameCharsAreSafe(f);
  }

  lemma FilenameCharsAreSafe(f: string)
    requires FilenameCharsOnly(f)
    ensures !IsAbsolute(f)
    ensures forall i :: 0 <= i < |f| ==> f[i] !in UNSAFE_FILENAME_CHARS
  {
    if |f| > 0 {
      assert IsFilenameChar(f[0]);
    }
  }
}
