/**
 * The parts of Python's `urllib.parse.urlparse` and `posixpath` that the
 * crawler reads: scheme, network location and path of a URL, and the
 * basename, extension split and join of a POSIX path.
 */
module Urls {
  import opened Wrappers
  import opened Text

  /** The components of `urlparse(url)` the system reads. */
  datatype Url = Url(scheme: string, netloc: string, path: string)

  predicate IsAsciiLetter(c: char) { IsUpper(c) || IsLower(c) }

  /** Characters allowed in a URL scheme. */
  predicate IsSchemeChar(c: char) { IsAlnum(c) || c == '+' || c == '-' || c == '.' }

  /** Schemes whose last path segment may carry `;parameters`, which `urlparse` splits off the path. */
  const USES_PARAMS: set<string> := {"", "ftp", "hdl", "prospero", "http", "imap", "https", "shttp",
                                     "rtsp", "rtspu", "rtsps", "sip", "sips", "mms", "sftp", "tel"}

  /** Leading C0 control characters and spaces are stripped before splitting. */
  function DropLeadingControls(s: string): (r: string)
    ensures r == [] || r[0] > ' '
    decreases |s|
  {
    if s != [] && s[0] <= ' ' then DropLeadingControls(s[1..]) else s
  }

  /** Tab, carriage return and line feed are removed anywhere in the URL. */
  function RemoveTabsAndNewlines(s: string): (r: string)
    decreases |s|
  {
    if s == [] then []
    else (if s[0] == '\t' || s[0] == '\r' || s[0] == '\n' then [] else [s[0]]) + RemoveTabsAndNewlines(s[1..])
  }

  /** Index of the first character of `s` that is in `cs`, or `|s|`. */
  function FirstOf(s: string, cs: set<char>): (i: nat)
    ensures i <= |s|
    ensures i < |s| ==> s[i] in cs
    ensures forall k :: 0 <= k < i ==> s[k] !in cs
    decreases |s|
  {
    if s == [] || s[0] in cs then 0 else 1 + FirstOf(s[1..], cs)
  }

  /** All characters before position `i` can form a scheme. */
  predicate SchemeCharsUpTo(s: string, i: int)
    requires 0 <= i <= |s|
  {
    forall k :: 0 <= k < i ==> IsSchemeChar(s[k])
  }

  /** `(scheme, rest)`: a scheme is a letter-led run of scheme characters before the first colon. */
  function SplitScheme(url: string): (string, string)
  {
    var i := FindChar(url, ':');
    if i > 0 && IsAsciiLetter(url[0]) && SchemeCharsUpTo(url, i) then (Lower(url[..i]), url[i + 1..])
    else ("", url)
  }

  /** `_splitparams`: the part of the path before the `;` of its last segment. */
  function StripParams(path: string): string
  {
    if '/' in path then
      var slash := RFindChar(path, '/');
      var semi := FirstOf(path[slash..], {';'});
      path[..slash + semi]
    else path[..FirstOf(path, {';'})]
  }

  /**
   * `urlparse(url)`: `None` where Python raises `ValueError` for a network
   * location with an unmatched square bracket.
   */
  function ParseUrl(url: string): (r: Option<Url>)
  {
    var cleaned := RemoveTabsAndNewlines(DropLeadingControls(url));
    var (scheme, rest) := SplitScheme(cleaned);
    var (netloc, rest2) :=
      if StartsWith(rest, "//") then
        var after := rest[2..];
        var d := FirstOf(after, {'/', '?', '#'});
        (after[..d], after[d..])
      else ("", rest);
    if ('[' in netloc) != (']' in netloc) then None
    else
      var beforeFragment := rest2[..FirstOf(rest2, {'#'})];
      var path := beforeFragment[..FirstOf(beforeFragment, {'?'})];
      Some(Url(scheme, netloc, if scheme in USES_PARAMS then StripParams(path) else path))
  }

  /**
   * Once a URL names a network location, its path is empty or starts with `/`:
   * the location ends at the first `/`, `?` or `#`, and the query and fragment
   * are cut off the rest.
   */
  lemma {:induction false} PathAfterNetloc(url: string)
    requires ParseUrl(url).Some? && ParseUrl(url).value.netloc != ""
    ensures var p := ParseUrl(url).value.path; p == "" || p[0] == '/'
  {
    var cleaned := RemoveTabsAndNewlines(DropLeadingControls(url));
    var (scheme, rest) := SplitScheme(cleaned);
    assert StartsWith(rest, "//");
    var after := rest[2..];
    var d := FirstOf(after, {'/', '?', '#'});
    var rest2 := after[d..];
    var beforeFragment := rest2[..FirstOf(rest2, {'#'})];
    var path := beforeFragment[..FirstOf(beforeFragment, {'?'})];
    assert path == "" || path[0] == '/' by {
      if path != "" {
        assert path[0] == rest2[0];
        assert d < |after| && after[d] in {'/', '?', '#'};
        assert rest2[0] != '#' && rest2[0] != '?';
      }
    }
    if scheme in USES_PARAMS && '/' in path {
      var slash := RFindChar(path, '/');
      assert path[..slash + FirstOf(path[slash..], {';'})][0] == path[0];
    }
  }

  /** `posixpath.basename`: the part after the last `/`. */
  function Basename(p: string): (r: string)
    ensures '/' !in r
    ensures EndsWith(p, r)
  {
    var i := RFindChar(p, '/');
    assert p[|p| - |p[i + 1..]|..] == p[i + 1..];
    p[i + 1..]
  }

  /** Some character strictly between `from` and `to` of `s` is not a dot. */
  predicate HasNonDotBetween(s: string, from: int, to: int)
    requires 0 <= from && to <= |s|
  {
    exists k :: from <= k < to && s[k] != '.'
  }

  /**
   * `posixpath.splitext`: splits at the last dot of the last path component,
   * unless every character before that dot in the component is a dot.
   */
  function SplitExt(p: string): (r: (string, string))
    ensures r.0 + r.1 == p
    ensures r.1 == "" || (r.1[0] == '.' && '/' !in r.1 && '.' !in r.1[1..])
  {
    var sep := RFindChar(p, '/');
    var dot := RFindChar(p, '.');
    if dot > sep && HasNonDotBetween(p, sep + 1, dot) then
      assert p[..dot] + p[dot..] == p;
      (p[..dot], p[dot..])
    else (p, "")
  }

  /** `os.path.isabs` on POSIX. */
  predicate IsAbsolute(p: string) { StartsWith(p, "/") }

  /** `os.path.join(a, b)` on POSIX. */
  function PathJoin(a: string, b: string): (r: string)
    ensures !IsAbsolute(b) ==> EndsWith(r, b)
  {
    if IsAbsolute(b) then b
    else if a == "" || EndsWith(a, "/") then a + b
    else a + "/" + b
  }
}
