/**
 * The configuration object (src/config.py): a JSON object kept as loaded,
 * read through getters that fall back to documented defaults.
 */
module Configuration {
  import opened Wrappers
  import opened JsonValue

  /** A configuration: the key/value pairs of a JSON object, kept as given. */
  datatype Config = Config(data: map<string, Json>)

  datatype LoadError = FileNotFound(path: string) | InvalidJson(path: string)

  /** A value `float()` or `int()` cannot convert, by the Python exception it raises. */
  datatype ConversionError = TypeError | ValueError

  const DEFAULT_USER_AGENT := "LegalSearchAgent/1.0"
  const DEFAULT_REQUEST_DELAY: real := 1.0
  const DEFAULT_MAX_PAGES := 100
  const DEFAULT_MAX_DEPTH := 3
  const DEFAULT_DOCUMENT_TYPES: seq<string> := ["html", "pdf", "doc", "docx", "txt"]

  /**
   * `Config.from_file`. `files` maps every existing path to its parsed content,
   * `None` for a file whose content is not a JSON object.
   */
  function FromFile(path: string, files: map<string, Option<Json>>): (r: Result<Config, LoadError>)
    ensures r.Success? <==> path in files && files[path].Some? && files[path].value.JObj?
    ensures r.Success? ==> r.value.data == files[path].value.fields
    ensures path !in files ==> r == Failure(FileNotFound(path))
    ensures path in files && r.Failure? ==> r == Failure(InvalidJson(path))
  {
    if path !in files then Failure(FileNotFound(path))
    else match files[path]
      case Some(JObj(fields)) => Success(Config(fields))
      case _ => Failure(InvalidJson(path))
  }

  /** `Config.get(key, default)`: the stored value, or the default when the key is absent. */
  function Get(c: Config, key: string, default: Json): (v: Json)
    ensures key in c.data ==> v == c.data[key]
    ensures key !in c.data ==> v == default
  {
    Lookup(c.data, key, default)
  }

  function Sources(c: Config): Json { Get(c, "sources", JArr([])) }

  function UserAgent(c: Config): Json { Get(c, "user_agent", JStr(DEFAULT_USER_AGENT)) }

  function DocumentTypes(c: Config): Json { Get(c, "document_types", StrArray(DEFAULT_DOCUMENT_TYPES)) }

  /** `int(x)` of a real number: truncation toward zero. */
  function Truncate(x: real): (i: int)
    ensures x >= 0.0 ==> i as real <= x < i as real + 1.0
    ensures x < 0.0 ==> i as real - 1.0 < x <= i as real
  {
    if x >= 0.0 then x.Floor else -((-x).Floor)
  }

  /** Python `float(v)`. Numbers written as strings are not parsed. */
  function ToFloat(v: Json): (r: Result<real, ConversionError>)
    ensures v.JInt? ==> r == Success(v.i as real)
    ensures v.JReal? ==> r == Success(v.r)
    ensures r.Failure? <==> !(v.JInt? || v.JReal? || v.JBool?)
  {
    match v
    case JBool(b) => Success(if b then 1.0 else 0.0)
    case JInt(i) => Success(i as real)
    case JReal(x) => Success(x)
    case JStr(_) => Failure(ValueError)
    case _ => Failure(TypeError)
  }

  /** Python `int(v)`. Numbers written as strings are not parsed. */
  function ToInt(v: Json): (r: Result<int, ConversionError>)
    ensures v.JInt? ==> r == Success(v.i)
    ensures v.JReal? ==> r == Success(Truncate(v.r))
    ensures r.Failure? <==> !(v.JInt? || v.JReal? || v.JBool?)
  {
    match v
    case JBool(b) => Success(if b then 1 else 0)
    case JInt(i) => Success(i)
    case JReal(x) => Success(Truncate(x))
    case JStr(_) => Failure(ValueError)
    case _ => Failure(TypeError)
  }

  function RequestDelay(c: Config): Result<real, ConversionError>
  {
    ToFloat(Get(c, "request_delay", JReal(DEFAULT_REQUEST_DELAY)))
  }

  function MaxPages(c: Config): Result<int, ConversionError>
  {
    ToInt(Get(c, "max_pages", JInt(DEFAULT_MAX_PAGES)))
  }

  function MaxDepth(c: Config): Result<int, ConversionError>
  {
    ToInt(Get(c, "max_depth", JInt(DEFAULT_MAX_DEPTH)))
  }

  /**
   * One item of a non-mapping argument to `dict.update`: a two-character
   * string or a two-element list whose first element is a string name.
   */
  function Pair(item: Json): Result<(string, Json), ConversionError>
  {
    match item
    case JStr(s) => if |s| == 2 then Success(([s[0]], JStr([s[1]]))) else Failure(ValueError)
    case JArr(xs) =>
      if |xs| != 2 then Failure(ValueError)
      else if xs[0].JStr? then Success((xs[0].s, xs[1]))
      else Failure(TypeError)
    case JObj(fields) => if |fields| != 2 then Failure(ValueError) else Failure(TypeError)
    case _ => Failure(TypeError)
  }

  /** `dict.update(items)` for a list: the pairs are applied in order, and the first bad item raises. */
  function UpdatePairs(base: map<string, Json>, items: seq<Json>): (r: Result<map<string, Json>, ConversionError>)
    decreases |items|
  {
    if items == [] then Success(base)
    else match UpdatePairs(base, items[..|items| - 1])
      case Failure(e) => Failure(e)
      case Success(m) =>
        match Pair(items[|items| - 1])
        case Failure(e) => Failure(e)
        case Success(p) => Success(m[p.0 := p.1])
  }

  /**
   * The list form of `update`: it succeeds exactly when every item is a pair,
   * fails with the error of the first item that is not, and on success holds
   * the old names and the pair names, with the last pair winning.
   */
  lemma {:induction false} UpdatePairsShape(base: map<string, Json>, items: seq<Json>)
    ensures var r := UpdatePairs(base, items);
      && (r.Success? <==> forall i :: 0 <= i < |items| ==> Pair(items[i]).Success?)
      && (r.Failure? ==> exists i :: 0 <= i < |items| && Pair(items[i]).Failure? && r.error == Pair(items[i]).error
                                     && forall j :: 0 <= j < i ==> Pair(items[j]).Success?)
      && (r.Success? ==> forall k :: k in r.value <==>
                           (k in base || exists i :: 0 <= i < |items| && Pair(items[i]).value.0 == k))
      && (r.Success? && items != [] ==>
            r.value[Pair(items[|items| - 1]).value.0] == Pair(items[|items| - 1]).value.1)
    decreases |items|
  {
    if items != [] {
      var front := items[..|items| - 1];
      UpdatePairsShape(base, front);
      assert forall i :: 0 <= i < |front| ==> front[i] == items[i];
    }
  }

  /**
   * `Config.get_headers`: a `User-Agent` entry, then `update` with the
   * configured `headers`: an object is laid over it, so a configured header of
   * the same name wins; a string is an iterable of one-character items, so only
   * the empty string is accepted; a list is applied pair by pair; anything
   * else is not iterable.
   */
  function Headers(c: Config): (r: Result<map<string, Json>, ConversionError>)
    ensures var h := Get(c, "headers", JObj(map[]));
      h.JObj? ==>
        && r.Success?
        && r.value.Keys == h.fields.Keys + {"User-Agent"}
        && (forall k :: k in h.fields ==> r.value[k] == h.fields[k])
        && ("User-Agent" !in h.fields ==> r.value["User-Agent"] == UserAgent(c))
    ensures var h := Get(c, "headers", JObj(map[]));
      h.JStr? ==> r == if h.s == "" then Success(map["User-Agent" := UserAgent(c)]) else Failure(ValueError)
    ensures var h := Get(c, "headers", JObj(map[]));
      h.JArr? ==> r == UpdatePairs(map["User-Agent" := UserAgent(c)], h.items)
    ensures var h := Get(c, "headers", JObj(map[]));
      !(h.JObj? || h.JStr? || h.JArr?) ==> r == Failure(TypeError)
  {
    var base := map["User-Agent" := UserAgent(c)];
    match Get(c, "headers", JObj(map[]))
    case JObj(custom) => Success(base + custom)
    case JStr(s) => if s == "" then Success(base) else Failure(ValueError)
    case JArr(items) => UpdatePairs(base, items)
    case _ => Failure(TypeError)
  }

  /** With no keys configured, every getter yields its documented default. */
  lemma EmptyConfigDefaults()
    ensures Sources(Config(map[])) == JArr([])
    ensures UserAgent(Config(map[])) == JStr("LegalSearchAgent/1.0")
    ensures RequestDelay(Config(map[])) == Success(1.0)
    ensures MaxPages(Config(map[])) == Success(100)
    ensures MaxDepth(Config(map[])) == Success(3)
    ensures DocumentTypes(Config(map[])) == StrArray(["html", "pdf", "doc", "docx", "txt"])
    ensures Headers(Config(map[])) == Success(map["User-Agent" := JStr("LegalSearchAgent/1.0")])
  {
    var base := map["User-Agent" := JStr(DEFAULT_USER_AGENT)];
    assert base + map[] == base;
  }

  /** Stored values are returned as stored, and a custom header that is not `User-Agent` sits beside the configured agent. */
  lemma StoredValuesReturned(c: Config, agent: string, pages: int, header: string, value: Json)
    requires c.data == map["user_agent" := JStr(agent), "max_pages" := JInt(pages),
                           "headers" := JObj(map[header := value])]
    requires header != "User-Agent"
    ensures UserAgent(c) == JStr(agent)
    ensures MaxPages(c) == Success(pages)
    ensures MaxDepth(c) == Success(3)
    ensures Headers(c) == Success(map["User-Agent" := JStr(agent), header := value])
  {
    assert "headers" in c.data;
    var custom := map[header := value];
    assert map["User-Agent" := JStr(agent)] + custom == map["User-Agent" := JStr(agent), header := value];
  }
}
