/**
 * The pure helpers of the session management command-line tool: duration
 * formatting, the truncated displays, and the context sentence used to
 * continue a session's research.
 */
module SessionTool {
  import opened Text

  // ---------------------------------------------------------------- durations

  /** The units a duration is shown in. */
  datatype Shown = InSeconds(s: int) | InMinutes(m: int) | InHours(h: int, m: int)

  /** The split of `format_duration`: seconds below a minute, minutes below an hour, else hours and minutes. */
  function DurationParts(seconds: int): (d: Shown)
    ensures d.InSeconds? <==> seconds < 60
    ensures d.InSeconds? ==> d.s == seconds
    ensures d.InMinutes? <==> 60 <= seconds < 3600
    ensures d.InMinutes? ==> 1 <= d.m < 60 && d.m * 60 <= seconds < d.m * 60 + 60
    ensures d.InHours? ==> 1 <= d.h && 0 <= d.m < 60
    ensures d.InHours? ==> d.h * 3600 + d.m * 60 <= seconds < d.h * 3600 + d.m * 60 + 60
  {
    if seconds < 60 then InSeconds(seconds)
    else if seconds < 3600 then InMinutes(seconds / 60)
    else
      var h := seconds / 3600;
      var r := seconds % 3600;
      assert seconds == h * 3600 + r && 0 <= r < 3600;
      assert r == (r / 60) * 60 + r % 60 && 0 <= r % 60 < 60;
      InHours(h, r / 60)
  }

  function Render(d: Shown): string
  {
    match d
    case InSeconds(s) => IntToString(s) + " seconds"
    case InMinutes(m) => IntToString(m) + " minutes"
    case InHours(h, m) => IntToString(h) + " hours, " + IntToString(m) + " minutes"
  }

  /** `format_duration` */
  function FormatDuration(seconds: int): string
  {
    Render(DurationParts(seconds))
  }

  /**
   * The shown units account for the whole duration up to the dropped
   * seconds: in the hours form, less than a minute is lost.
   */
  lemma FormatDurationHours(seconds: int)
    requires seconds >= 3600
    ensures var h := seconds / 3600; var m := (seconds % 3600) / 60;
      && FormatDuration(seconds) == IntToString(h) + " hours, " + IntToString(m) + " minutes"
      && 0 <= m < 60 && 0 <= seconds - (h * 3600 + m * 60) < 60
  {
    var d := DurationParts(seconds);
    assert d.InHours?;
  }

  // ---------------------------------------------------------------- displays

  /** A message's content as shown in the history: at most 100 characters. */
  function ShownContent(content: string): (r: string)
    ensures |r| <= 100
    ensures |content| <= 100 ==> r == content
    ensures |content| > 100 ==> |r| == 100 && StartsWith(content, r[..97]) && EndsWith(r, "...")
  {
    if |content| > 100 then content[..97] + "..." else content
  }

  /** A session name as listed: its first 30 characters. */
  function ShownName(name: string): (r: string)
    ensures |r| <= 30 && StartsWith(name, r)
    ensures |name| <= 30 ==> r == name
  {
    Take(name, 30)
  }

  // ---------------------------------------------------------------- continue

  /** The entity names as `a, b and c`; one name stands alone. */
  function NamesPhrase(names: seq<string>): string
  {
    if names == [] then ""
    else if |names| == 1 then names[0]
    else Join(names[..|names| - 1], ", ") + " and " + names[|names| - 1]
  }

  function Quoted(qs: seq<string>): (r: seq<string>)
    ensures |r| == |qs| && forall i :: 0 <= i < |qs| ==> r[i] == "\"" + qs[i] + "\""
  {
    seq(|qs|, i requires 0 <= i < |qs| => "\"" + qs[i] + "\"")
  }

  const CONTEXT_HEAD := "Based on our previous research on "
  const CONTEXT_MIDDLE := ", suggest the next steps for my research. "
  const INTERESTS := "I have recently been interested in: "

  /** The context sentence for `continue`, from the entity names and the query strings. */
  function ContinueContext(names: seq<string>, queries: seq<string>): string
  {
    var recent := if queries != [] then TakeLast(queries, 5) else [];
    CONTEXT_HEAD + (NamesPhrase(names) + (CONTEXT_MIDDLE
      + (if recent != [] then INTERESTS + Join(Quoted(recent), ", ") else "")))
  }

  /** One name of the list occurs in the phrase. */
  lemma NameInPhrase(names: seq<string>, i: int)
    requires 0 <= i < |names|
    ensures Contains(NamesPhrase(names), names[i])
  {
    var n := |names|;
    if n == 1 {
      assert names[0][0..|names[0]|] == names[0];
      ContainsAt(names[0], names[0], 0);
    } else {
      var front := Join(names[..n - 1], ", ");
      assert NamesPhrase(names) == front + " and " + names[n - 1];
      if i < n - 1 {
        assert names[..n - 1][i] == names[i];
        JoinContains(names[..n - 1], ", ", i);
        InFront(front, " and " + names[n - 1], names[i]);
        assert front + " and " + names[n - 1] == front + (" and " + names[n - 1]);
      } else {
        assert names[i][0..|names[i]|] == names[i];
        ContainsAt(names[i], names[i], 0);
        InBack(front + " and ", names[i], names[i]);
      }
    }
  }

  lemma InFront(a: string, b: string, t: string)
    requires Contains(a, t)
    ensures Contains(a + b, t)
  {
    ContainsExtend("", a, b, t);
    assert "" + a + b == a + b;
  }

  lemma InBack(a: string, b: string, t: string)
    requires Contains(b, t)
    ensures Contains(a + b, t)
  {
    ContainsExtend(a, b, "", t);
    assert a + b + "" == a + b;
  }

  /** Every name occurs in the phrase; two or more names end with ` and ` and the last one. */
  lemma NamesPhraseHasNames(names: seq<string>)
    ensures forall i :: 0 <= i < |names| ==> Contains(NamesPhrase(names), names[i])
    ensures |names| == 1 ==> NamesPhrase(names) == names[0]
    ensures |names| >= 2 ==> EndsWith(NamesPhrase(names), " and " + names[|names| - 1])
  {
    var n := |names|;
    forall i | 0 <= i < n ensures Contains(NamesPhrase(names), names[i]) {
      NameInPhrase(names, i);
    }
    if n >= 2 {
      EndsWithAppended(Join(names[..n - 1], ", "), " and " + names[n - 1]);
      assert Join(names[..n - 1], ", ") + (" and " + names[n - 1]) == NamesPhrase(names);
    }
  }

  /**
   * The context names every entity and quotes each of the last five (or
   * fewer) queries; without queries it ends with the request for next steps.
   */
  lemma ContinueContextMentions(names: seq<string>, queries: seq<string>)
    ensures StartsWith(ContinueContext(names, queries), CONTEXT_HEAD)
    ensures forall i :: 0 <= i < |names| ==> Contains(ContinueContext(names, queries), names[i])
    ensures forall i :: 0 <= i < |queries| && |queries| - 5 <= i ==>
      Contains(ContinueContext(names, queries), "\"" + queries[i] + "\"")
    ensures queries == [] ==> EndsWith(ContinueContext(names, queries), CONTEXT_MIDDLE)
  {
    var recent := if queries != [] then TakeLast(queries, 5) else [];
    var tail := if recent != [] then INTERESTS + Join(Quoted(recent), ", ") else "";
    var phrase := NamesPhrase(names);
    var ctx := ContinueContext(names, queries);
    assert ctx == CONTEXT_HEAD + (phrase + (CONTEXT_MIDDLE + tail));
    ContextParts(CONTEXT_HEAD, phrase, CONTEXT_MIDDLE + tail);
    NamesPhraseHasNames(names);
    forall i | 0 <= i < |names| ensures Contains(ctx, names[i]) {
      InFront(phrase, CONTEXT_MIDDLE + tail, names[i]);
      InBack(CONTEXT_HEAD, phrase + (CONTEXT_MIDDLE + tail), names[i]);
    }
    forall i | 0 <= i < |queries| && |queries| - 5 <= i ensures Contains(ctx, "\"" + queries[i] + "\"") {
      QueryInTail(queries, recent, i, tail);
      InBack(CONTEXT_MIDDLE, tail, "\"" + queries[i] + "\"");
      InBack(phrase, CONTEXT_MIDDLE + tail, "\"" + queries[i] + "\"");
      InBack(CONTEXT_HEAD, phrase + (CONTEXT_MIDDLE + tail), "\"" + queries[i] + "\"");
    }
    if queries == [] {
      assert CONTEXT_MIDDLE + tail == CONTEXT_MIDDLE;
      EndsWithAppended(CONTEXT_HEAD + phrase, CONTEXT_MIDDLE);
      AppendAssoc(CONTEXT_HEAD, phrase, CONTEXT_MIDDLE);
    }
  }

  /** A text starts with its head. */
  lemma ContextParts(head: string, phrase: string, rest: string)
    ensures StartsWith(head + (phrase + rest), head)
  {
    assert (head + (phrase + rest))[..|head|] == head;
  }

  /** A quoted recent query occurs in the list of interests. */
  lemma QueryInTail(queries: seq<string>, recent: seq<string>, i: int, tail: string)
    requires 0 <= i < |queries| && |queries| - 5 <= i
    requires recent == TakeLast(queries, 5)
    requires tail == (if recent != [] then INTERESTS + Join(Quoted(recent), ", ") else "")
    ensures Contains(tail, "\"" + queries[i] + "\"")
  {
    var joined := Join(Quoted(recent), ", ");
    QueryInContext(queries, recent, i, joined);
    InBack(INTERESTS, joined, "\"" + queries[i] + "\"");
  }

  lemma QueryInContext(queries: seq<string>, recent: seq<string>, i: int, joined: string)
    requires 0 <= i < |queries| && |queries| - 5 <= i
    requires recent == TakeLast(queries, 5) && joined == Join(Quoted(recent), ", ")
    ensures recent != [] && Contains(joined, "\"" + queries[i] + "\"")
  {
    var j := i - (|queries| - |recent|);
    assert recent[j] == queries[i];
    JoinContains(Quoted(recent), ", ", j);
  }
}
