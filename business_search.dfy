/**
 * The enhanced business entity search tool: the pages searched, the calls
 * made for each, the console summary of the generated report, and the
 * argument check of its command line.
 */
module BusinessSearch {
  import opened Wrappers
  import opened Text
  import opened JsonValue
  import opened Schemas
  import EnhancedSchemas
  import opened Firecrawl
  import opened ResearchTools

  const CORPORATIONS := "https://www.blackbookonline.info/USA-Corporations.aspx"
  const OPEN_CORPORATES := "https://opencorporates.com/"

  /** The direct Secretary-of-State site for the four states that have one. */
  function DirectSite(stateAbbr: string): (r: Option<string>)
    ensures r.Some? <==> stateAbbr in {"NY", "FL", "CA", "TX"}
  {
    if stateAbbr == "NY" then Some("https://apps.dos.ny.gov/publicInquiry/")
    else if stateAbbr == "FL" then Some("https://dos.myflorida.com/sunbiz/search/")
    else if stateAbbr == "CA" then Some("https://businesssearch.sos.ca.gov/")
    else if stateAbbr == "TX" then Some("https://mycpa.cpa.state.tx.us/coa/")
    else None
  }

  function StatePage(stateAbbr: string): string
  {
    "https://www.blackbookonline.info/" + stateAbbr + "-Secretary-of-State.aspx"
  }

  /** The target pages of `search_with_firecrawl`. */
  function Targets(state: Option<string>): seq<string>
  {
    if Given(state) then
      var abbr := Upper(state.value);
      var direct := DirectSite(abbr);
      [CORPORATIONS, StatePage(abbr)] + (if direct.Some? then [direct.value] else [])
    else [CORPORATIONS, OPEN_CORPORATES]
  }

  /**
   * The corporations search always comes first. With a state, the state's
   * Secretary-of-State page follows, named with the uppercased state, and
   * then exactly one direct site for NY, FL, CA or TX and none otherwise;
   * without a state only OpenCorporates follows.
   */
  lemma TargetsShape(state: Option<string>)
    ensures |Targets(state)| >= 2 && Targets(state)[0] == CORPORATIONS
    ensures !Given(state) ==> Targets(state) == [CORPORATIONS, OPEN_CORPORATES]
    ensures Given(state) ==>
      && Targets(state)[1] == StatePage(Upper(state.value))
      && (|Targets(state)| == 3 <==> Upper(state.value) in {"NY", "FL", "CA", "TX"})
      && (|Targets(state)| == 3 ==> Some(Targets(state)[2]) == DirectSite(Upper(state.value)))
      && |Targets(state)| <= 3
  {
  }

  /** A state site searched directly when mapping finds no links. */
  predicate IsDirectSearch(url: string)
  {
    var low := Lower(url);
    Contains(low, "sos.ny.gov") || Contains(low, "sunbiz") || Contains(low, "businesssearch")
  }

  /** The calls made for one target page, with the Secretary-of-State schema or the entity prompt. */
  function CallsFor(url: string, mapped: Option<seq<string>>, searchTerm: string, preferPrompts: bool, prompt: string): (r: seq<Call>)
    ensures |r| <= 5
  {
    var direct := if IsDirectSearch(url) then Some(url + "?q=" + SearchParam(searchTerm)) else None;
    TargetCalls(url, mapped, direct, preferPrompts, ToJson(EnhancedSchemas.SecretaryOfStateSchema()), prompt)
  }

  // ---------------------------------------------------------------- console summary

  /** A heading line of the report (`#` or `##`). */
  predicate IsHeadingLine(line: string) { StartsWith(line, "#") || StartsWith(line, "##") }

  /** A line that is empty once stripped. */
  predicate IsBlankLine(line: string) { Strip(line) == "" }

  /**
   * The first section of the report from the current line on, having kept
   * `count` lines: `blank` lines are skipped, a `heading` after the first
   * kept line ends it, and the tenth kept line is followed by `...`.
   */
  function SectionFrom(lines: seq<string>, count: nat, blank: string -> bool, heading: string -> bool): seq<string>
    requires count < 10
    decreases |lines|
  {
    if lines == [] then []
    else if blank(lines[0]) then SectionFrom(lines[1..], count, blank, heading)
    else if count > 0 && heading(lines[0]) then []
    else if count + 1 >= 10 then [lines[0], "..."]
    else [lines[0]] + SectionFrom(lines[1..], count + 1, blank, heading)
  }

  function FirstSection(lines: seq<string>): seq<string>
  {
    SectionFrom(lines, 0, IsBlankLine, IsHeadingLine)
  }

  /** The summary loop of `generate_business_summary`. */
  method ExtractFirstSection(lines: seq<string>) returns (firstSection: seq<string>)
    ensures firstSection == FirstSection(lines)
  {
    ghost var whole := FirstSection(lines);
    firstSection := [];
    var count := 0;
    var i := 0;
    assert lines[0..] == lines;
    while i < |lines|
      invariant 0 <= i <= |lines| && 0 <= count < 10
      invariant firstSection + SectionFrom(lines[i..], count, IsBlankLine, IsHeadingLine) == whole
    {
      var line := lines[i];
      ScanStep(lines, i, count, firstSection, whole, IsBlankLine, IsHeadingLine);
      if IsBlankLine(line) {
        i := i + 1;
        continue;
      }
      if count > 0 && IsHeadingLine(line) {
        return;
      }
      firstSection := firstSection + [line];
      count := count + 1;
      if count >= 10 {
        firstSection := firstSection + ["..."];
        return;
      }
      i := i + 1;
    }
  }

  /** What one line does to the collected section, for the loop above. */
  lemma ScanStep(lines: seq<string>, i: nat, count: nat, acc: seq<string>, whole: seq<string>,
                 blank: string -> bool, heading: string -> bool)
    requires i < |lines| && count < 10
    requires acc + SectionFrom(lines[i..], count, blank, heading) == whole
    ensures blank(lines[i]) ==> acc + SectionFrom(lines[i + 1..], count, blank, heading) == whole
    ensures !blank(lines[i]) && count > 0 && heading(lines[i]) ==> acc == whole
    ensures !blank(lines[i]) && !(count > 0 && heading(lines[i])) && count + 1 >= 10 ==>
      acc + [lines[i]] + ["..."] == whole
    ensures !blank(lines[i]) && !(count > 0 && heading(lines[i])) && count + 1 < 10 ==>
      acc + [lines[i]] + SectionFrom(lines[i + 1..], count + 1, blank, heading) == whole
  {
    var line := lines[i];
    SectionStep(lines, i, count, blank, heading);
    if blank(line) {
    } else if count > 0 && heading(line) {
      assert acc + [] == acc;
    } else if count + 1 >= 10 {
      AppendAssoc(acc, [line], ["..."]);
      assert [line] + ["..."] == [line, "..."];
    } else {
      AppendAssoc(acc, [line], SectionFrom(lines[i + 1..], count + 1, blank, heading));
    }
  }

  /** One step of the first-section scan at position `i`. */
  lemma SectionStep(lines: seq<string>, i: nat, count: nat, blank: string -> bool, heading: string -> bool)
    requires i < |lines| && count < 10
    ensures SectionFrom(lines[i..], count, blank, heading) ==
      if blank(lines[i]) then SectionFrom(lines[i + 1..], count, blank, heading)
      else if count > 0 && heading(lines[i]) then []
      else if count + 1 >= 10 then [lines[i], "..."]
      else [lines[i]] + SectionFrom(lines[i + 1..], count + 1, blank, heading)
  {
    assert lines[i..][0] == lines[i];
    assert lines[i..][1..] == lines[i + 1..];
  }

  /** Position `j` of a section kept from `count` lines on holds a report line rather than the marker. */
  predicate KeptLine(r: seq<string>, count: nat, j: int)
  {
    0 <= j < |r| && !(|r| == 11 - count && j == |r| - 1)
  }

  /** At most `10 - count` more report lines are kept, and a full section ends with the `...` marker. */
  lemma {:induction false} SectionFromLength(lines: seq<string>, count: nat, blank: string -> bool, heading: string -> bool)
    requires count < 10
    ensures var r := SectionFrom(lines, count, blank, heading);
      && |r| <= 11 - count
      && (|r| == 11 - count ==> r[|r| - 1] == "...")
    decreases |lines|
  {
    if lines != [] {
      if blank(lines[0]) {
        SectionFromLength(lines[1..], count, blank, heading);
      } else if !(count > 0 && heading(lines[0])) && count + 1 < 10 {
        SectionFromLength(lines[1..], count + 1, blank, heading);
      }
    }
  }

  /** Each kept position holds a non-blank line of the report, and only the very first may be a heading. */
  lemma {:induction false} SectionFromLines(lines: seq<string>, count: nat, blank: string -> bool, heading: string -> bool)
    requires count < 10
    ensures var r := SectionFrom(lines, count, blank, heading);
      && (forall j :: KeptLine(r, count, j) ==> r[j] in lines && !blank(r[j]))
      && (forall j :: KeptLine(r, count, j) && (j > 0 || count > 0) ==> !heading(r[j]))
    decreases |lines|
  {
    if lines != [] {
      var r := SectionFrom(lines, count, blank, heading);
      if blank(lines[0]) {
        SectionFromLines(lines[1..], count, blank, heading);
        InTail(lines);
        assert r == SectionFrom(lines[1..], count, blank, heading);
      } else if count > 0 && heading(lines[0]) {
      } else if count + 1 >= 10 {
        assert r == [lines[0], "..."];
      } else {
        SectionFromLines(lines[1..], count + 1, blank, heading);
        SectionFromLength(lines[1..], count + 1, blank, heading);
        InTail(lines);
        var rest := SectionFrom(lines[1..], count + 1, blank, heading);
        assert r == [lines[0]] + rest;
        forall j | KeptLine(r, count, j) && j > 0 ensures KeptLine(rest, count + 1, j - 1) && r[j] == rest[j - 1] {
        }
      }
    }
  }

  lemma InTail(lines: seq<string>)
    requires lines != []
    ensures forall x :: x in lines[1..] ==> x in lines
  {
  }

  /** The lines that are not blank, in order. */
  function NonBlank(lines: seq<string>, blank: string -> bool): (r: seq<string>)
    ensures |r| <= |lines|
    decreases |lines|
  {
    if lines == [] then []
    else (if blank(lines[0]) then [] else [lines[0]]) + NonBlank(lines[1..], blank)
  }

  /** The lines `NonBlank` keeps are lines of the input, and none is blank. */
  lemma {:induction false} NonBlankLines(lines: seq<string>, blank: string -> bool)
    ensures forall i :: 0 <= i < |NonBlank(lines, blank)| ==>
      !blank(NonBlank(lines, blank)[i]) && NonBlank(lines, blank)[i] in lines
    decreases |lines|
  {
    if lines != [] {
      NonBlankLines(lines[1..], blank);
      var rest := NonBlank(lines[1..], blank);
      var r := NonBlank(lines, blank);
      forall i | 0 <= i < |r| ensures !blank(r[i]) && r[i] in lines {
        if blank(lines[0]) {
          assert r == rest;
          assert rest[i] in lines[1..];
        } else if i > 0 {
          assert r == [lines[0]] + rest;
          assert r[i] == rest[i - 1] && rest[i - 1] in lines[1..];
        } else {
          assert r == [lines[0]] + rest;
        }
      }
    }
  }

  /** The position of the first heading, or the length when there is none. */
  function FirstHeading(s: seq<string>, heading: string -> bool): (k: nat)
    ensures k <= |s|
    decreases |s|
  {
    if s == [] then 0
    else if heading(s[0]) then 0
    else 1 + FirstHeading(s[1..], heading)
  }

  /** `FirstHeading` finds a heading, and no line before it is one. */
  lemma {:induction false} FirstHeadingIs(s: seq<string>, heading: string -> bool)
    ensures FirstHeading(s, heading) < |s| ==> heading(s[FirstHeading(s, heading)])
    ensures forall j :: 0 <= j < FirstHeading(s, heading) ==> !heading(s[j])
    decreases |s|
  {
    if s != [] && !heading(s[0]) {
      FirstHeadingIs(s[1..], heading);
      forall j | 0 < j < FirstHeading(s, heading) ensures !heading(s[j]) {
        assert s[j] == s[1..][j - 1];
      }
    }
  }

  /** At most `n` lines, followed by `...` when there were `n` or more. */
  function Capped(s: seq<string>, n: nat): seq<string>
  {
    if |s| >= n then s[..n] + ["..."] else s
  }

  /** Capping a line followed by more lines caps the rest one shorter. */
  lemma CappedCons(x: string, s: seq<string>, n: nat)
    requires n >= 1
    ensures Capped([x] + s, n + 1) == [x] + Capped(s, n)
  {
    if |s| >= n {
      assert ([x] + s)[..n + 1] == [x] + s[..n];
    }
  }

  /**
   * Once a line has been kept, the rest of the section is the non-blank lines
   * before the next heading, capped at the lines still allowed.
   */
  lemma {:induction false} SectionFromLater(lines: seq<string>, count: nat, blank: string -> bool, heading: string -> bool)
    requires 0 < count < 10
    ensures var nb := NonBlank(lines, blank);
      SectionFrom(lines, count, blank, heading) == Capped(nb[..FirstHeading(nb, heading)], 10 - count)
    decreases |lines|
  {
    var nb := NonBlank(lines, blank);
    var r := SectionFrom(lines, count, blank, heading);
    if lines == [] {
      assert nb == [] && r == [];
    } else {
      var rest := NonBlank(lines[1..], blank);
      if blank(lines[0]) {
        assert nb == rest;
        assert r == SectionFrom(lines[1..], count, blank, heading);
        SectionFromLater(lines[1..], count, blank, heading);
      } else {
        assert nb == [lines[0]] + rest;
        if heading(lines[0]) {
          assert FirstHeading(nb, heading) == 0 && r == [];
        } else {
          assert nb[1..] == rest;
          var k := FirstHeading(rest, heading);
          assert FirstHeading(nb, heading) == 1 + k;
          assert nb[..1 + k] == [lines[0]] + rest[..k];
          if count + 1 < 10 {
            assert r == [lines[0]] + SectionFrom(lines[1..], count + 1, blank, heading);
            SectionFromLater(lines[1..], count + 1, blank, heading);
            CappedCons(lines[0], rest[..k], 9 - count);
          } else {
            assert r == [lines[0], "..."];
            assert ([lines[0]] + rest[..k])[..1] == [lines[0]];
          }
        }
      }
    }
  }

  /** The section from a first line that is not blank: that line, then the later lines before the next heading. */
  lemma SectionFromFirst(lines: seq<string>, blank: string -> bool, heading: string -> bool)
    requires lines != [] && !blank(lines[0])
    ensures var nb := NonBlank(lines, blank);
      && nb != []
      && SectionFrom(lines, 0, blank, heading) == Capped(nb[..1 + FirstHeading(nb[1..], heading)], 10)
  {
    var nb := NonBlank(lines, blank);
    var rest := NonBlank(lines[1..], blank);
    assert nb == [lines[0]] + rest && nb[1..] == rest;
    var k := FirstHeading(rest, heading);
    assert nb[..1 + k] == [lines[0]] + rest[..k];
    SectionFromLater(lines[1..], 1, blank, heading);
    CappedCons(lines[0], rest[..k], 9);
    calc {
      SectionFrom(lines, 0, blank, heading);
      [lines[0]] + SectionFrom(lines[1..], 1, blank, heading);
      [lines[0]] + Capped(rest[..k], 9);
      Capped(nb[..1 + FirstHeading(nb[1..], heading)], 10);
    }
  }

  /** The section from the start: the first non-blank line, then the later lines before the next heading. */
  lemma {:induction false} SectionFromStart(lines: seq<string>, blank: string -> bool, heading: string -> bool)
    ensures var nb := NonBlank(lines, blank);
      SectionFrom(lines, 0, blank, heading)
      == if nb == [] then [] else Capped(nb[..1 + FirstHeading(nb[1..], heading)], 10)
    decreases |lines|
  {
    if lines != [] {
      if blank(lines[0]) {
        assert NonBlank(lines, blank) == NonBlank(lines[1..], blank);
        SectionFromStart(lines[1..], blank, heading);
      } else {
        SectionFromFirst(lines, blank, heading);
      }
    }
  }

  /**
   * The first section is the report's non-blank lines, in order, from the
   * first one up to the first heading after it, capped at ten lines and then
   * `...`; so each kept line is a non-blank line of the report, and no kept
   * line but the first is a heading.
   */
  lemma FirstSectionShape(lines: seq<string>)
    ensures var nb := NonBlank(lines, IsBlankLine);
      FirstSection(lines) == if nb == [] then [] else Capped(nb[..1 + FirstHeading(nb[1..], IsHeadingLine)], 10)
    ensures var r := FirstSection(lines);
      && |r| <= 11
      && (|r| == 11 ==> r[10] == "...")
      && (forall j :: 0 <= j < |r| && j < 10 ==> r[j] in lines && Strip(r[j]) != "")
      && (forall j :: 0 < j < |r| && j < 10 ==> !IsHeadingLine(r[j]))
  {
    SectionFromStart(lines, IsBlankLine, IsHeadingLine);
    SectionFromLength(lines, 0, IsBlankLine, IsHeadingLine);
    SectionFromLines(lines, 0, IsBlankLine, IsHeadingLine);
    var r := FirstSection(lines);
    assert forall j :: 0 <= j < |r| && j < 10 ==> KeptLine(r, 0, j);
  }

  /** What `generate_business_summary` prints between the rules. */
  function ConsoleSummary(answer: string): string
  {
    var lines := Split(answer, '\n');
    var section := FirstSection(lines);
    if section != [] then Join(section, "\n") else FallbackSummary(lines)
  }

  // ---------------------------------------------------------------- arguments

  /** The check of `main`: exactly one of `--business` and `--owner`. */
  function CheckArguments(business: Option<string>, owner: Option<string>): (r: Result<(), string>)
    ensures r.Success? <==> Given(business) != Given(owner)
  {
    if !Given(business) && !Given(owner) then Failure("Either --business or --owner is required")
    else if Given(business) && Given(owner) then Failure("Cannot use both --business and --owner at the same time")
    else Success(())
  }
}
