/** The markdown section extractors of the update scripts: `extractSection`
    (numbered "## k." sections of a combined update file) and
    `extractSectionByName` (a "## Name" section up to the next capitalised
    heading). */
module Sections {
  import opened Wrappers
  import opened Text

  /** `line.match(/^## \d+\./)` */
  predicate IsNumberedHeader(line: string) {
    StartsWith(line, "## ") && DigitsThenDot(line[3..])
  }

  /** One or more digits followed by a full stop, at the start of `s`. */
  predicate DigitsThenDot(s: string)
    decreases |s|
  {
    |s| >= 2 && IsDigit(s[0]) && (s[1] == '.' || DigitsThenDot(s[1..]))
  }

  /** `line.match(/^## [A-Z]/)` */
  predicate IsMajorHeader(line: string) {
    StartsWith(line, "## ") && |line| >= 4 && 'A' <= line[3] <= 'Z'
  }

  /** A numbered header such as "## 1." never ends a named section. */
  lemma NumberedIsNotMajor(line: string)
    requires IsNumberedHeader(line)
    ensures !IsMajorHeader(line)
  {
  }

  /** `line.startsWith("---")` */
  predicate IsRule(line: string) {
    StartsWith(line, "---")
  }

  /** The loop state of `extractSection`: the finished sections (as lists of
      lines, before `join("\n")`), `currentSection` and `inSection`. */
  datatype Scan = Scan(sections: seq<seq<string>>, current: seq<string>, inSection: bool)

  const Start := Scan([], [], false)

  /** One iteration of the loop over lines. */
  function ScanLine(s: Scan, line: string): Scan {
    if IsNumberedHeader(line) then
      Scan(if |s.current| > 0 then s.sections + [s.current] else s.sections, [line], true)
    else if s.inSection then
      if IsRule(line) && |s.current| > 5 then Scan(s.sections + [s.current + [line]], [], false)
      else Scan(s.sections, s.current + [line], true)
    else s
  }

  function ScanFrom(s: Scan, lines: seq<string>): Scan
    decreases |lines|
  {
    if lines == [] then s else ScanLine(ScanFrom(s, lines[..|lines| - 1]), lines[|lines| - 1])
  }

  /** The sections of `lines`, the open one included. */
  function Groups(lines: seq<string>): seq<seq<string>> {
    var s := ScanFrom(Start, lines);
    if |s.current| > 0 then s.sections + [s.current] else s.sections
  }

  /** `extractSection(content, n)`: the `n`-th section (from 1), or "". */
  function Section(content: string, n: int): string {
    var groups := Groups(Split(content, "\n"));
    if 1 <= n <= |groups| then Join(groups[n - 1], "\n") else ""
  }

  function JoinEach(groups: seq<seq<string>>): (r: seq<string>)
    ensures |r| == |groups|
    decreases |groups|
  {
    if groups == [] then [] else JoinEach(groups[..|groups| - 1]) + [Join(groups[|groups| - 1], "\n")]
  }

  lemma JoinEachSnoc(groups: seq<seq<string>>, g: seq<string>)
    ensures JoinEach(groups + [g]) == JoinEach(groups) + [Join(g, "\n")]
  {
    assert (groups + [g])[..|groups|] == groups;
  }

  /** One more line is one more step of the scan. */
  lemma ScanStep(lines: seq<string>, i: nat)
    requires i < |lines|
    ensures ScanFrom(Start, lines[..i + 1]) == ScanLine(ScanFrom(Start, lines[..i]), lines[i])
  {
    assert lines[..i + 1][..i] == lines[..i];
  }

  lemma JoinEachIndex(groups: seq<seq<string>>, k: nat)
    requires k < |groups|
    ensures JoinEach(groups)[k] == Join(groups[k], "\n")
    decreases |groups|
  {
    if k < |groups| - 1 {
      JoinEachIndex(groups[..|groups| - 1], k);
    }
  }

  /** `extractSection`, with the loop of the scripts. */
  method ExtractSection(content: string, n: int) returns (r: string)
    ensures r == Section(content, n)
  {
    var lines := Split(content, "\n");
    var sections: seq<string> := [];
    var currentSection: seq<string> := [];
    var inSection := false;
    for i := 0 to |lines|
      invariant Scan([], currentSection, inSection) == ScanFrom(Start, lines[..i]).(sections := [])
      invariant sections == JoinEach(ScanFrom(Start, lines[..i]).sections)
    {
      var line := lines[i];
      ghost var st := ScanFrom(Start, lines[..i]);
      ScanStep(lines, i);
      if IsNumberedHeader(line) {
        if |currentSection| > 0 {
          JoinEachSnoc(st.sections, currentSection);
          sections := sections + [Join(currentSection, "\n")];
        }
        currentSection := [line];
        inSection := true;
      } else if inSection {
        if IsRule(line) && |currentSection| > 5 {
          currentSection := currentSection + [line];
          JoinEachSnoc(st.sections, currentSection);
          sections := sections + [Join(currentSection, "\n")];
          currentSection := [];
          inSection := false;
        } else {
          currentSection := currentSection + [line];
        }
      }
    }
    assert lines[..|lines|] == lines;
    if |currentSection| > 0 {
      sections := sections + [Join(currentSection, "\n")];
    }
    assert sections == JoinEach(Groups(lines));
    if 1 <= n <= |sections| {
      JoinEachIndex(Groups(lines), n - 1);
      r := sections[n - 1];
    } else {
      r := "";
    }
  }

  /** A section as the scripts build it: a numbered header, no other numbered
      header, and a `---` line from its seventh line on only as its last line. */
  predicate Closed(group: seq<string>) {
    |group| >= 1 && IsNumberedHeader(group[0])
    && (forall j | 1 <= j < |group| :: !IsNumberedHeader(group[j]))
    && (forall j | 6 <= j < |group| - 1 :: !IsRule(group[j]))
  }

  /** The open section: like a closed one, with no `---` from its seventh line
      on (such a line would have closed it). */
  predicate Open(group: seq<string>) {
    Closed(group) && forall j | 6 <= j < |group| :: !IsRule(group[j])
  }

  predicate ScanOk(s: Scan) {
    (forall k | 0 <= k < |s.sections| :: Closed(s.sections[k]))
    && (s.inSection <==> |s.current| > 0)
    && (s.inSection ==> Open(s.current))
  }

  function CountHeaders(lines: seq<string>): nat
    decreases |lines|
  {
    if lines == [] then 0
    else CountHeaders(lines[..|lines| - 1]) + (if IsNumberedHeader(lines[|lines| - 1]) then 1 else 0)
  }

  function Opened(s: Scan): nat {
    if |s.current| > 0 then 1 else 0
  }

  lemma ScanLineOk(s: Scan, line: string)
    requires ScanOk(s)
    ensures ScanOk(ScanLine(s, line))
    ensures |ScanLine(s, line).sections| + Opened(ScanLine(s, line))
         == |s.sections| + Opened(s) + (if IsNumberedHeader(line) then 1 else 0)
  {
    var t := ScanLine(s, line);
    if IsNumberedHeader(line) {
      assert Open([line]);
    } else if s.inSection {
      if IsRule(line) && |s.current| > 5 {
        assert Closed(s.current + [line]) by {
          assert (s.current + [line])[0] == s.current[0];
        }
      } else {
        assert Open(s.current + [line]) by {
          assert (s.current + [line])[0] == s.current[0];
        }
      }
    }
  }

  lemma {:induction false} ScanFromOk(lines: seq<string>)
    ensures ScanOk(ScanFrom(Start, lines))
    ensures |ScanFrom(Start, lines).sections| + Opened(ScanFrom(Start, lines)) == CountHeaders(lines)
    decreases |lines|
  {
    if lines != [] {
      var n := |lines| - 1;
      ScanFromOk(lines[..n]);
      ScanLineOk(ScanFrom(Start, lines[..n]), lines[n]);
    }
  }

  /** Every section starts with its numbered header and holds no other; a
      `---` line from the seventh line on ends the section it is in. */
  lemma GroupsAreSections(lines: seq<string>)
    ensures forall k | 0 <= k < |Groups(lines)| :: Closed(Groups(lines)[k])
  {
    ScanFromOk(lines);
  }

  /** There is one section per numbered header. */
  lemma GroupsCount(lines: seq<string>)
    ensures |Groups(lines)| == CountHeaders(lines)
  {
    ScanFromOk(lines);
  }

  lemma {:induction false} ScanFromAppend(s: Scan, a: seq<string>, b: seq<string>)
    ensures ScanFrom(s, a + b) == ScanFrom(ScanFrom(s, a), b)
    decreases |b|
  {
    if b == [] {
      assert a + b == a;
    } else {
      var n := |b| - 1;
      assert (a + b)[..|a + b| - 1] == a + b[..n];
      ScanFromAppend(s, a, b[..n]);
    }
  }

  lemma {:induction false} NoHeaderNoScan(lines: seq<string>)
    requires forall j | 0 <= j < |lines| :: !IsNumberedHeader(lines[j])
    ensures ScanFrom(Start, lines) == Start
    decreases |lines|
  {
    if lines != [] {
      NoHeaderNoScan(lines[..|lines| - 1]);
    }
  }

  /** Lines before the first numbered header are discarded. */
  lemma LeadingLinesDiscarded(before: seq<string>, rest: seq<string>)
    requires forall j | 0 <= j < |before| :: !IsNumberedHeader(before[j])
    ensures Groups(before + rest) == Groups(rest)
  {
    NoHeaderNoScan(before);
    ScanFromAppend(Start, before, rest);
  }

  /** After a closing `---`, lines up to the next numbered header are
      discarded. */
  lemma {:induction false} LinesAfterCloseDiscarded(s: Scan, lines: seq<string>)
    requires !s.inSection
    requires forall j | 0 <= j < |lines| :: !IsNumberedHeader(lines[j])
    ensures ScanFrom(s, lines) == s
    decreases |lines|
  {
    if lines != [] {
      LinesAfterCloseDiscarded(s, lines[..|lines| - 1]);
    }
  }

  lemma JoinStartsWith(parts: seq<string>, sep: string)
    requires |parts| >= 1
    ensures StartsWith(Join(parts, sep), parts[0])
  {
    if |parts| > 1 {
      assert Join(parts, sep) == parts[0] + sep + Join(parts[1..], sep);
    }
    assert Join(parts, sep)[..|parts[0]|] == parts[0];
  }

  /** `extractSection(content, n)` is "" exactly when `n` is not between 1
      and the number of numbered headers; otherwise it starts with the `n`-th
      header. */
  lemma SectionFound(content: string, n: int)
    ensures var lines := Split(content, "\n");
      (Section(content, n) == "" <==> !(1 <= n <= CountHeaders(lines)))
      && (1 <= n <= CountHeaders(lines) ==>
            StartsWith(Section(content, n), Groups(lines)[n - 1][0])
            && IsNumberedHeader(Groups(lines)[n - 1][0]))
  {
    var lines := Split(content, "\n");
    GroupsCount(lines);
    GroupsAreSections(lines);
    if 1 <= n <= CountHeaders(lines) {
      var g := Groups(lines)[n - 1];
      JoinStartsWith(g, "\n");
      assert |g[0]| >= 3;
    }
  }

  /** A missing file reads as "", and every section of "" is "". */
  lemma SectionOfNothing(n: int)
    ensures Section("", n) == ""
  {
    assert Split("", "\n") == [""] by {
      assert !OccursAt("", "\n", 0);
    }
    assert !IsNumberedHeader("");
    assert [""][..0] == [];
  }

  /** `lines.findIndex(line => line.trim() === heading)`, from index `from`. */
  function FindHeading(lines: seq<string>, heading: string, from: nat): (r: Option<nat>)
    requires from <= |lines|
    ensures r.Some? ==> from <= r.value < |lines|
    decreases |lines| - from
  {
    if from == |lines| then None
    else if Trim(lines[from]) == heading then Some(from)
    else FindHeading(lines, heading, from + 1)
  }

  /** The index found is the first line that trims to the heading, and none
      means no line does. */
  lemma {:induction false} FindHeadingFinds(lines: seq<string>, heading: string, from: nat)
    requires from <= |lines|
    ensures var r := FindHeading(lines, heading, from);
      (r.Some? ==> Trim(lines[r.value]) == heading)
      && (r.Some? ==> forall j | from <= j < r.value :: Trim(lines[j]) != heading)
      && (r.None? ==> forall j | from <= j < |lines| :: Trim(lines[j]) != heading)
    decreases |lines| - from
  {
    if from < |lines| && Trim(lines[from]) != heading {
      FindHeadingFinds(lines, heading, from + 1);
    }
  }

  /** The index of the first major heading at or after `from`, or the number
      of lines when there is none. */
  function NextMajor(lines: seq<string>, from: nat): (r: nat)
    requires from <= |lines|
    ensures from <= r <= |lines|
    ensures forall j | from <= j < r :: !IsMajorHeader(lines[j])
    ensures r == |lines| || IsMajorHeader(lines[r])
    decreases |lines| - from
  {
    if from == |lines| || IsMajorHeader(lines[from]) then from else NextMajor(lines, from + 1)
  }

  /** `extractSectionByName(content, name)` */
  function SectionByName(content: string, name: string): string {
    var lines := Split(content, "\n");
    match FindHeading(lines, "## " + name, 0)
    case None => ""
    case Some(start) => Trim(Join(lines[start..NextMajor(lines, start + 1)], "\n"))
  }

  /** `extractSectionByName`, with the scan loop of the script. */
  method ExtractSectionByName(content: string, name: string) returns (r: string)
    ensures r == SectionByName(content, name)
  {
    var lines := Split(content, "\n");
    var sectionStart := FindHeading(lines, "## " + name, 0);
    if sectionStart.None? {
      return "";
    }
    var start := sectionStart.value;
    var sectionEnd := |lines|;
    var i := start + 1;
    while i < |lines|
      invariant start + 1 <= i <= |lines|
      invariant sectionEnd == |lines|
      invariant forall j | start + 1 <= j < i :: !IsMajorHeader(lines[j])
    {
      if IsMajorHeader(lines[i]) {
        sectionEnd := i;
        break;
      }
      i := i + 1;
    }
    FirstMajorUnique(lines, start + 1, sectionEnd);
    r := Trim(Join(lines[start..sectionEnd], "\n"));
  }

  /** The end of a section is determined by where it starts. */
  lemma FirstMajorUnique(lines: seq<string>, from: nat, e: nat)
    requires from <= e <= |lines|
    requires forall j | from <= j < e :: !IsMajorHeader(lines[j])
    requires e == |lines| || IsMajorHeader(lines[e])
    ensures e == NextMajor(lines, from)
  {
  }

  /** With no line that trims to the heading, the section is "". */
  lemma SectionByNameMissing(content: string, name: string)
    requires forall j | 0 <= j < |Split(content, "\n")| :: Trim(Split(content, "\n")[j]) != "## " + name
    ensures SectionByName(content, name) == ""
  {
    FindHeadingFinds(Split(content, "\n"), "## " + name, 0);
  }

  /** Otherwise it is the trimmed text from the first line that trims to the
      heading up to the next major heading (or the end). */
  lemma SectionByNameFrom(content: string, name: string, start: nat)
    requires start < |Split(content, "\n")| && Trim(Split(content, "\n")[start]) == "## " + name
    requires forall j | 0 <= j < start :: Trim(Split(content, "\n")[j]) != "## " + name
    ensures var lines := Split(content, "\n");
      SectionByName(content, name) == Trim(Join(lines[start..NextMajor(lines, start + 1)], "\n"))
  {
    FindHeadingFirst(Split(content, "\n"), "## " + name, 0, start);
  }

  lemma {:induction false} FindHeadingFirst(lines: seq<string>, heading: string, from: nat, start: nat)
    requires from <= start < |lines| && Trim(lines[start]) == heading
    requires forall j | from <= j < start :: Trim(lines[j]) != heading
    ensures FindHeading(lines, heading, from) == Some(start)
    decreases start - from
  {
    if from < start {
      FindHeadingFirst(lines, heading, from + 1, start);
    }
  }

  /** A section that is found holds its heading. */
  lemma SectionByNameHoldsHeading(content: string, name: string, start: nat)
    requires start < |Split(content, "\n")| && Trim(Split(content, "\n")[start]) == "## " + name
    ensures Contains(SectionByName(content, name), "## " + name)
  {
    var lines := Split(content, "\n");
    var heading := "## " + name;
    FindHeadingFinds(lines, heading, 0);
    var first := FindHeading(lines, heading, 0).value;
    var part := lines[first..NextMajor(lines, first + 1)];
    assert part[0] == lines[first];
    JoinStartsWith(part, "\n");
    assert OccursAt(Join(part, "\n"), lines[first], 0);
    assert heading[0] == '#';
    NotBlankHeading(lines[first], heading);
    ContainsTrim(Join(part, "\n"), lines[first]);
  }

  lemma NotBlankHeading(line: string, heading: string)
    requires Trim(line) == heading && heading != [] && !IsSpace(heading[0])
    ensures !IsBlank(line)
  {
    BlankIffSqueezeEmpty(Trim(line));
    SqueezeTrim(line);
    BlankIffSqueezeEmpty(line);
    SqueezeAppend([heading[0]], heading[1..]);
    assert [heading[0]] + heading[1..] == heading;
  }
}
