/** The drain that prints a summary of the test results (src/cli/plugins/stdout/stdout-drain.ts).
    The summary is a header followed by one section per status; each section is a title with the
    number of results of that status and one line per such result, in input order. The styling
    functions of ansi-colors are a `Palette` parameter, so the coloured and the plain output are
    both modelled; the passing percentage in the header is a parameter (see README). */
module StdOutDrain {
  import opened Strings
  import opened TestModel
  import opened Serialized

  /** `StdOutOutlet`: whether to style the output and whether to use Unicode markers. */
  datatype StdOutOutlet = StdOutOutlet(useColor: bool, useUnicode: bool)

  /** A stdout drain; its configuration is not used. */
  datatype StdOutDrain = StdOutDrain(configuration: Json)

  /** The styles of `COLOR_FUNCTIONS`: chatter, its highlight, and one colour per status. */
  datatype Style = Chatter | Highlight | StatusColor(status: Status)

  /** Applying a style to a text (ansi-colors). */
  type Palette = (Style, string) -> string

  const Indent := "  "

  const HeavyMultiplicationX := "\U{2716}"
  const HeavyCheckMark := "\U{2714}"
  const BlackRightPointingSmallTriangle := "\U{25B8}"

  /** `UNICODE_CHARACTERS` */
  function UnicodeCharacter(status: Status): string
  {
    match status
    case Fail => HeavyMultiplicationX
    case Pass => HeavyCheckMark
    case Pending => BlackRightPointingSmallTriangle
    case Skipped => "/"
  }

  /** The marker in front of a listed result: its status character, or "-" without Unicode. */
  function Marker(status: Status, outlet: StdOutOutlet): string
  {
    if outlet.useUnicode then UnicodeCharacter(status) else "-"
  }

  function Heading(status: Status): string
  {
    match status
    case Pass => "Passing tests"
    case Pending => "Pending tests"
    case Skipped => "Skipped tests"
    case Fail => "Failed tests"
  }

  /** The first line of a section: its heading and the number of results listed, in chatter style
      when colours are on. */
  function Title(status: Status, count: nat, outlet: StdOutOutlet, palette: Palette): string
  {
    var title := Heading(status) + " (" + NatToString(count) + "):";
    if outlet.useColor then palette(Chatter, title) else title
  }

  /** The line listing one result: indentation, marker, name and the URL of its execution, in the
      colour of the section's status when colours are on. */
  function ResultLine(test: TestResult, status: Status, outlet: StdOutOutlet, palette: Palette): string
  {
    var line := Indent + Marker(status, outlet) + " " + test.name + " (" + test.executionUrl + ")";
    if outlet.useColor then palette(StatusColor(status), line) else line
  }

  /** `results.filter((test) => test.status === status)` */
  function WithStatus(results: seq<TestResult>, status: Status): (tests: seq<TestResult>)
    ensures |tests| <= |results|
    ensures forall i :: 0 <= i < |tests| ==> tests[i].status == status
  {
    if |results| == 0 then []
    else
      var last := results[|results| - 1];
      WithStatus(results[..|results| - 1], status) + (if last.status == status then [last] else [])
  }

  /** One listed line per test, in order. */
  function ResultLines(tests: seq<TestResult>, status: Status, outlet: StdOutOutlet, palette: Palette): (lines: seq<string>)
    ensures |lines| == |tests|
    ensures forall k :: 0 <= k < |tests| ==> lines[k] == ResultLine(tests[k], status, outlet, palette)
  {
    if |tests| == 0 then []
    else ResultLines(tests[..|tests| - 1], status, outlet, palette) + [ResultLine(tests[|tests| - 1], status, outlet, palette)]
  }

  /** The lines of the section for `status`: the title counting the results of that status, then
      exactly those results, one per line, in input order. */
  function SectionLines(results: seq<TestResult>, status: Status, outlet: StdOutOutlet, palette: Palette): (lines: seq<string>)
    ensures var tests := WithStatus(results, status);
      && |lines| == 1 + |tests|
      && lines[0] == Title(status, |tests|, outlet, palette)
      && forall k :: 0 <= k < |tests| ==> lines[k + 1] == ResultLine(tests[k], status, outlet, palette)
  {
    var tests := WithStatus(results, status);
    [Title(status, |tests|, outlet, palette)] + ResultLines(tests, status, outlet, palette)
  }

  function Section(results: seq<TestResult>, status: Status, outlet: StdOutOutlet, palette: Palette): string
  {
    Join(SectionLines(results, status, outlet, palette), "\n")
  }

  /** The header: the number of results and the passing percentage, rendered as `percentage`. */
  function Header(results: seq<TestResult>, outlet: StdOutOutlet, palette: Palette, percentage: string): string
  {
    if outlet.useColor then
      palette(Chatter, "A total of " + palette(Highlight, NatToString(|results|))
        + " tests were run with a passing percentage of " + palette(Highlight, percentage) + " %")
    else
      "A total of " + NatToString(|results|) + " tests were run with a passing percentage of " + percentage + " %"
  }

  /** The whole summary: an empty first section, the header, then the passing, pending, skipped
      and failed sections, separated by blank lines. */
  function Report(results: seq<TestResult>, outlet: StdOutOutlet, palette: Palette, percentage: string): string
  {
    Join([
      "",
      Header(results, outlet, palette, percentage),
      Section(results, Pass, outlet, palette),
      Section(results, Pending, outlet, palette),
      Section(results, Skipped, outlet, palette),
      Section(results, Fail, outlet, palette)
    ], "\n\n")
  }

  /** The per-status section builders: the title, then one pushed line per filtered result. */
  method SectionMessage(results: seq<TestResult>, status: Status, outlet: StdOutOutlet, palette: Palette)
    returns (message: string)
    ensures message == Section(results, status, outlet, palette)
  {
    var tests := WithStatus(results, status);
    var title := Title(status, |tests|, outlet, palette);
    var lines := [title];
    for i := 0 to |tests|
      invariant |lines| == i + 1 && lines[0] == title
      invariant forall k :: 0 <= k < i ==> lines[k + 1] == ResultLine(tests[k], status, outlet, palette)
    {
      lines := lines + [ResultLine(tests[i], status, outlet, palette)];
    }
    SectionLinesDetermined(results, status, outlet, palette, lines);
    message := Join(lines, "\n");
  }

  /** The section lines are the only lines made of the title and, in order, one line per result of
      the status. */
  lemma SectionLinesDetermined(results: seq<TestResult>, status: Status, outlet: StdOutOutlet, palette: Palette, lines: seq<string>)
    requires var tests := WithStatus(results, status);
      && |lines| == 1 + |tests|
      && lines[0] == Title(status, |tests|, outlet, palette)
      && forall k :: 0 <= k < |tests| ==> lines[k + 1] == ResultLine(tests[k], status, outlet, palette)
    ensures lines == SectionLines(results, status, outlet, palette)
  {
    var expected := SectionLines(results, status, outlet, palette);
    forall k | 0 <= k < |lines|
      ensures lines[k] == expected[k]
    {
      if k > 0 {
        assert lines[k] == ResultLine(WithStatus(results, status)[k - 1], status, outlet, palette);
      }
    }
  }

  /** `writeTestResults`: the summary, which is also what is printed. */
  method WriteTestResults(drain: StdOutDrain, results: seq<TestResult>, outlet: StdOutOutlet, palette: Palette, percentage: string)
    returns (finalString: string)
    ensures finalString == Report(results, outlet, palette, percentage)
  {
    var header := Header(results, outlet, palette, percentage);
    var passing := SectionMessage(results, Pass, outlet, palette);
    var pending := SectionMessage(results, Pending, outlet, palette);
    var skipped := SectionMessage(results, Skipped, outlet, palette);
    var failed := SectionMessage(results, Fail, outlet, palette);
    finalString := Join(["", header, passing, pending, skipped, failed], "\n\n");
  }

  /** Filtering a concatenation filters each part: the filter keeps the input order. */
  lemma {:induction false} WithStatusDistributes(a: seq<TestResult>, b: seq<TestResult>, status: Status)
    ensures WithStatus(a + b, status) == WithStatus(a, status) + WithStatus(b, status)
    decreases |b|
  {
    if |b| > 0 {
      var front := b[..|b| - 1];
      assert (a + b)[..|a + b| - 1] == a + front;
      WithStatusDistributes(a, front, status);
    } else {
      assert a + b == a;
    }
  }

  /** A section lists exactly the results of its status, each as often as it occurs. */
  lemma {:induction false} WithStatusKeepsExactly(results: seq<TestResult>, status: Status, t: TestResult)
    ensures multiset(WithStatus(results, status))[t] == if t.status == status then multiset(results)[t] else 0
  {
    if |results| > 0 {
      var front := results[..|results| - 1];
      WithStatusKeepsExactly(front, status, t);
      assert results == front + [results[|results| - 1]];
    }
  }

  /** Every result is listed in exactly one of the four sections, so the section counts add up to
      the total of the header. */
  lemma SectionsPartitionResults(results: seq<TestResult>)
    ensures multiset(WithStatus(results, Pass)) + multiset(WithStatus(results, Pending))
      + multiset(WithStatus(results, Skipped)) + multiset(WithStatus(results, Fail)) == multiset(results)
    ensures |WithStatus(results, Pass)| + |WithStatus(results, Pending)|
      + |WithStatus(results, Skipped)| + |WithStatus(results, Fail)| == |results|
  {
    var sections := multiset(WithStatus(results, Pass)) + multiset(WithStatus(results, Pending))
      + multiset(WithStatus(results, Skipped)) + multiset(WithStatus(results, Fail));
    forall t: TestResult
      ensures sections[t] == multiset(results)[t]
    {
      WithStatusKeepsExactly(results, Pass, t);
      WithStatusKeepsExactly(results, Pending, t);
      WithStatusKeepsExactly(results, Skipped, t);
      WithStatusKeepsExactly(results, Fail, t);
    }
    assert sections == multiset(results);
  }

  /** Without colours the palette is never applied. */
  lemma PlainReportIgnoresPalette(results: seq<TestResult>, outlet: StdOutOutlet, p1: Palette, p2: Palette, percentage: string)
    requires !outlet.useColor
    ensures Report(results, outlet, p1, percentage) == Report(results, outlet, p2, percentage)
  {
    PlainSectionIgnoresPalette(results, Pass, outlet, p1, p2);
    PlainSectionIgnoresPalette(results, Pending, outlet, p1, p2);
    PlainSectionIgnoresPalette(results, Skipped, outlet, p1, p2);
    PlainSectionIgnoresPalette(results, Fail, outlet, p1, p2);
  }

  lemma PlainSectionIgnoresPalette(results: seq<TestResult>, status: Status, outlet: StdOutOutlet, p1: Palette, p2: Palette)
    requires !outlet.useColor
    ensures SectionLines(results, status, outlet, p1) == SectionLines(results, status, outlet, p2)
  {
  }
}
