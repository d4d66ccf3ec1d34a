/**
 * The layout of the exported PDF report (`handleExport` in
 * src/app/components/dashboard.tsx): a vertical cursor that moves down the
 * page, page breaks when the cursor passes a threshold, a forced second
 * page, and a final pass that stamps every page with its footer. The
 * drawing itself (text, rectangles, colours, line wrapping) is not
 * modelled: a page records only the footer lines written on it.
 */
module Report {
  import opened Text
  import opened Decimal

  /** The cursor is put back here on every new page. */
  const TopMargin := 20

  /** One cursor instruction of the layout code. */
  datatype Step =
    | MoveTo(y: int)            // `yPos = y`
    | Advance(dy: int)          // `yPos += dy`
    | BreakAbove(reserve: int)  // `if (yPos > pageHeight - reserve) { addPage(); yPos = 20; }`
    | NewPage                   // `addPage(); yPos = 20;`

  /** The cursor and the number of pages so far. */
  datatype Cursor = Cursor(y: int, pages: nat)

  function Apply(step: Step, c: Cursor, pageHeight: int): (d: Cursor)
    ensures d.pages == c.pages || d == Cursor(TopMargin, c.pages + 1)
  {
    match step
    case MoveTo(y) => Cursor(y, c.pages)
    case Advance(dy) => Cursor(c.y + dy, c.pages)
    case BreakAbove(reserve) =>
      if c.y > pageHeight - reserve then Cursor(TopMargin, c.pages + 1) else c
    case NewPage => Cursor(TopMargin, c.pages + 1)
  }

  /** A guard leaves the cursor at least `reserve` above the bottom edge,
      or at the top of a fresh page. */
  lemma GuardKeepsRoom(reserve: int, c: Cursor, pageHeight: int)
    ensures var d := Apply(BreakAbove(reserve), c, pageHeight);
            d.y <= pageHeight - reserve || (d.y == TopMargin && d.pages == c.pages + 1)
    ensures Apply(BreakAbove(reserve), c, pageHeight).pages == c.pages <==> c.y <= pageHeight - reserve
  {
  }

  /** The cursor after running the steps in order. */
  function Run(steps: seq<Step>, c: Cursor, pageHeight: int): Cursor
  {
    if steps == [] then c else Run(steps[1..], Apply(steps[0], c, pageHeight), pageHeight)
  }

  lemma {:induction false} RunAppend(a: seq<Step>, b: seq<Step>, c: Cursor, pageHeight: int)
    ensures Run(a + b, c, pageHeight) == Run(b, Run(a, c, pageHeight), pageHeight)
  {
    if a != [] {
      assert (a + b)[0] == a[0];
      assert (a + b)[1..] == a[1..] + b;
      RunAppend(a[1..], b, Apply(a[0], c, pageHeight), pageHeight);
    } else {
      assert a + b == b;
    }
  }

  lemma RunTwo(first: Step, second: Step, c: Cursor, pageHeight: int)
    ensures Run([first, second], c, pageHeight) == Apply(second, Apply(first, c, pageHeight), pageHeight)
  {
    var d := Apply(first, c, pageHeight);
    assert [first, second][1..] == [second];
    assert Run([first, second], c, pageHeight) == Run([second], d, pageHeight);
    assert [second][1..] == [];
    assert Run([second], d, pageHeight) == Run([], Apply(second, d, pageHeight), pageHeight);
  }

  /** Laying out never removes a page. */
  lemma {:induction false} PagesNeverDecrease(steps: seq<Step>, c: Cursor, pageHeight: int)
    ensures Run(steps, c, pageHeight).pages >= c.pages
  {
    if steps != [] {
      PagesNeverDecrease(steps[1..], Apply(steps[0], c, pageHeight), pageHeight);
    }
  }

  /** `n` copies of a block, as a `forEach` over `n` items runs it. */
  function Repeat(n: nat, block: seq<Step>): (r: seq<Step>)
    ensures |r| == n * |block|
  {
    if n == 0 then [] else block + Repeat(n - 1, block)
  }

  /** The first page: results, inputs, contribution lines and the
      interpretation. */
  function FirstPageSteps(contributions: nat): seq<Step>
  {
    [MoveTo(55), Advance(10), Advance(7), Advance(10), Advance(7), Advance(15), Advance(10)]
    + Repeat(6, [Advance(7)])
    + [Advance(10), Advance(10)]
    + Repeat(contributions, [BreakAbove(30), Advance(7)])
    + [Advance(10), BreakAbove(50), Advance(10)]
  }

  /** The summary page, which always starts on a new page. */
  function SummarySteps(contributions: nat, recent: nat, hasHistory: bool): seq<Step>
  {
    [NewPage, Advance(15)]
    + (if hasHistory then [Advance(8), Advance(6)] + Repeat(recent, [Advance(5)]) + [Advance(5), Advance(10)] else [])
    + [Advance(8)]
    + Repeat(contributions, [BreakAbove(30), Advance(12)])
    + [Advance(10), BreakAbove(80), Advance(8)]
    + Repeat(6, [BreakAbove(30), Advance(12)])
    + [Advance(15), BreakAbove(40)]
  }

  /** The cursor program of `handleExport`, for a breakdown of
      `contributions` rows and `recent` recent historical points;
      `hasHistory` says whether the timeline is non-empty. */
  function ReportSteps(contributions: nat, recent: nat, hasHistory: bool): seq<Step>
  {
    FirstPageSteps(contributions) + SummarySteps(contributions, recent, hasHistory)
  }

  /** Whatever the page height and the data, the report has at least two
      pages: the summary page is always added. */
  lemma AtLeastTwoPages(contributions: nat, recent: nat, hasHistory: bool, pageHeight: int)
    ensures Run(ReportSteps(contributions, recent, hasHistory), Cursor(0, 1), pageHeight).pages >= 2
  {
    var first := FirstPageSteps(contributions);
    var summary := SummarySteps(contributions, recent, hasHistory);
    RunAppend(first, summary, Cursor(0, 1), pageHeight);
    var c := Run(first, Cursor(0, 1), pageHeight);
    PagesNeverDecrease(first, Cursor(0, 1), pageHeight);
    var d := Apply(NewPage, c, pageHeight);
    assert Run(summary, c, pageHeight) == Run(summary[1..], d, pageHeight);
    PagesNeverDecrease(summary[1..], d, pageHeight);
  }

  /** An A4 page is 297 mm high. */
  const A4Height := 297

  /** A block repeated once more runs once more at the end. */
  lemma {:induction false} RepeatOneMore(n: nat, block: seq<Step>)
    ensures Repeat(n + 1, block) == Repeat(n, block) + block
  {
    if n > 0 {
      RepeatOneMore(n - 1, block);
    }
  }

  /** `n` plain advances move the cursor by `n * dy`. */
  lemma {:induction false} RunAdvances(n: nat, dy: int, c: Cursor, pageHeight: int)
    ensures Run(Repeat(n, [Advance(dy)]), c, pageHeight) == Cursor(c.y + n * dy, c.pages)
  {
    if n > 0 {
      RunAppend([Advance(dy)], Repeat(n - 1, [Advance(dy)]), c, pageHeight);
      RunAdvances(n - 1, dy, Cursor(c.y + dy, c.pages), pageHeight);
    }
  }

  /** A guarded loop of `n` lines that fits on the page adds no page. */
  lemma {:induction false} RunGuardedFits(n: nat, reserve: int, dy: int, c: Cursor, pageHeight: int)
    requires dy >= 0
    requires n > 0 ==> c.y + (n - 1) * dy <= pageHeight - reserve
    ensures Run(Repeat(n, [BreakAbove(reserve), Advance(dy)]), c, pageHeight) == Cursor(c.y + n * dy, c.pages)
  {
    if n > 0 {
      var block := [BreakAbove(reserve), Advance(dy)];
      RunAppend(block, Repeat(n - 1, block), c, pageHeight);
      assert (n - 1) * dy >= 0;
      RunTwo(BreakAbove(reserve), Advance(dy), c, pageHeight);
      if n > 1 {
        assert (n - 1) * dy == (n - 2) * dy + dy;
      }
      RunGuardedFits(n - 1, reserve, dy, Cursor(c.y + dy, c.pages), pageHeight);
      assert n * dy == (n - 1) * dy + dy;
    }
  }

  /** On A4, with all six contributions and ten recent points, the last
      indicator bar no longer fits on the summary page: the report has
      three pages. */
  lemma FullReportOnA4()
    ensures Run(ReportSteps(6, 10, true), Cursor(0, 1), A4Height).pages == 3
  {
    RunAppend(FirstPageSteps(6), SummarySteps(6, 10, true), Cursor(0, 1), A4Height);
    FirstPageOnA4();
    SummaryOnA4();
  }

  /** The first page ends with the cursor at 238 mm. */
  lemma FirstPageOnA4()
    ensures Run(FirstPageSteps(6), Cursor(0, 1), A4Height) == Cursor(238, 1)
  {
    var h := A4Height;
    var a := [MoveTo(55), Advance(10), Advance(7), Advance(10), Advance(7), Advance(15), Advance(10)];
    var r := Repeat(6, [Advance(7)]);
    var b := [Advance(10), Advance(10)];
    var g := Repeat(6, [BreakAbove(30), Advance(7)]);
    var e := [Advance(10), BreakAbove(50), Advance(10)];
    assert FirstPageSteps(6) == a + r + b + g + e;
    RunAppend(a + r + b + g, e, Cursor(0, 1), h);
    RunAppend(a + r + b, g, Cursor(0, 1), h);
    RunAppend(a + r, b, Cursor(0, 1), h);
    RunAppend(a, r, Cursor(0, 1), h);
    assert Run(a, Cursor(0, 1), h) == Cursor(114, 1);
    RunAdvances(6, 7, Cursor(114, 1), h);
    RunTwo(Advance(10), Advance(10), Cursor(156, 1), h);
    RunGuardedFits(6, 30, 7, Cursor(176, 1), h);
    assert Run(e, Cursor(218, 1), h) == Cursor(238, 1);
  }

  /** The history block of the summary page with ten recent points. */
  lemma HistoryBlockOnA4()
    ensures Run([Advance(8), Advance(6)] + Repeat(10, [Advance(5)]) + [Advance(5), Advance(10)], Cursor(35, 2), A4Height)
         == Cursor(114, 2)
  {
    var h := A4Height;
    RunAppend([Advance(8), Advance(6)] + Repeat(10, [Advance(5)]), [Advance(5), Advance(10)], Cursor(35, 2), h);
    RunAppend([Advance(8), Advance(6)], Repeat(10, [Advance(5)]), Cursor(35, 2), h);
    RunAdvances(10, 5, Cursor(49, 2), h);
  }

  /** The indicator bars start at 212 mm; the sixth one moves to page 3. */
  lemma IndicatorBarsOnA4()
    ensures Run(Repeat(6, [BreakAbove(30), Advance(12)]), Cursor(212, 2), A4Height) == Cursor(32, 3)
  {
    var h := A4Height;
    var block := [BreakAbove(30), Advance(12)];
    RepeatOneMore(5, block);
    RunAppend(Repeat(5, block), block, Cursor(212, 2), h);
    RunGuardedFits(5, 30, 12, Cursor(212, 2), h);
    assert Run(block, Cursor(272, 2), h) == Cursor(32, 3);
  }

  /** The summary page starts a second page and spills onto a third. */
  lemma SummaryOnA4()
    ensures Run(SummarySteps(6, 10, true), Cursor(238, 1), A4Height) == Cursor(47, 3)
  {
    var h := A4Height;
    var a := [NewPage, Advance(15)];
    var hist := [Advance(8), Advance(6)] + Repeat(10, [Advance(5)]) + [Advance(5), Advance(10)];
    var m := [Advance(8)];
    var g := Repeat(6, [BreakAbove(30), Advance(12)]);
    var e := [Advance(10), BreakAbove(80), Advance(8)];
    var last := [Advance(15), BreakAbove(40)];
    assert SummarySteps(6, 10, true) == a + hist + m + g + e + g + last;
    RunAppend(a + hist + m + g + e + g, last, Cursor(238, 1), h);
    RunAppend(a + hist + m + g + e, g, Cursor(238, 1), h);
    RunAppend(a + hist + m + g, e, Cursor(238, 1), h);
    RunAppend(a + hist + m, g, Cursor(238, 1), h);
    RunAppend(a + hist, m, Cursor(238, 1), h);
    RunAppend(a, hist, Cursor(238, 1), h);
    assert Run(a, Cursor(238, 1), h) == Cursor(35, 2);
    HistoryBlockOnA4();
    RunGuardedFits(6, 30, 12, Cursor(122, 2), h);
    assert Run(e, Cursor(194, 2), h) == Cursor(212, 2);
    IndicatorBarsOnA4();
    assert Run(last, Cursor(32, 3), h) == Cursor(47, 3);
  }

  /** The footer line every page carries. */
  const FooterNote := "Generated by Vikalp.ai - AI-Powered Economic Analysis"

  /** "Page i of N". */
  function PageLabel(i: nat, count: nat): string
  {
    "Page " + NatToString(i) + " of " + NatToString(count)
  }

  /** Different pages get different labels, so each label appears once. */
  lemma PageLabelsDistinct(i: nat, j: nat, count: nat)
    requires PageLabel(i, count) == PageLabel(j, count)
    ensures i == j
  {
    var a, b := NatToString(i), NatToString(j);
    var tail := " of " + NatToString(count);
    assert PageLabel(i, count) == "Page " + (a + tail);
    assert PageLabel(j, count) == "Page " + (b + tail);
    assert a + tail == PageLabel(i, count)[5..];
    assert |a| == |b|;
    assert a == (a + tail)[..|a|];
    assert b == (b + tail)[..|b|];
    NatToStringInjective(i, j);
  }

  /** A jsPDF document: the text lines written on each page, and the page
      further drawing goes to. */
  class PdfDocument {
    var pages: seq<seq<string>>
    var current: nat
    const pageHeight: int

    predicate Valid()
      reads this
    {
      current < |pages|
    }

    /** `new jsPDF(...)`: one empty page. */
    constructor (pageHeight: int)
      ensures Valid()
      ensures pages == [[]] && current == 0 && this.pageHeight == pageHeight
    {
      this.pageHeight := pageHeight;
      pages := [[]];
      current := 0;
    }

    /** `getNumberOfPages()`. */
    function NumberOfPages(): nat
      reads this
    {
      |pages|
    }

    /** `addPage()`: a new empty page at the end, which becomes current. */
    method AddPage()
      requires Valid()
      modifies this
      ensures Valid()
      ensures pages == old(pages) + [[]] && current == |old(pages)|
    {
      pages := pages + [[]];
      current := |pages| - 1;
    }

    /** `setPage(n)`, with pages numbered from 1. */
    method SetPage(n: int)
      requires 1 <= n <= |pages|
      modifies this
      ensures Valid()
      ensures pages == old(pages) && current == n - 1
    {
      current := n - 1;
    }

    /** `text(line, ...)` on the current page. */
    method Text(line: string)
      requires Valid()
      modifies this
      ensures Valid()
      ensures current == old(current)
      ensures pages == old(pages)[current := old(pages)[current] + [line]]
    {
      pages := pages[current := pages[current] + [line]];
    }
  }

  /** Runs the cursor program on the document, starting from cursor
      position `y0`; the cursor ends where `Run` says, and the pages added
      on the way are empty. */
  method LayOut(doc: PdfDocument, steps: seq<Step>, y0: int) returns (y: int)
    requires doc.Valid()
    modifies doc
    ensures doc.Valid()
    ensures Cursor(y, |doc.pages|) == Run(steps, Cursor(y0, old(|doc.pages|)), doc.pageHeight)
    ensures |doc.pages| >= old(|doc.pages|)
    ensures doc.pages[..old(|doc.pages|)] == old(doc.pages)
    ensures forall k :: old(|doc.pages|) <= k < |doc.pages| ==> doc.pages[k] == []
  {
    y := y0;
    var i := 0;
    while i < |steps|
      invariant 0 <= i <= |steps|
      invariant doc.Valid()
      invariant Run(steps[i..], Cursor(y, |doc.pages|), doc.pageHeight)
             == Run(steps, Cursor(y0, old(|doc.pages|)), doc.pageHeight)
      invariant |doc.pages| >= old(|doc.pages|)
      invariant doc.pages[..old(|doc.pages|)] == old(doc.pages)
      invariant forall k :: old(|doc.pages|) <= k < |doc.pages| ==> doc.pages[k] == []
    {
      assert steps[i..][1..] == steps[i + 1..];
      match steps[i] {
        case MoveTo(target) =>
          y := target;
        case Advance(dy) =>
          y := y + dy;
        case BreakAbove(reserve) =>
          if y > doc.pageHeight - reserve {
            doc.AddPage();
            y := TopMargin;
          }
        case NewPage =>
          doc.AddPage();
          y := TopMargin;
      }
      i := i + 1;
    }
  }

  /** The footer pass: for `i` from 1 to the page count, the footer note
      and "Page i of N" are written on page `i`. */
  method StampFooters(doc: PdfDocument)
    requires doc.Valid()
    modifies doc
    ensures doc.Valid()
    ensures |doc.pages| == old(|doc.pages|)
    ensures forall k :: 0 <= k < |doc.pages| ==>
              doc.pages[k] == old(doc.pages[k]) + [FooterNote, PageLabel(k + 1, |doc.pages|)]
  {
    var count := doc.NumberOfPages();
    for i := 1 to count + 1
      invariant doc.Valid()
      invariant |doc.pages| == count
      invariant forall k :: 0 <= k < i - 1 ==>
                  doc.pages[k] == old(doc.pages[k]) + [FooterNote, PageLabel(k + 1, count)]
      invariant forall k :: i - 1 <= k < count ==> doc.pages[k] == old(doc.pages[k])
    {
      doc.SetPage(i);
      doc.Text(FooterNote);
      doc.Text(PageLabel(i, count));
    }
  }

  /** The number of pages of the report. */
  function ReportPageCount(contributions: nat, recent: nat, hasHistory: bool, pageHeight: int): (n: nat)
    ensures n >= 2
  {
    AtLeastTwoPages(contributions, recent, hasHistory, pageHeight);
    Run(ReportSteps(contributions, recent, hasHistory), Cursor(0, 1), pageHeight).pages
  }

  /** Every page carries exactly its footer: the note and its own label. */
  predicate FootersOnly(pages: seq<seq<string>>)
  {
    forall k :: 0 <= k < |pages| ==> pages[k] == [FooterNote, PageLabel(k + 1, |pages|)]
  }

  /** Lays the cursor program out on a new document of the given page
      height and stamps the footers: the pages are as many as `Run` counts,
      and each carries exactly its footer. */
  method RenderReport(steps: seq<Step>, pageHeight: int) returns (pages: seq<seq<string>>)
    ensures |pages| == Run(steps, Cursor(0, 1), pageHeight).pages
    ensures FootersOnly(pages)
  {
    var doc := new PdfDocument(pageHeight);
    var y := LayOut(doc, steps, 0);
    forall k | 0 <= k < |doc.pages|
      ensures doc.pages[k] == []
    {
      if k == 0 {
        assert doc.pages[0] == doc.pages[..1][0];
      }
    }
    StampFooters(doc);
    pages := doc.pages;
  }

  /** What an export produces: the file name and the text lines on each page. */
  datatype ExportedReport = ExportedReport(fileName: string, pages: seq<seq<string>>)

  /** The export of a scenario: named from the country and the date, as
      many pages as the layout needs, each with its footer alone. */
  predicate IsExport(report: ExportedReport, contributions: nat, recent: nat, hasHistory: bool,
                     pageHeight: int, country: string, isoTimestamp: string)
  {
    && report.fileName == ExportFileName(country, isoTimestamp)
    && |report.pages| == ReportPageCount(contributions, recent, hasHistory, pageHeight)
    && FootersOnly(report.pages)
  }

  /** Lays out and names the report of a scenario. */
  method ExportPdf(contributions: nat, recent: nat, hasHistory: bool, pageHeight: int,
                   country: string, isoTimestamp: string)
    returns (report: ExportedReport)
    ensures IsExport(report, contributions, recent, hasHistory, pageHeight, country, isoTimestamp)
  {
    var pages := RenderReport(ReportSteps(contributions, recent, hasHistory), pageHeight);
    report := ExportedReport(ExportFileName(country, isoTimestamp), pages);
  }

  /** Pages that held no text before the footer pass end with exactly one
      page label each, and it names the page's own number. */
  lemma EachPageStampedOnce(pages: seq<seq<string>>, k: int, j: int)
    requires 0 <= k < |pages| && 0 <= j < |pages|
    requires FootersOnly(pages)
    ensures pages[k][1] == PageLabel(k + 1, |pages|)
    ensures pages[k][1] == pages[j][1] ==> k == j
  {
    if pages[k][1] == pages[j][1] {
      PageLabelsDistinct(k + 1, j + 1, |pages|);
    }
  }

  /** `Vikalp_Scenario_<country>_<date>.pdf`: runs of white space in the
      country become `_`, and the date is the part of the ISO timestamp
      before `T`. */
  function ExportFileName(country: string, isoTimestamp: string): (name: string)
    ensures StartsWith(name, "Vikalp_Scenario_")
    ensures name[|name| - 4..] == ".pdf"
  {
    "Vikalp_Scenario_" + ReplaceWhitespaceRuns(country) + "_" + Split(isoTimestamp, 'T')[0] + ".pdf"
  }

  /** The country part of the file name has no white space left. */
  lemma FileNameCountryPart(country: string, date: string, time: string)
    requires 'T' !in date
    ensures ExportFileName(country, date + "T" + time)
         == "Vikalp_Scenario_" + ReplaceWhitespaceRuns(country) + "_" + date + ".pdf"
    ensures NoWhitespace(ReplaceWhitespaceRuns(country))
  {
    SplitFirst(date, 'T', time);
  }

  /** A two-word country such as "United States" is joined with `_`:
      exported on 2026-10-15 it is saved as
      `Vikalp_Scenario_United_States_2026-10-15.pdf`. */
  lemma FileNameTwoWords(first: string, second: string, date: string, time: string)
    requires |first| > 0 && |second| > 0 && NoWhitespace(first) && NoWhitespace(second)
    requires 'T' !in date
    ensures ExportFileName(first + " " + second, date + "T" + time)
         == "Vikalp_Scenario_" + first + "_" + second + "_" + date + ".pdf"
  {
    ReplaceOneRun(first, " ", second);
    ReplaceWithoutWhitespace(second);
    FileNameCountryPart(first + " " + second, date, time);
  }
}
