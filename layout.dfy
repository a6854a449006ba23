/**
 * The fixed layout of the one-page PDF reports (main.py, lines 276-344 for
 * diabetes and 420-475 for heart disease). The canvas is modelled by the
 * strings drawn on it and their coordinates; the vertical cursor `y` starts
 * at 670, drops 15 after each body line, and each section header is drawn
 * 10 below the cursor before the cursor drops 30.
 */
module PdfLayout {

  /** A value as it appears after a caption; number formatting is not modelled. */
  datatype Shown = Whole(n: int) | Decimal(x: real) | Text(s: string)

  /** What one `drawString` call writes. */
  datatype Content =
    | Plain(s: string)                                  // a literal string
    | DateLine(stamp: string)                           // "Date: <timestamp>"
    | ResultLine(text: string)                          // "Prediction Result: <text>"
    | Entry(caption: string, value: Shown)              // "<caption>: <value>"
    | Flag(factor: string, value: Shown, verdict: string) // "🔹 <factor> (<value>): <verdict>"

  datatype Draw = Draw(x: int, y: int, text: Content)

  /** Everything a report page is drawn from. */
  datatype Report = Report(
    title: string, stamp: string, result: string,
    summary: seq<Content>, risks: seq<Content>, tips: seq<Content>,
    footer: string)

  const Top: int := 670
  const Step: int := 15
  const HeaderDrop: int := 10
  const SectionDrop: int := 30
  const FooterY: int := 50
  const MarginX: int := 50
  const IndentX: int := 60

  /** The most body lines a page holds with every line drawn above the footer. */
  const MaxLines: nat := 38

  const SummaryHeader: string := "Patient Input Summary:"
  const RiskHeader: string := "Risk Factor Highlights:"
  const TipsHeader: string := "Recommendations:"

  /** Number of body lines: summary, risk factors and recommendations. */
  function Lines(r: Report): nat {
    |r.summary| + |r.risks| + |r.tips|
  }

  /** Where the cursor rests once the recommendations are drawn. */
  function EndCursor(r: Report): int {
    Top - Step * Lines(r) - 2 * SectionDrop
  }

  /** One section's body lines, drawn at the indent from `top` downwards. */
  function Column(items: seq<Content>, top: int): (ops: seq<Draw>)
    ensures |ops| == |items|
    ensures forall k :: 0 <= k < |items| ==> ops[k] == Draw(IndentX, top - Step * k, items[k])
  {
    if items == [] then [] else [Draw(IndentX, top, items[0])] + Column(items[1..], top - Step)
  }

  /** Title, date, result and the summary header, at their fixed heights. */
  function Head(r: Report): seq<Draw> {
    [Draw(MarginX, 770, Plain(r.title)),
     Draw(MarginX, 750, DateLine(r.stamp)),
     Draw(MarginX, 720, ResultLine(r.result)),
     Draw(MarginX, 690, Plain(SummaryHeader))]
  }

  /** Everything above the footer, with each section placed where the cursor has reached. */
  function Body(r: Report): seq<Draw> {
    var n1, n2 := |r.summary|, |r.risks|;
    Head(r)
    + Column(r.summary, Top)
    + [Draw(MarginX, Top - Step * n1 - HeaderDrop, Plain(RiskHeader))]
    + Column(r.risks, Top - Step * n1 - SectionDrop)
    + [Draw(MarginX, Top - Step * (n1 + n2) - SectionDrop - HeaderDrop, Plain(TipsHeader))]
    + Column(r.tips, Top - Step * (n1 + n2) - 2 * SectionDrop)
  }

  /** The whole page, footer last. */
  function PageLayout(r: Report): seq<Draw> {
    Body(r) + [Draw(MarginX, FooterY, Plain(r.footer))]
  }

  /** One `for item in items: drawString(60, y, item); y -= 15` loop. */
  method DrawColumn(ops0: seq<Draw>, items: seq<Content>, y0: int) returns (ops: seq<Draw>, y: int)
    ensures ops == ops0 + Column(items, y0)
    ensures y == y0 - Step * |items|
  {
    ops, y := ops0, y0;
    for i := 0 to |items|
      invariant ops == ops0 + Column(items[..i], y0)
      invariant y == y0 - Step * i
    {
      assert Column(items[..i + 1], y0) == Column(items[..i], y0) + [Draw(IndentX, y, items[i])];
      ops := ops + [Draw(IndentX, y, items[i])];
      y := y - Step;
    }
    assert items[..|items|] == items;
  }

  /** The drawing sequence of a report, moving the cursor as the source does. */
  method RenderReport(r: Report) returns (ops: seq<Draw>, y: int)
    ensures ops == PageLayout(r)
    ensures y == EndCursor(r)
  {
    ops := Head(r);
    y := Top;
    ops, y := DrawColumn(ops, r.summary, y);
    ops := ops + [Draw(MarginX, y - HeaderDrop, Plain(RiskHeader))];
    y := y - SectionDrop;
    ops, y := DrawColumn(ops, r.risks, y);
    ops := ops + [Draw(MarginX, y - HeaderDrop, Plain(TipsHeader))];
    y := y - SectionDrop;
    ops, y := DrawColumn(ops, r.tips, y);
    ops := ops + [Draw(MarginX, FooterY, Plain(r.footer))];
  }

  /** The k-th summary line is the page's drawing just after the four head lines, 15k below the top. */
  lemma {:induction false} SummaryLineDrawn(r: Report, k: nat)
    requires k < |r.summary|
    ensures |Head(r)| + k < |PageLayout(r)|
    ensures PageLayout(r)[|Head(r)| + k] == Draw(IndentX, Top - Step * k, r.summary[k])
  {
    var c := Column(r.summary, Top);
    assert PageLayout(r) == Head(r) + c + (PageLayout(r)[|Head(r)| + |c|..]);
    assert PageLayout(r)[|Head(r)| + k] == c[k];
  }

  /**
   * Replacing one summary line changes the page in that line's drawing
   * alone; every other drawing, the footer included, stays where it was.
   */
  lemma {:induction false} SummaryLineSwap(r: Report, k: nat, line: Content)
    requires k < |r.summary|
    ensures |PageLayout(r.(summary := r.summary[k := line]))| == |PageLayout(r)|
    ensures forall i :: 0 <= i < |PageLayout(r)| && i != |Head(r)| + k ==>
              PageLayout(r.(summary := r.summary[k := line]))[i] == PageLayout(r)[i]
  {
    var s := r.(summary := r.summary[k := line]);
    var n := |Head(r)| + |r.summary|;
    var c1, c2 := Column(r.summary, Top), Column(s.summary, Top);
    assert Head(s) == Head(r);
    assert PageLayout(r) == Head(r) + c1 + PageLayout(r)[n..];
    assert PageLayout(s) == Head(r) + c2 + PageLayout(r)[n..];
    forall i | 0 <= i < |PageLayout(r)| && i != |Head(r)| + k
      ensures PageLayout(s)[i] == PageLayout(r)[i]
    {
      if |Head(r)| <= i < n {
        assert PageLayout(s)[i] == c2[i - |Head(r)|];
        assert PageLayout(r)[i] == c1[i - |Head(r)|];
      }
    }
  }

  // ------------------------------------------------------------ page bounds

  /** Every later drawing lies strictly lower on the page. */
  ghost predicate Descending(ops: seq<Draw>) {
    forall i, j :: 0 <= i < j < |ops| ==> ops[j].y < ops[i].y
  }

  ghost predicate AllAbove(ops: seq<Draw>, y: int) {
    forall i :: 0 <= i < |ops| ==> ops[i].y > y
  }

  ghost predicate NoneAbove(ops: seq<Draw>, y: int) {
    forall i :: 0 <= i < |ops| ==> ops[i].y <= y
  }

  lemma DescendingConcat(a: seq<Draw>, b: seq<Draw>, y: int)
    requires Descending(a) && Descending(b) && AllAbove(a, y) && NoneAbove(b, y)
    ensures Descending(a + b)
  {
  }

  /** Above the footer the page is drawn strictly top to bottom. */
  lemma BodyDescends(r: Report)
    ensures Descending(Body(r))
  {
  }

  /** The lowest line above the footer: the last recommendation, or the recommendations header when there are none. */
  lemma BodyBottom(r: Report)
    ensures |Body(r)| > 0
    ensures Body(r)[|Body(r)| - 1].y ==
              if |r.tips| > 0 then Top - Step * Lines(r) - 2 * SectionDrop + Step
              else Top - Step * Lines(r) - SectionDrop - HeaderDrop
  {
  }

  /**
   * Every line is drawn strictly below the one before it, the footer at
   * y = 50 included, exactly when the page has at most MaxLines body lines;
   * one more and the last line reaches the footer.
   */
  lemma {:induction false} PageFits(r: Report)
    ensures Descending(PageLayout(r)) <==> Lines(r) <= MaxLines
  {
    var body := Body(r);
    var footer := [Draw(MarginX, FooterY, Plain(r.footer))];
    BodyDescends(r);
    BodyBottom(r);
    var last := body[|body| - 1].y;
    if Lines(r) <= MaxLines {
      assert last > FooterY;
      forall i | 0 <= i < |body| ensures body[i].y > FooterY {
        if i < |body| - 1 { assert body[|body| - 1].y < body[i].y; }
      }
      DescendingConcat(body, footer, FooterY);
    } else {
      assert last <= FooterY;
      var ops := PageLayout(r);
      assert ops[|body| - 1] == body[|body| - 1] && ops[|body|].y == FooterY;
    }
  }

  // ------------------------------------------------------------- page text

  /** The strings a page carries besides its three sections. */
  function FixedTexts(r: Report): set<Content> {
    {Plain(r.title), DateLine(r.stamp), ResultLine(r.result),
     Plain(SummaryHeader), Plain(RiskHeader), Plain(TipsHeader), Plain(r.footer)}
  }

  /** Every drawing of `ops` writes one of the contents in `allowed`. */
  ghost predicate TextsWithin(ops: seq<Draw>, allowed: set<Content>) {
    forall i :: 0 <= i < |ops| ==> ops[i].text in allowed
  }

  /** The contents a page may show: its fixed strings and its sections' lines. */
  ghost function PageContents(r: Report): set<Content> {
    FixedTexts(r) + (set c | c in r.summary) + (set c | c in r.risks) + (set c | c in r.tips)
  }

  /**
   * A page shows nothing but its fixed strings and its sections' lines,
   * and its third drawing is the prediction result.
   */
  lemma PageTexts(r: Report)
    ensures PageLayout(r)[2].text == ResultLine(r.result)
    ensures TextsWithin(PageLayout(r), PageContents(r))
  {
  }
}
