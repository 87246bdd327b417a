/**
 * The DOCX handler of `DocumentPreviewer` (document_previewer.py): the page
 * count estimate and the text rendering of one estimated page. A parsed
 * document is its list of paragraphs, each the list of its runs' texts.
 */
module Docx {
  import opened PyStr
  import opened Canvas
  import opened TextWrap

  type Paragraph = seq<string>

  /** `paragraph.text`: the texts of its runs, in order. */
  function ParagraphText(p: Paragraph): string {
    if p == [] then "" else ParagraphText(p[..|p| - 1]) + p[|p| - 1]
  }

  /** A run that contains '\f' (the same character as '\x0c'). */
  predicate HasPageBreak(run: string) {
    '\U{C}' in run
  }

  /** The number of runs of one paragraph that contain a page-break character. */
  function BreakRunsIn(runs: seq<string>): nat {
    if runs == [] then 0
    else BreakRunsIn(runs[..|runs| - 1]) + (if HasPageBreak(runs[|runs| - 1]) then 1 else 0)
  }

  /** The number of runs of the whole document that contain a page-break character. */
  function BreakRuns(paras: seq<Paragraph>): nat {
    if paras == [] then 0 else BreakRuns(paras[..|paras| - 1]) + BreakRunsIn(paras[|paras| - 1])
  }

  const ParagraphsPerPage := 20
  const MaxEstimatedPages := 5

  /**
   * The page count `_get_docx_page_count` reports: one more than the number
   * of runs holding a page break; without any, ceil(paragraphs / 20), at
   * least 1 and at most 5.
   */
  function PageCount(paras: seq<Paragraph>): (n: nat)
    ensures BreakRuns(paras) > 0 ==> n == BreakRuns(paras) + 1
    ensures BreakRuns(paras) == 0 ==> 1 <= n <= MaxEstimatedPages
    ensures BreakRuns(paras) == 0 && 0 < |paras| <= 100 ==> 20 * (n - 1) < |paras| <= 20 * n
    ensures BreakRuns(paras) == 0 && |paras| > 100 ==> n == MaxEstimatedPages
    ensures BreakRuns(paras) == 0 && |paras| == 0 ==> n == 1
  {
    var breaks := BreakRuns(paras);
    if breaks == 0 then
      var estimated := (|paras| + 19) / 20;
      var atLeastOne := if estimated < 1 then 1 else estimated;
      if atLeastOne < MaxEstimatedPages then atLeastOne else MaxEstimatedPages
    else
      breaks + 1
  }

  /** `_get_docx_page_count` after parsing: the loops that count page-break runs. */
  method CountPages(paras: seq<Paragraph>) returns (count: nat)
    ensures count == PageCount(paras)
  {
    var pageBreaks := 0;
    var i := 0;
    while i < |paras|
      invariant 0 <= i <= |paras|
      invariant pageBreaks == BreakRuns(paras[..i])
    {
      var runs := paras[i];
      var j := 0;
      while j < |runs|
        invariant 0 <= j <= |runs|
        invariant pageBreaks == BreakRuns(paras[..i]) + BreakRunsIn(runs[..j])
      {
        assert runs[..j + 1][..j] == runs[..j];
        if '\U{C}' in runs[j] {
          pageBreaks := pageBreaks + 1;
        }
        j := j + 1;
      }
      assert runs[..j] == runs;
      assert paras[..i + 1][..i] == paras[..i];
      i := i + 1;
    }
    assert paras[..i] == paras;
    if pageBreaks == 0 {
      var totalParagraphs := |paras|;
      var estimatedPages := (totalParagraphs + 19) / 20;
      if estimatedPages < 1 { estimatedPages := 1; }
      count := if estimatedPages < 5 then estimatedPages else 5;
    } else {
      count := pageBreaks + 1;
    }
  }

  // ------------------------------------------------------------- render

  const TitleFont := Font(SansBold, 24)
  const BodyFont := Font(Sans, 16)
  const PageWidth := 800
  const PageHeight := 1000
  /** The paragraph loop stops once the cursor is below this. */
  const ParagraphCutoff := PageHeight - 100
  /** The line loop stops once the cursor is below this. */
  const LineCutoff := PageHeight - 50
  const LineStep := 25
  const ParagraphGap := 10
  const TopY := 50

  /** The lines of one paragraph drawn from cursor `y` on. */
  function LineCommands(lines: seq<string>, y: int): seq<Draw>
    decreases |lines|
  {
    if lines == [] || y > LineCutoff then []
    else [Text(50, y, lines[0], Black, BodyFont)] + LineCommands(lines[1..], y + LineStep)
  }

  /** The cursor after drawing those lines. */
  function LinesEnd(lines: seq<string>, y: int): int
    decreases |lines|
  {
    if lines == [] || y > LineCutoff then y else LinesEnd(lines[1..], y + LineStep)
  }

  /**
   * The wrapped lines of one paragraph: none for a paragraph of whitespace
   * only, otherwise its stripped text wrapped to the page width less 100.
   */
  function ParagraphLines(p: Paragraph, measure: Measure): (lines: seq<string>)
    ensures lines == [] <==> Strip(ParagraphText(p)) == []
  {
    var text := Strip(ParagraphText(p));
    if text == [] then []
    else
      SplitStripNonEmpty(ParagraphText(p));
      WrapNonEmpty(text, measure, BodyFont, PageWidth - 100);
      Wrap(text, measure, BodyFont, PageWidth - 100)
  }

  function ParagraphBlocks(paras: seq<Paragraph>, measure: Measure): (blocks: seq<seq<string>>)
    ensures |blocks| == |paras|
    decreases |paras|
  {
    if paras == [] then [] else [ParagraphLines(paras[0], measure)] + ParagraphBlocks(paras[1..], measure)
  }

  /** Block `i` holds the lines of paragraph `i`. */
  lemma {:induction false} BlockAt(paras: seq<Paragraph>, measure: Measure, i: nat)
    requires i < |paras|
    ensures ParagraphBlocks(paras, measure)[i] == ParagraphLines(paras[i], measure)
    decreases i
  {
    if i > 0 {
      BlockAt(paras[1..], measure, i - 1);
    }
  }

  /**
   * The drawing of one page's paragraphs (as their wrapped lines), from
   * cursor `y` on: a blank paragraph is skipped without moving the cursor;
   * after a drawn paragraph the cursor moves down by 10 more.
   */
  function BodyCommands(blocks: seq<seq<string>>, y: int): seq<Draw>
    decreases |blocks|
  {
    if blocks == [] || y > ParagraphCutoff then []
    else if blocks[0] == [] then BodyCommands(blocks[1..], y)
    else LineCommands(blocks[0], y) + BodyCommands(blocks[1..], LinesEnd(blocks[0], y) + ParagraphGap)
  }

  /** The paragraphs `doc.paragraphs[(n-1)*20 : (n-1)*20+20]` that page `n` covers. */
  function Window(paras: seq<Paragraph>, n: int): seq<Paragraph> {
    PySlice(paras, (n - 1) * ParagraphsPerPage, (n - 1) * ParagraphsPerPage + ParagraphsPerPage)
  }

  function Header(n: int): Draw {
    Text(50, 20, "DOCX Document - Page " + IntToString(n), Black, TitleFont)
  }

  /** The image `_preview_docx_page` returns for page `n` of a parsed document. */
  function Render(paras: seq<Paragraph>, n: int, measure: Measure): Image {
    Drawn(PageWidth, PageHeight, White, [Header(n)] + BodyCommands(ParagraphBlocks(Window(paras, n), measure), TopY))
  }

  /** The line loop of `_preview_docx_page`: draw lines at the cursor until it passes 950. */
  method DrawLines(lines: seq<string>, y0: int, before: seq<Draw>) returns (commands: seq<Draw>, y: int)
    ensures commands == before + LineCommands(lines, y0)
    ensures y == LinesEnd(lines, y0)
  {
    commands, y := before, y0;
    var j := 0;
    while j < |lines|
      invariant 0 <= j <= |lines|
      invariant LinesEnd(lines[j..], y) == LinesEnd(lines, y0)
      invariant commands + LineCommands(lines[j..], y) == before + LineCommands(lines, y0)
    {
      if y > PageHeight - 50 {
        break;
      }
      assert lines[j..][1..] == lines[j + 1..];
      commands := commands + [Text(50, y, lines[j], Black, BodyFont)];
      y := y + LineStep;
      j := j + 1;
    }
  }

  /** One step of the paragraph loop, while the cursor is at most 900: draw block `i` and move on. */
  lemma BodyAdvance(blocks: seq<seq<string>>, i: nat, y0: int, before: seq<Draw>, commands: seq<Draw>, y: int)
    requires i < |blocks| && y0 <= ParagraphCutoff
    requires commands == before + (if blocks[i] == [] then [] else LineCommands(blocks[i], y0))
    requires y == (if blocks[i] == [] then y0 else LinesEnd(blocks[i], y0) + ParagraphGap)
    ensures commands + BodyCommands(blocks[i + 1..], y) == before + BodyCommands(blocks[i..], y0)
  {
    var tail := blocks[i..];
    assert tail[0] == blocks[i] && tail[1..] == blocks[i + 1..];
    if blocks[i] != [] {
      var lines := LineCommands(blocks[i], y0);
      assert BodyCommands(tail, y0) == lines + BodyCommands(blocks[i + 1..], y);
      assert commands + BodyCommands(blocks[i + 1..], y) == before + (lines + BodyCommands(blocks[i + 1..], y));
    }
  }

  /** The body of the paragraph loop: strip the paragraph's text and, unless it is blank, wrap and draw it. */
  method DrawParagraph(p: Paragraph, y0: int, before: seq<Draw>, measure: Measure) returns (commands: seq<Draw>, y: int)
    ensures var lines := ParagraphLines(p, measure);
      && commands == before + (if lines == [] then [] else LineCommands(lines, y0))
      && y == (if lines == [] then y0 else LinesEnd(lines, y0) + ParagraphGap)
  {
    var text := Strip(ParagraphText(p));
    commands, y := before, y0;
    if text != [] {
      var lines := WrapText(text, measure, BodyFont, PageWidth - 100);
      commands, y := DrawLines(lines, y, commands);
      y := y + ParagraphGap;
    }
  }

  /** Paragraph `i` of the window drawn at cursor `y0`, as one step of `BodyCommands`. */
  method DrawWindowParagraph(window: seq<Paragraph>, i: nat, measure: Measure, before: seq<Draw>, y0: int)
    returns (commands: seq<Draw>, y: int)
    requires i < |window| && y0 <= ParagraphCutoff
    ensures var blocks := ParagraphBlocks(window, measure);
      commands + BodyCommands(blocks[i + 1..], y) == before + BodyCommands(blocks[i..], y0)
  {
    ghost var blocks := ParagraphBlocks(window, measure);
    BlockAt(window, measure, i);
    commands, y := DrawParagraph(window[i], y0, before, measure);
    BodyAdvance(blocks, i, y0, before, commands, y);
  }

  /** `_preview_docx_page` after parsing: the header, then the paragraph loop over the page's window. */
  method RenderPage(paras: seq<Paragraph>, n: int, measure: Measure) returns (img: Image)
    ensures img == Render(paras, n, measure)
  {
    var window := Window(paras, n);
    var commands := DrawBody(window, measure, [Header(n)]);
    img := Drawn(PageWidth, PageHeight, White, commands);
  }

  /** The paragraph loop, advancing the cursor from y = 50 until it passes 900. */
  method DrawBody(window: seq<Paragraph>, measure: Measure, header: seq<Draw>) returns (commands: seq<Draw>)
    ensures commands == header + BodyCommands(ParagraphBlocks(window, measure), TopY)
  {
    ghost var blocks := ParagraphBlocks(window, measure);
    commands := header;
    var y := TopY;
    var i := 0;
    assert blocks[0..] == blocks;
    while i < |window|
      invariant 0 <= i <= |window| == |blocks|
      invariant commands + BodyCommands(blocks[i..], y) == header + BodyCommands(blocks, TopY)
    {
      if y > PageHeight - 100 {
        break;
      }
      commands, y := DrawWindowParagraph(window, i, measure, commands, y);
      i := i + 1;
    }
  }

  // --------------------------------------------------------- properties

  /** A body line: body font, left margin 50, cursor at or below `y0` and no lower than 950. */
  predicate BodyLine(d: Draw, y0: int) {
    d.Text? && d.x == 50 && d.font == BodyFont && d.fill == Black && y0 <= d.y <= LineCutoff
  }

  /** The lines of one paragraph go out at x = 50, 25 apart from the cursor on, while the cursor is at most 950. */
  lemma {:induction false} LineCommandsAt(lines: seq<string>, y: int)
    ensures var cs := LineCommands(lines, y);
      && |cs| <= |lines|
      && LinesEnd(lines, y) == y + LineStep * |cs|
      && (forall k :: 0 <= k < |cs| ==> cs[k] == Text(50, y + LineStep * k, lines[k], Black, BodyFont))
      && (forall k :: 0 <= k < |cs| ==> cs[k].y <= LineCutoff)
      && (lines != [] && y <= LineCutoff ==> cs != [])
    decreases |lines|
  {
    if lines != [] && y <= LineCutoff {
      LineCommandsAt(lines[1..], y + LineStep);
      var tail := LineCommands(lines[1..], y + LineStep);
      var cs := [Text(50, y, lines[0], Black, BodyFont)] + tail;
      assert forall k :: 1 <= k < |cs| ==> cs[k] == tail[k - 1];
    }
  }

  lemma LineCommandsShape(lines: seq<string>, y: int)
    ensures var cs := LineCommands(lines, y);
      && (forall k :: 0 <= k < |cs| ==> BodyLine(cs[k], y))
      && Descending(cs, LineStep)
      && (lines != [] && y <= LineCutoff ==> cs != [])
      && (cs != [] ==> cs[0].y == y && cs[|cs| - 1].y + LineStep == LinesEnd(lines, y))
  {
    LineCommandsAt(lines, y);
  }

  lemma {:induction false} BodyCommandsShape(blocks: seq<seq<string>>, y: int)
    ensures var cs := BodyCommands(blocks, y);
      && (forall k :: 0 <= k < |cs| ==> BodyLine(cs[k], y))
      && Descending(cs, LineStep)
      && (cs != [] ==> cs[0].y == y)
    decreases |blocks|
  {
    if blocks != [] && y <= ParagraphCutoff {
      if blocks[0] == [] {
        BodyCommandsShape(blocks[1..], y);
      } else {
        var end := LinesEnd(blocks[0], y);
        LineCommandsShape(blocks[0], y);
        BodyCommandsShape(blocks[1..], end + ParagraphGap);
        JoinShape(LineCommands(blocks[0], y), BodyCommands(blocks[1..], end + ParagraphGap), y, end);
      }
    }
  }

  /** Lines ending with the cursor at `end`, followed by lines from `end + 10` on, still descend. */
  lemma JoinShape(a: seq<Draw>, b: seq<Draw>, y: int, end: int)
    requires a != []
    requires forall k :: 0 <= k < |a| ==> BodyLine(a[k], y)
    requires forall k :: 0 <= k < |b| ==> BodyLine(b[k], end + ParagraphGap)
    requires Descending(a, LineStep) && Descending(b, LineStep)
    requires Y(a[0]) == y && Y(a[|a| - 1]) + LineStep == end
    ensures var cs := a + b;
      && (forall k :: 0 <= k < |cs| ==> BodyLine(cs[k], y))
      && Descending(cs, LineStep)
      && cs[0].y == y
  {
    var cs := a + b;
    assert y <= end;
    forall k | 0 <= k < |cs| ensures BodyLine(cs[k], y) {
      if k >= |a| { assert cs[k] == b[k - |a|]; }
    }
    forall k | 0 <= k < |cs| - 1 ensures StepsDown(cs, k, LineStep) {
      if k >= |a| {
        assert StepsDown(b, k - |a|, LineStep);
      } else if k < |a| - 1 {
        assert StepsDown(a, k, LineStep);
      }
    }
  }

  /**
   * What an estimated page looks like: the header, then lines in the body
   * font at x = 50, the first at y = 50, each at least 25 below the previous
   * one and none below y = 950; so at most 37 lines fit on a page.
   */
  lemma RenderShape(paras: seq<Paragraph>, n: int, measure: Measure)
    ensures var img := Render(paras, n, measure);
      && img.Drawn? && img.width == 800 && img.height == 1000
      && img.commands != [] && img.commands[0] == Header(n)
      && (forall k :: 1 <= k < |img.commands| ==> BodyLine(img.commands[k], TopY))
      && (|img.commands| > 1 ==> img.commands[1].y == TopY)
      && |img.commands| <= 1 + 37
  {
    var blocks := ParagraphBlocks(Window(paras, n), measure);
    BodyCommandsShape(blocks, TopY);
    PageShape(Header(n), BodyCommands(blocks, TopY));
  }

  /** The header followed by descending body lines from y = 50. */
  lemma PageShape(header: Draw, body: seq<Draw>)
    requires forall k :: 0 <= k < |body| ==> BodyLine(body[k], TopY)
    requires Descending(body, LineStep)
    requires body != [] ==> Y(body[0]) == TopY
    ensures var cs := [header] + body;
      && cs[0] == header
      && (forall k :: 1 <= k < |cs| ==> BodyLine(cs[k], TopY))
      && (|cs| > 1 ==> cs[1].y == TopY)
      && |cs| <= 1 + 37
  {
    var cs := [header] + body;
    assert forall k :: 1 <= k < |cs| ==> cs[k] == body[k - 1];
    if body != [] {
      DescendingFrom(body, TopY, LineStep, |body| - 1);
    }
  }

  /** A page past the last 20-paragraph window draws only its header. */
  lemma RenderPastEnd(paras: seq<Paragraph>, n: int, measure: Measure)
    requires n >= 1 && (n - 1) * 20 >= |paras|
    ensures Render(paras, n, measure).commands == [Header(n)]
  {
  }

  /** Blank paragraphs, of whitespace only, draw nothing and do not move the cursor. */
  lemma BlankParagraphSkipped(p: Paragraph, rest: seq<Paragraph>, y: int, measure: Measure)
    requires forall i :: 0 <= i < |ParagraphText(p)| ==> IsSpace(ParagraphText(p)[i])
    ensures BodyCommands(ParagraphBlocks([p] + rest, measure), y) == BodyCommands(ParagraphBlocks(rest, measure), y)
  {
    BlankBlock(p, rest, measure);
    var blocks := [[]] + ParagraphBlocks(rest, measure);
    assert blocks[1..] == ParagraphBlocks(rest, measure);
  }

  /** A blank paragraph in front adds an empty list of lines in front. */
  lemma BlankBlock(p: Paragraph, rest: seq<Paragraph>, measure: Measure)
    requires forall i :: 0 <= i < |ParagraphText(p)| ==> IsSpace(ParagraphText(p)[i])
    ensures ParagraphBlocks([p] + rest, measure) == [[]] + ParagraphBlocks(rest, measure)
  {
    var paras := [p] + rest;
    assert paras[0] == p && paras[1..] == rest;
    BlankLines(p, measure);
  }

  /** A paragraph of whitespace only has no lines to draw. */
  lemma BlankLines(p: Paragraph, measure: Measure)
    requires forall i :: 0 <= i < |ParagraphText(p)| ==> IsSpace(ParagraphText(p)[i])
    ensures ParagraphLines(p, measure) == []
  {
    assert Strip(ParagraphText(p)) == [];
  }
}
