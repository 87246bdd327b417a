/**
 * `_preview_pptx_slide` (document_previewer.py): the text of a slide's
 * shapes drawn top to bottom on an 800x600 canvas, the first block and every
 * short block in the bold title font. A parsed presentation is a list of
 * slides, each a list of shapes; a shape carries `Some(text)` when it has a
 * `text` attribute and `None` otherwise (pictures, connectors).
 */
module Pptx {
  import opened Wrappers
  import opened PyStr
  import opened Canvas
  import opened TextWrap

  type Shape = Option<string>
  type Slide = seq<Shape>

  const SlideWidth := 800
  const SlideHeight := 600
  const TitleFont := Font(SansBold, 32)
  const BodyFont := Font(Sans, 18)
  const TopY := 50
  /** A line is drawn only while the cursor is at most `SlideHeight - 50`. */
  const LineCutoff := SlideHeight - 50
  const TitleStep := 40
  const BodyStep := 25
  const BlockGap := 20

  /** The stripped text of a shape; empty for a shape without text. */
  function ShapeText(s: Shape): (text: string)
    ensures text != [] ==> Split(text) != []
  {
    if s.None? then "" else
      var t := Strip(s.value);
      if t == [] then t else SplitStripNonEmpty(s.value); t
  }

  /** A block is drawn as a title when it is the first one on the slide or shorter than 100 characters. */
  predicate IsTitle(text: string, y: int) {
    y == TopY || |text| < 100
  }

  function FontFor(text: string, y: int): Font {
    if IsTitle(text, y) then TitleFont else BodyFont
  }

  function StepFor(text: string, y: int): nat {
    if IsTitle(text, y) then TitleStep else BodyStep
  }

  /** The lines of one block, wrapped in the block's font to the slide width less 100. */
  function BlockLines(text: string, y: int, measure: Measure): seq<string> {
    Wrap(text, measure, FontFor(text, y), SlideWidth - 100)
  }

  /** The draw calls for the lines of one block from cursor `y`, while the cursor is at most 550. */
  function LineCommands(lines: seq<string>, y: int, font: Font, step: nat): seq<Draw>
    decreases |lines|
  {
    if lines == [] || y > LineCutoff then []
    else [Text(50, y, lines[0], Black, font)] + LineCommands(lines[1..], y + step, font, step)
  }

  /** The cursor after the line loop of one block. */
  function LinesEnd(lines: seq<string>, y: int, step: nat): int
    decreases |lines|
  {
    if lines == [] || y > LineCutoff then y else LinesEnd(lines[1..], y + step, step)
  }

  /** The draw calls for one block of text whose first line is due at `y`. */
  function BlockCommands(text: string, y: int, measure: Measure): seq<Draw> {
    LineCommands(BlockLines(text, y, measure), y, FontFor(text, y), StepFor(text, y))
  }

  /** The cursor after one block, gap included. */
  function BlockEnd(text: string, y: int, measure: Measure): int {
    LinesEnd(BlockLines(text, y, measure), y, StepFor(text, y)) + BlockGap
  }

  /** The stripped texts of a slide's shapes, in order. */
  function ShapeTexts(slide: Slide): (texts: seq<string>)
    ensures |texts| == |slide|
    decreases |slide|
  {
    if slide == [] then [] else [ShapeText(slide[0])] + ShapeTexts(slide[1..])
  }

  /** Text `i` is that of shape `i`. */
  lemma {:induction false} ShapeTextsAt(slide: Slide)
    ensures forall i :: 0 <= i < |slide| ==> ShapeTexts(slide)[i] == ShapeText(slide[i])
    decreases |slide|
  {
    if slide != [] {
      ShapeTextsAt(slide[1..]);
      assert forall i :: 1 <= i < |slide| ==> slide[1..][i - 1] == slide[i];
    }
  }

  /**
   * The drawing of the shapes' texts from cursor `y` on: a shape without
   * text, or with blank text, is skipped; after a block the cursor moves down
   * by 20 more, whether or not its lines were drawn.
   */
  function TextsCommands(texts: seq<string>, y: int, measure: Measure): seq<Draw>
    decreases |texts|
  {
    if texts == [] then []
    else if texts[0] == [] then TextsCommands(texts[1..], y, measure)
    else BlockCommands(texts[0], y, measure) + TextsCommands(texts[1..], BlockEnd(texts[0], y, measure), measure)
  }

  /** The image drawn for one slide. */
  function SlideImage(slide: Slide, measure: Measure): Image {
    Drawn(SlideWidth, SlideHeight, White, TextsCommands(ShapeTexts(slide), TopY, measure))
  }

  /**
   * What `_preview_pptx_slide` returns for page `n` of a parsed presentation:
   * an error image past the last slide; otherwise `prs.slides[n - 1]`, which
   * for `n <= 0` counts from the end like a Python list and raises an
   * IndexError (`Err`) when it runs off the front.
   */
  function Preview(slides: seq<Slide>, n: int, measure: Measure): Result<Image> {
    if n > |slides| then Ok(ErrorImage("Slide " + IntToString(n) + " not found", measure))
    else
      match PyIndex(|slides|, n - 1)
      case None => Err("slide index out of range")
      case Some(k) => Ok(SlideImage(slides[k], measure))
  }

  // ------------------------------------------------------------ the loops

  /** The line loop of one block. */
  method DrawLines(lines: seq<string>, y0: int, font: Font, step: nat, before: seq<Draw>)
    returns (commands: seq<Draw>, y: int)
    ensures commands == before + LineCommands(lines, y0, font, step)
    ensures y == LinesEnd(lines, y0, step)
  {
    commands, y := before, y0;
    var j := 0;
    while j < |lines|
      invariant 0 <= j <= |lines|
      invariant LinesEnd(lines[j..], y, step) == LinesEnd(lines, y0, step)
      invariant commands + LineCommands(lines[j..], y, font, step) == before + LineCommands(lines, y0, font, step)
    {
      if y > SlideHeight - 50 {
        break;
      }
      assert lines[j..][1..] == lines[j + 1..];
      commands := commands + [Text(50, y, lines[j], Black, font)];
      y := y + step;
      j := j + 1;
    }
  }

  /** The body of the shape loop: skip a shape without text, otherwise choose the font, wrap, draw and add the gap. */
  method DrawShape(shape: Shape, y0: int, before: seq<Draw>, measure: Measure) returns (commands: seq<Draw>, y: int)
    ensures var text := ShapeText(shape);
      && (text == [] ==> commands == before && y == y0)
      && (text != [] ==> commands == before + BlockCommands(text, y0, measure) && y == BlockEnd(text, y0, measure))
  {
    commands, y := before, y0;
    if shape.Some? && Strip(shape.value) != [] {
      var text := Strip(shape.value);
      var isTitle := y == 50 || |text| < 100;
      var currentFont := if isTitle then TitleFont else BodyFont;
      var step := if isTitle then TitleStep else BodyStep;
      var wrapped := WrapText(text, measure, currentFont, SlideWidth - 100);
      commands, y := DrawLines(wrapped, y, currentFont, step, commands);
      y := y + BlockGap;
    }
  }

  /** One step of the shape loop, as the specification function sees it. */
  lemma TextsAdvance(texts: seq<string>, i: nat, y0: int, measure: Measure, before: seq<Draw>, commands: seq<Draw>, y: int)
    requires i < |texts|
    requires texts[i] == [] ==> commands == before && y == y0
    requires texts[i] != [] ==> commands == before + BlockCommands(texts[i], y0, measure) && y == BlockEnd(texts[i], y0, measure)
    ensures commands + TextsCommands(texts[i + 1..], y, measure) == before + TextsCommands(texts[i..], y0, measure)
  {
    var rest := texts[i..];
    assert rest[0] == texts[i] && rest[1..] == texts[i + 1..];
    if texts[i] != [] {
      var block := BlockCommands(texts[i], y0, measure);
      var tail := TextsCommands(texts[i + 1..], y, measure);
      assert (before + block) + tail == before + (block + tail);
    }
  }

  /** The shape loop of `_preview_pptx_slide`. */
  method DrawSlide(slide: Slide, measure: Measure) returns (img: Image)
    ensures img == SlideImage(slide, measure)
  {
    ghost var texts := ShapeTexts(slide);
    ShapeTextsAt(slide);
    var commands: seq<Draw> := [];
    var y := TopY;
    var i := 0;
    assert texts[0..] == texts;
    while i < |slide|
      invariant 0 <= i <= |slide| == |texts|
      invariant commands + TextsCommands(texts[i..], y, measure) == TextsCommands(texts, TopY, measure)
    {
      ghost var before, y0 := commands, y;
      commands, y := DrawShape(slide[i], y, commands, measure);
      TextsAdvance(texts, i, y0, measure, before, commands, y);
      i := i + 1;
    }
    assert commands + [] == commands;
    img := Drawn(SlideWidth, SlideHeight, White, commands);
  }

  /** `_preview_pptx_slide` after parsing. */
  method PreviewSlide(slides: seq<Slide>, n: int, measure: Measure) returns (r: Result<Image>)
    ensures r == Preview(slides, n, measure)
  {
    if n > |slides| {
      return Ok(ErrorImage("Slide " + IntToString(n) + " not found", measure));
    }
    var k := n - 1;
    if k < 0 {
      k := k + |slides|;
    }
    if k < 0 {
      return Err("slide index out of range");
    }
    var img := DrawSlide(slides[k], measure);
    r := Ok(img);
  }

  // ---------------------------------------------------------- properties

  /** A slide line: at the left margin 50, in black, in one of the two fonts, between the cursor `y0` and 550. */
  predicate SlideLine(d: Draw, y0: int) {
    && d.Text? && d.x == 50 && d.fill == Black
    && (d.font == TitleFont || d.font == BodyFont)
    && y0 <= d.y <= LineCutoff
  }

  /** The lines of one block go out `step` apart from the cursor on, while the cursor is at most 550. */
  lemma {:induction false} LineCommandsAt(lines: seq<string>, y: int, font: Font, step: nat)
    ensures var cs := LineCommands(lines, y, font, step);
      && |cs| <= |lines|
      && LinesEnd(lines, y, step) == y + step * |cs|
      && (forall k :: 0 <= k < |cs| ==> cs[k] == Text(50, y + step * k, lines[k], Black, font))
      && (forall k :: 0 <= k < |cs| ==> cs[k].y <= LineCutoff)
      && (lines != [] && y <= LineCutoff ==> cs != [])
    decreases |lines|
  {
    if lines != [] && y <= LineCutoff {
      LineCommandsAt(lines[1..], y + step, font, step);
      var tail := LineCommands(lines[1..], y + step, font, step);
      var cs := [Text(50, y, lines[0], Black, font)] + tail;
      assert forall k :: 1 <= k < |cs| ==> cs[k] == tail[k - 1];
    }
  }

  /**
   * One block: its lines are slide lines from the cursor on, at least 25
   * apart; it is drawn (at the cursor) exactly when the cursor is at most
   * 550; and the cursor ends at least 25 + 20 below its last line.
   */
  lemma BlockShape(text: string, y: int, measure: Measure)
    requires Split(text) != []
    ensures var cs := BlockCommands(text, y, measure);
      var end := BlockEnd(text, y, measure);
      && (forall k :: 0 <= k < |cs| ==> SlideLine(cs[k], y))
      && Descending(cs, BodyStep)
      && end >= y + BlockGap
      && (cs == [] <==> y > LineCutoff)
      && (cs != [] ==> cs[0].y == y && cs[|cs| - 1].y + BodyStep + BlockGap <= end)
  {
    var font, step := FontFor(text, y), StepFor(text, y);
    WrapNonEmpty(text, measure, font, SlideWidth - 100);
    LinesShape(BlockLines(text, y, measure), y, font, step);
  }

  /** The lines of one block in either font, at least 25 apart, are slide lines from the cursor on. */
  lemma LinesShape(lines: seq<string>, y: int, font: Font, step: nat)
    requires lines != [] && step >= BodyStep && (font == TitleFont || font == BodyFont)
    ensures var cs := LineCommands(lines, y, font, step);
      && (forall k :: 0 <= k < |cs| ==> SlideLine(cs[k], y))
      && Descending(cs, BodyStep)
      && LinesEnd(lines, y, step) >= y
      && (cs == [] <==> y > LineCutoff)
      && (cs != [] ==> cs[0].y == y && cs[|cs| - 1].y + step == LinesEnd(lines, y, step))
  {
    var cs := LineCommands(lines, y, font, step);
    LineCommandsAt(lines, y, font, step);
    forall k | 0 <= k < |cs| - 1 ensures StepsDown(cs, k, BodyStep) {
      assert cs[k + 1].y == cs[k].y + step;
    }
  }

  /** A block's lines followed by lines from `end` on, where `end` is at least 25 below the block's last line. */
  lemma JoinShape(a: seq<Draw>, b: seq<Draw>, y: int, end: int)
    requires a != []
    requires forall k :: 0 <= k < |a| ==> SlideLine(a[k], y)
    requires forall k :: 0 <= k < |b| ==> SlideLine(b[k], end)
    requires Descending(a, BodyStep) && Descending(b, BodyStep)
    requires Y(a[0]) == y && Y(a[|a| - 1]) + BodyStep <= end
    ensures var cs := a + b;
      && (forall k :: 0 <= k < |cs| ==> SlideLine(cs[k], y))
      && Descending(cs, BodyStep)
      && cs[0].y == y
  {
    var cs := a + b;
    assert y <= end;
    forall k | 0 <= k < |cs| ensures SlideLine(cs[k], y) {
      if k >= |a| { assert cs[k] == b[k - |a|]; }
    }
    forall k | 0 <= k < |cs| - 1 ensures StepsDown(cs, k, BodyStep) {
      if k >= |a| {
        assert StepsDown(b, k - |a|, BodyStep);
      } else if k < |a| - 1 {
        assert StepsDown(a, k, BodyStep);
      }
    }
  }

  /** Every non-empty text of a slide has words. */
  predicate Stripped(texts: seq<string>) {
    forall i :: 0 <= i < |texts| ==> texts[i] != [] ==> Split(texts[i]) != []
  }

  lemma {:induction false} TextsShape(texts: seq<string>, y: int, measure: Measure)
    requires Stripped(texts)
    ensures var cs := TextsCommands(texts, y, measure);
      && (forall k :: 0 <= k < |cs| ==> SlideLine(cs[k], y))
      && Descending(cs, BodyStep)
      && (cs != [] ==> cs[0].y == y)
      && (y > LineCutoff ==> cs == [])
    decreases |texts|
  {
    if texts != [] {
      var rest := texts[1..];
      assert Stripped(rest) by { assert forall i :: 0 <= i < |rest| ==> rest[i] == texts[i + 1]; }
      if texts[0] == [] {
        TextsShape(rest, y, measure);
      } else {
        var a := BlockCommands(texts[0], y, measure);
        var end := BlockEnd(texts[0], y, measure);
        var b := TextsCommands(rest, end, measure);
        BlockShape(texts[0], y, measure);
        TextsShape(rest, end, measure);
        if a != [] {
          JoinShape(a, b, y, end);
        }
      }
    }
  }

  /**
   * What a slide looks like: every draw call is a line at x = 50 in black,
   * in the title or the body font, between y = 50 and y = 550, each at least
   * 25 below the previous one; so at most 21 lines fit on a slide.
   */
  lemma SlideShape(slide: Slide, measure: Measure)
    ensures var img := SlideImage(slide, measure);
      && img.Drawn? && img.width == 800 && img.height == 600 && img.background == White
      && (forall k :: 0 <= k < |img.commands| ==> SlideLine(img.commands[k], TopY))
      && Descending(img.commands, BodyStep)
      && |img.commands| <= 21
  {
    var texts := ShapeTexts(slide);
    var cs := TextsCommands(texts, TopY, measure);
    ShapeTextsAt(slide);
    TextsShape(texts, TopY, measure);
    if cs != [] {
      DescendingFrom(cs, TopY, BodyStep, |cs| - 1);
    }
  }

  /**
   * The first shape with text is the slide's title: its first line is drawn
   * at y = 50 in the title font, whatever its length.
   */
  lemma FirstBlockIsTitle(slide: Slide, j: nat, measure: Measure)
    requires j < |slide|
    requires forall i :: 0 <= i < j ==> ShapeText(slide[i]) == []
    requires ShapeText(slide[j]) != []
    ensures var cs := SlideImage(slide, measure).commands;
      var text := ShapeText(slide[j]);
      && cs != []
      && Wrap(text, measure, TitleFont, SlideWidth - 100) != []
      && cs[0] == Text(50, TopY, Wrap(text, measure, TitleFont, SlideWidth - 100)[0], Black, TitleFont)
  {
    var texts := ShapeTexts(slide);
    ShapeTextsAt(slide);
    SkipBlank(texts, j, TopY, measure);
    var text := texts[j];
    var rest := texts[j..];
    assert rest[0] == text;
    BlockShape(text, TopY, measure);
    WrapNonEmpty(text, measure, TitleFont, SlideWidth - 100);
    LineCommandsAt(BlockLines(text, TopY, measure), TopY, TitleFont, TitleStep);
  }

  /** Blank texts before position `j` draw nothing and leave the cursor where it was. */
  lemma {:induction false} SkipBlank(texts: seq<string>, j: nat, y: int, measure: Measure)
    requires j <= |texts|
    requires forall i :: 0 <= i < j ==> texts[i] == []
    ensures TextsCommands(texts, y, measure) == TextsCommands(texts[j..], y, measure)
    decreases j
  {
    if j > 0 {
      SkipBlank(texts[1..], j - 1, y, measure);
      assert texts[1..][j - 1..] == texts[j..];
    }
  }

  /** A block shorter than 100 characters is always drawn in the title font, 40 apart. */
  lemma ShortBlockIsTitle(text: string, y: int, measure: Measure)
    requires |text| < 100
    ensures var cs := BlockCommands(text, y, measure);
      forall k :: 0 <= k < |cs| ==> cs[k].Text? && cs[k].font == TitleFont && cs[k].y == y + TitleStep * k
  {
    LineCommandsAt(BlockLines(text, y, measure), y, TitleFont, TitleStep);
  }

  /**
   * The converse: a block of 100 characters or more that is not at the top
   * of the slide is drawn in the body font, its lines 25 apart, wrapped in
   * that font.
   */
  lemma LongBlockIsBody(text: string, y: int, measure: Measure)
    requires |text| >= 100 && y != TopY
    ensures var lines := Wrap(text, measure, BodyFont, SlideWidth - 100);
      var cs := BlockCommands(text, y, measure);
      && |cs| <= |lines|
      && forall k :: 0 <= k < |cs| ==> cs[k] == Text(50, y + BodyStep * k, lines[k], Black, BodyFont)
  {
    LineCommandsAt(BlockLines(text, y, measure), y, BodyFont, BodyStep);
  }

  /** Past the last slide, the preview is an error image naming the missing slide. */
  lemma PreviewMissing(slides: seq<Slide>, n: int, measure: Measure)
    requires n > |slides|
    ensures Preview(slides, n, measure).Ok?
    ensures IsErrorImage(Preview(slides, n, measure).value, "Slide " + IntToString(n) + " not found")
  {
  }

  /** Pages 1 to the slide count show those slides. */
  lemma PreviewInRange(slides: seq<Slide>, n: int, measure: Measure)
    requires 1 <= n <= |slides|
    ensures Preview(slides, n, measure) == Ok(SlideImage(slides[n - 1], measure))
  {
  }

  /** Python's negative indexing: page 0 shows the last slide, page -1 the one before, and so on. */
  lemma PreviewFromEnd(slides: seq<Slide>, n: int, measure: Measure)
    requires -|slides| < n <= 0
    ensures Preview(slides, n, measure) == Ok(SlideImage(slides[|slides| + n - 1], measure))
  {
    assert PyIndex(|slides|, n - 1) == Some(|slides| + n - 1);
  }

  /** Further down, `prs.slides[n - 1]` raises an IndexError. */
  lemma PreviewOffFront(slides: seq<Slide>, n: int, measure: Measure)
    requires n <= -|slides|
    ensures Preview(slides, n, measure).Err?
  {
  }
}
