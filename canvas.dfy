/**
 * Images as the previewer produces them: a canvas size, a background and the
 * list of drawing commands issued on it, in order. Pixels are not modelled;
 * font measurement (`font.getbbox`) is an uninterpreted parameter.
 */
module Canvas {

  datatype Color = White | Black | Red

  /** The two DejaVu faces the previewer loads. */
  datatype Face = Sans | SansBold

  datatype Font = Font(face: Face, size: nat)

  /** A bounding box as returned by `font.getbbox(text)`. */
  datatype Box = Box(left: int, top: int, right: int, bottom: int)

  /** Font metrics: the bounding box of a string drawn in a font. */
  type Measure = (Font, string) -> Box

  function TextWidth(measure: Measure, font: Font, text: string): int {
    measure(font, text).right - measure(font, text).left
  }

  function TextHeight(measure: Measure, font: Font, text: string): int {
    measure(font, text).bottom - measure(font, text).top
  }

  /** One call on an `ImageDraw` object. */
  datatype Draw =
    | Text(x: int, y: int, text: string, fill: Color, font: Font)
    | Rectangle(x0: int, y0: int, x1: int, y1: int, outline: Color, lineWidth: nat)

  /**
   * A rendered page: either a canvas the previewer drew itself, or a bitmap
   * produced by the PDF rasteriser, whose pixels are not modelled.
   */
  datatype Image =
    | Drawn(width: nat, height: nat, background: Color, commands: seq<Draw>)
    | Raster(page: nat)

  const ErrorFont := Font(Sans, 24)

  /** The message of an image that `ErrorImage` produced, if it is one. */
  predicate IsErrorImage(img: Image, message: string) {
    && img.Drawn? && img.width == 800 && img.height == 600 && img.background == White
    && |img.commands| == 1 && img.commands[0].Text?
    && img.commands[0].text == message && img.commands[0].fill == Red
    && img.commands[0].font == ErrorFont
  }

  /**
   * `_create_error_image`: an 800x600 white canvas with the message in red,
   * centred on its measured box. Python's `//` rounds down, which for the
   * positive divisor 2 is what Dafny's `/` does, also for negative operands.
   */
  function ErrorImage(message: string, measure: Measure): (img: Image)
    ensures IsErrorImage(img, message)
    ensures 0 <= 800 - TextWidth(measure, ErrorFont, message) - 2 * img.commands[0].x <= 1
    ensures 0 <= 600 - TextHeight(measure, ErrorFont, message) - 2 * img.commands[0].y <= 1
  {
    var w := TextWidth(measure, ErrorFont, message);
    var h := TextHeight(measure, ErrorFont, message);
    Drawn(800, 600, White, [Text((800 - w) / 2, (600 - h) / 2, message, Red, ErrorFont)])
  }

  /** The vertical position of a drawing command. */
  function Y(d: Draw): int {
    if d.Text? then d.y else d.y0
  }

  /** Command `k + 1` sits at least `gap` below command `k`. */
  predicate StepsDown(cs: seq<Draw>, k: int, gap: nat)
    requires 0 <= k < |cs| - 1
  {
    Y(cs[k + 1]) >= Y(cs[k]) + gap
  }

  /** Each command sits at least `gap` below the previous one. */
  predicate Descending(cs: seq<Draw>, gap: nat) {
    forall k :: 0 <= k < |cs| - 1 ==> StepsDown(cs, k, gap)
  }

  /** In a descending list, command `k` sits at least `k` gaps below the first. */
  lemma {:induction false} DescendingFrom(cs: seq<Draw>, y: int, gap: nat, k: nat)
    requires Descending(cs, gap)
    requires cs != [] && Y(cs[0]) == y
    requires k < |cs|
    ensures Y(cs[k]) >= y + gap * k
  {
    if k > 0 {
      DescendingFrom(cs, y, gap, k - 1);
      assert StepsDown(cs, k - 1, gap);
    }
  }
}
