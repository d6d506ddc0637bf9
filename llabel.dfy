/**
 * `LLabel`: a one-line text label with an optional background texture.
 * Font metrics are inputs: the width of the label's text, the font's line
 * height and its point size, all `int` as the font interface returns them.
 * The component's width and height are floats (reals here).
 */
module Labels {
  import opened Wrappers
  import opened JavaNumeric

  datatype LabelAlignment = LeftAligned | Centered | RightAligned

  /** The font measurements `LLabel` asks for. */
  datatype FontMetrics = FontMetrics(textWidth: int, lineHeight: int, size: int)

  /** A background texture, known here by its size. */
  datatype Texture = Texture(width: real, height: real)

  /** What `draw` emits on the graphics context. */
  datatype DrawCall =
    | DrawTexture(x: real, y: real, width: real, height: real, alpha: real)
    | DrawString(text: string, x: real, y: real, color: int)

  /** The parts of `GLEx` that `draw` reads and restores. */
  class Graphics {
    var color: int
    var alpha: real
    var calls: seq<DrawCall>

    constructor (color: int, alpha: real)
      ensures this.color == color && this.alpha == alpha && calls == []
    {
      this.color, this.alpha, this.calls := color, alpha, [];
    }

    method SetColor(c: int)
      modifies this`color
      ensures color == c
    {
      color := c;
    }

    method SetAlpha(a: real)
      modifies this`alpha
      ensures alpha == a
    {
      alpha := a;
    }

    method Emit(c: DrawCall)
      modifies this`calls
      ensures calls == old(calls) + [c]
    {
      calls := calls + [c];
    }
  }

  /**
   * The size the constructor settles on: the background's size when there is
   * a background and either given dimension is 0; otherwise, when the width
   * is 0, the text width plus 3 by half the font size (int division);
   * otherwise the given size.
   */
  function InitialSize(bg: Option<Texture>, width: int, height: int, font: FontMetrics): (r: (real, real))
    ensures r == (width as real, height as real)
         || (bg.Some? && r == (bg.value.width, bg.value.height))
         || (bg.None? && width == 0 && r.0 == font.textWidth as real + 3.0)
  {
    if bg.Some? && (width == 0 || height == 0) then (bg.value.width, bg.value.height)
    else if width == 0 then ((font.textWidth + 3) as real, JavaHalf(font.size) as real)
    else (width as real, height as real)
  }

  /** The x at which `draw` writes the text, per alignment. */
  function TextX(a: LabelAlignment, x: int, width: real, textWidth: int, offsetLeft: real): (r: real)
    ensures a == LeftAligned ==> r == x as real + offsetLeft
    ensures a == RightAligned ==> r + textWidth as real == x as real + width + offsetLeft
    ensures a == Centered && textWidth >= 0 ==>
      0.0 <= 2.0 * (r - x as real - offsetLeft) + textWidth as real - width <= 1.0
  {
    match a
    case Centered => x as real + (width / 2.0 - JavaHalf(textWidth) as real) + offsetLeft
    case LeftAligned => x as real + offsetLeft
    case RightAligned => x as real + width - textWidth as real + offsetLeft
  }

  /** The y at which `draw` writes the text; the same for every alignment. */
  function TextY(y: int, height: real, lineHeight: int, offsetTop: real): (r: real)
    ensures lineHeight >= 0 ==> 0.0 <= 2.0 * (r - y as real - offsetTop) + lineHeight as real - height <= 1.0
  {
    y as real + (height / 2.0 - JavaHalf(lineHeight) as real) + offsetTop
  }

  /** The constructor's three sizing cases, stated as the label's dimensions. */
  lemma InitialSizeCases(bg: Option<Texture>, width: int, height: int, font: FontMetrics)
    ensures bg.Some? && (width == 0 || height == 0) ==> InitialSize(bg, width, height, font) == (bg.value.width, bg.value.height)
    ensures bg.None? && width == 0 ==>
      InitialSize(bg, width, height, font).0 == font.textWidth as real + 3.0 &&
      (font.size >= 0 ==>
        2.0 * InitialSize(bg, width, height, font).1 <= font.size as real <= 2.0 * InitialSize(bg, width, height, font).1 + 1.0)
    ensures width != 0 && (bg.None? || height != 0) ==> InitialSize(bg, width, height, font) == (width as real, height as real)
  {
  }

  /** A positive explicit size is always kept, background or not. */
  lemma ExplicitSizeKept(bg: Option<Texture>, width: int, height: int, font: FontMetrics)
    requires width != 0 && height != 0
    ensures InitialSize(bg, width, height, font) == (width as real, height as real)
  {
  }

  /**
   * Text anchors: left-aligned text starts at the offset x, right-aligned text
   * ends at the label's right edge, and centred text of even width is centred
   * on the label; vertically, text of even line height is centred on the label.
   */
  lemma TextAnchors(x: int, y: int, width: real, height: real, font: FontMetrics, offsetLeft: real, offsetTop: real)
    ensures TextX(LeftAligned, x, width, font.textWidth, offsetLeft) == x as real + offsetLeft
    ensures TextX(RightAligned, x, width, font.textWidth, offsetLeft) + font.textWidth as real == x as real + width + offsetLeft
    ensures font.textWidth % 2 == 0 ==>
      TextX(Centered, x, width, font.textWidth, offsetLeft) + font.textWidth as real / 2.0 == x as real + width / 2.0 + offsetLeft
    ensures font.lineHeight % 2 == 0 ==>
      TextY(y, height, font.lineHeight, offsetTop) + font.lineHeight as real / 2.0 == y as real + height / 2.0 + offsetTop
  {
    if font.textWidth % 2 == 0 {
      assert 2 * JavaHalf(font.textWidth) == font.textWidth;
    }
    if font.lineHeight % 2 == 0 {
      assert 2 * JavaHalf(font.lineHeight) == font.lineHeight;
    }
  }

  /**
   * For non-negative text no wider than the label, centred text starts right
   * of left-aligned text and at most half a pixel right of right-aligned text
   * (the half is lost by the int division of an odd text width).
   */
  lemma CenteredBetweenLeftAndRight(x: int, width: real, textWidth: int, offsetLeft: real)
    requires 0 <= textWidth && textWidth as real <= width
    ensures TextX(LeftAligned, x, width, textWidth, offsetLeft) <= TextX(Centered, x, width, textWidth, offsetLeft)
    ensures TextX(Centered, x, width, textWidth, offsetLeft) <= TextX(RightAligned, x, width, textWidth, offsetLeft) + 0.5
  {
    assert 2 * JavaHalf(textWidth) <= textWidth <= 2 * JavaHalf(textWidth) + 1;
  }

  class LLabel {
    var labelAlignment: LabelAlignment
    var color: int
    var font: FontMetrics
    var background: Option<Texture>
    var text: Option<string>
    var backAlpha: real
    var offsetLeft: real
    var offsetTop: real
    var x: int
    var y: int
    var width: real
    var height: real

    /** `LLabel(alignment, font, c, bg, mes, x, y, width, height)`; the glyph dictionary binding is not modelled. */
    constructor (alignment: LabelAlignment, font: FontMetrics, c: int, bg: Option<Texture>, mes: Option<string>,
                 x: int, y: int, width: int, height: int)
      ensures (this.width, this.height) == InitialSize(bg, width, height, font)
      ensures labelAlignment == alignment && this.font == font && color == c && background == bg && text == mes
      ensures this.x == x && this.y == y && backAlpha == 1.0 && offsetLeft == 0.0 && offsetTop == 0.0
    {
      labelAlignment, this.font, color, background, text := alignment, font, c, bg, mes;
      this.x, this.y := x, y;
      backAlpha, offsetLeft, offsetTop := 1.0, 0.0, 0.0;
      this.width, this.height := width as real, height as real;
      if bg.Some? && (width == 0 || height == 0) {
        this.width := bg.value.width;
        this.height := bg.value.height;
      } else if width == 0 {
        this.width := (font.textWidth + 3) as real;
        this.height := JavaHalf(font.size) as real;
      }
    }

    /** `LLabel(alignment, font, c, mes, x, y)`: sized by the text's width and the font's line height. */
    constructor FromFont(alignment: LabelAlignment, font: FontMetrics, c: int, mes: Option<string>, x: int, y: int)
      ensures (width, height) == InitialSize(None, font.textWidth, font.lineHeight, font)
      ensures labelAlignment == alignment && this.font == font && color == c && background == None && text == mes
      ensures this.x == x && this.y == y && backAlpha == 1.0 && offsetLeft == 0.0 && offsetTop == 0.0
    {
      labelAlignment, this.font, color, background, text := alignment, font, c, None, mes;
      this.x, this.y := x, y;
      backAlpha, offsetLeft, offsetTop := 1.0, 0.0, 0.0;
      this.width, this.height := font.textWidth as real, font.lineHeight as real;
      if font.textWidth == 0 {
        this.width := 3.0 + font.textWidth as real;
        this.height := JavaHalf(font.size) as real;
      }
    }

    /** The calls `draw(g, x, y)` emits, given the alpha the context had on entry. */
    function DrawCalls(dx: int, dy: int, alphaBefore: real): (r: seq<DrawCall>)
      reads this
      ensures |r| <= 2
      ensures (r != [] && r[0].DrawTexture?) <==> background.Some?
      ensures forall c :: c in r && c.DrawString? ==> c.color == color
    {
      (if background.Some?
       then [DrawTexture(dx as real, dy as real, width, height, if backAlpha != 1.0 then backAlpha else alphaBefore)]
       else [])
      + (if text.Some? && |text.value| > 0
         then [DrawString(text.value, TextX(labelAlignment, dx, width, font.textWidth, offsetLeft),
                          TextY(dy, height, font.lineHeight, offsetTop), color)]
         else [])
    }

    /**
     * `draw(g, x, y)`: the background is drawn exactly when there is one, at
     * (x, y, width, height) and under `backalpha` when that is not 1; the text is
     * drawn in the label's colour exactly when it is non-empty. Colour and
     * alpha of the context are what they were before.
     */
    method Draw(g: Graphics, dx: int, dy: int)
      modifies g
      ensures g.color == old(g.color) && g.alpha == old(g.alpha)
      ensures g.calls == old(g.calls) + DrawCalls(dx, dy, old(g.alpha))
    {
      var oldColor := g.color;
      var oldAlpha := g.alpha;
      if backAlpha != 1.0 {
        g.SetAlpha(backAlpha);
      }
      if background.Some? {
        g.Emit(DrawTexture(dx as real, dy as real, width, height, g.alpha));
      }
      if backAlpha != 1.0 {
        g.SetAlpha(oldAlpha);
      }
      if text.Some? && |text.value| > 0 {
        g.SetColor(color);
        var tx := TextX(labelAlignment, dx, width, font.textWidth, offsetLeft);
        var ty := TextY(dy, height, font.lineHeight, offsetTop);
        g.Emit(DrawString(text.value, tx, ty, g.color));
        g.SetColor(oldColor);
      }
    }

    /** No text call when the text is null or empty; one background call exactly when a background is set. */
    lemma DrawCallsShape(dx: int, dy: int, alphaBefore: real)
      ensures |DrawCalls(dx, dy, alphaBefore)| == (if background.Some? then 1 else 0) + (if text.Some? && |text.value| > 0 then 1 else 0)
      ensures forall c :: c in DrawCalls(dx, dy, alphaBefore) && c.DrawString? ==> text.Some? && |text.value| > 0 && c.text == text.value
      ensures forall c :: c in DrawCalls(dx, dy, alphaBefore) && c.DrawTexture? ==>
        background.Some? && c.x == dx as real && c.y == dy as real && c.width == width && c.height == height
    {
    }
  }
}
