/**
 * The nine layout anchors of `loon.geom.Alignment`. Each constant carries a
 * horizontal weight (`fromLeft`) and a vertical weight (`fromBottom`), and
 * overrides `align` (anchor on the last pixel of a size) and `alignBox`
 * (place a box inside a size). Vectors and dimensions are real-valued here.
 */
module Alignments {
  import opened JavaNumeric

  datatype Alignment =
    | TopLeft | Top | TopRight
    | Left | Middle | Right
    | BottomLeft | Bottom | BottomRight

  datatype Vec = Vec(x: real, y: real)

  datatype Dim = Dim(width: real, height: real)

  /** The `along` weight each constant is declared with. */
  function FromLeft(a: Alignment): (r: real)
    ensures r == 0.0 || r == 0.5 || r == 1.0
    ensures r == 0.0 <==> a in {TopLeft, Left, BottomLeft}
    ensures r == 1.0 <==> a in {TopRight, Right, BottomRight}
  {
    match a
    case TopLeft => 0.0
    case Top => 0.5
    case TopRight => 1.0
    case Left => 0.0
    case Middle => 0.5
    case Right => 1.0
    case BottomLeft => 0.0
    case Bottom => 0.5
    case BottomRight => 1.0
  }

  /** The `up` weight each constant is declared with. */
  function FromBottom(a: Alignment): (r: real)
    ensures r == 0.0 || r == 0.5 || r == 1.0
    ensures r == 0.0 <==> a in {BottomLeft, Bottom, BottomRight}
    ensures r == 1.0 <==> a in {TopLeft, Top, TopRight}
  {
    match a
    case TopLeft => 1.0
    case Top => 1.0
    case TopRight => 1.0
    case Left => 0.5
    case Middle => 0.5
    case Right => 0.5
    case BottomLeft => 0.0
    case Bottom => 0.0
    case BottomRight => 0.0
  }

  /** Each constant's own `align` override, written out case by case. */
  function Align(a: Alignment, o: Vec, s: Dim): (r: Vec)
    ensures s.width >= 1.0 ==> o.x <= r.x <= o.x + s.width - 1.0
    ensures s.height >= 1.0 ==> o.y <= r.y <= o.y + s.height - 1.0
  {
    match a
    case TopLeft => Vec(o.x, o.y + s.height - 1.0)
    case Top => Vec(o.x + (s.width - 1.0) / 2.0, o.y + s.height - 1.0)
    case TopRight => Vec(o.x + s.width - 1.0, o.y + s.height - 1.0)
    case Left => Vec(o.x, o.y + (s.height - 1.0) / 2.0)
    case Middle => Vec(o.x + (s.width - 1.0) / 2.0, o.y + (s.height - 1.0) / 2.0)
    case Right => Vec(o.x + s.width - 1.0, o.y + (s.height - 1.0) / 2.0)
    case BottomLeft => Vec(o.x, o.y)
    case Bottom => Vec(o.x + (s.width - 1.0) / 2.0, o.y)
    case BottomRight => Vec(o.x + s.width - 1.0, o.y)
  }

  /** Each constant's own `alignBox` override, written out case by case. */
  function AlignBox(a: Alignment, o: Vec, s: Dim, b: Dim): (r: Vec)
    ensures b.width <= s.width ==> o.x <= r.x && r.x + b.width <= o.x + s.width
    ensures b.height <= s.height ==> o.y <= r.y && r.y + b.height <= o.y + s.height
  {
    match a
    case TopLeft => Vec(o.x, o.y + s.height - b.height)
    case Top => Vec(o.x + (s.width - b.width) / 2.0, o.y + s.height - b.height)
    case TopRight => Vec(o.x + s.width - b.width, o.y + s.height - b.height)
    case Left => Vec(o.x, o.y + (s.height - b.height) / 2.0)
    case Middle => Vec(o.x + (s.width - b.width) / 2.0, o.y + (s.height - b.height) / 2.0)
    case Right => Vec(o.x + s.width - b.width, o.y + (s.height - b.height) / 2.0)
    case BottomLeft => Vec(o.x, o.y)
    case Bottom => Vec(o.x + (s.width - b.width) / 2.0, o.y)
    case BottomRight => Vec(o.x + s.width - b.width, o.y)
  }

  /** `alignX`: the double product cast back to int. */
  function AlignX(a: Alignment, availableWidth: int, width: int): (r: int)
    ensures width <= availableWidth ==> 0 <= r <= availableWidth - width
    ensures availableWidth < width ==> availableWidth - width <= r <= 0
  {
    TruncToZero(FromLeft(a) * availableWidth as real - FromLeft(a) * width as real)
  }

  /** `alignY`: the same with the vertical weight. */
  function AlignY(a: Alignment, availableHeight: int, height: int): (r: int)
    ensures height <= availableHeight ==> 0 <= r <= availableHeight - height
    ensures availableHeight < height ==> availableHeight - height <= r <= 0
  {
    TruncToZero(FromBottom(a) * availableHeight as real - FromBottom(a) * height as real)
  }

  /**
   * Every override of `align` agrees with the declared weights: it moves the
   * origin by `fromLeft` times the last pixel column and `fromBottom` times
   * the last pixel row.
   */
  lemma AlignFollowsWeights(a: Alignment, o: Vec, s: Dim)
    ensures Align(a, o, s) == Vec(o.x + FromLeft(a) * (s.width - 1.0), o.y + FromBottom(a) * (s.height - 1.0))
  {
    match a
    case TopLeft =>
    case Top =>
    case TopRight =>
    case Left =>
    case Middle =>
    case Right =>
    case BottomLeft =>
    case Bottom =>
    case BottomRight =>
  }

  /** Every override of `alignBox` agrees with the declared weights. */
  lemma AlignBoxFollowsWeights(a: Alignment, o: Vec, s: Dim, b: Dim)
    ensures AlignBox(a, o, s, b) == Vec(o.x + FromLeft(a) * (s.width - b.width), o.y + FromBottom(a) * (s.height - b.height))
  {
    match a
    case TopLeft =>
    case Top =>
    case TopRight =>
    case Left =>
    case Middle =>
    case Right =>
    case BottomLeft =>
    case Bottom =>
    case BottomRight =>
  }

  /** `align` is `alignBox` with a one-pixel box. */
  lemma AlignIsUnitBox(a: Alignment, o: Vec, s: Dim)
    ensures Align(a, o, s) == AlignBox(a, o, s, Dim(1.0, 1.0))
  {
    AlignFollowsWeights(a, o, s);
    AlignBoxFollowsWeights(a, o, s, Dim(1.0, 1.0));
  }

  /** A box as large as the size is placed at the origin by every constant. */
  lemma AlignBoxOfFullSizeIsOrigin(a: Alignment, o: Vec, s: Dim)
    ensures AlignBox(a, o, s, s) == o
  {
    AlignBoxFollowsWeights(a, o, s, s);
  }

  /** BOTTOM_LEFT returns the origin unchanged from both overrides. */
  lemma BottomLeftIsIdentity(o: Vec, s: Dim, b: Dim)
    ensures Align(BottomLeft, o, s) == o && AlignBox(BottomLeft, o, s, b) == o
  {
  }

  /**
   * `alignX` is 0 for the left column, `aw - w` for the right column and
   * Java's `(aw - w) / 2` for the centre column.
   */
  lemma AlignXByColumn(a: Alignment, aw: int, w: int)
    ensures FromLeft(a) == 0.0 ==> AlignX(a, aw, w) == 0
    ensures FromLeft(a) == 1.0 ==> AlignX(a, aw, w) == aw - w
    ensures FromLeft(a) == 0.5 ==> AlignX(a, aw, w) == JavaHalf(aw - w)
  {
    if FromLeft(a) == 0.5 {
      assert 0.5 * aw as real - 0.5 * w as real == (aw - w) as real / 2.0;
      JavaHalfIsTruncatedHalf(aw - w);
    }
  }

  /** `alignY` behaves the same by row, with `fromBottom`. */
  lemma AlignYByRow(a: Alignment, ah: int, h: int)
    ensures FromBottom(a) == 0.0 ==> AlignY(a, ah, h) == 0
    ensures FromBottom(a) == 1.0 ==> AlignY(a, ah, h) == ah - h
    ensures FromBottom(a) == 0.5 ==> AlignY(a, ah, h) == JavaHalf(ah - h)
  {
    if FromBottom(a) == 0.5 {
      assert 0.5 * ah as real - 0.5 * h as real == (ah - h) as real / 2.0;
      JavaHalfIsTruncatedHalf(ah - h);
    }
  }
}
