/** The coordinate transform of a menu: every widget is laid out in a 100 x 100
    virtual grid, which is scaled by whole pixels and centred in the menu's real
    pixel rectangle. */
module Geometry {

  /** A real (screen pixel) rectangle: origin, width and height. */
  datatype Rect = Rect(x: int, y: int, width: int, height: int)

  /** A widget's box in the virtual grid; it never changes once built. */
  datatype Box = Box(x: int, y: int, width: int, height: int)

  /** The per-axis whole-pixel scale (the multiplier) and the real position of
      the virtual origin (the offset). */
  datatype Transform = Transform(mulX: int, mulY: int, offX: int, offY: int)

  /** A rectangle at least one grid of 100 pixels wide and high, so that both
      scale factors are at least 1 and a click can be divided by them. */
  predicate Spans(r: Rect) {
    r.width >= 100 && r.height >= 100
  }

  /** The transform of a rectangle: the scale is the number of whole 100-pixel
      grids per axis and the offset places the left-over pixels half before and
      half after the grid (the odd pixel after). */
  function FromRect(r: Rect): (t: Transform)
    ensures 100 * t.mulX <= r.width < 100 * t.mulX + 100
    ensures 100 * t.mulY <= r.height < 100 * t.mulY + 100
    ensures 0 <= 2 * (t.offX - r.x) <= r.width - 100 * t.mulX <= 2 * (t.offX - r.x) + 1
    ensures 0 <= 2 * (t.offY - r.y) <= r.height - 100 * t.mulY <= 2 * (t.offY - r.y) + 1
    ensures Spans(r) ==> t.mulX >= 1 && t.mulY >= 1
  {
    Transform(r.width / 100, r.height / 100,
              r.x + (r.width % 100) / 2, r.y + (r.height % 100) / 2)
  }

  /** The forward map of one axis: a virtual coordinate to a real one. */
  function ToReal(mul: int, off: int, v: int): int {
    v * mul + off
  }

  /** The forward map of a length: scaled, not translated. */
  function ToRealSize(mul: int, v: int): int {
    v * mul
  }

  /** The inverse map of one axis, exact division of the distance from the
      offset by the scale. */
  function ToVirtual(mul: int, off: int, r: int): (v: real)
    requires mul != 0
    ensures v * mul as real == (r - off) as real
  {
    (r - off) as real / mul as real
  }

  /** The strict hit test of a button: the point lies inside the box and not
      on its border. */
  predicate Contains(b: Box, cx: real, cy: real) {
    && b.x as real < cx < (b.x + b.width) as real
    && b.y as real < cy < (b.y + b.height) as real
  }

  /** The same test stated on real pixels, with no division: the distance of
      the click from the offset lies strictly between the scaled box edges. */
  predicate ContainsScaled(b: Box, t: Transform, rx: int, ry: int) {
    && b.x * t.mulX < rx - t.offX < (b.x + b.width) * t.mulX
    && b.y * t.mulY < ry - t.offY < (b.y + b.height) * t.mulY
  }

  function Min(a: int, b: int): int {
    if a <= b then a else b
  }

  function MinReal(a: real, b: real): real {
    if a <= b then a else b
  }

  /** The four vertices of a drawn quad, as the flat list of eight coordinates
      a vertex list holds: (x0, y0) first, (x3, y3) last. */
  datatype Quad = Quad(x0: int, y0: int, x1: int, y1: int, x2: int, y2: int, x3: int, y3: int)

  /** The quad of a widget on screen: its box mapped through the transform. */
  function WidgetQuad(b: Box, t: Transform): Quad {
    var x, y := ToReal(t.mulX, t.offX, b.x), ToReal(t.mulY, t.offY, b.y);
    var w, h := ToRealSize(t.mulX, b.width), ToRealSize(t.mulY, b.height);
    Quad(x, y, x + w, y, x + w, y + h, x, y + h)
  }

  /** Where a widget's label is anchored: the real origin plus half the real
      size, rounded down. */
  function LabelCentre(b: Box, t: Transform): (int, int) {
    var x, y := ToReal(t.mulX, t.offX, b.x), ToReal(t.mulY, t.offY, b.y);
    var w, h := ToRealSize(t.mulX, b.width), ToRealSize(t.mulY, b.height);
    (x + w / 2, y + h / 2)
  }

  /** The label's font size: the shorter virtual side times the smaller of half
      the horizontal scale and the vertical scale. */
  function FontSize(b: Box, t: Transform): real {
    Min(b.width, b.height) as real * MinReal(t.mulX as real / 2.0, t.mulY as real)
  }

  /** The background quad of a menu, in its own drawing order: bottom left,
      top left, top right, bottom right. */
  function BackgroundQuad(r: Rect): Quad {
    Quad(r.x, r.y, r.x, r.y + r.height, r.x + r.width, r.y + r.height, r.x + r.width, r.y)
  }

  /** A widget's quad lists, in drawing order (bottom left, bottom right, top
      right, top left), the images of its box's corners under the forward map. */
  lemma QuadCorners(b: Box, t: Transform)
    ensures var q := WidgetQuad(b, t);
      && q.x0 == q.x3 == ToReal(t.mulX, t.offX, b.x)
      && q.x1 == q.x2 == ToReal(t.mulX, t.offX, b.x + b.width)
      && q.y0 == q.y1 == ToReal(t.mulY, t.offY, b.y)
      && q.y2 == q.y3 == ToReal(t.mulY, t.offY, b.y + b.height)
  {
  }

  /** The label anchor is the midpoint of the quad, rounded down. */
  lemma LabelCentred(b: Box, t: Transform)
    ensures var q, c := WidgetQuad(b, t), LabelCentre(b, t);
      && q.x0 + q.x1 - 1 <= 2 * c.0 <= q.x0 + q.x1
      && q.y0 + q.y2 - 1 <= 2 * c.1 <= q.y0 + q.y2
  {
  }

  /** The font size is the shorter virtual side scaled by whichever of half the
      horizontal scale and the vertical scale is smaller. */
  lemma FontSizeBounds(b: Box, t: Transform)
    ensures var s, m := FontSize(b, t), Min(b.width, b.height) as real;
      && (s == m * (t.mulX as real / 2.0) || s == m * t.mulY as real)
      && (m >= 0.0 ==> s <= m * (t.mulX as real / 2.0) && s <= m * t.mulY as real)
      && (m <= 0.0 ==> s >= m * (t.mulX as real / 2.0) && s >= m * t.mulY as real)
  {
  }

  /** The whole virtual grid, mapped through a rectangle's transform, lies
      inside the rectangle's background, centred: the margin after it is the
      margin before it or one pixel more, on both axes. */
  lemma GridCentred(r: Rect)
    requires r.width >= 0 && r.height >= 0
    ensures var g, q := WidgetQuad(Box(0, 0, 100, 100), FromRect(r)), BackgroundQuad(r);
      && q.x0 <= g.x0 && g.x1 <= q.x2
      && g.x0 - q.x0 <= q.x2 - g.x1 <= g.x0 - q.x0 + 1
      && q.y0 <= g.y0 && g.y2 <= q.y2
      && g.y0 - q.y0 <= q.y2 - g.y2 <= g.y0 - q.y0 + 1
  {
  }

  /** The rectangle (100, 100, 700, 700) fills seven pixels per virtual unit
      and, having no left-over pixels, places the virtual origin at its own. */
  lemma FromRectExample()
    ensures FromRect(Rect(100, 100, 700, 700)) == Transform(7, 7, 100, 100)
  {
  }

  /** Mapping a virtual coordinate to the screen and back gives it back exactly. */
  lemma VirtualRoundTrip(mul: int, off: int, v: int)
    requires mul != 0
    ensures ToVirtual(mul, off, ToReal(mul, off, v)) == v as real
  {
  }

  /** Mapping a real coordinate to virtual space and back gives it back exactly. */
  lemma RealRoundTrip(mul: int, off: int, r: int)
    requires mul != 0
    ensures ToVirtual(mul, off, r) * mul as real + off as real == r as real
  {
  }

  /** For a positive scale, the strict hit test on the divided click point is
      the integer test on the scaled box: no rounding is involved. */
  lemma ContainsIffScaled(b: Box, t: Transform, rx: int, ry: int)
    requires t.mulX > 0 && t.mulY > 0
    ensures Contains(b, ToVirtual(t.mulX, t.offX, rx), ToVirtual(t.mulY, t.offY, ry))
        <==> ContainsScaled(b, t, rx, ry)
  {
  }

  /** A point on the border of a box never hits it. */
  lemma BorderNeverHits(b: Box, cx: real, cy: real)
    requires cx == b.x as real || cx == (b.x + b.width) as real
          || cy == b.y as real || cy == (b.y + b.height) as real
    ensures !Contains(b, cx, cy)
  {
  }

  /** The box (0, 0, 25, 25) is missed at its corners (0, 0) and (25, 25) and
      hit at its centre. */
  lemma HitTestExample()
    ensures !Contains(Box(0, 0, 25, 25), 0.0, 0.0)
    ensures !Contains(Box(0, 0, 25, 25), 25.0, 25.0)
    ensures Contains(Box(0, 0, 25, 25), 12.0, 12.0)
  {
  }
}
