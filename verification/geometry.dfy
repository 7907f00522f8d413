/**
 * Screen geometry shared by the region selectors, the region resolver and
 * window capture: pixel rectangles, windows, window-relative regions, and
 * the clamped fractions a region is stored as.
 */
module Geometry {

  /** A rectangle in screen pixels: top-left corner and size. */
  datatype Bounds = Bounds(x: int, y: int, width: int, height: int)

  /** A window as the window lookups report it. */
  datatype WindowInfo = WindowInfo(name: string, title: string, bounds: Bounds)

  /** A screen point `(x, y)`. */
  datatype Point = Point(x: int, y: int)

  /** The four fractions of a window-relative region. */
  datatype Fractions = Fractions(x: real, y: real, w: real, h: real)

  /**
   * A window-relative region as the selectors store it: the window's owner
   * name and title, the fractions of the window's size, and the selected
   * rectangle in absolute pixels as a fallback.
   */
  datatype RelRegion = RelRegion(windowName: string, windowTitle: string, fractions: Fractions, absolute: Bounds)

  /** `int(r)`: truncation toward zero. */
  function Trunc(r: real): (n: int)
    ensures r >= 0.0 ==> n as real <= r < n as real + 1.0
    ensures r < 0.0 ==> n as real - 1.0 < r <= n as real
  {
    if r >= 0.0 then r.Floor else -((-r).Floor)
  }

  /** Truncation leaves whole numbers alone. */
  lemma TruncOfInt(n: int)
    ensures Trunc(n as real) == n
  {
  }

  function Min(a: real, b: real): real
  {
    if a <= b then a else b
  }

  function Max(a: real, b: real): real
  {
    if a >= b then a else b
  }

  /** An offset as a fraction of a window dimension, or 0 when the dimension is not positive. */
  function RawFraction(offset: int, size: int): real
  {
    if size > 0 then offset as real / size as real else 0.0
  }

  /** The clamp of the selectors: origin into [0, 1], size into [0, 1 - origin]. */
  function ClampFractions(x: real, y: real, w: real, h: real): Fractions
  {
    var cx := Max(0.0, Min(1.0, x));
    var cy := Max(0.0, Min(1.0, y));
    Fractions(cx, cy, Max(0.0, Min(1.0 - cx, w)), Max(0.0, Min(1.0 - cy, h)))
  }

  /** The fractions lie inside the window: each origin in [0, 1] and each size in [0, 1 - origin]. */
  predicate InUnitSquare(f: Fractions)
  {
    0.0 <= f.x <= 1.0 && 0.0 <= f.y <= 1.0 && 0.0 <= f.w <= 1.0 - f.x && 0.0 <= f.h <= 1.0 - f.y
  }

  /** Clamping always lands inside the window and changes nothing already inside it. */
  lemma ClampFacts(x: real, y: real, w: real, h: real)
    ensures InUnitSquare(ClampFractions(x, y, w, h))
    ensures InUnitSquare(Fractions(x, y, w, h)) ==> ClampFractions(x, y, w, h) == Fractions(x, y, w, h)
  {
  }

  /** The normalised corner rectangle `(x1, y1)..(x2, y2)` as clamped fractions of the window `wb`. */
  function CornerFractions(x1: int, y1: int, x2: int, y2: int, wb: Bounds): (f: Fractions)
  {
    ClampFractions(RawFraction(x1 - wb.x, wb.width), RawFraction(y1 - wb.y, wb.height),
                   RawFraction(x2 - x1, wb.width), RawFraction(y2 - y1, wb.height))
  }

  /** The fractions are in range, and a window dimension that is not positive gives zero fractions along it. */
  lemma CornerFractionsFacts(x1: int, y1: int, x2: int, y2: int, wb: Bounds)
    ensures InUnitSquare(CornerFractions(x1, y1, x2, y2, wb))
    ensures wb.width <= 0 ==> CornerFractions(x1, y1, x2, y2, wb).x == 0.0 && CornerFractions(x1, y1, x2, y2, wb).w == 0.0
    ensures wb.height <= 0 ==> CornerFractions(x1, y1, x2, y2, wb).y == 0.0 && CornerFractions(x1, y1, x2, y2, wb).h == 0.0
  {
    ClampFacts(RawFraction(x1 - wb.x, wb.width), RawFraction(y1 - wb.y, wb.height),
               RawFraction(x2 - x1, wb.width), RawFraction(y2 - y1, wb.height));
  }

  /** The rectangle lies inside the window (edges included). */
  predicate Inside(x1: int, y1: int, x2: int, y2: int, wb: Bounds)
  {
    wb.x <= x1 <= x2 <= wb.x + wb.width && wb.y <= y1 <= y2 <= wb.y + wb.height
  }

  /** `a / d` lies in [0, 1] for `0 <= a <= d`, and fractions of one denominator add. */
  lemma FractionBounds(a: real, b: real, d: real)
    requires d > 0.0 && 0.0 <= a && 0.0 <= b && a + b <= d
    ensures 0.0 <= a / d && 0.0 <= b / d && a / d + b / d <= 1.0
  {
    DivInUnit(a, d);
    DivInUnit(b, d);
    DivInUnit(a + b, d);
    assert a / d + b / d == (a + b) / d;
  }

  /** A quotient times its divisor is the dividend. */
  lemma DivMul(a: real, d: real)
    requires d != 0.0
    ensures a / d * d == a
  {
  }

  /** `x / d` lies in [0, 1] for `0 <= x <= d`. */
  lemma DivInUnit(x: real, d: real)
    requires d > 0.0 && 0.0 <= x <= d
    ensures 0.0 <= x / d <= 1.0
  {
    DivMul(x, d);
  }

  /** The unclamped fractions of a rectangle relative to a window of positive size. */
  function ExactFractions(x1: int, y1: int, x2: int, y2: int, wb: Bounds): Fractions
    requires wb.width > 0 && wb.height > 0
  {
    Fractions((x1 - wb.x) as real / wb.width as real, (y1 - wb.y) as real / wb.height as real,
              (x2 - x1) as real / wb.width as real, (y2 - y1) as real / wb.height as real)
  }

  /** A rectangle inside a window of positive size is stored without clamping. */
  lemma CornerFractionsExact(x1: int, y1: int, x2: int, y2: int, wb: Bounds)
    requires Inside(x1, y1, x2, y2, wb) && wb.width > 0 && wb.height > 0
    ensures CornerFractions(x1, y1, x2, y2, wb) == ExactFractions(x1, y1, x2, y2, wb)
  {
    var W, H := wb.width as real, wb.height as real;
    FractionBounds((x1 - wb.x) as real, (x2 - x1) as real, W);
    FractionBounds((y1 - wb.y) as real, (y2 - y1) as real, H);
    ClampFacts((x1 - wb.x) as real / W, (y1 - wb.y) as real / H, (x2 - x1) as real / W, (y2 - y1) as real / H);
  }

  /** The fractions applied to a window's bounds, each coordinate truncated toward zero. */
  function Scale(f: Fractions, wb: Bounds): Bounds
  {
    Bounds(Trunc(wb.x as real + f.x * wb.width as real), Trunc(wb.y as real + f.y * wb.height as real),
           Trunc(f.w * wb.width as real), Trunc(f.h * wb.height as real))
  }

  /**
   * In exact arithmetic, scaling the fractions of a rectangle by the window
   * they were taken from gives the rectangle back. Python's doubles can come
   * back one pixel short (0.29 of 100 gives 28).
   */
  lemma ScaleUndoesFractions(x1: int, y1: int, x2: int, y2: int, wb: Bounds)
    requires wb.width > 0 && wb.height > 0
    ensures Scale(ExactFractions(x1, y1, x2, y2, wb), wb) == Bounds(x1, y1, x2 - x1, y2 - y1)
  {
    var W, H := wb.width as real, wb.height as real;
    DivMul((x1 - wb.x) as real, W);
    DivMul((y1 - wb.y) as real, H);
    DivMul((x2 - x1) as real, W);
    DivMul((y2 - y1) as real, H);
    ScaleOfProducts(ExactFractions(x1, y1, x2, y2, wb), wb, x1, y1, x2, y2);
  }

  /** Fractions whose products with the window size are whole pixel offsets scale to exactly those pixels. */
  lemma ScaleOfProducts(f: Fractions, wb: Bounds, x1: int, y1: int, x2: int, y2: int)
    requires f.x * wb.width as real == (x1 - wb.x) as real && f.y * wb.height as real == (y1 - wb.y) as real
    requires f.w * wb.width as real == (x2 - x1) as real && f.h * wb.height as real == (y2 - y1) as real
    ensures Scale(f, wb) == Bounds(x1, y1, x2 - x1, y2 - y1)
  {
    OffsetBack(wb.x, f.x, wb.width, x1);
    OffsetBack(wb.y, f.y, wb.height, y1);
    LengthBack(f.w, wb.width, x2 - x1);
    LengthBack(f.h, wb.height, y2 - y1);
    ScaleByFields(f, wb, Bounds(x1, y1, x2 - x1, y2 - y1));
  }

  /** Scaling gives a rectangle when each of its four coordinates comes out right. */
  lemma ScaleByFields(f: Fractions, wb: Bounds, b: Bounds)
    requires Trunc(wb.x as real + f.x * wb.width as real) == b.x
    requires Trunc(wb.y as real + f.y * wb.height as real) == b.y
    requires Trunc(f.w * wb.width as real) == b.width
    requires Trunc(f.h * wb.height as real) == b.height
    ensures Scale(f, wb) == b
  {
    ScaleLeft(f, wb, b.x);
    ScaleTop(f, wb, b.y);
    ScaleWidth(f, wb, b.width);
    ScaleHeight(f, wb, b.height);
    SameFields(Scale(f, wb), b);
  }

  lemma ScaleLeft(f: Fractions, wb: Bounds, v: int)
    requires Trunc(wb.x as real + f.x * wb.width as real) == v
    ensures Scale(f, wb).x == v
  {
  }

  lemma ScaleTop(f: Fractions, wb: Bounds, v: int)
    requires Trunc(wb.y as real + f.y * wb.height as real) == v
    ensures Scale(f, wb).y == v
  {
  }

  lemma ScaleWidth(f: Fractions, wb: Bounds, v: int)
    requires Trunc(f.w * wb.width as real) == v
    ensures Scale(f, wb).width == v
  {
  }

  lemma ScaleHeight(f: Fractions, wb: Bounds, v: int)
    requires Trunc(f.h * wb.height as real) == v
    ensures Scale(f, wb).height == v
  {
  }

  /** Rectangles with the same four coordinates are equal. */
  lemma SameFields(s: Bounds, b: Bounds)
    requires s.x == b.x && s.y == b.y && s.width == b.width && s.height == b.height
    ensures s == b
  {
  }

  /** A window origin plus a whole pixel offset truncates to the offset position. */
  lemma OffsetBack(origin: int, fraction: real, size: int, v: int)
    requires fraction * size as real == (v - origin) as real
    ensures Trunc(origin as real + fraction * size as real) == v
  {
    assert origin as real + fraction * size as real == v as real;
    TruncOfInt(v);
  }

  /** A whole pixel length truncates to itself. */
  lemma LengthBack(fraction: real, size: int, len: int)
    requires fraction * size as real == len as real
    ensures Trunc(fraction * size as real) == len
  {
    TruncOfInt(len);
  }
}
