/** Axis-aligned integer rectangles and the intersection test of
    `java.awt.Rectangle.intersects`, which BirdGame's collision check uses. */
module Geometry {

  /** A rectangle with its top-left corner at (x, y); y grows downwards. */
  datatype Rect = Rect(x: int, y: int, width: int, height: int)

  /** `java.awt.Rectangle.intersects`: false when either rectangle has a
      non-positive width or height; otherwise true exactly when the open
      extents overlap on both axes, so rectangles that only share an edge do
      not intersect. The JDK code also guards against 32-bit overflow of
      `x + width`; with unbounded integers those guards are always false. */
  predicate Intersects(a: Rect, b: Rect) {
    if a.width <= 0 || a.height <= 0 || b.width <= 0 || b.height <= 0 then false
    else
      b.x + b.width > a.x && b.y + b.height > a.y &&
      a.x + a.width > b.x && a.y + a.height > b.y
  }

  /** The pixel (px, py) is one of the cells the rectangle covers. */
  predicate Covers(r: Rect, px: int, py: int) {
    r.x <= px < r.x + r.width && r.y <= py < r.y + r.height
  }

  /** Reference meaning of intersection: the two rectangles cover a common
      pixel. */
  ghost predicate ShareAPixel(a: Rect, b: Rect) {
    exists px, py :: Covers(a, px, py) && Covers(b, px, py)
  }

  lemma IntersectsIffShareAPixel(a: Rect, b: Rect)
    ensures Intersects(a, b) <==> ShareAPixel(a, b)
  {
    if Intersects(a, b) {
      var px := if a.x >= b.x then a.x else b.x;
      var py := if a.y >= b.y then a.y else b.y;
      assert Covers(a, px, py) && Covers(b, px, py);
    }
    if ShareAPixel(a, b) {
      var px, py :| Covers(a, px, py) && Covers(b, px, py);
      assert a.width > 0 && b.width > 0 && a.height > 0 && b.height > 0;
    }
  }

  lemma IntersectsSymmetric(a: Rect, b: Rect)
    ensures Intersects(a, b) == Intersects(b, a)
  {
  }

  /** Rectangles that only touch along a vertical or a horizontal edge do not
      intersect. */
  lemma TouchingEdgesDoNotIntersect(a: Rect, b: Rect)
    requires a.x + a.width == b.x || a.y + a.height == b.y
    ensures !Intersects(a, b)
  {
  }
}
