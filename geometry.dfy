/**
 * Rectangles in image pixel coordinates and the geometric operations the
 * clustering, frame assignment and OCR loops use: the intersection area and
 * gap distance of run.py's merge step, Qt's `QRect.intersected`, `center` and
 * `contains`, `cv2.boundingRect` of a detector box, and the clamp of a crop
 * rectangle to the image.
 */
module Geometry {
  import opened Wrappers

  function Min(a: int, b: int): int { if a <= b then a else b }
  function Max(a: int, b: int): int { if a >= b then a else b }
  function Abs(a: int): nat { if a >= 0 then a else -a }

  /** A rectangle `(x, y, w, h)`: top-left corner and a non-negative size. */
  datatype Rect = Rect(x: int, y: int, w: nat, h: nat)

  function Area(r: Rect): nat { r.w * r.h }

  /** A detector text box: the polygon `[[x1, y1], [x2, y1], [x2, y2], [x1, y2]]`. */
  datatype Quad = Quad(x1: int, y1: int, x2: int, y2: int)

  function XMin(q: Quad): int { Min(q.x1, q.x2) }
  function XMax(q: Quad): int { Max(q.x1, q.x2) }
  function YMin(q: Quad): int { Min(q.y1, q.y2) }
  function YMax(q: Quad): int { Max(q.y1, q.y2) }

  /**
   * `cv2.boundingRect` of the polygon's integer points: the smallest
   * rectangle holding every corner pixel, so its size is max - min + 1.
   */
  function BoundingRect(q: Quad): (r: Rect)
    ensures r.w >= 1 && r.h >= 1
    ensures r.x <= q.x1 < r.x + r.w && r.x <= q.x2 < r.x + r.w
    ensures r.y <= q.y1 < r.y + r.h && r.y <= q.y2 < r.y + r.h
    ensures r.x in {q.x1, q.x2} && r.x + r.w - 1 in {q.x1, q.x2}
    ensures r.y in {q.y1, q.y2} && r.y + r.h - 1 in {q.y1, q.y2}
  {
    Rect(XMin(q), YMin(q), XMax(q) - XMin(q) + 1, YMax(q) - YMin(q) + 1)
  }

  /** One box of a recognised page: its rectangle, its text and its frame, if assigned. */
  datatype TextBox = TextBox(rect: Rect, text: string, frame: Option<Rect>)

  // ---------------------------------------------------------------------------
  // Intersection (run.py:1586-1598 and QRect.intersected)
  // ---------------------------------------------------------------------------

  /** The length of the overlap of `[lo1, lo1 + len1]` and `[lo2, lo2 + len2]`. */
  function Overlap(lo1: int, len1: nat, lo2: int, len2: nat): nat {
    var d := Min(lo1 + len1, lo2 + len2) - Max(lo1, lo2);
    if d < 0 then 0 else d
  }

  /** `intersection_area` of the merge step. */
  function IntersectionArea(a: Rect, b: Rect): int {
    var xLeft := Max(a.x, b.x);
    var yTop := Max(a.y, b.y);
    var xRight := Min(a.x + a.w, b.x + b.w);
    var yBottom := Min(a.y + a.h, b.y + b.h);
    if xRight < xLeft || yBottom < yTop then 0
    else (xRight - xLeft) * (yBottom - yTop)
  }

  lemma MulMono(a: nat, b: nat, c: nat, d: nat)
    requires a <= c && b <= d
    ensures a * b <= c * d
  {
    assert a * b <= c * b;
    assert c * b <= c * d;
  }

  /**
   * The intersection area is the product of the overlaps on the two axes: it
   * is never negative, it is symmetric and it is at most either area.
   */
  lemma IntersectionAreaProperties(a: Rect, b: Rect)
    ensures IntersectionArea(a, b) == Overlap(a.x, a.w, b.x, b.w) * Overlap(a.y, a.h, b.y, b.h)
    ensures IntersectionArea(a, b) >= 0
    ensures IntersectionArea(a, b) == IntersectionArea(b, a)
    ensures IntersectionArea(a, b) <= Area(a) && IntersectionArea(a, b) <= Area(b)
  {
    var ox := Overlap(a.x, a.w, b.x, b.w);
    var oy := Overlap(a.y, a.h, b.y, b.h);
    assert ox == Overlap(b.x, b.w, a.x, a.w) && oy == Overlap(b.y, b.h, a.y, a.h);
    assert ox <= a.w && ox <= b.w && oy <= a.h && oy <= b.h;
    if ox == 0 || oy == 0 {
      assert IntersectionArea(a, b) == 0;
    }
    MulMono(ox, oy, a.w, a.h);
    MulMono(ox, oy, b.w, b.h);
  }

  /**
   * `QRect.intersected` for rectangles of non-negative size. Qt keeps the
   * inclusive right/bottom edge `x + w - 1`; a rectangle of size 0 x 0 is
   * "null", and an empty intersection is the null rectangle.
   */
  function QIntersected(a: Rect, b: Rect): Rect {
    var l1, r1, t1, b1 := a.x, a.x + a.w - 1, a.y, a.y + a.h - 1;
    var l2, r2, t2, b2 := b.x, b.x + b.w - 1, b.y, b.y + b.h - 1;
    if (a.w == 0 && a.h == 0) || (b.w == 0 && b.h == 0) then Rect(0, 0, 0, 0)
    else if l1 > r2 || l2 > r1 || t1 > b2 || t2 > b1 then Rect(0, 0, 0, 0)
    else Rect(Max(l1, l2), Max(t1, t2), Min(r1, r2) - Max(l1, l2) + 1, Min(b1, b2) - Max(t1, t2) + 1)
  }

  /** The Qt copies of the frame test compute the same area as run.py's formula. */
  lemma QIntersectedArea(a: Rect, b: Rect)
    ensures Area(QIntersected(a, b)) == IntersectionArea(a, b)
  {
    IntersectionAreaProperties(a, b);
    var q := QIntersected(a, b);
    var ox := Overlap(a.x, a.w, b.x, b.w);
    var oy := Overlap(a.y, a.h, b.y, b.h);
    if (a.w == 0 && a.h == 0) || (b.w == 0 && b.h == 0) {
      assert ox == 0 || oy == 0;
    } else if a.x > b.x + b.w - 1 || b.x > a.x + a.w - 1 || a.y > b.y + b.h - 1 || b.y > a.y + a.h - 1 {
      assert ox == 0 || oy == 0;
    } else {
      assert q.w == ox && q.h == oy;
    }
  }

  // ---------------------------------------------------------------------------
  // Gap distance (run.py:1600-1628)
  // ---------------------------------------------------------------------------

  function Sq(d: int): nat { d * d }

  /**
   * The square of `bbox_distance`, branch by branch as run.py computes it:
   * `hypot` of the corner offsets when the boxes are diagonally apart, the
   * straight gap when they are apart on one axis only, 0 otherwise.
   */
  function BBoxDistanceSquared(a: Rect, b: Rect): nat {
    var left := b.x + b.w < a.x;
    var right := a.x + a.w < b.x;
    var above := b.y + b.h < a.y;
    var below := a.y + a.h < b.y;
    if above then
      if left then Sq(a.x - (b.x + b.w)) + Sq(a.y - (b.y + b.h))
      else if right then Sq((a.x + a.w) - b.x) + Sq(a.y - (b.y + b.h))
      else Sq(a.y - (b.y + b.h))
    else if below then
      if left then Sq(a.x - (b.x + b.w)) + Sq((a.y + a.h) - b.y)
      else if right then Sq((a.x + a.w) - b.x) + Sq((a.y + a.h) - b.y)
      else Sq(b.y - (a.y + a.h))
    else
      if left then Sq(a.x - (b.x + b.w))
      else if right then Sq(b.x - (a.x + a.w))
      else 0
  }

  /** The gap between `[lo1, lo1 + len1]` and `[lo2, lo2 + len2]`, 0 when they touch or overlap. */
  function AxisGap(lo1: int, len1: nat, lo2: int, len2: nat): nat {
    if lo2 + len2 < lo1 then lo1 - (lo2 + len2)
    else if lo1 + len1 < lo2 then lo2 - (lo1 + len1)
    else 0
  }

  /** The boxes are strictly apart along x or along y. */
  predicate Separated(a: Rect, b: Rect) {
    b.x + b.w < a.x || a.x + a.w < b.x || b.y + b.h < a.y || a.y + a.h < b.y
  }

  /**
   * `bbox_distance` is the Euclidean length of the per-axis gaps, so it is
   * symmetric, and it is 0 exactly when the boxes are not strictly apart on
   * either axis.
   */
  lemma BBoxDistanceProperties(a: Rect, b: Rect)
    ensures BBoxDistanceSquared(a, b) == Sq(AxisGap(a.x, a.w, b.x, b.w)) + Sq(AxisGap(a.y, a.h, b.y, b.h))
    ensures BBoxDistanceSquared(a, b) == BBoxDistanceSquared(b, a)
    ensures BBoxDistanceSquared(a, b) == 0 <==> !Separated(a, b)
  {
    var gx := AxisGap(a.x, a.w, b.x, b.w);
    var gy := AxisGap(a.y, a.h, b.y, b.h);
    assert gx == AxisGap(b.x, b.w, a.x, a.w) && gy == AxisGap(b.y, b.h, a.y, a.h);
    assert Sq((a.x + a.w) - b.x) == Sq(b.x - (a.x + a.w));
    assert Sq((a.y + a.h) - b.y) == Sq(b.y - (a.y + a.h));
    assert Sq(gx) == 0 <==> gx == 0;
    assert Sq(gy) == 0 <==> gy == 0;
  }

  /** `bbox_distance(a, b) <= gap`, decided on squares since the distance is never negative. */
  predicate WithinGap(a: Rect, b: Rect, gap: int) {
    gap >= 0 && BBoxDistanceSquared(a, b) <= gap * gap
  }

  // ---------------------------------------------------------------------------
  // QRect.center and QRect.contains
  // ---------------------------------------------------------------------------

  /** C++ integer division by 2, which truncates toward zero. */
  function TruncDiv2(n: int): int {
    if n >= 0 then n / 2 else -((-n) / 2)
  }

  /** `QRect.center()`: the midpoint of the inclusive edges `x` and `x + w - 1`. */
  function CenterX(r: Rect): int { TruncDiv2(r.x + (r.x + r.w - 1)) }
  function CenterY(r: Rect): int { TruncDiv2(r.y + (r.y + r.h - 1)) }

  /** `QRect.contains(QPoint(px, py))` for a rectangle of non-negative size. */
  predicate ContainsPoint(r: Rect, px: int, py: int) {
    r.x <= px <= r.x + r.w - 1 && r.y <= py <= r.y + r.h - 1
  }

  lemma TruncDiv2Between(lo: int, hi: int)
    requires lo <= hi
    ensures lo <= TruncDiv2(lo + hi) <= hi
  {
  }

  /** A rectangle that is not empty contains its own centre. */
  lemma ContainsOwnCenter(r: Rect)
    requires r.w > 0 && r.h > 0
    ensures ContainsPoint(r, CenterX(r), CenterY(r))
  {
    TruncDiv2Between(r.x, r.x + r.w - 1);
    TruncDiv2Between(r.y, r.y + r.h - 1);
  }

  // ---------------------------------------------------------------------------
  // Crop clamping (app/core/ocr.py:36-43, app/main.py:810-816, run.py:1672-1678,
  // server/backend/app/services/ocr_pipeline.py:91-96)
  // ---------------------------------------------------------------------------

  predicate InsideImage(r: Rect, wImg: int, hImg: int) {
    0 <= r.x && 0 <= r.y && r.w > 0 && r.h > 0 && r.x + r.w <= wImg && r.y + r.h <= hImg
  }

  /**
   * Clamp `(x, y, w, h)` to a `wImg` x `hImg` image as the OCR loops do:
   * `x = max(0, x)`, `w = min(w, wImg - x)` (and likewise for y), then skip a
   * non-positive size. None is the skip.
   */
  function ClampToImage(x: int, y: int, w: int, h: int, wImg: int, hImg: int): (r: Option<Rect>)
    ensures r.Some? ==> InsideImage(r.value, wImg, hImg)
    ensures r.Some? ==> r.value.x == Max(0, x) && r.value.y == Max(0, y) && r.value.w <= w && r.value.h <= h
    ensures r.Some? ==> r.value.w == Min(w, wImg - Max(0, x)) && r.value.h == Min(h, hImg - Max(0, y))
    ensures r.None? <==> (w <= 0 || h <= 0 || Max(0, x) >= wImg || Max(0, y) >= hImg)
    ensures 0 <= x && 0 <= y && 0 < w && 0 < h && x + w <= wImg && y + h <= hImg ==> r == Some(Rect(x, y, w, h))
  {
    var cx := Max(0, x);
    var cy := Max(0, y);
    var cw := Min(w, wImg - cx);
    var ch := Min(h, hImg - cy);
    if cw <= 0 || ch <= 0 then None else Some(Rect(cx, cy, cw, ch))
  }
}
