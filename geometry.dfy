/** The axis-aligned bounding-box test every collision in the game goes through. */
module Geometry {

  datatype Rect = Rect(x: real, y: real, width: real, height: real)

  /** `checkCollision`: strict overlap on both axes. */
  predicate Overlaps(a: Rect, b: Rect) {
    a.x < b.x + b.width &&
    a.x + a.width > b.x &&
    a.y < b.y + b.height &&
    a.y + a.height > b.y
  }

  /** The point lies in the open interior of the rectangle. */
  predicate StrictlyInside(px: real, py: real, r: Rect) {
    r.x < px < r.x + r.width && r.y < py < r.y + r.height
  }

  function Max(a: real, b: real): real { if a < b then b else a }
  function Min(a: real, b: real): real { if a < b then a else b }

  /** The centre of the intersection of two rectangles (meaningful when they overlap). */
  function OverlapCentre(a: Rect, b: Rect): (c: (real, real))
  {
    ((Max(a.x, b.x) + Min(a.x + a.width, b.x + b.width)) / 2.0,
     (Max(a.y, b.y) + Min(a.y + a.height, b.y + b.height)) / 2.0)
  }

  lemma OverlapsSymmetric(a: Rect, b: Rect)
    ensures Overlaps(a, b) <==> Overlaps(b, a)
  {
  }

  /** Rectangles of positive size overlap exactly when some point lies strictly
      inside both of them: this direction exhibits the point. */
  lemma OverlapHasCommonPoint(a: Rect, b: Rect)
    requires a.width > 0.0 && a.height > 0.0 && b.width > 0.0 && b.height > 0.0
    requires Overlaps(a, b)
    ensures StrictlyInside(OverlapCentre(a, b).0, OverlapCentre(a, b).1, a)
    ensures StrictlyInside(OverlapCentre(a, b).0, OverlapCentre(a, b).1, b)
  {
    var lo, hi := Max(a.x, b.x), Min(a.x + a.width, b.x + b.width);
    assert lo < hi;
    var lo', hi' := Max(a.y, b.y), Min(a.y + a.height, b.y + b.height);
    assert lo' < hi';
  }

  /** ... and this direction: a common interior point forces an overlap. */
  lemma CommonPointOverlaps(a: Rect, b: Rect, px: real, py: real)
    requires StrictlyInside(px, py, a) && StrictlyInside(px, py, b)
    ensures Overlaps(a, b)
  {
  }

  /** An overlap needs positive combined extent on each axis, so two rectangles of
      zero width (or two of zero height) never overlap. */
  lemma OverlapNeedsExtent(a: Rect, b: Rect)
    requires Overlaps(a, b)
    ensures a.width + b.width > 0.0 && a.height + b.height > 0.0
  {
  }

  /** The strict test does not exclude a zero-size rectangle: a point strictly inside a
      box overlaps it. */
  lemma PointInsideBoxOverlaps()
    ensures Overlaps(Rect(5.0, 5.0, 0.0, 0.0), Rect(0.0, 0.0, 10.0, 10.0))
  {
  }

  /** Touching edges do not count as an overlap. */
  lemma TouchingEdgesDoNotOverlap(a: Rect, b: Rect)
    requires b.x == a.x + a.width
    ensures !Overlaps(a, b)
  {
  }
}
