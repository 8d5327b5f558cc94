/** Axis-aligned rectangles of part/src/math/geometry/Rect.ts.  No method of
    the source changes a rectangle, so a rectangle is a value. */
module Rects {
  import opened Vectors

  /** A rectangle with corner (x, y), width w and height h. */
  datatype Rect = Rect(x: real, y: real, w: real, h: real)
  {
    function X1(): real { x + w }

    function Y1(): real { y + h }

    function X1Y1(): Vec { Vec(X1(), Y1()) }

    function P(): Vec { Vec(x, y) }

    function Center(): Vec { Vec(x + w / 2.0, y + h / 2.0) }

    /** Closed on all four edges. */
    predicate Contains(q: Vec) {
      q.x >= x && q.x <= X1() && q.y >= y && q.y <= Y1()
    }

    /** The open interior, used to characterise `Intersects`. */
    predicate ContainsStrictly(q: Vec) {
      x < q.x < X1() && y < q.y < Y1()
    }
  }

  function Square(x: real, y: real, size: real): (r: Rect)
    ensures r.w == r.h == size && r.P() == Vec(x, y)
  {
    Rect(x, y, size, size)
  }

  /** The rectangle spanned from corner p0 to corner p1. */
  function FromV2(p0: Vec, p1: Vec): (r: Rect)
    ensures r.P() == p0 && r.X1Y1() == p1
  {
    Rect(p0.x, p0.y, p1.x - p0.x, p1.y - p0.y)
  }

  /** The static `Rect.intersects`: rectangles that only touch along an edge
      or at a corner do not intersect. */
  predicate Intersects(r1: Rect, r2: Rect) {
    var noOverlap :=
      r1.x + r1.w <= r2.x ||
      r1.x >= r2.x + r2.w ||
      r1.y + r1.h <= r2.y ||
      r1.y >= r2.y + r2.h;
    !noOverlap
  }

  /** The semantics the repository's rectangle tests expect of an instance
      `intersects`: touching edges and corners count. */
  predicate IntersectsClosed(r1: Rect, r2: Rect) {
    !(r1.X1() < r2.x || r1.x > r2.X1() || r1.Y1() < r2.y || r1.y > r2.Y1())
  }

  lemma CenterIsMidpoint(r: Rect)
    ensures r.Center() == Scale(Add(r.P(), r.X1Y1()), 0.5)
  {
  }

  /** With non-negative size a rectangle contains both of its corners and its
      centre. */
  lemma ContainsCorners(r: Rect)
    requires r.w >= 0.0 && r.h >= 0.0
    ensures r.Contains(r.P()) && r.Contains(r.X1Y1()) && r.Contains(r.Center())
  {
  }

  /** Every point on the boundary is contained. */
  lemma ContainsBoundary(r: Rect, t: real)
    requires r.w >= 0.0 && r.h >= 0.0
    requires r.x <= t <= r.X1()
    ensures r.Contains(Vec(t, r.y)) && r.Contains(Vec(t, r.Y1()))
    ensures r.Contains(Vec(r.x, r.Y1())) && r.Contains(Vec(r.X1(), r.y))
  {
  }

  lemma FromV2Corners(r: Rect)
    ensures FromV2(r.P(), r.X1Y1()) == r
  {
  }

  lemma IntersectsSymmetric(r1: Rect, r2: Rect)
    ensures Intersects(r1, r2) == Intersects(r2, r1)
  {
  }

  /** For rectangles of positive size, `Intersects` holds exactly when some
      point lies strictly inside both. */
  lemma IntersectsIffSharedInterior(r1: Rect, r2: Rect)
    requires r1.w > 0.0 && r1.h > 0.0 && r2.w > 0.0 && r2.h > 0.0
    ensures Intersects(r1, r2) <==> exists q :: r1.ContainsStrictly(q) && r2.ContainsStrictly(q)
  {
    if Intersects(r1, r2) {
      var lox := if r1.x < r2.x then r2.x else r1.x;
      var hix := if r1.X1() < r2.X1() then r1.X1() else r2.X1();
      var loy := if r1.y < r2.y then r2.y else r1.y;
      var hiy := if r1.Y1() < r2.Y1() then r1.Y1() else r2.Y1();
      var q := Vec((lox + hix) / 2.0, (loy + hiy) / 2.0);
      assert r1.ContainsStrictly(q) && r2.ContainsStrictly(q);
    }
  }

  /** Whatever `Intersects` accepts, the touching-counts semantics accepts. */
  lemma IntersectsImpliesClosed(r1: Rect, r2: Rect)
    requires r1.w >= 0.0 && r1.h >= 0.0 && r2.w >= 0.0 && r2.h >= 0.0
    ensures Intersects(r1, r2) ==> IntersectsClosed(r1, r2)
  {
  }

  /** Two rectangles that share only an edge (the "touching right edge" test
      case) are not intersecting for the static `intersects`, although the
      tests expect them to be. */
  lemma TouchingEdgeDoesNotIntersect()
    ensures !Intersects(Rect(10.0, 10.0, 50.0, 50.0), Rect(60.0, 10.0, 50.0, 50.0))
    ensures IntersectsClosed(Rect(10.0, 10.0, 50.0, 50.0), Rect(60.0, 10.0, 50.0, 50.0))
  {
  }

  /** In general, rectangles that touch along a vertical edge never intersect. */
  lemma TouchingNeverIntersects(r1: Rect, r2: Rect)
    requires r1.X1() == r2.x
    ensures !Intersects(r1, r2) && !Intersects(r2, r1)
  {
  }
}
