/** Rays of part/src/math/geometry/Ray.ts: an origin `p` and a direction `v`
    that need not have unit length.  The hit tests divide by the components
    of `v`, so their intermediate values are JavaScript numbers (`Num`). */
module Rays {
  import opened Wrappers
  import opened JsNumbers
  import opened Rects
  import V = Vectors

  function Max(a: real, b: real): real { if a < b then b else a }

  function Min(a: real, b: real): real { if a < b then a else b }

  /** The parameters t at which one coordinate `o + d * t` of a ray lies in
      the closed slab [lo, hi]: none, all, or a closed interval. */
  datatype Times = Never | Always | Between(lo: real, hi: real)
  {
    predicate Includes(t: real) {
      match this
      case Never => false
      case Always => true
      case Between(lo, hi) => lo <= t <= hi
    }
  }

  function AxisTimes(o: real, d: real, lo: real, hi: real): Times {
    if d == 0.0 then (if lo <= o <= hi then Always else Never)
    else if d > 0.0 then Between((lo - o) / d, (hi - o) / d)
    else Between((hi - o) / d, (lo - o) / d)
  }

  /** Some t >= 0 lies in both sets. */
  predicate ForwardOverlap(a: Times, b: Times) {
    match (a, b)
    case (Never, _) => false
    case (_, Never) => false
    case (Always, Always) => true
    case (Always, Between(lo, hi)) => Max(0.0, lo) <= hi
    case (Between(lo, hi), Always) => Max(0.0, lo) <= hi
    case (Between(l1, h1), Between(l2, h2)) => Max(0.0, Max(l1, l2)) <= Min(h1, h2)
  }

  class Ray2 {
    var p: V.Vec
    var v: V.Vec

    constructor (p: V.Vec, v: V.Vec)
      ensures this.p == p && this.v == v
    {
      this.p := p;
      this.v := v;
    }

    /** A new ray with the same origin and direction. */
    static method From(other: Ray2) returns (r: Ray2)
      ensures fresh(r) && r.p == other.p && r.v == other.v
    {
      r := new Ray2(other.p, other.v);
    }

    /** The ray from p0 through p1, reaching p1 at t = 1. */
    static method FromPoints(p0: V.Vec, p1: V.Vec) returns (r: Ray2)
      ensures fresh(r) && r.p == p0 && r.v == V.Sub(p1, p0)
      ensures r.GetPoint(0.0) == p0 && r.GetPoint(1.0) == p1
    {
      r := new Ray2(p0, V.Sub(p1, p0));
    }

    /** Scales the direction to unit length; a zero direction stays zero. */
    method Normalize(sqrt: real -> real) returns (r: Ray2)
      requires V.IsSqrt(sqrt)
      modifies this
      ensures r == this && p == old(p) && v == V.Normalize(old(v), sqrt)
      ensures old(v) != V.Zero ==> V.LenSq(v) == 1.0
      ensures old(v) == V.Zero ==> v == V.Zero
    {
      var before := v;
      V.NormalizeUnit(before, sqrt);
      v := V.Normalize(before, sqrt);
      r := this;
    }

    /** The point p + t * v. */
    function GetPoint(t: real): V.Vec
      reads this
    {
      V.Vec(p.x + v.x * t, p.y + v.y * t)
    }

    /** The t >= 0 at which the ray reaches `point`, or None.  A ray with a
        zero direction reaches nothing, not even its own origin. */
    function IntersectsPoint(point: V.Vec): (r: Option<Num>)
      reads this
      ensures v == V.Zero ==> r == None
      ensures r.Some? ==> Ge0(r.value)
    {
      var q := V.Sub(point, p);
      if v.x == 0.0 && v.y == 0.0 then None
      else
        var tx := Div(q.x, v.x);
        var ty := Div(q.y, v.y);
        if SortaEqual(v.x, 0.0) && Ge0(ty) then Some(ty)
        else if SortaEqual(v.y, 0.0) && Ge0(tx) then Some(tx)
        else if Lt0(tx) || Lt0(ty) then None
        else if SortaEqualNum(tx, ty) then Some(tx)
        else None
    }

    predicate DoesIntersectPoint(point: V.Vec)
      reads this
    {
      IntersectsPoint(point).Some?
    }

    /** The rectangle test as written.  A ray with a zero direction never
        hits; a ray whose origin lies in the rectangle always does. */
    function IntersectsRect(rect: Rect): (b: bool)
      reads this
      ensures v == V.Zero ==> !b
      ensures v != V.Zero && rect.Contains(p) ==> b
    {
      if v.x == 0.0 && v.y == 0.0 then false
      else if rect.Contains(p) then true
      else
        var local := Rect(rect.x - p.x, rect.y - p.y, rect.w, rect.h);
        var txa := Div(local.x, v.x);
        var txb := Div(local.X1(), v.x);
        var tyc := Div(local.y, v.y);
        var tyd := Div(local.Y1(), v.y);
        if SortaEqual(v.y, 0.0) then
          if v.x > 0.0 then Ge0(txa) && Le(txa, txb) else Ge0(txb) && Le(txb, txa)
        else if SortaEqual(v.x, 0.0) then
          if v.y > 0.0 then Ge0(tyc) && Le(tyc, tyd) else Ge0(tyd) && Le(tyd, tyc)
        else
          var first := if v.x > 0.0 then txa else txb;
          var second := if v.x > 0.0 then txb else txa;
          if Lt0(first) || Lt0(second) || Lt0(tyc) || Lt0(tyd) then false
          else (Le(first, tyc) && Le(tyc, second)) || (Le(first, tyd) && Le(tyd, second))
    }

    /** The slab test the rectangle test is meant to be: intersect the
        parameter sets of the two slabs with t >= 0. */
    predicate IntersectsRectSlab(rect: Rect)
      reads this
    {
      v != V.Zero &&
      ForwardOverlap(AxisTimes(p.x, v.x, rect.x, rect.X1()), AxisTimes(p.y, v.y, rect.y, rect.Y1()))
    }
  }

  /** For t >= 0, the point the ray reaches at t is found at exactly t. */
  lemma GetPointAccepted(r: Ray2, t: real)
    requires r.v != V.Zero && t >= 0.0
    ensures r.IntersectsPoint(r.GetPoint(t)) == Some(Fin(t))
  {
    var v := r.v;
    var q := V.Sub(r.GetPoint(t), r.p);
    assert q == V.Vec(v.x * t, v.y * t);
    if v.x != 0.0 {
      assert Div(q.x, v.x) == Fin(t);
    }
    if v.y != 0.0 {
      assert Div(q.y, v.y) == Fin(t);
    }
    SortaEqualReflexive(t, DefaultEpsilon);
  }

  /** A ray whose direction is (nearly) vertical answers from the vertical
      offset alone: the horizontal offset of the point is ignored. */
  lemma NearVerticalUsesOnlyY(r: Ray2, q: V.Vec)
    requires SortaEqual(r.v.x, 0.0) && !SortaEqual(r.v.y, 0.0)
    ensures r.IntersectsPoint(q) ==
              (var ty := (q.y - r.p.y) / r.v.y; if ty >= 0.0 then Some(Fin(ty)) else None)
    ensures r.IntersectsPoint(q) == r.IntersectsPoint(V.Vec(r.p.x, q.y))
  {
    assert r.v.y != 0.0;
  }

  /** Which t put one coordinate into its slab. */
  lemma AxisTimesExact(o: real, d: real, lo: real, hi: real, t: real)
    ensures AxisTimes(o, d, lo, hi).Includes(t) <==> lo <= o + d * t <= hi
  {
    if d > 0.0 {
      QuotientBound(lo - o, d, t);
      QuotientBound(hi - o, d, t);
    } else if d < 0.0 {
      NegativeQuotientBound(hi - o, d, t);
      NegativeQuotientBound(lo - o, d, t);
    }
  }

  /** QuotientBound for negative d: dividing turns the comparison round. */
  lemma NegativeQuotientBound(a: real, d: real, t: real)
    requires d < 0.0
    ensures a / d <= t <==> d * t <= a
    ensures t <= a / d <==> a <= d * t
  {
    var e := -d;
    QuotientBound(-a, e, t);
    assert a / d == -a / e;
    assert e * t == -(d * t);
  }

  /** a / d <= t and t <= a / d, for positive d, compared without division. */
  lemma QuotientBound(a: real, d: real, t: real)
    requires d > 0.0
    ensures a / d <= t <==> a <= d * t
    ensures t <= a / d <==> d * t <= a
  {
    var c := a / d;
    assert c * d == a;
    ProductSign(t - c, d);
    assert (t - c) * d == d * t - a;
  }

  lemma ProductSign(a: real, d: real)
    requires d > 0.0
    ensures 0.0 <= a * d <==> 0.0 <= a
  {
    if a < 0.0 {
      V.ProductPositive(-a, d, -a * d);
    } else if a > 0.0 {
      V.ProductPositive(a, d, a * d);
    }
  }

  /** `ForwardOverlap` holds exactly when a common non-negative t exists. */
  lemma ForwardOverlapWitness(a: Times, b: Times)
    ensures ForwardOverlap(a, b) <==> exists t :: t >= 0.0 && a.Includes(t) && b.Includes(t)
  {
    if ForwardOverlap(a, b) {
      var t := match (a, b)
        case (Between(lo, _), Always) => Max(0.0, lo)
        case (Always, Between(lo, _)) => Max(0.0, lo)
        case (Between(l1, _), Between(l2, _)) => Max(0.0, Max(l1, l2))
        case _ => 0.0;
      assert t >= 0.0 && a.Includes(t) && b.Includes(t);
    }
  }

  /** The corrected rectangle test accepts a ray exactly when it has a
      direction and some point p + t * v with t >= 0 lies in the (closed)
      rectangle. */
  lemma IntersectsRectSlabExact(r: Ray2, rect: Rect)
    ensures r.IntersectsRectSlab(rect) <==>
              r.v != V.Zero && exists t :: t >= 0.0 && rect.Contains(r.GetPoint(t))
  {
    SlabExact(r.p, r.v, rect);
    forall t
      ensures r.GetPoint(t) == PointAt(r.p, r.v, t)
    {
    }
    if r.v != V.Zero && exists t :: t >= 0.0 && rect.Contains(r.GetPoint(t)) {
      var t :| t >= 0.0 && rect.Contains(r.GetPoint(t));
      assert rect.Contains(PointAt(r.p, r.v, t));
    }
  }

  /** The point o + t * d. */
  function PointAt(o: V.Vec, d: V.Vec, t: real): V.Vec {
    V.Vec(o.x + d.x * t, o.y + d.y * t)
  }

  /** The slab test on values: the two coordinates' times overlap at some
      t >= 0 exactly when some o + t * d with t >= 0 lies in the rectangle. */
  lemma SlabExact(o: V.Vec, d: V.Vec, rect: Rect)
    ensures ForwardOverlap(AxisTimes(o.x, d.x, rect.x, rect.X1()), AxisTimes(o.y, d.y, rect.y, rect.Y1())) <==>
            exists t :: t >= 0.0 && rect.Contains(PointAt(o, d, t))
  {
    var tx := AxisTimes(o.x, d.x, rect.x, rect.X1());
    var ty := AxisTimes(o.y, d.y, rect.y, rect.Y1());
    ForwardOverlapWitness(tx, ty);
    if ForwardOverlap(tx, ty) {
      var t :| t >= 0.0 && tx.Includes(t) && ty.Includes(t);
      ContainsAt(o, d, rect, t);
    }
    if exists t :: t >= 0.0 && rect.Contains(PointAt(o, d, t)) {
      var t :| t >= 0.0 && rect.Contains(PointAt(o, d, t));
      ContainsAt(o, d, rect, t);
    }
  }

  /** o + t * d lies in the rectangle exactly when t is in both slabs' times. */
  lemma ContainsAt(o: V.Vec, d: V.Vec, rect: Rect, t: real)
    ensures rect.Contains(PointAt(o, d, t)) <==>
            AxisTimes(o.x, d.x, rect.x, rect.X1()).Includes(t) && AxisTimes(o.y, d.y, rect.y, rect.Y1()).Includes(t)
  {
    AxisTimesExact(o.x, d.x, rect.x, rect.X1(), t);
    AxisTimesExact(o.y, d.y, rect.y, rect.Y1(), t);
    BothCoordinates(o, d, rect, t);
  }

  lemma BothCoordinates(o: V.Vec, d: V.Vec, rect: Rect, t: real)
    ensures rect.Contains(PointAt(o, d, t)) <==>
            (rect.x <= o.x + d.x * t <= rect.X1()) && (rect.y <= o.y + d.y * t <= rect.Y1())
  {
  }

  /** In the general case (neither component near zero) the test as written
      accepts only rays that do reach the rectangle: the crossing of the
      rectangle's lower or upper edge it finds is a point of the rectangle. */
  lemma GeneralCaseSound(r: Ray2, rect: Rect)
    requires !SortaEqual(r.v.x, 0.0) && !SortaEqual(r.v.y, 0.0) && rect.h >= 0.0
    requires r.IntersectsRect(rect)
    ensures exists t :: t >= 0.0 && rect.Contains(r.GetPoint(t))
  {
    if rect.Contains(r.p) {
      assert r.GetPoint(0.0) == r.p;
    } else {
      var c := (rect.y - r.p.y) / r.v.y;
      var d := (rect.Y1() - r.p.y) / r.v.y;
      GeneralCaseCrossing(r, rect);
      if c >= 0.0 && AxisTimes(r.p.x, r.v.x, rect.x, rect.X1()).Includes(c) {
        PointOnEdge(r, rect, c, rect.y);
      } else {
        PointOnEdge(r, rect, d, rect.Y1());
      }
    }
  }

  /** The point at which the ray crosses the line of a horizontal edge lies
      in the rectangle when that time is in the x-slab's times. */
  lemma PointOnEdge(r: Ray2, rect: Rect, t: real, line: real)
    requires r.v.y != 0.0 && t == (line - r.p.y) / r.v.y
    requires rect.y <= line <= rect.Y1()
    requires AxisTimes(r.p.x, r.v.x, rect.x, rect.X1()).Includes(t)
    ensures rect.Contains(r.GetPoint(t))
  {
    AxisTimesExact(r.p.x, r.v.x, rect.x, rect.X1(), t);
    ReachesLine(r.p.y, r.v.y, line);
  }

  /** The general branch as written accepts a ray only at a crossing time of
      the lower or upper edge's line that lies within the x-slab's times. */
  lemma GeneralCaseCrossing(r: Ray2, rect: Rect)
    requires !SortaEqual(r.v.x, 0.0) && !SortaEqual(r.v.y, 0.0)
    requires !rect.Contains(r.p) && r.IntersectsRect(rect)
    ensures var tx := AxisTimes(r.p.x, r.v.x, rect.x, rect.X1());
            var c := (rect.y - r.p.y) / r.v.y;
            var d := (rect.Y1() - r.p.y) / r.v.y;
            (c >= 0.0 && tx.Includes(c)) || (d >= 0.0 && tx.Includes(d))
  {
    assert r.v.x != 0.0 && r.v.y != 0.0;
    assert rect.x - r.p.x + rect.w == rect.X1() - r.p.x;
    assert rect.y - r.p.y + rect.h == rect.Y1() - r.p.y;
  }

  /** The coordinate reaches `line` at the time `(line - o) / d`. */
  lemma ReachesLine(o: real, d: real, line: real)
    requires d != 0.0
    ensures o + d * ((line - o) / d) == line
  {
  }

  /** A horizontal ray above a rectangle is accepted by the test as written,
      because the horizontal branch compares x-slab times only. */
  lemma HorizontalRayAboveAccepted(r: Ray2)
    requires r.p == V.Vec(0.0, 45.0) && r.v == V.Vec(1.0, 0.0)
    ensures r.IntersectsRect(Rect(10.0, 10.0, 20.0, 30.0))
    ensures !r.IntersectsRectSlab(Rect(10.0, 10.0, 20.0, 30.0))
    ensures forall t :: t >= 0.0 ==> !Rect(10.0, 10.0, 20.0, 30.0).Contains(r.GetPoint(t))
  {
    IntersectsRectSlabExact(r, Rect(10.0, 10.0, 20.0, 30.0));
  }

  /** A slightly tilted ray through the middle of a rectangle is rejected by
      the test as written, because its time to the lower edge's line is
      negative; its point at t = 10 lies in the rectangle. */
  lemma TiltedRayThroughMiddleRejected(r: Ray2)
    requires r.p == V.Vec(0.0, 25.0) && r.v == V.Vec(1.0, 0.1)
    ensures !r.IntersectsRect(Rect(10.0, 10.0, 20.0, 30.0))
    ensures r.IntersectsRectSlab(Rect(10.0, 10.0, 20.0, 30.0))
    ensures Rect(10.0, 10.0, 20.0, 30.0).Contains(r.GetPoint(10.0))
  {
    IntersectsRectSlabExact(r, Rect(10.0, 10.0, 20.0, 30.0));
  }
}
