/** The perspective projection of part/src/gfx-demos/square-shooter/DrawRects.ts:
    a rectangle at depth z below a camera at height cameraHeight is drawn
    shrunk towards the vanishing point. */
module Perspective {
  import opened Vectors
  import opened Rects

  /** How much a rectangle at depth z shrinks. */
  function ScaleAt(cameraHeight: real, z: real): real
    requires cameraHeight + z != 0.0
  {
    cameraHeight / (cameraHeight + z)
  }

  /** The point q pulled towards the vanishing point by the factor s. */
  function TowardVp(q: Vec, vpCenter: Vec, s: real): Vec {
    Add(vpCenter, Scale(Sub(q, vpCenter), s))
  }

  /** projectRect: the corner moves towards the vanishing point and both
      sizes shrink by the same factor; the input rectangle is a value and is
      not changed. */
  function ProjectRect(originalRect: Rect, rectZ: real, cameraHeight: real, vpCenter: Vec): (r: Rect)
    requires cameraHeight + rectZ != 0.0
    ensures var s := ScaleAt(cameraHeight, rectZ);
            r.P() == TowardVp(originalRect.P(), vpCenter, s) &&
            r.w == originalRect.w * s && r.h == originalRect.h * s
  {
    var x0 := originalRect.x;
    var y0 := originalRect.y;
    var w := originalRect.w;
    var h := originalRect.h;
    var focalDistance := cameraHeight;
    var objectDistance := rectZ;
    var scale := focalDistance / (focalDistance + objectDistance);
    var xt := vpCenter.x + (x0 - vpCenter.x) * scale;
    var yt := vpCenter.y + (y0 - vpCenter.y) * scale;
    var wt := w * scale;
    var ht := h * scale;
    Rect(xt, yt, wt, ht)
  }

  /** At depth 0 the rectangle is drawn as it is. */
  lemma ProjectAtDepthZero(r: Rect, cameraHeight: real, vpCenter: Vec)
    requires cameraHeight != 0.0
    ensures ProjectRect(r, 0.0, cameraHeight, vpCenter) == r
  {
    assert ScaleAt(cameraHeight, 0.0) == 1.0;
  }

  /** A corner on the vanishing point stays there, whatever the depth. */
  lemma VanishingPointFixed(r: Rect, rectZ: real, cameraHeight: real)
    requires cameraHeight + rectZ != 0.0
    ensures ProjectRect(r, rectZ, cameraHeight, r.P()).P() == r.P()
  {
  }

  /** The whole rectangle is pulled towards the vanishing point: its far
      corner and its centre move exactly as the near corner does. */
  lemma ProjectIsHomothety(r: Rect, rectZ: real, cameraHeight: real, vpCenter: Vec)
    requires cameraHeight + rectZ != 0.0
    ensures var s := ScaleAt(cameraHeight, rectZ);
            var p := ProjectRect(r, rectZ, cameraHeight, vpCenter);
            p.X1Y1() == TowardVp(r.X1Y1(), vpCenter, s) &&
            p.Center() == TowardVp(r.Center(), vpCenter, s)
  {
    var s := ScaleAt(cameraHeight, rectZ);
    Distributes(r.x, r.w, vpCenter.x, s);
    Distributes(r.y, r.h, vpCenter.y, s);
    Distributes(r.x, r.w / 2.0, vpCenter.x, s);
    Distributes(r.y, r.h / 2.0, vpCenter.y, s);
    assert (r.w / 2.0) * s == (r.w * s) / 2.0;
    assert (r.h / 2.0) * s == (r.h * s) / 2.0;
  }

  lemma Distributes(x: real, w: real, c: real, s: real)
    ensures c + (x + w - c) * s == (c + (x - c) * s) + w * s
  {
  }

  /** With a positive factor a point lies in the rectangle exactly when its
      projection lies in the projected rectangle. */
  lemma ProjectPreservesContainment(r: Rect, rectZ: real, cameraHeight: real, vpCenter: Vec, q: Vec)
    requires cameraHeight + rectZ != 0.0 && ScaleAt(cameraHeight, rectZ) > 0.0
    ensures r.Contains(q) <==>
            ProjectRect(r, rectZ, cameraHeight, vpCenter).Contains(TowardVp(q, vpCenter, ScaleAt(cameraHeight, rectZ)))
  {
    var s := ScaleAt(cameraHeight, rectZ);
    var p, t := ProjectRect(r, rectZ, cameraHeight, vpCenter), TowardVp(q, vpCenter, s);
    assert p.x == vpCenter.x + (r.x - vpCenter.x) * s && p.y == vpCenter.y + (r.y - vpCenter.y) * s;
    assert t.x == vpCenter.x + (q.x - vpCenter.x) * s && t.y == vpCenter.y + (q.y - vpCenter.y) * s;
    AxisPreserved(r.x, r.w, q.x, vpCenter.x, s, p.x, p.w, t.x);
    AxisPreserved(r.y, r.h, q.y, vpCenter.y, s, p.y, p.h, t.y);
  }

  /** One axis of ProjectPreservesContainment: q lies in [lo, lo + len]
      exactly when its image t lies in the image [plo, plo + plen]. */
  lemma AxisPreserved(lo: real, len: real, q: real, c: real, s: real, plo: real, plen: real, t: real)
    requires s > 0.0 && plo == c + (lo - c) * s && plen == len * s && t == c + (q - c) * s
    ensures lo <= q <= lo + len <==> plo <= t <= plo + plen
  {
    OrderPreserved(lo, q, c, s);
    OrderPreserved(q, lo + len, c, s);
    Distributes(lo, len, c, s);
  }

  /** Pulling towards a centre by a positive factor keeps the order of two
      coordinates. */
  lemma OrderPreserved(a: real, b: real, c: real, s: real)
    requires s > 0.0
    ensures a <= b <==> c + (a - c) * s <= c + (b - c) * s
  {
    assert (b - c) * s - (a - c) * s == (b - a) * s;
    if a < b {
      ProductPositive(b - a, s, (b - a) * s);
    } else if b < a {
      ProductPositive(a - b, s, (a - b) * s);
    }
  }

  /** With the camera at height 1, a unit rectangle at the origin at depth 1
      is drawn at half its size, in place. */
  lemma UnitDepthHalves()
    ensures ProjectRect(Rect(0.0, 0.0, 1.0, 1.0), 1.0, 1.0, Vec(0.0, 0.0)) == Rect(0.0, 0.0, 0.5, 0.5)
  {
  }
}

/** The background rectangle of part/src/gfx-demos/square-shooter/BgRect.ts:
    a rectangle drawn at a depth, moving with a velocity and ageing. */
module BgRects {
  import opened Wrappers
  import opened Vectors
  import opened Rects
  import Physics
  import Colors
  import opened Vec2Objects

  /** A ScalarAnimation: a value for each age in milliseconds. */
  datatype Animation = Animation(getValue: real -> real)

  class BgRect {
    /** The source's readonly `r`, whose corner the centre setter moves. */
    var r: Rect
    var color: Colors.Color
    var z: real
    var v: Vec2
    var ageMs: real
    var rotateAnimation: Option<Animation>

    /** A rectangle of size xsize by ysize centred on `center`. */
    constructor(center: Vec, xsize: real, ysize: real, color: Colors.Color, z: real, v: Vec2,
                ageMs: real, rotateAnimation: Option<Animation>)
      ensures Center() == center && XSize() == xsize && YSize() == ysize
      ensures r == Rect(center.x - xsize / 2.0, center.y - ysize / 2.0, xsize, ysize)
      ensures this.color == color && this.z == z && this.v == v
      ensures this.ageMs == ageMs && this.rotateAnimation == rotateAnimation
    {
      r := Rect(center.x - xsize / 2.0, center.y - ysize / 2.0, xsize, ysize);
      this.color := color;
      this.z := z;
      this.v := v;
      this.ageMs := ageMs;
      this.rotateAnimation := rotateAnimation;
    }

    /** The centre of the rectangle. */
    function Center(): Vec
      reads this`r
    {
      Vec(r.x + r.w / 2.0, r.y + r.h / 2.0)
    }

    /** The corner of the rectangle. */
    function P(): Vec
      reads this`r
    {
      Vec(r.x, r.y)
    }

    function XSize(): real
      reads this`r
    {
      r.w
    }

    function YSize(): real
      reads this`r
    {
      r.h
    }

    /** The centre setter: moves the rectangle, keeping its size. */
    method SetCenter(newCenter: Vec)
      modifies this`r
      ensures Center() == newCenter && XSize() == old(XSize()) && YSize() == old(YSize())
      ensures r == Rect(newCenter.x - old(r.w) / 2.0, newCenter.y - old(r.h) / 2.0, old(r.w), old(r.h))
    {
      r := r.(x := newCenter.x - r.w / 2.0, y := newCenter.y - r.h / 2.0);
    }

    /** The rotation getter: the animation's value at the current age, or 0
        without an animation. */
    function Rotation(): (rot: real)
      reads this`rotateAnimation, this`ageMs
      ensures rotateAnimation.None? ==> rot == 0.0
      ensures rotateAnimation.Some? ==> rot == rotateAnimation.value.getValue(ageMs)
    {
      match rotateAnimation
      case None => 0.0
      case Some(animation) => animation.getValue(ageMs)
    }

    /** update: moves the centre by v for `deltaMs` milliseconds and ages
        the rectangle; the size, depth and velocity are unchanged. */
    method Update(deltaMs: real)
      modifies this`r, this`ageMs
      ensures Center() == Physics.Advance(old(Center()), v.Value(), deltaMs)
      ensures XSize() == old(XSize()) && YSize() == old(YSize())
      ensures ageMs == old(ageMs) + deltaMs
    {
      var deltaPos := v.Copy();
      deltaPos := deltaPos.Scale(deltaMs / 1000.0);
      SetCenter(Add(Center(), deltaPos.Value()));
      ageMs := ageMs + deltaMs;
    }

    /** The instance copy. */
    method Copy() returns (c: BgRect)
      ensures fresh(c) && fresh(c.v) && SameFields(this, c)
    {
      c := CopyOf(this);
    }
  }

  /** Two background rectangles agree on everything but the identity of
      their velocity objects. */
  ghost predicate SameFields(a: BgRect, b: BgRect)
    reads a, b, a.v, b.v
  {
    a.r == b.r && a.color == b.color && a.z == b.z && a.v.Value() == b.v.Value() &&
    a.ageMs == b.ageMs && a.rotateAnimation == b.rotateAnimation
  }

  /** The static copy: equal fields, the same colour object, and a velocity
      of its own, so moving the copy does not move the original. */
  method CopyOf(gr: BgRect) returns (c: BgRect)
    ensures fresh(c) && fresh(c.v) && c.v != gr.v && SameFields(gr, c)
  {
    var center := gr.Center();
    var v := gr.v.Copy();
    c := new BgRect(Vec(center.x, center.y), gr.XSize(), gr.YSize(), gr.color, gr.z, v,
                    gr.ageMs, gr.rotateAnimation);
  }

  /** The static `from`: the constructor with named arguments and no
      rotation; the velocity object is shared with the caller. */
  method From(center: Vec, xsize: real, ysize: real, color: Colors.Color, z: real, v: Vec2)
    returns (c: BgRect)
    ensures fresh(c) && c.Center() == center && c.XSize() == xsize && c.YSize() == ysize
    ensures c.color == color && c.z == z && c.v == v && c.ageMs == 0.0 && c.rotateAnimation.None?
  {
    c := new BgRect(center, xsize, ysize, color, z, v, 0.0, None);
  }

  /** fromRect: a background rectangle occupying exactly `r`. */
  method FromRect(r: Rect, color: Colors.Color, z: real, v: Vec2, ageMs: real) returns (c: BgRect)
    ensures fresh(c) && c.r == r && ToRectDeprecated(c) == r
    ensures c.color == color && c.z == z && c.v == v && c.ageMs == ageMs && c.rotateAnimation.None?
  {
    c := new BgRect(Vec(r.x + r.w / 2.0, r.y + r.h / 2.0), r.w, r.h, color, z, v, ageMs, None);
  }

  /** toRect_deprecated: the rectangle rebuilt from the centre and sizes,
      which is the rectangle held. */
  function ToRectDeprecated(gr: BgRect): (rect: Rect)
    reads gr`r
    ensures rect == gr.r
    ensures rect.Center() == gr.Center()
  {
    Rect(gr.Center().x - gr.XSize() / 2.0, gr.Center().y - gr.YSize() / 2.0, gr.XSize(), gr.YSize())
  }

  /** The centre of the rectangle built around a centre is that centre,
      and its corner is half a size away. */
  lemma CenterRoundTrip(center: Vec, xsize: real, ysize: real)
    ensures var r := Rect(center.x - xsize / 2.0, center.y - ysize / 2.0, xsize, ysize);
            r.Center() == center && Add(r.P(), Vec(xsize / 2.0, ysize / 2.0)) == center
  {
  }
}
