/** Hooke springs and a multiplicative damper, after part/src/math/Spring.ts.
    Neither a spring nor a damper changes after construction, so both are
    values; their methods change the `Vec2` objects they are given. */
module Springs {
  import opened Wrappers
  import V = Vectors
  import opened Vec2Objects

  /** Scales a velocity by 1 - dampingCoefficient. */
  datatype Damper = Damper(dampingCoefficient: real)
  {
    function Damp(velocity: V.Vec): V.Vec {
      V.Scale(velocity, 1.0 - dampingCoefficient)
    }

    /** Damps `velocity` in place and returns the same object. */
    method ApplyDampingForce(velocity: Vec2) returns (r: Vec2)
      modifies velocity
      ensures r == velocity && velocity.Value() == Damp(old(velocity.Value()))
    {
      r := velocity.Scale(1.0 - dampingCoefficient);
    }
  }

  datatype Spring = Spring(k: real, restLength: real, damper: Option<Damper>)
  {
    /** The force on a particle at `body` from a spring tied to `anchor`:
        along the unit vector towards the anchor, scaled by k times the
        extension, then damped. */
    function Force(body: V.Vec, anchor: V.Vec, sqrt: real -> real): V.Vec {
      Damped(Tension(body, anchor, sqrt))
    }

    /** How far the spring between the two points is stretched beyond its
        rest length (negative when compressed). */
    function Extension(body: V.Vec, anchor: V.Vec, sqrt: real -> real): real {
      V.Length(V.Sub(anchor, body), sqrt) - restLength
    }

    /** The undamped force. */
    function Tension(body: V.Vec, anchor: V.Vec, sqrt: real -> real): V.Vec {
      V.Scale(V.Normalize(V.Sub(anchor, body), sqrt), k * Extension(body, anchor, sqrt))
    }

    /** The force after the damper, if there is one. */
    function Damped(tension: V.Vec): V.Vec {
      match damper
      case None => tension
      case Some(d) => d.Damp(tension)
    }

    /** What damping multiplies the undamped force by. */
    function DampingFactor(): real {
      match damper
      case None => 1.0
      case Some(d) => 1.0 - d.dampingCoefficient
    }

    /** calculateForce: builds the force in a new vector; neither argument
        changes. */
    method CalculateForce(body: Vec2, anchor: Vec2, sqrt: real -> real) returns (tension: Vec2)
      ensures fresh(tension) && tension.Value() == Force(body.Value(), anchor.Value(), sqrt)
    {
      ghost var b0, a0 := body.Value(), anchor.Value();
      var direction := body.PointAt(anchor);
      var magnitude := direction.Length(sqrt);
      var extension := magnitude - restLength;
      assert extension == Extension(b0, a0, sqrt);
      var unitVector := direction.Normalize(sqrt);
      assert unitVector.Value() == V.Normalize(V.Sub(a0, b0), sqrt);
      tension := unitVector.Scale(k * extension);
      assert tension.Value() == Tension(b0, a0, sqrt);
      match damper {
        case None =>
        case Some(dm) =>
          var _ := dm.ApplyDampingForce(tension);
      }
    }
  }

  /** For distinct points the force is the direction towards the anchor
      scaled by k * extension * damping / distance. */
  lemma ForceAlongDirection(s: Spring, body: V.Vec, anchor: V.Vec, sqrt: real -> real, d: V.Vec, len: real, c: real)
    requires V.IsSqrt(sqrt) && body != anchor
    requires d == V.Sub(anchor, body) && len == V.Length(d, sqrt)
    requires len != 0.0 ==> c == (1.0 / len) * (s.k * (len - s.restLength)) * s.DampingFactor()
    ensures len > 0.0
    ensures s.Force(body, anchor, sqrt) == V.Scale(d, c)
  {
    SubNonZero(anchor, body);
    V.LengthSquared(d, sqrt);
    TensionAlong(s, body, anchor, sqrt, d, len);
    var t := (1.0 / len) * (s.k * (len - s.restLength));
    ForceFromTension(s, body, anchor, sqrt, d, t);
    assert c == t * s.DampingFactor();
  }

  /** Damping scales whatever multiple of d the undamped force is. */
  lemma ForceFromTension(s: Spring, body: V.Vec, anchor: V.Vec, sqrt: real -> real, d: V.Vec, c: real)
    requires s.Tension(body, anchor, sqrt) == V.Scale(d, c)
    ensures s.Force(body, anchor, sqrt) == V.Scale(d, c * s.DampingFactor())
  {
    DampedIsScale(s, s.Tension(body, anchor, sqrt));
    ScaleTwice(d, c, s.DampingFactor());
  }

  /** The undamped force is the direction scaled by k * extension / distance. */
  lemma TensionAlong(s: Spring, body: V.Vec, anchor: V.Vec, sqrt: real -> real, d: V.Vec, len: real)
    requires V.IsSqrt(sqrt) && d != V.Zero && len > 0.0
    requires d == V.Sub(anchor, body) && len == V.Length(d, sqrt)
    ensures s.Tension(body, anchor, sqrt) == V.Scale(d, (1.0 / len) * (s.k * (len - s.restLength)))
  {
    V.NormalizeUnit(d, sqrt);
    ScaleTwice(d, 1.0 / len, s.k * (len - s.restLength));
  }

  lemma SubNonZero(a: V.Vec, b: V.Vec)
    requires a != b
    ensures V.Sub(a, b) != V.Zero
  {
    var d := V.Sub(a, b);
    assert a == V.Vec(b.x + d.x, b.y + d.y);
  }

  lemma ScaleTwice(v: V.Vec, a: real, b: real)
    ensures V.Scale(V.Scale(v, a), b) == V.Scale(v, a * b)
  {
  }

  /** Damping multiplies by the damping factor. */
  lemma DampedIsScale(s: Spring, t: V.Vec)
    ensures s.Damped(t) == V.Scale(t, s.DampingFactor())
  {
  }

  /** A spring at its rest length pulls with no force. */
  lemma ForceAtRestLength(s: Spring, body: V.Vec, anchor: V.Vec, sqrt: real -> real)
    requires V.Length(V.Sub(anchor, body), sqrt) == s.restLength
    ensures s.Force(body, anchor, sqrt) == V.Zero
  {
  }

  /** A particle sitting on its anchor feels no force, whatever the rest
      length: normalizing the zero direction leaves it zero. */
  lemma ForceAtAnchor(s: Spring, p: V.Vec, sqrt: real -> real)
    requires V.IsSqrt(sqrt)
    ensures s.Force(p, p, sqrt) == V.Zero
  {
    var d := V.Sub(p, p);
    assert d == V.Zero;
    V.NormalizeUnit(d, sqrt);
    var tension := V.Scale(V.Normalize(d, sqrt), s.k * (V.Length(d, sqrt) - s.restLength));
    assert tension == V.Zero;
  }

  /** A stretched spring with non-negative stiffness and damping factor
      pulls towards the anchor. */
  lemma ForcePointsToAnchor(s: Spring, body: V.Vec, anchor: V.Vec, sqrt: real -> real)
    requires V.IsSqrt(sqrt) && s.k >= 0.0 && s.DampingFactor() >= 0.0
    requires V.Length(V.Sub(anchor, body), sqrt) >= s.restLength
    ensures V.Dot(s.Force(body, anchor, sqrt), V.Sub(anchor, body)) >= 0.0
  {
    if body != anchor {
      var d := V.Sub(anchor, body);
      var len := V.Length(d, sqrt);
      SubNonZero(anchor, body);
      V.LengthSquared(d, sqrt);
      var c := (1.0 / len) * (s.k * (len - s.restLength)) * s.DampingFactor();
      ForceAlongDirection(s, body, anchor, sqrt, d, len, c);
      PullNonNegative(len, s.k, s.restLength, s.DampingFactor(), c);
      DotOfScaleNonNegative(d, c);
    } else {
      ForceAtAnchor(s, body, sqrt);
    }
  }

  /** The pull's coefficient is non-negative when the spring is stretched. */
  lemma PullNonNegative(len: real, k: real, restLength: real, f: real, c: real)
    requires len > 0.0 && k >= 0.0 && len >= restLength && f >= 0.0
    requires c == (1.0 / len) * (k * (len - restLength)) * f
    ensures c >= 0.0
  {
    assert 1.0 / len > 0.0;
    NonNegativeProduct(k, len - restLength);
    NonNegativeProduct3(1.0 / len, k * (len - restLength), f);
  }

  lemma DotOfScaleNonNegative(d: V.Vec, c: real)
    requires c >= 0.0
    ensures V.Dot(V.Scale(d, c), d) >= 0.0
  {
    DotOfScale(d, c);
    V.LenSqNonNegative(d);
    NonNegativeProduct(c, V.LenSq(d));
  }

  lemma DotOfScale(d: V.Vec, c: real)
    ensures V.Dot(V.Scale(d, c), d) == c * V.LenSq(d)
  {
  }

  lemma NonNegativeProduct(a: real, b: real)
    requires 0.0 <= a && 0.0 <= b
    ensures 0.0 <= a * b
  {
    if 0.0 < a && 0.0 < b {
      V.ProductPositive(a, b, a * b);
    }
  }

  lemma NonNegativeProduct3(a: real, b: real, c: real)
    requires 0.0 <= a && 0.0 <= b && 0.0 <= c
    ensures 0.0 <= a * b * c
  {
    NonNegativeProduct(a, b);
    NonNegativeProduct(a * b, c);
  }

  /** An attached damper scales the undamped force by 1 - c. */
  lemma DamperScalesForce(k: real, restLength: real, c: real, body: V.Vec, anchor: V.Vec, sqrt: real -> real)
    ensures Spring(k, restLength, Some(Damper(c))).Force(body, anchor, sqrt) ==
            V.Scale(Spring(k, restLength, None).Force(body, anchor, sqrt), 1.0 - c)
  {
  }

  /** Newton's third law: swapping the ends of a spring negates its force. */
  lemma ForceAntisymmetric(s: Spring, a: V.Vec, b: V.Vec, sqrt: real -> real)
    requires V.IsSqrt(sqrt)
    ensures s.Force(b, a, sqrt) == V.Negate(s.Force(a, b, sqrt))
  {
    var d := V.Sub(b, a);
    var e := V.Sub(a, b);
    assert e == V.Negate(d);
    assert V.LenSq(e) == V.LenSq(d);
    if a == b {
      ForceAtAnchor(s, a, sqrt);
    } else {
      var len := V.Length(d, sqrt);
      assert V.Length(e, sqrt) == len;
      SubNonZero(b, a);
      V.LengthSquared(d, sqrt);
      var c := (1.0 / len) * (s.k * (len - s.restLength)) * s.DampingFactor();
      ForceAlongDirection(s, a, b, sqrt, d, len, c);
      ForceAlongDirection(s, b, a, sqrt, e, len, c);
      ScaleNegate(d, c);
    }
  }

  lemma ScaleNegate(d: V.Vec, c: real)
    ensures V.Scale(V.Negate(d), c) == V.Negate(V.Scale(d, c))
  {
  }
}

/** The integration helpers of part/src/math/physics.ts: each adds a rate
    times the elapsed seconds to a `Vec2` in place. */
module Physics {
  import V = Vectors
  import opened Vec2Objects

  /** x advanced by `rate` for `deltaMs` milliseconds. */
  function Advance(x: V.Vec, rate: V.Vec, deltaMs: real): V.Vec {
    V.Add(x, V.ScaleMs(rate, deltaMs))
  }

  /** applyAccelleration: target += accel * deltaMs / 1000. */
  method ApplyAccelleration(target: Vec2, accel: Vec2, deltaMs: real)
    modifies target
    ensures target.Value() == Advance(old(target.Value()), old(accel.Value()), deltaMs)
    ensures accel != target ==> accel.Value() == old(accel.Value())
  {
    var t := deltaMs / 1000.0;
    var a := accel.Copy();
    a := a.Scale(t);
    var _ := target.Add(a);
  }

  /** applyMovement: point += v * deltaMs / 1000. */
  method ApplyMovement(point: Vec2, v: Vec2, deltaMs: real)
    modifies point
    ensures point.Value() == Advance(old(point.Value()), old(v.Value()), deltaMs)
    ensures v != point ==> v.Value() == old(v.Value())
  {
    var d := v.Copy();
    d := d.Scale(deltaMs / 1000.0);
    var _ := point.Add(d);
  }

  /** No time, no change. */
  lemma AdvanceZero(x: V.Vec, rate: V.Vec)
    ensures Advance(x, rate, 0.0) == x
  {
  }

  /** Two steps at a constant rate make one step of the summed duration. */
  lemma AdvanceAdditive(x: V.Vec, rate: V.Vec, d1: real, d2: real)
    ensures Advance(Advance(x, rate, d1), rate, d2) == Advance(x, rate, d1 + d2)
  {
    assert rate.x * (d1 / 1000.0) + rate.x * (d2 / 1000.0) == rate.x * ((d1 + d2) / 1000.0);
    assert rate.y * (d1 / 1000.0) + rate.y * (d2 / 1000.0) == rate.y * ((d1 + d2) / 1000.0);
  }
}
