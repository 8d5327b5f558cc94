/** Two-dimensional vectors as values, with the free functions of
    part/src/math/vec2.ts.  Every free function of the source returns a new
    vector and leaves its arguments alone, which values give for free. */
module Vectors {

  /** The coordinates of a `Vec2`. */
  datatype Vec = Vec(x: real, y: real)

  /** `new Vec2()` */
  const Zero := Vec(0.0, 0.0)

  /** Math.sqrt on the non-negative reals.  The model does not compute square
      roots: every operation that needs one receives it as a parameter
      constrained by this predicate. */
  ghost predicate IsSqrt(sqrt: real -> real) {
    forall x :: 0.0 <= x ==> 0.0 <= sqrt(x) && sqrt(x) * sqrt(x) == x
  }

  /** These arithmetic facts are proved with the square named as `r`: the
      solver relates a named square to its root more reliably. */
  lemma SquareNonNegative(a: real, r: real)
    requires r == a * a
    ensures 0.0 <= r
  {
  }

  lemma ProductPositive(a: real, b: real, r: real)
    requires r == a * b
    requires 0.0 < a && 0.0 < b
    ensures 0.0 < r
  {
  }

  lemma SquarePositive(a: real, r: real)
    requires r == a * a
    requires a != 0.0
    ensures 0.0 < r
  {
    if 0.0 < a {
      ProductPositive(a, a, r);
    } else {
      ProductPositive(-a, -a, r);
    }
  }

  lemma ProductNonZero(a: real, b: real, r: real)
    requires r == a * b
    requires a != 0.0 && b != 0.0
    ensures r != 0.0
  {
    if 0.0 < a && 0.0 < b {
      ProductPositive(a, b, r);
    } else if a < 0.0 && b < 0.0 {
      ProductPositive(-a, -b, r);
    } else if a < 0.0 {
      ProductPositive(-a, b, -r);
    } else {
      ProductPositive(a, -b, -r);
    }
  }

  /** Two non-negative numbers with the same square are equal. */
  lemma SameSquare(s: real, t: real)
    requires 0.0 <= s && 0.0 <= t && s * s == t * t
    ensures s == t
  {
    var d := (s - t) * (s + t);
    assert d == s * s - t * t;
    if s != t && s + t != 0.0 {
      ProductNonZero(s - t, s + t, d);
    }
  }

  /** Squaring preserves the order of non-negative numbers. */
  lemma SquareLess(a: real, b: real)
    requires 0.0 <= a && 0.0 <= b
    ensures a < b <==> a * a < b * b
  {
    var d := (b - a) * (b + a);
    assert d == b * b - a * a;
    if a < b {
      ProductPositive(b - a, b + a, d);
    } else if b < a {
      ProductPositive(a - b, a + b, -d);
    }
  }

  /** A root is below a non-negative bound exactly when its square is. */
  lemma SqrtLess(sqrt: real -> real, x: real, bound: real)
    requires IsSqrt(sqrt)
    requires 0.0 <= x && 0.0 <= bound
    ensures sqrt(x) < bound <==> x < bound * bound
    ensures sqrt(x) <= bound <==> x <= bound * bound
  {
    var s := sqrt(x);
    assert s * s == x;
    SquareLess(s, bound);
    SquareLess(bound, s);
  }

  lemma SqrtOfSquare(sqrt: real -> real, x: real, r: real)
    requires IsSqrt(sqrt)
    requires 0.0 <= r && r * r == x
    ensures sqrt(x) == r
  {
    SquareNonNegative(r, x);
    SameSquare(sqrt(x), r);
  }

  lemma SqrtZero(sqrt: real -> real)
    requires IsSqrt(sqrt)
    ensures sqrt(0.0) == 0.0
  {
    SqrtOfSquare(sqrt, 0.0, 0.0);
  }

  lemma SqrtPositive(sqrt: real -> real, x: real)
    requires IsSqrt(sqrt)
    requires 0.0 < x
    ensures 0.0 < sqrt(x)
  {
    var s := sqrt(x);
    assert s * s == x;
    if s == 0.0 {
      SquareNonNegative(s, s * s);
    }
  }

  function Add(v1: Vec, v2: Vec): Vec { Vec(v1.x + v2.x, v1.y + v2.y) }

  function Sub(v1: Vec, v2: Vec): Vec { Vec(v1.x - v2.x, v1.y - v2.y) }

  function Scale(v: Vec, s: real): Vec { Vec(v.x * s, v.y * s) }

  /** Scales by a duration in milliseconds, turned into seconds. */
  function ScaleMs(v: Vec, deltaMs: real): Vec { Scale(v, deltaMs / 1000.0) }

  /** Componentwise product. */
  function Mult(v1: Vec, v2: Vec): Vec { Vec(v1.x * v2.x, v1.y * v2.y) }

  /** Componentwise quotient. */
  function Div(v1: Vec, v2: Vec): Vec
    requires v2.x != 0.0 && v2.y != 0.0
  {
    Vec(v1.x / v2.x, v1.y / v2.y)
  }

  function DivS(v: Vec, s: real): Vec
    requires s != 0.0
  {
    Vec(v.x / s, v.y / s)
  }

  /** `Vec2.negate`, used by the spring system and by rays. */
  function Negate(v: Vec): Vec { Vec(-v.x, -v.y) }

  function Dot(p: Vec, q: Vec): real { p.x * q.x + p.y * q.y }

  function LenSq(v: Vec): real { v.x * v.x + v.y * v.y }

  function Length(v: Vec, sqrt: real -> real): real { sqrt(LenSq(v)) }

  function DistanceTo(a: Vec, b: Vec, sqrt: real -> real): real { Length(Sub(a, b), sqrt) }

  /** The vector scaled to length one; the zero vector is returned as is. */
  function Normalize(v: Vec, sqrt: real -> real): Vec
  {
    var length := Length(v, sqrt);
    if length > 0.0 then Vec(v.x / length, v.y / length) else v
  }

  /** The two parts of `projectOnto`: `para` along Q and `perp` across it. */
  datatype Projection = Projection(para: Vec, perp: Vec)

  /** Splits P into a part parallel to Q and a part perpendicular to Q. */
  function ProjectOnto(P: Vec, Q: Vec): (r: Projection)
    requires LenSq(Q) != 0.0
    ensures Add(r.para, r.perp) == P
    ensures Dot(r.perp, Q) == 0.0
    ensures r.para == Scale(Q, Dot(P, Q) / LenSq(Q))
  {
    var para := Scale(Q, Dot(P, Q) / LenSq(Q));
    var perp := Sub(P, para);
    var t := Dot(P, Q) / LenSq(Q);
    assert t * LenSq(Q) == Dot(P, Q);
    calc {
      Dot(perp, Q);
      (P.x - Q.x * t) * Q.x + (P.y - Q.y * t) * Q.y;
      Dot(P, Q) - t * LenSq(Q);
      0.0;
    }
    Projection(para, perp)
  }

  lemma LenSqNonNegative(v: Vec)
    ensures 0.0 <= LenSq(v)
    ensures LenSq(v) == 0.0 <==> v == Zero
  {
    var a, b := v.x * v.x, v.y * v.y;
    SquareNonNegative(v.x, a);
    SquareNonNegative(v.y, b);
    if v.x != 0.0 {
      SquarePositive(v.x, a);
    }
    if v.y != 0.0 {
      SquarePositive(v.y, b);
    }
    assert LenSq(v) == a + b;
  }

  /** `length` squared is `lenSq`. */
  lemma LengthSquared(v: Vec, sqrt: real -> real)
    requires IsSqrt(sqrt)
    ensures 0.0 <= Length(v, sqrt)
    ensures Length(v, sqrt) * Length(v, sqrt) == LenSq(v)
    ensures Length(v, sqrt) == 0.0 <==> v == Zero
  {
    LengthRoot(v, sqrt);
    LengthZero(v, sqrt);
  }

  lemma LengthRoot(v: Vec, sqrt: real -> real)
    requires IsSqrt(sqrt)
    ensures 0.0 <= Length(v, sqrt)
    ensures Length(v, sqrt) * Length(v, sqrt) == LenSq(v)
  {
    LenSqNonNegative(v);
  }

  lemma LengthZero(v: Vec, sqrt: real -> real)
    requires IsSqrt(sqrt)
    ensures Length(v, sqrt) == 0.0 <==> v == Zero
  {
    LenSqNonNegative(v);
    if v != Zero {
      LengthPositive(v, sqrt);
    } else {
      LengthOfZero(v, sqrt);
    }
  }

  lemma LengthPositive(v: Vec, sqrt: real -> real)
    requires IsSqrt(sqrt)
    requires 0.0 < LenSq(v)
    ensures 0.0 < Length(v, sqrt)
  {
    SqrtPositive(sqrt, LenSq(v));
  }

  lemma LengthOfZero(v: Vec, sqrt: real -> real)
    requires IsSqrt(sqrt)
    requires LenSq(v) == 0.0
    ensures Length(v, sqrt) == 0.0
  {
    SqrtZero(sqrt);
  }

  /** Scaling by s multiplies the length by |s|. */
  lemma LengthOfScale(v: Vec, s: real, sqrt: real -> real)
    requires IsSqrt(sqrt)
    ensures Length(Scale(v, s), sqrt) == (if s < 0.0 then -s else s) * Length(v, sqrt)
  {
    LengthSquared(v, sqrt);
    var a := if s < 0.0 then -s else s;
    var l := Length(v, sqrt);
    assert LenSq(Scale(v, s)) == s * s * LenSq(v);
    assert (a * l) * (a * l) == s * s * (l * l);
    SqrtOfSquare(sqrt, LenSq(Scale(v, s)), a * l);
  }

  lemma DistanceSymmetric(a: Vec, b: Vec, sqrt: real -> real)
    ensures DistanceTo(a, b, sqrt) == DistanceTo(b, a, sqrt)
  {
    assert LenSq(Sub(a, b)) == LenSq(Sub(b, a));
  }

  /** A non-zero vector normalizes to a unit vector pointing the same way;
      the zero vector is left as it is. */
  lemma NormalizeUnit(v: Vec, sqrt: real -> real)
    requires IsSqrt(sqrt)
    ensures v == Zero ==> Normalize(v, sqrt) == Zero
    ensures v != Zero ==> LenSq(Normalize(v, sqrt)) == 1.0
    ensures v != Zero ==> Normalize(v, sqrt) == Scale(v, 1.0 / Length(v, sqrt))
  {
    LengthSquared(v, sqrt);
    if v != Zero {
      var l := Length(v, sqrt);
      var n := Normalize(v, sqrt);
      assert n == Vec(v.x / l, v.y / l);
      assert n.x * l == v.x && n.y * l == v.y;
      assert LenSq(n) * (l * l) == LenSq(v);
      assert LenSq(n) * (l * l) == 1.0 * (l * l);
    }
  }

  lemma AddSubInverse(a: Vec, b: Vec)
    ensures Sub(Add(a, b), b) == a
    ensures Add(Sub(a, b), b) == a
  {
  }

  lemma AddNegate(v: Vec)
    ensures Add(v, Negate(v)) == Zero
    ensures Negate(Negate(v)) == v
  {
  }
}

/** The mutable `Vec2` class of part/src/math/vec2.ts: its in-place methods
    change the receiver and return it. */
module Vec2Objects {
  import V = Vectors

  class Vec2 {
    var x: real
    var y: real

    constructor (x: real, y: real)
      ensures this.x == x && this.y == y
    {
      this.x := x;
      this.y := y;
    }

    /** The vector this object currently holds. */
    function Value(): V.Vec
      reads this
    {
      V.Vec(x, y)
    }

    predicate Equals(other: Vec2)
      reads this, other
    {
      x == other.x && y == other.y
    }

    method Copy() returns (c: Vec2)
      ensures fresh(c) && c.Value() == Value()
    {
      c := new Vec2(x, y);
    }

    method Add(other: Vec2) returns (r: Vec2)
      modifies this
      ensures r == this && Value() == V.Add(old(Value()), old(other.Value()))
    {
      x := x + other.x;
      y := y + other.y;
      r := this;
    }

    method Sub(other: Vec2) returns (r: Vec2)
      modifies this
      ensures r == this && Value() == V.Sub(old(Value()), old(other.Value()))
    {
      x := x - other.x;
      y := y - other.y;
      r := this;
    }

    method Scale(s: real) returns (r: Vec2)
      modifies this
      ensures r == this && Value() == V.Scale(old(Value()), s)
    {
      x := x * s;
      y := y * s;
      r := this;
    }

    method Mult(other: Vec2) returns (r: Vec2)
      ensures fresh(r) && r.Value() == V.Mult(Value(), other.Value())
    {
      r := new Vec2(x * other.x, y * other.y);
    }

    method Div(other: Vec2) returns (r: Vec2)
      requires other.x != 0.0 && other.y != 0.0
      modifies this
      ensures r == this && Value() == V.Div(old(Value()), old(other.Value()))
    {
      x := x / other.x;
      y := y / other.y;
      r := this;
    }

    method DivS(s: real) returns (r: Vec2)
      requires s != 0.0
      modifies this
      ensures r == this && Value() == V.DivS(old(Value()), s)
    {
      x := x / s;
      y := y / s;
      r := this;
    }

    /** A new vector from this point to `other`; this one is unchanged. */
    method PointAt(other: Vec2) returns (r: Vec2)
      ensures fresh(r) && r.Value() == V.Sub(other.Value(), Value())
    {
      r := new Vec2(other.x - x, other.y - y);
    }

    method Normalize(sqrt: real -> real) returns (r: Vec2)
      modifies this
      ensures r == this && Value() == V.Normalize(old(Value()), sqrt)
    {
      assert V.LenSq(Value()) == x * x + y * y;
      var length := sqrt(x * x + y * y);
      if length > 0.0 {
        x := x / length;
        y := y / length;
      }
      r := this;
    }

    function Length(sqrt: real -> real): real
      reads this
    {
      V.Length(Value(), sqrt)
    }

    function LenSq(): real
      reads this
    {
      V.LenSq(Value())
    }

    function Dot(that: Vec2): real
      reads this, that
    {
      V.Dot(Value(), that.Value())
    }

    function DistanceTo(that: Vec2, sqrt: real -> real): real
      reads this, that
    {
      V.DistanceTo(Value(), that.Value(), sqrt)
    }
  }
}
