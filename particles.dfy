/** The particle of part/src/particle-systems/Particle.ts: a mutable object
    with a position, velocity, mass, acceleration, drawing size and age.
    Position, velocity and acceleration are held as vector values. */
module Particles {
  import opened Vectors
  import Physics
  import Colors

  /** The collision radius every particle starts with. */
  const DefaultRadius: real := 0.01

  class Particle {
    var p: Vec
    var v: Vec
    var m: real
    var a: Vec
    var drawSizePx: real
    var r: real
    var color: Colors.Color
    var age: int
    var ageMs: real
    /** Set by the spring system on the particle it lets the mouse drag;
        every other particle reads it as false. */
    var beingDragged: bool

    constructor(x: real, y: real, v: Vec, color: Colors.Color, size: real, m: real)
      ensures p == Vec(x, y) && this.v == v && this.m == m && a == Zero
      ensures this.color == color && drawSizePx == size && r == DefaultRadius
      ensures age == 0 && ageMs == 0.0 && !beingDragged
    {
      p := Vec(x, y);
      this.v := v;
      this.m := m;
      a := Zero;
      this.color := color;
      drawSizePx := size;
      r := DefaultRadius;
      age := 0;
      ageMs := 0.0;
      beingDragged := false;
    }

    /** fromArgs: the constructor with named arguments. */
    static method FromArgs(x: real, y: real, v: Vec, color: Colors.Color, size: real, m: real)
      returns (q: Particle)
      ensures fresh(q)
      ensures q.p == Vec(x, y) && q.v == v && q.m == m && q.a == Zero
      ensures q.color == color && q.drawSizePx == size && q.r == DefaultRadius
      ensures q.age == 0 && q.ageMs == 0.0 && !q.beingDragged
    {
      q := new Particle(x, y, v, color, size, m);
    }

    /** create: a unit-mass particle at `at`, drawn at the default size. */
    static method Create(at: Vec, v: Vec, color: Colors.Color, defaultSize: real) returns (q: Particle)
      ensures fresh(q)
      ensures q.p == at && q.v == v && q.m == 1.0 && q.a == Zero
      ensures q.color == color && q.drawSizePx == defaultSize
      ensures q.age == 0 && q.ageMs == 0.0 && q.r == DefaultRadius && !q.beingDragged
    {
      q := new Particle(at.x, at.y, v, color, defaultSize, 1.0);
    }

    function X(): real
      reads this
    {
      p.x
    }

    function Y(): real
      reads this
    {
      p.y
    }

    /** The x setter writes through to the position. */
    method SetX(x: real)
      modifies this`p
      ensures p == Vec(x, old(p.y)) && X() == x
    {
      p := Vec(x, p.y);
    }

    /** The y setter writes through to the position. */
    method SetY(y: real)
      modifies this`p
      ensures p == Vec(old(p.x), y) && Y() == y
    {
      p := Vec(p.x, y);
    }

    /** init: reuses this particle, resetting acceleration and age; the
        radius and the drag flag are kept. */
    method Init(x: real, y: real, v: Vec, color: Colors.Color, size: real, m: real) returns (self: Particle)
      modifies this`p, this`v, this`m, this`a, this`color, this`drawSizePx, this`age, this`ageMs
      ensures self == this
      ensures p == Vec(x, y) && this.v == v && this.m == m && a == Zero
      ensures this.color == color && drawSizePx == size
      ensures age == 0 && ageMs == 0.0
    {
      SetX(x);
      SetY(y);
      this.v := v;
      this.m := m;
      a := Zero;
      this.color := color;
      drawSizePx := size;
      age := 0;
      ageMs := 0.0;
      self := this;
    }

    /** incAge_deprecated: one more frame of `deltaT` milliseconds. */
    method IncAgeDeprecated(deltaT: real)
      modifies this`ageMs, this`age
      ensures ageMs == old(ageMs) + deltaT && age == old(age) + 1
    {
      ageMs := ageMs + deltaT;
      age := age + 1;
    }

    /** moveAndUpdateAge: moves by the velocity for `deltaT` milliseconds
        and ages by one frame; the velocity is unchanged. */
    method MoveAndUpdateAge(deltaT: real)
      modifies this`p, this`ageMs, this`age
      ensures p == Physics.Advance(old(p), v, deltaT)
      ensures ageMs == old(ageMs) + deltaT && age == old(age) + 1
    {
      p := Physics.Advance(p, v, deltaT);
      ageMs := ageMs + deltaT;
      age := age + 1;
    }

    /** applyForce: changes only the velocity, by f for `deltaMs`
        milliseconds (the mass is not used). */
    method ApplyForce(f: Vec, deltaMs: real)
      modifies this`v
      ensures v == Physics.Advance(old(v), f, deltaMs)
    {
      v := Physics.Advance(v, f, deltaMs);
    }

    /** The drawing size projected to world units. */
    function NormalizedSize(projection: Vec): (s: real)
      reads this
      ensures s == NormalizedSizeOf(drawSizePx, projection)
    {
      drawSizePx * projection.x
    }
  }

  /** The static normalizedSize. */
  function NormalizedSizeOf(s: real, projection: Vec): real {
    s * projection.x
  }

  /** The projected size depends only on the x scale of the projection,
      and linearly. */
  lemma NormalizedSizeLinear(s: real, projection: Vec, t: real, y: real)
    ensures NormalizedSizeOf(s, Scale(projection, t)) == t * NormalizedSizeOf(s, projection)
    ensures NormalizedSizeOf(s, Vec(projection.x, y)) == NormalizedSizeOf(s, projection)
  {
    assert s * (projection.x * t) == t * (s * projection.x);
  }
}
