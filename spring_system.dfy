/** The spring particle system of part/src/particle-systems/spring-system.ts:
    four particles joined by six springs, pulled towards a gravity point,
    damped and integrated with a semi-implicit Euler step each frame; the
    mouse may drag one of them. */
module SpringSystems {
  import opened Wrappers
  import opened Vectors
  import opened Springs
  import opened Particles
  import Colors
  import Rects
  import Matrices

  /** A particle's kinematic state. */
  datatype Body = Body(p: Vec, v: Vec, a: Vec)

  function BodyOf(q: Particle): Body
    reads q
  {
    Body(q.p, q.v, q.a)
  }

  // ---------------------------------------------------------------------
  // Free helpers

  /** applyForce: a += F / m (F = m a); the force itself is a value and
      does not change. */
  method ApplyForce(particle: Particle, force: Vec)
    requires particle.m != 0.0
    modifies particle`a
    ensures particle.a == Add(old(particle.a), DivS(force, particle.m))
  {
    var a := DivS(force, particle.m);
    particle.a := Add(particle.a, a);
  }

  /** applyGravity: a += g, whatever the mass. */
  method ApplyGravity(particle: Particle, gravity: Vec)
    modifies particle`a
    ensures particle.a == Add(old(particle.a), gravity)
  {
    particle.a := Add(particle.a, gravity);
  }

  /** getPointGravityVector: the unit vector from the particle towards the
      gravity point, scaled by the strength. */
  function PointGravityVector(p: Vec, gravityLocation: Vec, gravityStrength: real, sqrt: real -> real): Vec {
    Scale(Normalize(Sub(gravityLocation, p), sqrt), gravityStrength)
  }

  /** doEuler on values: the acceleration is scaled by the time step in
      place, added to the velocity, and the new velocity moves the point. */
  function Euler(b: Body, dtMs: real): Body {
    var timeScale := dtMs / 1000.0;
    var deltaV := Scale(b.a, timeScale);
    var v := Add(b.v, deltaV);
    Body(Add(b.p, Scale(v, timeScale)), v, deltaV)
  }

  method DoEuler(particle: Particle, dtMs: real)
    modifies particle`a, particle`v, particle`p
    ensures BodyOf(particle) == Euler(old(BodyOf(particle)), dtMs)
  {
    var timeScale := dtMs / 1000.0;
    particle.a := Scale(particle.a, timeScale);
    particle.v := Add(particle.v, particle.a);
    var deltaP := Scale(particle.v, timeScale);
    particle.p := Add(particle.p, deltaP);
  }

  /** findCenter: the centroid of three points; the offsets from it sum to
      zero. */
  function FindCenter(p1: Vec, p2: Vec, p3: Vec): (c: Vec)
    ensures Add(Add(Sub(p1, c), Sub(p2, c)), Sub(p3, c)) == Zero
  {
    Vec((p1.x + p2.x + p3.x) / 3.0, (p1.y + p2.y + p3.y) / 3.0)
  }

  // ---------------------------------------------------------------------
  // Springs between particles

  /** What one application of a spring adds to the acceleration of a
      particle of mass m that is its first end (atP1), its second end
      (atP2), both or neither; x1 and x2 are the ends' positions. */
  function Share(spring: Spring, atP1: bool, atP2: bool, x1: Vec, x2: Vec, m: real, sqrt: real -> real): Vec
    requires m != 0.0
  {
    Add(if atP1 then DivS(spring.Force(x1, x2, sqrt), m) else Zero,
        if atP2 then DivS(Negate(spring.Force(x1, x2, sqrt)), m) else Zero)
  }

  class AppliedSpring {
    const p1: Particle
    const p2: Particle
    const spring: Spring

    constructor(p1: Particle, p2: Particle, spring: Spring)
      ensures this.p1 == p1 && this.p2 == p2 && this.spring == spring
    {
      this.p1 := p1;
      this.p2 := p2;
      this.spring := spring;
    }

    /** apply: the spring force F on p1 and -F on p2, each divided by that
        particle's mass. */
    method Apply(sqrt: real -> real)
      requires p1.m != 0.0 && p2.m != 0.0
      modifies p1`a, p2`a
      ensures p1.a == Add(old(p1.a), Share(spring, true, p1 == p2, p1.p, p2.p, p1.m, sqrt))
      ensures p2.a == Add(old(p2.a), Share(spring, p1 == p2, true, p1.p, p2.p, p2.m, sqrt))
    {
      var force := spring.Force(p1.p, p2.p, sqrt);
      var oppForce := Negate(force);
      ApplyForce(p1, force);
      ApplyForce(p2, oppForce);
    }
  }

  function PositionMap(ps: seq<Particle>): map<Particle, Vec>
    reads ps`p
  {
    map q | q in ps :: q.p
  }

  /** The particles' accelerations, in order. */
  function Accelerations(ps: seq<Particle>): (r: seq<Vec>)
    reads ps`a
    ensures |r| == |ps| && forall k :: 0 <= k < |ps| ==> r[k] == ps[k].a
  {
    if |ps| == 0 then [] else Accelerations(ps[..|ps| - 1]) + [ps[|ps| - 1].a]
  }

  function MassMap(ps: seq<Particle>): map<Particle, real>
    reads ps`m
  {
    map q | q in ps :: q.m
  }

  /** Every spring's ends have a position, and every particle with a mass
      has a non-zero one. */
  predicate Covers(ss: seq<AppliedSpring>, pos: map<Particle, Vec>, mass: map<Particle, real>) {
    (forall s :: s in ss ==> s.p1 in pos && s.p2 in pos) &&
    (forall q :: q in mass ==> mass[q] != 0.0)
  }

  /** What spring s adds to q's acceleration when applied once (nothing
      when an end has no position or q has no mass). */
  function Contribution(s: AppliedSpring, q: Particle, pos: map<Particle, Vec>, mass: map<Particle, real>,
                        sqrt: real -> real): Vec
  {
    if s.p1 in pos && s.p2 in pos && q in mass && mass[q] != 0.0 then
      Share(s.spring, q == s.p1, q == s.p2, pos[s.p1], pos[s.p2], mass[q], sqrt)
    else
      Zero
  }

  /** What the first n springs add to q's acceleration, each applied once. */
  function SpringsAccel(ss: seq<AppliedSpring>, n: nat, q: Particle, pos: map<Particle, Vec>,
                        mass: map<Particle, real>, sqrt: real -> real): Vec
    requires n <= |ss|
  {
    if n == 0 then Zero
    else Add(SpringsAccel(ss, n - 1, q, pos, mass, sqrt), Contribution(ss[n - 1], q, pos, mass, sqrt))
  }

  /** How the spring system joins its four particles b (bouncer), a
      (anchor), o (other) and c (centre). */
  ghost predicate SpringLayout(ss: seq<AppliedSpring>, b: Particle, a: Particle, o: Particle, c: Particle,
                               restLength: real, sqrt: real -> real)
    reads c`p, a`p, b`p, o`p
  {
    |ss| == 6 &&
    ss[0].p1 == b && ss[0].p2 == a && ss[1].p1 == b && ss[1].p2 == o && ss[2].p1 == o && ss[2].p2 == a &&
    ss[3].p1 == c && ss[3].p2 == a && ss[4].p1 == c && ss[4].p2 == b && ss[5].p1 == c && ss[5].p2 == o &&
    (forall t :: 0 <= t < 3 ==> ss[t].spring == Spring(10.0, restLength, None)) &&
    (forall t :: 3 <= t < 6 ==> ss[t].spring == Spring(10.0, DistanceTo(c.p, ss[t].p2.p, sqrt), None))
  }

  /** Every spring of the layout joins two of the four particles. */
  lemma LayoutEndsAmong(ss: seq<AppliedSpring>, b: Particle, a: Particle, o: Particle, c: Particle,
                        restLength: real, sqrt: real -> real)
    requires SpringLayout(ss, b, a, o, c, restLength, sqrt)
    ensures forall s :: s in ss ==> s.p1 in [b, a, o, c] && s.p2 in [b, a, o, c]
  {
    forall s | s in ss
      ensures s.p1 in [b, a, o, c] && s.p2 in [b, a, o, c]
    {
      var t :| 0 <= t < 6 && ss[t] == s;
    }
  }

  /** The fields of a mouse event that getMouseClick reads. */
  datatype MouseEvent = MouseEvent(buttons: int, clientX: real, clientY: real)

  /** What getMouseClick reads from the drawing context: the last mouse
      event (if any), the canvas's client rectangle offset, and the
      screen-to-world matrix. */
  datatype MouseInput = MouseInput(lastMouseEvent: Option<MouseEvent>, rectLeft: real, rectTop: real,
                                   screenToWorld: Matrices.Matrix3)

  /** The click in screen coordinates: the offset into the canvas, halved. */
  function ScreenPoint(e: MouseEvent, rectLeft: real, rectTop: real): Vec {
    Vec((e.clientX - rectLeft) / 2.0, (e.clientY - rectTop) / 2.0)
  }

  /** The click in world coordinates. */
  function WorldPoint(input: MouseInput): Vec
    requires input.lastMouseEvent.Some? && input.screenToWorld.Valid()
  {
    input.screenToWorld.ApplyToVector2(ScreenPoint(input.lastMouseEvent.value, input.rectLeft, input.rectTop))
  }

  /** How far the mouse may be from the bouncer and still grab it. */
  const DragRadius: real := 0.2

  class SpringParticleSystem {
    var bounds: Rects.Rect
    // The remaining members are never reassigned after construction.
    const particles: seq<Particle>
    const bouncer: Particle
    const anchor: Particle
    const other: Particle
    const springs: seq<AppliedSpring>
    const gravityStrength: real := 0.05
    const gravityDownVector: Vec := Vec(0.0, 0.05)
    const gravityPoint: Vec
    var isDragging: bool
    const damper: Damper := Damper(0.001)

    /** The particles are distinct, and the bouncer and every spring's
        ends are among them. */
    predicate Linked() {
      (forall i, j :: 0 <= i < j < |particles| ==> particles[i] != particles[j]) &&
      bouncer in particles && SpringsLinked()
    }

    /** Every spring joins two of the particles. */
    predicate SpringsLinked() {
      forall s :: s in springs ==> s.p1 in particles && s.p2 in particles
    }

    /** The particles are linked and no mass is zero. */
    predicate Valid()
      reads particles`m
    {
      Linked() && forall q :: q in particles ==> q.m != 0.0
    }

    /** What all springs, each applied once, add to q's acceleration with
        the current positions and masses. */
    function SpringAccelOn(q: Particle, sqrt: real -> real): Vec
      requires Valid() && q in particles
      reads particles`p, particles`m
    {
      SpringsAccel(springs, |springs|, q, PositionMap(particles), MassMap(particles), sqrt)
    }

    /** The acceleration the as-written force pass leaves on particle k:
        its gravity plus the springs' share N - k times over, N being the
        number of particles. */
    function AsWrittenAccel(k: int, sqrt: real -> real): Vec
      requires Valid() && 0 <= k < |particles|
      reads particles`p, particles`m
    {
      Add(GravityOn(particles[k], sqrt), Scale(SpringAccelOn(particles[k], sqrt), (|particles| - k) as real))
    }

    /** The gravity q feels at its current position. */
    function GravityOn(q: Particle, sqrt: real -> real): Vec
      reads q`p
    {
      PointGravityVector(q.p, gravityPoint, gravityStrength, sqrt)
    }

    /** The six springs: bouncer-anchor, bouncer-other and other-anchor at
        the given rest length, then centre-anchor, centre-bouncer and
        centre-other at their current lengths; all of stiffness 10 with no
        damper. */
    static method MakeSprings(b: Particle, a: Particle, o: Particle, c: Particle, restLength: real, sqrt: real -> real)
      returns (ss: seq<AppliedSpring>)
      ensures SpringLayout(ss, b, a, o, c, restLength, sqrt)
    {
      var k := 10.0;
      var template := Spring(k, restLength, None);
      var s0 := new AppliedSpring(b, a, template);
      var s1 := new AppliedSpring(b, o, template);
      var s2 := new AppliedSpring(o, a, template);
      var s3 := new AppliedSpring(c, a, Spring(k, DistanceTo(c.p, a.p, sqrt), None));
      var s4 := new AppliedSpring(c, b, Spring(k, DistanceTo(c.p, b.p, sqrt), None));
      var s5 := new AppliedSpring(c, o, Spring(k, DistanceTo(c.p, o.p, sqrt), None));
      ss := [s0, s1, s2, s3, s4, s5];
    }

    /** The four particles: anchor (red, mass 30) and bouncer (magenta) on
        the vertical through x = bounds.w / 2, the other one (green) at
        `otherPt` and the centre one (cyan) at their centroid; all at rest,
        drawn at size 4. */
    static method MakeParticles(bounds: Rects.Rect, otherPt: Vec)
      returns (b: Particle, a: Particle, o: Particle, c: Particle)
      ensures fresh(b) && fresh(a) && fresh(o) && fresh(c)
      ensures b != a && b != o && b != c && a != o && a != c && o != c
      ensures b.p == Vec(bounds.w / 2.0, bounds.y + bounds.h * 0.2) && b.m == 1.0
      ensures a.p == Vec(bounds.w / 2.0, bounds.y + bounds.h * 0.1) && a.m == 30.0
      ensures o.p == otherPt && o.m == 1.0
      ensures c.p == FindCenter(b.p, a.p, o.p) && c.m == 1.0
      ensures b.v == Zero && a.v == Zero && o.v == Zero && c.v == Zero
      ensures b.a == Zero && a.a == Zero && o.a == Zero && c.a == Zero
      ensures !b.beingDragged && !a.beingDragged && !o.beingDragged && !c.beingDragged
    {
      var centerX := bounds.w / 2.0;
      var red := new Colors.Color(255.0, 0.0, 0.0);
      var magenta := new Colors.Color(255.0, 0.0, 255.0);
      var green := new Colors.Color(0.0, 255.0, 0.0);
      var cyan := new Colors.Color(0.0, 255.0, 255.0);
      a := Particle.FromArgs(centerX, bounds.y + bounds.h * 0.1, Zero, red, 4.0, 30.0);
      b := Particle.FromArgs(centerX, bounds.y + bounds.h * 0.2, Zero, magenta, 4.0, 1.0);
      o := Particle.FromArgs(otherPt.x, otherPt.y, Zero, green, 4.0, 1.0);
      var centerPt := FindCenter(b.p, a.p, o.p);
      c := Particle.FromArgs(centerPt.x, centerPt.y, Zero, cyan, 4.0, 1.0);
    }

    /** The constructor lays out the anchor and the bouncer on the vertical
        through x = bounds.w / 2, a third particle at `otherPt` (in the
        source the bouncer-to-anchor vector rotated by -45 degrees), and a
        centre particle at their centroid; three springs of rest length
        0.3 * bounds.h join the outer three, and three springs of their
        current length join the centre to each of them. */
    constructor(bounds: Rects.Rect, otherPt: Vec, sqrt: real -> real)
      ensures Valid()
      ensures |particles| == 4 && particles[0] == bouncer && particles[1] == anchor && particles[2] == other
      ensures bouncer.p == Vec(bounds.w / 2.0, bounds.y + bounds.h * 0.2) && bouncer.m == 1.0
      ensures anchor.p == Vec(bounds.w / 2.0, bounds.y + bounds.h * 0.1) && anchor.m == 30.0
      ensures other.p == otherPt && other.m == 1.0
      ensures particles[3].p == FindCenter(bouncer.p, anchor.p, other.p) && particles[3].m == 1.0
      ensures forall q :: q in particles ==> q.v == Zero && q.a == Zero && !q.beingDragged
      ensures SpringLayout(springs, bouncer, anchor, other, particles[3], bounds.h * 0.3, sqrt)
      ensures gravityPoint == Vec(bounds.w / 2.0, bounds.y + bounds.h * 0.5)
      ensures !isDragging && this.bounds == bounds
    {
      var centerX := bounds.w / 2.0;
      var bouncerP, anchorP, otherP, centerParticle := MakeParticles(bounds, otherPt);
      var ss := MakeSprings(bouncerP, anchorP, otherP, centerParticle, bounds.h * 0.3, sqrt);
      this.bounds := bounds;
      gravityPoint := Vec(centerX, bounds.y + bounds.h * 0.5);
      anchor := anchorP;
      bouncer := bouncerP;
      other := otherP;
      springs := ss;
      particles := [bouncerP, anchorP, otherP, centerParticle];
      isDragging := false;
      new;
      LayoutEndsAmong(ss, bouncerP, anchorP, otherP, centerParticle, bounds.h * 0.3, sqrt);
      assert forall q :: q in particles ==> q == bouncerP || q == anchorP || q == otherP || q == centerParticle;
      assert forall i, j :: 0 <= i < j < 4 ==> particles[i] != particles[j];
    }

    /** The recorded positions and masses are those of the particles, and
        cover every spring. */
    ghost predicate Agrees(pos: map<Particle, Vec>, mass: map<Particle, real>)
      reads particles`p, particles`m
    {
      Covers(springs, pos, mass) &&
      forall k :: 0 <= k < |particles| ==>
        particles[k] in pos && particles[k] in mass && pos[particles[k]] == particles[k].p && mass[particles[k]] == particles[k].m
    }

    lemma MapsAgree()
      requires Valid()
      ensures Agrees(PositionMap(particles), MassMap(particles))
    {
    }

    /** The gravity particle k feels at its recorded position. */
    ghost function GravityAt(k: nat, pos: map<Particle, Vec>, sqrt: real -> real): Vec
      requires k < |particles| && particles[k] in pos
    {
      PointGravityVector(pos[particles[k]], gravityPoint, gravityStrength, sqrt)
    }

    /** What all springs add to particle k's acceleration, for the
        positions and masses recorded in pos and mass. */
    ghost function SpringsOn(k: nat, pos: map<Particle, Vec>, mass: map<Particle, real>, sqrt: real -> real): Vec
      requires k < |particles|
    {
      SpringsAccel(springs, |springs|, particles[k], pos, mass, sqrt)
    }

    /** One spring's application, in terms of Contribution. */
    method ApplySpring(s: AppliedSpring, sqrt: real -> real, ghost pos: map<Particle, Vec>, ghost mass: map<Particle, real>)
      requires s.p1 in particles && s.p2 in particles && Agrees(pos, mass)
      modifies s.p1`a, s.p2`a
      ensures forall k :: 0 <= k < |particles| ==>
        particles[k].a == Add(old(particles[k].a), Contribution(s, particles[k], pos, mass, sqrt))
    {
      s.Apply(sqrt);
      forall k | 0 <= k < |particles|
        ensures particles[k].a == Add(old(particles[k].a), Contribution(s, particles[k], pos, mass, sqrt))
      {
        var q := particles[k];
        ContributionOfApply(s, q, pos, mass, sqrt);
        if q != s.p1 && q != s.p2 {
          assert q.a == old(q.a);
        }
      }
    }

    /** Applies every spring once, in order. */
    method ApplyAllSprings(sqrt: real -> real, ghost pos: map<Particle, Vec>, ghost mass: map<Particle, real>)
      requires SpringsLinked() && Agrees(pos, mass)
      modifies particles`a
      ensures Agrees(pos, mass)
      ensures forall k :: 0 <= k < |particles| ==>
        particles[k].a == Add(old(particles[k].a), SpringsOn(k, pos, mass, sqrt))
    {
      ghost var a0 := Accelerations(particles);
      for t := 0 to |springs|
        invariant Agrees(pos, mass)
        invariant forall k :: 0 <= k < |particles| ==>
          particles[k].a == Add(a0[k], SpringsAccel(springs, t, particles[k], pos, mass, sqrt))
      {
        ApplyNext(t, sqrt, pos, mass, a0);
      }
    }

    /** Iteration t of the spring loop: each particle, having gained the
        first t springs' contributions since a0, gains the next one. */
    method ApplyNext(t: nat, sqrt: real -> real, ghost pos: map<Particle, Vec>, ghost mass: map<Particle, real>,
                     ghost a0: seq<Vec>)
      requires t < |springs| && |a0| == |particles| && SpringsLinked() && Agrees(pos, mass)
      requires forall k :: 0 <= k < |particles| ==>
        particles[k].a == Add(a0[k], SpringsAccel(springs, t, particles[k], pos, mass, sqrt))
      modifies particles`a
      ensures Agrees(pos, mass)
      ensures forall k :: 0 <= k < |particles| ==>
        particles[k].a == Add(a0[k], SpringsAccel(springs, t + 1, particles[k], pos, mass, sqrt))
    {
      ApplySpring(springs[t], sqrt, pos, mass);
      forall k | 0 <= k < |particles|
        ensures particles[k].a == Add(a0[k], SpringsAccel(springs, t + 1, particles[k], pos, mass, sqrt))
      {
        AddAssociative(a0[k], SpringsAccel(springs, t, particles[k], pos, mass, sqrt),
                       Contribution(springs[t], particles[k], pos, mass, sqrt));
      }
    }

    /** The start of one iteration of processFrame's first loop: the particle
        forgets its acceleration and takes its gravity. */
    method ResetToGravity(particle: Particle, sqrt: real -> real)
      modifies particle`a
      ensures particle.a == GravityOn(particle, sqrt)
    {
      particle.a := Zero;
      var g := PointGravityVector(particle.p, gravityPoint, gravityStrength, sqrt);
      ApplyGravity(particle, g);
    }

    /** The first loop of processFrame with every spring applied once
        after all accelerations are reset: each particle ends with its
        gravity plus what the springs add. */
    method AccumulateForces(sqrt: real -> real)
      requires Valid()
      modifies particles`a
      ensures forall k :: 0 <= k < |particles| ==>
        particles[k].a == Add(GravityOn(particles[k], sqrt), SpringAccelOn(particles[k], sqrt))
    {
      ghost var pos, mass := PositionMap(particles), MassMap(particles);
      MapsAgree();
      ResetAllToGravity(sqrt, pos, mass);
      ApplyAllSprings(sqrt, pos, mass);
      assert forall k :: 0 <= k < |particles| ==>
        particles[k].a == Add(GravityAt(k, pos, sqrt), SpringsOn(k, pos, mass, sqrt));
      assert PositionMap(particles) == pos && MassMap(particles) == mass;
      RecordedIsCurrent(pos, mass, sqrt);
    }

    /** With pos and mass the current positions and masses, the recorded
        gravity and spring terms are the current ones. */
    lemma RecordedIsCurrent(pos: map<Particle, Vec>, mass: map<Particle, real>, sqrt: real -> real)
      requires Valid() && Agrees(pos, mass) && pos == PositionMap(particles) && mass == MassMap(particles)
      ensures forall k :: 0 <= k < |particles| ==>
        GravityAt(k, pos, sqrt) == GravityOn(particles[k], sqrt) && SpringsOn(k, pos, mass, sqrt) == SpringAccelOn(particles[k], sqrt)
    {
    }

    /** Every particle forgets its acceleration and takes its gravity. */
    method ResetAllToGravity(sqrt: real -> real, ghost pos: map<Particle, Vec>, ghost mass: map<Particle, real>)
      requires SpringsLinked() && Agrees(pos, mass)
      modifies particles`a
      ensures Agrees(pos, mass)
      ensures forall k :: 0 <= k < |particles| ==> particles[k].a == GravityAt(k, pos, sqrt)
    {
      for i := 0 to |particles|
        invariant Agrees(pos, mass)
        invariant forall k :: 0 <= k < i ==> particles[k].a == GravityAt(k, pos, sqrt)
      {
        ResetToGravity(particles[i], sqrt);
      }
    }

    /** The first loop of processFrame as written: the spring loop sits
        inside the particle loop, so every spring is applied once per
        particle and particle k (counting from 0) keeps the last N - k of
        those applications, N being the number of particles. */
    method AccumulateForcesAsWritten(sqrt: real -> real)
      requires Valid()
      modifies particles`a
      ensures forall k :: 0 <= k < |particles| ==> particles[k].a == AsWrittenAccel(k, sqrt)
    {
      ghost var pos, mass := PositionMap(particles), MassMap(particles);
      MapsAgree();
      var n := |particles|;
      for i := 0 to n
        invariant Agrees(pos, mass)
        invariant forall k :: 0 <= k < n ==>
          particles[k].a == AfterRounds(old(particles[k].a), GravityAt(k, pos, sqrt), SpringsOn(k, pos, mass, sqrt), k, i)
      {
        label head:
        AsWrittenRound(i, sqrt, pos, mass);
        forall k | 0 <= k < n
          ensures particles[k].a ==
                  AfterRounds(old(particles[k].a), GravityAt(k, pos, sqrt), SpringsOn(k, pos, mass, sqrt), k, i + 1)
        {
          RoundStep(old(particles[k].a), GravityAt(k, pos, sqrt), SpringsOn(k, pos, mass, sqrt), k, i,
                    old@head(particles[k].a), particles[k].a);
        }
      }
      assert PositionMap(particles) == pos && MassMap(particles) == mass;
    }

    /** One iteration of the as-written loop: particle i is reset to its
        gravity, then every spring is applied once more to everyone. */
    method AsWrittenRound(i: nat, sqrt: real -> real, ghost pos: map<Particle, Vec>, ghost mass: map<Particle, real>)
      requires Linked() && Agrees(pos, mass) && i < |particles|
      modifies particles`a
      ensures Agrees(pos, mass)
      ensures forall k :: 0 <= k < |particles| ==>
        particles[k].a == Add(if k == i then GravityAt(i, pos, sqrt) else old(particles[k].a), SpringsOn(k, pos, mass, sqrt))
    {
      ResetToGravity(particles[i], sqrt);
      ApplyAllSprings(sqrt, pos, mass);
    }

    /** getMouseClick: with the left button (alone) held, the click's
        world point if it lies in the bounds; nothing otherwise. */
    function GetMouseClick(input: MouseInput): (r: Option<Vec>)
      requires input.screenToWorld.Valid()
      reads this`bounds
      ensures r.Some? <==> input.lastMouseEvent.Some? && input.lastMouseEvent.value.buttons == 1 &&
                           bounds.Contains(WorldPoint(input))
      ensures r.Some? ==> r.value == WorldPoint(input) && bounds.Contains(r.value)
    {
      match input.lastMouseEvent
      case None => None
      case Some(e) =>
        if e.buttons == 1 then
          var screenPoint := ScreenPoint(e, input.rectLeft, input.rectTop);
          var mp := input.screenToWorld.ApplyToVector2(screenPoint);
          if bounds.Contains(mp) then Some(mp) else None
        else None
    }

    /** maybeHandleDrag: a click (from getMouseClick) within DragRadius of
        the bouncer stops it and moves it there. */
    method MaybeHandleDrag(input: MouseInput, sqrt: real -> real) returns (dragged: bool)
      requires input.screenToWorld.Valid()
      modifies this`isDragging, bouncer`v, bouncer`p, bouncer`beingDragged
      ensures var mouse := GetMouseClick(input);
              dragged <==> mouse.Some? && DistanceTo(mouse.value, old(bouncer.p), sqrt) <= DragRadius
      ensures dragged ==> bouncer.v == Zero && bouncer.p == GetMouseClick(input).value && bouncer.beingDragged
      ensures isDragging == dragged
      ensures !dragged ==> bouncer.v == old(bouncer.v) && bouncer.p == old(bouncer.p) &&
                           bouncer.beingDragged == old(bouncer.beingDragged)
    {
      var mouse := GetMouseClick(input);
      if mouse.None? {
        isDragging := false;
        return false;
      }
      if DistanceTo(mouse.value, bouncer.p, sqrt) > DragRadius {
        isDragging := false;
        return false;
      }
      isDragging := true;
      bouncer.v := Zero;
      bouncer.p := mouse.value;
      bouncer.beingDragged := true;
      dragged := true;
    }

    /** The second loop of processFrame: every particle not being dragged
        is damped and then takes an Euler step. */
    method Integrate(deltaT: real)
      requires Valid()
      modifies particles`a, particles`v, particles`p
      ensures forall k :: 0 <= k < |particles| ==>
        BodyOf(particles[k]) ==
          if particles[k].beingDragged then old(BodyOf(particles[k]))
          else Euler(old(Body(particles[k].p, damper.Damp(particles[k].v), particles[k].a)), deltaT)
    {
      for i := 0 to |particles|
        invariant forall k :: 0 <= k < i ==>
          BodyOf(particles[k]) ==
            if particles[k].beingDragged then old(BodyOf(particles[k]))
            else Euler(old(Body(particles[k].p, damper.Damp(particles[k].v), particles[k].a)), deltaT)
        invariant forall k :: i <= k < |particles| ==> BodyOf(particles[k]) == old(BodyOf(particles[k]))
      {
        var particle := particles[i];
        if particle.beingDragged {
          continue;
        }
        particle.v := damper.Damp(particle.v);
        DoEuler(particle, deltaT);
      }
    }

    /** processFrame as written: forces accumulated by the nested loops of
        AccumulateForcesAsWritten, so particle k feels its springs N - k
        times, then the drag check and the damped Euler step. */
    method ProcessFrame(deltaT: real, input: MouseInput, sqrt: real -> real)
      requires Valid() && input.screenToWorld.Valid()
      modifies this`isDragging, particles`a, particles`v, particles`p, particles`beingDragged
      ensures Valid()
      ensures var mouse := GetMouseClick(input);
        var grabbed := mouse.Some? && DistanceTo(mouse.value, old(bouncer.p), sqrt) <= DragRadius;
        isDragging == grabbed && bouncer.beingDragged == grabbed &&
        forall k :: 0 <= k < |particles| ==>
          var q := particles[k];
          var acc := old(AsWrittenAccel(k, sqrt));
          if q == bouncer && grabbed then
            BodyOf(q) == Body(mouse.value, Zero, acc)
          else if q != bouncer && old(q.beingDragged) then
            BodyOf(q) == old(Body(q.p, q.v, acc)) && q.beingDragged
          else
            BodyOf(q) == Euler(old(Body(q.p, damper.Damp(q.v), acc)), deltaT) && !q.beingDragged
    {
      ghost var mouse := GetMouseClick(input);
      ghost var grabbed := mouse.Some? && DistanceTo(mouse.value, bouncer.p, sqrt) <= DragRadius;
      AccumulateForcesAsWritten(sqrt);
      label forces:
      var dragged := MaybeHandleDrag(input, sqrt);
      bouncer.beingDragged := dragged;
      label drag:
      Integrate(deltaT);
      forall k | 0 <= k < |particles|
        ensures var q := particles[k];
          var acc := old(AsWrittenAccel(k, sqrt));
          if q == bouncer && grabbed then
            BodyOf(q) == Body(mouse.value, Zero, acc)
          else if q != bouncer && old(q.beingDragged) then
            BodyOf(q) == old(Body(q.p, q.v, acc)) && q.beingDragged
          else
            BodyOf(q) == Euler(old(Body(q.p, damper.Damp(q.v), acc)), deltaT) && !q.beingDragged
      {
        var q := particles[k];
        assert old@forces(q.a) == old(AsWrittenAccel(k, sqrt));
        if q != bouncer {
          var a := old@forces(q.a);
          assert old@drag(BodyOf(q)) == old(Body(q.p, q.v, a));
          assert q.beingDragged == old(q.beingDragged);
        }
      }
    }

    /** processFrame with the force pass corrected: every spring applied
        once per frame. */
    method ProcessFrameCorrected(deltaT: real, input: MouseInput, sqrt: real -> real)
      requires Valid() && input.screenToWorld.Valid()
      modifies this`isDragging, particles`a, particles`v, particles`p, particles`beingDragged
      ensures Valid()
      ensures var mouse := GetMouseClick(input);
        var grabbed := mouse.Some? && DistanceTo(mouse.value, old(bouncer.p), sqrt) <= DragRadius;
        isDragging == grabbed && bouncer.beingDragged == grabbed &&
        forall k :: 0 <= k < |particles| ==>
          var q := particles[k];
          var acc := old(Add(GravityOn(q, sqrt), SpringAccelOn(q, sqrt)));
          if q == bouncer && grabbed then
            BodyOf(q) == Body(mouse.value, Zero, acc)
          else if q != bouncer && old(q.beingDragged) then
            BodyOf(q) == old(Body(q.p, q.v, acc)) && q.beingDragged
          else
            BodyOf(q) == Euler(old(Body(q.p, damper.Damp(q.v), acc)), deltaT) && !q.beingDragged
    {
      ghost var mouse := GetMouseClick(input);
      ghost var grabbed := mouse.Some? && DistanceTo(mouse.value, bouncer.p, sqrt) <= DragRadius;
      AccumulateForces(sqrt);
      label forces:
      var dragged := MaybeHandleDrag(input, sqrt);
      bouncer.beingDragged := dragged;
      label drag:
      Integrate(deltaT);
      forall k | 0 <= k < |particles|
        ensures var q := particles[k];
          var acc := old(Add(GravityOn(q, sqrt), SpringAccelOn(q, sqrt)));
          if q == bouncer && grabbed then
            BodyOf(q) == Body(mouse.value, Zero, acc)
          else if q != bouncer && old(q.beingDragged) then
            BodyOf(q) == old(Body(q.p, q.v, acc)) && q.beingDragged
          else
            BodyOf(q) == Euler(old(Body(q.p, damper.Damp(q.v), acc)), deltaT) && !q.beingDragged
      {
        var q := particles[k];
        assert old@forces(q.a) == old(Add(GravityOn(q, sqrt), SpringAccelOn(q, sqrt)));
        if q != bouncer {
          var a := old@forces(q.a);
          assert old@drag(BodyOf(q)) == old(Body(q.p, q.v, a));
          assert q.beingDragged == old(q.beingDragged);
        }
      }
    }
  }

  // ---------------------------------------------------------------------
  // Properties

  /** Contribution names, for each particle, what AppliedSpring.Apply adds
      to its acceleration. */
  lemma ContributionOfApply(s: AppliedSpring, q: Particle, pos: map<Particle, Vec>,
                            mass: map<Particle, real>, sqrt: real -> real)
    requires s.p1 in pos && s.p2 in pos && q in mass && mass[q] != 0.0
    requires pos[s.p1] == s.p1.p && pos[s.p2] == s.p2.p && mass[q] == q.m
    ensures q == s.p1 ==> Contribution(s, q, pos, mass, sqrt) == Share(s.spring, true, s.p1 == s.p2, s.p1.p, s.p2.p, s.p1.m, sqrt)
    ensures q == s.p2 ==> Contribution(s, q, pos, mass, sqrt) == Share(s.spring, s.p1 == s.p2, true, s.p1.p, s.p2.p, s.p2.m, sqrt)
    ensures q != s.p1 && q != s.p2 ==> Contribution(s, q, pos, mass, sqrt) == Zero
  {
  }

  /** Particle k's acceleration after i rounds of the as-written loop,
      a0 being where it started, g its gravity and c what the springs add
      to it: if k < i it was reset to g in round k and has gained c i - k
      times since; otherwise it has gained c i times. */
  function AfterRounds(a0: Vec, g: Vec, c: Vec, k: int, i: int): Vec {
    if k < i then Add(g, Scale(c, (i - k) as real)) else Add(a0, Scale(c, i as real))
  }

  /** Round i on one particle: particle i is reset to g, then every
      particle gains c. */
  lemma RoundStep(a0: Vec, g: Vec, c: Vec, k: int, i: int, before: Vec, after: Vec)
    requires 0 <= i && before == AfterRounds(a0, g, c, k, i)
    requires after == Add(if k == i then g else before, c)
    ensures after == AfterRounds(a0, g, c, k, i + 1)
  {
    if k < i {
      OneMoreApplication(g, c, i - k);
    } else if k == i {
      OneMoreApplication(g, c, 0);
    } else {
      OneMoreApplication(a0, c, i);
    }
  }

  lemma AddAssociative(a: Vec, b: Vec, c: Vec)
    ensures Add(Add(a, b), c) == Add(a, Add(b, c))
  {
  }

  /** One more application of the same spring acceleration c. */
  lemma OneMoreApplication(g: Vec, c: Vec, n: int)
    ensures Add(Add(g, Scale(c, n as real)), c) == Add(g, Scale(c, (n + 1) as real))
  {
  }

  /** Applying the springs N - k times instead of once changes the result
      exactly when N - k >= 2 and the springs pull at all. */
  lemma AsWrittenOvercounts(g: Vec, c: Vec, times: nat)
    requires times >= 1
    ensures Add(g, Scale(c, times as real)) == Add(g, c) <==> times == 1 || c == Zero
  {
    if times >= 2 && c != Zero {
      if c.x != 0.0 {
        assert c.x * (times as real) != c.x;
      } else {
        assert c.y * (times as real) != c.y;
      }
    }
  }

  /** Newton's third law for one spring between distinct particles: the
      mass-weighted accelerations it adds cancel. */
  lemma ShareBalanced(spring: Spring, x1: Vec, x2: Vec, m1: real, m2: real, sqrt: real -> real)
    requires m1 != 0.0 && m2 != 0.0
    ensures Add(Scale(Share(spring, true, false, x1, x2, m1, sqrt), m1),
                Scale(Share(spring, false, true, x1, x2, m2, sqrt), m2)) == Zero
  {
    var f := spring.Force(x1, x2, sqrt);
    assert (f.x / m1) * m1 == f.x && (f.y / m1) * m1 == f.y;
    assert (-f.x / m2) * m2 == -f.x && (-f.y / m2) * m2 == -f.y;
  }

  /** The point-gravity vector has length gravityStrength, and is zero at
      the gravity point itself. */
  lemma GravityVectorLength(p: Vec, gravityLocation: Vec, strength: real, sqrt: real -> real)
    requires IsSqrt(sqrt) && strength >= 0.0
    ensures p == gravityLocation ==> PointGravityVector(p, gravityLocation, strength, sqrt) == Zero
    ensures p != gravityLocation ==> Length(PointGravityVector(p, gravityLocation, strength, sqrt), sqrt) == strength
  {
    var d := Sub(gravityLocation, p);
    NormalizeUnit(d, sqrt);
    if p != gravityLocation {
      assert d != Zero;
      var u := Normalize(d, sqrt);
      SqrtOfSquare(sqrt, 1.0, 1.0);
      assert Length(u, sqrt) == 1.0;
      LengthOfScale(u, strength, sqrt);
    } else {
      assert d == Zero;
    }
  }

  /** doEuler is semi-implicit: the position moves with the new velocity,
      so it gains v*dt + a*dt^2; the stored acceleration becomes a*dt. */
  lemma EulerSemiImplicit(b: Body, dtMs: real)
    ensures var ts := dtMs / 1000.0;
      Euler(b, dtMs).v == Add(b.v, Scale(b.a, ts)) &&
      Euler(b, dtMs).p == Add(Add(b.p, Scale(b.v, ts)), Scale(b.a, ts * ts)) &&
      Euler(b, dtMs).a == Scale(b.a, ts)
  {
    var ts := dtMs / 1000.0;
    var e := Euler(b, dtMs);
    assert e.v == Vec(b.v.x + b.a.x * ts, b.v.y + b.a.y * ts);
    assert e.p == Vec(b.p.x + e.v.x * ts, b.p.y + e.v.y * ts);
    assert (b.v.x + b.a.x * ts) * ts == b.v.x * ts + b.a.x * (ts * ts);
    assert (b.v.y + b.a.y * ts) * ts == b.v.y * ts + b.a.y * (ts * ts);
  }

  /** A zero time step leaves position and velocity and clears the stored
      acceleration. */
  lemma EulerZeroStep(b: Body)
    ensures Euler(b, 0.0) == Body(b.p, b.v, Zero)
  {
  }
}
