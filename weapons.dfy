/** The player's weapons of ai-spaceinvad/src/weapons.ts. A laser weapon
    keeps the projectiles it fired and moves them once per frame; the beam
    keeps at most one beam, which lives for a fixed time. */
module Weapons {
  import opened Constants

  /** Double-laser projectiles behave exactly as basic ones, so two kinds
      suffice: a momentum laser also drifts sideways and leaves the screen
      at the sides too. */
  datatype LaserKind = Straight | Momentum

  /** A laser projectile; only its position changes after it is fired. */
  class Laser {
    const kind: LaserKind
    var x: real
    var y: real
    const width: real
    const height: real
    const color: string
    const speed: real
    const speedX: real

    constructor(kind: LaserKind, x: real, y: real, speed: real, speedX: real)
      ensures this.kind == kind && this.x == x && this.y == y && this.speed == speed
      ensures this.speedX == (if kind == Momentum then speedX else 0.0)
      ensures width == LaserWidth && height == LaserHeight && color == PlayerLaserColor
    {
      this.kind := kind;
      this.x := x;
      this.y := y;
      width := LaserWidth;
      height := LaserHeight;
      color := PlayerLaserColor;
      this.speed := speed;
      this.speedX := if kind == Momentum then speedX else 0.0;
    }

    /** update: one frame of flight. */
    method Update()
      modifies this`x, this`y
      ensures y == old(y) + speed
      ensures x == old(x) + DriftX()
    {
      y := y + speed;
      if kind == Momentum {
        x := x + speedX;
      }
    }

    /** The sideways distance per frame: only a momentum laser drifts. */
    function DriftX(): real {
      if kind == Momentum then speedX else 0.0
    }

    /** isOffScreen: gone past the top, and for a momentum laser also past
        either side of the canvas. */
    predicate IsOffScreen()
      reads this`x, this`y
    {
      y + height < 0.0 || (kind == Momentum && (x + width < 0.0 || x > CanvasWidth))
    }
  }

  /** No projectile is listed twice. */
  ghost predicate Distinct(ps: seq<Laser>) {
    forall i, j :: 0 <= i < j < |ps| ==> ps[i] != ps[j]
  }

  /** The filter of clearOffScreenProjectiles: the projectiles still on
      screen, in their order. */
  function OnScreen(ps: seq<Laser>): (r: seq<Laser>)
    reads ps
    ensures |r| <= |ps|
    ensures forall i :: 0 <= i < |r| ==> r[i] in ps && !r[i].IsOffScreen()
    ensures forall i :: 0 <= i < |ps| && !ps[i].IsOffScreen() ==> ps[i] in r
  {
    if |ps| == 0 then []
    else (if ps[0].IsOffScreen() then [] else [ps[0]]) + OnScreen(ps[1..])
  }

  /** Filtering keeps order: it can be done piecewise. */
  lemma {:induction false} OnScreenAppend(a: seq<Laser>, b: seq<Laser>)
    ensures OnScreen(a + b) == OnScreen(a) + OnScreen(b)
  {
    if |a| == 0 {
      assert a + b == b;
    } else {
      assert (a + b)[1..] == a[1..] + b;
      OnScreenAppend(a[1..], b);
    }
  }

  /** Filtering twice is filtering once. */
  lemma {:induction false} OnScreenIdempotent(ps: seq<Laser>)
    ensures OnScreen(OnScreen(ps)) == OnScreen(ps)
  {
    if |ps| > 0 {
      var head := if ps[0].IsOffScreen() then [] else [ps[0]];
      OnScreenIdempotent(ps[1..]);
      OnScreenAppend(head, OnScreen(ps[1..]));
      assert OnScreen(head) == head;
    }
  }

  /** A filtered list of distinct projectiles is distinct. */
  lemma {:induction false} OnScreenDistinct(ps: seq<Laser>)
    requires Distinct(ps)
    ensures Distinct(OnScreen(ps))
  {
    if |ps| > 0 {
      assert Distinct(ps[1..]);
      OnScreenDistinct(ps[1..]);
      assert ps[0] !in ps[1..];
      assert ps[0] !in OnScreen(ps[1..]);
    }
  }

  datatype WeaponKind = BasicLaser | DoubleLaser | MomentumLaser

  /** The projectile column for a player at x: the player's middle. */
  function MuzzleX(x: real): real {
    x + PlayerWidth / 2.0 - LaserWidth / 2.0
  }

  /** BasicLaser, DoubleLaser and MomentumLaser: weapons that keep a list
      of the projectiles they fired. */
  class LaserWeapon {
    const kind: WeaponKind
    var projectiles: seq<Laser>

    ghost predicate Valid()
      reads this
    {
      Distinct(projectiles)
    }

    constructor(kind: WeaponKind)
      ensures Valid() && this.kind == kind && projectiles == []
    {
      this.kind := kind;
      projectiles := [];
    }

    /** fire: new projectiles at the player's middle, moving up at the
        player laser speed, appended to the list and returned. A double
        laser fires two, 15 to either side; a momentum laser inherits half
        the player's sideways speed. */
    method Fire(x: real, y: real, playerSpeedX: real) returns (fired: seq<Laser>)
      requires Valid()
      modifies this`projectiles
      ensures Valid() && projectiles == old(projectiles) + fired
      ensures forall p :: p in fired ==> fresh(p) && p.y == y && p.speed == PlayerLaserSpeed
      ensures kind == BasicLaser ==> |fired| == 1 && fired[0].x == MuzzleX(x) && fired[0].kind == Straight
      ensures kind == DoubleLaser ==>
                |fired| == 2 && fired[0].x == MuzzleX(x) - 15.0 && fired[1].x == MuzzleX(x) + 15.0 &&
                fired[1].x - fired[0].x == 30.0 && fired[0].kind == Straight && fired[1].kind == Straight
      ensures kind == MomentumLaser ==>
                |fired| == 1 && fired[0].x == MuzzleX(x) && fired[0].kind == Momentum &&
                fired[0].speedX == playerSpeedX * 0.5
    {
      match kind {
        case BasicLaser =>
          var projectile := new Laser(Straight, MuzzleX(x), y, PlayerLaserSpeed, 0.0);
          fired := [projectile];
        case DoubleLaser =>
          var offset := 15.0;
          var projectile1 := new Laser(Straight, MuzzleX(x) - offset, y, PlayerLaserSpeed, 0.0);
          var projectile2 := new Laser(Straight, MuzzleX(x) + offset, y, PlayerLaserSpeed, 0.0);
          fired := [projectile1, projectile2];
        case MomentumLaser =>
          var projectile := new Laser(Momentum, MuzzleX(x), y, PlayerLaserSpeed, playerSpeedX * 0.5);
          fired := [projectile];
      }
      projectiles := projectiles + fired;
    }

    /** updateProjectiles: every projectile flies one frame, then the ones
        that left the screen are dropped. */
    method UpdateProjectiles()
      requires Valid()
      modifies this`projectiles, projectiles
      ensures Valid()
      ensures forall k :: 0 <= k < |old(projectiles)| ==>
                old(projectiles)[k].y == old(projectiles[k].y) + old(projectiles)[k].speed &&
                old(projectiles)[k].x == old(projectiles[k].x) + old(projectiles)[k].DriftX()
      ensures projectiles == OnScreen(old(projectiles))
    {
      for i := 0 to |projectiles|
        invariant projectiles == old(projectiles) && Valid()
        invariant forall k :: 0 <= k < i ==>
                    projectiles[k].y == old(projectiles[k].y) + projectiles[k].speed &&
                    projectiles[k].x == old(projectiles[k].x) + projectiles[k].DriftX()
        invariant forall k :: i <= k < |projectiles| ==>
                    projectiles[k].y == old(projectiles[k].y) && projectiles[k].x == old(projectiles[k].x)
      {
        projectiles[i].Update();
      }
      ClearOffScreenProjectiles();
    }

    /** clearOffScreenProjectiles: keep exactly the projectiles on screen. */
    method ClearOffScreenProjectiles()
      requires Valid()
      modifies this`projectiles
      ensures Valid() && projectiles == OnScreen(old(projectiles))
    {
      OnScreenDistinct(projectiles);
      projectiles := OnScreen(projectiles);
    }
  }

  /** The frames per second the beam assumes. */
  const FrameMs: real := 1000.0 / 30.0

  /** A beam: fixed in place, it lives `duration` milliseconds of frames. */
  class BeamProjectile {
    const x: real
    var y: real
    const width: real
    const height: real
    const color: string
    const speed: real
    const duration: real
    var timeAlive: real
    var isActive: bool
    var topY: real

    constructor(x: real, y: real, duration: real)
      ensures this.x == x && this.y == y && this.duration == duration
      ensures width == LaserWidth && height == 0.0 && color == "cyan" && speed == 0.0
      ensures timeAlive == 0.0 && isActive && topY == 0.0
    {
      this.x := x;
      this.y := y;
      width := LaserWidth;
      height := 0.0;
      color := "cyan";
      speed := 0.0;
      this.duration := duration;
      timeAlive := 0.0;
      isActive := true;
      topY := 0.0;
    }

    /** update: one frame older; inactive from the frame its age reaches
        the duration, and never active again. */
    method Update()
      modifies this`timeAlive, this`isActive
      ensures timeAlive == old(timeAlive) + FrameMs
      ensures isActive <==> old(isActive) && timeAlive < duration
    {
      timeAlive := timeAlive + FrameMs;
      if timeAlive >= duration {
        isActive := false;
      }
    }

    predicate IsOffScreen()
      reads this`isActive
    {
      !isActive
    }

    method SetEndY(y: real)
      modifies this`topY
      ensures topY == y
    {
      topY := y;
    }

    method SetStartY(y: real)
      modifies this`y
      ensures this.y == y
    {
      this.y := y;
    }
  }

  /** The beam weapon: at most one beam at a time. */
  class Beam {
    const duration: real
    var beam: BeamProjectile?

    constructor()
      ensures duration == 200.0 && beam == null
    {
      duration := 200.0;
      beam := null;
    }

    /** fire: a new beam at the player's middle when there is none or it
        has gone out; otherwise nothing. */
    method Fire(x: real, y: real, playerSpeedX: real) returns (fired: seq<BeamProjectile>)
      modifies this`beam
      ensures old(beam) == null || !old(beam.isActive) ==>
                beam != null && fresh(beam) && fired == [beam] &&
                beam.x == MuzzleX(x) && beam.y == y && beam.duration == duration && beam.isActive && beam.timeAlive == 0.0
      ensures old(beam) != null && old(beam.isActive) ==> fired == [] && beam == old(beam)
    {
      if beam == null || !beam.isActive {
        beam := new BeamProjectile(MuzzleX(x), y, duration);
        return [beam];
      }
      return [];
    }

    /** updateProjectiles: the beam ages one frame and is dropped once
        inactive. */
    method UpdateProjectiles()
      modifies this`beam, beam
      ensures old(beam) == null ==> beam == null
      ensures old(beam) != null ==>
                old(beam).timeAlive == old(beam.timeAlive) + FrameMs &&
                (old(beam).isActive <==> old(beam.isActive) && old(beam).timeAlive < old(beam.duration)) &&
                beam == (if old(beam).isActive then old(beam) else null)
    {
      if beam != null {
        beam.Update();
        if !beam.isActive {
          beam := null;
        }
      }
    }

    function GetActiveBeam(): BeamProjectile?
      reads this`beam
    {
      beam
    }
  }

  /** A fresh 200 ms beam is active for its first five frames and goes out
      on the sixth (exact arithmetic). */
  lemma BeamLastsSixFrames()
    ensures 5.0 * FrameMs < 200.0 && 6.0 * FrameMs >= 200.0
  {
  }
}
