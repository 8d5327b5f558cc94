# Game-kernel models in Dafny

This project models the deterministic core of a set of small browser games and
graphics demos written in TypeScript, and proves properties of that model.

- **2D math kernel** (`part/src/math`). This covers:
  - `Vec2` arithmetic, both the in-place methods and the free functions;
  - axis-aligned `Rect` predicates;
  - the `Ray2` point and rectangle hit tests, including the degenerate, horizontal and vertical branches, with JavaScript's division by zero;
  - `Circle` and `CircleUnion`: overlap filtering, containment and the area-weighted pick;
  - Hooke `Spring` with a multiplicative `Damper`;
  - the Euler helpers in `physics.ts`;
  - `Particle` state updates;
  - the spring particle system's force accumulation and semi-implicit integrator;
  - `Matrix3` multiply, affine apply and inverse.
- **Colour and projection**:
  - `Color` hex decoding and encoding, with range-checked brightness scaling;
  - the perspective `projectRect`;
  - `BgRect` centre, update and copy bookkeeping.
- **Tile grids**:
  - the isometric `World` elevation board: bounded get and set, clamped single, global and flood-fill edits, and 90° rotation;
  - the `IsometricContext` tile-size index and the iso/screen mapping;
  - the `rlmap` character `Map`, and the room and corridor drawing of its `Generator`.
- **Space-invaders rules**:
  - the weapons and their projectiles, including the `Beam` state machine;
  - the enemy formation and the barrier health grids;
  - box collision, barrier damage and projectile culling;
  - the enemy march state machine and the level step.

Numbers are modelled as exact `real`s. Screen coordinates and grid indices are
modelled as `int`s. `Math.sqrt` is a parameter `sqrt` constrained by
`Vectors.IsSqrt`. Every `Math.random()` draw is a parameter: `u`, `rNum`,
`draws`, `rolls` or `picks`, in the range the source's caller gives it.

Objects whose fields the source updates in place are classes with `modifies`
frames:
- `Vec2`, `Ray2`, `Particle`, `Color`, `BgRect`, `World`, `IsometricContext`;
- `Map`, `SpringParticleSystem`, the weapons, `GameState`.

Records the source never changes are datatypes, for example `Matrix3`, `Rect`,
`Circle` and `Tile`.

The source also changes enemies, barriers and enemy lasers in place:
- `enemy.position.y` and `enemy.position.x` in `handleEnemyMovement`;
- a barrier's health cell in `damageBarrier`;
- `projectileArray[i].y` in `moveProjectiles`.

The model holds these as values (`Enemy`, `Barrier`, `Shot`) in `GameState`'s
lists, and each such operation replaces the list element. This matches the
source because no enemy, barrier or laser is reachable from anywhere but its
list.

Where the static `Rect.intersects` disagrees with the rectangle tests, the model
follows the code. The code is strict, so edge-touching rectangles do not
intersect. The tests in `part/src/test/math/geometry/testRect.ts` expect
touching to count, but they call an instance method that `Rect.ts` does not
define.

Two helpers used by the modelled code are not part of this model:
- `Rect.fromV2wh`, which `Ray.ts` calls, is taken to be `Rect(p.x, p.y, w, h)`.
- `sortaEqual` lives in `part/src/math/util.ts`, which is not part of this
  model. It is modelled as `|a - b| < tolerance`.

## Model

| member | source | states |
|---|---|---|
| Vectors.ProjectOnto | part/src/math/vec2.ts:101-107 | the parallel and perpendicular parts add up to P, the perpendicular part is orthogonal to Q, and the parallel part is Q scaled by dot(P, Q) / lenSq(Q) |
| Vectors.LenSqNonNegative | part/src/math/vec2.ts:78-80 | lenSq is never negative and is zero exactly for the zero vector |
| Vectors.LengthSquared | part/src/math/vec2.ts:74-76 | length is non-negative, its square is lenSq, and it is zero exactly for the zero vector |
| Vectors.LengthOfScale | part/src/math/vec2.ts:74-76 | scaling a vector by s scales its length by abs(s) |
| Vectors.DistanceSymmetric | part/src/math/vec2.ts:86-90 | distanceTo gives the same value both ways round |
| Vectors.NormalizeUnit | part/src/math/vec2.ts:65-72 | normalize keeps the zero vector, and otherwise yields the vector divided by its length, whose squared length is 1 |
| Vectors.AddSubInverse | part/src/math/vec2.ts:113-129 | sub undoes add and add undoes sub |
| Vec2Objects.Vec2.constructor | part/src/math/vec2.ts:5-8 | the new vector has the given coordinates |
| Vec2Objects.Vec2.Copy | part/src/math/vec2.ts:22-24 | copy is a fresh vector with equal coordinates |
| Vec2Objects.Vec2.Add | part/src/math/vec2.ts:26-30 | add changes this in place to the sum and returns this |
| Vec2Objects.Vec2.Sub | part/src/math/vec2.ts:32-36 | sub changes this in place to the difference and returns this |
| Vec2Objects.Vec2.Scale | part/src/math/vec2.ts:38-42 | scale multiplies both coordinates of this in place and returns this |
| Vec2Objects.Vec2.Mult | part/src/math/vec2.ts:44-46 | mult returns a fresh componentwise product and leaves this as it was |
| Vec2Objects.Vec2.Div | part/src/math/vec2.ts:48-52 | div divides this componentwise in place and returns this |
| Vec2Objects.Vec2.DivS | part/src/math/vec2.ts:54-58 | divS divides both coordinates of this in place and returns this |
| Vec2Objects.Vec2.PointAt | part/src/math/vec2.ts:60-63 | pointAt returns a fresh vector from this to other and does not mutate |
| Vec2Objects.Vec2.Normalize | part/src/math/vec2.ts:65-72 | normalize rescales this in place to the normalized vector, leaving a zero vector alone |
| Physics.ApplyAccelleration | part/src/math/physics.ts:4-8 | the target moves by accel times deltaMs / 1000, and accel is unchanged unless it is the target |
| Physics.ApplyMovement | part/src/math/physics.ts:10-13 | the point moves by v times deltaMs / 1000, and v is unchanged unless it is the point |
| Physics.AdvanceZero | part/src/math/physics.ts:4-13 | a zero time step leaves the vector where it was |
| Physics.AdvanceAdditive | part/src/math/physics.ts:4-13 | two steps of d1 and d2 milliseconds equal one step of d1 + d2 |
| Particles.Particle.constructor | part/src/particle-systems/Particle.ts:37-47 | position (x, y), the given velocity, mass, colour and draw size, zero acceleration, the default radius, and age 0 |
| Particles.Particle.FromArgs | part/src/particle-systems/Particle.ts:49-53 | a fresh particle built from the arguments, as the constructor builds it |
| Particles.Particle.Create | part/src/particle-systems/Particle.ts:55-57 | a fresh particle at the given point with mass 1 and the default draw size |
| Particles.Particle.SetX | part/src/particle-systems/Particle.ts:19-25 | the x setter changes only the x of p, and the getter then reads it back |
| Particles.Particle.SetY | part/src/particle-systems/Particle.ts:27-33 | the y setter changes only the y of p, and the getter then reads it back |
| Particles.Particle.Init | part/src/particle-systems/Particle.ts:59-72 | re-initialises position, velocity, mass, colour and size, clears acceleration and age, and returns this |
| Particles.Particle.IncAgeDeprecated | part/src/particle-systems/Particle.ts:74-77 | ageMs grows by deltaT and age by one frame |
| Particles.Particle.MoveAndUpdateAge | part/src/particle-systems/Particle.ts:79-83 | p moves by v over deltaT milliseconds, ageMs grows by deltaT and age by one |
| Particles.Particle.ApplyForce | part/src/particle-systems/Particle.ts:85-87 | v changes by f over deltaMs milliseconds |
| Particles.NormalizedSizeLinear | part/src/particle-systems/Particle.ts:89-95 | normalizedSize is linear in the projection and depends on its x only |
| JsNumbers.Div | part/src/math/geometry/Ray.ts:41-42 | division by a non-zero number is exact, and division by zero gives NaN for 0, +Infinity for a positive and -Infinity for a negative numerator |
| Rects.Square | part/src/math/geometry/Rect.ts:21-23 | a square has equal width and height, both the size, at the given corner |
| Rects.FromV2 | part/src/math/geometry/Rect.ts:25-27 | the rectangle spans from p0 to p1 |
| Rects.FromV2Corners | part/src/math/geometry/Rect.ts:25-27 | fromV2 of a rectangle's two corners gives the rectangle back |
| Rects.CenterIsMidpoint | part/src/math/geometry/Rect.ts:62-64 | the centre is the midpoint of the two corners |
| Rects.ContainsCorners | part/src/math/geometry/Rect.ts:72-74 | contains is closed: a rectangle with non-negative size contains both corners and its centre |
| Rects.ContainsBoundary | part/src/math/geometry/Rect.ts:72-74 | points on the edges are contained |
| Rects.IntersectsSymmetric | part/src/math/geometry/Rect.ts:29-44 | intersects does not depend on argument order |
| Rects.IntersectsIffSharedInterior | part/src/math/geometry/Rect.ts:29-44 | for rectangles with positive size, intersects holds exactly when some point lies strictly inside both |
| Rects.IntersectsImpliesClosed | part/src/math/geometry/Rect.ts:29-44 | intersecting rectangles also overlap as closed sets |
| Rects.TouchingNeverIntersects | part/src/math/geometry/Rect.ts:29-44 | rectangles that only share an edge do not intersect |
| Rects.TouchingEdgeDoesNotIntersect | part/src/math/geometry/Rect.ts:29-44 | the two touching squares of the rect tests do not intersect, although they overlap as closed sets |
| Springs.Damper.ApplyDampingForce | part/src/math/Spring.ts:46-49 | the velocity is scaled in place by 1 - dampingCoefficient and returned |
| Springs.Spring.CalculateForce | part/src/math/Spring.ts:14-33 | calculateForce returns a fresh vector equal to Force: the unit direction to the anchor scaled by k times the extension, then damped |
| Springs.ForceAlongDirection | part/src/math/Spring.ts:14-33 | for distinct points the force lies along the direction to the anchor, scaled by k times the extension over the length, times the damping factor |
| Springs.ForceAtRestLength | part/src/math/Spring.ts:14-33 | at the rest length the force is zero |
| Springs.ForceAtAnchor | part/src/math/Spring.ts:14-33 | a body on its anchor feels no force, since normalize leaves the zero vector alone |
| Springs.ForcePointsToAnchor | part/src/math/Spring.ts:14-33 | a stretched spring with k and damping factor non-negative pulls the body towards the anchor |
| Springs.DamperScalesForce | part/src/math/Spring.ts:28-30 | a damper scales the undamped force by 1 - c |
| Springs.ForceAntisymmetric | part/src/math/Spring.ts:14-33 | swapping body and anchor negates the force |
| SpringSystems.ApplyForce | part/src/particle-systems/spring-system.ts:236-241 | the particle's acceleration grows by the force divided by its mass, and nothing else changes |
| SpringSystems.ApplyGravity | part/src/particle-systems/spring-system.ts:244-246 | the particle's acceleration grows by the gravity vector |
| SpringSystems.GravityVectorLength | part/src/particle-systems/spring-system.ts:248-252 | the point-gravity vector has exactly the gravity strength as its length, and is zero at the gravity point itself |
| SpringSystems.DoEuler | part/src/particle-systems/spring-system.ts:259-267 | the particle's position, velocity and acceleration after one step are Euler of the old ones; like the source, the step also scales a in place |
| SpringSystems.EulerSemiImplicit | part/src/particle-systems/spring-system.ts:259-267 | the velocity is updated first and the position uses the new velocity, with the acceleration left scaled by dt / 1000 |
| SpringSystems.EulerZeroStep | part/src/particle-systems/spring-system.ts:259-267 | a zero step keeps position and velocity and zeroes the acceleration |
| SpringSystems.FindCenter | part/src/particle-systems/spring-system.ts:103-107 | the centre is the centroid: the offsets of the three points from it sum to zero |
| SpringSystems.AppliedSpring.constructor | part/src/particle-systems/spring-system.ts:10-14 | the applied spring holds the two particles and the spring |
| SpringSystems.AppliedSpring.Apply | part/src/particle-systems/spring-system.ts:16-24 | p1 gains the spring force divided by its mass and p2 the opposite force divided by its mass, both when p1 and p2 are the same particle |
| SpringSystems.ShareBalanced | part/src/particle-systems/spring-system.ts:16-24 | the forces apply puts on the two ends are equal and opposite |
| SpringSystems.ContributionOfApply | part/src/particle-systems/spring-system.ts:16-24 | what one spring adds to a particle's acceleration: its own share at either end, and nothing for a particle it does not touch |
| SpringSystems.LayoutEndsAmong | part/src/particle-systems/spring-system.ts:88-98 | every spring of the layout joins two of the four particles |
| SpringSystems.SpringParticleSystem.MakeSprings | part/src/particle-systems/spring-system.ts:88-98 | the six springs of the layout: the triangle bouncer-anchor, bouncer-other and other-anchor with the shared rest length, and the centre joined to each corner at its current distance |
| SpringSystems.SpringParticleSystem.MakeParticles | part/src/particle-systems/spring-system.ts:46-86 | four distinct fresh particles: the bouncer and the anchor above the centre line, the other at the given point and the centre particle at their centroid, with masses 1, 30, 1 and 1 |
| SpringSystems.SpringParticleSystem.constructor | part/src/particle-systems/spring-system.ts:43-101 | the system holds the four particles in the order bouncer, anchor, other, centre, the six-spring layout and the gravity point, and is not dragging |
| SpringSystems.SpringParticleSystem.MapsAgree | part/src/particle-systems/spring-system.ts:117-127 | the positions and masses read at the start of the frame agree with the particles |
| SpringSystems.SpringParticleSystem.ApplySpring | part/src/particle-systems/spring-system.ts:16-24 | applying one spring adds its contribution to every particle's acceleration |
| SpringSystems.SpringParticleSystem.ApplyAllSprings | part/src/particle-systems/spring-system.ts:124-126 | one pass over the springs adds, to each particle, the sum of all springs' contributions |
| SpringSystems.SpringParticleSystem.ApplyNext | part/src/particle-systems/spring-system.ts:124-126 | one more spring extends every particle's running sum by that spring's contribution |
| SpringSystems.SpringParticleSystem.ResetToGravity | part/src/particle-systems/spring-system.ts:118-121 | the acceleration is reset to zero and then set to the point gravity of the particle |
| SpringSystems.SpringParticleSystem.ResetAllToGravity | part/src/particle-systems/spring-system.ts:117-122 | every particle's acceleration is its point gravity |
| SpringSystems.SpringParticleSystem.AccumulateForces | part/src/particle-systems/spring-system.ts:117-127 | corrected force pass: each particle ends with its point gravity plus the accelerations of all springs, each applied once |
| SpringSystems.SpringParticleSystem.RecordedIsCurrent | part/src/particle-systems/spring-system.ts:117-127 | the gravity and spring sums computed from the positions and masses recorded at the start of the frame are those of the current particles |
| SpringSystems.SpringParticleSystem.AccumulateForcesAsWritten | part/src/particle-systems/spring-system.ts:117-127 | the force pass as written: the spring loop runs inside the particle loop, so particle k ends with gravity plus (n - k) times its spring acceleration |
| SpringSystems.SpringParticleSystem.AsWrittenRound | part/src/particle-systems/spring-system.ts:117-127 | one iteration of the outer loop as written: particle i is reset to gravity and every particle then gains all spring contributions once more |
| SpringSystems.AsWrittenOvercounts | part/src/particle-systems/spring-system.ts:124-126 | adding a spring acceleration several times equals adding it once only when it is applied once or is zero |
| SpringSystems.SpringParticleSystem.GetMouseClick | part/src/particle-systems/spring-system.ts:160-190 | a point is returned exactly for a left-button event whose world point lies in the bounds, and it is that world point |
| SpringSystems.SpringParticleSystem.MaybeHandleDrag | part/src/particle-systems/spring-system.ts:142-158 | the drag starts exactly when a click lands within 0.2 of the bouncer; the bouncer then sits at the click, stopped and marked as dragged, and otherwise it is untouched |
| SpringSystems.SpringParticleSystem.Integrate | part/src/particle-systems/spring-system.ts:132-139 | every particle not being dragged has its velocity damped and then takes an Euler step; dragged ones keep their state |
| SpringSystems.SpringParticleSystem.ProcessFrame | part/src/particle-systems/spring-system.ts:113-140 | after a frame as written, the bouncer sits still at the click when grabbed; other particles already being dragged are frozen; every other particle k has taken a damped Euler step with its gravity plus N - k times its spring forces as its acceleration, N being the number of particles |
| SpringSystems.SpringParticleSystem.ProcessFrameCorrected | part/src/particle-systems/spring-system.ts:113-140 | the same frame with the force pass corrected: every other particle's acceleration is its gravity plus its spring forces once |
| Matrices.Matrix3.Identity | part/src/math/Matrix.ts:26-33 | the identity is a valid affine 3x3 matrix with ones exactly on the diagonal |
| Matrices.Matrix3.Multiply | part/src/math/Matrix.ts:35-51 | the triple loop builds exactly the row-by-column product of the two matrices |
| Matrices.MultiplyRow | part/src/math/Matrix.ts:38-48 | one pass of the outer loop yields row i of the product |
| Matrices.MultiplyEntry | part/src/math/Matrix.ts:41-45 | the innermost loop accumulates the dot product of row i of m1 with column j of m2 |
| Matrices.ProductEntry | part/src/math/Matrix.ts:41-44 | each entry of the product is the sum of the three terms m1[i][k] * m2[k][j] |
| Matrices.Matrix3.Adjugate | part/src/math/Matrix.ts:104-120 | the cofactor matrix the inverse scales is a valid 3x3 matrix |
| Matrices.Matrix3.Inverse | part/src/math/Matrix.ts:89-123 | inverse fails exactly when the determinant is zero, and otherwise returns a valid 3x3 matrix |
| Matrices.InverseEntries | part/src/math/Matrix.ts:102-120 | a successful inverse is the adjugate scaled by one over the determinant |
| Matrices.InverseRight | part/src/math/Matrix.ts:89-123 | a matrix times its inverse is the identity |
| Matrices.InverseLeft | part/src/math/Matrix.ts:89-123 | the inverse times the matrix is the identity |
| Matrices.OnlyZeroDeterminantFails | part/src/math/Matrix.ts:96-100 | a matrix that has any right inverse never makes inverse throw |
| Matrices.DetProduct | part/src/math/Matrix.ts:96 | the determinant of a product is the product of the determinants |
| Matrices.AdjugateRight | part/src/math/Matrix.ts:104-120 | a matrix times its adjugate is its determinant times the identity |
| Matrices.AdjugateLeft | part/src/math/Matrix.ts:104-120 | the adjugate times the matrix is the determinant times the identity |
| Matrices.NewAsWritten | part/src/math/Matrix.ts:18-24 | the constructor as written succeeds exactly when there are three rows and the first has three entries |
| Matrices.New | part/src/math/Matrix.ts:18-24 | the constructor as its error message intends succeeds exactly when all three rows have three entries |
| Matrices.AsWrittenAcceptsRaggedRows | part/src/math/Matrix.ts:21 | the as-written check accepts a matrix whose second and third rows are short |
| Matrices.NewRefinesAsWritten | part/src/math/Matrix.ts:21 | the intended check agrees with the written one wherever it succeeds, and they differ exactly on short second or third rows |
| Matrices.ProductIdentity | part/src/math/Matrix.ts:26-51 | the identity is a two-sided unit of multiply |
| Matrices.ProductAffine | part/src/math/Matrix.ts:35-51 | the product of two affine matrices (last row 0 0 1) is affine |
| Matrices.ApplyIdentity | part/src/math/Matrix.ts:76-87 | applying the identity leaves a vector unchanged |
| Matrices.ApplyProduct | part/src/math/Matrix.ts:76-87 | applying a product to a vector equals applying the two factors in turn, when the right factor is affine |
| Matrices.MultiplyExamples | part/src/test/math/testMatrix.ts:83-121 | the four products checked by the test suite have the expected entries |
| Matrices.ApplyExamples | part/src/test/math/testMatrix.ts:123-144 | the five vector transforms checked by the test suite have the expected results |
| Matrices.InverseExamples | part/src/test/math/testMatrix.ts:146-165 | the singular test matrix has no inverse, and the invertible one has the exact inverse whose decimals the test compares against |
| Rays.Ray2.constructor | part/src/math/geometry/Ray.ts:11 | a ray holds the origin and direction it was given |
| Rays.Ray2.From | part/src/math/geometry/Ray.ts:13-15 | from builds a fresh ray with the same origin and direction as its argument |
| Rays.Ray2.FromPoints | part/src/math/geometry/Ray.ts:17-19 | fromPoints builds a fresh ray starting at p0 whose direction is p1 - p0, so it is at p0 for t = 0 and at p1 for t = 1 |
| Rays.Ray2.Normalize | part/src/math/geometry/Ray.ts:21-24 | normalize returns the same ray, keeps its origin and makes a non-zero direction unit length; a zero direction stays zero |
| Rays.Ray2.IntersectsPoint | part/src/math/geometry/Ray.ts:29-63 | a zero direction gives null, and any parameter returned is a non-negative number |
| Rays.GetPointAccepted | part/src/math/geometry/Ray.ts:29-63 | for a non-zero direction, every point the ray reaches at a parameter t >= 0 is recognised with exactly that t |
| Rays.NearVerticalUsesOnlyY | part/src/math/geometry/Ray.ts:52-53 | when the x-direction is nearly zero only the y-coordinates decide, so a point anywhere on the horizontal line through q is accepted like q |
| Rays.Ray2.IntersectsRect | part/src/math/geometry/Ray.ts:69-133 | a zero direction never intersects, and a ray whose origin lies in the rectangle always does |
| Rays.GeneralCaseSound | part/src/math/geometry/Ray.ts:113-131 | when the general case accepts (both direction components away from zero), the ray really reaches a point of the rectangle |
| Rays.GeneralCaseCrossing | part/src/math/geometry/Ray.ts:126-131 | when the general case accepts from outside, the ray crosses the top or bottom edge within the rectangle's x-range |
| Rays.AxisTimesExact | part/src/math/geometry/Ray.ts:89-92 | the slab times computed for one axis are exactly the parameters at which that coordinate lies between the rectangle's edges |
| Rays.ForwardOverlapWitness | part/src/math/geometry/Ray.ts:126-131 | two slab intervals overlap at a non-negative parameter exactly when some t >= 0 lies in both |
| Rays.IntersectsRectSlabExact | part/src/math/geometry/Ray.ts:69-133 | the corrected slab test holds exactly when the direction is non-zero and the ray reaches a point of the rectangle at some t >= 0 |
| Rays.HorizontalRayAboveAccepted | part/src/math/geometry/Ray.ts:95-100 | intersectsRect as written accepts a horizontal ray passing above the rectangle, which the ray never touches |
| Rays.TiltedRayThroughMiddleRejected | part/src/math/geometry/Ray.ts:126-131 | intersectsRect as written rejects a tilted ray that passes through the middle of the rectangle at t = 10 |
| Circles.OnBaseline | part/src/math/geometry/Circle.ts:15-17 | the circle has the given radius and its centre straight above centerX |
| Circles.OnBaselineRestsOnLine | part/src/math/geometry/Circle.ts:10-17 | the circle touches the baseline at centerX and contains no point below it (y grows downwards) |
| Circles.ContainsIffWithinRadius | part/src/math/geometry/Circle.ts:19-23 | contains, which compares squared distances, holds exactly when the distance to the centre is at most the radius |
| Circles.IntersectsSymmetric | part/src/math/geometry/Circle.ts:25-30 | intersects does not depend on argument order |
| Circles.IntersectsIffSquared | part/src/math/geometry/Circle.ts:25-30 | intersects, which takes a square root, holds exactly when the squared centre distance is below the squared sum of radii |
| Circles.FilterSound | part/src/math/geometry/Circle.ts:48-79 | the filter returns distinct circles of the input; with at most one circle it returns the input, and otherwise every circle it returns intersects another input circle |
| Circles.FilterExact | part/src/math/geometry/Circle.ts:56-77 | with the inner skip limited to the circle itself, a circle is returned exactly when it intersects another circle |
| Circles.ScanFindsPartner | part/src/math/geometry/Circle.ts:60-70 | without the skip of added circles, the inner loop reports an overlap exactly when circle i intersects some later-scanned circle |
| Circles.SweepComplete | part/src/math/geometry/Circle.ts:56-77 | without the skip of added circles, the outer loop adds every circle that has a partner |
| Circles.SweepKeeps | part/src/math/geometry/Circle.ts:56-77 | the outer loop keeps added and the output list in step, and only ever adds circles that have a partner |
| Circles.ScanKeeps | part/src/math/geometry/Circle.ts:60-70 | the inner loop keeps the same bookkeeping invariant and only adds to what was added |
| Circles.ChainDropsThird | part/src/math/geometry/Circle.ts:61 | as written, the third of three chained circles is dropped although it intersects the second; without the skip it is kept |
| Circles.FilterOverlappingCircles | part/src/math/geometry/Circle.ts:48-79 | the loops return exactly the circles at the indices the filter function describes |
| Circles.ScanCircle | part/src/math/geometry/Circle.ts:59-70 | one run of the inner loop updates added, the output and hasOverlap as the inner-loop function does |
| Circles.CircleUnion.constructor | part/src/math/geometry/Circle.ts:44-46 | a union keeps exactly the circles the filter as written returns for its input, the skip of already added circles included, so FilterSound's guarantees carry over: distinct input circles, each intersecting another one |
| Circles.CircleUnion.Contains | part/src/math/geometry/Circle.ts:81-88 | a point is in the union exactly when some circle of it contains the point |
| Circles.CircleUnion.TotalArea | part/src/math/geometry/Circle.ts:90-96 | the total is the sum of pi r squared over the circles, and it is never negative |
| Circles.PrefixAreaMonotone | part/src/math/geometry/Circle.ts:108-117 | partial sums of the areas are non-negative and grow with the number of circles |
| Circles.PickAlwaysReaches | part/src/math/geometry/Circle.ts:110-120 | for u in [0, 1] the drawn area never exceeds the total, so the search always ends on some circle |
| Circles.CircleUnion.PickCircle | part/src/math/geometry/Circle.ts:98-121 | an empty union is an error and a single circle is always chosen; otherwise the chosen index is the first whose running area sum reaches u times the total, or the last circle |
| Circles.SumAreas | part/src/math/geometry/Circle.ts:108-109 | summing the mapped areas gives the total area of the circles |
| Circles.FirstReaching | part/src/math/geometry/Circle.ts:112-120 | the loop stops at the first circle whose running area sum reaches the target, or at the last circle |
| Colors.Round | part/src/Color.ts:42-44 | Math.round rounds to the nearest integer with halves rounded up |
| Colors.TrimStart | part/src/Color.ts:19-21 | parseInt skips leading white space: the trimmed string starts with a non-space |
| Colors.HexPrefix | part/src/Color.ts:19-21 | parseInt reads only the leading run of hexadecimal digits |
| Colors.HexDigitValue | part/src/Color.ts:19-21 | a hexadecimal digit has a value below 16 |
| Colors.HexChar | part/src/Color.ts:26-28 | toString(16) writes each value below 16 as the digit that parses back to it |
| Colors.HexDigits | part/src/Color.ts:26-28 | toString(16) of a natural number writes at least one hexadecimal digit |
| Colors.PadStart2 | part/src/Color.ts:26-28 | padStart(2, '0') brings a string to length two and leaves longer strings alone |
| Colors.Substring | part/src/Color.ts:19-21 | substring never returns more characters than the range asks for |
| Colors.SubstringPair | part/src/Color.ts:19-21 | a two-character substring inside the string is exactly those two characters |
| Colors.ParseTwoDigits | part/src/Color.ts:19-21 | parseInt of two hexadecimal digits is 16 times the first plus the second |
| Colors.ComponentHexOfByte | part/src/Color.ts:26-28 | a component in 0..255 is written as exactly two hexadecimal digits, high digit first |
| Colors.HexStringShape | part/src/Color.ts:25-30 | toHexStr of a colour in byte range is '#' followed by six digits |
| Colors.ParseByteHex | part/src/Color.ts:19-21 | parsing the two digits written for a byte gives the byte back |
| Colors.HexRoundTrip | part/src/Color.ts:18-30 | fromHex(toHexStr(c)) gives back every colour whose components are in 0..255 |
| Colors.HexRoundTripString | part/src/Color.ts:18-30 | toHexStr(fromHex(s)) gives back every string '#' followed by six lower-case hexadecimal digits |
| Colors.HexStringOfComponents | part/src/Color.ts:25-30 | the hex string is '#' followed by the three two-digit components |
| Colors.ComponentHexOfDigits | part/src/Color.ts:19-28 | two lower-case hexadecimal digits parse to a byte that is written back as the same digits |
| Colors.HexCharOfValue | part/src/Color.ts:26-28 | a lower-case hexadecimal digit is written back as itself |
| Colors.HashAndPairs | part/src/Color.ts:29 | a seven-character string starting with '#' is the '#' followed by its three pairs |
| Colors.NamedColourHex | part/src/Color.ts:55-56 | PINK is written #ffc0cb and GRAY #808080 |
| Colors.Color.constructor | part/src/Color.ts:8-12 | each component is the floor of the argument |
| Colors.Color.Copy | part/src/Color.ts:14-16 | copy returns a fresh colour with the same components |
| Colors.Color.FromHex | part/src/Color.ts:18-23 | fromHex builds a fresh colour exactly when all three components parse |
| Colors.Color.ScaleBrightness | part/src/Color.ts:32-46 | out-of-range components or brightness throw and change nothing; otherwise each component is rounded times the brightness in place and the same colour is returned |
| Colors.ScaleBrightnessOf | part/src/Color.ts:85-94 | the free scaleBrightness fails on the same inputs and otherwise returns a fresh scaled copy |
| Colors.ScaleBrightnessDeprecated | part/src/Color.ts:66-78 | the deprecated function fails on the same inputs and otherwise scales the colour in place |
| Colors.RoundScaledComponent | part/src/Color.ts:42-44 | scaling a byte by a brightness in [0, 1] gives a value between 0 and the byte |
| Colors.ScaleRgbDarkens | part/src/Color.ts:32-46 | a successful scaling stays in byte range and never raises a component |
| Colors.ScaleRgbErrors | part/src/Color.ts:34-39 | scaling fails exactly when a component is outside 0..255 or the brightness is outside [0, 1] |
| Colors.ScaleRgbEnds | part/src/Color.ts:32-46 | brightness 1 keeps the colour and brightness 0 gives black |
| Perspective.ProjectRect | part/src/gfx-demos/square-shooter/DrawRects.ts:94-116 | the corner moves toward the vanishing point by the scale cameraHeight / (cameraHeight + z), and width and height are multiplied by the same scale |
| Perspective.ProjectAtDepthZero | part/src/gfx-demos/square-shooter/DrawRects.ts:105-115 | at depth zero the rectangle comes back unchanged |
| Perspective.VanishingPointFixed | part/src/gfx-demos/square-shooter/DrawRects.ts:109-110 | a rectangle whose corner is the vanishing point keeps that corner |
| Perspective.ProjectIsHomothety | part/src/gfx-demos/square-shooter/DrawRects.ts:107-115 | the far corner and the centre move toward the vanishing point by the same scale as the near corner |
| Perspective.ProjectPreservesContainment | part/src/gfx-demos/square-shooter/DrawRects.ts:107-115 | for a positive scale, a point lies in the rectangle exactly when its projection lies in the projected rectangle |
| Perspective.AxisPreserved | part/src/gfx-demos/square-shooter/DrawRects.ts:109-113 | along one axis, scaling about the vanishing point keeps a coordinate within the projected interval exactly when it was within the original |
| Perspective.OrderPreserved | part/src/gfx-demos/square-shooter/DrawRects.ts:109-110 | scaling about a point by a positive factor keeps the order of coordinates |
| Perspective.UnitDepthHalves | part/src/test/TestBgRectStack.ts:117-134 | with camera height 1, depth 1 and the vanishing point at the origin, the unit square halves |
| BgRects.BgRect.constructor | part/src/gfx-demos/square-shooter/BgRect.ts:12-23 | the rectangle is centred on the given centre with the given sizes, and the other fields are as given |
| BgRects.BgRect.SetCenter | part/src/gfx-demos/square-shooter/BgRect.ts:33-36 | the centre setter moves the rectangle to the new centre and keeps its size |
| BgRects.BgRect.Rotation | part/src/gfx-demos/square-shooter/BgRect.ts:50-62 | rotation is 0 without an animation and the animation's value at the current age otherwise |
| BgRects.BgRect.Update | part/src/gfx-demos/square-shooter/BgRect.ts:116-123 | update moves the centre by v times deltaMs / 1000, keeps the size and adds deltaMs to the age |
| BgRects.BgRect.Copy | part/src/gfx-demos/square-shooter/BgRect.ts:46-48 | copy returns a fresh rectangle with equal fields and a fresh velocity vector |
| BgRects.CopyOf | part/src/gfx-demos/square-shooter/BgRect.ts:64-75 | the static copy has equal fields and a velocity that is a different object |
| BgRects.From | part/src/gfx-demos/square-shooter/BgRect.ts:77-93 | from builds a rectangle with the given centre, sizes, colour, depth and velocity, age 0 and no animation |
| BgRects.FromRect | part/src/gfx-demos/square-shooter/BgRect.ts:95-105 | fromRect keeps the rectangle exactly, so toRect_deprecated of it gives the rectangle back |
| BgRects.ToRectDeprecated | part/src/gfx-demos/square-shooter/BgRect.ts:107-114 | toRect_deprecated returns the rectangle the BgRect covers, with the same centre |
| BgRects.CenterRoundTrip | part/src/gfx-demos/square-shooter/BgRect.ts:22-27 | the centre getter gives back the centre the rectangle was built around |
| Worlds.Max0 | isometric/src/world.ts:151 | Math.max(0, e) is non-negative, at least e, and is either 0 or e |
| Worlds.ZeroBoard | isometric/src/world.ts:44-53 | the board has height rows of width zeros (none for a negative count) |
| Worlds.World.constructor | isometric/src/world.ts:33-35 | a new world has a zero board of the given size and no texture, hovered tile or centre |
| Worlds.World.InitBoard | isometric/src/world.ts:44-53 | the nested loops build exactly the zero board of the given size |
| Worlds.ZeroBoardGrows | isometric/src/world.ts:46-52 | pushing one more row of zeros extends the zero board by one row |
| Worlds.World.GetTile | isometric/src/world.ts:55-60 | getTile returns the cell exactly when the coordinates are in bounds, and null otherwise |
| Worlds.World.SetTile | isometric/src/world.ts:62-66 | setTile in bounds writes exactly that cell, and out of bounds changes nothing; the dimensions never change |
| Worlds.UpdatedChangesOneCell | isometric/src/world.ts:62-66 | writing one cell gives it the new value and leaves every other cell as it was |
| Worlds.World.GetActualCenter | isometric/src/world.ts:99-103 | the actual centre is the floor of half the width and half the height, and lies on the board when it is not empty |
| Worlds.World.GetCurrentCenter | isometric/src/world.ts:105-107 | the current centre is the stored one, or the actual centre when none is stored |
| Worlds.World.MoveCenter | isometric/src/world.ts:109-123 | the centre moves to the floor of the old current centre plus the deltas |
| Worlds.World.Recenter | isometric/src/world.ts:125-128 | recenter stores the actual centre |
| Worlds.World.ChangeElevation | isometric/src/world.ts:131-173 | a Single edit sets one in-bounds cell to max(0, old + delta); a Global edit raises every cell whose texel matches and does nothing without a texture in use; a Flood edit raises exactly the cells the flood visits; elevations stay non-negative |
| Worlds.World.GlobalEdit | isometric/src/world.ts:155-162 | the nested loops raise exactly the cells whose texel equals the target colour |
| Worlds.World.ApplyRaise | isometric/src/world.ts:166-168 | applying the flood callback to distinct cells raises exactly those cells, clamped at zero |
| Worlds.World.FloodIter | isometric/src/world.ts:175-213 | without a texture nothing is visited; otherwise the start is called first whatever its coordinates, every later cell is distinct, in bounds, shares the start texel and touches an earlier one, and every such neighbour of a called cell is called, so the calls are exactly the 4-connected region (CalledCellsAreReachable, ReachableCellsAreCalled) |
| Worlds.World.Visit | isometric/src/world.ts:192-211 | visiting a popped cell keeps the flood invariant and marks the cell visited |
| Worlds.World.PushNeighbors | isometric/src/world.ts:195-211 | the neighbour loop keeps the stack, pushes only adjacent floodable cells and leaves no unvisited floodable neighbour behind |
| Worlds.SkipKeeps | isometric/src/world.ts:187-190 | popping an already visited cell keeps the flood invariant |
| Worlds.FloodDone | isometric/src/world.ts:186-212 | when the stack runs empty the calls made are exactly the flood of the start |
| Worlds.CalledCellsAreReachable | isometric/src/world.ts:180-212 | every cell the flood visits is reached from the start by a path of adjacent in-bounds cells of the target texel |
| Worlds.ReachableCellsAreCalled | isometric/src/world.ts:180-212 | every cell reached by such a path is visited |
| Worlds.PathExtends | isometric/src/world.ts:202-210 | a flood path extended by an adjacent floodable cell is still a flood path |
| Worlds.SpanningAppend | isometric/src/world.ts:192-210 | each newly visited cell is adjacent to an earlier visited one, so the visits stay connected |
| Worlds.StackFedAfterPush | isometric/src/world.ts:202-210 | after the pushes, everything on the stack is the start or a floodable neighbour of a visited cell |
| Worlds.ClosedAfterVisit | isometric/src/world.ts:192-210 | after a visit, every floodable neighbour of a visited cell is visited or on the stack |
| Worlds.World.RotateWorld | isometric/src/world.ts:215-248 | the board becomes its clockwise or counter-clockwise rotation with the dimensions swapped, and a texture in use is rotated the same way |
| Worlds.TexelFollowsRotation | isometric/src/world.ts:217-243 | after rotating, each cell keeps the texel it had: board and texture turn together |
| Worlds.RotationsCancel | isometric/src/world.ts:239-244 | rotating clockwise then counter-clockwise, or the other way round, restores the board |
| Worlds.FourTurns | isometric/src/world.ts:239-241 | four clockwise turns restore the board |
| Worlds.ThreeTurns | isometric/src/world.ts:239-244 | three clockwise turns equal one counter-clockwise turn |
| Worlds.RotatedRectangular | isometric/src/world.ts:239-244 | a rotated rectangular board is rectangular |
| Worlds.Raised | isometric/src/world.ts:151-167 | raising a set of cells keeps the board's shape; RaisedStep relates it to one cell at a time |
| Worlds.RaisedNonNegative | isometric/src/world.ts:151-167 | raising cells with Math.max(0, ...) keeps a non-negative board non-negative |
| Worlds.RaisedStep | isometric/src/world.ts:158-160 | raising one more cell extends the set of raised cells by that cell |
| Worlds.World.SetHoveredTile | isometric/src/world.ts:259-262 | the hovered tile becomes the given point |
| Worlds.World.ClearHoveredTile | isometric/src/world.ts:263-266 | there is no hovered tile afterwards |
| Worlds.World.SetTexture | isometric/src/world.ts:275-285 | a texture is set and in use, and the board becomes a zero board of the image's size |
| Worlds.World.ClearTexture | isometric/src/world.ts:250-256 | the texture is gone and not in use |
| Worlds.World.Reset | isometric/src/world.ts:291-297 | reset clears the texture and restores the 16 by 16 zero board |
| Worlds.World.ChangeTileElevationBulk | isometric/src/world.ts:270-273 | a global edit raises exactly the cells whose texel matches the clicked one's when a texture is in use and changes nothing otherwise; a flood edit changes nothing without a texture and otherwise raises exactly the cells of the flood order from the clicked cell; the board keeps its size and stays non-negative if it was |
| IsoContexts.ValidSizes | isometric/src/iso-context.ts:16-22 | the valid sizes are (4k, 2k) for k = 1 to 32, in that order |
| IsoContexts.CalculateValidSizes | isometric/src/iso-context.ts:16-22 | the loop stepping width by 4 and height by 2 up to 128 by 64 lists exactly the valid sizes |
| IsoContexts.ValidSizesIncrease | isometric/src/iso-context.ts:16-22 | the sizes strictly increase in both width and height |
| IsoContexts.FindIndexOfWidth | isometric/src/iso-context.ts:45 | findIndex returns the first index with the given width, or -1 exactly when there is none |
| IsoContexts.IsometricContext.constructor | isometric/src/iso-context.ts:42-46 | the context starts on the size of width 64, which is index 15 |
| IsoContexts.IsometricContext.IncTileSize | isometric/src/iso-context.ts:24-31 | incTileSize moves to the next size unless already at the last |
| IsoContexts.IsometricContext.DecTileSize | isometric/src/iso-context.ts:33-40 | decTileSize moves to the previous size unless already at the first |
| IsoContexts.IndexStepsStayInRange | isometric/src/iso-context.ts:24-40 | the index stays within the list, saturates at both ends, and one step up and one step down undo each other away from the ends |
| IsoContexts.IsometricContext.TileSizeNow | isometric/src/iso-context.ts:48-51 | the selected tile is twice as wide as it is high, with a height between 2 and 64 |
| IsoContexts.IsometricContext.TileVertices | isometric/src/iso-context.ts:73-93 | the top face is one tile high and one tile wide, with v1 above v3 and v2 level with v4 |
| IsoContexts.IsometricContext.HeightOffsetsTopFace | isometric/src/iso-context.ts:78-92 | raising a tile shifts the four top-face corners up by zHeight times the tile height and leaves x and the side-face heights unchanged |
| IsoContexts.IsometricContext.ScreenToIsoOfTile | isometric/src/iso-context.ts:57-93 | every screen point inside the diamond of a tile at height 0 maps back to that tile |
| IsoContexts.IsometricContext.ScreenToIsoOfCorner | isometric/src/iso-context.ts:57-80 | the top corner of a tile at height 0, shifted by the base translation, maps back to that tile |
| IsoContexts.Unproject | isometric/src/iso-context.ts:64-65 | dividing by half the tile size undoes the projection of a board offset |
| Maps.Map.constructor | rlmap/src/map.ts:11-14 | a new map is a 20 by 20 grid of blank tiles in the default colours |
| Maps.Map.InitCharGrid | rlmap/src/map.ts:36-45 | the nested loops build a grid of gridHeight rows of gridWidth copies of the default tile |
| Maps.Map.SetTile | rlmap/src/map.ts:26-30 | setTile in range writes exactly that cell, after which getTile returns the new tile; out of range it changes nothing; the grid stays 20 by 20 |
| Maps.SetTileChangesOneCell | rlmap/src/map.ts:26-30 | writing one cell leaves every other cell of the 20 by 20 grid unchanged |
| Generators.OverlapSymmetric | rlmap/src/generator.ts:77-79 | doRectsOverlap does not depend on which room comes first |
| Generators.OverlapMeansRangesMeet | rlmap/src/generator.ts:77-79 | for non-negative sizes, rooms overlap exactly when their closed x-ranges and y-ranges meet, so touching rooms overlap |
| Generators.Generator.constructor | rlmap/src/generator.ts:7 | the generator keeps the grid size it is given |
| Generators.Generator.DrawRoom | rlmap/src/generator.ts:50-75 | every in-grid cell of the room's box gets its corner, edge or floor character in the drawing colours, and every other cell keeps its tile |
| Generators.Generator.DrawCorners | rlmap/src/generator.ts:56-59 | the four corner writes put the corner characters at the in-grid corners only |
| Generators.Generator.DrawSides | rlmap/src/generator.ts:62-69 | the two edge loops add the horizontal and vertical edges on top of the corners |
| Generators.Generator.FillFloor | rlmap/src/generator.ts:70-74 | the interior loop fills the inside of the box with floor, completing the room |
| Generators.RoomCoversItsBox | rlmap/src/generator.ts:51-74 | drawRoom writes a cell exactly when it lies in the box from the smaller to the larger corner |
| Generators.RoomShape | rlmap/src/generator.ts:56-74 | the corners get the four corner characters, the edges the line characters, and exactly the interior cells get floor |
| Generators.FlatRoomTakesBottomCorners | rlmap/src/generator.ts:56-59 | in a room one row high the later bottom-corner writes overwrite the top corners |
| Generators.Generator.ConnectRooms | rlmap/src/generator.ts:80-107 | the corridor only turns blanks into floor and walls into doors, changes only cells near its path, and leaves every cell it walks through non-blank |
| Generators.Generator.WalkRow | rlmap/src/generator.ts:89-97 | the horizontal walk ends at centerX2, only rewrites cells in its row band, and leaves the cells it passes non-blank |
| Generators.Generator.WalkColumn | rlmap/src/generator.ts:98-106 | the vertical walk ends at centerY2, only rewrites cells in its column band, and leaves the cells it passes non-blank |
| Generators.Generator.CrossRow | rlmap/src/generator.ts:90-95 | one step of the horizontal walk rewrites only its cell and the two above and below, and leaves its own cell non-blank |
| Generators.Generator.CrossColumn | rlmap/src/generator.ts:99-104 | one step of the vertical walk rewrites only its cell and the two beside it, and leaves its own cell non-blank |
| Generators.Generator.Retile | rlmap/src/generator.ts:91-94 | one conditional write replaces the given character by its successor and nothing else |
| Generators.RetiledTwice | rlmap/src/generator.ts:90-104 | two rewrites confined to the same box compose to one |
| Generators.RetiledKeepsNonBlank | rlmap/src/generator.ts:90-104 | corridor rewrites never turn a non-blank cell blank |
| Generators.RewrittenTransitive | rlmap/src/generator.ts:90-104 | blank to floor and wall to door rewrites compose |
| Generators.TileCharsDistinct | rlmap/src/generator.ts:45-104 | floor, door and wall are neither blank nor a wall line character |
| Generators.Generator.FillBlanks | rlmap/src/generator.ts:42-48 | the final pass turns exactly the blank cells into full blocks in the drawing colours |
| Generators.Generator.PlaceRoom | rlmap/src/generator.ts:18-33 | the retry loop returns the first drawn room that overlaps no earlier room, having rejected every draw before it, or nothing once the draws run out |
| Generators.Generator.AnyOverlap | rlmap/src/generator.ts:27-32 | the inner loop reports an overlap exactly when the candidate overlaps some earlier room |
| Generators.Generator.GenerateLevel | rlmap/src/generator.ts:9-49 | at most 3 + floor(3r) pairwise separated rooms are placed, no blank cell is left, and every changed cell has the drawing colours |
| Generators.NumRoomsRange | rlmap/src/generator.ts:11 | the number of rooms is between 3 and 5 |
| Generators.FloorOfFraction | rlmap/src/generator.ts:20-23 | Math.floor(r * n) for r in [0, 1) lies in 0 .. n - 1 |
| Generators.RoomFromRandomsFits | rlmap/src/generator.ts:20-25 | a drawn room is 4 to 9 wide and 3 to 7 high and lies inside the grid, one cell from the right and bottom edges |
| Weapons.Laser.constructor | ai-spaceinvad/src/weapons.ts:41-48 | a laser starts where it is fired with the laser size, the player laser colour and its speed; only a momentum laser has a sideways speed |
| Weapons.Laser.Update | ai-spaceinvad/src/weapons.ts:50-52 | update adds speed to y, and a momentum laser also adds speedX to x |
| Weapons.OnScreen | ai-spaceinvad/src/weapons.ts:27-29 | the filter keeps exactly the projectiles that are not off screen |
| Weapons.OnScreenAppend | ai-spaceinvad/src/weapons.ts:27-29 | filtering keeps order: filtering a concatenation concatenates the filtered parts |
| Weapons.OnScreenIdempotent | ai-spaceinvad/src/weapons.ts:27-29 | filtering twice is the same as filtering once |
| Weapons.OnScreenDistinct | ai-spaceinvad/src/weapons.ts:27-29 | filtering a list without repeated projectiles gives a list without repeats |
| Weapons.LaserWeapon.constructor | ai-spaceinvad/src/weapons.ts:20-25 | a weapon starts with no projectiles |
| Weapons.LaserWeapon.Fire | ai-spaceinvad/src/weapons.ts:63-72 | firing appends exactly the fired projectiles: one centred on the player for the basic laser, two 30 apart for the double laser, one with half the player's speed sideways for the momentum laser (the DoubleLaser and MomentumLaser fire methods at lines 178-194 and 243-252 are folded into the same method) |
| Weapons.LaserWeapon.UpdateProjectiles | ai-spaceinvad/src/weapons.ts:74-79 | every projectile moves once, and then exactly the on-screen ones are kept, in order |
| Weapons.LaserWeapon.ClearOffScreenProjectiles | ai-spaceinvad/src/weapons.ts:27-29 | the projectile list becomes its on-screen part |
| Weapons.BeamProjectile.constructor | ai-spaceinvad/src/weapons.ts:102-112 | a beam starts active, with zero height, speed, age and top |
| Weapons.BeamProjectile.Update | ai-spaceinvad/src/weapons.ts:115-120 | update adds 1000/30 ms to the age, and the beam stays active only while it was active and younger than its duration |
| Weapons.BeamProjectile.SetEndY | ai-spaceinvad/src/weapons.ts:132-134 | setEndY sets the top of the beam |
| Weapons.BeamProjectile.SetStartY | ai-spaceinvad/src/weapons.ts:135-137 | setStartY sets the bottom of the beam |
| Weapons.Beam.constructor | ai-spaceinvad/src/weapons.ts:140-142 | a beam weapon has duration 200 and no beam |
| Weapons.Beam.Fire | ai-spaceinvad/src/weapons.ts:144-151 | without an active beam, fire creates a fresh active beam centred on the player and returns it; with one it returns nothing and keeps the beam |
| Weapons.Beam.UpdateProjectiles | ai-spaceinvad/src/weapons.ts:152-159 | the beam ages by one frame and is dropped once it becomes inactive |
| Weapons.BeamLastsSixFrames | ai-spaceinvad/src/weapons.ts:115-120 | a beam with the default 200 ms duration (line 141) is still active after five updates and inactive after the sixth |
| GameStates.GameState.constructor | ai-spaceinvad/src/spaceinv.ts:46-69 | the game starts with no enemies, barriers or enemy lasers, at level 0, marching right, with no flags set |
| GameInit.CreateBarrier | ai-spaceinvad/src/gameinit.ts:54-70 | a barrier sits at (x, y) with a full health grid of ones, so every cell is intact |
| GameInit.AllOnesLive | ai-spaceinvad/src/gameinit.ts:67 | a grid of ones has rows times columns intact cells |
| GameInit.OnesRowLive | ai-spaceinvad/src/gameinit.ts:67 | a row of ones is intact in every cell |
| GameInit.CalculateEnemySpeed | ai-spaceinvad/src/gameinit.ts:109-111 | the enemy speed is the base speed at level 0 and never below it at later levels |
| GameInit.CalculateEnemyLaserSpeed | ai-spaceinvad/src/gameinit.ts:113-115 | the enemy laser speed is the base laser speed at level 0 and never below it at later levels |
| GameInit.SpeedsGrowWithLevel | ai-spaceinvad/src/gameinit.ts:109-115 | each level adds a fixed step to both speeds |
| GameInit.SpeedsNondecreasing | ai-spaceinvad/src/gameinit.ts:109-115 | both speeds are non-decreasing in the level |
| GameInit.FormationLayout | ai-spaceinvad/src/gameinit.ts:77-84 | the enemy at row r and column c is alive, has the level speed and sits at c * (width + spacing) + 50, r * (height + spacing) + 50 |
| GameInit.InitializeEnemies | ai-spaceinvad/src/gameinit.ts:71-86 | the enemy list is replaced by the rows times columns formation at the current level's speed, row by row |
| GameInit.InitializeBarriers | ai-spaceinvad/src/gameinit.ts:88-106 | with no barriers it creates BARRIER_NUM full barriers in a row at the same height; otherwise it repairs each barrier in place and keeps the count |
| GameInit.RepairHealth | ai-spaceinvad/src/gameinit.ts:97-103 | the repair loops over one barrier compute its repaired grid |
| GameInit.RepairRow | ai-spaceinvad/src/gameinit.ts:98-102 | the inner loop computes one repaired row |
| GameInit.Repaired | ai-spaceinvad/src/gameinit.ts:96-104 | a repaired barrier keeps its position and a full-size grid |
| GameInit.RepairOnlyRevives | ai-spaceinvad/src/gameinit.ts:99-101 | repair only turns destroyed cells into intact ones, never the reverse, so the intact count never drops |
| GameInit.LiveMonotone | ai-spaceinvad/src/gameinit.ts:99-101 | a grid whose intact cells stay intact has at least as many intact cells |
| GameInit.RowLiveMonotone | ai-spaceinvad/src/gameinit.ts:99-101 | the same holds for one row |
| GameInit.BarrierRowCentred | ai-spaceinvad/src/gameinit.ts:92 | the barrier row is centred on the canvas, 15 from each side, with equal steps between barriers |
| SpaceInvaders.CollisionIsOverlap | ai-spaceinvad/src/spaceinv.ts:83-90 | for boxes with positive size, checkCollision holds exactly when the open boxes overlap on both axes |
| SpaceInvaders.CollisionSymmetric | ai-spaceinvad/src/spaceinv.ts:83-90 | checkCollision does not depend on argument order |
| SpaceInvaders.TouchingDoesNotCollide | ai-spaceinvad/src/spaceinv.ts:83-90 | boxes that only touch do not collide |
| SpaceInvaders.FormationDoesNotCollide | ai-spaceinvad/src/spaceinv.ts:83-90 | no two enemies of a fresh formation collide |
| SpaceInvaders.ApartOnAxis | ai-spaceinvad/src/gameinit.ts:80-81 | two different grid positions are at least one size apart along their axis |
| SpaceInvaders.Moved | ai-spaceinvad/src/spaceinv.ts:112-119 | the moved list holds only lasers that fell by speed times deltaTime and stayed within the canvas height, and every such laser is kept |
| SpaceInvaders.MovedAppend | ai-spaceinvad/src/spaceinv.ts:112-119 | moving keeps the order of the survivors |
| SpaceInvaders.MoveProjectiles | ai-spaceinvad/src/spaceinv.ts:112-119 | the backward loop with splice leaves exactly the moved survivors, in order |
| SpaceInvaders.MovedStep | ai-spaceinvad/src/spaceinv.ts:113-117 | one step of the loop keeps or drops one laser |
| SpaceInvaders.CellOf | ai-spaceinvad/src/spaceinv.ts:122-123 | Math.floor of an offset over a cell size is the cell containing the offset |
| SpaceInvaders.Damaged | ai-spaceinvad/src/spaceinv.ts:120-132 | damageBarrier hits exactly when the projectile's cell is in range and intact; a hit zeroes that one cell and lowers the intact count by one, and a miss changes nothing |
| SpaceInvaders.LiveAfterDestroying | ai-spaceinvad/src/spaceinv.ts:126-128 | destroying an intact cell lowers the intact count by exactly one |
| SpaceInvaders.DamageBarrier | ai-spaceinvad/src/spaceinv.ts:120-132 | the barrier at index j is damaged as above and every other barrier is unchanged |
| SpaceInvaders.AliveIsFilter | ai-spaceinvad/src/spaceinv.ts:94 | the alive filter keeps exactly the alive enemies |
| SpaceInvaders.PickIndex | ai-spaceinvad/src/spaceinv.ts:96 | Math.floor(random * n) is a valid index |
| SpaceInvaders.FireEnemyLaser | ai-spaceinvad/src/spaceinv.ts:92-110 | with an alive enemy one laser is appended below the chosen alive enemy, and with none nothing changes |
| SpaceInvaders.LeftmostIsLeast | ai-spaceinvad/src/spaceinv.ts:147-152 | leftmost is the least x of an alive enemy, or the canvas width when none is alive |
| SpaceInvaders.RightmostIsGreatest | ai-spaceinvad/src/spaceinv.ts:148-152 | rightmost is the greatest right edge of an alive enemy, or 0 when none is alive |
| SpaceInvaders.MovedDown | ai-spaceinvad/src/spaceinv.ts:159-161 | every enemy moves down by the same distance and nothing else changes |
| SpaceInvaders.MovedAcross | ai-spaceinvad/src/spaceinv.ts:169-171 | every enemy moves sideways by direction times its speed times deltaTime |
| SpaceInvaders.ScanFormation | ai-spaceinvad/src/spaceinv.ts:147-156 | the loop over the enemies finds the leftmost and rightmost edges and fires the lasers the rolls call for |
| SpaceInvaders.EdgesStep | ai-spaceinvad/src/spaceinv.ts:150-152 | one more enemy updates the edges only if it is alive |
| SpaceInvaders.FiredStep | ai-spaceinvad/src/spaceinv.ts:153-155 | one more enemy fires a laser only if it is alive and its roll is below the fire chance |
| SpaceInvaders.StepDown | ai-spaceinvad/src/spaceinv.ts:159-161 | the loop moves the whole formation down |
| SpaceInvaders.StepAcross | ai-spaceinvad/src/spaceinv.ts:169-171 | the loop moves the whole formation sideways |
| SpaceInvaders.HandleEnemyMovement | ai-spaceinvad/src/spaceinv.ts:146-173 | with moveDown set the formation drops, the flag clears and the direction flips; at the edge it is travelling towards only moveDown is set; otherwise the formation moves sideways; the direction stays 1 or -1 |
| SpaceInvaders.StartNextLevel | ai-spaceinvad/src/spaceinv.ts:279-285 | the level goes up by one, the formation is rebuilt at the new speed, barriers are created or repaired and the enemy lasers are cleared |
| SpaceInvaders.TurnTwice | ai-spaceinvad/src/spaceinv.ts:163 | flipping the direction keeps it 1 or -1, and flipping twice restores it |
| Colors.Color.ToHexStr | part/src/Color.ts:25-30 | toHexStr writes '#' and each component in base 16 padded to two digits; its shape and its round trip through fromHex are proved in HexStringShape and HexRoundTrip |
| Colors.ParseHexColor | part/src/Color.ts:18-23 | fromHex reads the three two-character substrings at 1, 3 and 5 with parseInt base 16, and fails when one of them has no leading hex digit; HexRoundTripString proves it inverts toHexStr |
| Colors.ParseInt16 | part/src/Color.ts:19-21 | parseInt(s, 16) skips leading white space, an optional sign and an optional 0x prefix, then reads the leading run of hex digits, failing when there is none |
| Maps.Map.GetTile | rlmap/src/map.ts:23-25 | getTile reads the cell at row y and column x, with no bounds check; SetTile proves it reads back what was written |
| Matrices.Matrix3.ApplyToVector2 | part/src/math/Matrix.ts:76-87 | applyToVector2 gives (a x + b y + c, d x + e y + f); ApplyIdentity, ApplyProduct and ApplyExamples are proved about it |
| Matrices.Matrix3.Det | part/src/math/Matrix.ts:96 | the determinant by cofactor expansion along row 0; DetProduct proves it multiplicative and Inverse fails exactly when it is 0 |
| Rects.Rect.Contains | part/src/math/geometry/Rect.ts:72-74 | contains is inclusive on all four edges; ContainsCorners and ContainsBoundary are proved about it |
| Rects.Intersects | part/src/math/geometry/Rect.ts:29-44 | the static intersects is false when one rectangle lies wholly to one side of the other, edges included; IntersectsIffSharedInterior and TouchingNeverIntersects are proved about it |
| Rects.Rect.Center | part/src/math/geometry/Rect.ts:62-64 | the centre is (x + w / 2, y + h / 2); CenterIsMidpoint proves it is the midpoint of the corners |
| Circles.Circle.Contains | part/src/math/geometry/Circle.ts:19-23 | contains compares the squared distance with the squared radius, inclusively; ContainsIffWithinRadius is proved about it |
| Circles.Circle.Intersects | part/src/math/geometry/Circle.ts:25-30 | intersects compares the distance with the sum of the radii, strictly; IntersectsSymmetric and IntersectsIffSquared are proved about it |
| Circles.Circle.Area | part/src/math/geometry/Circle.ts:93 | the area term pi r r of totalArea; AreaNonNegative and PrefixAreaMonotone are proved about it |
| SpaceInvaders.CheckCollision | ai-spaceinvad/src/spaceinv.ts:83-90 | the four strict comparisons of checkCollision; CollisionIsOverlap, CollisionSymmetric and TouchingDoesNotCollide are proved about it |
| Weapons.Laser.IsOffScreen | ai-spaceinvad/src/weapons.ts:58-60 | a laser is off screen when y + height < 0, and a momentum laser also when x + width < 0 or x > CANVAS_WIDTH (weapons.ts:238-240); OnScreen and ClearOffScreenProjectiles use it |
| Weapons.BeamProjectile.IsOffScreen | ai-spaceinvad/src/weapons.ts:128-130 | a beam is off screen exactly when it is inactive |
| Weapons.Beam.GetActiveBeam | ai-spaceinvad/src/weapons.ts:166-168 | getActiveBeam returns the current beam, or null when there is none |
| IsoContexts.IsometricContext.BaseTranslation | isometric/src/iso-context.ts:53-55 | the board origin on screen is half the canvas width across and 250 down |
| IsoContexts.IsometricContext.ScreenToIso | isometric/src/iso-context.ts:57-71 | screenToIso removes the base translation, unprojects by half the tile size and floors both board coordinates; ScreenToIsoOfTile and ScreenToIsoOfCorner prove it inverts tileVertices |
| Rays.Ray2.GetPoint | part/src/math/geometry/Ray.ts:136-141 | getPoint(t) is p + t v; GetPointAccepted is proved about it |
| Rays.Ray2.DoesIntersectPoint | part/src/math/geometry/Ray.ts:65-67 | doesIntersectPoint holds exactly when intersectsPoint does not return null |
| Vectors.Add | part/src/math/vec2.ts:127-129 | the free add returns a new componentwise sum; AddSubInverse and AddNegate are proved about it |
| Vectors.Sub | part/src/math/vec2.ts:113-115 | the free sub returns a new componentwise difference; AddSubInverse is proved about it |
| Vectors.Scale | part/src/math/vec2.ts:117-119 | the free scale returns a new vector times s; LengthOfScale is proved about it |
| Vectors.DivS | part/src/math/vec2.ts:139-141 | the free divS returns a new vector over s |
| Vectors.Dot | part/src/math/vec2.ts:109-111 | the free dot is p.x q.x + p.y q.y; ProjectOnto proves the perpendicular part has zero dot with Q |
| Vectors.LenSq | part/src/math/vec2.ts:78-80 | lenSq is x x + y y, which is dot(v, v); LenSqNonNegative is proved about it |
| Vectors.Length | part/src/math/vec2.ts:74-76 | length is the square root of lenSq; LengthSquared is proved about it |
| Vectors.DistanceTo | part/src/math/vec2.ts:86-90 | distanceTo is the length of the difference; DistanceSymmetric is proved about it |
| Vectors.Normalize | part/src/math/vec2.ts:65-72 | normalize leaves the zero vector alone and otherwise divides by the length; NormalizeUnit is proved about it |
| Physics.Advance | part/src/math/physics.ts:4-13 | both physics helpers add rate times deltaMs / 1000; AdvanceZero and AdvanceAdditive are proved about it |
| Worlds.RotatedCw | isometric/src/world.ts:239-241 | the clockwise board has width and height swapped; TexelFollowsRotation, RotationsCancel and FourTurns pin its cells |
| Worlds.RotatedCcw | isometric/src/world.ts:242-244 | the counter-clockwise board has width and height swapped; RotationsCancel and ThreeTurns relate it to the clockwise one |
| Generators.DoRectsOverlap | rlmap/src/generator.ts:77-79 | the closed-range overlap test of doRectsOverlap; OverlapSymmetric and OverlapMeansRangesMeet are proved about it |
| GameInit.CreateEnemy | ai-spaceinvad/src/gameinit.ts:30-52 | an alive enemy at (x, y) with the enemy size, colour, fire chance and health, and the given speed; FormationLayout is proved about it |

## Left out

- Rendering, canvas, DOM events and console logging are left out. This covers every `draw` method, `drawRects`, `iso-renderer.ts`, the sidebar and buttons, and the `debugForces` list of the spring system.
- `Math.random()` is not modelled as a generator: each draw is a parameter. `generateLevel`'s room-placement retry loop draws until a room fits. The model consumes a finite stream `draws` and stops placing rooms when the stream runs out.
- Trigonometry and logarithms are left out, because the model has no transcendental functions. This covers:
  - `rotateDeg` and `from2dTransformation`;
  - `WiggleLaser`;
  - the angle and radius geometry of `CircleUnion.randomPoint`. The pick of the circle by cumulative area is modelled.
  - `colorForRect` and `getPerspectiveRect` in `DrawRects.ts`.
- Floating-point rounding, `NaN` and infinities are left out. Numbers are exact reals. Division by zero is modelled only where `Ray.ts` relies on it, through `JsNumbers`.
- `Particle` positions and velocities are vector values, so aliasing between `Vec2` objects shared by particles is not modelled.
- Texel reads from the world's texture canvas are a function `Texture.pixel` given to the model. The canvas half of `rotateWorld` is modelled as a rotation of that function.
- These parts of `spaceinv.ts` are not modelled: `createPlayer` in `gameinit.ts`, `handleProjectileBarrierCollisions`, `handleCollisions`, `updatePhysics`, `update` and `gameLoop`. They combine the modelled rules with keyboard input, `Date.now()` timing and rendering.
- These are not part of this model:
  - `ai-spaceinvad/src/inputlogic.ts`;
  - the per-system particle demos;
  - `generateLevelNoDraw`, which `rlmap/src/map.ts` calls but `generator.ts` does not define.
- GameStates.GameState.constructor: the `player` entity and the `playerWeapon` field are not part of the game state here. The player is built by `createPlayer` and moved by input handling, neither of which is modelled. The weapons are modelled on their own in `Weapons`.
- The `input` key flags of the game state are left out with the input handling.
- Perspective.ProjectRect: requires `cameraHeight + rectZ != 0`. At that depth JavaScript divides by zero and yields an infinite or `NaN` rectangle, which reals cannot represent.
- Perspective.ScaleAt: requires `cameraHeight + z != 0`, for the same reason.
- Vec2Objects.Vec2.Div: requires both divisor components non-zero. JavaScript would produce infinities there.
- Vec2Objects.Vec2.DivS: requires a non-zero divisor, for the same reason.
- Vectors.DivS: requires a non-zero divisor, for the same reason.
- Vectors.ProjectOnto: requires `Q` to be non-zero, for the same reason.
- SpringSystems.ApplyForce: requires a non-zero mass, because `force / m` is infinite otherwise.
- SpringSystems.AppliedSpring.Apply: requires both masses to be non-zero, because `force / m` is infinite otherwise.
- Worlds.World.GetTile: like every `World` member other than the constructor, it requires a rectangular board with at least one row. On an empty board the source reads `board[0].length` and throws a `TypeError`. The constructor itself accepts any height.
- Colors.Color.FromHex: a malformed string yields `None`. The source would build a colour with `NaN` components.
- Generators.Generator.constructor: the generator's grid size is the map's, so the drawing methods require `Fits(m)`, a map of the generator's dimensions.

## Findings

| source | as written | input that shows it | evidently intended | confidence | as-written member | corrected member |
|---|---|---|---|---|---|---|
| part/src/math/geometry/Circle.ts:61 | the inner loop skips circles already added, so a circle whose only partners were added earlier is dropped | circles at (0,0), (1.5,0) and (3,0), all of radius 1: the first two overlap and so do the last two, yet the filter keeps only the first two | every circle that overlaps some other circle is kept | high (not executed) | Circles.ChainDropsThird | Circles.FilterExact |
| part/src/particle-systems/spring-system.ts:117-126 | the loop over the springs sits inside the loop over the particles, so every spring is applied once per particle and earlier particles are reset after only some of those applications | four particles and six springs: particle k ends with its gravity plus (4 - k) times its spring acceleration, not once | each particle gets its gravity plus each spring's force exactly once | high (not executed) | SpringSystems.SpringParticleSystem.AccumulateForcesAsWritten | SpringSystems.SpringParticleSystem.AccumulateForces |
| part/src/math/geometry/Ray.ts:95-131 | the horizontal branch compares the x-slab times only, and the general case rejects any negative slab time | a ray from (0,45) along (1,0) is accepted for the rectangle (10,10,20,30), which it misses; a ray from (0,25) along (1,0.1) is rejected, although its point at t = 10 lies inside | true exactly when some point at t >= 0 lies in the rectangle | medium (not executed) | Rays.HorizontalRayAboveAccepted | Rays.IntersectsRectSlabExact |
| part/src/math/Matrix.ts:21 | the constructor checks only that row 0 has three columns | the rows [[1,2,3],[4],[5]] are accepted, and applyToVector2 and inverse then read past the end of rows 1 and 2 | every one of the three rows has three columns | high (not executed) | Matrices.AsWrittenAcceptsRaggedRows | Matrices.New |
