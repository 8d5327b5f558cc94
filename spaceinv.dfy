/** The frame logic of ai-spaceinvad/src/spaceinv.ts: collision tests,
    falling enemy lasers, barrier damage, the marching formation and the
    step to the next level. The canvas is 800 by 600, as main() sets it. */
module SpaceInvaders {
  import opened Constants
  import opened GameStates
  import GameInit

  /** A position with a collision size. */
  datatype Box = Box(x: real, y: real, width: real, height: real)

  function Min(a: real, b: real): real { if a < b then a else b }

  function Max(a: real, b: real): real { if a < b then b else a }

  /** checkCollision: the open boxes overlap on both axes. */
  predicate CheckCollision(rect1: Box, rect2: Box) {
    rect1.x < rect2.x + rect2.width &&
    rect1.x + rect1.width > rect2.x &&
    rect1.y < rect2.y + rect2.height &&
    rect1.y + rect1.height > rect2.y
  }

  /** Boxes with positive sizes collide exactly when their open x-ranges
      and y-ranges overlap. */
  lemma CollisionIsOverlap(rect1: Box, rect2: Box)
    requires rect1.width > 0.0 && rect1.height > 0.0 && rect2.width > 0.0 && rect2.height > 0.0
    ensures CheckCollision(rect1, rect2) <==>
            Max(rect1.x, rect2.x) < Min(rect1.x + rect1.width, rect2.x + rect2.width) &&
            Max(rect1.y, rect2.y) < Min(rect1.y + rect1.height, rect2.y + rect2.height)
  {
  }

  /** The test is symmetric, and boxes that only touch do not collide. */
  lemma CollisionSymmetric(rect1: Box, rect2: Box)
    ensures CheckCollision(rect1, rect2) <==> CheckCollision(rect2, rect1)
  {
  }

  lemma TouchingDoesNotCollide(rect1: Box, rect2: Box)
    requires rect1.x + rect1.width == rect2.x || rect1.y + rect1.height == rect2.y
    ensures !CheckCollision(rect1, rect2)
  {
  }

  function EnemyBox(e: Enemy): Box {
    Box(e.x, e.y, e.width, e.height)
  }

  /** No two enemies of a fresh formation collide: the spacing keeps them
      apart. */
  lemma FormationDoesNotCollide(k1: int, k2: int, speed: real)
    requires 0 <= k1 < EnemyRows * EnemyCols && 0 <= k2 < EnemyRows * EnemyCols && k1 != k2
    ensures !CheckCollision(EnemyBox(GameInit.EnemyAt(k1, speed)), EnemyBox(GameInit.EnemyAt(k2, speed)))
  {
    var r1, c1 := k1 / EnemyCols, k1 % EnemyCols;
    var r2, c2 := k2 / EnemyCols, k2 % EnemyCols;
    assert k1 == r1 * EnemyCols + c1 && k2 == r2 * EnemyCols + c2;
    if c1 != c2 {
      ApartOnAxis(c1, c2, EnemyWidth, EnemySpacingX, 50.0);
    } else {
      assert r1 != r2;
      ApartOnAxis(r1, r2, EnemyHeight, EnemySpacingY, 50.0);
    }
  }

  /** Slots i and j of a row of cells `size` wide with `gap` between do
      not overlap. */
  lemma ApartOnAxis(i: int, j: int, size: real, gap: real, offset: real)
    requires i != j && size >= 0.0 && gap >= 0.0
    ensures var a := i as real * (size + gap) + offset;
            var b := j as real * (size + gap) + offset;
            a + size <= b || b + size <= a
  {
    if i < j {
      assert (j - i) as real * (size + gap) >= size + gap by {
        MultiplyAtLeast((j - i) as real, size + gap);
      }
      assert j as real * (size + gap) - i as real * (size + gap) == (j - i) as real * (size + gap);
    } else {
      assert (i - j) as real * (size + gap) >= size + gap by {
        MultiplyAtLeast((i - j) as real, size + gap);
      }
      assert i as real * (size + gap) - j as real * (size + gap) == (i - j) as real * (size + gap);
    }
  }

  lemma MultiplyAtLeast(n: real, w: real)
    requires n >= 1.0 && w >= 0.0
    ensures n * w >= w
  {
    assert n * w - w == (n - 1.0) * w;
  }

  /** One enemy laser after one move: it falls by speed * deltaTime. */
  function Fallen(s: Shot, deltaTime: real): Shot {
    s.(y := s.y + s.speed * deltaTime)
  }

  predicate OnCanvas(s: Shot) {
    !(s.y < 0.0 || s.y > CanvasHeight)
  }

  /** What moveProjectiles leaves: every laser moved, and those that left
      the canvas dropped, the rest in their order. */
  function Moved(shots: seq<Shot>, deltaTime: real): (r: seq<Shot>)
    ensures |r| <= |shots|
    ensures forall i :: 0 <= i < |r| ==> 0.0 <= r[i].y <= CanvasHeight
    ensures forall i :: 0 <= i < |r| ==> exists j :: 0 <= j < |shots| && r[i] == Fallen(shots[j], deltaTime)
    ensures forall j :: 0 <= j < |shots| && OnCanvas(Fallen(shots[j], deltaTime)) ==> Fallen(shots[j], deltaTime) in r
  {
    if |shots| == 0 then []
    else
      var rest := Moved(shots[1..], deltaTime);
      var head := Fallen(shots[0], deltaTime);
      assert forall i :: 0 <= i < |rest| ==> exists j :: 0 <= j < |shots| && rest[i] == Fallen(shots[j], deltaTime) by {
        forall i | 0 <= i < |rest|
          ensures exists j :: 0 <= j < |shots| && rest[i] == Fallen(shots[j], deltaTime)
        {
          var j :| 0 <= j < |shots[1..]| && rest[i] == Fallen(shots[1..][j], deltaTime);
          assert rest[i] == Fallen(shots[j + 1], deltaTime);
        }
      }
      assert forall j :: 1 <= j < |shots| ==> shots[j] == shots[1..][j - 1];
      if OnCanvas(head) then [head] + rest else rest
  }

  /** Moving lasers list by list gives the same as moving them at once. */
  lemma {:induction false} MovedAppend(a: seq<Shot>, b: seq<Shot>, deltaTime: real)
    ensures Moved(a + b, deltaTime) == Moved(a, deltaTime) + Moved(b, deltaTime)
  {
    if |a| == 0 {
      assert a + b == b;
    } else {
      assert (a + b)[1..] == a[1..] + b;
      MovedAppend(a[1..], b, deltaTime);
    }
  }

  /** moveProjectiles: walks the list from the back, moving each laser and
      splicing out those off the canvas. */
  method MoveProjectiles(projectileArray: seq<Shot>, deltaTime: real) returns (result: seq<Shot>)
    ensures result == Moved(projectileArray, deltaTime)
  {
    result := projectileArray;
    var i := |projectileArray|;
    while i > 0
      invariant 0 <= i <= |projectileArray|
      invariant result == projectileArray[..i] + Moved(projectileArray[i..], deltaTime)
    {
      i := i - 1;
      ghost var tail := Moved(projectileArray[i + 1..], deltaTime);
      MovedStep(projectileArray, i, deltaTime);
      SplitAt(result, projectileArray, i, tail);
      var moved := Fallen(result[i], deltaTime);
      if moved.y < 0.0 || moved.y > CanvasHeight {
        result := result[..i] + result[i + 1..];
      } else {
        result := result[..i] + [moved] + result[i + 1..];
      }
    }
    assert projectileArray[0..] == projectileArray;
  }

  /** Moving the lasers from index i: the one at i, then the rest. */
  lemma MovedStep(shots: seq<Shot>, i: int, deltaTime: real)
    requires 0 <= i < |shots|
    ensures var moved := Fallen(shots[i], deltaTime);
            Moved(shots[i..], deltaTime) == (if OnCanvas(moved) then [moved] else []) + Moved(shots[i + 1..], deltaTime)
  {
    assert shots[i..][1..] == shots[i + 1..];
  }

  lemma SplitAt(result: seq<Shot>, shots: seq<Shot>, i: int, tail: seq<Shot>)
    requires 0 <= i < |shots| && result == shots[..i + 1] + tail
    ensures result[i] == shots[i] && result[..i] == shots[..i] && result[i + 1..] == tail
  {
    assert shots[..i + 1] == shots[..i] + [shots[i]];
  }

  /** The barrier cell a coordinate falls in: floor of offset / size. */
  function CellOf(offset: real, size: real): (k: int)
    requires size > 0.0
    ensures k as real * size <= offset < k as real * size + size
  {
    var q := offset / size;
    ScaleBounds(q.Floor as real, q, size, offset);
    q.Floor
  }

  lemma ScaleBounds(k: real, q: real, size: real, offset: real)
    requires size > 0.0 && k <= q < k + 1.0 && offset == q * size
    ensures k * size <= offset
    ensures offset < k * size + size
  {
    NonNegativeProduct(q - k, size);
    assert (q - k) * size == q * size - k * size;
    calc {
      k * size + size - offset;
    ==
      (k + 1.0 - q) * size;
    >  { PositiveProduct(k + 1.0 - q, size); }
      0.0;
    }
  }

  const CellWidth: real := BarrierWidth / BarrierHealthCols as real
  const CellHeight: real := BarrierHeight / BarrierHealthRows as real

  /** What damageBarrier does to a barrier hit at (px, py): the hit cell,
      when it is on the barrier and intact, is destroyed and the result is
      true; otherwise nothing changes and the result is false. */
  function Damaged(barrier: Barrier, px: real, py: real): (res: (bool, Barrier))
    requires IsHealthGrid(barrier.health)
    ensures var gridX := CellOf(px - barrier.x, CellWidth);
            var gridY := CellOf(py - barrier.y, CellHeight);
            var inRange := 0 <= gridX < BarrierHealthCols && 0 <= gridY < BarrierHealthRows;
            (res.0 <==> inRange && barrier.health[gridY][gridX] == 1) &&
            res.1.x == barrier.x && res.1.y == barrier.y && IsHealthGrid(res.1.health) &&
            (res.0 ==> res.1.health[gridY][gridX] == 0 && Live(res.1.health) + 1 == Live(barrier.health)) &&
            (forall r, c :: 0 <= r < BarrierHealthRows && 0 <= c < BarrierHealthCols && (r, c) != (gridY, gridX) ==>
               res.1.health[r][c] == barrier.health[r][c]) &&
            (!res.0 ==> res.1 == barrier)
  {
    var gridX := CellOf(px - barrier.x, CellWidth);
    var gridY := CellOf(py - barrier.y, CellHeight);
    if 0 <= gridX < BarrierHealthCols && 0 <= gridY < BarrierHealthRows && barrier.health[gridY][gridX] == 1 then
      var h := barrier.health[gridY := barrier.health[gridY][gridX := 0]];
      LiveAfterDestroying(barrier.health, gridY, gridX);
      (true, barrier.(health := h))
    else
      (false, barrier)
  }

  /** Destroying an intact cell removes exactly one from the count. */
  lemma {:induction false} LiveAfterDestroying(h: seq<seq<int>>, r: int, c: int)
    requires 0 <= r < |h| && 0 <= c < |h[r]| && h[r][c] == 1
    ensures Live(h[r := h[r][c := 0]]) + 1 == Live(h)
  {
    if r == 0 {
      RowLiveAfterDestroying(h[0], c);
      assert h[r := h[r][c := 0]][1..] == h[1..];
    } else {
      LiveAfterDestroying(h[1..], r - 1, c);
      assert h[r := h[r][c := 0]][1..] == h[1..][r - 1 := h[r][c := 0]];
    }
  }

  lemma {:induction false} RowLiveAfterDestroying(row: seq<int>, c: int)
    requires 0 <= c < |row| && row[c] == 1
    ensures RowLive(row[c := 0]) + 1 == RowLive(row)
  {
    if c == 0 {
      assert row[c := 0][1..] == row[1..];
    } else {
      RowLiveAfterDestroying(row[1..], c - 1);
      assert row[c := 0][1..] == row[1..][c - 1 := 0];
    }
  }

  /** damageBarrier on barrier j of the game: the barrier is damaged as
      Damaged says and the others are untouched. */
  method DamageBarrier(gs: GameState, projectileX: real, projectileY: real, j: int) returns (hit: bool)
    requires gs.Valid() && 0 <= j < |gs.barriers|
    modifies gs`barriers
    ensures gs.Valid() && |gs.barriers| == |old(gs.barriers)|
    ensures (hit, gs.barriers[j]) == Damaged(old(gs.barriers[j]), projectileX, projectileY)
    ensures gs.barriers == old(gs.barriers)[j := gs.barriers[j]]
  {
    var barrier := gs.barriers[j];
    var gridX := ((projectileX - barrier.x) / (BarrierWidth / BarrierHealthCols as real)).Floor;
    var gridY := ((projectileY - barrier.y) / (BarrierHeight / BarrierHealthRows as real)).Floor;
    if gridX >= 0 && gridX < BarrierHealthCols && gridY >= 0 && gridY < BarrierHealthRows {
      if barrier.health[gridY][gridX] == 1 {
        gs.barriers := gs.barriers[j := barrier.(health := barrier.health[gridY := barrier.health[gridY][gridX := 0]])];
        return true;
      }
    }
    return false;
  }

  /** The live enemies, in order: the candidates fireEnemyLaser picks
      from. */
  function Alive(es: seq<Enemy>): seq<Enemy> {
    if |es| == 0 then [] else (if es[0].alive then [es[0]] else []) + Alive(es[1..])
  }

  /** Alive keeps exactly the live enemies. */
  lemma {:induction false} AliveIsFilter(es: seq<Enemy>)
    ensures |Alive(es)| <= |es|
    ensures forall i :: 0 <= i < |Alive(es)| ==> Alive(es)[i].alive
    ensures forall i :: 0 <= i < |es| && es[i].alive ==> es[i] in Alive(es)
    ensures forall e :: e in Alive(es) ==> e in es
  {
    if |es| > 0 {
      AliveIsFilter(es[1..]);
      assert forall i :: 1 <= i < |es| ==> es[i] == es[1..][i - 1];
    }
  }

  /** The index a random draw r in [0, 1) picks among n candidates. */
  function PickIndex(r: real, n: int): (k: int)
    requires 0.0 <= r < 1.0 && n >= 1
    ensures 0 <= k < n
  {
    var x := r * n as real;
    ScaledFraction(r, n as real, x);
    FloorBelow(x, n);
    x.Floor
  }

  lemma ScaledFraction(r: real, n: real, x: real)
    requires 0.0 <= r < 1.0 && n > 0.0 && x == r * n
    ensures 0.0 <= x < n
  {
    calc {
      n - x;
    ==
      (1.0 - r) * n;
    >  { PositiveProduct(1.0 - r, n); }
      0.0;
    }
    NonNegativeProduct(r, n);
  }

  lemma FloorBelow(x: real, n: int)
    requires 0.0 <= x < n as real
    ensures 0 <= x.Floor < n
  {
  }

  lemma PositiveProduct(a: real, b: real)
    requires a > 0.0 && b > 0.0
    ensures a * b > 0.0
  {
  }

  lemma NonNegativeProduct(a: real, b: real)
    requires a >= 0.0 && b >= 0.0
    ensures a * b >= 0.0
  {
  }

  /** The laser an enemy fires: from the middle of its bottom edge. */
  function LaserFrom(e: Enemy, levelMultiplier: int): Shot {
    Shot(e.x + e.width / 2.0 - LaserWidth / 2.0, e.y + e.height, LaserWidth, LaserHeight,
         EnemyLaserColor, GameInit.CalculateEnemyLaserSpeed(levelMultiplier))
  }

  /** fireEnemyLaser: a live enemy chosen by the draw `pick` fires; with no
      live enemy nothing happens. */
  method FireEnemyLaser(gs: GameState, pick: real)
    requires 0.0 <= pick < 1.0
    modifies gs`enemyLasers
    ensures var alive := Alive(gs.enemies);
            gs.enemyLasers == old(gs.enemyLasers) +
              (if |alive| > 0 then [LaserFrom(alive[PickIndex(pick, |alive|)], gs.levelMultiplier)] else [])
  {
    var aliveEnemies := Alive(gs.enemies);
    if |aliveEnemies| > 0 {
      var firingEnemy := aliveEnemies[PickIndex(pick, |aliveEnemies|)];
      gs.enemyLasers := gs.enemyLasers + [LaserFrom(firingEnemy, gs.levelMultiplier)];
    }
  }

  /** The left edge of the formation: the least x of a live enemy, or the
      canvas width when none is alive. */
  function Leftmost(es: seq<Enemy>): real {
    if |es| == 0 then CanvasWidth
    else
      var l := Leftmost(es[..|es| - 1]);
      var e := es[|es| - 1];
      if e.alive then Min(l, e.x) else l
  }

  /** Leftmost is the least x of a live enemy, or the canvas width. */
  lemma {:induction false} LeftmostIsLeast(es: seq<Enemy>)
    ensures Leftmost(es) <= CanvasWidth
    ensures forall i :: 0 <= i < |es| && es[i].alive ==> Leftmost(es) <= es[i].x
    ensures Leftmost(es) == CanvasWidth || exists i :: 0 <= i < |es| && es[i].alive && es[i].x == Leftmost(es)
  {
    if |es| > 0 {
      LeftmostIsLeast(es[..|es| - 1]);
      assert forall i :: 0 <= i < |es| - 1 ==> es[..|es| - 1][i] == es[i];
    }
  }

  /** The right edge of the formation: the greatest right side of a live
      enemy, or 0 when none is alive. */
  function Rightmost(es: seq<Enemy>): real {
    if |es| == 0 then 0.0
    else
      var l := Rightmost(es[..|es| - 1]);
      var e := es[|es| - 1];
      if e.alive then Max(l, e.x + e.width) else l
  }

  /** Rightmost is the greatest right side of a live enemy, or 0. */
  lemma {:induction false} RightmostIsGreatest(es: seq<Enemy>)
    ensures Rightmost(es) >= 0.0
    ensures forall i :: 0 <= i < |es| && es[i].alive ==> es[i].x + es[i].width <= Rightmost(es)
    ensures Rightmost(es) == 0.0 || exists i :: 0 <= i < |es| && es[i].alive && es[i].x + es[i].width == Rightmost(es)
  {
    if |es| > 0 {
      RightmostIsGreatest(es[..|es| - 1]);
      assert forall i :: 0 <= i < |es| - 1 ==> es[..|es| - 1][i] == es[i];
    }
  }

  /** The lasers fired while scanning the first n enemies: each live one
      whose draw is below the fire chance makes the enemy chosen by its
      pick fire. */
  function FiredUpTo(es: seq<Enemy>, n: int, rolls: seq<real>, picks: seq<real>, levelMultiplier: int): seq<Shot>
    requires 0 <= n <= |es| == |rolls| == |picks|
    requires forall i :: 0 <= i < |picks| ==> 0.0 <= picks[i] < 1.0
  {
    if n == 0 then []
    else
      var alive := Alive(es);
      FiredUpTo(es, n - 1, rolls, picks, levelMultiplier) +
      (if es[n - 1].alive && rolls[n - 1] < EnemyFireChance && |alive| > 0
       then [LaserFrom(alive[PickIndex(picks[n - 1], |alive|)], levelMultiplier)] else [])
  }

  /** The formation one step down. */
  function MovedDown(es: seq<Enemy>, dy: real): (r: seq<Enemy>)
    ensures |r| == |es|
    ensures forall i :: 0 <= i < |es| ==> r[i] == es[i].(y := es[i].y + dy)
  {
    seq(|es|, i requires 0 <= i < |es| => es[i].(y := es[i].y + dy))
  }

  /** The formation one step across: each enemy at its own speed. */
  function MovedAcross(es: seq<Enemy>, direction: int, deltaTime: real): (r: seq<Enemy>)
    ensures |r| == |es|
    ensures forall i :: 0 <= i < |es| ==> r[i] == es[i].(x := es[i].x + direction as real * es[i].speed * deltaTime)
  {
    seq(|es|, i requires 0 <= i < |es| => es[i].(x := es[i].x + direction as real * es[i].speed * deltaTime))
  }

  /** Whether the formation has reached the edge it travels towards. */
  predicate AtEdge(es: seq<Enemy>, direction: int) {
    (Rightmost(es) > CanvasWidth - RightEdgeBuffer && direction == 1) ||
    (Leftmost(es) < LeftEdgeBuffer && direction == -1)
  }

  /** The scan of handleEnemyMovement: the edges of the live formation,
      and each live enemy whose draw is below the fire chance makes a
      laser fire. */
  method ScanFormation(gs: GameState, rolls: seq<real>, picks: seq<real>) returns (leftmost: real, rightmost: real)
    requires |rolls| == |picks| == |gs.enemies|
    requires forall i :: 0 <= i < |picks| ==> 0.0 <= picks[i] < 1.0
    modifies gs`enemyLasers
    ensures leftmost == Leftmost(gs.enemies) && rightmost == Rightmost(gs.enemies)
    ensures gs.enemyLasers == old(gs.enemyLasers) + FiredUpTo(gs.enemies, |gs.enemies|, rolls, picks, gs.levelMultiplier)
  {
    leftmost := CanvasWidth;
    rightmost := 0.0;
    for i := 0 to |gs.enemies|
      invariant leftmost == Leftmost(gs.enemies[..i]) && rightmost == Rightmost(gs.enemies[..i])
      invariant gs.enemyLasers == old(gs.enemyLasers) + FiredUpTo(gs.enemies, i, rolls, picks, gs.levelMultiplier)
    {
      EdgesStep(gs.enemies, i);
      FiredStep(gs.enemies, i, rolls, picks, gs.levelMultiplier);
      if !gs.enemies[i].alive {
        continue;
      }
      leftmost := Min(leftmost, gs.enemies[i].x);
      rightmost := Max(rightmost, gs.enemies[i].x + gs.enemies[i].width);
      if rolls[i] < EnemyFireChance {
        FireEnemyLaser(gs, picks[i]);
      }
    }
    assert gs.enemies[..|gs.enemies|] == gs.enemies;
  }

  /** Scanning one enemy more: a live one may move either edge. */
  lemma EdgesStep(es: seq<Enemy>, i: int)
    requires 0 <= i < |es|
    ensures Leftmost(es[..i + 1]) == if es[i].alive then Min(Leftmost(es[..i]), es[i].x) else Leftmost(es[..i])
    ensures Rightmost(es[..i + 1]) == if es[i].alive then Max(Rightmost(es[..i]), es[i].x + es[i].width) else Rightmost(es[..i])
  {
    assert es[..i + 1][..i] == es[..i];
  }

  /** Scanning one enemy more fires at most its own laser. */
  lemma FiredStep(es: seq<Enemy>, i: int, rolls: seq<real>, picks: seq<real>, levelMultiplier: int)
    requires 0 <= i < |es| == |rolls| == |picks|
    requires forall k :: 0 <= k < |picks| ==> 0.0 <= picks[k] < 1.0
    ensures var alive := Alive(es);
            FiredUpTo(es, i + 1, rolls, picks, levelMultiplier) ==
              FiredUpTo(es, i, rolls, picks, levelMultiplier) +
              (if es[i].alive && rolls[i] < EnemyFireChance && |alive| > 0
               then [LaserFrom(alive[PickIndex(picks[i], |alive|)], levelMultiplier)] else [])
  {
  }

  /** Every enemy, dead or alive, one step down. */
  method StepDown(gs: GameState, dy: real)
    modifies gs`enemies
    ensures gs.enemies == MovedDown(old(gs.enemies), dy)
  {
    for i := 0 to |gs.enemies|
      invariant |gs.enemies| == |old(gs.enemies)|
      invariant forall k :: 0 <= k < i ==> gs.enemies[k] == old(gs.enemies)[k].(y := old(gs.enemies)[k].y + dy)
      invariant forall k :: i <= k < |gs.enemies| ==> gs.enemies[k] == old(gs.enemies)[k]
    {
      gs.enemies := gs.enemies[i := gs.enemies[i].(y := gs.enemies[i].y + dy)];
    }
  }

  /** Every enemy one step across, at its own speed. */
  method StepAcross(gs: GameState, deltaTime: real)
    modifies gs`enemies
    ensures gs.enemies == MovedAcross(old(gs.enemies), gs.enemyDirection, deltaTime)
  {
    for i := 0 to |gs.enemies|
      invariant |gs.enemies| == |old(gs.enemies)|
      invariant forall k :: 0 <= k < i ==>
                  gs.enemies[k] == old(gs.enemies)[k].(x := old(gs.enemies)[k].x + gs.enemyDirection as real * old(gs.enemies)[k].speed * deltaTime)
      invariant forall k :: i <= k < |gs.enemies| ==> gs.enemies[k] == old(gs.enemies)[k]
    {
      gs.enemies := gs.enemies[i := gs.enemies[i].(x := gs.enemies[i].x + gs.enemyDirection as real * gs.enemies[i].speed * deltaTime)];
    }
  }

  /** The step down of a level. */
  function DropDistance(levelMultiplier: int, deltaTime: real): real {
    (EnemyMoveDownAmount + EnemyMoveDownAmountIncrease * levelMultiplier as real) * deltaTime
  }

  /** handleEnemyMovement: scan the live enemies for the formation's edges,
      letting each fire by its draw; then either step down and turn (when a
      step down is due), or schedule a step down (at an edge), or march
      every enemy across. `rolls[i]` and `picks[i]` are enemy i's random
      draws. */
  method HandleEnemyMovement(gs: GameState, deltaTime: real, rolls: seq<real>, picks: seq<real>)
    requires gs.Valid() && |rolls| == |picks| == |gs.enemies|
    requires forall i :: 0 <= i < |picks| ==> 0.0 <= picks[i] < 1.0
    modifies gs`enemies, gs`enemyLasers, gs`enemyMoveDown, gs`enemyDirection
    ensures gs.Valid()
    ensures gs.enemyLasers ==
            old(gs.enemyLasers) + FiredUpTo(old(gs.enemies), |old(gs.enemies)|, rolls, picks, gs.levelMultiplier)
    ensures old(gs.enemyMoveDown) ==>
              gs.enemies == MovedDown(old(gs.enemies), DropDistance(gs.levelMultiplier, deltaTime)) &&
              !gs.enemyMoveDown && gs.enemyDirection == -old(gs.enemyDirection)
    ensures !old(gs.enemyMoveDown) && AtEdge(old(gs.enemies), old(gs.enemyDirection)) ==>
              gs.enemies == old(gs.enemies) && gs.enemyMoveDown && gs.enemyDirection == old(gs.enemyDirection)
    ensures !old(gs.enemyMoveDown) && !AtEdge(old(gs.enemies), old(gs.enemyDirection)) ==>
              gs.enemies == MovedAcross(old(gs.enemies), gs.enemyDirection, deltaTime) &&
              !gs.enemyMoveDown && gs.enemyDirection == old(gs.enemyDirection)
  {
    var leftmost, rightmost := ScanFormation(gs, rolls, picks);
    if gs.enemyMoveDown {
      StepDown(gs, DropDistance(gs.levelMultiplier, deltaTime));
      gs.enemyMoveDown := false;
      gs.enemyDirection := gs.enemyDirection * -1;
    } else if rightmost > CanvasWidth - RightEdgeBuffer && gs.enemyDirection == 1 {
      gs.enemyMoveDown := true;
    } else if leftmost < LeftEdgeBuffer && gs.enemyDirection == -1 {
      gs.enemyMoveDown := true;
    } else {
      StepAcross(gs, deltaTime);
    }
  }

  /** startNextLevel: one level up, a fresh formation at the new level's
      speed, barriers created or repaired, and no enemy lasers left.
      `rolls` are the repair pass's random draws. */
  method StartNextLevel(gs: GameState, rolls: (int, int, int) -> real)
    requires gs.Valid()
    modifies gs`levelMultiplier, gs`enemies, gs`barriers, gs`enemyLasers
    ensures gs.Valid() && gs.levelMultiplier == old(gs.levelMultiplier) + 1 && gs.enemyLasers == []
    ensures |gs.enemies| == EnemyRows * EnemyCols
    ensures forall k :: 0 <= k < |gs.enemies| ==>
              gs.enemies[k] == GameInit.EnemyAt(k, GameInit.CalculateEnemySpeed(gs.levelMultiplier))
    ensures old(gs.barriers) == [] ==>
              |gs.barriers| == BarrierNum &&
              forall i :: 0 <= i < BarrierNum ==>
                gs.barriers[i] == GameInit.CreateBarrier(GameInit.BarrierX(i), GameInit.BarrierY)
    ensures old(gs.barriers) != [] ==>
              |gs.barriers| == |old(gs.barriers)| &&
              forall i :: 0 <= i < |gs.barriers| ==> gs.barriers[i] == GameInit.Repaired(old(gs.barriers)[i], i, rolls)
  {
    gs.levelMultiplier := gs.levelMultiplier + 1;
    GameInit.InitializeEnemies(gs);
    GameInit.InitializeBarriers(gs, rolls);
    gs.enemyLasers := [];
  }

  /** Turning twice restores the direction, and a direction of 1 or -1
      stays one of them. */
  lemma TurnTwice(direction: int)
    requires direction == 1 || direction == -1
    ensures direction * -1 == 1 || direction * -1 == -1
    ensures (direction * -1) * -1 == direction
  {
  }
}
