/** The game state of ai-spaceinvad/src/spaceinv.ts: the enemies, the
    barriers and the enemy lasers, with the flags the frame loop steers by.
    Entities are values; the state object keeps lists of them and replaces
    the lists as the game changes them. */
module GameStates {
  import opened Constants

  /** An enemy laser: a rectangle falling at `speed` pixels per second. */
  datatype Shot = Shot(x: real, y: real, width: real, height: real, color: string, speed: real)

  /** An enemy entity: position, size, colour, speed, fire chance, health
      and whether it is still alive. */
  datatype Enemy = Enemy(x: real, y: real, width: real, height: real, color: string,
                         speed: real, fireChance: real, health: int, maxHealth: int, alive: bool)

  /** A barrier at (x, y); its size and colour are the barrier constants
      for every barrier, and `health` holds one 0/1 entry per cell. */
  datatype Barrier = Barrier(x: real, y: real, health: seq<seq<int>>)

  /** A health grid of BarrierHealthRows rows of BarrierHealthCols cells. */
  ghost predicate IsHealthGrid(h: seq<seq<int>>) {
    |h| == BarrierHealthRows && forall r :: 0 <= r < |h| ==> |h[r]| == BarrierHealthCols
  }

  /** The number of intact (1) cells of a row. */
  function RowLive(row: seq<int>): nat {
    if |row| == 0 then 0 else (if row[0] == 1 then 1 else 0) + RowLive(row[1..])
  }

  /** The number of intact cells of a barrier. */
  function Live(h: seq<seq<int>>): nat {
    if |h| == 0 then 0 else RowLive(h[0]) + Live(h[1..])
  }

  class GameState {
    var enemies: seq<Enemy>
    var barriers: seq<Barrier>
    var enemyLasers: seq<Shot>
    var gameOver: bool
    var stageComplete: bool
    var stageCompleteTime: real
    var levelMultiplier: int
    var enemyDirection: int
    var enemyMoveDown: bool

    /** The enemies travel right (1) or left (-1), levels count from 0,
        and every barrier has a full-size health grid. */
    ghost predicate Valid()
      reads this
    {
      (enemyDirection == 1 || enemyDirection == -1) && levelMultiplier >= 0 &&
      forall i :: 0 <= i < |barriers| ==> IsHealthGrid(barriers[i].health)
    }

    /** The state main() starts from, before the enemies and barriers are
        placed. */
    constructor()
      ensures Valid()
      ensures enemies == [] && barriers == [] && enemyLasers == []
      ensures !gameOver && !stageComplete && stageCompleteTime == 0.0
      ensures levelMultiplier == 0 && enemyDirection == 1 && !enemyMoveDown
    {
      enemies := [];
      barriers := [];
      enemyLasers := [];
      gameOver := false;
      stageComplete := false;
      stageCompleteTime := 0.0;
      levelMultiplier := 0;
      enemyDirection := 1;
      enemyMoveDown := false;
    }
  }
}

/** Level set-up of ai-spaceinvad/src/gameinit.ts: the enemy formation,
    the row of barriers and their repair, and the level speeds. */
module GameInit {
  import opened Constants
  import opened GameStates

  /** createEnemy: alive, with one point of health. */
  function CreateEnemy(x: real, y: real, speed: real): Enemy {
    Enemy(x, y, EnemyWidth, EnemyHeight, EnemyColor, speed, EnemyFireChance, 1, 1, true)
  }

  /** createBarrier: a barrier at (x, y) with every cell intact. */
  function CreateBarrier(x: real, y: real): (b: Barrier)
    ensures b.x == x && b.y == y && IsHealthGrid(b.health)
    ensures forall r, c :: 0 <= r < BarrierHealthRows && 0 <= c < BarrierHealthCols ==> b.health[r][c] == 1
    ensures Live(b.health) == BarrierHealthRows * BarrierHealthCols
  {
    var h := seq(BarrierHealthRows, _ => seq(BarrierHealthCols, _ => 1));
    AllOnesLive(h, BarrierHealthCols);
    Barrier(x, y, h)
  }

  /** Every cell of a grid of ones counts. */
  lemma {:induction false} AllOnesLive(h: seq<seq<int>>, cols: nat)
    requires forall r :: 0 <= r < |h| ==> |h[r]| == cols && forall c :: 0 <= c < cols ==> h[r][c] == 1
    ensures Live(h) == |h| * cols
  {
    if |h| > 0 {
      OnesRowLive(h[0]);
      AllOnesLive(h[1..], cols);
    }
  }

  lemma {:induction false} OnesRowLive(row: seq<int>)
    requires forall c :: 0 <= c < |row| ==> row[c] == 1
    ensures RowLive(row) == |row|
  {
    if |row| > 0 {
      OnesRowLive(row[1..]);
    }
  }

  /** calculateEnemySpeed: the base speed boosted by 10% per level. */
  function CalculateEnemySpeed(levelMultiplier: int): (s: real)
    ensures levelMultiplier >= 0 ==> s >= EnemyHorizontalSpeed
    ensures levelMultiplier == 0 ==> s == EnemyHorizontalSpeed
  {
    EnemyHorizontalSpeed * (1.0 + EnemySpeedBoost * levelMultiplier as real)
  }

  /** calculateEnemyLaserSpeed: the base laser speed boosted by 2% per
      level. */
  function CalculateEnemyLaserSpeed(levelMultiplier: int): (s: real)
    ensures levelMultiplier >= 0 ==> s >= EnemyLaserSpeed
    ensures levelMultiplier == 0 ==> s == EnemyLaserSpeed
  {
    EnemyLaserSpeed * (1.0 + EnemyShotSpeedBoost * levelMultiplier as real)
  }

  /** Both speeds grow with the level, by a fixed step per level. */
  lemma SpeedsGrowWithLevel(level: int)
    ensures CalculateEnemySpeed(level + 1) == CalculateEnemySpeed(level) + EnemyHorizontalSpeed * EnemySpeedBoost
    ensures CalculateEnemyLaserSpeed(level + 1) == CalculateEnemyLaserSpeed(level) + EnemyLaserSpeed * EnemyShotSpeedBoost
  {
  }

  lemma SpeedsNondecreasing(level1: int, level2: int)
    requires level1 <= level2
    ensures CalculateEnemySpeed(level1) <= CalculateEnemySpeed(level2)
    ensures CalculateEnemyLaserSpeed(level1) <= CalculateEnemyLaserSpeed(level2)
  {
  }

  /** The k-th enemy of the formation, row by row. */
  function EnemyAt(k: int, speed: real): Enemy {
    CreateEnemy((k % EnemyCols) as real * (EnemyWidth + EnemySpacingX) + 50.0,
                (k / EnemyCols) as real * (EnemyHeight + EnemySpacingY) + 50.0, speed)
  }

  /** Enemy (row, col) is number row * EnemyCols + col, at column col and
      row row of the grid. */
  lemma FormationLayout(row: int, col: int, speed: real)
    requires 0 <= row < EnemyRows && 0 <= col < EnemyCols
    ensures var e := EnemyAt(row * EnemyCols + col, speed);
            e.x == col as real * (EnemyWidth + EnemySpacingX) + 50.0 &&
            e.y == row as real * (EnemyHeight + EnemySpacingY) + 50.0 && e.alive && e.speed == speed
  {
    assert (row * EnemyCols + col) / EnemyCols == row && (row * EnemyCols + col) % EnemyCols == col;
  }

  /** initializeEnemies: replaces the enemies by a full formation of
      EnemyRows x EnemyCols live enemies at the level's speed. */
  method InitializeEnemies(gs: GameState)
    modifies gs`enemies
    ensures |gs.enemies| == EnemyRows * EnemyCols
    ensures forall k :: 0 <= k < |gs.enemies| ==> gs.enemies[k] == EnemyAt(k, CalculateEnemySpeed(gs.levelMultiplier))
  {
    gs.enemies := [];
    var enemySpeed := CalculateEnemySpeed(gs.levelMultiplier);
    var initialEnemyXOffset := 50.0;
    var initialEnemyYOffset := 50.0;
    for row := 0 to EnemyRows
      invariant |gs.enemies| == row * EnemyCols
      invariant forall k :: 0 <= k < |gs.enemies| ==> gs.enemies[k] == EnemyAt(k, enemySpeed)
    {
      for col := 0 to EnemyCols
        invariant |gs.enemies| == row * EnemyCols + col
        invariant forall k :: 0 <= k < |gs.enemies| ==> gs.enemies[k] == EnemyAt(k, enemySpeed)
      {
        FormationLayout(row, col, enemySpeed);
        gs.enemies := gs.enemies + [CreateEnemy(
          col as real * (EnemyWidth + EnemySpacingX) + initialEnemyXOffset,
          row as real * (EnemyHeight + EnemySpacingY) + initialEnemyYOffset,
          enemySpeed)];
      }
    }
  }

  /** The x of barrier i: the row of barriers centred on the canvas. */
  function BarrierX(i: int): real {
    i as real * (BarrierWidth + BarrierSpacing) +
    (CanvasWidth - (BarrierNum as real * (BarrierWidth + BarrierSpacing) - BarrierSpacing)) / 2.0
  }

  /** The y of every barrier: 100 above the bottom of the canvas. */
  const BarrierY: real := CanvasHeight - 100.0

  /** The repair pass for one barrier: a destroyed cell comes back when its
      random draw is below the respawn chance. */
  function Repaired(b: Barrier, i: int, rolls: (int, int, int) -> real): (r: Barrier)
    requires IsHealthGrid(b.health)
    ensures r.x == b.x && r.y == b.y && IsHealthGrid(r.health)
  {
    b.(health := seq(BarrierHealthRows, row requires 0 <= row < BarrierHealthRows =>
                   seq(BarrierHealthCols, col requires 0 <= col < BarrierHealthCols =>
                     if b.health[row][col] == 0 && rolls(i, row, col) < BarrierRespawnChance then 1 else b.health[row][col])))
  }

  /** Repair only brings cells back: an intact cell stays intact, a changed
      cell went from 0 to 1, and the intact count never drops. */
  lemma RepairOnlyRevives(b: Barrier, i: int, rolls: (int, int, int) -> real)
    requires IsHealthGrid(b.health)
    ensures var r := Repaired(b, i, rolls);
            (forall row, col :: 0 <= row < BarrierHealthRows && 0 <= col < BarrierHealthCols ==>
               (b.health[row][col] == 1 ==> r.health[row][col] == 1) &&
               (r.health[row][col] != b.health[row][col] ==> b.health[row][col] == 0 && r.health[row][col] == 1)) &&
            Live(b.health) <= Live(r.health)
  {
    var r := Repaired(b, i, rolls);
    LiveMonotone(b.health, r.health);
  }

  /** More intact cells, cell by cell, count at least as many. */
  lemma {:induction false} LiveMonotone(a: seq<seq<int>>, b: seq<seq<int>>)
    requires |a| == |b| && forall r :: 0 <= r < |a| ==> |a[r]| == |b[r]|
    requires forall r, c :: 0 <= r < |a| && 0 <= c < |a[r]| && a[r][c] == 1 ==> b[r][c] == 1
    ensures Live(a) <= Live(b)
  {
    if |a| > 0 {
      RowLiveMonotone(a[0], b[0]);
      LiveMonotone(a[1..], b[1..]);
    }
  }

  lemma {:induction false} RowLiveMonotone(a: seq<int>, b: seq<int>)
    requires |a| == |b| && forall c :: 0 <= c < |a| && a[c] == 1 ==> b[c] == 1
    ensures RowLive(a) <= RowLive(b)
  {
    if |a| > 0 {
      RowLiveMonotone(a[1..], b[1..]);
    }
  }

  /** initializeBarriers: with no barriers, a fresh row of BarrierNum
      intact barriers at BarrierY; otherwise every barrier is repaired in
      place. `rolls(i, row, col)` is the random draw for cell (row, col) of
      barrier i. */
  method InitializeBarriers(gs: GameState, rolls: (int, int, int) -> real)
    requires gs.Valid()
    modifies gs`barriers
    ensures gs.Valid()
    ensures old(gs.barriers) == [] ==>
              |gs.barriers| == BarrierNum &&
              forall i :: 0 <= i < BarrierNum ==> gs.barriers[i] == CreateBarrier(BarrierX(i), BarrierY)
    ensures old(gs.barriers) != [] ==>
              |gs.barriers| == |old(gs.barriers)| &&
              forall i :: 0 <= i < |gs.barriers| ==> gs.barriers[i] == Repaired(old(gs.barriers)[i], i, rolls)
  {
    var barrierYPosition := CanvasHeight - 100.0;
    if |gs.barriers| == 0 {
      for i := 0 to BarrierNum
        invariant gs.Valid() && |gs.barriers| == i
        invariant forall k :: 0 <= k < i ==> gs.barriers[k] == CreateBarrier(BarrierX(k), BarrierY)
      {
        gs.barriers := gs.barriers + [CreateBarrier(BarrierX(i), barrierYPosition)];
      }
    } else {
      ghost var b0 := gs.barriers;
      for i := 0 to |gs.barriers|
        invariant gs.Valid() && |gs.barriers| == |b0|
        invariant forall k :: 0 <= k < i ==> gs.barriers[k] == Repaired(b0[k], k, rolls)
        invariant forall k :: i <= k < |b0| ==> gs.barriers[k] == b0[k]
      {
        var h := RepairHealth(gs.barriers[i], i, rolls);
        gs.barriers := gs.barriers[i := gs.barriers[i].(health := h)];
      }
    }
  }

  /** The repair pass over one barrier's grid, row by row. */
  method RepairHealth(b: Barrier, i: int, rolls: (int, int, int) -> real) returns (h: seq<seq<int>>)
    requires IsHealthGrid(b.health)
    ensures h == Repaired(b, i, rolls).health
  {
    ghost var target := Repaired(b, i, rolls).health;
    h := b.health;
    for row := 0 to BarrierHealthRows
      invariant |h| == BarrierHealthRows
      invariant forall r :: 0 <= r < row ==> h[r] == target[r]
      invariant forall r :: row <= r < BarrierHealthRows ==> h[r] == b.health[r]
    {
      var line := RepairRow(b, i, row, rolls);
      h := h[row := line];
    }
  }

  /** The repair pass over one row: a destroyed cell comes back when its
      draw is below the respawn chance. */
  method RepairRow(b: Barrier, i: int, row: nat, rolls: (int, int, int) -> real) returns (line: seq<int>)
    requires IsHealthGrid(b.health) && row < BarrierHealthRows
    ensures line == Repaired(b, i, rolls).health[row]
  {
    ghost var target := Repaired(b, i, rolls).health[row];
    line := b.health[row];
    for col := 0 to BarrierHealthCols
      invariant |line| == BarrierHealthCols
      invariant forall c :: 0 <= c < col ==> line[c] == target[c]
      invariant forall c :: col <= c < BarrierHealthCols ==> line[c] == b.health[row][c]
    {
      if line[col] == 0 && rolls(i, row, col) < BarrierRespawnChance {
        line := line[col := 1];
      }
    }
  }

  /** The barrier row: four barriers 230 apart, the first 15 from the left
      edge, so the row is centred on the 800-wide canvas. */
  lemma BarrierRowCentred()
    ensures BarrierX(0) == 15.0 && BarrierX(3) + BarrierWidth == CanvasWidth - 15.0
    ensures forall i :: 0 <= i < BarrierNum - 1 ==> BarrierX(i + 1) - BarrierX(i) == BarrierWidth + BarrierSpacing
  {
  }
}
