/** The tuning constants of ai-spaceinvad/src/constants.ts that the game
    logic reads; sizes, speeds and positions in pixels. */
module Constants {
  const PlayerWidth: real := 50.0
  const PlayerHeight: real := 30.0
  const LaserWidth: real := 4.0
  const LaserHeight: real := 10.0
  const PlayerLaserColor: string := "yellow"
  const PlayerLaserSpeed: real := -10.0
  const EnemyLaserColor: string := "magenta"
  const EnemyLaserSpeed: real := 5.0
  const EnemyWidth: real := 30.0
  const EnemyHeight: real := 20.0
  const EnemySpacingX: real := 10.0
  const EnemySpacingY: real := 10.0
  const EnemyRows: int := 5
  const EnemyCols: int := 11
  const EnemyColor: string := "red"
  const EnemyMoveDownAmount: real := 10.0
  const EnemyMoveDownAmountIncrease: real := 1.0
  const EnemyHorizontalSpeed: real := 2.0
  const EnemyFireChance: real := 0.005
  const BarrierWidth: real := 80.0
  const BarrierHeight: real := 20.0
  const BarrierSpacing: real := 150.0
  const BarrierNum: int := 4
  const BarrierColor: string := "blue"
  const BarrierHealthRows: int := 2
  const BarrierHealthCols: int := 8
  const BarrierRespawnChance: real := 0.20
  const CanvasWidth: real := 800.0
  const CanvasHeight: real := 600.0
  const LeftEdgeBuffer: real := 20.0
  const RightEdgeBuffer: real := 20.0
  const EnemySpeedBoost: real := 0.1
  const EnemyShotSpeedBoost: real := 0.02
}
