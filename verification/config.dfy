/**
 * The static configuration the game reads: world geometry, entity sizes and
 * bound radii, timings, the starting number of lives and the fall speed of
 * each difficulty tier. The values themselves are not fixed here; every
 * member that needs them takes a GameConfig.
 */
module Config {

  /** The difficulty tiers; each maps to one obstacle fall speed. */
  datatype DifficultyLevel = Easy | Medium | Hard

  datatype GameConfig = GameConfig(
    worldWidth: real,
    worldHeight: real,
    playerSize: real,
    playerBoundsRadius: real,
    maxPlayerXSpeed: real,
    obstacleSize: real,
    obstacleBoundsRadius: real,
    obstacleSpawnTime: real,
    scoreMaxTime: real,
    livesStart: int,
    easyObstacleSpeed: real,
    mediumObstacleSpeed: real,
    hardObstacleSpeed: real)
  {
    /** Every constant is positive and both entity kinds fit in the world's width. */
    predicate Valid()
    {
      0.0 < playerSize <= worldWidth && 0.0 < obstacleSize <= worldWidth &&
      0.0 < worldHeight && 0.0 < playerBoundsRadius && 0.0 < obstacleBoundsRadius &&
      0.0 < maxPlayerXSpeed && 0.0 < obstacleSpawnTime && 0.0 < scoreMaxTime &&
      0 < livesStart &&
      0.0 < easyObstacleSpeed && 0.0 < mediumObstacleSpeed && 0.0 < hardObstacleSpeed
    }

    /** The fall speed (world units per tick) of a difficulty tier. */
    function ObstacleSpeed(level: DifficultyLevel): real
    {
      match level
      case Easy => easyObstacleSpeed
      case Medium => mediumObstacleSpeed
      case Hard => hardObstacleSpeed
    }
  }
}
