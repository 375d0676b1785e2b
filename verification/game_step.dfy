/**
 * The per-frame simulation step on values: the reference model the game
 * controller is proved against. A step moves and clamps the player, drops
 * every obstacle by its speed, maybe spawns one obstacle, maybe evicts the
 * head obstacle, accrues score, lets the displayed score catch up, and
 * finally scans for a collision, which costs a life and leads either to a
 * restart of the board or to game over. Once the lives are used up a step
 * changes nothing.
 *
 * The random draws and the keyboard state are inputs: `spawnX` is the
 * obstacle's horizontal position, drawn from [0, worldWidth - obstacleSize],
 * and `scoreIncrement` is the score bonus, drawn from 1 to 5 inclusive.
 */
module GameStep {
  import opened Config
  import opened SpriteBase
  import opened Obstacle
  import opened Manager

  datatype Direction = Left | Right | Idle

  /** The keyboard poll: RIGHT wins when both arrows are held. */
  function DirectionOf(rightPressed: bool, leftPressed: bool): (d: Direction)
    ensures d == Right <==> rightPressed
    ensures d == Left <==> !rightPressed && leftPressed
    ensures d == Idle <==> !rightPressed && !leftPressed
  {
    if rightPressed then Right else if leftPressed then Left else Idle
  }

  /** The player's horizontal step for one tick. */
  function XSpeed(cfg: GameConfig, d: Direction): real
  {
    match d
    case Right => cfg.maxPlayerXSpeed
    case Left => 0.0 - cfg.maxPlayerXSpeed
    case Idle => 0.0
  }

  /** What one tick consumes from the outside world. */
  datatype TickInput = TickInput(deltaTime: real, direction: Direction, spawnX: real, scoreIncrement: int)

  /** The random draws lie in the ranges they are drawn from. */
  predicate InputOk(cfg: GameConfig, input: TickInput)
  {
    0.0 <= input.spawnX <= cfg.worldWidth - cfg.obstacleSize && 1 <= input.scoreIncrement <= 5
  }

  datatype GameState = GameState(
    lives: int,
    score: int,
    displayScore: int,
    obstacleTimer: real,
    scoreTimer: real,
    player: SpriteState,
    obstacles: seq<ObstacleState>,
    pool: seq<ObstacleState>,
    manager: ManagerState)
  {
    predicate IsGameOver()
    {
      lives <= 0
    }
  }

  /** Clamping as the game's math utility does it: below min gives min, above max gives max. */
  function Clamp(value: real, min: real, max: real): real
  {
    if value < min then min else if value > max then max else value
  }

  function StartPlayerX(cfg: GameConfig): real
  {
    (cfg.worldWidth - cfg.playerSize) / 2.0
  }

  function StartPlayerY(cfg: GameConfig): real
  {
    1.0 - cfg.playerSize / 2.0
  }

  /** A new session: full lives, no score, no obstacles, an empty pool, the player at the start. */
  function InitialState(cfg: GameConfig, manager: ManagerState): GameState
  {
    var player := SpriteState(0.0, 0.0, cfg.playerSize, cfg.playerSize,
                              Circle(cfg.playerSize / 2.0, cfg.playerSize / 2.0, cfg.playerBoundsRadius));
    GameState(cfg.livesStart, 0, 0, 0.0, 0.0, player.MovedTo(StartPlayerX(cfg), StartPlayerY(cfg)), [], [], manager)
  }

  // ---------------------------------------------------------------- 1. player

  /**
   * The keyboard step: x moves by the direction's speed and is then clamped
   * to [0, worldWidth - width]. The player never leaves the world, y and the
   * size do not change, and an unclamped move is taken exactly.
   */
  function MovePlayer(cfg: GameConfig, p: SpriteState, d: Direction): (r: SpriteState)
    ensures r.y == p.y && r.width == p.width && r.height == p.height
    ensures r.bounds.radius == p.bounds.radius && r.Centred()
    ensures p.width <= cfg.worldWidth ==> 0.0 <= r.x <= cfg.worldWidth - p.width
    ensures 0.0 <= p.x + XSpeed(cfg, d) <= cfg.worldWidth - p.width ==> r.x == p.x + XSpeed(cfg, d)
  {
    var stepped := p.MovedTo(p.x + XSpeed(cfg, d), p.y);
    stepped.MovedTo(Clamp(stepped.x, 0.0, cfg.worldWidth - stepped.width), stepped.y)
  }

  /**
   * The touch step: x becomes the pointer's world x clamped to
   * [0, worldWidth - width]; y and the size do not change.
   */
  function PointerMove(cfg: GameConfig, p: SpriteState, pointerX: real): (r: SpriteState)
    ensures r.y == p.y && r.width == p.width && r.height == p.height
    ensures r.bounds.radius == p.bounds.radius && r.Centred()
    ensures p.width <= cfg.worldWidth ==> 0.0 <= r.x <= cfg.worldWidth - p.width
    ensures 0.0 <= pointerX <= cfg.worldWidth - p.width ==> r.x == pointerX
  {
    p.MovedTo(Clamp(pointerX, 0.0, cfg.worldWidth - p.width), p.y)
  }

  function PlayerPhase(cfg: GameConfig, s: GameState, d: Direction): GameState
  {
    s.(player := MovePlayer(cfg, s.player, d))
  }

  /** A touch moves the player only while the game is not over. */
  function TouchPhase(cfg: GameConfig, s: GameState, pointerX: real): GameState
  {
    if s.IsGameOver() then s else s.(player := PointerMove(cfg, s.player, pointerX))
  }

  // ------------------------------------------------------------- 2. obstacles

  function Advanced(obstacles: seq<ObstacleState>): seq<ObstacleState>
  {
    seq(|obstacles|, i requires 0 <= i < |obstacles| => obstacles[i].Fallen())
  }

  function AdvancePhase(s: GameState): GameState
  {
    s.(obstacles := Advanced(s.obstacles))
  }

  // ----------------------------------------------------------------- 3. spawn

  /** The obstacle the pool hands out: the last free one, or a new one when none is free. */
  function Obtained(cfg: GameConfig, pool: seq<ObstacleState>): ObstacleState
  {
    if pool == [] then NewObstacle(cfg.obstacleSize, cfg.obstacleBoundsRadius, cfg.mediumObstacleSpeed)
    else pool[|pool| - 1]
  }

  function AfterObtain(pool: seq<ObstacleState>): seq<ObstacleState>
  {
    if pool == [] then [] else pool[..|pool| - 1]
  }

  /** The obstacle a spawn appends: the obtained one with the current difficulty's speed, moved to (x, y). */
  function Placed(cfg: GameConfig, s: GameState, x: real, y: real): ObstacleState
  {
    var obtained := Obtained(cfg, s.pool);
    obtained.(ySpeed := cfg.ObstacleSpeed(s.manager.difficulty), sprite := obtained.sprite.MovedTo(x, y))
  }

  /**
   * The spawn timer accrues the frame time; once it exceeds the spawn
   * interval (strictly) an obstacle is obtained, given the current
   * difficulty's speed, placed at (spawnX, worldHeight), appended to the
   * live obstacles, and the timer restarts from zero.
   */
  function SpawnPhase(cfg: GameConfig, s: GameState, deltaTime: real, spawnX: real): GameState
  {
    var timer := s.obstacleTimer + deltaTime;
    if timer > cfg.obstacleSpawnTime then
      s.(obstacles := s.obstacles + [Placed(cfg, s, spawnX, cfg.worldHeight)],
         pool := AfterObtain(s.pool), obstacleTimer := 0.0)
    else
      s.(obstacleTimer := timer)
  }

  // ----------------------------------------------------------------- 4. evict

  /** Only the head is looked at: once it is below -obstacleSize it goes back to the pool. */
  function EvictPhase(cfg: GameConfig, s: GameState): GameState
  {
    if |s.obstacles| > 0 && s.obstacles[0].sprite.y < -cfg.obstacleSize then
      s.(obstacles := s.obstacles[1..], pool := s.pool + [s.obstacles[0].Cleared()])
    else
      s
  }

  // ----------------------------------------------------------------- 5. score

  /** The score timer accrues the frame time; at the threshold the score gains the draw and the timer restarts. */
  function ScorePhase(cfg: GameConfig, s: GameState, deltaTime: real, increment: int): GameState
  {
    var timer := s.scoreTimer + deltaTime;
    if timer >= cfg.scoreMaxTime then s.(score := s.score + increment, scoreTimer := 0.0)
    else s.(scoreTimer := timer)
  }

  /** A cast of a real to an integer, dropping the fraction (toward zero). */
  function Truncate(r: real): int
  {
    if r >= 0.0 then r.Floor else 0 - (-r).Floor
  }

  function Min(a: int, b: int): int
  {
    if a < b then a else b
  }

  /** The displayed score, while behind, moves toward the score by (60 * deltaTime) truncated, never past it. */
  function DisplayAfter(display: int, score: int, deltaTime: real): int
  {
    if display < score then Min(score, display + Truncate(60.0 * deltaTime)) else display
  }

  function DisplayPhase(s: GameState, deltaTime: real): GameState
  {
    s.(displayScore := DisplayAfter(s.displayScore, s.score, deltaTime))
  }

  // ------------------------------------------------------------- 6. collision

  /** An obstacle that can still cost a life: not yet hit, and overlapping the player. */
  predicate Hittable(o: ObstacleState, player: SpriteState)
  {
    !o.hit && Overlaps(player.bounds, o.sprite.bounds)
  }

  /** The index where the short-circuit scan stops: the first hittable obstacle, or the length if none is. */
  function FirstHittable(obstacles: seq<ObstacleState>, player: SpriteState): (k: nat)
    ensures k <= |obstacles|
    ensures forall j :: 0 <= j < k ==> !Hittable(obstacles[j], player)
    ensures k < |obstacles| ==> Hittable(obstacles[k], player)
  {
    if obstacles == [] then 0
    else if Hittable(obstacles[0], player) then 0
    else 1 + FirstHittable(obstacles[1..], player)
  }

  /** The obstacles after the scan: the first hittable one, if any, has its hit latch set. */
  function Scanned(obstacles: seq<ObstacleState>, player: SpriteState): seq<ObstacleState>
  {
    var k := FirstHittable(obstacles, player);
    if k < |obstacles| then obstacles[k := obstacles[k].(hit := true)] else obstacles
  }

  function ClearedAll(obstacles: seq<ObstacleState>): seq<ObstacleState>
  {
    seq(|obstacles|, i requires 0 <= i < |obstacles| => obstacles[i].Cleared())
  }

  /** Restart of the board: every live obstacle goes back to the pool and the player to the start. */
  function RestartPhase(cfg: GameConfig, s: GameState): GameState
  {
    s.(pool := s.pool + ClearedAll(s.obstacles), obstacles := [],
       player := s.player.MovedTo(StartPlayerX(cfg), StartPlayerY(cfg)))
  }

  /**
   * A hit costs one life; with lives left the board restarts, otherwise the
   * game is over and the score is offered to the high-score store.
   */
  function CollisionPhase(cfg: GameConfig, s: GameState): GameState
  {
    if FirstHittable(s.obstacles, s.player) == |s.obstacles| then s
    else
      var hit := s.(lives := s.lives - 1, obstacles := Scanned(s.obstacles, s.player));
      if hit.IsGameOver() then hit.(manager := UpdatedHighScore(s.manager, s.score))
      else RestartPhase(cfg, hit)
  }

  // ------------------------------------------------------------------ the step

  function Tick(cfg: GameConfig, s: GameState, input: TickInput): GameState
  {
    if s.IsGameOver() then s
    else
      var moved := PlayerPhase(cfg, s, input.direction);
      var fallen := AdvancePhase(moved);
      var spawned := SpawnPhase(cfg, fallen, input.deltaTime, input.spawnX);
      var evicted := EvictPhase(cfg, spawned);
      var scored := ScorePhase(cfg, evicted, input.deltaTime, input.scoreIncrement);
      var shown := DisplayPhase(scored, input.deltaTime);
      CollisionPhase(cfg, shown)
  }

  /** A run of consecutive ticks. */
  function Run(cfg: GameConfig, s: GameState, inputs: seq<TickInput>): GameState
    decreases |inputs|
  {
    if inputs == [] then s else Run(cfg, Tick(cfg, s, inputs[0]), inputs[1..])
  }
}
