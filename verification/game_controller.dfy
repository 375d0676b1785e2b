/**
 * The game's state machine: lives, score, displayed score, the spawn and
 * score timers, the player and the ordered live obstacles, updated in place
 * once per frame. Every operation is proved against the value-level step of
 * module GameStep: after it, State() is what that step makes of the state
 * before.
 */
module Controller {
  import opened Config
  import opened SpriteBase
  import opened Player
  import opened Obstacle
  import opened Factory
  import opened Manager
  import opened GameStep

  class GameController {
    const cfg: GameConfig
    const factory: EntityFactory
    /** The shared high-score and difficulty store. */
    const manager: GameManager
    const player: PlayerSprite
    const background: Background
    const startPlayerX: real
    const startPlayerY: real
    /** The live obstacles in spawn order. */
    var obstacles: seq<ObstacleSprite>
    var obstacleTimer: real
    var scoreTimer: real
    var lives: int
    var score: int
    var displayScore: int

    /** Every object the controller has touched: itself, the factory, the store, the player's sprite and all obstacles. */
    ghost var Repr: set<object>

    /** The objects are arranged as the game leaves them, and the start position is the configured one. */
    ghost predicate Valid()
      reads this, factory
    {
      factory.cfg == cfg &&
      startPlayerX == StartPlayerX(cfg) && startPlayerY == StartPlayerY(cfg) &&
      {this, factory, manager, player.base} <= Repr &&
      Arranged(obstacles, factory.freeList, player.base, Repr)
    }

    /** The controller's state as a value: session counters, player, live obstacles, pool and store. */
    ghost function State(): GameState
      reads this, factory, player.base, manager, Obstacles(obstacles), Bases(obstacles),
            Obstacles(factory.freeList), Bases(factory.freeList)
    {
      GameState(lives, score, displayScore, obstacleTimer, scoreTimer, player.base.Snapshot(),
                Snapshots(obstacles), Snapshots(factory.freeList), manager.State())
    }

    /** The game is over exactly when the controller's state, as a value, is over. */
    function IsGameOver(): (over: bool)
      reads this, factory, player.base, manager, Obstacles(obstacles), Bases(obstacles),
            Obstacles(factory.freeList), Bases(factory.freeList)
      ensures over <==> State().IsGameOver()
    {
      lives <= 0
    }

    /** A new session: the player at its start position, full lives, no obstacles, an empty pool. */
    constructor (cfg: GameConfig, manager: GameManager,
                 playerRegionWidth: real, playerRegionHeight: real,
                 obstacleRegionWidth: real, obstacleRegionHeight: real)
      ensures Valid() && State() == InitialState(cfg, manager.State())
      ensures this.cfg == cfg && this.manager == manager
      ensures fresh(Repr - {manager})
    {
      this.cfg := cfg;
      this.manager := manager;
      var entityFactory := new EntityFactory(cfg, playerRegionWidth, playerRegionHeight,
                                             obstacleRegionWidth, obstacleRegionHeight);
      factory := entityFactory;
      var playerSprite := entityFactory.CreatePlayer();
      player := playerSprite;
      var backdrop := entityFactory.CreateBackground();
      background := backdrop;
      startPlayerX := (cfg.worldWidth - cfg.playerSize) / 2.0;
      startPlayerY := 1.0 - cfg.playerSize / 2.0;
      obstacles := [];
      obstacleTimer, scoreTimer := 0.0, 0.0;
      lives := cfg.livesStart;
      score, displayScore := 0, 0;
      Repr := {this, entityFactory, manager, playerSprite.base};
      new;
      player.base.SetPosition(startPlayerX, startPlayerY);
    }

    /**
     * One frame. `rightPressed` and `leftPressed` are the keyboard poll;
     * `spawnX` and `scoreIncrement` are the random draws the frame may use.
     */
    method Update(deltaTime: real, rightPressed: bool, leftPressed: bool, spawnX: real, scoreIncrement: int)
      requires Valid() && InputOk(cfg, TickInput(deltaTime, DirectionOf(rightPressed, leftPressed), spawnX, scoreIncrement))
      modifies Repr
      ensures Valid()
      ensures State() == Tick(cfg, old(State()), TickInput(deltaTime, DirectionOf(rightPressed, leftPressed), spawnX, scoreIncrement))
      ensures fresh(Repr - old(Repr))
    {
      if IsGameOver() {
        return;
      }
      ghost var s0 := State();
      UpdatePlayer(rightPressed, leftPressed);
      ghost var s1 := State();
      UpdateObstacles(deltaTime, spawnX);
      ghost var s2 := State();
      UpdateScore(deltaTime, scoreIncrement);
      ghost var s3 := State();
      UpdateDisplayScore(deltaTime);
      ghost var s4 := State();
      TickSteps(cfg, s0, TickInput(deltaTime, DirectionOf(rightPressed, leftPressed), spawnX, scoreIncrement), s1, s2, s3, s4);
      HandleCollision();
    }

    /**
     * The end of a frame: a hit costs one life; with lives left the board
     * restarts, otherwise the score is offered to the high-score store.
     */
    method HandleCollision()
      requires Valid()
      modifies this, factory, manager, Obstacles(obstacles), player.base
      ensures Valid() && State() == CollisionPhase(cfg, old(State()))
      ensures Repr == old(Repr)
    {
      ghost var s0 := State();
      var colliding := IsPlayerCollidingWithObstacle();
      ghost var scanned := State();
      CollisionSteps(cfg, s0, scanned, colliding);
      if colliding {
        LoseLife();
      }
    }

    /** A hit: one life less, then the score goes to the store if the game is over, otherwise the board restarts. */
    method LoseLife()
      requires Valid()
      modifies this, factory, manager, Obstacles(obstacles), player.base
      ensures Valid()
      ensures var hit := old(State()).(lives := old(lives) - 1);
        State() == if hit.IsGameOver() then hit.(manager := UpdatedHighScore(hit.manager, hit.score)) else RestartPhase(cfg, hit)
      ensures Repr == old(Repr)
    {
      lives := lives - 1;
      if IsGameOver() {
        manager.UpdateHighScore(score);
      } else {
        Restart();
      }
    }

    /** Sends every live obstacle back to the pool and the player back to the start. */
    method Restart()
      requires Valid()
      modifies this, factory, Obstacles(obstacles), player.base
      ensures Valid() && State() == RestartPhase(cfg, old(State()))
      ensures Repr == old(Repr)
    {
      ghost var live := Snapshots(obstacles);
      ghost var pool := Snapshots(factory.freeList);
      ghost var oldPool := factory.freeList;
      ArrangedRestart(obstacles, factory.freeList, player.base, Repr);

      factory.FreeAll(obstacles);
      obstacles := [];
      player.base.SetPosition(startPlayerX, startPlayerY);

      assert Snapshots(factory.freeList) == pool + ClearedAll(live) by {
        forall k | 0 <= k < |oldPool| ensures factory.freeList[k].Snapshot() == pool[k] {
          assert factory.freeList[k] == oldPool[k];
        }
      }
    }

    /** The keyboard step: move by the polled direction's speed, then keep the player inside the world. */
    method UpdatePlayer(rightPressed: bool, leftPressed: bool)
      requires Valid()
      modifies player.base
      ensures Valid() && State() == PlayerPhase(cfg, old(State()), DirectionOf(rightPressed, leftPressed))
    {
      var xSpeed := 0.0;
      if rightPressed {
        xSpeed := cfg.maxPlayerXSpeed;
      } else if leftPressed {
        xSpeed := xSpeed - cfg.maxPlayerXSpeed;
      }
      player.base.SetX(player.base.x + xSpeed);
      BlockPlayerFromLeavingTheWorld();
    }

    /** Clamps the player's x to [0, worldWidth - width], keeping y. */
    method BlockPlayerFromLeavingTheWorld()
      requires Valid()
      modifies player.base
      ensures Valid()
      ensures State() == old(State()).(player := old(State()).player.MovedTo(
                Clamp(old(player.base.x), 0.0, cfg.worldWidth - old(player.base.width)), old(player.base.y)))
    {
      var playerX := Clamp(player.base.x, 0.0, cfg.worldWidth - player.base.width);
      player.base.SetPosition(playerX, player.base.y);
    }

    /** The touch step: while the game is on, x becomes the pointer's world x clamped to the world. */
    method TouchMove(pointerX: real)
      requires Valid()
      modifies player.base
      ensures Valid() && State() == TouchPhase(cfg, old(State()), pointerX)
    {
      if !IsGameOver() {
        var clampedX := Clamp(pointerX, 0.0, cfg.worldWidth - player.base.width);
        player.base.SetX(clampedX);
      }
    }

    method UpdateScore(deltaTime: real, scoreIncrement: int)
      requires Valid()
      modifies this
      ensures Valid() && State() == ScorePhase(cfg, old(State()), deltaTime, scoreIncrement)
      ensures Repr == old(Repr)
    {
      scoreTimer := scoreTimer + deltaTime;
      if scoreTimer >= cfg.scoreMaxTime {
        score := score + scoreIncrement;
        scoreTimer := 0.0;
      }
    }

    method UpdateDisplayScore(deltaTime: real)
      requires Valid()
      modifies this
      ensures Valid() && State() == DisplayPhase(old(State()), deltaTime)
      ensures Repr == old(Repr)
    {
      if displayScore < score {
        displayScore := Min(score, displayScore + Truncate(60.0 * deltaTime));
      }
    }

    /**
     * The collision test: true when some live obstacle not yet hit overlaps
     * the player; that obstacle's hit latch is then set.
     */
    method IsPlayerCollidingWithObstacle() returns (colliding: bool)
      requires Valid()
      modifies Obstacles(obstacles)
      ensures Valid()
      ensures colliding <==> FirstHittable(old(State()).obstacles, old(State()).player) < |old(obstacles)|
      ensures State() == old(State()).(obstacles := Scanned(old(State()).obstacles, old(State()).player))
    {
      ghost var before := Snapshots(obstacles);
      ghost var pool := Snapshots(factory.freeList);
      colliding := ScanObstacles();
      assert Snapshots(obstacles) == Scanned(before, player.base.Snapshot());
      assert Snapshots(factory.freeList) == pool;
    }

    /**
     * The short-circuit scan: walks the live obstacles in order, skips those
     * already hit, and stops at the first that overlaps the player, whose
     * hit latch is then set.
     */
    method ScanObstacles() returns (colliding: bool)
      requires Distinct(obstacles)
      modifies Obstacles(obstacles)
      ensures var before := old(Snapshots(obstacles));
        colliding <==> FirstHittable(before, player.base.Snapshot()) < |before|
      ensures var scanned := Scanned(old(Snapshots(obstacles)), player.base.Snapshot());
        forall k :: 0 <= k < |obstacles| ==> obstacles[k].Snapshot() == scanned[k]
    {
      ghost var before := Snapshots(obstacles);
      ghost var p := player.base.Snapshot();
      var i := 0;
      while i < |obstacles|
        invariant 0 <= i <= |obstacles|
        invariant forall k :: 0 <= k < i ==> !Hittable(before[k], p)
        invariant forall k :: 0 <= k < |obstacles| ==> obstacles[k].Snapshot() == before[k]
      {
        var obstacle := obstacles[i];
        if !obstacle.IsHit() {
          var overlapping := obstacle.IsPlayerColliding(player);
          if overlapping {
            colliding := true;
            assert FirstHittable(before, p) == i;
            return;
          }
        }
        i := i + 1;
      }
      colliding := false;
    }

    /** Drops every live obstacle, maybe spawns one, maybe evicts the head. */
    method UpdateObstacles(deltaTime: real, spawnX: real)
      requires Valid()
      modifies Repr
      ensures Valid()
      ensures State() == EvictPhase(cfg, SpawnPhase(cfg, AdvancePhase(old(State())), deltaTime, spawnX))
      ensures fresh(Repr - old(Repr))
    {
      AdvanceObstacles();
      CreateNewObstacle(deltaTime, spawnX);
      RemovePassedObstacles();
    }

    /** Each live obstacle falls by its own speed. */
    method AdvanceObstacles()
      requires Valid()
      modifies Bases(obstacles)
      ensures Valid() && State() == AdvancePhase(old(State()))
    {
      ghost var before := Snapshots(obstacles);
      ghost var pool := Snapshots(factory.freeList);
      DropObstacles();
      assert Snapshots(obstacles) == Advanced(before);
      assert Snapshots(factory.freeList) == pool;
    }

    /** The loop of the obstacle update: every live obstacle falls once, in order. */
    method DropObstacles()
      requires Distinct(obstacles)
      modifies Bases(obstacles)
      ensures forall k :: 0 <= k < |obstacles| ==> obstacles[k].Snapshot() == old(obstacles[k].Snapshot()).Fallen()
    {
      ghost var before := Snapshots(obstacles);
      var i := 0;
      while i < |obstacles|
        invariant 0 <= i <= |obstacles|
        invariant forall k :: 0 <= k < i ==> obstacles[k].Snapshot() == before[k].Fallen()
        invariant forall k :: i <= k < |obstacles| ==> obstacles[k].Snapshot() == before[k]
      {
        obstacles[i].Update();
        i := i + 1;
      }
    }

    /** The spawn timer accrues the frame time; past the spawn interval an obstacle is spawned at the drawn x. */
    method CreateNewObstacle(deltaTime: real, spawnX: real)
      requires Valid()
      modifies this, factory, Obstacles(factory.freeList), Bases(factory.freeList)
      ensures Valid() && State() == SpawnPhase(cfg, old(State()), deltaTime, spawnX)
      ensures fresh(Repr - old(Repr))
    {
      obstacleTimer := obstacleTimer + deltaTime;
      if obstacleTimer > cfg.obstacleSpawnTime {
        SpawnObstacle(spawnX, cfg.worldHeight);
      }
    }

    /**
     * An obstacle is obtained from the pool, given the current difficulty's
     * speed, placed at (x, y) and appended to the live obstacles; the spawn
     * timer restarts.
     */
    method SpawnObstacle(obstacleX: real, obstacleY: real)
      requires Valid()
      modifies this, factory, Obstacles(factory.freeList), Bases(factory.freeList)
      ensures Valid()
      ensures var s := old(State());
        State() == s.(obstacles := s.obstacles + [Placed(cfg, s, obstacleX, obstacleY)],
                      pool := AfterObtain(s.pool), obstacleTimer := 0.0)
      ensures fresh(Repr - old(Repr))
    {
      var obstacle := ObtainObstacle(obstacleX, obstacleY);
      ghost var others := obstacles;
      ghost var mid := State();
      ghost var o := obstacle.Snapshot();
      SnapshotsAppend(others, obstacle);
      obstacles, obstacleTimer, Repr := obstacles + [obstacle], 0.0, Repr + {obstacle, obstacle.base};

    }

    /** Obtains an obstacle from the pool, gives it the current difficulty's speed and places it at (x, y). */
    method ObtainObstacle(obstacleX: real, obstacleY: real) returns (obstacle: ObstacleSprite)
      requires Valid()
      modifies factory, Obstacles(factory.freeList), Bases(factory.freeList)
      ensures Arranged(obstacles + [obstacle], factory.freeList, player.base, Repr + {obstacle, obstacle.base})
      ensures fresh({obstacle, obstacle.base} - old(Repr))
      ensures var s := old(State());
        obstacle.Snapshot() == Placed(cfg, s, obstacleX, obstacleY) && State() == s.(pool := AfterObtain(s.pool))
    {
      ghost var live := Snapshots(obstacles);
      ghost var pool := Snapshots(factory.freeList);
      ghost var free := factory.freeList;

      obstacle := factory.Obtain();
      ArrangedObtain(obstacles, free, factory.freeList, player.base, Repr, obstacle);
      var difficultyLevel := manager.GetDifficultyLevel();
      obstacle.SetYSpeed(cfg.ObstacleSpeed(difficultyLevel));
      obstacle.SetPosition(obstacleX, obstacleY);

      assert Snapshots(factory.freeList) == AfterObtain(pool);
      assert Snapshots(obstacles) == live;
    }

    /** Only the head is checked: once below -obstacleSize it leaves the live list and goes back to the pool. */
    method RemovePassedObstacles()
      requires Valid()
      modifies this, factory, Obstacles(obstacles)
      ensures Valid() && State() == EvictPhase(cfg, old(State()))
      ensures Repr == old(Repr)
    {
      if |obstacles| > 0 {
        var first := obstacles[0];
        var minObstacleY := -cfg.obstacleSize;
        if first.base.y < minObstacleY {
          ghost var live := Snapshots(obstacles);
          ghost var pool := Snapshots(factory.freeList);
          ArrangedEvict(obstacles, factory.freeList, player.base, Repr);

          obstacles := obstacles[1..];
          factory.Free(first);

          assert Snapshots(obstacles) == live[1..];
          assert Snapshots(factory.freeList) == pool + [live[0].Cleared()];
        }
      }
    }
  }

  /**
   * How the controller's objects are arranged: no obstacle (nor sprite base)
   * listed twice or both live and pooled, the player's sprite none of the
   * obstacles', and all of them inside the footprint.
   */
  predicate Arranged(live: seq<ObstacleSprite>, pool: seq<ObstacleSprite>, playerBase: GameSpriteBase, repr: set<object>)
  {
    Distinct(live) && Distinct(pool) &&
    Obstacles(live) !! Obstacles(pool) && Bases(live) !! Bases(pool) &&
    playerBase !in Bases(live) && playerBase !in Bases(pool) &&
    Obstacles(live) <= repr && Bases(live) <= repr && Obstacles(pool) <= repr && Bases(pool) <= repr
  }

  /**
   * Obtaining an obstacle (the last pooled one, or one not yet in the
   * footprint) and appending it to the live obstacles keeps the arrangement.
   */
  lemma ArrangedObtain(live: seq<ObstacleSprite>, pool: seq<ObstacleSprite>, rest: seq<ObstacleSprite>,
                       playerBase: GameSpriteBase, repr: set<object>, o: ObstacleSprite)
    requires Arranged(live, pool, playerBase, repr) && playerBase in repr
    requires pool != [] ==> o == pool[|pool| - 1] && rest == pool[..|pool| - 1]
    requires pool == [] ==> o !in repr && o.base !in repr && rest == []
    ensures Arranged(live + [o], rest, playerBase, repr + {o, o.base})
    ensures o !in Obstacles(live) && o.base !in Bases(live) && o !in Obstacles(rest) && o.base !in Bases(rest)
  {
    if pool != [] {
      DistinctLast(pool);
    }
    DistinctAppend(live, o);
  }

  /** Moving the head of the live obstacles to the end of the pool keeps the arrangement. */
  lemma ArrangedEvict(live: seq<ObstacleSprite>, pool: seq<ObstacleSprite>, playerBase: GameSpriteBase, repr: set<object>)
    requires Arranged(live, pool, playerBase, repr) && |live| > 0
    ensures Arranged(live[1..], pool + [live[0]], playerBase, repr)
    ensures forall k :: 1 <= k < |live| ==> live[k] != live[0] && live[k].base != live[0].base
    ensures forall k :: 0 <= k < |pool| ==> pool[k] != live[0] && pool[k].base != live[0].base
  {
    DistinctFirst(live);
    assert live[0] in Obstacles(live) && live[0].base in Bases(live);
    DistinctAppend(pool, live[0]);
    forall k | 0 <= k < |pool| ensures pool[k] != live[0] && pool[k].base != live[0].base {
      assert pool[k] in Obstacles(pool) && pool[k].base in Bases(pool);
    }
  }

  /** Moving every live obstacle to the end of the pool keeps the arrangement. */
  lemma ArrangedRestart(live: seq<ObstacleSprite>, pool: seq<ObstacleSprite>, playerBase: GameSpriteBase, repr: set<object>)
    requires Arranged(live, pool, playerBase, repr)
    ensures Arranged([], pool + live, playerBase, repr)
    ensures forall k :: 0 <= k < |pool| ==> pool[k] !in Obstacles(live)
  {
    DistinctConcat(pool, live);
    forall k | 0 <= k < |pool| ensures pool[k] !in Obstacles(live) {
      assert pool[k] in Obstacles(pool);
    }
  }

  /** The collision phase after the scan: nothing more without a hit, otherwise one life less and then the store or a restart. */
  lemma CollisionSteps(cfg: GameConfig, s: GameState, scanned: GameState, colliding: bool)
    requires scanned == s.(obstacles := Scanned(s.obstacles, s.player))
    requires colliding <==> FirstHittable(s.obstacles, s.player) < |s.obstacles|
    ensures !colliding ==> CollisionPhase(cfg, s) == scanned
    ensures colliding ==>
      var hit := scanned.(lives := scanned.lives - 1);
      CollisionPhase(cfg, s) ==
        if hit.IsGameOver() then hit.(manager := UpdatedHighScore(hit.manager, hit.score)) else RestartPhase(cfg, hit)
  {
  }

  /** A tick that is not a no-op is its six phases in order. */
  lemma TickSteps(cfg: GameConfig, s: GameState, input: TickInput, s1: GameState, s2: GameState, s3: GameState, s4: GameState)
    requires !s.IsGameOver()
    requires s1 == PlayerPhase(cfg, s, input.direction)
    requires s2 == EvictPhase(cfg, SpawnPhase(cfg, AdvancePhase(s1), input.deltaTime, input.spawnX))
    requires s3 == ScorePhase(cfg, s2, input.deltaTime, input.scoreIncrement)
    requires s4 == DisplayPhase(s3, input.deltaTime)
    ensures Tick(cfg, s, input) == CollisionPhase(cfg, s4)
  {
  }
}
