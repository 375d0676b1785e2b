/**
 * What the simulation step promises: the invariants one tick preserves, what
 * each phase does to the state, the ordering that makes head-only eviction
 * sound, and what a run of ticks keeps.
 */
module GameProperties {
  import opened Config
  import opened SpriteBase
  import opened Obstacle
  import opened Manager
  import opened GameStep

  /** An obstacle as every obstacle of the game is: a square of the obstacle size with a centred bound. */
  ghost predicate Shaped(cfg: GameConfig, o: ObstacleState)
  {
    o.sprite.width == cfg.obstacleSize && o.sprite.height == cfg.obstacleSize &&
    o.sprite.bounds.radius == cfg.obstacleBoundsRadius && o.sprite.Centred()
  }

  /** The player is a square of the player size, its bound centred, and it lies inside the world. */
  ghost predicate PlayerInWorld(cfg: GameConfig, p: SpriteState)
  {
    p.width == cfg.playerSize && p.height == cfg.playerSize &&
    p.bounds.radius == cfg.playerBoundsRadius && p.Centred() &&
    0.0 <= p.x <= cfg.worldWidth - cfg.playerSize
  }

  /** The session invariant. */
  ghost predicate Inv(cfg: GameConfig, s: GameState)
  {
    0 <= s.lives && 0 <= s.score && s.displayScore <= s.score &&
    PlayerInWorld(cfg, s.player) &&
    (forall i :: 0 <= i < |s.obstacles| ==> Shaped(cfg, s.obstacles[i])) &&
    (forall i :: 0 <= i < |s.pool| ==> Shaped(cfg, s.pool[i]) && !s.pool[i].hit)
  }

  /** A new session satisfies the invariant and is not over. */
  lemma InitialStateInv(cfg: GameConfig, m: ManagerState)
    requires cfg.Valid()
    ensures Inv(cfg, InitialState(cfg, m)) && !InitialState(cfg, m).IsGameOver()
  {
  }

  /** Once the game is over a tick changes nothing. */
  lemma GameOverIsFinal(cfg: GameConfig, s: GameState, input: TickInput)
    requires s.IsGameOver()
    ensures Tick(cfg, s, input) == s
  {
  }

  // ------------------------------------------------------------ phase by phase

  /** Spawning: with the timer past the interval exactly one fresh-looking obstacle is appended. */
  lemma SpawnPhaseSpec(cfg: GameConfig, s: GameState, deltaTime: real, spawnX: real)
    requires cfg.Valid()
    requires forall i :: 0 <= i < |s.pool| ==> Shaped(cfg, s.pool[i]) && !s.pool[i].hit
    ensures var t := SpawnPhase(cfg, s, deltaTime, spawnX);
      t.lives == s.lives && t.score == s.score && t.displayScore == s.displayScore &&
      t.scoreTimer == s.scoreTimer && t.player == s.player && t.manager == s.manager &&
      if s.obstacleTimer + deltaTime > cfg.obstacleSpawnTime then
        |t.obstacles| == |s.obstacles| + 1 && t.obstacles[..|s.obstacles|] == s.obstacles &&
        t.obstacles[|s.obstacles|].sprite.x == spawnX &&
        t.obstacles[|s.obstacles|].sprite.y == cfg.worldHeight &&
        t.obstacles[|s.obstacles|].ySpeed == cfg.ObstacleSpeed(s.manager.difficulty) &&
        !t.obstacles[|s.obstacles|].hit && Shaped(cfg, t.obstacles[|s.obstacles|]) &&
        t.obstacleTimer == 0.0 &&
        (s.pool == [] ==> t.pool == []) &&
        (s.pool != [] ==> t.pool == s.pool[..|s.pool| - 1])
      else
        t.obstacles == s.obstacles && t.pool == s.pool &&
        t.obstacleTimer == s.obstacleTimer + deltaTime
  {
    if s.obstacleTimer + deltaTime > cfg.obstacleSpawnTime {
      var o := Obtained(cfg, s.pool);
      assert Shaped(cfg, o) && !o.hit;
      MovedToCentred(o.sprite, spawnX, cfg.worldHeight);
    }
  }

  /**
   * Eviction removes at most the head, and only when it is below
   * -obstacleSize; the rest keep their order and the head goes, cleared,
   * to the end of the pool.
   */
  lemma EvictPhaseSpec(cfg: GameConfig, s: GameState)
    ensures var t := EvictPhase(cfg, s);
      var evict := |s.obstacles| > 0 && s.obstacles[0].sprite.y < -cfg.obstacleSize;
      (evict ==> t.obstacles == s.obstacles[1..] && t.pool == s.pool + [s.obstacles[0].(hit := false)]) &&
      (!evict ==> t.obstacles == s.obstacles && t.pool == s.pool) &&
      t.(obstacles := s.obstacles, pool := s.pool) == s
  {
  }

  /** Score accrual: at the threshold the score grows by the draw and the timer restarts, else only the timer grows. */
  lemma ScorePhaseSpec(cfg: GameConfig, s: GameState, deltaTime: real, increment: int)
    requires 1 <= increment <= 5
    ensures var t := ScorePhase(cfg, s, deltaTime, increment);
      t.score >= s.score &&
      (s.scoreTimer + deltaTime >= cfg.scoreMaxTime ==> t.score == s.score + increment && t.scoreTimer == 0.0) &&
      (s.scoreTimer + deltaTime < cfg.scoreMaxTime ==> t.score == s.score && t.scoreTimer == s.scoreTimer + deltaTime) &&
      t.(score := s.score, scoreTimer := s.scoreTimer) == s
  {
  }

  /**
   * The displayed score never overtakes the score and, for a non-negative
   * frame time, never goes down: it moves by the smaller of the gap and
   * floor(60 * deltaTime).
   */
  lemma DisplayAfterSpec(display: int, score: int, deltaTime: real)
    ensures display <= score ==> DisplayAfter(display, score, deltaTime) <= score
    ensures deltaTime >= 0.0 ==> DisplayAfter(display, score, deltaTime) >= display
    ensures deltaTime >= 0.0 && display <= score ==>
      DisplayAfter(display, score, deltaTime) == display + Min(score - display, (60.0 * deltaTime).Floor)
  {
  }

  /**
   * The collision scan sets the latch of the first hittable obstacle only:
   * every other obstacle is unchanged, and no latch is ever cleared.
   */
  lemma ScannedSpec(obstacles: seq<ObstacleState>, player: SpriteState)
    ensures var r := Scanned(obstacles, player);
      var k := FirstHittable(obstacles, player);
      |r| == |obstacles| &&
      (forall j :: 0 <= j < |obstacles| && j != k ==> r[j] == obstacles[j]) &&
      (k < |obstacles| ==> r[k] == obstacles[k].(hit := true) && !obstacles[k].hit) &&
      (forall j :: 0 <= j < |obstacles| ==> (obstacles[j].hit ==> r[j].hit))
  {
  }

  /** The scan reports a hit exactly when some obstacle is hittable. */
  lemma FirstHittableFound(obstacles: seq<ObstacleState>, player: SpriteState)
    ensures FirstHittable(obstacles, player) < |obstacles| <==>
      exists j :: 0 <= j < |obstacles| && Hittable(obstacles[j], player)
  {
  }

  /**
   * A collision costs exactly one life. With lives left the board is
   * cleared and the player returned to the start, while score, display and
   * high score stay; on the last life the score is offered to the
   * high-score store and nothing restarts. Without a collision nothing
   * changes.
   */
  lemma CollisionPhaseSpec(cfg: GameConfig, s: GameState)
    ensures var t := CollisionPhase(cfg, s);
      var found := FirstHittable(s.obstacles, s.player) < |s.obstacles|;
      t.score == s.score && t.displayScore == s.displayScore &&
      t.obstacleTimer == s.obstacleTimer && t.scoreTimer == s.scoreTimer &&
      (!found ==> t == s) &&
      (found ==> t.lives == s.lives - 1) &&
      (found && t.lives > 0 ==>
        t.obstacles == [] && t.player == s.player.MovedTo(StartPlayerX(cfg), StartPlayerY(cfg)) &&
        t.manager == s.manager && t.pool == s.pool + ClearedAll(Scanned(s.obstacles, s.player))) &&
      (found && t.lives <= 0 ==>
        t.manager == UpdatedHighScore(s.manager, s.score) && t.player == s.player &&
        t.obstacles == Scanned(s.obstacles, s.player) && t.pool == s.pool)
  {
  }

  // --------------------------------------------------------------- whole tick

  /** Each phase keeps the invariant; so does the whole tick. */
  lemma TickKeepsInv(cfg: GameConfig, s: GameState, input: TickInput)
    requires cfg.Valid() && InputOk(cfg, input) && Inv(cfg, s)
    ensures Inv(cfg, Tick(cfg, s, input))
  {
    if !s.IsGameOver() {
      var moved := PlayerPhase(cfg, s, input.direction);
      assert Inv(cfg, moved);
      var fallen := AdvancePhase(moved);
      AdvanceKeepsInv(cfg, moved);
      var spawned := SpawnPhase(cfg, fallen, input.deltaTime, input.spawnX);
      SpawnKeepsInv(cfg, fallen, input.deltaTime, input.spawnX);
      var evicted := EvictPhase(cfg, spawned);
      assert Inv(cfg, evicted);
      var scored := ScorePhase(cfg, evicted, input.deltaTime, input.scoreIncrement);
      var shown := DisplayPhase(scored, input.deltaTime);
      assert Inv(cfg, shown);
      CollisionKeepsInv(cfg, shown);
    }
  }

  /** Falling keeps every live obstacle's shape. */
  lemma AdvanceKeepsInv(cfg: GameConfig, s: GameState)
    requires Inv(cfg, s)
    ensures Inv(cfg, AdvancePhase(s))
  {
    var t := AdvancePhase(s);
    forall i | 0 <= i < |t.obstacles| ensures Shaped(cfg, t.obstacles[i]) {
      MovedToCentred(s.obstacles[i].sprite, s.obstacles[i].sprite.x, s.obstacles[i].sprite.y - s.obstacles[i].ySpeed);
    }
  }

  /** A spawned obstacle has the obstacle's shape, and the pool it came from only shrinks. */
  lemma SpawnKeepsInv(cfg: GameConfig, s: GameState, deltaTime: real, spawnX: real)
    requires cfg.Valid() && Inv(cfg, s)
    ensures Inv(cfg, SpawnPhase(cfg, s, deltaTime, spawnX))
  {
    var t := SpawnPhase(cfg, s, deltaTime, spawnX);
    SpawnPhaseSpec(cfg, s, deltaTime, spawnX);
    if s.obstacleTimer + deltaTime > cfg.obstacleSpawnTime {
      forall i | 0 <= i < |t.obstacles| ensures Shaped(cfg, t.obstacles[i]) {
        if i < |s.obstacles| {
          assert t.obstacles[i] == t.obstacles[..|s.obstacles|][i];
        }
      }
    }
  }

  lemma CollisionKeepsInv(cfg: GameConfig, s: GameState)
    requires cfg.Valid() && Inv(cfg, s) && !s.IsGameOver()
    ensures Inv(cfg, CollisionPhase(cfg, s))
  {
    if FirstHittable(s.obstacles, s.player) < |s.obstacles| {
      var scanned := Scanned(s.obstacles, s.player);
      ScannedSpec(s.obstacles, s.player);
      assert forall i :: 0 <= i < |scanned| ==> Shaped(cfg, scanned[i]);
      var hit := s.(lives := s.lives - 1, obstacles := scanned);
      if !hit.IsGameOver() {
        var t := RestartPhase(cfg, hit);
        MovedToCentred(s.player, StartPlayerX(cfg), StartPlayerY(cfg));
        forall i | 0 <= i < |t.pool| ensures Shaped(cfg, t.pool[i]) && !t.pool[i].hit {
          if i >= |s.pool| {
            assert t.pool[i] == ClearedAll(scanned)[i - |s.pool|];
          }
        }
      }
    }
  }

  /**
   * One tick never lowers the score or the high score, never changes the
   * difficulty, and takes at most one life, and only while the game is on.
   */
  lemma TickMonotone(cfg: GameConfig, s: GameState, input: TickInput)
    requires InputOk(cfg, input)
    ensures var t := Tick(cfg, s, input);
      t.score >= s.score &&
      t.manager.highscore >= s.manager.highscore &&
      t.manager.difficulty == s.manager.difficulty &&
      (t.lives == s.lives || (t.lives == s.lives - 1 && !s.IsGameOver())) &&
      (input.deltaTime >= 0.0 ==> t.displayScore >= s.displayScore)
  {
    if !s.IsGameOver() {
      var moved := PlayerPhase(cfg, s, input.direction);
      var fallen := AdvancePhase(moved);
      var spawned := SpawnPhase(cfg, fallen, input.deltaTime, input.spawnX);
      var evicted := EvictPhase(cfg, spawned);
      var scored := ScorePhase(cfg, evicted, input.deltaTime, input.scoreIncrement);
      var shown := DisplayPhase(scored, input.deltaTime);
      DisplayAfterSpec(scored.displayScore, scored.score, input.deltaTime);
      CollisionPhaseSpec(cfg, shown);
    }
  }

  // ------------------------------------------------------- order of the falls

  /**
   * The live obstacles fall at the current difficulty's speed, never from
   * above the world, and each lies no higher than the ones spawned after it:
   * spawn order and height order agree.
   */
  ghost predicate FallingInOrder(cfg: GameConfig, s: GameState)
  {
    (forall i, j :: 0 <= i < j < |s.obstacles| ==> s.obstacles[i].sprite.y <= s.obstacles[j].sprite.y) &&
    (forall i :: 0 <= i < |s.obstacles| ==>
      s.obstacles[i].ySpeed == cfg.ObstacleSpeed(s.manager.difficulty) &&
      s.obstacles[i].sprite.y <= cfg.worldHeight)
  }

  /** While the difficulty is not changed between ticks, a tick keeps the obstacles falling in order. */
  lemma TickKeepsFallingOrder(cfg: GameConfig, s: GameState, input: TickInput)
    requires cfg.Valid() && FallingInOrder(cfg, s)
    ensures FallingInOrder(cfg, Tick(cfg, s, input))
  {
    if !s.IsGameOver() {
      var moved := PlayerPhase(cfg, s, input.direction);
      var fallen := AdvancePhase(moved);
      AdvanceKeepsOrder(cfg, moved);
      var spawned := SpawnPhase(cfg, fallen, input.deltaTime, input.spawnX);
      SpawnKeepsOrder(cfg, fallen, input.deltaTime, input.spawnX);
      var evicted := EvictPhase(cfg, spawned);
      var scored := ScorePhase(cfg, evicted, input.deltaTime, input.scoreIncrement);
      var shown := DisplayPhase(scored, input.deltaTime);
      assert FallingInOrder(cfg, shown);
      CollisionKeepsOrder(cfg, shown);
    }
  }

  lemma AdvanceKeepsOrder(cfg: GameConfig, s: GameState)
    requires cfg.Valid() && FallingInOrder(cfg, s)
    ensures FallingInOrder(cfg, AdvancePhase(s))
  {
  }

  lemma SpawnKeepsOrder(cfg: GameConfig, s: GameState, deltaTime: real, spawnX: real)
    requires FallingInOrder(cfg, s)
    ensures FallingInOrder(cfg, SpawnPhase(cfg, s, deltaTime, spawnX))
  {
    var t := SpawnPhase(cfg, s, deltaTime, spawnX);
    if s.obstacleTimer + deltaTime > cfg.obstacleSpawnTime {
      var n := |s.obstacles|;
      assert forall i :: 0 <= i < n ==> t.obstacles[i] == s.obstacles[i];
      assert t.obstacles[n].sprite.y == cfg.worldHeight;
    }
  }

  lemma CollisionKeepsOrder(cfg: GameConfig, s: GameState)
    requires FallingInOrder(cfg, s)
    ensures FallingInOrder(cfg, CollisionPhase(cfg, s))
  {
    if FirstHittable(s.obstacles, s.player) < |s.obstacles| {
      ScannedSpec(s.obstacles, s.player);
    }
  }

  /**
   * With the obstacles falling in order the head is the lowest one, so
   * whenever any live obstacle has left the world the head has too:
   * looking only at the head misses no obstacle for longer than the ticks
   * it takes to evict the ones before it.
   */
  lemma HeadLeavesFirst(cfg: GameConfig, s: GameState, k: int)
    requires FallingInOrder(cfg, s)
    requires 0 <= k < |s.obstacles| && s.obstacles[k].sprite.y < -cfg.obstacleSize
    ensures s.obstacles[0].sprite.y < -cfg.obstacleSize
  {
    if k > 0 {
      assert s.obstacles[0].sprite.y <= s.obstacles[k].sprite.y;
    }
  }

  // ------------------------------------------------------------- many ticks

  ghost predicate AllInputsOk(cfg: GameConfig, inputs: seq<TickInput>)
  {
    forall i :: 0 <= i < |inputs| ==> InputOk(cfg, inputs[i])
  }

  /** Every run of ticks keeps the session invariant. */
  lemma {:induction false} RunKeepsInv(cfg: GameConfig, s: GameState, inputs: seq<TickInput>)
    requires cfg.Valid() && AllInputsOk(cfg, inputs) && Inv(cfg, s)
    ensures Inv(cfg, Run(cfg, s, inputs))
    decreases |inputs|
  {
    if inputs != [] {
      TickKeepsInv(cfg, s, inputs[0]);
      assert AllInputsOk(cfg, inputs[1..]) by {
        forall i | 0 <= i < |inputs[1..]| ensures InputOk(cfg, inputs[1..][i]) {
          assert inputs[1..][i] == inputs[i + 1];
        }
      }
      RunKeepsInv(cfg, Tick(cfg, s, inputs[0]), inputs[1..]);
    }
  }

  /**
   * Over any run the score and the high score never go down, the
   * difficulty stays, lives never go up and are lost at most one per tick.
   */
  lemma {:induction false} RunMonotone(cfg: GameConfig, s: GameState, inputs: seq<TickInput>)
    requires AllInputsOk(cfg, inputs)
    ensures var t := Run(cfg, s, inputs);
      t.score >= s.score && t.manager.highscore >= s.manager.highscore &&
      t.manager.difficulty == s.manager.difficulty &&
      s.lives - |inputs| <= t.lives <= s.lives
    decreases |inputs|
  {
    if inputs != [] {
      TickMonotone(cfg, s, inputs[0]);
      assert AllInputsOk(cfg, inputs[1..]) by {
        forall i | 0 <= i < |inputs[1..]| ensures InputOk(cfg, inputs[1..][i]) {
          assert inputs[1..][i] == inputs[i + 1];
        }
      }
      RunMonotone(cfg, Tick(cfg, s, inputs[0]), inputs[1..]);
    }
  }

  /** Over any run, while the difficulty is not changed between ticks, the obstacles keep falling in order. */
  lemma {:induction false} RunKeepsFallingOrder(cfg: GameConfig, s: GameState, inputs: seq<TickInput>)
    requires cfg.Valid() && FallingInOrder(cfg, s)
    ensures FallingInOrder(cfg, Run(cfg, s, inputs))
    decreases |inputs|
  {
    if inputs != [] {
      TickKeepsFallingOrder(cfg, s, inputs[0]);
      RunKeepsFallingOrder(cfg, Tick(cfg, s, inputs[0]), inputs[1..]);
    }
  }

  /** The displayed score after n frames of the same length while the score stays put. */
  function DisplayAfterFrames(display: int, score: int, deltaTime: real, n: nat): int
    decreases n
  {
    if n == 0 then display else DisplayAfterFrames(DisplayAfter(display, score, deltaTime), score, deltaTime, n - 1)
  }

  /**
   * Once scoring stops, a displayed score behind by d reaches the score
   * within d frames, provided each frame lasts at least 1/60 of a second.
   */
  lemma {:induction false} DisplayCatchesUp(display: int, score: int, deltaTime: real, n: nat)
    requires display <= score && 60.0 * deltaTime >= 1.0 && n >= score - display
    ensures DisplayAfterFrames(display, score, deltaTime, n) == score
    decreases n
  {
    if n > 0 {
      var next := DisplayAfter(display, score, deltaTime);
      assert next <= score && (display < score ==> next >= display + 1) && (display == score ==> next == score);
      DisplayCatchesUp(next, score, deltaTime, n - 1);
    }
  }

  /**
   * As written, a frame shorter than 1/60 s truncates 60 * deltaTime to zero,
   * so a displayed score that is behind never moves, however many frames pass.
   */
  lemma {:induction false} DisplayStuck(display: int, score: int, deltaTime: real, n: nat)
    requires 0.0 <= deltaTime && 60.0 * deltaTime < 1.0
    ensures DisplayAfterFrames(display, score, deltaTime, n) == display
    decreases n
  {
    if n > 0 {
      assert Truncate(60.0 * deltaTime) == 0;
      assert DisplayAfter(display, score, deltaTime) == display;
      DisplayStuck(display, score, deltaTime, n - 1);
    }
  }

  /** The catch-up step as intended: while behind, at least one point per frame, never past the score. */
  function CatchUpDisplay(display: int, score: int, deltaTime: real): int
  {
    if display < score then Min(score, display + Max(1, Truncate(60.0 * deltaTime))) else display
  }

  function CatchUpFrames(display: int, score: int, deltaTime: real, n: nat): int
    decreases n
  {
    if n == 0 then display else CatchUpFrames(CatchUpDisplay(display, score, deltaTime), score, deltaTime, n - 1)
  }

  /** For frames of 1/60 s or longer the intended step is the written one. */
  lemma CatchUpAgreesAtFrameRate(display: int, score: int, deltaTime: real)
    requires 60.0 * deltaTime >= 1.0
    ensures CatchUpDisplay(display, score, deltaTime) == DisplayAfter(display, score, deltaTime)
  {
  }

  /** With the intended step a displayed score behind by d reaches the score within d frames, whatever the frame time. */
  lemma {:induction false} CatchUpConverges(display: int, score: int, deltaTime: real, n: nat)
    requires display <= score && n >= score - display
    ensures CatchUpFrames(display, score, deltaTime, n) == score
    decreases n
  {
    if n > 0 {
      var next := CatchUpDisplay(display, score, deltaTime);
      assert next <= score && (display < score ==> next >= display + 1) && (display == score ==> next == score);
      CatchUpConverges(next, score, deltaTime, n - 1);
    }
  }
}
