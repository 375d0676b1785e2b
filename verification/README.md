# obstacle-avoid: the game loop in Dafny

obstacle-avoid is a small libGDX game. The player slides a square sprite left and
right along the bottom of the world while obstacles fall from the top. Every
tick the game does these steps in order:

1. moves and clamps the player;
2. drops every obstacle by its own speed;
3. maybe spawns one obstacle from a pool at a random x;
4. evicts the oldest obstacle once it has left the world;
5. accrues a random score bonus and lets the displayed score catch up;
6. scans for a collision.

A collision costs one life. With lives left the board restarts; on the last
life the score is offered to the persistent high-score store. An obstacle
that has hit the player keeps a hit latch, so it cannot cost a second life.

The project models this loop as the game writes it, as classes updated in place:

- `SpriteBase.GameSpriteBase`, `Player.PlayerSprite` and `Obstacle.ObstacleSprite` are the sprites. Their setters keep a circular bound centred on the sprite.
- `Factory.EntityFactory` is the obstacle pool: an explicit free list with reset-on-free.
- `Manager.GameManager` is the high-score and difficulty store.
- `Controller.GameController` is the state machine.

Each state-changing method is proved against a function on values:

- the sprite methods against `SpriteState` functions (`MovedTo`, `Resized`, `Refreshed`);
- the obstacle methods against `ObstacleState` functions (`Fallen`, `Cleared`);
- the store's methods against `ManagerState` functions (`UpdatedHighScore`, `UpdatedDifficulty`);
- the controller's methods against the phases of the value-level game step in module `GameStep`.

- **Snapshots.** `Snapshot()` / `State()` turn the objects into values. A method's postcondition says that the new state is what the matching `GameStep` phase makes of the old one.
- **The whole frame.** `Controller.GameController.Update` is proved to do exactly `GameStep.Tick`.
- **Tick properties.** Module `GameProperties` proves what a tick promises: the session invariant, monotone score and high score, the loss of at most one life per tick, FIFO eviction, and falling order. The invariant, the monotonicity and the falling order are also proved over whole runs of ticks.

Inputs the game reads from the outside world are parameters:

- the keyboard poll, as whether RIGHT and LEFT are held (`GameStep.DirectionOf` turns it into a direction);
- the touch position;
- the frame time;
- the two `MathUtils.random` draws.

The obstacle's x is drawn from [0, worldWidth - obstacleSize] and the score bonus from 1 to 5 inclusive (libGDX's integer `random(1, 5)` includes both ends). The game's constants live in a configuration file that is not part of this model; here they are the fields of a `GameConfig` value, assumed positive where a property needs it (`GameConfig.Valid`).

Modules, one per source file:

- `SpriteBase`: game_sprite_base.dfy
- `Player`: player_sprite.dfy
- `Obstacle`: obstacle_sprite.dfy
- `Factory`: entity_factory.dfy
- `Manager`: game_manager.dfy, with `Decimal` in decimal.dfy for `String.valueOf(int)`
- `Controller`: game_controller.dfy

Two more modules support them. `Config` (config.dfy) holds the constants and the difficulty tiers. `GameStep` (game_step.dfy) and `GameProperties` (game_properties.dfy) are the value-level step and its properties.

Three details of the code worth stating:

- The pool is not pre-filled with 40 obstacles. 40 is only the capacity of its free list, and `obtain` builds a new obstacle whenever the free list is empty.
- `obtain` hands out the most recently freed obstacle.
- The displayed score moves by `(int)(60 * deltaTime)`, a truncation toward zero (`GameStep.Truncate`). For a non-negative frame time this is the floor.

## Model

| member | source | states |
|---|---|---|
| SpriteBase.GameSpriteBase.constructor | core/src/main/java/com/staticvoid/obstacle/entity/GameSpriteBase.java:23-26 | the sprite takes the region's size at the origin and its bound circle is created at the origin with the given radius (not yet centred) |
| SpriteBase.GameSpriteBase.SetPosition | core/src/main/java/com/staticvoid/obstacle/entity/GameSpriteBase.java:33-38 | the sprite is at (x, y), its size and radius are kept and the bound is re-centred |
| SpriteBase.GameSpriteBase.SetSize | core/src/main/java/com/staticvoid/obstacle/entity/GameSpriteBase.java:40-44 | the sprite has the new size, its position and radius are kept and the bound is re-centred |
| SpriteBase.GameSpriteBase.UpdateBounds | core/src/main/java/com/staticvoid/obstacle/entity/GameSpriteBase.java:47-60 | the bound centre becomes (x + width/2, y + height/2); the radius, position and size are kept |
| SpriteBase.GameSpriteBase.SetX | core/src/main/java/com/staticvoid/obstacle/entity/GameSpriteBase.java:70-74 | x changes, y, size and radius are kept, the bound is re-centred |
| SpriteBase.GameSpriteBase.SetY | core/src/main/java/com/staticvoid/obstacle/entity/GameSpriteBase.java:76-80 | y changes, x, size and radius are kept, the bound is re-centred |
| SpriteBase.MovedToCentred | core/src/main/java/com/staticvoid/obstacle/entity/GameSpriteBase.java:33-38 | after any move the sprite is exactly at the target, keeps its size and radius, and its bound is centred on it |
| SpriteBase.RefreshedCentred | core/src/main/java/com/staticvoid/obstacle/entity/GameSpriteBase.java:47-60 | updating the bounds centres them and keeps the radius; doing it twice equals doing it once; on an already centred sprite it changes nothing |
| Player.PlayerSprite.constructor | core/src/main/java/com/staticvoid/obstacle/entity/PlayerSprite.java:10-14 | a new player is a square of the player size at the origin, with the player bound radius and the bound centred on it |
| Obstacle.ObstacleState.Fallen | core/src/main/java/com/staticvoid/obstacle/entity/ObstacleSprite.java:32-35 | one fall lowers y by exactly ySpeed and keeps x, size, radius, speed and latch, with the bound centred |
| Obstacle.ObstacleSprite.constructor | core/src/main/java/com/staticvoid/obstacle/entity/ObstacleSprite.java:14-22 | a new obstacle is an obstacle-size square at the origin with the obstacle radius, centred bound, medium speed and no hit |
| Obstacle.ObstacleSprite.Update | core/src/main/java/com/staticvoid/obstacle/entity/ObstacleSprite.java:32-35 | the obstacle's state becomes its state fallen once |
| Obstacle.ObstacleSprite.SetPosition | core/src/main/java/com/staticvoid/obstacle/entity/GameSpriteBase.java:33-38 | the inherited setPosition moves the obstacle's sprite; speed and latch are kept |
| Obstacle.ObstacleSprite.IsPlayerColliding | core/src/main/java/com/staticvoid/obstacle/entity/ObstacleSprite.java:37-43 | the answer is true exactly when the two bounds overlap strictly; the latch takes that same value and nothing else changes |
| Obstacle.ObstacleSprite.IsHit | core/src/main/java/com/staticvoid/obstacle/entity/ObstacleSprite.java:45-47 | the result is the hit latch of the obstacle's state |
| Obstacle.ObstacleSprite.IsNotHit | core/src/main/java/com/staticvoid/obstacle/entity/ObstacleSprite.java:45-51 | always the negation of isHit |
| Obstacle.ObstacleSprite.SetYSpeed | core/src/main/java/com/staticvoid/obstacle/entity/ObstacleSprite.java:53-55 | only the speed changes |
| Obstacle.ObstacleSprite.Reset | core/src/main/java/com/staticvoid/obstacle/entity/ObstacleSprite.java:57-61 | the latch is cleared; position, size, bound and speed are kept |
| Factory.EntityFactory.constructor | core/src/main/java/com/staticvoid/obstacle/common/EntityFactory.java:24-40 | the pool starts with an empty free list |
| Factory.EntityFactory.NewObject | core/src/main/java/com/staticvoid/obstacle/common/EntityFactory.java:33-39 | the pool's factory method yields a brand-new obstacle in the new-obstacle state |
| Factory.EntityFactory.CreatePlayer | core/src/main/java/com/staticvoid/obstacle/common/EntityFactory.java:43-46 | a brand-new player of the player size with a centred bound |
| Factory.EntityFactory.CreateBackground | core/src/main/java/com/staticvoid/obstacle/common/EntityFactory.java:48-53 | the background sits at (0, 0) and covers worldWidth by worldHeight |
| Factory.EntityFactory.Obtain | core/src/main/java/com/staticvoid/obstacle/common/EntityFactory.java:55-59 | never fails: an empty pool builds a new obstacle, otherwise the last free obstacle is popped; if every pooled obstacle was cleared, the one handed out is not hit and the rest stay cleared |
| Factory.EntityFactory.Free | core/src/main/java/com/staticvoid/obstacle/common/EntityFactory.java:61-63 | the obstacle is appended to the free list and its latch is cleared, nothing else about it changes |
| Factory.EntityFactory.FreeAll | core/src/main/java/com/staticvoid/obstacle/common/EntityFactory.java:65-67 | every given obstacle is appended to the free list in order and each has its latch cleared |
| Manager.GameManager.constructor | core/src/main/java/com/staticvoid/obstacle/common/GameManager.java:21-28 | the store starts from the saved high score and difficulty, with nothing written yet |
| Manager.GameManager.UpdateHighScore | core/src/main/java/com/staticvoid/obstacle/common/GameManager.java:30-40 | the store becomes UpdatedHighScore of the old store |
| Manager.UpdatedHighScore | core/src/main/java/com/staticvoid/obstacle/common/GameManager.java:30-40 | the high score becomes the max of the old one and the score; a lower score changes nothing and writes nothing; otherwise exactly one write of the score |
| Manager.HighScoreNeverDecreases | core/src/main/java/com/staticvoid/obstacle/common/GameManager.java:30-33 | the high score never drops and is at least the offered score afterwards |
| Manager.HighScoreIdempotent | core/src/main/java/com/staticvoid/obstacle/common/GameManager.java:30-40 | offering the same score twice leaves the high score and difficulty of offering it once (a second write of the same value is made when it was accepted) |
| Manager.GameManager.GetHighScoreString | core/src/main/java/com/staticvoid/obstacle/common/GameManager.java:42-44 | the result is canonical decimal text (no leading zero except "0" itself, no "-0") that parses back to the high score |
| Manager.GameManager.GetDifficultyLevel | core/src/main/java/com/staticvoid/obstacle/common/GameManager.java:46-48 | the result is the difficulty of the store's state |
| Manager.GameManager.UpdateDifficulty | core/src/main/java/com/staticvoid/obstacle/common/GameManager.java:50-57 | afterwards getDifficultyLevel is the new level and the store is UpdatedDifficulty of the old one |
| Manager.UpdatedDifficulty | core/src/main/java/com/staticvoid/obstacle/common/GameManager.java:50-57 | the level becomes the new one and the high score stays; the same level changes nothing and writes nothing; a different one is written once |
| Decimal.NatToDecimalRoundTrip | core/src/main/java/com/staticvoid/obstacle/common/GameManager.java:42-44 | the digits of a natural are non-empty, have no leading zero unless it is zero, and parse back to it |
| Decimal.IntToDecimalRoundTrip | core/src/main/java/com/staticvoid/obstacle/common/GameManager.java:42-44 | the decimal text of any integer is well formed and canonical (no leading zero except "0", no "-0") and parses back to it |
| Decimal.CanonicalIsRendering | core/src/main/java/com/staticvoid/obstacle/common/GameManager.java:42-44 | every canonical decimal text is the rendering of the integer it denotes, so the rendering is the only canonical text for its value |
| GameStep.DirectionOf | core/src/main/java/com/staticvoid/obstacle/screen/game/GameController.java:112-116 | right wins when both arrows are held; left only without right; idle when neither is held |
| GameStep.MovePlayer | core/src/main/java/com/staticvoid/obstacle/screen/game/GameController.java:107-131 | after the keyboard step x lies in [0, worldWidth - width] whatever the direction, y, size and radius are kept, the bound is centred, and a move that stays inside is taken exactly |
| GameStep.PointerMove | core/src/main/java/com/staticvoid/obstacle/screen/game/GameRenderer.java:95-105 | after a touch x lies in [0, worldWidth - width] and equals the pointer's x when that is inside; y and size are kept |
| GameStep.FirstHittable | core/src/main/java/com/staticvoid/obstacle/screen/game/GameController.java:157-169 | the scan stops at the first obstacle that is not hit and overlaps the player; every obstacle before it is skipped for a reason |
| GameProperties.InitialStateInv | core/src/main/java/com/staticvoid/obstacle/screen/game/GameController.java:48-73 | a new session satisfies the invariant and is not over |
| GameProperties.GameOverIsFinal | core/src/main/java/com/staticvoid/obstacle/screen/game/GameController.java:75-78 | once lives are at most zero a tick changes nothing |
| GameProperties.SpawnPhaseSpec | core/src/main/java/com/staticvoid/obstacle/screen/game/GameController.java:181-201 | past the spawn interval (strictly) exactly one obstacle is appended: at (spawnX, worldHeight), with the difficulty's speed, not hit, obstacle-shaped; the timer restarts and the pool loses its last element; otherwise only the timer grows |
| GameProperties.EvictPhaseSpec | core/src/main/java/com/staticvoid/obstacle/screen/game/GameController.java:203-215 | only the head is ever removed, only below -obstacleSize, and it goes cleared to the end of the pool; the rest keep their order and nothing else changes |
| GameProperties.ScorePhaseSpec | core/src/main/java/com/staticvoid/obstacle/screen/game/GameController.java:133-142 | the score never drops; at the threshold it grows by the draw and the timer restarts, below it only the timer grows |
| GameProperties.DisplayAfterSpec | core/src/main/java/com/staticvoid/obstacle/screen/game/GameController.java:144-152 | the displayed score never passes the score, never drops for a non-negative frame time, and moves by the smaller of the gap and floor(60 * deltaTime) |
| GameProperties.DisplayCatchesUp | core/src/main/java/com/staticvoid/obstacle/screen/game/GameController.java:144-152 | with frames of at least 1/60 s a displayed score behind by d reaches the score within d frames |
| GameProperties.DisplayStuck | core/src/main/java/com/staticvoid/obstacle/screen/game/GameController.java:144-152 | as written, with frames shorter than 1/60 s the displayed score never moves, for any number of frames |
| GameProperties.CatchUpAgreesAtFrameRate | core/src/main/java/com/staticvoid/obstacle/screen/game/GameController.java:144-152 | for frames of 1/60 s or longer the intended catch-up step equals the written one |
| GameProperties.CatchUpConverges | core/src/main/java/com/staticvoid/obstacle/screen/game/GameController.java:144-152 | with the intended step (at least one point per frame while behind) a gap of d closes within d frames for any frame time |
| GameProperties.ScannedSpec | core/src/main/java/com/staticvoid/obstacle/screen/game/GameController.java:157-169 | the scan sets the latch of the first hittable obstacle only, which was not hit before; no latch is ever cleared |
| GameProperties.FirstHittableFound | core/src/main/java/com/staticvoid/obstacle/screen/game/GameController.java:157-169 | the scan reports a hit exactly when some obstacle is hittable |
| GameProperties.CollisionPhaseSpec | core/src/main/java/com/staticvoid/obstacle/screen/game/GameController.java:85-104 | a hit costs exactly one life; with lives left the board empties, the pool takes the cleared obstacles and the player returns to the start while score and store stay; on the last life the score is offered to the store and nothing restarts; without a hit nothing changes |
| GameProperties.AdvanceKeepsInv | core/src/main/java/com/staticvoid/obstacle/screen/game/GameController.java:171-174 | falling keeps every obstacle obstacle-shaped |
| GameProperties.SpawnKeepsInv | core/src/main/java/com/staticvoid/obstacle/screen/game/GameController.java:181-201 | spawning keeps the session invariant |
| GameProperties.CollisionKeepsInv | core/src/main/java/com/staticvoid/obstacle/screen/game/GameController.java:85-104 | the collision step keeps the session invariant, including a pool of cleared obstacles |
| GameProperties.TickKeepsInv | core/src/main/java/com/staticvoid/obstacle/screen/game/GameController.java:75-98 | a tick keeps lives and score non-negative, displayScore at most score, the player inside the world with a centred bound, every obstacle obstacle-shaped and every pooled obstacle cleared |
| GameProperties.TickMonotone | core/src/main/java/com/staticvoid/obstacle/screen/game/GameController.java:75-98 | a tick never lowers the score or the high score, keeps the difficulty, takes at most one life and only while the game is on, and never lowers displayScore for a non-negative frame time |
| GameProperties.AdvanceKeepsOrder | core/src/main/java/com/staticvoid/obstacle/screen/game/GameController.java:171-174 | falling at one common speed keeps the obstacles ordered by height |
| GameProperties.SpawnKeepsOrder | core/src/main/java/com/staticvoid/obstacle/screen/game/GameController.java:181-201 | a spawn at the top of the world at the current speed keeps the height order |
| GameProperties.CollisionKeepsOrder | core/src/main/java/com/staticvoid/obstacle/screen/game/GameController.java:157-169 | the collision step keeps the height order |
| GameProperties.TickKeepsFallingOrder | core/src/main/java/com/staticvoid/obstacle/screen/game/GameController.java:171-215 | while the difficulty stays, a tick keeps spawn order and height order in agreement |
| GameProperties.HeadLeavesFirst | core/src/main/java/com/staticvoid/obstacle/screen/game/GameController.java:203-215 | in falling order, whenever any obstacle is below -obstacleSize so is the head, so head-only eviction misses nothing |
| GameProperties.RunKeepsInv | core/src/main/java/com/staticvoid/obstacle/screen/game/GameController.java:75-98 | any run of ticks with in-range draws keeps the session invariant |
| GameProperties.RunKeepsFallingOrder | core/src/main/java/com/staticvoid/obstacle/screen/game/GameController.java:171-215 | over any run, with the difficulty fixed, spawn order and height order stay in agreement |
| GameProperties.RunMonotone | core/src/main/java/com/staticvoid/obstacle/screen/game/GameController.java:75-98 | over any run score and high score never drop, the difficulty stays, and lives never rise and fall by at most one per tick |
| Controller.GameController.IsGameOver | core/src/main/java/com/staticvoid/obstacle/screen/game/GameController.java:217-219 | true exactly when the controller's state, as a value, is over (lives at most zero) |
| Controller.GameController.constructor | core/src/main/java/com/staticvoid/obstacle/screen/game/GameController.java:51-73 | the new controller's state is the initial session: full lives, no score, no obstacles, an empty pool, the player at the start |
| Controller.GameController.Update | core/src/main/java/com/staticvoid/obstacle/screen/game/GameController.java:75-98 | one frame, given the key poll and the draws, takes the controller from its state to Tick of that state, and keeps the object arrangement valid |
| Controller.GameController.HandleCollision | core/src/main/java/com/staticvoid/obstacle/screen/game/GameController.java:85-97 | the end of a frame does the collision phase |
| Controller.GameController.LoseLife | core/src/main/java/com/staticvoid/obstacle/screen/game/GameController.java:87-96 | one life less, then the score to the store when the game is over, otherwise a restart |
| Controller.GameController.Restart | core/src/main/java/com/staticvoid/obstacle/screen/game/GameController.java:100-104 | every live obstacle goes cleared to the pool in order, the live list empties, the player goes to the start |
| Controller.GameController.UpdatePlayer | core/src/main/java/com/staticvoid/obstacle/screen/game/GameController.java:107-121 | the keyboard step: RIGHT polled first, then LEFT; the player's state becomes MovePlayer of it in the polled direction |
| Controller.GameController.BlockPlayerFromLeavingTheWorld | core/src/main/java/com/staticvoid/obstacle/screen/game/GameController.java:123-131 | the player is moved to its x clamped to [0, worldWidth - width] at its own y |
| Controller.GameController.TouchMove | core/src/main/java/com/staticvoid/obstacle/screen/game/GameRenderer.java:95-105 | while the game is on the player moves to the clamped pointer x; after game over nothing changes |
| Controller.GameController.UpdateScore | core/src/main/java/com/staticvoid/obstacle/screen/game/GameController.java:133-142 | the score phase |
| Controller.GameController.UpdateDisplayScore | core/src/main/java/com/staticvoid/obstacle/screen/game/GameController.java:144-152 | the display phase |
| Controller.GameController.IsPlayerCollidingWithObstacle | core/src/main/java/com/staticvoid/obstacle/screen/game/GameController.java:157-169 | true exactly when some live obstacle is hittable; only the first such one gets its latch set |
| Controller.GameController.ScanObstacles | core/src/main/java/com/staticvoid/obstacle/screen/game/GameController.java:158-163 | the loop of the scan, obstacle by obstacle: each ends in its scanned state |
| Controller.GameController.UpdateObstacles | core/src/main/java/com/staticvoid/obstacle/screen/game/GameController.java:171-179 | fall, then spawn, then evict, as the value-level phases say |
| Controller.GameController.AdvanceObstacles | core/src/main/java/com/staticvoid/obstacle/screen/game/GameController.java:172-174 | every live obstacle falls once; the pool is untouched |
| Controller.GameController.DropObstacles | core/src/main/java/com/staticvoid/obstacle/screen/game/GameController.java:172-174 | the loop of the fall: each obstacle ends exactly one fall lower |
| Controller.GameController.CreateNewObstacle | core/src/main/java/com/staticvoid/obstacle/screen/game/GameController.java:181-201 | the spawn phase |
| Controller.GameController.SpawnObstacle | core/src/main/java/com/staticvoid/obstacle/screen/game/GameController.java:185-199 | the obtained, placed obstacle is appended, the pool loses it and the timer restarts |
| Controller.GameController.ObtainObstacle | core/src/main/java/com/staticvoid/obstacle/screen/game/GameController.java:191-195 | the obstacle handed out is the pool's obtained one, with the difficulty's speed, at (x, y); live obstacles are untouched |
| Controller.GameController.RemovePassedObstacles | core/src/main/java/com/staticvoid/obstacle/screen/game/GameController.java:203-215 | the evict phase: the head goes cleared to the pool once it is below -obstacleSize |

## Findings

| source | as written | input that shows it | evidently intended | confidence | as-written member | corrected member |
|---|---|---|---|---|---|---|
| core/src/main/java/com/staticvoid/obstacle/screen/game/GameController.java:149 | the displayed score moves by `(int)(60 * deltaTime)`, which is 0 for any frame shorter than 1/60 s | frames of deltaTime = 1/120 (a 120 Hz display) with displayScore 0 and score 10: the displayed score stays 0 for ever | per the comment at line 145, the displayed score moves by at least one point per frame while behind | medium, not executed | GameProperties.DisplayStuck | GameProperties.CatchUpConverges |

The controller keeps modelling the code as written (`GameStep.DisplayAfter`). The corrected step `GameProperties.CatchUpDisplay` is proved equal to it for every frame of 1/60 s or longer (`GameProperties.CatchUpAgreesAtFrameRate`), and to converge for every frame time.

## Left out

- Sound (the hit sound at GameController.java:160), logging, and the texture atlas and region lookups. These are calls into libGDX. The regions enter the model only through their sizes, which are parameters of the factory.
- The `Preferences` file of GameManager. Its reads at construction become constructor parameters. Each put-and-flush becomes an entry in a ghost write log (`ManagerState.writes`).
- The `GameManager.INSTANCE` singleton. The controller receives its store as a parameter.
- Rendering, cameras, viewports and the HUD, in GameRenderer.java and GameScreen.java. Only the touch clamp is kept, as `Controller.GameController.TouchMove`. Unprojecting the screen position to world coordinates is a parameter.
- Float rounding. Positions, sizes and timers are exact reals and scores are unbounded integers. 32-bit float rounding and int overflow are not modelled.
- `setRegion` in `obtain` (EntityFactory.java:57). It only changes the texture, which the model does not carry.
- The libGDX `Pool` internals: the initial capacity of 40, the maximum size and the array growth. The free list is unbounded, which matches the default maximum.
- `MathUtils.random` and the keyboard poll. They are parameters, and `GameStep.InputOk` states their ranges. The spawn x range is taken as closed, a superset of the float draw's half-open range.
- Aliasing of the bound circle. `getBounds()` returns the circle that `updateBounds` mutates in place. Here the bound is a value field that is reassigned, so a caller holding an old reference is not modelled.
- SpriteBase.GameSpriteBase.UpdateBounds: the early return while `bounds` is still null (GameSpriteBase.java:48-52) is not a separate branch. That case only occurs inside the base constructor, through the overridden `setSize` that Sprite's constructor calls. `SpriteBase.GameSpriteBase.constructor` models that path directly: the region size is taken and no refresh happens. After construction `UpdateBounds` always has a bound.
- The obstacle list of the controller is a sequence that is reassigned (`add`, `removeValue` of the head, `clear`). The obstacles themselves are objects updated in place.
- `Controller.GameController.HandleCollision`, `LoseLife`, `SpawnObstacle`, `ObtainObstacle`, `ScanObstacles` and `DropObstacles` are splits of `update`, `createNewObstacle`, `isPlayerCollidingWithObstacle` and `updateObstacles` into smaller steps. Together they do what those methods do, in the same order.
