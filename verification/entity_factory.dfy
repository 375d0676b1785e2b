/**
 * Creation of the game's entities and the obstacle pool. The pool keeps a
 * free list: obtain hands out the most recently freed obstacle, or builds a
 * new one when the list is empty; free and freeAll push obstacles back and
 * clear their hit latch. A recycled obstacle keeps its old position and
 * speed, so whoever obtains one must set both.
 */
module Factory {
  import opened Config
  import opened SpriteBase
  import opened Player
  import opened Obstacle

  /** The playfield's backdrop, as placed and sized on creation. */
  datatype Background = Background(x: real, y: real, width: real, height: real)

  class EntityFactory {
    const cfg: GameConfig
    /** Sizes of the texture regions found in the game-play atlas. */
    const playerRegionWidth: real
    const playerRegionHeight: real
    const obstacleRegionWidth: real
    const obstacleRegionHeight: real
    /** The pool's free obstacles; the last one is handed out first. */
    var freeList: seq<ObstacleSprite>

    /** Every pooled obstacle has its hit latch cleared. */
    ghost predicate AllReset()
      reads this, Obstacles(freeList)
    {
      forall i :: 0 <= i < |freeList| ==> !freeList[i].hit
    }

    constructor (cfg: GameConfig, playerRegionWidth: real, playerRegionHeight: real,
                 obstacleRegionWidth: real, obstacleRegionHeight: real)
      ensures this.cfg == cfg && freeList == []
      ensures this.playerRegionWidth == playerRegionWidth && this.playerRegionHeight == playerRegionHeight
      ensures this.obstacleRegionWidth == obstacleRegionWidth && this.obstacleRegionHeight == obstacleRegionHeight
    {
      this.cfg := cfg;
      this.playerRegionWidth, this.playerRegionHeight := playerRegionWidth, playerRegionHeight;
      this.obstacleRegionWidth, this.obstacleRegionHeight := obstacleRegionWidth, obstacleRegionHeight;
      freeList := [];
    }

    /** The pool's way of making an obstacle when none is free. */
    method NewObject() returns (obstacle: ObstacleSprite)
      ensures fresh(obstacle) && fresh(obstacle.base)
      ensures obstacle.Snapshot() == NewObstacle(cfg.obstacleSize, cfg.obstacleBoundsRadius, cfg.mediumObstacleSpeed)
    {
      obstacle := new ObstacleSprite(obstacleRegionWidth, obstacleRegionHeight,
                                     cfg.obstacleBoundsRadius, cfg.obstacleSize, cfg.mediumObstacleSpeed);
    }

    /** Never fails: pops the last free obstacle, or makes a new one if none is free. */
    method Obtain() returns (obstacle: ObstacleSprite)
      modifies this
      ensures old(freeList) == [] ==>
        freeList == [] && fresh(obstacle) && fresh(obstacle.base) &&
        obstacle.Snapshot() == NewObstacle(cfg.obstacleSize, cfg.obstacleBoundsRadius, cfg.mediumObstacleSpeed)
      ensures old(freeList) != [] ==>
        obstacle == old(freeList)[|old(freeList)| - 1] && freeList == old(freeList)[..|old(freeList)| - 1]
      ensures old(AllReset()) ==> !obstacle.hit && AllReset()
    {
      if |freeList| == 0 {
        obstacle := NewObject();
      } else {
        obstacle := freeList[|freeList| - 1];
        freeList := freeList[..|freeList| - 1];
      }
    }

    /** Returns one obstacle to the pool, clearing its hit latch. */
    method Free(obstacle: ObstacleSprite)
      modifies this, obstacle
      ensures freeList == old(freeList) + [obstacle]
      ensures obstacle.Snapshot() == old(obstacle.Snapshot()).Cleared()
    {
      freeList := freeList + [obstacle];
      obstacle.Reset();
    }

    /** Returns every obstacle of the sequence to the pool, in order, clearing each hit latch. */
    method FreeAll(obstacles: seq<ObstacleSprite>)
      modifies this, Obstacles(obstacles)
      ensures freeList == old(freeList) + obstacles
      ensures forall k :: 0 <= k < |obstacles| ==> obstacles[k].Snapshot() == old(obstacles[k].Snapshot()).Cleared()
    {
      var i := 0;
      while i < |obstacles|
        invariant 0 <= i <= |obstacles|
        invariant freeList == old(freeList) + obstacles[..i]
        invariant forall k :: 0 <= k < |obstacles| ==>
          obstacles[k].Snapshot() ==
            if obstacles[k] in obstacles[..i] then old(obstacles[k].Snapshot()).Cleared() else old(obstacles[k].Snapshot())
      {
        freeList := freeList + [obstacles[i]];
        obstacles[i].Reset();
        i := i + 1;
      }
      assert obstacles[..i] == obstacles;
    }

    method CreatePlayer() returns (player: PlayerSprite)
      ensures fresh(player) && fresh(player.base)
      ensures player.base.Snapshot() ==
        SpriteState(0.0, 0.0, cfg.playerSize, cfg.playerSize,
                    Circle(cfg.playerSize / 2.0, cfg.playerSize / 2.0, cfg.playerBoundsRadius))
    {
      player := new PlayerSprite(playerRegionWidth, playerRegionHeight, cfg.playerBoundsRadius, cfg.playerSize);
    }

    /** The backdrop covers the whole world from its origin. */
    method CreateBackground() returns (background: Background)
      ensures background.x == 0.0 && background.y == 0.0
      ensures background.width == cfg.worldWidth && background.height == cfg.worldHeight
    {
      background := Background(0.0, 0.0, cfg.worldWidth, cfg.worldHeight);
    }
  }
}
