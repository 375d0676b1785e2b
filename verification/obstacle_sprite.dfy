/**
 * A falling obstacle: a sprite with a fall speed and a hit latch. The latch
 * is set by the collision test and cleared only when the pool resets the
 * obstacle, so one obstacle costs the player at most one life.
 */
module Obstacle {
  import opened SpriteBase
  import opened Player

  datatype ObstacleState = ObstacleState(sprite: SpriteState, ySpeed: real, hit: bool)
  {
    /** One tick of falling: y drops by the fall speed and the bound follows. */
    function Fallen(): (r: ObstacleState)
      ensures r.sprite.y == sprite.y - ySpeed && r.sprite.x == sprite.x
      ensures r.sprite.width == sprite.width && r.sprite.height == sprite.height
      ensures r.sprite.bounds.radius == sprite.bounds.radius && r.sprite.Centred()
      ensures r.ySpeed == ySpeed && r.hit == hit
    {
      this.(sprite := sprite.MovedTo(sprite.x, sprite.y - ySpeed))
    }

    /** What the pool's reset does: the hit latch is cleared, nothing else changes. */
    function Cleared(): ObstacleState
    {
      this.(hit := false)
    }
  }

  /** A freshly constructed obstacle, wherever its texture region came from. */
  function NewObstacle(size: real, boundsRadius: real, defaultSpeed: real): ObstacleState
  {
    ObstacleState(SpriteState(0.0, 0.0, size, size, Circle(size / 2.0, size / 2.0, boundsRadius)), defaultSpeed, false)
  }

  class ObstacleSprite {
    /** The sprite state the obstacle inherits from the shared sprite base. */
    const base: GameSpriteBase
    var ySpeed: real
    var hit: bool

    ghost function Snapshot(): ObstacleState
      reads this, base
    {
      ObstacleState(base.Snapshot(), ySpeed, hit)
    }

    /**
     * A new obstacle: the base construction, the field defaults (the given
     * speed, not hit), then setSize to a square of side `size`.
     */
    constructor (regionWidth: real, regionHeight: real, boundsRadius: real, size: real, defaultSpeed: real)
      ensures fresh(base)
      ensures Snapshot() == NewObstacle(size, boundsRadius, defaultSpeed)
    {
      base := new GameSpriteBase(regionWidth, regionHeight, boundsRadius);
      ySpeed := defaultSpeed;
      hit := false;
      new;
      base.SetSize(size, size);
    }

    /** One tick of falling: y drops by ySpeed; x, size, speed and latch stay. */
    method Update()
      modifies base
      ensures Snapshot() == old(Snapshot()).Fallen()
    {
      base.SetY(base.y - ySpeed);
    }

    /** The inherited setPosition, acting on the sprite base. */
    method SetPosition(nx: real, ny: real)
      modifies base
      ensures Snapshot() == old(Snapshot()).(sprite := old(Snapshot()).sprite.MovedTo(nx, ny))
    {
      base.SetPosition(nx, ny);
    }

    /**
     * Whether the player's bound overlaps this obstacle's; the answer is also
     * stored in the hit latch.
     */
    method IsPlayerColliding(player: PlayerSprite) returns (overlaps: bool)
      modifies this
      ensures overlaps == Overlaps(player.base.bounds, base.bounds)
      ensures Snapshot() == old(Snapshot()).(hit := overlaps)
    {
      var playerBounds := player.base.bounds;
      overlaps := Overlaps(playerBounds, base.bounds);
      hit := overlaps;
    }

    /** The hit latch of the obstacle's state. */
    function IsHit(): (isHit: bool)
      reads this, base
      ensures isHit == Snapshot().hit
    {
      hit
    }

    /** Always the negation of IsHit. */
    function IsNotHit(): (notHit: bool)
      reads this, base
      ensures notHit <==> !IsHit()
    {
      !hit
    }

    method SetYSpeed(speed: real)
      modifies this
      ensures Snapshot() == old(Snapshot()).(ySpeed := speed)
    {
      ySpeed := speed;
    }

    /** The pool's reset: clears the hit latch and nothing else. */
    method Reset()
      modifies this
      ensures Snapshot() == old(Snapshot()).Cleared()
    {
      hit := false;
    }
  }

  /** The objects a sequence of obstacles occupies: the obstacles and their sprite bases. */
  function Obstacles(os: seq<ObstacleSprite>): set<ObstacleSprite>
  {
    set o | o in os
  }

  function Bases(os: seq<ObstacleSprite>): set<GameSpriteBase>
  {
    set o | o in os :: o.base
  }

  /** No obstacle, and no sprite base, occurs twice. */
  predicate Distinct(os: seq<ObstacleSprite>)
  {
    forall i, j :: 0 <= i < j < |os| ==> os[i] != os[j] && os[i].base != os[j].base
  }

  /** The states of a sequence of obstacles, in order. */
  ghost function Snapshots(os: seq<ObstacleSprite>): seq<ObstacleState>
    reads Obstacles(os), Bases(os)
  {
    seq(|os|, i reads Obstacles(os), Bases(os) requires 0 <= i < |os| => os[i].Snapshot())
  }

  /** Appending an obstacle appends its state. */
  lemma SnapshotsAppend(os: seq<ObstacleSprite>, o: ObstacleSprite)
    ensures Snapshots(os + [o]) == Snapshots(os) + [o.Snapshot()]
  {
  }

  lemma DistinctAppend(os: seq<ObstacleSprite>, o: ObstacleSprite)
    requires Distinct(os) && o !in Obstacles(os) && o.base !in Bases(os)
    ensures Distinct(os + [o])
    ensures Obstacles(os + [o]) == Obstacles(os) + {o} && Bases(os + [o]) == Bases(os) + {o.base}
  {
    var r := os + [o];
    forall i, j | 0 <= i < j < |r| ensures r[i] != r[j] && r[i].base != r[j].base {
      if j == |os| {
        assert r[i] == os[i] && r[i] in os;
      }
    }
  }

  lemma DistinctConcat(a: seq<ObstacleSprite>, b: seq<ObstacleSprite>)
    requires Distinct(a) && Distinct(b) && Obstacles(a) !! Obstacles(b) && Bases(a) !! Bases(b)
    ensures Distinct(a + b)
    ensures Obstacles(a + b) == Obstacles(a) + Obstacles(b) && Bases(a + b) == Bases(a) + Bases(b)
  {
    var r := a + b;
    forall i, j | 0 <= i < j < |r| ensures r[i] != r[j] && r[i].base != r[j].base {
      if j >= |a| && i < |a| {
        assert r[i] == a[i] && r[i] in a && r[i] in Obstacles(a) && r[i].base in Bases(a);
        assert r[j] == b[j - |a|] && r[j] in b && r[j] in Obstacles(b) && r[j].base in Bases(b);
      } else if i >= |a| {
        assert r[i] == b[i - |a|] && r[j] == b[j - |a|];
      }
    }
  }

  /** Splitting off the last obstacle of a distinct sequence. */
  lemma DistinctLast(os: seq<ObstacleSprite>)
    requires Distinct(os) && |os| > 0
    ensures var n := |os|;
      Distinct(os[..n - 1]) && os[n - 1] !in Obstacles(os[..n - 1]) && os[n - 1].base !in Bases(os[..n - 1]) &&
      Obstacles(os) == Obstacles(os[..n - 1]) + {os[n - 1]} && Bases(os) == Bases(os[..n - 1]) + {os[n - 1].base}
  {
    var n := |os|;
    assert os == os[..n - 1] + [os[n - 1]];
    var p := os[..n - 1];
    forall o | o in p ensures o != os[n - 1] && o.base != os[n - 1].base {
      var i :| 0 <= i < |p| && p[i] == o;
      assert os[i] == o;
    }
  }

  /** Splitting off the first obstacle of a distinct sequence. */
  lemma DistinctFirst(os: seq<ObstacleSprite>)
    requires Distinct(os) && |os| > 0
    ensures Distinct(os[1..]) && os[0] !in Obstacles(os[1..]) && os[0].base !in Bases(os[1..])
    ensures Obstacles(os) == Obstacles(os[1..]) + {os[0]} && Bases(os) == Bases(os[1..]) + {os[0].base}
  {
    assert os == [os[0]] + os[1..];
    var t := os[1..];
    forall o | o in t ensures o != os[0] && o.base != os[0].base {
      var i :| 0 <= i < |t| && t[i] == o;
      assert os[i + 1] == o;
    }
    forall i, j | 0 <= i < j < |t| ensures t[i] != t[j] && t[i].base != t[j].base {
      assert t[i] == os[i + 1] && t[j] == os[j + 1];
    }
  }
}

