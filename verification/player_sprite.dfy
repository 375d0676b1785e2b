/** The player's sprite: a square of the configured player size with the player bound radius. */
module Player {
  import opened SpriteBase

  class PlayerSprite {
    /** The sprite state the player inherits from the shared sprite base. */
    const base: GameSpriteBase

    /**
     * A new player: the base construction followed by setSize to a square of
     * side `size`, which moves the bound circle onto the square's centre.
     */
    constructor (regionWidth: real, regionHeight: real, boundsRadius: real, size: real)
      ensures fresh(base)
      ensures base.Snapshot() == SpriteState(0.0, 0.0, size, size, Circle(size / 2.0, size / 2.0, boundsRadius))
      ensures base.Snapshot().Centred()
    {
      base := new GameSpriteBase(regionWidth, regionHeight, boundsRadius);
      new;
      base.SetSize(size, size);
    }
  }
}
