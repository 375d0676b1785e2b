/**
 * The shared part of every game sprite: position, size and a circular bound
 * whose centre follows the sprite's visual centre. A texture is drawn from
 * its bottom-left corner while a circle is placed by its centre, so the bound
 * is the origin shifted by half the width and half the height.
 */
module SpriteBase {
  /** A circle by centre and radius. */
  datatype Circle = Circle(x: real, y: real, radius: real)

  /**
   * Whether two circles overlap: the squared distance between the centres is
   * strictly below the squared sum of the radii (touching circles do not).
   */
  predicate Overlaps(a: Circle, b: Circle)
  {
    (a.x - b.x) * (a.x - b.x) + (a.y - b.y) * (a.y - b.y) <
      (a.radius + b.radius) * (a.radius + b.radius)
  }

  /** A circle centred on the middle of the rectangle at (x, y) of the given size. */
  predicate CentredOn(c: Circle, x: real, y: real, width: real, height: real)
  {
    c.x == x + width / 2.0 && c.y == y + height / 2.0
  }

  /** A sprite's position, size and bounds at one moment. */
  datatype SpriteState = SpriteState(x: real, y: real, width: real, height: real, bounds: Circle)
  {
    predicate Centred()
    {
      CentredOn(bounds, x, y, width, height)
    }

    /** The bounds re-centred on the sprite; position, size and radius kept. */
    function Refreshed(): SpriteState
    {
      this.(bounds := Circle(x + width / 2.0, y + height / 2.0, bounds.radius))
    }

    /** The sprite after setPosition(nx, ny): same size and radius, bounds refreshed. */
    function MovedTo(nx: real, ny: real): SpriteState
    {
      this.(x := nx, y := ny).Refreshed()
    }

    /** The sprite after setSize(w, h): same position and radius, bounds refreshed. */
    function Resized(w: real, h: real): SpriteState
    {
      this.(width := w, height := h).Refreshed()
    }
  }

  /** Moving a sprite keeps its size and bound radius and leaves the bound centred. */
  lemma MovedToCentred(s: SpriteState, nx: real, ny: real)
    ensures var r := s.MovedTo(nx, ny);
      r.x == nx && r.y == ny && r.width == s.width && r.height == s.height &&
      r.bounds.radius == s.bounds.radius && r.Centred()
  {
  }

  /** Refreshing the bounds centres them, and refreshing twice is the same as once. */
  lemma RefreshedCentred(s: SpriteState)
    ensures s.Refreshed().Centred() && s.Refreshed().bounds.radius == s.bounds.radius
    ensures s.Refreshed().Refreshed() == s.Refreshed()
    ensures s.Centred() ==> s.Refreshed() == s
  {
  }

  class GameSpriteBase {
    var x: real
    var y: real
    var width: real
    var height: real
    var bounds: Circle

    ghost function Snapshot(): SpriteState
      reads this
    {
      SpriteState(x, y, width, height, bounds)
    }

    /**
     * The base construction: the underlying sprite takes the region's size at
     * the origin (the overridden setSize it calls finds no bounds yet and
     * returns at once), then the bound circle is created at the origin
     * itself, not yet centred on the sprite.
     */
    constructor (regionWidth: real, regionHeight: real, boundsRadius: real)
      ensures Snapshot() == SpriteState(0.0, 0.0, regionWidth, regionHeight, Circle(0.0, 0.0, boundsRadius))
    {
      x, y := 0.0, 0.0;
      width, height := regionWidth, regionHeight;
      bounds := Circle(x, y, boundsRadius);
    }

    method SetPosition(nx: real, ny: real)
      modifies this
      ensures Snapshot() == old(Snapshot()).MovedTo(nx, ny)
    {
      x, y := nx, ny;
      UpdateBounds();
    }

    method SetSize(newWidth: real, newHeight: real)
      modifies this
      ensures Snapshot() == old(Snapshot()).Resized(newWidth, newHeight)
    {
      width, height := newWidth, newHeight;
      UpdateBounds();
    }

    method SetX(nx: real)
      modifies this
      ensures Snapshot() == old(Snapshot()).MovedTo(nx, old(y))
    {
      x := nx;
      UpdateBounds();
    }

    method SetY(ny: real)
      modifies this
      ensures Snapshot() == old(Snapshot()).MovedTo(old(x), ny)
    {
      y := ny;
      UpdateBounds();
    }

    /** Re-centres the bound circle on the sprite, keeping its radius. */
    method UpdateBounds()
      modifies this
      ensures Snapshot() == old(Snapshot()).Refreshed()
    {
      var halfWidth := width / 2.0;
      var halfHeight := height / 2.0;
      bounds := Circle(x + halfWidth, y + halfHeight, bounds.radius);
    }
  }
}
