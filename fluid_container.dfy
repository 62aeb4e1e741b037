/**
 * The rectangular box the fluid lives in: a centre and a size, and the
 * corners it spans.
 */
module Container {
  import opened Vectors

  /** The size of the default container. */
  const FLUID_CONTAINER_SIZE: Vec2 := Vec2(800.0, 640.0)

  /** The centre of the default container. */
  const FLUID_CONTAINER_POSITION: Vec2 := ZERO2

  datatype FluidContainer = FluidContainer(position: Vec2, size: Vec2)

  /** The container the simulation starts with. */
  function Default(): (c: FluidContainer)
    ensures c.position == ZERO2 && c.size == Vec2(800.0, 640.0)
  {
    FluidContainer(FLUID_CONTAINER_POSITION, FLUID_CONTAINER_SIZE)
  }

  /**
   * The lower-left and upper-right corners of the box: the box is centred on
   * `position` and spans exactly `size` along each axis.
   */
  function GetExtents(c: FluidContainer): (e: (Vec2, Vec2))
    ensures e.1.x - e.0.x == c.size.x && e.1.y - e.0.y == c.size.y
    ensures e.0.x + e.1.x == 2.0 * c.position.x && e.0.y + e.1.y == 2.0 * c.position.y
  {
    var halfSize := Vec2(c.size.x / 2.0, c.size.y / 2.0);
    (Vec2(c.position.x - halfSize.x, c.position.y - halfSize.y),
     Vec2(c.position.x + halfSize.x, c.position.y + halfSize.y))
  }

  /** A point lies in the closed box spanned by two corners. */
  predicate InBox(p: Vec2, lo: Vec2, hi: Vec2) {
    lo.x <= p.x <= hi.x && lo.y <= p.y <= hi.y
  }

  /** The extents are ordered on both axes exactly when the size is non-negative. */
  lemma ExtentsOrderedIffSizeNonNegative(c: FluidContainer)
    ensures var (lo, hi) := GetExtents(c);
            (lo.x <= hi.x && lo.y <= hi.y) <==> (c.size.x >= 0.0 && c.size.y >= 0.0)
  {
  }

  /** The centre of a box of non-negative size lies in its extents. */
  lemma PositionInsideExtents(c: FluidContainer)
    requires c.size.x >= 0.0 && c.size.y >= 0.0
    ensures InBox(c.position, GetExtents(c).0, GetExtents(c).1)
  {
  }

  /** The default box spans (-400, -320) to (400, 320). */
  lemma DefaultExtents()
    ensures GetExtents(Default()) == (Vec2(-400.0, -320.0), Vec2(400.0, 320.0))
  {
  }

  /** Moving the container moves both corners by the same offset. */
  lemma ExtentsTranslate(c: FluidContainer, offset: Vec2)
    ensures GetExtents(FluidContainer(c.position.Plus(offset), c.size)).0
         == GetExtents(c).0.Plus(offset)
    ensures GetExtents(FluidContainer(c.position.Plus(offset), c.size)).1
         == GetExtents(c).1.Plus(offset)
  {
  }
}
