/**
 * Spawning helper: a rectangular block of particles laid out on a square
 * grid, one particle diameter apart and centred on the origin.
 */
module Helpers {
  import opened Vectors
  import opened Smoothing

  /**
   * The centre of grid cell (i, j) in an ni-by-nj block of particles of
   * radius r centred on the origin: cell centres sit at odd multiples of r.
   */
  function GridPoint(ni: nat, nj: nat, r: real, i: int, j: int): Vec2 {
    Vec2((2 * i + 1 - ni) as real * r, (2 * j + 1 - nj) as real * r)
  }

  /** Row-major index arithmetic: cell (i, j) sits at index i * nj + j. */
  lemma RowMajorIndex(i: nat, j: nat, nj: nat)
    requires j < nj
    ensures (i * nj + j) / nj == i && (i * nj + j) % nj == j
  {
    var k := i * nj + j;
    var q, m := k / nj, k % nj;
    assert (i - q) * nj == m - j;
    if i - q >= 1 {
      MulAtLeast(i - q, nj);
    } else if q - i >= 1 {
      MulAtLeast(q - i, nj);
    }
  }

  /** A product with a factor of at least one is at least the other factor. */
  lemma MulAtLeast(d: int, n: nat)
    requires d >= 1
    ensures d * n >= n
  {
    assert d * n - n == (d - 1) * n;
  }

  /**
   * `cube_fluid`: the centres of an ni-by-nj block of particles of radius
   * particleRad, column by column (i outer, j inner).
   */
  method CubeFluid(ni: nat, nj: nat, particleRad: real) returns (points: seq<Vec2>)
    ensures |points| == ni * nj
    ensures forall k :: 0 <= k < |points| ==> points[k] == GridPoint(ni, nj, particleRad, k / nj, k % nj)
  {
    points := [];
    var halfExtents := Vec2(ni as real, nj as real).Scaled(particleRad);
    var offset := Vec2(particleRad, particleRad).Minus(halfExtents);
    var diam := particleRad * 2.0;
    for i := 0 to ni
      invariant |points| == i * nj
      invariant forall k :: 0 <= k < |points| ==> points[k] == GridPoint(ni, nj, particleRad, k / nj, k % nj)
    {
      var x := (i as real) * diam;
      for j := 0 to nj
        invariant |points| == i * nj + j
        invariant forall k :: 0 <= k < |points| ==> points[k] == GridPoint(ni, nj, particleRad, k / nj, k % nj)
      {
        var y := (j as real) * diam;
        RowMajorIndex(i, j, nj);
        assert Vec2(x, y).Plus(offset) == GridPoint(ni, nj, particleRad, i, j);
        points := points + [Vec2(x, y).Plus(offset)];
      }
    }
  }

  /** Each cell of the block appears at its row-major position. */
  lemma CellAtRowMajorIndex(ni: nat, nj: nat, r: real, points: seq<Vec2>, i: nat, j: nat)
    requires |points| == ni * nj
    requires forall k :: 0 <= k < |points| ==> points[k] == GridPoint(ni, nj, r, k / nj, k % nj)
    requires i < ni && j < nj
    ensures i * nj + j < |points|
    ensures points[i * nj + j] == GridPoint(ni, nj, r, i, j)
  {
    RowMajorIndex(i, j, nj);
    MulAtLeast(ni - i, nj);
    assert (ni - i) * nj == ni * nj - i * nj;
  }

  /** Neighbouring cells are exactly one diameter apart along each axis. */
  lemma NeighboursOneDiameterApart(ni: nat, nj: nat, r: real, i: int, j: int)
    ensures GridPoint(ni, nj, r, i + 1, j).Minus(GridPoint(ni, nj, r, i, j)) == Vec2(2.0 * r, 0.0)
    ensures GridPoint(ni, nj, r, i, j + 1).Minus(GridPoint(ni, nj, r, i, j)) == Vec2(0.0, 2.0 * r)
  {
  }

  /** The block is centred: the cell mirrored through the centre is the negated point. */
  lemma BlockCentredOnOrigin(ni: nat, nj: nat, r: real, i: int, j: int)
    ensures GridPoint(ni, nj, r, ni - 1 - i, nj - 1 - j) == GridPoint(ni, nj, r, i, j).Negated()
  {
  }

  /**
   * For a non-negative radius, every particle of the block lies, with its
   * whole disc, inside the box [-ni r, ni r] x [-nj r, nj r].
   */
  lemma BlockFitsHalfExtents(ni: nat, nj: nat, r: real, i: int, j: int)
    requires r >= 0.0 && 0 <= i < ni && 0 <= j < nj
    ensures var p := GridPoint(ni, nj, r, i, j);
            -(ni as real) * r <= p.x - r && p.x + r <= (ni as real) * r &&
            -(nj as real) * r <= p.y - r && p.y + r <= (nj as real) * r
  {
    var p := GridPoint(ni, nj, r, i, j);
    assert p.x - r == (2 * i - ni) as real * r;
    assert p.x + r == (2 * i + 2 - ni) as real * r;
    assert p.y - r == (2 * j - nj) as real * r;
    assert p.y + r == (2 * j + 2 - nj) as real * r;
    ScaleOrdered(-(ni as real), (2 * i - ni) as real, r);
    ScaleOrdered((2 * i + 2 - ni) as real, ni as real, r);
    ScaleOrdered(-(nj as real), (2 * j - nj) as real, r);
    ScaleOrdered((2 * j + 2 - nj) as real, nj as real, r);
  }
}
