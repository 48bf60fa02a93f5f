/** The shadow-atlas tile allocator: how many tiles per row the atlas is cut
    into, where tile number i lies, and the viewport and scissor rectangles
    of a tile (BasePipeline.RenderShadows and BasePipeline.ConfigureShadowTile). */
module ShadowTiles {
  import opened ShadowMatrixMath
  import opened Engine

  /** The atlas split factor chosen for a number of shadow tiles: the atlas
      is cut into split x split tiles. */
  function SplitFor(tileCount: int): (split: nat)
    ensures 1 <= split <= 4
    ensures tileCount <= 16 ==> tileCount <= split * split
    ensures split > 1 ==> (split - 1) * (split - 1) < tileCount
  {
    if tileCount <= 1 then 1
    else if tileCount <= 4 then 2
    else if tileCount <= 9 then 3
    else 4
  }

  /** The split factor is the smallest grid that holds the tiles: every
      smaller grid has fewer cells than there are tiles. */
  lemma SplitIsSmallest(tileCount: int, s: nat)
    requires 1 <= s < SplitFor(tileCount)
    ensures s * s < tileCount
  {
    var split := SplitFor(tileCount);
    assert s <= split - 1;
    assert s * s <= (split - 1) * (split - 1) by {
      MulMono(s, split - 1, s);
      MulMono(s, split - 1, split - 1);
    }
  }

  /** The column (x) and row (y) of a tile in the grid. */
  datatype TileOffset = TileOffset(x: nat, y: nat)

  /** Where tile number tileIndex lies in a grid of `split` columns:
      tiles fill the grid row by row. */
  function Offset(tileIndex: nat, split: nat): (o: TileOffset)
    requires split >= 1
    ensures o.x < split
    ensures o.y * split + o.x == tileIndex
  {
    TileOffset(tileIndex % split, tileIndex / split)
  }

  /** A tile number below split * split lies inside the split x split grid. */
  lemma OffsetInGrid(tileIndex: nat, split: nat)
    requires split >= 1 && tileIndex < split * split
    ensures Offset(tileIndex, split).x < split && Offset(tileIndex, split).y < split
  {
    var o := Offset(tileIndex, split);
    if o.y >= split {
      MulMono(split, o.y, split);
      assert false;
    }
  }

  /** Distinct tile numbers lie at distinct grid cells. */
  lemma OffsetsDistinct(i: nat, j: nat, split: nat)
    requires split >= 1 && i != j
    ensures Offset(i, split) != Offset(j, split)
  {
  }

  /** The viewport of a tile: at offset * tileSize, tileSize texels square. */
  function TileViewport(o: TileOffset, tileSize: int): Rect
  {
    Rect(o.x * tileSize, o.y * tileSize, tileSize, tileSize)
  }

  /** The scissor rectangle of a tile whose viewport starts at `viewport`: the
      viewport origin moved by (4, 4), with tileSize - 8 texels on each axis. */
  function TileScissor(viewport: Rect, tileSize: int): (s: Rect)
    ensures s.x == viewport.x + 4 && s.y == viewport.y + 4 && s.width == s.height
    ensures viewport.width == tileSize && viewport.height == tileSize && tileSize >= 8 ==>
              Inside(s, viewport) && (viewport.x + viewport.width) - (s.x + s.width) == 4 &&
              (viewport.y + viewport.height) - (s.y + s.height) == 4
  {
    Rect(viewport.x + 4, viewport.y + 4, tileSize - 8, tileSize - 8)
  }

  /** The viewport of the first tile, at the atlas origin. */
  function OriginViewport(tileSize: int): Rect
  {
    Rect(0, 0, tileSize, tileSize)
  }

  predicate Inside(inner: Rect, outer: Rect)
  {
    outer.x <= inner.x && inner.x + inner.width <= outer.x + outer.width &&
    outer.y <= inner.y && inner.y + inner.height <= outer.y + outer.height
  }

  predicate Disjoint(a: Rect, b: Rect)
  {
    a.x + a.width <= b.x || b.x + b.width <= a.x || a.y + a.height <= b.y || b.y + b.height <= a.y
  }

  /** The scissor rectangle leaves a border of exactly 4 texels on every side
      of the tile's viewport. */
  lemma ScissorLeavesBorder(o: TileOffset, tileSize: int)
    requires tileSize >= 8
    ensures var v := TileViewport(o, tileSize);
            var s := TileScissor(v, tileSize);
            Inside(s, v) && s.x - v.x == 4 && s.y - v.y == 4 &&
            (v.x + v.width) - (s.x + s.width) == 4 && (v.y + v.height) - (s.y + s.height) == 4 &&
            (s.width > 0 <==> tileSize > 8) && s.width == s.height
  {
  }

  /** Every tile of a split x split grid lies inside an atlas of `size`
      texels whenever split tiles fit in a row. */
  lemma TileInsideAtlas(tileIndex: nat, split: nat, tileSize: nat, size: int)
    requires split >= 1 && tileIndex < split * split
    requires split * tileSize <= size
    ensures Inside(TileViewport(Offset(tileIndex, split), tileSize), Rect(0, 0, size, size))
  {
    var o := Offset(tileIndex, split);
    OffsetInGrid(tileIndex, split);
    MulMono(o.x + 1, split, tileSize);
    MulMono(o.y + 1, split, tileSize);
  }

  /** The viewports of two different tiles do not overlap. */
  lemma TilesDisjoint(i: nat, j: nat, split: nat, tileSize: nat)
    requires split >= 1 && i != j
    ensures Disjoint(TileViewport(Offset(i, split), tileSize), TileViewport(Offset(j, split), tileSize))
  {
    var a, b := Offset(i, split), Offset(j, split);
    OffsetsDistinct(i, j, split);
    if a.x < b.x {
      MulMono(a.x + 1, b.x, tileSize);
    } else if b.x < a.x {
      MulMono(b.x + 1, a.x, tileSize);
    } else if a.y < b.y {
      MulMono(a.y + 1, b.y, tileSize);
    } else {
      MulMono(b.y + 1, a.y, tileSize);
    }
  }

  /** The (1/size, 1/size, size, size) vector published with an atlas. */
  function AtlasSizeVector(size: int): (v: Vec4)
    requires size > 0
    ensures v.x * v.z == 1.0 && v.x == v.y && v.z == v.w
  {
    var inverse := 1.0 / size as real;
    Vec4(inverse, inverse, size as real, size as real)
  }

  lemma MulMono(a: int, b: int, t: int)
    requires a <= b && t >= 0
    ensures a * t <= b * t
  {
    assert b * t - a * t == (b - a) * t;
  }
}
