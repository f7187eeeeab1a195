/**
  Geometry of the directional shadow atlas (Shadows.cs): how many tiles per
  side the atlas is split into, where each (light, cascade) tile lies, and
  how a light's view-projection matrix is remapped into its tile.
  These are the pure pieces of the shadow pass; the stateful pass that
  uses them lives in module DirectionalShadows.
 */
module ShadowAtlas {
  import opened Linear

  /** At most four directional lights are shadowed at once. */
  const MaxShadowedDirectionalLightCount: int := 4
  /** Each shadowed light has at most four cascades. */
  const MaxCascades: int := 4
  /** Length of the tile-matrix array: one matrix per (light, cascade) tile. */
  const MaxTiles: int := MaxShadowedDirectionalLightCount * MaxCascades

  /** Grid cell of a tile, in tiles (the Vector2 returned by SetTileViewport). */
  datatype Offset = Offset(x: int, y: int)

  /** A viewport in pixels: the pixels x <= px < x + width, y <= py < y + height. */
  datatype Rect = Rect(x: int, y: int, width: int, height: int)

  predicate Covers(r: Rect, px: int, py: int) {
    r.x <= px < r.x + r.width && r.y <= py < r.y + r.height
  }

  /** The viewport lies inside a square atlas of atlasSize pixels per side. */
  predicate WithinAtlas(r: Rect, atlasSize: int) {
    0 <= r.x && r.x + r.width <= atlasSize && 0 <= r.y && r.y + r.height <= atlasSize
  }

  /**
    Tiles per atlas side for a given number of tiles: the smallest of 1, 2
    and 4 whose square holds every tile (up to 16 tiles).
   */
  function Split(tiles: int): (split: int)
    ensures split == 1 || split == 2 || split == 4
    ensures tiles <= MaxTiles ==> tiles <= split * split
    ensures split > 1 ==> tiles > 1
    ensures split > 2 ==> tiles > 4
  {
    if tiles <= 1 then 1 else if tiles <= 4 then 2 else 4
  }

  /** Pixel size of one tile: the largest size of which split tiles fit in the atlas side. */
  function TileSize(atlasSize: int, split: int): (tileSize: int)
    requires atlasSize >= 0 && split >= 1
    ensures tileSize >= 0
    ensures tileSize * split <= atlasSize < (tileSize + 1) * split
  {
    atlasSize / split
  }

  /**
    Grid cell of tile number index when tiles are laid out row by row,
    split tiles per row.
   */
  function TileOffset(index: int, split: int): (o: Offset)
    requires index >= 0 && split >= 1
    ensures 0 <= o.x < split && 0 <= o.y
    ensures index == o.y * split + o.x
  {
    Offset(index % split, index / split)
  }

  /**
    The viewport SetTileViewport selects for tile number index: a square of
    the tile size whose corner lies on the tile grid, and from whose corner
    the tile number can be read back.
   */
  function TileRect(index: int, split: int, tileSize: int): (r: Rect)
    requires index >= 0 && split >= 1
    ensures r.width == tileSize && r.height == tileSize
    ensures tileSize > 0 ==>
      && r.x % tileSize == 0 && r.y % tileSize == 0
      && 0 <= r.x / tileSize < split
      && index == (r.y / tileSize) * split + r.x / tileSize
  {
    var o := TileOffset(index, split);
    GridCorner(o, tileSize);
    Rect(o.x * tileSize, o.y * tileSize, tileSize, tileSize)
  }

  /** The pixel corner of grid cell o lies on the grid and gives o back. */
  lemma GridCorner(o: Offset, tileSize: int)
    requires 0 <= o.x && 0 <= o.y
    ensures tileSize > 0 ==>
      && (o.x * tileSize) / tileSize == o.x && (o.x * tileSize) % tileSize == 0
      && (o.y * tileSize) / tileSize == o.y && (o.y * tileSize) % tileSize == 0
  {
    if tileSize > 0 {
      TileIndexDecomposes(o.x, 0, tileSize);
      TileIndexDecomposes(o.y, 0, tileSize);
    }
  }

  /** A tile of the split x split grid lies inside the atlas. */
  lemma TileWithinAtlas(index: int, split: int, atlasSize: int)
    requires 0 <= index < split * split && split >= 1 && atlasSize >= 0
    ensures WithinAtlas(TileRect(index, split, TileSize(atlasSize, split)), atlasSize)
  {
    var o := TileOffset(index, split);
    var t := TileSize(atlasSize, split);
    RowInsideGrid(index, split, o);
    CellWithinSide(o.x, split, t);
    CellWithinSide(o.y, split, t);
  }

  /** A tile numbered below split * split sits in one of the first split rows. */
  lemma RowInsideGrid(index: int, split: int, o: Offset)
    requires split >= 1 && 0 <= o.x && index == o.y * split + o.x && index < split * split
    ensures o.y < split
  {
    if o.y >= split {
      MulMono(split, o.y, split);
    }
  }

  /** A cell u of a side of split cells of t pixels each ends within split * t pixels. */
  lemma CellWithinSide(u: int, split: int, t: int)
    requires 0 <= u < split && t >= 0
    ensures 0 <= u * t && u * t + t <= split * t
  {
    MulMono(u + 1, split, t);
    assert (u + 1) * t == u * t + t;
  }

  lemma MulMono(a: int, b: int, c: int)
    requires a <= b && c >= 0
    ensures a * c <= b * c
  {
    assert (b - a) * c >= 0;
  }

  /**
    A tile numbered past the split x split grid lies (in part) outside an
    atlas whose side split divides, as soon as tiles are at least one pixel wide.
   */
  lemma TileBeyondGridLeavesAtlas(index: int, split: int, atlasSize: int)
    requires split >= 1 && atlasSize >= 0 && atlasSize % split == 0
    requires index >= split * split && TileSize(atlasSize, split) >= 1
    ensures !WithinAtlas(TileRect(index, split, TileSize(atlasSize, split)), atlasSize)
  {
    var o := TileOffset(index, split);
    var t := TileSize(atlasSize, split);
    RowBeyondGrid(index, split, o);
    MulMono(split, o.y, t);
    assert atlasSize == split * t;
  }

  /** A tile numbered from split * split on sits at row split or below. */
  lemma RowBeyondGrid(index: int, split: int, o: Offset)
    requires split >= 1 && o.x < split && index == o.y * split + o.x && index >= split * split
    ensures o.y >= split
  {
    if o.y < split {
      MulMono(o.y, split - 1, split);
    }
  }

  /** Two different tiles share no pixel. */
  lemma TilesDisjoint(i: int, j: int, split: int, tileSize: int)
    requires 0 <= i && 0 <= j && i != j && split >= 1 && tileSize >= 0
    ensures forall px, py :: !(Covers(TileRect(i, split, tileSize), px, py) && Covers(TileRect(j, split, tileSize), px, py))
  {
    var a, b := TileOffset(i, split), TileOffset(j, split);
    assert a != b;
    assert TileRect(i, split, tileSize) == CellRect(a, tileSize);
    assert TileRect(j, split, tileSize) == CellRect(b, tileSize);
    CellRectsDisjoint(a, b, tileSize);
  }

  /** The pixels of grid cell o, for tiles of tileSize pixels. */
  function CellRect(o: Offset, tileSize: int): Rect {
    Rect(o.x * tileSize, o.y * tileSize, tileSize, tileSize)
  }

  /** Two different grid cells share no pixel. */
  lemma CellRectsDisjoint(a: Offset, b: Offset, tileSize: int)
    requires a != b && tileSize >= 0
    ensures forall px, py :: !(Covers(CellRect(a, tileSize), px, py) && Covers(CellRect(b, tileSize), px, py))
  {
    if a.x != b.x {
      CellsApart(a.x, b.x, tileSize);
    } else {
      CellsApart(a.y, b.y, tileSize);
    }
  }

  /** Different grid cells along one axis cover disjoint pixel ranges. */
  lemma CellsApart(u: int, v: int, tileSize: int)
    requires u != v && tileSize >= 0
    ensures u < v ==> (u + 1) * tileSize <= v * tileSize
    ensures v < u ==> (v + 1) * tileSize <= u * tileSize
  {
    if u < v {
      MulMono(u + 1, v, tileSize);
    } else {
      MulMono(v + 1, u, tileSize);
    }
  }

  /**
    Tile index lightIndex * cascadeCount + cascade names light lightIndex and
    cascade number cascade, and nothing else.
   */
  lemma TileIndexDecomposes(lightIndex: int, cascade: int, cascadeCount: int)
    requires 0 <= lightIndex && 0 <= cascade < cascadeCount
    ensures (lightIndex * cascadeCount + cascade) / cascadeCount == lightIndex
    ensures (lightIndex * cascadeCount + cascade) % cascadeCount == cascade
  {
    var t := lightIndex * cascadeCount + cascade;
    var q, r := t / cascadeCount, t % cascadeCount;
    assert t == q * cascadeCount + r && 0 <= r < cascadeCount;
    QuotientUnique(lightIndex, cascade, q, r, cascadeCount);
  }

  lemma QuotientUnique(a: int, b: int, q: int, r: int, n: int)
    requires 0 <= b < n && 0 <= r < n && a * n + b == q * n + r
    ensures a == q && b == r
  {
    assert (a - q) * n == r - b;
    if a > q {
      MulMono(1, a - q, n);
    } else if a < q {
      MulMono(1, q - a, n);
    }
  }

  /** With at most four lights of at most four cascades, every tile index fits the matrix array. */
  lemma TileIndexBelowMaxTiles(lightIndex: int, cascade: int, cascadeCount: int)
    requires 0 <= lightIndex < MaxShadowedDirectionalLightCount && 0 <= cascade < cascadeCount <= MaxCascades
    ensures 0 <= lightIndex * cascadeCount + cascade < MaxTiles
  {
    assert lightIndex * cascadeCount <= 3 * cascadeCount;
  }

  /** Rows 0 and 1 of the atlas matrix: NDC [-1, 1] to the tile's share of [0, 1]. */
  function AtlasRow(row: Vector4, w: Vector4, offset: int, split: int): Vector4
    requires split >= 1
  {
    Scale(1.0 / split as real, Add(Scale(0.5, Add(row, w)), Scale(offset as real, w)))
  }

  /**
    ConvertToAtlasMatrix: remap a light's view-projection matrix m into the
    tile at grid cell offset of a split x split atlas. Row 3 (the homogeneous
    w) is kept; row 2 (depth) is negated exactly when the depth buffer is
    reversed; rows 0 and 1 are remapped (see AtlasMatrixRemapsPoint).
   */
  function ConvertToAtlasMatrix(m: Matrix4x4, offset: Offset, split: int, reversedZ: bool): (r: Matrix4x4)
    requires split >= 1
    ensures r.row3 == m.row3
    ensures reversedZ ==> r.row2 == Negate(m.row2)
    ensures !reversedZ ==> r.row2 == m.row2
  {
    var depth := if reversedZ then Negate(m.row2) else m.row2;
    Matrix4x4(AtlasRow(m.row0, m.row3, offset.x, split), AtlasRow(m.row1, m.row3, offset.y, split), depth, m.row3)
  }

  /**
    What the atlas matrix does to a point: with p the point projected by m
    and q the point projected by the atlas matrix, q keeps p's w, flips p's
    depth under a reversed depth buffer, and maps p's x and y from [-w, w]
    to the tile's slice of [0, w].
   */
  lemma AtlasMatrixRemapsPoint(m: Matrix4x4, offset: Offset, split: int, reversedZ: bool, v: Vector4)
    requires split >= 1
    ensures var p, q := Transform(m, v), Transform(ConvertToAtlasMatrix(m, offset, split, reversedZ), v);
      && q.w == p.w
      && q.z == (if reversedZ then -p.z else p.z)
      && q.x * split as real == 0.5 * (p.x + p.w) + offset.x as real * p.w
      && q.y * split as real == 0.5 * (p.y + p.w) + offset.y as real * p.w
  {
    hide AtlasRow, Dot;
    var r := ConvertToAtlasMatrix(m, offset, split, reversedZ);
    var s := split as real;
    if reversedZ {
      DotNegate(m.row2, v);
    }
    RemappedRow(m.row0, m.row3, offset.x, split, v);
    RemappedRow(m.row1, m.row3, offset.y, split, v);
  }

  lemma RemappedRow(row: Vector4, w: Vector4, offset: int, split: int, v: Vector4)
    requires split >= 1
    ensures Dot(AtlasRow(row, w, offset, split), v) * split as real == 0.5 * (Dot(row, v) + Dot(w, v)) + offset as real * Dot(w, v)
  {
    var s := split as real;
    var inner := Add(Scale(0.5, Add(row, w)), Scale(offset as real, w));
    DotScale(1.0 / s, inner, v);
    DotAdd(Scale(0.5, Add(row, w)), Scale(offset as real, w), v);
    DotScale(0.5, Add(row, w), v);
    DotAdd(row, w, v);
    DotScale(offset as real, w, v);
    assert (1.0 / s) * Dot(inner, v) * s == Dot(inner, v);
  }

  /** A projected point inside the clip volume: w > 0 and -w <= x, y <= w. */
  predicate InClipVolume(p: Vector4) {
    p.w > 0.0 && -p.w <= p.x <= p.w && -p.w <= p.y <= p.w
  }

  /**
    An atlas-space point whose x / w and y / w fall in the slice
    [offset / split, (offset + 1) / split] of its tile, written without division.
   */
  predicate InTileSlice(q: Vector4, offset: Offset, split: int) {
    && q.w > 0.0
    && offset.x as real * q.w <= split as real * q.x <= (offset.x + 1) as real * q.w
    && offset.y as real * q.w <= split as real * q.y <= (offset.y + 1) as real * q.w
  }

  /**
    A point inside the light's clip volume lands, after the perspective
    divide, inside its tile's share of the atlas.
   */
  lemma ProjectedPointLandsInTile(m: Matrix4x4, offset: Offset, split: int, reversedZ: bool, v: Vector4)
    requires split >= 1 && InClipVolume(Transform(m, v))
    ensures InTileSlice(Transform(ConvertToAtlasMatrix(m, offset, split, reversedZ), v), offset, split)
  {
    hide Transform, ConvertToAtlasMatrix;
    AtlasMatrixRemapsPoint(m, offset, split, reversedZ, v);
    SliceOfRemappedPoint(Transform(m, v), Transform(ConvertToAtlasMatrix(m, offset, split, reversedZ), v), offset, split);
  }

  lemma SliceOfRemappedPoint(p: Vector4, q: Vector4, offset: Offset, split: int)
    requires split >= 1 && InClipVolume(p) && q.w == p.w
    requires q.x * split as real == 0.5 * (p.x + p.w) + offset.x as real * p.w
    requires q.y * split as real == 0.5 * (p.y + p.w) + offset.y as real * p.w
    ensures InTileSlice(q, offset, split)
  {
    CoordinateInTile(p.x, p.w, q.x, offset.x, split);
    CoordinateInTile(p.y, p.w, q.y, offset.y, split);
  }

  lemma CoordinateInTile(x: real, w: real, u: real, offset: int, split: int)
    requires w > 0.0 && -w <= x <= w
    requires u * split as real == 0.5 * (x + w) + offset as real * w
    ensures offset as real * w <= split as real * u <= (offset + 1) as real * w
  {
    assert (offset + 1) as real * w == offset as real * w + w;
  }
}
