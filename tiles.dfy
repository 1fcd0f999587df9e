/** The tile grid of the side-scroller (src/gameplay/world.go and the tile
    type of src/gameplay/gameobject.go): a fixed 30 x 120 grid, addressed
    by world column modulo 120 so that generation can run on forever, and
    the point-collision query entities ask of it. */
module Tiles {
  import opened Common
  import opened Graphics

  /** Side of a square tile, in world units. */
  const TILEWIDTH: real := 32.0
  /** Columns in the ring buffer. */
  const WORLDBUFFERLEN: nat := 120
  /** Rows in the grid. */
  const WORLDBUFFERHEIGHT: nat := 30

  /** A square of terrain. A tile without an image is sky. */
  datatype Tile = Tile(id: nat, x: real, y: real, width: real, height: real,
                       im: Option<Image>, isPassable: bool)

  /** A new tile is a full 32 x 32 square and is solid until the generator
      says otherwise. */
  function NewTile(id: nat, x: real, y: real, im: Option<Image>): (t: Tile)
    ensures t.width == TILEWIDTH && t.height == TILEWIDTH && !t.isPassable
    ensures t.id == id && t.x == x && t.y == y && t.im == im
  {
    Tile(id, x, y, TILEWIDTH, TILEWIDTH, im, false)
  }

  /** The grid as the world holds it: rows first, then ring columns. */
  predicate IsGrid(tiles: array2<Tile>)
  {
    tiles.Length0 == WORLDBUFFERHEIGHT as int && tiles.Length1 == WORLDBUFFERLEN as int
  }

  /** The ring column of world column `x`. */
  function ToBufferIndex(x: nat): (r: nat)
    ensures r < WORLDBUFFERLEN
  {
    x % WORLDBUFFERLEN
  }

  /** Columns 120 apart share a ring column. */
  lemma BufferIndexPeriodic(x: nat)
    ensures ToBufferIndex(x + WORLDBUFFERLEN) == ToBufferIndex(x)
  {
  }

  /** Fewer than 120 columns apart, two world columns use different ring
      columns: a window of 120 consecutive columns fits in the ring. */
  lemma {:induction false} DistinctColumns(g: nat, h: nat)
    requires g < h < g + WORLDBUFFERLEN
    ensures ToBufferIndex(g) != ToBufferIndex(h)
  {
    var q, r := g / 120, g % 120;
    assert g == 120 * q + r;
    if r + (h - g) < 120 {
      assert h == 120 * q + (r + (h - g));
    } else {
      assert h == 120 * (q + 1) + (r + (h - g) - 120);
    }
  }

  /** Go's float-to-integer conversion: the fraction is discarded, rounding
      toward zero. */
  function Trunc(v: real): (r: int)
    ensures v >= 0.0 ==> 0.0 <= r as real <= v < r as real + 1.0
    ensures v < 0.0 ==> r as real - 1.0 < v <= r as real <= 0.0
  {
    if v >= 0.0 then v.Floor else -((-v).Floor)
  }

  /** Grid cell of a world point with non-negative coordinates: the ring
      column of the point's world column, and its row. */
  function WorldToBuffer(x: real, y: real): (r: (nat, nat))
    requires x >= 0.0 && y >= 0.0
    ensures r.0 < WORLDBUFFERLEN
    ensures r.0 == (x / TILEWIDTH).Floor % WORLDBUFFERLEN as int
    ensures r.1 as real * TILEWIDTH <= y < (r.1 + 1) as real * TILEWIDTH
  {
    var gridX := Trunc(x / TILEWIDTH);
    var bufferY := Trunc(y / TILEWIDTH);
    (ToBufferIndex(gridX), bufferY)
  }

  /** The grid cell, as (row, ring column), a world point falls in; none
      for a point above or below the grid's band. A point whose truncated
      row or column is negative has none either: Go leaves the `uint32`
      conversion of a negative value to the platform. On amd64 a negative
      row wraps to a huge one, which the row test rejects, but a negative
      column wraps to a valid ring column (x = -40 gives 0xFFFFFFFF % 120,
      column 15), which Go then tests where this model reports no cell. */
  function CellAt(x: real, y: real): (r: Option<(nat, nat)>)
    ensures r.Some? ==> r.value.0 < WORLDBUFFERHEIGHT && r.value.1 < WORLDBUFFERLEN
  {
    var gx := Trunc(x / TILEWIDTH);
    var gy := Trunc(y / TILEWIDTH);
    if gx < 0 || gy < 0 || gy >= WORLDBUFFERHEIGHT then None
    else Some((gy, ToBufferIndex(gx)))
  }

  /** Whether a world point lies in solid terrain; points outside the band
      are open. */
  predicate IsWorldCollision(tiles: array2<Tile>, x: real, y: real)
    requires IsGrid(tiles)
    reads tiles
  {
    match CellAt(x, y)
    case None => false
    case Some(c) => !tiles[c.0, c.1].isPassable
  }

  /** A snapshot of the grid as values, rows first. */
  predicate GridShape(g: seq<seq<Tile>>)
  {
    |g| == WORLDBUFFERHEIGHT && forall y :: 0 <= y < WORLDBUFFERHEIGHT ==> |g[y]| == WORLDBUFFERLEN
  }

  ghost function Cells(tiles: array2<Tile>): (g: seq<seq<Tile>>)
    requires IsGrid(tiles)
    reads tiles
    ensures GridShape(g)
    ensures forall y, x :: 0 <= y < WORLDBUFFERHEIGHT && 0 <= x < WORLDBUFFERLEN ==> g[y][x] == tiles[y, x]
  {
    seq(WORLDBUFFERHEIGHT, y requires 0 <= y < WORLDBUFFERHEIGHT reads tiles =>
      seq(WORLDBUFFERLEN, x requires 0 <= x < WORLDBUFFERLEN reads tiles => tiles[y, x]))
  }

  /** The collision query on a snapshot of the grid. */
  predicate SolidAt(g: seq<seq<Tile>>, x: real, y: real)
    requires GridShape(g)
  {
    match CellAt(x, y)
    case None => false
    case Some(c) => !g[c.0][c.1].isPassable
  }

  /** The query on the grid is the query on its snapshot. */
  lemma CollisionInCells(tiles: array2<Tile>, x: real, y: real)
    requires IsGrid(tiles)
    ensures IsWorldCollision(tiles, x, y) == SolidAt(Cells(tiles), x, y)
  {
  }

  /** Inside the grid's band, the query is the solidity of the tile at the
      point's row and ring column; outside it there is never a collision. */
  lemma CollisionIsTileSolidity(tiles: array2<Tile>, x: real, y: real)
    requires IsGrid(tiles) && x >= 0.0 && y >= 0.0
    ensures var cell := WorldToBuffer(x, y);
      IsWorldCollision(tiles, x, y) <==>
        cell.1 < WORLDBUFFERHEIGHT && !tiles[cell.1, cell.0].isPassable
  {
  }

  /** The band is open below its last row. */
  lemma BelowGridIsOpen(tiles: array2<Tile>, x: real, y: real)
    requires IsGrid(tiles) && y >= WORLDBUFFERHEIGHT as real * TILEWIDTH
    ensures !IsWorldCollision(tiles, x, y)
  {
  }

  /** The query sees the world through the ring: moving a point 120 tiles
      to the right gives the same answer. */
  lemma {:induction false} CollisionPeriodic(tiles: array2<Tile>, x: real, y: real)
    requires IsGrid(tiles) && x >= 0.0
    ensures IsWorldCollision(tiles, x + WORLDBUFFERLEN as real * TILEWIDTH, y) == IsWorldCollision(tiles, x, y)
  {
    var g := Trunc(x / TILEWIDTH);
    assert (x + WORLDBUFFERLEN as real * TILEWIDTH) / TILEWIDTH == x / TILEWIDTH + 120.0;
    assert Trunc(x / TILEWIDTH + 120.0) == g + 120;
    BufferIndexPeriodic(g);
  }
}
