/**
 * The tile grid as the player sees it: a flat, row-major list of tiles, the
 * number of tiles per row and the side of a (square) tile. A tile's place in
 * the world is not stored; it follows from its index.
 */
module Tiles {
  import opened Geometry

  datatype Tile = Tile(collision: bool)

  /** The grid's tile list, its width in tiles and its tile size in world units. */
  datatype TileMap = TileMap(tiles: seq<Tile>, width: int, tileSize: real)

  /** The grid cell (column, row) of the tile stored at index `i`. */
  function CellOf(i: nat, width: nat): (cell: (nat, nat))
    requires width > 0
    ensures cell.0 < width
    ensures i == cell.1 * width + cell.0
  {
    (i % width, i / width)
  }

  /** The index at which the tile of grid cell (column, row) is stored. */
  function IndexOf(column: nat, row: nat, width: nat): nat {
    row * width + column
  }

  /** Division with remainder by a positive divisor has one answer. */
  lemma DivModUnique(i: nat, width: nat, q: nat, r: nat)
    requires width > 0 && r < width && i == q * width + r
    ensures i / width == q && i % width == r
  {
    var q', r' := i / width, i % width;
    if q' < q {
      MulStep(q', q - q', width);
    } else if q < q' {
      MulStep(q, q' - q, width);
    }
  }

  /** Adding `d >= 1` rows of `width` moves past at least one more whole row. */
  lemma MulStep(a: nat, d: nat, width: nat)
    requires d >= 1
    ensures (a + d) * width >= a * width + width
  {
  }

  /** Every index comes back from its grid cell. */
  lemma IndexOfCellOf(i: nat, width: nat)
    requires width > 0
    ensures var cell := CellOf(i, width); IndexOf(cell.0, cell.1, width) == i
  {
  }

  /** Every cell inside the grid's width comes back from its index. */
  lemma CellOfIndexOf(column: nat, row: nat, width: nat)
    requires width > 0 && column < width
    ensures CellOf(IndexOf(column, row, width), width) == (column, row)
  {
    DivModUnique(IndexOf(column, row, width), width, row, column);
  }

  /** Two distinct indices never share a grid cell. */
  lemma CellOfInjective(i: nat, j: nat, width: nat)
    requires width > 0 && i != j
    ensures CellOf(i, width) != CellOf(j, width)
  {
    IndexOfCellOf(i, width);
    IndexOfCellOf(j, width);
  }

  /** The square the tile at index `i` occupies in the world. */
  function TileRect(grid: TileMap, i: nat): (r: Rect)
    requires grid.width > 0
    ensures r.width == grid.tileSize && r.height == grid.tileSize
    ensures r.x == (i % grid.width) as real * grid.tileSize
    ensures r.y == (i / grid.width) as real * grid.tileSize
  {
    var cell := CellOf(i, grid.width);
    Rect(cell.0 as real * grid.tileSize, cell.1 as real * grid.tileSize, grid.tileSize, grid.tileSize)
  }

  /** The tile at index `i` blocks the box: it is flagged collidable and its square overlaps the box. */
  predicate Blocks(grid: TileMap, box: Rect, i: nat)
    requires grid.width > 0 && i < |grid.tiles|
  {
    grid.tiles[i].collision && Overlaps(box, TileRect(grid, i))
  }

  /** Some tile of the grid blocks the box. */
  ghost predicate Collides(grid: TileMap, box: Rect)
    requires grid.width > 0
  {
    exists i: nat :: i < |grid.tiles| && Blocks(grid, box, i)
  }

  /** A grid whose tiles are all passable never blocks anything, the empty grid included. */
  lemma PassableMapNeverCollides(grid: TileMap, box: Rect)
    requires grid.width > 0
    requires forall i :: 0 <= i < |grid.tiles| ==> !grid.tiles[i].collision
    ensures !Collides(grid, box)
  {
  }

  /** Clearing the collision flag of one tile can remove a collision but never create one. */
  lemma ClearingTileNeverAddsCollision(grid: TileMap, box: Rect, k: nat)
    requires grid.width > 0 && k < |grid.tiles|
    ensures var cleared := grid.(tiles := grid.tiles[k := Tile(false)]);
            Collides(cleared, box) ==> Collides(grid, box)
  {
    var cleared := grid.(tiles := grid.tiles[k := Tile(false)]);
    forall i: nat | i < |cleared.tiles| && Blocks(cleared, box, i)
      ensures Blocks(grid, box, i)
    {
      assert cleared.tiles[i] == grid.tiles[i];
      assert TileRect(cleared, i) == TileRect(grid, i);
    }
  }

  /**
   * A grid ten tiles wide with 32-unit tiles whose only collidable tile is
   * index 5, the square [160, 192] × [0, 32]: a 16 × 32 box at (170, 10)
   * collides with it and the same box at (300, 10) collides with nothing.
   */
  lemma SingleTileScenario()
    ensures var grid := TileMap(seq(10, i => Tile(i == 5)), 10, 32.0);
            Collides(grid, Rect(170.0, 10.0, 16.0, 32.0)) &&
            !Collides(grid, Rect(300.0, 10.0, 16.0, 32.0))
  {
    var grid := TileMap(seq(10, i => Tile(i == 5)), 10, 32.0);
    assert TileRect(grid, 5) == Rect(160.0, 0.0, 32.0, 32.0);
    assert Blocks(grid, Rect(170.0, 10.0, 16.0, 32.0), 5);
  }
}
