/** The tile map and its point-in-wall query, `Grid.isCollides`. */
module Grids {
  import opened Outcomes
  import opened Geometry

  /** A JavaScript number as `isCollides` sees it: finite, or one of NaN and the infinities. */
  datatype JsNumber = Finite(value: real) | NonFinite

  /** The `{ x, y }` object literal handed to `isCollides`. */
  datatype JsPoint = JsPoint(x: JsNumber, y: JsNumber)

  /** The map every `Grid` is built with: 11 rows of 15 cells, 1 for a wall and 0 for open floor. */
  const TILE_MAP: seq<seq<int>> := [
    [1, 1, 1, 1, 1, 1, 1, 1, 1, 1, 1, 1, 1, 1, 1],
    [1, 0, 0, 0, 0, 0, 0, 0, 0, 0, 0, 0, 1, 0, 1],
    [1, 0, 0, 0, 0, 1, 0, 0, 0, 0, 0, 0, 1, 0, 1],
    [1, 1, 1, 1, 0, 0, 0, 0, 0, 0, 1, 0, 1, 0, 1],
    [1, 0, 0, 0, 0, 0, 0, 0, 0, 0, 1, 0, 1, 0, 1],
    [1, 0, 0, 0, 0, 0, 0, 0, 1, 1, 1, 1, 1, 0, 1],
    [1, 0, 0, 0, 0, 0, 0, 0, 0, 0, 0, 0, 0, 0, 1],
    [1, 0, 0, 0, 0, 0, 0, 0, 0, 0, 0, 0, 0, 0, 1],
    [1, 1, 1, 1, 1, 1, 0, 0, 0, 1, 1, 1, 1, 0, 1],
    [1, 0, 0, 0, 0, 0, 0, 0, 0, 0, 0, 0, 0, 0, 1],
    [1, 1, 1, 1, 1, 1, 1, 1, 1, 1, 1, 1, 1, 1, 1]
  ]

  /** The row and the column `isCollides` looks up for a point of the window. */
  function CellRow(p: Point): int { (p.y / TILE_SIZE).Floor }
  function CellCol(p: Point): int { (p.x / TILE_SIZE).Floor }

  /**
   * A grid is its table of cells (row-major). The lookup follows JavaScript's rules for
   * any table: a missing row is `undefined` and reading a cell of it throws, while a
   * missing cell is `undefined`, which is not `=== 1`.
   */
  datatype Grid = Grid(cells: seq<seq<int>>) {

    /** `isCollides` on a point whose coordinates are already known to be finite. */
    function Collides(p: Point): (r: Result<bool>)
      ensures !InWindow(p) ==> r == Ok(true)
      ensures r.Err? <==> InWindow(p) && CellRow(p) >= |cells|
      ensures r.Err? ==> r.error == RowOutOfRange
      ensures r == Ok(false) ==> InWindow(p) && CellCol(p) < |cells[CellRow(p)]| ==> cells[CellRow(p)][CellCol(p)] != 1
    {
      if p.x < 0.0 || p.x > WINDOW_WIDTH || p.y < 0.0 || p.y > WINDOW_HEIGHT then
        Ok(true)
      else
        var col := CellCol(p);
        var row := CellRow(p);
        if row >= |cells| then Err(RowOutOfRange)
        else Ok(col < |cells[row]| && cells[row][col] == 1)
    }

    /** `isCollides` as called from JavaScript: the argument object is checked before anything else. */
    function IsCollides(obj: Option<JsPoint>): (r: Result<bool>)
      ensures obj.None? ==> r == Err(InvalidObject)
      ensures obj.Some? && (obj.value.x.NonFinite? || obj.value.y.NonFinite?) ==> r == Err(InvalidObject)
      ensures obj.Some? && obj.value.x.Finite? && obj.value.y.Finite? ==>
                r == Collides(Point(obj.value.x.value, obj.value.y.value))
    {
      match obj
      case None => Err(InvalidObject)
      case Some(JsPoint(Finite(x), Finite(y))) => Collides(Point(x, y))
      case Some(_) => Err(InvalidObject)
    }
  }

  /** The grid of `new Grid()`. */
  const STANDARD_GRID: Grid := Grid(TILE_MAP)

  lemma StandardGridShape()
    ensures |TILE_MAP| == MAP_NUM_ROWS
    ensures forall row :: 0 <= row < MAP_NUM_ROWS ==> |TILE_MAP[row]| == MAP_NUM_COLS
  {
  }

  /** The outer ring of the map is wall on all four sides. */
  lemma BorderIsWall()
    ensures forall col :: 0 <= col < MAP_NUM_COLS ==> TILE_MAP[0][col] == 1 && TILE_MAP[MAP_NUM_ROWS - 1][col] == 1
    ensures forall row :: 0 <= row < MAP_NUM_ROWS ==> TILE_MAP[row][0] == 1 && TILE_MAP[row][MAP_NUM_COLS - 1] == 1
  {
  }

  /** Inside the half-open window the standard grid answers exactly with the stored flag. */
  lemma StandardGridLookup(p: Point)
    requires 0.0 <= p.x < WINDOW_WIDTH && 0.0 <= p.y < WINDOW_HEIGHT
    ensures 0 <= CellRow(p) < MAP_NUM_ROWS && 0 <= CellCol(p) < MAP_NUM_COLS
    ensures STANDARD_GRID.Collides(p) == Ok(TILE_MAP[CellRow(p)][CellCol(p)] == 1)
  {
  }

  /**
   * The closed upper bounds let two edges of the window through to the lookup: the right
   * edge reads column 15, which does not exist, and so counts as open floor; the bottom
   * edge reads row 11, which does not exist, and so throws.
   */
  lemma StandardGridEdges(p: Point)
    ensures STANDARD_GRID.Collides(p).Err? <==> 0.0 <= p.x <= WINDOW_WIDTH && p.y == WINDOW_HEIGHT
    ensures p.x == WINDOW_WIDTH && 0.0 <= p.y < WINDOW_HEIGHT ==> STANDARD_GRID.Collides(p) == Ok(false)
  {
  }

  /** Any point of the window less than a tile away from its left or top edge, or within the last tile before its right or bottom edge (edges excluded), is in a wall. */
  lemma BorderPointsCollide(p: Point)
    requires 0.0 <= p.x < WINDOW_WIDTH && 0.0 <= p.y < WINDOW_HEIGHT
    requires p.x < TILE_SIZE || p.x >= WINDOW_WIDTH - TILE_SIZE || p.y < TILE_SIZE || p.y >= WINDOW_HEIGHT - TILE_SIZE
    ensures STANDARD_GRID.Collides(p) == Ok(true)
  {
  }

  /** The player's starting point (360, 264) lies in the open cell at row 5, column 7. */
  lemma StartCellOpen()
    ensures CellRow(Point(WINDOW_WIDTH / 2.0, WINDOW_HEIGHT / 2.0)) == 5
    ensures CellCol(Point(WINDOW_WIDTH / 2.0, WINDOW_HEIGHT / 2.0)) == 7
    ensures TILE_MAP[5][7] == 0
    ensures STANDARD_GRID.Collides(Point(WINDOW_WIDTH / 2.0, WINDOW_HEIGHT / 2.0)) == Ok(false)
  {
  }
}
