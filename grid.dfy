/**
 * The tile grid (hooks/useGameEngine.ts: getCell, setCell, the storage count
 * of the deposit rule and the Food square a dead enemy leaves). The grid is
 * an array2 of Height rows and Width columns, indexed [y, x].
 */
module Grid {
  import opened Types
  import opened Rules

  predicate IsGrid<T>(g: array2<T>) {
    g.Length0 == Height && g.Length1 == Width
  }

  /** The tile at (x, y); every coordinate outside the grid reads as Rock. */
  function GetCell(g: array2<Cell>, x: int, y: int): Cell
    requires IsGrid(g)
    reads g
  {
    if InBounds(x, y) then g[y, x] else Rock
  }

  /** An out-of-bounds read is Rock, so a tile that is not Rock lies inside the grid. */
  lemma NotRockInBounds(g: array2<Cell>, x: int, y: int)
    requires IsGrid(g)
    requires GetCell(g, x, y) != Rock
    ensures InBounds(x, y)
  {
  }

  /** Writes the tile at (x, y); a write outside the grid changes nothing. */
  method SetCell(g: array2<Cell>, x: int, y: int, c: Cell)
    requires IsGrid(g)
    modifies g
    ensures forall j, i :: 0 <= j < Height && 0 <= i < Width ==>
      g[j, i] == if i == x && j == y then c else old(g[j, i])
    ensures GetCell(g, x, y) == (if InBounds(x, y) then c else Rock)
    ensures forall i, j :: (i != x || j != y) ==> GetCell(g, i, j) == old(GetCell(g, i, j))
    ensures !InBounds(x, y) ==> unchanged(g)
  {
    if !InBounds(x, y) {
      return;
    }
    g[y, x] := c;
  }

  /** Number of tiles of the given kind among the first w tiles of row y. */
  function CountRow(g: array2<Cell>, kind: Cell, y: int, w: nat): (n: nat)
    requires IsGrid(g) && 0 <= y < Height && w <= Width
    reads g
    ensures n <= w
    ensures n == 0 <==> forall i :: 0 <= i < w ==> g[y, i] != kind
  {
    if w == 0 then 0 else CountRow(g, kind, y, w - 1) + (if g[y, w - 1] == kind then 1 else 0)
  }

  /** Number of tiles of the given kind in the first h rows. */
  function CountRows(g: array2<Cell>, kind: Cell, h: nat): (n: nat)
    requires IsGrid(g) && h <= Height
    reads g
    ensures n <= h * Width
    ensures n == 0 <==> forall j, i :: 0 <= j < h && 0 <= i < Width ==> g[j, i] != kind
  {
    if h == 0 then 0 else CountRows(g, kind, h - 1) + CountRow(g, kind, h - 1, Width)
  }

  /** Number of tiles of the given kind in the whole grid. */
  function CountKind(g: array2<Cell>, kind: Cell): (n: nat)
    requires IsGrid(g)
    reads g
    ensures n <= Width * Height
    ensures n == 0 <==> forall j, i :: 0 <= j < Height && 0 <= i < Width ==> g[j, i] != kind
  {
    CountRows(g, kind, Height)
  }

  /** Writes c to every in-bounds tile (i, j) with left <= i <= right and top <= j <= bottom, row by row. */
  method FillRect(g: array2<Cell>, left: int, top: int, right: int, bottom: int, c: Cell)
    requires IsGrid(g)
    modifies g
    ensures forall j, i :: 0 <= j < Height && 0 <= i < Width ==>
      g[j, i] == if left <= i <= right && top <= j <= bottom then c else old(g[j, i])
  {
    var y := top;
    while y <= bottom
      invariant top <= y <= if top <= bottom then bottom + 1 else top
      invariant forall j, i :: 0 <= j < Height && 0 <= i < Width ==>
        g[j, i] == if left <= i <= right && top <= j < y then c else old(g[j, i])
    {
      var x := left;
      while x <= right
        invariant left <= x <= if left <= right then right + 1 else left
        invariant forall j, i :: 0 <= j < Height && 0 <= i < Width ==>
          g[j, i] == if (left <= i <= right && top <= j < y) || (j == y && left <= i < x) then c else old(g[j, i])
      {
        if 0 <= y < Height && 0 <= x < Width {
          g[y, x] := c;
        }
        x := x + 1;
      }
      y := y + 1;
    }
  }

  /**
   * The Food square a dead enemy leaves: every in-bounds tile within
   * MeatRadius of its floored position, on both axes, becomes Food.
   */
  method StampMeat(g: array2<Cell>, e: Enemy)
    requires IsGrid(g)
    modifies g
    ensures forall j, i :: 0 <= j < Height && 0 <= i < Width ==>
      g[j, i] == if Covers(e, i, j) then Food else old(g[j, i])
  {
    var r := MeatRadius(e.kind);
    var cx, cy := e.x.Floor, e.y.Floor;
    FillRect(g, cx - r, cy - r, cx + r, cy + r, Food);
  }
}
