/**
 * The game board (src/server/board.ts): 114 triangles, six around each of
 * 19 hexagon origins, each holding one of three colours. The colours are
 * drawn once, by the constructor, into a 15 x 10 grid indexed by the
 * coordinates shifted by (8, 5); afterwards the board is only read.
 */
module Boards {
  import opened Wrappers

  /** The colour enum: RED = 0, GREEN = 1, BLUE = 2. */
  type Color = c: int | 0 <= c < 3

  const RED: Color := 0
  const GREEN: Color := 1
  const BLUE: Color := 2

  /** A coordinate pair of the triangular coordinate system. */
  datatype Pos = Pos(x: int, y: int)

  /** Origins of the 19 hexagons. */
  const Hexes: seq<Pos> := [
                  Pos(0, -4),
          Pos(-3, -3), Pos(3, -3),
    Pos(-6, -2), Pos(0, -2), Pos(6, -2),
          Pos(-3, -1), Pos(3, -1),
    Pos(-6, 0), Pos(0, 0), Pos(6, 0),
          Pos(-3, 1), Pos(3, 1),
    Pos(-6, 2), Pos(0, 2), Pos(6, 2),
          Pos(-3, 3), Pos(3, 3),
                  Pos(0, 4)
  ]

  /** Offsets of the six triangles of a hexagon from its origin; the robots start on these, in this order. */
  const Triangles: seq<Pos> := [Pos(-1, 0), Pos(0, 0), Pos(0, -1), Pos(-1, -1), Pos(-2, -1), Pos(-2, 0)]

  const ShiftX := 8
  const ShiftY := 5
  /** Dimensions of the backing grid: 15 columns of 10 entries. */
  const Columns := 15
  const Rows := 10
  const CellCount := 114

  /** The k-th cell in drawing order: hexagon k / 6, triangle k % 6. */
  function CellAt(k: int): Pos
    requires 0 <= k < CellCount
  {
    var hex, tri := Hexes[k / 6], Triangles[k % 6];
    Pos(hex.x + tri.x, hex.y + tri.y)
  }

  /** A coordinate is a cell of the board when some hexagon plus triangle offset lands on it. */
  ghost predicate IsCell(p: Pos) {
    exists k :: 0 <= k < CellCount && CellAt(k) == p
  }

  /** The contents of the backing grid: column, then row; absent where nothing was written. */
  type Grid = seq<seq<Option<Color>>>

  /**
   * Looking up a coordinate as `#grid[x + 8]?.[y + 5]` does: any index outside
   * the stored columns or rows reads as absent, never as a failure.
   */
  function GridGet(g: Grid, p: Pos): (r: Option<Color>)
  {
    var i, j := p.x + ShiftX, p.y + ShiftY;
    if 0 <= i < |g| && 0 <= j < |g[i]| then g[i][j] else None
  }

  /**
   * The lookup never fails: it is absent whenever the shifted column or row
   * lies outside the stored grid, and otherwise it is the stored entry.
   */
  lemma GridLookup(g: Grid, p: Pos)
    ensures GridGet(g, p).Some? ==> 0 <= p.x + ShiftX < |g| && 0 <= p.y + ShiftY < |g[p.x + ShiftX]|
    ensures 0 <= p.x + ShiftX < |g| && 0 <= p.y + ShiftY < |g[p.x + ShiftX]| ==> GridGet(g, p) == g[p.x + ShiftX][p.y + ShiftY]
  {
  }

  /** True when the cell at p holds a colour, i.e. p is on the board. */
  predicate OnBoard(g: Grid, p: Pos) {
    GridGet(g, p).Some?
  }

  /** A grid of the board's shape that holds a colour exactly at the 114 cells. */
  ghost predicate BoardShaped(g: Grid) {
    && |g| == Columns
    && (forall i :: 0 <= i < Columns ==> |g[i]| == Rows)
    && forall p {:trigger IsCell(p)} :: OnBoard(g, p) <==> IsCell(p)
  }

  // ----- the cells are pairwise distinct -----

  /** Hexagon origins have x a multiple of 3 and x / 3 + y even. */
  predicate Aligned(p: Pos) {
    p.x % 3 == 0 && (p.x / 3 + p.y) % 2 == 0
  }

  /**
   * The origin of the hexagon a coordinate would belong to: the multiple of 3
   * among x, x + 1, x + 2, and the one of y, y + 1 that makes it aligned.
   */
  function HexOf(p: Pos): Pos {
    var hx := p.x + (-p.x) % 3;
    var hy := if (hx / 3 + p.y) % 2 == 0 then p.y else p.y + 1;
    Pos(hx, hy)
  }

  lemma HexesAligned()
    ensures forall h :: 0 <= h < |Hexes| ==> Aligned(Hexes[h])
  {
  }

  lemma HexesDistinct()
    ensures forall i, j :: 0 <= i < j < |Hexes| ==> Hexes[i] != Hexes[j]
  {
  }

  lemma TrianglesInHexagon()
    ensures forall t :: 0 <= t < |Triangles| ==> -2 <= Triangles[t].x <= 0 && -1 <= Triangles[t].y <= 0
    ensures forall i, j :: 0 <= i < j < |Triangles| ==> Triangles[i] != Triangles[j]
  {
  }

  /** An aligned origin plus any triangle offset decodes back to that origin. */
  lemma HexOfCell(hex: Pos, tri: Pos)
    requires Aligned(hex)
    requires -2 <= tri.x <= 0 && -1 <= tri.y <= 0
    ensures HexOf(Pos(hex.x + tri.x, hex.y + tri.y)) == hex
  {
    var m := hex.x / 3;
    var x := hex.x + tri.x;
    assert hex.x == 3 * m;
    assert -x == 3 * (-m) + (-tri.x);
    assert (-x) % 3 == -tri.x;
  }

  /** The hexagon of the k-th cell is recovered from its coordinates alone. */
  lemma HexOfCellAt(k: int)
    requires 0 <= k < CellCount
    ensures HexOf(CellAt(k)) == Hexes[k / 6]
  {
    HexesAligned();
    TrianglesInHexagon();
    HexOfCell(Hexes[k / 6], Triangles[k % 6]);
  }

  /** The 114 cells are pairwise distinct: a cell's coordinates determine its drawing-order index. */
  lemma CellAtInjective(k1: int, k2: int)
    requires 0 <= k1 < CellCount && 0 <= k2 < CellCount
    requires CellAt(k1) == CellAt(k2)
    ensures k1 == k2
  {
    HexOfCellAt(k1);
    HexOfCellAt(k2);
    HexesDistinct();
    assert k1 / 6 == k2 / 6;
    TrianglesInHexagon();
    assert k1 % 6 == k2 % 6;
  }

  /** Every cell, shifted by (8, 5), indexes inside the 15 x 10 grid. */
  lemma CellInGrid(k: int)
    requires 0 <= k < CellCount
    ensures 0 <= CellAt(k).x + ShiftX < Columns && 0 <= CellAt(k).y + ShiftY < Rows
  {
  }

  /** The cell drawn for hexagon h and triangle t comes at index h * 6 + t. */
  lemma CellOfHexagon(h: int, t: int)
    requires 0 <= h < |Hexes| && 0 <= t < |Triangles|
    ensures 0 <= h * 6 + t < CellCount
    ensures CellAt(h * 6 + t) == Pos(Hexes[h].x + Triangles[t].x, Hexes[h].y + Triangles[t].y)
  {
    assert (h * 6 + t) / 6 == h && (h * 6 + t) % 6 == t;
  }

  /** The six triangles of the centre hexagon (0, 0) are cells, at indices 54..59. */
  lemma CentreTrianglesAreCells(t: int)
    requires 0 <= t < |Triangles|
    ensures CellAt(9 * 6 + t) == Triangles[t]
    ensures IsCell(Triangles[t])
  {
    assert (9 * 6 + t) / 6 == 9 && (9 * 6 + t) % 6 == t;
  }

  /**
   * A 15 x 10 grid holding colors[k] at the k-th cell and nothing where no
   * cell lies holds a colour exactly at the cells.
   */
  lemma DrawnGridIsBoard(g: Grid, colors: seq<Color>)
    requires |colors| == CellCount
    requires |g| == Columns && forall i :: 0 <= i < Columns ==> |g[i]| == Rows
    requires forall k :: 0 <= k < CellCount ==> GridGet(g, CellAt(k)) == Some(colors[k])
    requires forall p :: OnBoard(g, p) ==> IsCell(p)
    ensures BoardShaped(g)
  {
    forall p | IsCell(p)
      ensures OnBoard(g, p)
    {
      var k :| 0 <= k < CellCount && CellAt(k) == p;
      assert GridGet(g, CellAt(k)) == Some(colors[k]);
    }
  }

  /** The 15 x 10 array read as a grid, column by column. */
  ghost function Contents(cells: array2<Option<Color>>): (g: Grid)
    reads cells
    requires cells.Length0 == Columns && cells.Length1 == Rows
    ensures |g| == Columns && forall i :: 0 <= i < Columns ==> |g[i]| == Rows
    ensures forall i, j :: 0 <= i < Columns && 0 <= j < Rows ==> g[i][j] == cells[i, j]
  {
    seq(Columns, i requires 0 <= i < Columns reads cells =>
      seq(Rows, j requires 0 <= j < Rows reads cells => cells[i, j]))
  }

  /** The 114 cells in drawing order. */
  ghost function CellOrder(): (order: seq<Pos>)
    ensures |order| == CellCount && forall k :: 0 <= k < CellCount ==> order[k] == CellAt(k)
  {
    seq(CellCount, k requires 0 <= k < CellCount => CellAt(k))
  }

  /**
   * What the drawing needs to know of the order of the cells: there are
   * 114, each indexes inside the 15 x 10 grid once shifted, and no cell
   * comes twice.
   */
  ghost predicate OrderFits(order: seq<Pos>) {
    && |order| == CellCount
    && (forall k :: 0 <= k < CellCount ==> 0 <= order[k].x + ShiftX < Columns && 0 <= order[k].y + ShiftY < Rows)
    && forall k1, k2 :: 0 <= k1 < k2 < CellCount ==> order[k1] != order[k2]
  }

  /** The drawing order of the cells fits the grid. */
  lemma CellOrderFits()
    ensures OrderFits(CellOrder())
  {
    var order := CellOrder();
    forall k | 0 <= k < CellCount
      ensures 0 <= order[k].x + ShiftX < Columns && 0 <= order[k].y + ShiftY < Rows
    {
      CellInGrid(k);
    }
    forall k1, k2 | 0 <= k1 < k2 < CellCount
      ensures order[k1] != order[k2]
    {
      if order[k1] == order[k2] {
        CellAtInjective(k1, k2);
      }
    }
  }

  /** In drawing order, the six cells of hexagon h come at h * 6 .. h * 6 + 5. */
  lemma HexagonInOrder(h: int)
    requires 0 <= h < |Hexes|
    ensures forall t :: 0 <= t < |Triangles| ==>
      CellOrder()[h * 6 + t] == Pos(Hexes[h].x + Triangles[t].x, Hexes[h].y + Triangles[t].y)
  {
    forall t | 0 <= t < |Triangles|
      ensures CellOrder()[h * 6 + t] == Pos(Hexes[h].x + Triangles[t].x, Hexes[h].y + Triangles[t].y)
    {
      CellOfHexagon(h, t);
    }
  }

  /**
   * A 15 x 10 grid that holds colors[k] at the k-th cell of the order, for
   * the first n cells, and nothing anywhere else.
   */
  ghost predicate GridDrawn(g: Grid, colors: seq<Color>, order: seq<Pos>, n: int)
    requires |colors| == CellCount && |order| == CellCount
    requires 0 <= n <= CellCount
  {
    && |g| == Columns && (forall i :: 0 <= i < Columns ==> |g[i]| == Rows)
    && (forall k :: 0 <= k < n ==> GridGet(g, order[k]) == Some(colors[k]))
    && forall p :: GridGet(g, p).Some? ==> exists k :: 0 <= k < n && order[k] == p
  }

  /** The array as the constructor's loops have left it after n cells. */
  ghost predicate Drawn(cells: array2<Option<Color>>, colors: seq<Color>, order: seq<Pos>, n: int)
    reads cells
    requires cells.Length0 == Columns && cells.Length1 == Rows
    requires |colors| == CellCount && |order| == CellCount
    requires 0 <= n <= CellCount
  {
    GridDrawn(Contents(cells), colors, order, n)
  }

  /** The grid g with v written at column i, row j. */
  function Painted(g: Grid, i: int, j: int, v: Option<Color>): (r: Grid)
    requires 0 <= i < |g| && 0 <= j < |g[i]|
    ensures |r| == |g| && forall a :: 0 <= a < |g| ==> |r[a]| == |g[a]|
    ensures r[i][j] == v
    ensures forall a, b :: 0 <= a < |g| && 0 <= b < |g[a]| && (a != i || b != j) ==> r[a][b] == g[a][b]
  {
    g[i := g[i][j := v]]
  }

  /**
   * Writing the n-th colour at the n-th cell of a grid drawn up to n gives
   * a grid drawn up to n + 1.
   */
  lemma PaintKeepsDrawn(g: Grid, colors: seq<Color>, order: seq<Pos>, n: int)
    requires |colors| == CellCount && OrderFits(order)
    requires 0 <= n < CellCount
    requires GridDrawn(g, colors, order, n)
    ensures GridDrawn(Painted(g, order[n].x + ShiftX, order[n].y + ShiftY, Some(colors[n])), colors, order, n + 1)
  {
    var after := Painted(g, order[n].x + ShiftX, order[n].y + ShiftY, Some(colors[n]));
    forall k | 0 <= k < n + 1
      ensures GridGet(after, order[k]) == Some(colors[k])
    {
      if k < n {
        assert order[k] != order[n];
      }
    }
    forall p | GridGet(after, p).Some?
      ensures exists k :: 0 <= k < n + 1 && order[k] == p
    {
      if p != order[n] {
        assert GridGet(g, p) == GridGet(after, p);
        var k :| 0 <= k < n && order[k] == p;
        assert k < n + 1;
      }
    }
  }

  /** One pass of the constructor's outer loop: colour the six triangles of hexagon h. */
  method DrawHexagon(cells: array2<Option<Color>>, colors: seq<Color>, h: int, ghost order: seq<Pos>)
    requires cells.Length0 == Columns && cells.Length1 == Rows
    requires |colors| == CellCount && OrderFits(order)
    requires 0 <= h < |Hexes|
    requires forall t :: 0 <= t < |Triangles| ==>
      order[h * 6 + t] == Pos(Hexes[h].x + Triangles[t].x, Hexes[h].y + Triangles[t].y)
    requires Drawn(cells, colors, order, h * 6)
    modifies cells
    ensures Drawn(cells, colors, order, h * 6 + 6)
  {
    var t := 0;
    while t < |Triangles|
      invariant t <= |Triangles|
      invariant Drawn(cells, colors, order, h * 6 + t)
    {
      var hex, tri := Hexes[h], Triangles[t];
      DrawCell(cells, colors, order, h * 6 + t, hex.x + tri.x, hex.y + tri.y);
      t := t + 1;
    }
  }

  /** The innermost statement of the constructor: the n-th cell, at (x, y), gets the n-th colour. */
  method DrawCell(cells: array2<Option<Color>>, colors: seq<Color>, ghost order: seq<Pos>, n: int, x: int, y: int)
    requires cells.Length0 == Columns && cells.Length1 == Rows
    requires |colors| == CellCount && OrderFits(order)
    requires 0 <= n < CellCount && order[n] == Pos(x, y)
    requires Drawn(cells, colors, order, n)
    modifies cells
    ensures Drawn(cells, colors, order, n + 1)
  {
    ghost var before := Contents(cells);
    PaintKeepsDrawn(before, colors, order, n);
    cells[x + ShiftX, y + ShiftY] := Some(colors[n]);
    ghost var after := Painted(before, x + ShiftX, y + ShiftY, Some(colors[n]));
    forall i | 0 <= i < Columns
      ensures Contents(cells)[i] == after[i]
    {
      assert forall j :: 0 <= j < Rows ==> Contents(cells)[i][j] == after[i][j];
    }
    assert Contents(cells) == after;
  }

  /**
   * The grid copied out of a 15 x 10 array that holds the k-th colour at
   * the k-th cell, and nothing elsewhere, has the board's shape and holds
   * the same colours.
   */
  lemma CopiedGridIsBoard(cells: array2<Option<Color>>, colors: seq<Color>, g: Grid)
    requires cells.Length0 == Columns && cells.Length1 == Rows
    requires |colors| == CellCount
    requires Drawn(cells, colors, CellOrder(), CellCount)
    requires |g| == Columns && forall i :: 0 <= i < Columns ==> |g[i]| == Rows
    requires forall i, j :: 0 <= i < Columns && 0 <= j < Rows ==> g[i][j] == cells[i, j]
    ensures BoardShaped(g)
    ensures forall k :: 0 <= k < CellCount ==> GridGet(g, CellAt(k)) == Some(colors[k])
  {
    forall i | 0 <= i < Columns
      ensures g[i] == Contents(cells)[i]
    {
      assert forall j :: 0 <= j < Rows ==> g[i][j] == Contents(cells)[i][j];
    }
    assert g == Contents(cells);
    var order := CellOrder();
    forall k | 0 <= k < CellCount
      ensures GridGet(g, CellAt(k)) == Some(colors[k])
    {
      assert order[k] == CellAt(k);
    }
    forall p | OnBoard(g, p)
      ensures IsCell(p)
    {
      var k :| 0 <= k < CellCount && order[k] == p;
      assert CellAt(k) == p;
    }
    DrawnGridIsBoard(g, colors);
  }

  class Board {
    const grid: Grid

    /** The board's invariant: the grid has its 15 x 10 shape and a colour exactly at the cells. */
    ghost predicate Valid() {
      BoardShaped(grid)
    }

    /**
     * Draws the board. colors[k] stands for the k-th call of the random
     * generator, made for hexagon k / 6 and triangle k % 6.
     */
    constructor (colors: seq<Color>)
      requires |colors| == CellCount
      ensures Valid()
      ensures forall k :: 0 <= k < CellCount ==> Get(CellAt(k).x, CellAt(k).y) == Some(colors[k])
    {
      var cells := new Option<Color>[Columns, Rows]((i, j) => None);
      ghost var order := CellOrder();
      CellOrderFits();
      var h := 0;
      while h < |Hexes|
        invariant h <= |Hexes|
        invariant Drawn(cells, colors, order, h * 6)
      {
        HexagonInOrder(h);
        DrawHexagon(cells, colors, h, order);
        h := h + 1;
      }
      assert Drawn(cells, colors, order, CellCount);
      grid := seq(Columns, i requires 0 <= i < Columns reads cells =>
                seq(Rows, j requires 0 <= j < Rows reads cells => cells[i, j]));
      new;
      CopiedGridIsBoard(cells, colors, grid);
    }

    /** The colour at (x, y), or absent when (x, y) is not one of the 114 cells. */
    function Get(x: int, y: int): (c: Option<Color>)
      ensures Valid() ==> (c.Some? <==> IsCell(Pos(x, y)))
    {
      GridGet(grid, Pos(x, y))
    }
  }
}
