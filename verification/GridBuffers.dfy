/** The grid a spin draws into, cell by cell, and its value. */
module GridBuffers {
  import opened GameTypes
  import opened Grids

  function Column(a: array2<Cell>, reel: nat): (cells: seq<Cell>)
    requires reel < a.Length0
    reads a
    ensures |cells| == a.Length1
    ensures forall row :: 0 <= row < a.Length1 ==> cells[row] == a[reel, row]
  {
    seq(a.Length1, row requires 0 <= row < a.Length1 reads a => a[reel, row])
  }

  /** The value of a three-reel buffer. */
  function GridOf(a: array2<Cell>): (grid: Grid)
    requires a.Length0 == 3
    reads a
    ensures |grid| == 3
    ensures forall reel :: 0 <= reel < 3 ==> |grid[reel]| == a.Length1
  {
    [Column(a, 0), Column(a, 1), Column(a, 2)]
  }

  /** A grid with one cell replaced. */
  function WithCell(grid: Grid, p: Position, cell: Cell): Grid
    requires OnGrid(grid, p)
  {
    grid[p.reel := grid[p.reel][p.row := cell]]
  }

  method WriteCell(a: array2<Cell>, p: Position, cell: Cell)
    requires a.Length0 == 3 && OnGrid(GridOf(a), p)
    modifies a
    ensures GridOf(a) == WithCell(old(GridOf(a)), p, cell)
  {
    ghost var before := GridOf(a);
    a[p.reel, p.row] := cell;
    ghost var after := WithCell(before, p, cell);
    forall reel | 0 <= reel < 3
      ensures GridOf(a)[reel] == after[reel]
    {
      assert forall row :: 0 <= row < a.Length1 && (reel != p.reel || row != p.row) ==> a[reel, row] == before[reel][row];
      assert forall row :: 0 <= row < a.Length1 ==> Column(a, reel)[row] == after[reel][row];
    }
  }
}
