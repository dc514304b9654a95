/** Three-reel ways: every concrete path of a paying symbol, and what it awards. */
module Ways {
  import opened Money
  import opened GameTypes
  import opened Grids

  predicate Fits(cell: Cell, target: Symbol) {
    cell.symbol == target || cell.symbol == Wild
  }

  /** A Wild multiplies the paths through it; the plain Wild (value zero) counts once. */
  function WildFactor(cell: Cell): int {
    if cell.symbol != Wild then 1
    else if cell.multiplier == 0 then 1
    else cell.multiplier
  }

  /** The rows of one reel that a target symbol can use, from the top. */
  function MatchRows(cells: seq<Cell>, target: Symbol): (rows: seq<int>)
    ensures forall i :: 0 <= i < |rows| ==> 0 <= rows[i] < |cells| && Fits(cells[rows[i]], target)
    ensures forall i, j :: 0 <= i < j < |rows| ==> rows[i] < rows[j]
    ensures |rows| <= |cells|
  {
    if cells == [] then []
    else
      var last := |cells| - 1;
      var before := MatchRows(cells[..last], target);
      if Fits(cells[last], target) then before + [last] else before
  }

  lemma {:induction false} MatchRowsComplete(cells: seq<Cell>, target: Symbol, row: int)
    requires 0 <= row < |cells| && Fits(cells[row], target)
    ensures row in MatchRows(cells, target)
  {
    var last := |cells| - 1;
    if row < last {
      MatchRowsComplete(cells[..last], target, row);
    }
  }

  predicate RowsOf(rows: seq<int>, cells: seq<Cell>) {
    forall i :: 0 <= i < |rows| ==> 0 <= rows[i] < |cells|
  }

  /** One path through rows r0, r1 and r2, paying base times the Wild on its middle cell. */
  function PathThrough(grid: Grid, base: int, r0: int, r1: int, r2: int): PathAward
    requires |grid| == 3 && 0 <= r1 < |grid[1]|
  {
    var factor := WildFactor(grid[1][r1]);
    PathAward([Position(0, r0), Position(1, r1), Position(2, r2)],
              factor, base, base * factor, base * factor)
  }

  function LastPaths(grid: Grid, base: int, r0: int, r1: int, rows2: seq<int>): seq<PathAward>
    requires |grid| == 3 && 0 <= r1 < |grid[1]|
  {
    if rows2 == [] then []
    else
      var last := |rows2| - 1;
      LastPaths(grid, base, r0, r1, rows2[..last]) + [PathThrough(grid, base, r0, r1, rows2[last])]
  }

  function MiddlePaths(grid: Grid, base: int, r0: int, rows1: seq<int>, rows2: seq<int>): seq<PathAward>
    requires |grid| == 3 && RowsOf(rows1, grid[1])
  {
    if rows1 == [] then []
    else
      var last := |rows1| - 1;
      MiddlePaths(grid, base, r0, rows1[..last], rows2) + LastPaths(grid, base, r0, rows1[last], rows2)
  }

  /** Every path through one row of each list, first reel slowest. */
  function PathsThrough(grid: Grid, base: int, rows0: seq<int>, rows1: seq<int>, rows2: seq<int>): seq<PathAward>
    requires |grid| == 3 && RowsOf(rows1, grid[1])
  {
    if rows0 == [] then []
    else
      var last := |rows0| - 1;
      PathsThrough(grid, base, rows0[..last], rows1, rows2) + MiddlePaths(grid, base, rows0[last], rows1, rows2)
  }

  function RowCells(reel: int, rows: seq<int>): (cells: seq<Position>)
    ensures |cells| == |rows|
    ensures forall i :: 0 <= i < |rows| ==> cells[i] == Position(reel, rows[i])
  {
    seq(|rows|, i requires 0 <= i < |rows| => Position(reel, rows[i]))
  }

  function AmountSum(paths: seq<PathAward>): int {
    if paths == [] then 0 else AmountSum(paths[..|paths| - 1]) + paths[|paths| - 1].amount
  }

  function PaidSum(paths: seq<PathAward>): int {
    if paths == [] then 0 else PaidSum(paths[..|paths| - 1]) + paths[|paths| - 1].paid
  }

  /** The win of one paying symbol, if each reel has a matching cell. */
  function SymbolWin(grid: Grid, base: int, target: Symbol): Option<Win>
    requires |grid| == 3
  {
    var rows0, rows1, rows2 := MatchRows(grid[0], target), MatchRows(grid[1], target), MatchRows(grid[2], target);
    if rows0 == [] || rows1 == [] || rows2 == [] then None
    else
      var paths := PathsThrough(grid, base, rows0, rows1, rows2);
      var amount := AmountSum(paths);
      Some(Win(ThreeOf(target), target, |paths|, amount, amount,
               RowCells(0, rows0) + RowCells(1, rows1) + RowCells(2, rows2), paths))
  }

  predicate PaysAll(paytable: map<Symbol, int>) {
    forall s :: s in PAYING_SYMBOLS ==> s in paytable && paytable[s] > 0
  }

  /** The wins of a list of symbols, in its order. */
  function WinsOf(grid: Grid, paytable: map<Symbol, int>, unit: int, targets: seq<Symbol>): seq<Win>
    requires |grid| == 3
    requires forall s :: s in targets ==> s in paytable
  {
    if targets == [] then []
    else
      var last := |targets| - 1;
      var win := SymbolWin(grid, paytable[targets[last]] * unit, targets[last]);
      WinsOf(grid, paytable, unit, targets[..last]) + if win.Some? then [win.value] else []
  }

  function WinSum(wins: seq<Win>): int {
    if wins == [] then 0 else WinSum(wins[..|wins| - 1]) + wins[|wins| - 1].amount
  }
}
