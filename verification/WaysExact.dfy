/** What a Ways win is, said without the loops that build it. */
module WaysExact {
  import opened Money
  import opened GameTypes
  import opened Grids
  import opened Ways
  import opened WaysEnumeration
  import opened WaysMeaning
  import opened WaysEvaluation
  import opened WinsAccepted

  /** A symbol wins exactly when every reel shows it or a Wild. Its win lists every such triple once, pays the base award times
      the matches of the outer reels times the Wild multipliers of the middle one, and shows each cell that a path passes, once. */
  lemma SymbolWinExact(grid: Grid, base: int, target: Symbol)
    requires GridOk(grid)
    ensures match SymbolWin(grid, base, target)
            case None => !OnEveryReel(grid, target)
            case Some(win) =>
              && OnEveryReel(grid, target) && WinPays(grid, base, target, win)
              && Members(win.cells) == CellsOf(win.paths) && Distinct(win.cells)
  {
    SymbolWinPays(grid, base, target);
    ReelsHaveTriple(grid, target);
    WinShowsCells(grid, base, target);
  }

  lemma WinShowsCells(grid: Grid, base: int, target: Symbol)
    requires GridOk(grid)
    ensures var win := SymbolWin(grid, base, target);
            win.Some? ==> Members(win.value.cells) == CellsOf(win.value.paths) && Distinct(win.value.cells)
  {
    var rows0, rows1, rows2 := MatchRows(grid[0], target), MatchRows(grid[1], target), MatchRows(grid[2], target);
    if rows0 != [] && rows1 != [] && rows2 != [] {
      CellsAreMatches(grid, base, rows0, rows1, rows2);
      MatchCellsOk(rows0, rows1, rows2, |grid[0]|);
    }
  }
}
