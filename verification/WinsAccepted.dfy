/** Every win the evaluation produces satisfies the validator's rules for wins. */
module WinsAccepted {
  import opened Money
  import opened GameTypes
  import opened Grids
  import opened Ways
  import opened WaysEnumeration
  import opened WaysEvaluation
  import opened WaysScaling
  import opened LargestRemainder
  import opened WaysForBet
  import opened OutcomeRules
  import opened Completeness

  /** A path before scaling, as it lies on the grid. */
  predicate PathOnGrid(symbol: Symbol, path: PathAward, grid: Grid)
    requires GridOk(grid)
  {
    && |path.cells| == 3
    && RawPathOk(path)
    && (forall reel :: 0 <= reel < 3 ==>
          && path.cells[reel].reel == reel && 0 <= path.cells[reel].row < |grid[reel]|
          && Fits(grid[reel][path.cells[reel].row], symbol))
    && path.multiplier == WildFactor(grid[1][path.cells[1].row])
  }

  predicate ListedWin(win: Win, grid: Grid)
    requires GridOk(grid)
  {
    && win.symbol in PAYING_SYMBOLS && RawWinOk(win)
    && win.ways == |win.paths| && DistinctCells(win.paths)
    && (forall k :: 0 <= k < |win.paths| ==> PathOnGrid(win.symbol, win.paths[k], grid))
    && win.cells != [] && PositionsOk(win.cells, |grid[0]|)
    && CellsOf(win.paths) == Members(win.cells)
  }

  lemma IsPathOnGrid(grid: Grid, base: int, symbol: Symbol, path: PathAward)
    requires GridOk(grid) && base >= 1
    requires IsPath(grid, base, path, MatchRows(grid[0], symbol), MatchRows(grid[1], symbol), MatchRows(grid[2], symbol))
    ensures PathOnGrid(symbol, path, grid)
  {
    PathRaw(grid, base, path.cells[0].row, path.cells[1].row, path.cells[2].row);
  }

  lemma MatchCellsOk(rows0: seq<int>, rows1: seq<int>, rows2: seq<int>, height: int)
    requires Distinct(rows0) && Distinct(rows1) && Distinct(rows2)
    requires forall i :: 0 <= i < |rows0| ==> 0 <= rows0[i] < height
    requires forall i :: 0 <= i < |rows1| ==> 0 <= rows1[i] < height
    requires forall i :: 0 <= i < |rows2| ==> 0 <= rows2[i] < height
    ensures PositionsOk(RowCells(0, rows0) + RowCells(1, rows1) + RowCells(2, rows2), height)
  {
    var cells := RowCells(0, rows0) + RowCells(1, rows1) + RowCells(2, rows2);
    var a, b := |rows0|, |rows0| + |rows1|;
    forall i | 0 <= i < |cells|
      ensures cells[i] == if i < a then Position(0, rows0[i]) else if i < b then Position(1, rows1[i - a]) else Position(2, rows2[i - b])
    {
    }
  }

  lemma CellsAreMatches(grid: Grid, base: int, rows0: seq<int>, rows1: seq<int>, rows2: seq<int>)
    requires |grid| == 3 && RowsOf(rows1, grid[1]) && rows0 != [] && rows1 != [] && rows2 != []
    ensures CellsOf(PathsThrough(grid, base, rows0, rows1, rows2)) ==
            Members(RowCells(0, rows0) + RowCells(1, rows1) + RowCells(2, rows2))
  {
    var paths := PathsThrough(grid, base, rows0, rows1, rows2);
    var cells := RowCells(0, rows0) + RowCells(1, rows1) + RowCells(2, rows2);
    forall p
      ensures p in CellsOf(paths) <==> p in cells
    {
      InMatches(rows0, rows1, rows2, p);
      if p in CellsOf(paths) {
        CellsOfOnly(paths, p);
        var k :| 0 <= k < |paths| && p in paths[k].cells;
        PathsAre(grid, base, rows0, rows1, rows2);
        assert IsPath(grid, base, paths[k], rows0, rows1, rows2);
      }
      if 0 <= p.reel < 3 {
        PathsUse(grid, base, rows0, rows1, rows2, p.reel, p.row);
      }
    }
  }

  lemma InMatches(rows0: seq<int>, rows1: seq<int>, rows2: seq<int>, p: Position)
    ensures p in RowCells(0, rows0) + RowCells(1, rows1) + RowCells(2, rows2) <==>
            (0 <= p.reel < 3 && p.row in [rows0, rows1, rows2][p.reel])
  {
    InRow(0, rows0, p);
    InRow(1, rows1, p);
    InRow(2, rows2, p);
  }

  lemma InRow(reel: int, rows: seq<int>, p: Position)
    ensures p in RowCells(reel, rows) <==> p.reel == reel && p.row in rows
  {
    if p.reel == reel && p.row in rows {
      var i :| 0 <= i < |rows| && rows[i] == p.row;
      assert RowCells(reel, rows)[i] == p;
    }
  }

  lemma SymbolWinListed(grid: Grid, base: int, symbol: Symbol)
    requires GridOk(grid) && base >= 1 && symbol in PAYING_SYMBOLS
    ensures var win := SymbolWin(grid, base, symbol); win.Some? ==> ListedWin(win.value, grid)
  {
    var rows0, rows1, rows2 := MatchRows(grid[0], symbol), MatchRows(grid[1], symbol), MatchRows(grid[2], symbol);
    SymbolWinRaw(grid, base, symbol);
    if rows0 != [] && rows1 != [] && rows2 != [] {
      var paths := PathsThrough(grid, base, rows0, rows1, rows2);
      PathsAre(grid, base, rows0, rows1, rows2);
      PathsDistinct(grid, base, rows0, rows1, rows2);
      CellsAreMatches(grid, base, rows0, rows1, rows2);
      MatchCellsOk(rows0, rows1, rows2, |grid[0]|);
      forall k | 0 <= k < |paths|
        ensures PathOnGrid(symbol, paths[k], grid)
      {
        IsPathOnGrid(grid, base, symbol, paths[k]);
      }
    }
  }

  lemma {:induction false} WinsListed(grid: Grid, paytable: map<Symbol, int>, symbols: seq<Symbol>)
    requires GridOk(grid) && forall s :: s in symbols ==> s in PAYING_SYMBOLS && s in paytable && paytable[s] > 0
    ensures forall i :: 0 <= i < |WinsOf(grid, paytable, 1, symbols)| ==> ListedWin(WinsOf(grid, paytable, 1, symbols)[i], grid)
  {
    if symbols != [] {
      var last := |symbols| - 1;
      WinsListed(grid, paytable, symbols[..last]);
      SymbolWinListed(grid, paytable[symbols[last]] * 1, symbols[last]);
    }
  }

  // --- Scaling keeps a listed win legal ---

  /** The base shown for a path never exceeds its amount, and they vanish together. */
  lemma BaseAndAmount(path: PathAward, bet: int, unit: int, amount: int)
    requires RawPathOk(path) && bet > 0 && unit > 0 && path.amount * bet / unit <= amount
    ensures var base := WithBaseOf(path, bet, unit, amount);
            && 0 <= base <= amount && (amount > 0 ==> base > 0) && (path.multiplier == 1 ==> base == amount)
  {
    assert path.amount >= 0 by {
      MulMonotone(0, path.base, path.multiplier);
    }
    MulMonotone(0, path.amount, bet);
    if path.multiplier >= 2 {
      BaseWithinAmount(path, bet, unit, amount);
    }
  }

  function WithBaseOf(path: PathAward, bet: int, unit: int, amount: int): int
    requires unit > 0
  {
    if path.multiplier == 1 then amount else if amount == 0 then 0 else Rounded(path.base, bet, unit)
  }

  lemma ScaledPathOk(win: Win, grid: Grid, k: nat, aggregate: int, bet: int, unit: int)
    requires GridOk(grid) && k < |win.paths| && PathOnGrid(win.symbol, win.paths[k], grid) && bet > 0 && unit > 0
    ensures PathOk(win.symbol, ScaledPath(win.paths, k, aggregate, bet, unit), grid)
    ensures ScaledPath(win.paths, k, aggregate, bet, unit).cells == win.paths[k].cells
    ensures ScaledPath(win.paths, k, aggregate, bet, unit).paid == ScaledPath(win.paths, k, aggregate, bet, unit).amount
  {
    var amount := ScaledAmount(win.paths, k, aggregate, bet, unit);
    BaseAndAmount(win.paths[k], bet, unit, amount);
  }

  lemma {:induction false} ScaledCells(paths: seq<PathAward>, scaled: seq<PathAward>, n: nat)
    requires n <= |paths| == |scaled| && forall k :: 0 <= k < |paths| ==> scaled[k].cells == paths[k].cells
    ensures CellsOf(scaled[..n]) == CellsOf(paths[..n])
  {
    if n > 0 {
      ScaledCells(paths, scaled, n - 1);
      assert scaled[..n][..n - 1] == scaled[..n - 1] && paths[..n][..n - 1] == paths[..n - 1];
    } else {
      assert scaled[..0] == [] && paths[..0] == [];
    }
  }

  lemma {:induction false} PaidIsAmount(paths: seq<PathAward>)
    requires forall k :: 0 <= k < |paths| ==> paths[k].paid == paths[k].amount
    ensures PaidSum(paths) == AmountSum(paths)
  {
    if paths != [] {
      PaidIsAmount(paths[..|paths| - 1]);
    }
  }

  lemma ScaledPathsOk(win: Win, grid: Grid, aggregate: int, bet: int, unit: int)
    requires GridOk(grid) && bet > 0 && unit > 0 && DistinctCells(win.paths)
    requires forall k :: 0 <= k < |win.paths| ==> PathOnGrid(win.symbol, win.paths[k], grid)
    ensures var paths := ScaledPaths(win.paths, aggregate, bet, unit);
            && (forall k :: 0 <= k < |paths| ==> PathOk(win.symbol, paths[k], grid))
            && (forall k :: 0 <= k < |paths| ==> paths[k].paid == paths[k].amount)
            && DistinctCells(paths) && CellsOf(paths) == CellsOf(win.paths)
  {
    var paths := ScaledPaths(win.paths, aggregate, bet, unit);
    forall k | 0 <= k < |paths|
      ensures PathOk(win.symbol, paths[k], grid) && paths[k].paid == paths[k].amount && paths[k].cells == win.paths[k].cells
    {
      ScaledPathOk(win, grid, k, aggregate, bet, unit);
    }
    ScaledCells(win.paths, paths, |paths|);
    assert paths[..|paths|] == paths && win.paths[..|paths|] == win.paths;
  }

  lemma ScaledWinOk(win: Win, grid: Grid, bet: int, unit: int)
    requires GridOk(grid) && ListedWin(win, grid) && bet > 0 && unit > 0
    requires Rounded(win.amount, bet, unit) <= MAX_INT64
    ensures NominalWinOk(ScaledWin(win, bet, unit), grid)
  {
    WinShareable(win, bet, unit);
    ScaledPathsOk(win, grid, Rounded(win.amount, bet, unit), bet, unit);
    PaidIsAmount(ScaledWin(win, bet, unit).paths);
  }

  /** The wins of a grid at a bet are legal, paths, cells and amounts. */
  lemma OneAmountFits(wins: seq<Win>, i: nat)
    requires i < |wins| && forall j :: 0 <= j < |wins| ==> wins[j].amount >= 0
    ensures wins[i].amount <= WinSum(wins)
  {
    WinSumPrefix(wins, i);
    WinSumPrefix(wins, i + 1);
    assert wins[..i + 1][..i] == wins[..i];
  }

  lemma WinsForBetOk(grid: Grid, paytable: map<Symbol, int>, bet: int, unit: int)
    requires GridOk(grid) && PaysAll(paytable) && bet > 0 && unit > 0 && WaysFit(grid, paytable, bet, unit)
    ensures forall i :: 0 <= i < |WinsForBet(grid, paytable, bet, unit)| ==>
              NominalWinOk(WinsForBet(grid, paytable, bet, unit)[i], grid)
  {
    var raw := WinsOf(grid, paytable, 1, PAYING_SYMBOLS);
    var wins := WinsForBet(grid, paytable, bet, unit);
    WinsListed(grid, paytable, PAYING_SYMBOLS);
    ScaledNonNegative(raw, bet, unit);
    forall i | 0 <= i < |wins|
      ensures NominalWinOk(wins[i], grid)
    {
      OneAmountFits(wins, i);
      ScaledWinOk(raw[i], grid, bet, unit);
    }
  }
}
