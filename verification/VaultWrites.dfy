/** Writing Vault rewards into a grid: what stays as it was, and that ways awards do not notice. */
module VaultWrites {
  import opened Money
  import opened Weights
  import opened GameTypes
  import opened Grids
  import opened Ways
  import opened WaysScaling
  import opened WaysForBet
  import opened ArithmeticBounds
  import opened OutcomeRules
  import opened GridBuffers

  /** Grids that differ at most in what their Vaults show. */
  predicate SameButVaults(a: Grid, b: Grid) {
    && |a| == |b|
    && (forall reel :: 0 <= reel < |a| ==> |a[reel]| == |b[reel]|)
    && (forall reel, row :: 0 <= reel < |a| && 0 <= row < |a[reel]| ==> SameButReward(a[reel][row], b[reel][row]))
  }

  predicate SameButReward(a: Cell, b: Cell) {
    a.symbol == b.symbol && (a.symbol != Vault ==> a == b)
  }

  lemma {:induction false} MatchRowsIgnoreVaults(a: seq<Cell>, b: seq<Cell>, target: Symbol)
    requires |a| == |b| && forall row :: 0 <= row < |a| ==> SameButReward(a[row], b[row])
    ensures MatchRows(a, target) == MatchRows(b, target)
  {
    if a != [] {
      var last := |a| - 1;
      MatchRowsIgnoreVaults(a[..last], b[..last], target);
      assert SameButReward(a[last], b[last]);
    }
  }

  lemma {:induction false} LastPathsIgnoreVaults(a: Grid, b: Grid, base: int, r0: int, r1: int, rows2: seq<int>)
    requires SameButVaults(a, b) && |a| == 3 && 0 <= r1 < |a[1]|
    ensures LastPaths(a, base, r0, r1, rows2) == LastPaths(b, base, r0, r1, rows2)
  {
    if rows2 != [] {
      LastPathsIgnoreVaults(a, b, base, r0, r1, rows2[..|rows2| - 1]);
      assert SameButReward(a[1][r1], b[1][r1]);
    }
  }

  lemma {:induction false} MiddlePathsIgnoreVaults(a: Grid, b: Grid, base: int, r0: int, rows1: seq<int>, rows2: seq<int>)
    requires SameButVaults(a, b) && |a| == 3 && RowsOf(rows1, a[1])
    ensures RowsOf(rows1, b[1]) && MiddlePaths(a, base, r0, rows1, rows2) == MiddlePaths(b, base, r0, rows1, rows2)
  {
    if rows1 != [] {
      var last := |rows1| - 1;
      MiddlePathsIgnoreVaults(a, b, base, r0, rows1[..last], rows2);
      LastPathsIgnoreVaults(a, b, base, r0, rows1[last], rows2);
    }
  }

  lemma {:induction false} PathsIgnoreVaults(a: Grid, b: Grid, base: int, rows0: seq<int>, rows1: seq<int>, rows2: seq<int>)
    requires SameButVaults(a, b) && |a| == 3 && RowsOf(rows1, a[1])
    ensures RowsOf(rows1, b[1]) && PathsThrough(a, base, rows0, rows1, rows2) == PathsThrough(b, base, rows0, rows1, rows2)
  {
    if rows0 != [] {
      var last := |rows0| - 1;
      PathsIgnoreVaults(a, b, base, rows0[..last], rows1, rows2);
      MiddlePathsIgnoreVaults(a, b, base, rows0[last], rows1, rows2);
    }
  }

  lemma SymbolWinIgnoresVaults(a: Grid, b: Grid, base: int, target: Symbol)
    requires SameButVaults(a, b) && |a| == 3
    ensures SymbolWin(a, base, target) == SymbolWin(b, base, target)
  {
    MatchRowsIgnoreVaults(a[0], b[0], target);
    MatchRowsIgnoreVaults(a[1], b[1], target);
    MatchRowsIgnoreVaults(a[2], b[2], target);
    PathsIgnoreVaults(a, b, base, MatchRows(a[0], target), MatchRows(a[1], target), MatchRows(a[2], target));
  }

  lemma {:induction false} WinsOfIgnoreVaults(a: Grid, b: Grid, paytable: map<Symbol, int>, targets: seq<Symbol>)
    requires SameButVaults(a, b) && |a| == 3 && forall s :: s in targets ==> s in paytable
    ensures WinsOf(a, paytable, 1, targets) == WinsOf(b, paytable, 1, targets)
  {
    if targets != [] {
      var last := |targets| - 1;
      WinsOfIgnoreVaults(a, b, paytable, targets[..last]);
      SymbolWinIgnoresVaults(a, b, paytable[targets[last]] * 1, targets[last]);
    }
  }

  /** Vault rewards written into the grid never change the ways awards. */
  lemma WinsIgnoreVaultRewards(a: Grid, b: Grid, paytable: map<Symbol, int>, bet: int, unit: int)
    requires SameButVaults(a, b) && |a| == 3 && PaysAll(paytable) && unit > 0
    ensures WinsForBet(a, paytable, bet, unit) == WinsForBet(b, paytable, bet, unit)
  {
    WinsOfIgnoreVaults(a, b, paytable, PAYING_SYMBOLS);
  }

  /** What resolving Vaults keeps of the grid it started from. */
  predicate Rewarded(before: Grid, after: Grid) {
    GridOk(after) && SameButVaults(before, after) && SameSymbols(before, after)
  }

  lemma CellAfterWrite(grid: Grid, p: Position, cell: Cell, q: Position)
    requires OnGrid(grid, p)
    ensures CellAt(WithCell(grid, p, cell), q) == if p == q then cell else CellAt(grid, q)
  {
  }

  /** One legal reward more. */
  lemma RewardWritten(before: Grid, grid: Grid, p: Position, cell: Cell)
    requires GridOk(before) && Rewarded(before, grid) && p in PositionsFor(before, Vault)
    requires cell.symbol == Vault && CellModifierOk(cell)
    ensures OnGrid(grid, p) && Rewarded(before, WithCell(grid, p, cell))
  {
    PositionsExact(before, Vault);
    VaultsInMiddle(before);
    var after := WithCell(grid, p, cell);
    forall reel, row | 0 <= reel < 3 && 0 <= row < |after[reel]|
      ensures CellOk(after[reel][row], reel) && SameButReward(before[reel][row], after[reel][row])
      ensures before[reel][row].symbol == after[reel][row].symbol
    {
      assert CellOk(grid[reel][row], reel) && SameButReward(before[reel][row], grid[reel][row]);
      assert SameButReward(before[p.reel][p.row], grid[p.reel][p.row]);
    }
  }

  lemma RewardedWilds(before: Grid, after: Grid, wilds: seq<Weighted<int>>)
    requires SameButVaults(before, after) && WildsFrom(before, wilds)
    ensures WildsFrom(after, wilds)
  {
    forall reel, row | 0 <= reel < |after| && 0 <= row < |after[reel]| && after[reel][row].symbol == Wild
      ensures exists i :: 0 <= i < |wilds| && wilds[i].value == after[reel][row].multiplier
    {
      assert SameButReward(before[reel][row], after[reel][row]);
    }
  }
}
