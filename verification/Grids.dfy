/** Which grids and cell modifiers are legal, and where a symbol lies on a grid. */
module Grids {
  import opened GameTypes

  predicate IsWheelMultiplier(m: int) {
    m == 10 || m == 30 || m == 75 || m == 250 || m == 1000
  }

  predicate IsWildMultiplier(m: int) {
    m == 0 || m == 1 || m == 2 || m == 3 || m == 5 || m == 10 || m == 25 || m == 50 || m == 100
  }

  predicate IsBaseVaultMultiplier(m: int) {
    1 <= m <= 10 || IsWheelMultiplier(m)
  }

  predicate IsKingVaultMultiplier(m: int) {
    IsBaseVaultMultiplier(m) || m == 20 || m == 60 || m == 150 || m == 500
  }

  predicate IsBaseJackpot(m: int) {
    m == 10 || m == 30 || m == 75 || m == 250
  }

  /** The prize naming a Vault multiplier; doubled jackpots have names only during King Spin. */
  function VaultPrize(m: int, king: bool): Prize {
    if king && m == 20 then Mini2X
    else if king && m == 60 then Minor2X
    else if king && m == 150 then Major2X
    else if king && m == 500 then Mega2X
    else if 1 <= m <= 9 then Times(m)
    else if m == 10 then Mini
    else if m == 30 then Minor
    else if m == 75 then Major
    else if m == 250 then Mega
    else if m == 1000 then Grand
    else NoPrize
  }

  predicate NamesVaultMultiplier(m: int, prize: Prize) {
    || (IsBaseVaultMultiplier(m) && prize == VaultPrize(m, false))
    || (IsKingVaultMultiplier(m) && prize == VaultPrize(m, true))
  }

  predicate CellModifierOk(cell: Cell) {
    match cell.symbol
    case Wild => IsWildMultiplier(cell.multiplier) && cell.prize == NoPrize
    case Vault =>
      if cell.prize == NoPrize || cell.prize == FreeSpinPrize then cell.multiplier == 0
      else cell.multiplier > 0 && NamesVaultMultiplier(cell.multiplier, cell.prize)
    case _ => cell.multiplier == 0 && cell.prize == NoPrize
  }

  predicate CellOk(cell: Cell, reel: int) {
    && IsKnown(cell.symbol)
    && (reel != 1 ==> cell.symbol != Wild && cell.symbol != Vault)
    && CellModifierOk(cell)
  }

  /** Three reels of one height in [3,8], Wild and Vault only in the middle, every modifier legal. */
  predicate GridOk(grid: Grid) {
    && |grid| == 3
    && 3 <= |grid[0]| <= 8
    && (forall reel :: 0 <= reel < 3 ==> |grid[reel]| == |grid[0]|)
    && (forall reel, row :: 0 <= reel < 3 && 0 <= row < |grid[reel]| ==> CellOk(grid[reel][row], reel))
  }

  /** The cell-by-cell grid check shared by the evaluator and the outcome validator. */
  method CheckGrid(grid: Grid) returns (ok: bool)
    ensures ok <==> GridOk(grid)
  {
    if |grid| != 3 || |grid[0]| < 3 || |grid[0]| > 8 {
      return false;
    }
    for reel := 0 to 3
      invariant forall q :: 0 <= q < reel ==> |grid[q]| == |grid[0]|
      invariant forall q, row :: 0 <= q < reel && 0 <= row < |grid[q]| ==> CellOk(grid[q][row], q)
    {
      if |grid[reel]| != |grid[0]| {
        return false;
      }
      for row := 0 to |grid[reel]|
        invariant forall i :: 0 <= i < row ==> CellOk(grid[reel][i], reel)
      {
        if !CellOk(grid[reel][row], reel) {
          return false;
        }
      }
    }
    return true;
  }

  /** Where a symbol lies on one reel, from the top. */
  function ColumnPositions(cells: seq<Cell>, reel: int, symbol: Symbol): seq<Position> {
    if cells == [] then []
    else
      var last := |cells| - 1;
      ColumnPositions(cells[..last], reel, symbol) +
      if cells[last].symbol == symbol then [Position(reel, last)] else []
  }

  /** Where a symbol lies on the grid, reel by reel. */
  function PositionsFor(grid: Grid, symbol: Symbol): seq<Position> {
    if grid == [] then []
    else
      var last := |grid| - 1;
      PositionsFor(grid[..last], symbol) + ColumnPositions(grid[last], last, symbol)
  }

  predicate Distinct<T(==)>(s: seq<T>) {
    forall i, j :: 0 <= i < j < |s| ==> s[i] != s[j]
  }

  predicate OnGrid(grid: Grid, p: Position) {
    0 <= p.reel < |grid| && 0 <= p.row < |grid[p.reel]|
  }

  lemma {:induction false} ColumnPositionsExact(cells: seq<Cell>, reel: int, symbol: Symbol)
    ensures forall p :: p in ColumnPositions(cells, reel, symbol) <==>
              p.reel == reel && 0 <= p.row < |cells| && cells[p.row].symbol == symbol
    ensures Distinct(ColumnPositions(cells, reel, symbol))
    ensures |ColumnPositions(cells, reel, symbol)| <= |cells|
  {
    if cells != [] {
      ColumnPositionsExact(cells[..|cells| - 1], reel, symbol);
    }
  }

  /** The positions of a symbol are exactly its cells, each listed once. */
  lemma {:induction false} PositionsExact(grid: Grid, symbol: Symbol)
    ensures forall p :: p in PositionsFor(grid, symbol) <==>
              OnGrid(grid, p) && grid[p.reel][p.row].symbol == symbol
    ensures Distinct(PositionsFor(grid, symbol))
  {
    if grid != [] {
      var last := |grid| - 1;
      PositionsExact(grid[..last], symbol);
      ColumnPositionsExact(grid[last], last, symbol);
      assert forall p :: OnGrid(grid[..last], p) <==> OnGrid(grid, p) && p.reel < last;
    }
  }

  /** The grid loop behind PositionsFor. */
  method PositionsOf(grid: Grid, symbol: Symbol) returns (positions: seq<Position>)
    ensures positions == PositionsFor(grid, symbol)
  {
    positions := [];
    for reel := 0 to |grid|
      invariant positions == PositionsFor(grid[..reel], symbol)
    {
      var cells := grid[reel];
      assert grid[..reel + 1][..reel] == grid[..reel];
      for row := 0 to |cells|
        invariant positions == PositionsFor(grid[..reel], symbol) + ColumnPositions(cells[..row], reel, symbol)
      {
        assert cells[..row + 1][..row] == cells[..row];
        if cells[row].symbol == symbol {
          positions := positions + [Position(reel, row)];
        }
      }
      assert cells[..|cells|] == cells;
    }
    assert grid[..|grid|] == grid;
  }

  predicate SameSymbols(a: Grid, b: Grid) {
    && |a| == |b|
    && (forall reel :: 0 <= reel < |a| ==> |a[reel]| == |b[reel]|)
    && (forall reel, row :: 0 <= reel < |a| && 0 <= row < |a[reel]| ==> a[reel][row].symbol == b[reel][row].symbol)
  }

  lemma {:induction false} ColumnPositionsOfSymbols(a: seq<Cell>, b: seq<Cell>, reel: int, symbol: Symbol)
    requires |a| == |b| && forall row :: 0 <= row < |a| ==> a[row].symbol == b[row].symbol
    ensures ColumnPositions(a, reel, symbol) == ColumnPositions(b, reel, symbol)
  {
    if a != [] {
      ColumnPositionsOfSymbols(a[..|a| - 1], b[..|b| - 1], reel, symbol);
    }
  }

  lemma {:induction false} PositionsOfSymbols(a: Grid, b: Grid, symbol: Symbol)
    requires SameSymbols(a, b)
    ensures PositionsFor(a, symbol) == PositionsFor(b, symbol)
  {
    if a != [] {
      var last := |a| - 1;
      PositionsOfSymbols(a[..last], b[..last], symbol);
      ColumnPositionsOfSymbols(a[last], b[last], last, symbol);
    }
  }

  lemma {:induction false} ColumnPositionsNone(cells: seq<Cell>, reel: int, symbol: Symbol)
    requires forall row :: 0 <= row < |cells| ==> cells[row].symbol != symbol
    ensures ColumnPositions(cells, reel, symbol) == []
  {
    if cells != [] {
      ColumnPositionsNone(cells[..|cells| - 1], reel, symbol);
    }
  }

  /** On a legal grid every Vault lies on the middle reel, so there are at most eight. */
  lemma VaultsInMiddle(grid: Grid)
    requires GridOk(grid)
    ensures PositionsFor(grid, Vault) == ColumnPositions(grid[1], 1, Vault)
    ensures |PositionsFor(grid, Vault)| <= 8
    ensures forall p :: p in PositionsFor(grid, Vault) ==> p.reel == 1 && 0 <= p.row < |grid[1]|
  {
    assert forall row :: 0 <= row < |grid[0]| ==> CellOk(grid[0][row], 0);
    assert forall row :: 0 <= row < |grid[2]| ==> CellOk(grid[2][row], 2);
    ColumnPositionsNone(grid[0], 0, Vault);
    ColumnPositionsNone(grid[2], 2, Vault);
    ColumnPositionsExact(grid[1], 1, Vault);
    assert PositionsFor(grid[..1], Vault) == [] by {
      assert grid[..1][..0] == [];
    }
    assert PositionsFor(grid[..2], Vault) == ColumnPositions(grid[1], 1, Vault) by {
      assert grid[..2][..1] == grid[..1] && grid[..2][1] == grid[1];
    }
  }
}
