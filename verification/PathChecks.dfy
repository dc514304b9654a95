/** The validator's loops over positions, paths and wins. */
module PathChecks {
  import opened Money
  import opened GameTypes
  import opened Grids
  import opened Ways
  import opened WaysEnumeration
  import opened WaysEvaluation
  import opened OutcomeRules

  /** Positions on the grid, none listed twice. */
  method CheckPositions(positions: seq<Position>, rows: int) returns (ok: bool)
    ensures ok == PositionsOk(positions, rows)
  {
    var seen: set<Position> := {};
    for n := 0 to |positions|
      invariant PositionsOk(positions[..n], rows)
      invariant forall p :: p in seen <==> p in positions[..n]
    {
      var p := positions[n];
      if p.reel < 0 || p.reel >= 3 || p.row < 0 || p.row >= rows || p in seen {
        return false;
      }
      assert positions[..n + 1] == positions[..n] + [p];
      seen := seen + {p};
    }
    assert positions[..|positions|] == positions;
    return true;
  }

  predicate PathAmountsOk(path: PathAward) {
    && |path.cells| == 3
    && 1 <= path.multiplier && 0 <= path.base <= path.amount && 0 <= path.paid <= path.amount
    && (path.amount > 0 ==> path.base != 0)
    && (path.multiplier == 1 ==> path.base == path.amount)
  }

  /** One cell of every reel, in order, each fitting the symbol, and the product of their Wilds. */
  method CheckPath(symbol: Symbol, path: PathAward, grid: Grid) returns (ok: bool)
    requires GridOk(grid)
    ensures ok == PathOk(symbol, path, grid)
  {
    if !PathAmountsOk(path) {
      return false;
    }
    var factor := 1;
    for reel := 0 to 3
      invariant forall k :: 0 <= k < reel ==>
                  path.cells[k].reel == k && 0 <= path.cells[k].row < |grid[k]| && Fits(grid[k][path.cells[k].row], symbol)
      invariant factor == if reel <= 1 then 1 else WildFactor(grid[1][path.cells[1].row])
    {
      var p := path.cells[reel];
      if p.reel != reel || p.row < 0 || p.row >= |grid[reel]| || !Fits(grid[reel][p.row], symbol) {
        return false;
      }
      FactorsPositive(grid, reel, p.row);
      var product := SafeMul(factor, WildFactor(grid[reel][p.row]));
      if product.Err? {
        return false;
      }
      factor := product.value;
    }
    return path.multiplier == factor;
  }

  /** The rows a path passes, which say which path it is. */
  function RowsOfPath(path: PathAward): seq<int> {
    seq(|path.cells|, i requires 0 <= i < |path.cells| => path.cells[i].row)
  }

  lemma RowsNamePaths(symbol: Symbol, a: PathAward, b: PathAward, grid: Grid)
    requires GridOk(grid) && PathOk(symbol, a, grid) && PathOk(symbol, b, grid)
    ensures RowsOfPath(a) == RowsOfPath(b) <==> a.cells == b.cells
  {
    if RowsOfPath(a) == RowsOfPath(b) {
      forall i | 0 <= i < 3
        ensures a.cells[i] == b.cells[i]
      {
        assert RowsOfPath(a)[i] == RowsOfPath(b)[i];
      }
    }
  }

  predicate PathsOk(symbol: Symbol, paths: seq<PathAward>, grid: Grid)
    requires GridOk(grid)
  {
    forall k :: 0 <= k < |paths| ==> PathOk(symbol, paths[k], grid)
  }

  lemma {:induction false} SumsGrow(symbol: Symbol, paths: seq<PathAward>, grid: Grid, n: nat)
    requires GridOk(grid) && PathsOk(symbol, paths, grid) && n <= |paths|
    ensures 0 <= PaidSum(paths[..n]) <= AmountSum(paths[..n]) <= AmountSum(paths)
    decreases |paths|
  {
    if n < |paths| {
      var shorter := paths[..|paths| - 1];
      assert shorter[..n] == paths[..n];
      SumsGrow(symbol, shorter, grid, n);
    } else if n > 0 {
      var shorter := paths[..n - 1];
      assert shorter[..n - 1] == shorter && paths[..n] == paths;
      SumsGrow(symbol, shorter, grid, n - 1);
    } else {
      assert paths[..n] == paths;
    }
  }

  /** The row triples of the first n paths. */
  predicate RowsSeen(paths: seq<PathAward>, n: nat, seen: set<seq<int>>)
    requires n <= |paths|
  {
    && (forall k :: 0 <= k < n ==> RowsOfPath(paths[k]) in seen)
    && (forall rows :: rows in seen ==> exists k :: 0 <= k < n && RowsOfPath(paths[k]) == rows)
  }

  /** What the first n paths have added up to. */
  predicate PathsTo(symbol: Symbol, paths: seq<PathAward>, grid: Grid, n: nat, seen: set<seq<int>>, cells: set<Position>,
                    total: int, paid: int)
    requires GridOk(grid) && n <= |paths|
  {
    && PathsOk(symbol, paths[..n], grid) && DistinctCells(paths[..n]) && RowsSeen(paths, n, seen)
    && cells == CellsOf(paths[..n])
    && total == AmountSum(paths[..n]) <= MAX_INT64 && paid == PaidSum(paths[..n])
  }

  lemma NextRows(paths: seq<PathAward>, n: nat, seen: set<seq<int>>)
    requires n < |paths| && RowsSeen(paths, n, seen)
    ensures RowsSeen(paths, n + 1, seen + {RowsOfPath(paths[n])})
  {
    forall rows | rows in seen + {RowsOfPath(paths[n])}
      ensures exists k :: 0 <= k < n + 1 && RowsOfPath(paths[k]) == rows
    {
      if rows == RowsOfPath(paths[n]) {
        assert RowsOfPath(paths[n]) == rows;
      }
    }
  }

  /** A path is new exactly when its rows are. */
  lemma NewRows(symbol: Symbol, paths: seq<PathAward>, grid: Grid, n: nat, seen: set<seq<int>>)
    requires GridOk(grid) && n < |paths| && PathsOk(symbol, paths[..n], grid) && PathOk(symbol, paths[n], grid)
    requires DistinctCells(paths[..n]) && RowsSeen(paths, n, seen)
    ensures RowsOfPath(paths[n]) in seen ==> !DistinctCells(paths)
    ensures RowsOfPath(paths[n]) !in seen ==> DistinctCells(paths[..n + 1])
  {
    forall k | 0 <= k < n
      ensures RowsOfPath(paths[k]) == RowsOfPath(paths[n]) <==> paths[k].cells == paths[n].cells
    {
      assert paths[..n][k] == paths[k];
      RowsNamePaths(symbol, paths[k], paths[n], grid);
    }
    if RowsOfPath(paths[n]) !in seen {
      var next := paths[..n + 1];
      forall i, j | 0 <= i < j < |next|
        ensures next[i].cells != next[j].cells
      {
        if j < n {
          assert paths[..n][i] == next[i] && paths[..n][j] == next[j];
        }
      }
    }
  }

  lemma SumsOfMore(paths: seq<PathAward>, longer: seq<PathAward>, path: PathAward)
    requires longer == paths + [path]
    ensures AmountSum(longer) == AmountSum(paths) + path.amount && PaidSum(longer) == PaidSum(paths) + path.paid
    ensures CellsOf(longer) == CellsOf(paths) + Members(path.cells)
  {
    assert longer[..|longer| - 1] == paths;
  }

  lemma MorePathsOk(symbol: Symbol, paths: seq<PathAward>, grid: Grid, n: nat)
    requires GridOk(grid) && n < |paths| && PathsOk(symbol, paths[..n], grid) && PathOk(symbol, paths[n], grid)
    ensures PathsOk(symbol, paths[..n + 1], grid)
  {
    var longer := paths[..n + 1];
    forall k | 0 <= k < |longer|
      ensures PathOk(symbol, longer[k], grid)
    {
      assert k < n ==> paths[..n][k] == longer[k];
    }
  }

  lemma OneMore<T>(s: seq<T>, n: nat)
    requires n < |s|
    ensures s[..n + 1] == s[..n] + [s[n]]
  {
  }

  lemma TotalsBounded(symbol: Symbol, paths: seq<PathAward>, grid: Grid)
    requires GridOk(grid) && PathsOk(symbol, paths, grid)
    ensures 0 <= PaidSum(paths) <= AmountSum(paths)
  {
    assert paths[..|paths|] == paths;
    SumsGrow(symbol, paths, grid, |paths|);
  }

  /** Why the next path is refused, or how far the totals may still go. */
  lemma NextPath(symbol: Symbol, paths: seq<PathAward>, grid: Grid, n: nat, seen: set<seq<int>>, cells: set<Position>,
                 total: int, paid: int)
    requires GridOk(grid) && n < |paths| && PathsTo(symbol, paths, grid, n, seen, cells, total, paid)
    requires PathOk(symbol, paths[n], grid)
    ensures RowsOfPath(paths[n]) in seen ==> !DistinctCells(paths)
    ensures 0 <= paid <= total && (PathsOk(symbol, paths, grid) ==> total + paths[n].amount <= AmountSum(paths))
  {
    NewRows(symbol, paths, grid, n, seen);
    OneMore(paths, n);
    SumsOfMore(paths[..n], paths[..n + 1], paths[n]);
    TotalsBounded(symbol, paths[..n], grid);
    if PathsOk(symbol, paths, grid) {
      SumsGrow(symbol, paths, grid, n + 1);
    }
  }

  lemma PathsOnwards(symbol: Symbol, paths: seq<PathAward>, grid: Grid, n: nat, seen: set<seq<int>>, cells: set<Position>,
                     total: int, paid: int, path: PathAward)
    requires GridOk(grid) && n < |paths| && path == paths[n] && PathOk(symbol, path, grid)
    requires PathsTo(symbol, paths, grid, n, seen, cells, total, paid)
    requires RowsOfPath(path) !in seen && total + path.amount <= MAX_INT64
    ensures PathsTo(symbol, paths, grid, n + 1, seen + {RowsOfPath(path)}, cells + Members(path.cells),
                    total + path.amount, paid + path.paid)
  {
    NewRows(symbol, paths, grid, n, seen);
    NextRows(paths, n, seen);
    OneMore(paths, n);
    SumsOfMore(paths[..n], paths[..n + 1], path);
    MorePathsOk(symbol, paths, grid, n);
  }

  /** Every path checked, and their amounts and cells accumulated against the win. */
  method CheckPathAwards(win: Win, grid: Grid) returns (ok: bool)
    requires GridOk(grid)
    ensures ok == PathAwardsOk(win, grid)
  {
    var paths := win.paths;
    if |paths| != win.ways {
      return false;
    }
    var aggregate: set<Position> := {};
    for i := 0 to |win.cells|
      invariant aggregate == Members(win.cells[..i])
    {
      assert win.cells[..i + 1] == win.cells[..i] + [win.cells[i]];
      aggregate := aggregate + {win.cells[i]};
    }
    assert win.cells[..|win.cells|] == win.cells;
    var seen: set<seq<int>>, cells: set<Position>, total, paid := {}, {}, 0, 0;
    for n := 0 to |paths|
      invariant PathsTo(win.symbol, paths, grid, n, seen, cells, total, paid)
    {
      var legal := CheckPath(win.symbol, paths[n], grid);
      if !legal {
        return false;
      }
      NextPath(win.symbol, paths, grid, n, seen, cells, total, paid);
      if RowsOfPath(paths[n]) in seen {
        return false;
      }
      var amounts, payments := SafeAdd(total, paths[n].amount), SafeAdd(paid, paths[n].paid);
      if amounts.Err? || payments.Err? {
        return false;
      }
      PathsOnwards(win.symbol, paths, grid, n, seen, cells, total, paid, paths[n]);
      seen, cells := seen + {RowsOfPath(paths[n])}, cells + Members(paths[n].cells);
      total, paid := amounts.value, payments.value;
    }
    assert paths[..|paths|] == paths;
    return total == win.amount && paid == win.paid && cells == aggregate;
  }

  method CheckWin(win: Win, grid: Grid) returns (ok: bool)
    requires GridOk(grid)
    ensures ok == WinOk(win, grid)
  {
    if win.symbol !in PAYING_SYMBOLS || win.ways < 1 || win.amount <= 0 || win.paid < 0 || win.paid > win.amount || win.cells == [] {
      return false;
    }
    ok := CheckPositions(win.cells, |grid[0]|);
    if ok {
      ok := CheckPathAwards(win, grid);
    }
  }
}
