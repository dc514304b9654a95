/** The nested loops that enumerate ways, with checked arithmetic. */
module WaysEvaluation {
  import opened Money
  import opened GameTypes
  import opened Grids
  import opened Ways
  import opened WaysEnumeration
  import opened WaysMeaning

  /** The cells that a list of paths goes through. */
  function CellsOf(paths: seq<PathAward>): set<Position> {
    if paths == [] then {}
    else CellsOf(paths[..|paths| - 1]) + Members(paths[|paths| - 1].cells)
  }

  function Members(cells: seq<Position>): set<Position> {
    set p | p in cells
  }

  lemma {:induction false} CellsOfAppend(a: seq<PathAward>, b: seq<PathAward>)
    ensures CellsOf(a + b) == CellsOf(a) + CellsOf(b)
  {
    if b == [] {
      assert a + b == a;
    } else {
      assert (a + b)[..|a + b| - 1] == a + b[..|b| - 1];
      CellsOfAppend(a, b[..|b| - 1]);
    }
  }

  lemma {:induction false} CellsOfContains(paths: seq<PathAward>, k: nat, p: Position)
    requires k < |paths| && p in paths[k].cells
    ensures p in CellsOf(paths)
  {
    if k < |paths| - 1 {
      CellsOfContains(paths[..|paths| - 1], k, p);
    }
  }

  lemma {:induction false} CellsOfOnly(paths: seq<PathAward>, p: Position)
    requires p in CellsOf(paths)
    ensures exists k :: 0 <= k < |paths| && p in paths[k].cells
  {
    if p !in paths[|paths| - 1].cells {
      CellsOfOnly(paths[..|paths| - 1], p);
    }
  }

  predicate AmountsNonNegative(paths: seq<PathAward>) {
    forall i :: 0 <= i < |paths| ==> paths[i].amount >= 0
  }

  lemma {:induction false} AmountSumNonNegative(paths: seq<PathAward>)
    requires AmountsNonNegative(paths)
    ensures AmountSum(paths) >= 0
  {
    if paths != [] {
      AmountSumNonNegative(paths[..|paths| - 1]);
    }
  }

  /** A legal cell never lowers an award, and only the middle reel can raise one. */
  lemma FactorsPositive(grid: Grid, reel: int, row: int)
    requires GridOk(grid) && 0 <= reel < 3 && 0 <= row < |grid[reel]|
    ensures 1 <= WildFactor(grid[reel][row]) <= 100
    ensures reel != 1 ==> WildFactor(grid[reel][row]) == 1
  {
    assert CellOk(grid[reel][row], reel);
  }

  lemma PathsNonNegative(grid: Grid, base: int, paths: seq<PathAward>,
                         rows0: seq<int>, rows1: seq<int>, rows2: seq<int>)
    requires GridOk(grid) && base >= 0 && RowsOf(rows1, grid[1])
    requires forall k :: 0 <= k < |paths| ==> IsPath(grid, base, paths[k], rows0, rows1, rows2)
    ensures AmountsNonNegative(paths) && AmountSum(paths) >= 0
  {
    forall k | 0 <= k < |paths|
      ensures paths[k].amount >= 0
    {
      assert IsPath(grid, base, paths[k], rows0, rows1, rows2);
      FactorsPositive(grid, 1, paths[k].cells[1].row);
      assert 0 <= base * WildFactor(grid[1][paths[k].cells[1].row]);
    }
    AmountSumNonNegative(paths);
  }

  /** Multiplies the Wild factors along one path. */
  method PathFactor(grid: Grid, rows: seq<int>) returns (r: Result<int>)
    requires GridOk(grid) && |rows| == 3
    requires forall reel :: 0 <= reel < 3 ==> 0 <= rows[reel] < |grid[reel]|
    ensures r == Ok(WildFactor(grid[1][rows[1]]))
  {
    var factor := 1;
    for reel := 0 to 3
      invariant factor == if reel <= 1 then 1 else WildFactor(grid[1][rows[1]])
    {
      var cell := grid[reel][rows[reel]];
      FactorsPositive(grid, reel, rows[reel]);
      if cell.symbol == Wild {
        var wild := cell.multiplier;
        if wild == 0 {
          wild := 1;
        }
        var product := SafeMul(factor, wild);
        if product.Err? {
          return product;
        }
        factor := product.value;
      }
    }
    return Ok(factor);
  }

  lemma LastPathsGrow(grid: Grid, base: int, r0: int, r1: int, rows2: seq<int>, k: nat)
    requires GridOk(grid) && base >= 0 && 0 <= r1 < |grid[1]| && k <= |rows2|
    ensures 0 <= AmountSum(LastPaths(grid, base, r0, r1, rows2[..k])) <= AmountSum(LastPaths(grid, base, r0, r1, rows2))
  {
    FactorsPositive(grid, 1, r1);
    LastPathsSum(grid, base, r0, r1, rows2[..k]);
    LastPathsSum(grid, base, r0, r1, rows2);
    GrowsWith(base, WildFactor(grid[1][r1]), k, |rows2|);
  }

  lemma GrowsWith(base: int, factor: int, k: int, n: int)
    requires 0 <= base && 0 <= factor && 0 <= k <= n
    ensures 0 <= base * factor * k <= base * factor * n
  {
    MulMonotone(0, factor, base);
    MulMonotone(0, k, base * factor);
    MulMonotone(k, n, base * factor);
  }

  /** What one more row of the last reel adds to the list, its sum and its cells. */
  lemma LastPathsStep(grid: Grid, base: int, r0: int, r1: int, rows2: seq<int>, k: nat)
    requires GridOk(grid) && base >= 0 && 0 <= r1 < |grid[1]| && k < |rows2|
    ensures var was, path := LastPaths(grid, base, r0, r1, rows2[..k]), PathThrough(grid, base, r0, r1, rows2[k]);
            var now := LastPaths(grid, base, r0, r1, rows2[..k + 1]);
            && now == was + [path]
            && 0 <= AmountSum(was)
            && AmountSum(now) == AmountSum(was) + path.amount <= AmountSum(LastPaths(grid, base, r0, r1, rows2))
            && CellsOf(now) == CellsOf(was) + {Position(0, r0), Position(1, r1), Position(2, rows2[k])}
  {
    var was, path := LastPaths(grid, base, r0, r1, rows2[..k]), PathThrough(grid, base, r0, r1, rows2[k]);
    assert rows2[..k + 1][..k] == rows2[..k];
    LastPathsGrow(grid, base, r0, r1, rows2, k);
    LastPathsGrow(grid, base, r0, r1, rows2, k + 1);
    assert (was + [path])[..|was|] == was;
    assert Members(path.cells) == {Position(0, r0), Position(1, r1), Position(2, rows2[k])};
  }

  /** One concrete path and its award. */
  method AwardPath(grid: Grid, base: int, r0: int, r1: int, r2: int) returns (r: Result<PathAward>)
    requires GridOk(grid) && 0 <= base
    requires 0 <= r0 < |grid[0]| && 0 <= r1 < |grid[1]| && 0 <= r2 < |grid[2]|
    ensures r.Ok? ==> r.value == PathThrough(grid, base, r0, r1, r2) && 0 <= r.value.amount <= MAX_INT64
    ensures r.Err? ==> PathThrough(grid, base, r0, r1, r2).amount > MAX_INT64
  {
    FactorsPositive(grid, 1, r1);
    var factor := PathFactor(grid, [r0, r1, r2]);
    match factor {
      case Err(fault) =>
        return Err(fault);
      case Ok(multiplier) =>
        var amount := SafeMul(base, multiplier);
        if amount.Err? {
          return Err(amount.fault);
        }
        return Ok(PathAward([Position(0, r0), Position(1, r1), Position(2, r2)],
                            multiplier, base, amount.value, amount.value));
    }
  }

  /** The innermost loop: one path per row of the last reel. */
  method ExpandLast(grid: Grid, base: int, r0: int, r1: int, rows2: seq<int>, before: int)
    returns (r: Result<int>, paths: seq<PathAward>, used: set<Position>)
    requires GridOk(grid) && 0 <= base && 0 <= before <= MAX_INT64
    requires 0 <= r0 < |grid[0]| && 0 <= r1 < |grid[1]| && RowsOf(rows2, grid[2])
    ensures r.Ok? ==> paths == LastPaths(grid, base, r0, r1, rows2) && used == CellsOf(paths)
    ensures r.Ok? ==> r.value == before + AmountSum(paths) <= MAX_INT64
    ensures r.Err? ==> before + AmountSum(LastPaths(grid, base, r0, r1, rows2)) > MAX_INT64
  {
    var amount := before;
    paths := [];
    used := {};
    for k := 0 to |rows2|
      invariant paths == LastPaths(grid, base, r0, r1, rows2[..k])
      invariant used == CellsOf(paths)
      invariant 0 <= amount == before + AmountSum(paths) <= MAX_INT64
    {
      LastPathsStep(grid, base, r0, r1, rows2, k);
      var path := AwardPath(grid, base, r0, r1, rows2[k]);
      if path.Err? {
        return Err(path.fault), paths, used;
      }
      var sum := SafeAdd(amount, path.value.amount);
      if sum.Err? {
        return sum, paths, used;
      }
      amount := sum.value;
      paths := paths + [path.value];
      used := used + {Position(0, r0), Position(1, r1), Position(2, rows2[k])};
    }
    assert rows2[..|rows2|] == rows2;
    return Ok(amount), paths, used;
  }

  lemma MiddlePathsStep(grid: Grid, base: int, r0: int, rows1: seq<int>, rows2: seq<int>, k: nat)
    requires GridOk(grid) && base >= 0 && RowsOf(rows1, grid[1]) && k < |rows1|
    ensures var was, more := MiddlePaths(grid, base, r0, rows1[..k], rows2), LastPaths(grid, base, r0, rows1[k], rows2);
            var now := MiddlePaths(grid, base, r0, rows1[..k + 1], rows2);
            && now == was + more
            && 0 <= AmountSum(was) && 0 <= AmountSum(more)
            && AmountSum(now) == AmountSum(was) + AmountSum(more)
            && CellsOf(now) == CellsOf(was) + CellsOf(more)
  {
    var was, more := MiddlePaths(grid, base, r0, rows1[..k], rows2), LastPaths(grid, base, r0, rows1[k], rows2);
    LastPathsGrow(grid, base, r0, rows1[k], rows2, |rows2|);
    assert rows2[..|rows2|] == rows2;
    assert rows1[..k + 1][..k] == rows1[..k];
    MiddlePathsAre(grid, base, r0, rows1[..k], rows2);
    PathsNonNegative(grid, base, was, [r0], rows1[..k], rows2);
    AmountSumAppend(was, more);
    CellsOfAppend(was, more);
  }

  lemma {:induction false} MiddlePathsGrow(grid: Grid, base: int, r0: int, rows1: seq<int>, rows2: seq<int>, k: nat)
    requires GridOk(grid) && base >= 0 && RowsOf(rows1, grid[1]) && k <= |rows1|
    ensures AmountSum(MiddlePaths(grid, base, r0, rows1[..k], rows2)) <= AmountSum(MiddlePaths(grid, base, r0, rows1, rows2))
    decreases |rows1| - k
  {
    if k < |rows1| {
      MiddlePathsStep(grid, base, r0, rows1, rows2, k);
      MiddlePathsGrow(grid, base, r0, rows1, rows2, k + 1);
    } else {
      assert rows1[..k] == rows1;
    }
  }

  /** The middle loop. */
  method ExpandMiddle(grid: Grid, base: int, r0: int, rows1: seq<int>, rows2: seq<int>, before: int)
    returns (r: Result<int>, paths: seq<PathAward>, used: set<Position>)
    requires GridOk(grid) && 0 <= base && 0 <= before <= MAX_INT64
    requires 0 <= r0 < |grid[0]| && RowsOf(rows1, grid[1]) && RowsOf(rows2, grid[2])
    ensures r.Ok? ==> paths == MiddlePaths(grid, base, r0, rows1, rows2) && used == CellsOf(paths)
    ensures r.Ok? ==> r.value == before + AmountSum(paths) <= MAX_INT64
    ensures r.Err? ==> before + AmountSum(MiddlePaths(grid, base, r0, rows1, rows2)) > MAX_INT64
  {
    var amount := before;
    paths := [];
    used := {};
    for k := 0 to |rows1|
      invariant paths == MiddlePaths(grid, base, r0, rows1[..k], rows2)
      invariant used == CellsOf(paths)
      invariant 0 <= amount == before + AmountSum(paths) <= MAX_INT64
    {
      MiddlePathsStep(grid, base, r0, rows1, rows2, k);
      MiddlePathsGrow(grid, base, r0, rows1, rows2, k + 1);
      var sum, more, moreUsed := ExpandLast(grid, base, r0, rows1[k], rows2, amount);
      if sum.Err? {
        return sum, paths, used;
      }
      amount := sum.value;
      paths := paths + more;
      used := used + moreUsed;
    }
    assert rows1[..|rows1|] == rows1;
    return Ok(amount), paths, used;
  }

  lemma PathsStep(grid: Grid, base: int, rows0: seq<int>, rows1: seq<int>, rows2: seq<int>, k: nat)
    requires GridOk(grid) && base >= 0 && RowsOf(rows1, grid[1]) && k < |rows0|
    ensures var was, more := PathsThrough(grid, base, rows0[..k], rows1, rows2), MiddlePaths(grid, base, rows0[k], rows1, rows2);
            var now := PathsThrough(grid, base, rows0[..k + 1], rows1, rows2);
            && now == was + more
            && 0 <= AmountSum(was) && 0 <= AmountSum(more)
            && AmountSum(now) == AmountSum(was) + AmountSum(more)
            && CellsOf(now) == CellsOf(was) + CellsOf(more)
  {
    var was, more := PathsThrough(grid, base, rows0[..k], rows1, rows2), MiddlePaths(grid, base, rows0[k], rows1, rows2);
    assert rows0[..k + 1][..k] == rows0[..k];
    PathsAre(grid, base, rows0[..k], rows1, rows2);
    PathsNonNegative(grid, base, was, rows0[..k], rows1, rows2);
    MiddlePathsAre(grid, base, rows0[k], rows1, rows2);
    PathsNonNegative(grid, base, more, [rows0[k]], rows1, rows2);
    AmountSumAppend(was, more);
    CellsOfAppend(was, more);
  }

  lemma {:induction false} PathsGrow(grid: Grid, base: int, rows0: seq<int>, rows1: seq<int>, rows2: seq<int>, k: nat)
    requires GridOk(grid) && base >= 0 && RowsOf(rows1, grid[1]) && k <= |rows0|
    ensures AmountSum(PathsThrough(grid, base, rows0[..k], rows1, rows2)) <= AmountSum(PathsThrough(grid, base, rows0, rows1, rows2))
    decreases |rows0| - k
  {
    if k < |rows0| {
      PathsStep(grid, base, rows0, rows1, rows2, k);
      PathsGrow(grid, base, rows0, rows1, rows2, k + 1);
    } else {
      assert rows0[..k] == rows0;
    }
  }

  /** The three nested loops over matching rows. */
  method ExpandPaths(grid: Grid, base: int, rows0: seq<int>, rows1: seq<int>, rows2: seq<int>)
    returns (r: Result<int>, paths: seq<PathAward>, used: set<Position>)
    requires GridOk(grid) && 0 <= base
    requires RowsOf(rows0, grid[0]) && RowsOf(rows1, grid[1]) && RowsOf(rows2, grid[2])
    ensures r.Ok? ==> paths == PathsThrough(grid, base, rows0, rows1, rows2) && used == CellsOf(paths)
    ensures r.Ok? ==> 0 <= r.value == AmountSum(paths) <= MAX_INT64
    ensures r.Err? ==> AmountSum(PathsThrough(grid, base, rows0, rows1, rows2)) > MAX_INT64
  {
    var amount := 0;
    paths := [];
    used := {};
    for k := 0 to |rows0|
      invariant paths == PathsThrough(grid, base, rows0[..k], rows1, rows2)
      invariant used == CellsOf(paths)
      invariant 0 <= amount == AmountSum(paths) <= MAX_INT64
    {
      PathsStep(grid, base, rows0, rows1, rows2, k);
      PathsGrow(grid, base, rows0, rows1, rows2, k + 1);
      var sum, more, moreUsed := ExpandMiddle(grid, base, rows0[k], rows1, rows2, amount);
      if sum.Err? {
        return sum, paths, used;
      }
      amount := sum.value;
      paths := paths + more;
      used := used + moreUsed;
    }
    assert rows0[..|rows0|] == rows0;
    return Ok(amount), paths, used;
  }

  /** Collects the rows of one reel that match a symbol. */
  method CollectMatches(cells: seq<Cell>, target: Symbol) returns (rows: seq<int>)
    ensures rows == MatchRows(cells, target)
  {
    rows := [];
    for row := 0 to |cells|
      invariant rows == MatchRows(cells[..row], target)
    {
      assert cells[..row + 1][..row] == cells[..row];
      if cells[row].symbol == target || cells[row].symbol == Wild {
        rows := rows + [row];
      }
    }
    assert cells[..|cells|] == cells;
  }

  /** The used cells of one reel, from the top. */
  method UsedCells(used: set<Position>, reel: int, height: int, ghost rows: seq<int>) returns (cells: seq<Position>)
    requires forall i :: 0 <= i < |rows| ==> 0 <= rows[i] < height
    requires forall i, j :: 0 <= i < j < |rows| ==> rows[i] < rows[j]
    requires forall row :: Position(reel, row) in used <==> row in rows
    requires 0 <= height
    ensures cells == RowCells(reel, rows)
  {
    cells := [];
    ghost var found := 0;
    for row := 0 to height
      invariant 0 <= found <= |rows|
      invariant forall i :: 0 <= i < |rows| ==> (rows[i] < row <==> i < found)
      invariant cells == RowCells(reel, rows[..found])
    {
      if Position(reel, row) in used {
        assert row in rows;
        assert rows[found] == row;
        cells := cells + [Position(reel, row)];
        found := found + 1;
      }
    }
    assert rows[..found] == rows;
  }

  /** A cell is used by some path exactly when its row is a match of its reel. */
  lemma PathsUse(grid: Grid, base: int, rows0: seq<int>, rows1: seq<int>, rows2: seq<int>, reel: int, row: int)
    requires |grid| == 3 && RowsOf(rows1, grid[1]) && rows0 != [] && rows1 != [] && rows2 != [] && 0 <= reel < 3
    ensures Position(reel, row) in CellsOf(PathsThrough(grid, base, rows0, rows1, rows2)) <==>
            row in [rows0, rows1, rows2][reel]
  {
    var paths := PathsThrough(grid, base, rows0, rows1, rows2);
    var p := Position(reel, row);
    PathsAre(grid, base, rows0, rows1, rows2);
    if row in [rows0, rows1, rows2][reel] {
      var r0 := if reel == 0 then row else rows0[0];
      var r1 := if reel == 1 then row else rows1[0];
      var r2 := if reel == 2 then row else rows2[0];
      PathsContain(grid, base, rows0, rows1, rows2, r0, r1, r2);
      var k :| 0 <= k < |paths| && paths[k] == PathThrough(grid, base, r0, r1, r2);
      assert paths[k].cells[reel] == p;
      CellsOfContains(paths, k, p);
    }
    if p in CellsOf(paths) {
      CellsOfOnly(paths, p);
      var k :| 0 <= k < |paths| && p in paths[k].cells;
      assert IsPath(grid, base, paths[k], rows0, rows1, rows2);
    }
  }

  /** The cells of a win, reel by reel, read off the used cells of its paths. */
  method WinCells(grid: Grid, base: int, rows0: seq<int>, rows1: seq<int>, rows2: seq<int>, used: set<Position>,
                  ghost target: Symbol)
    returns (cells: seq<Position>)
    requires GridOk(grid) && rows0 != [] && rows1 != [] && rows2 != []
    requires rows0 == MatchRows(grid[0], target) && rows1 == MatchRows(grid[1], target) && rows2 == MatchRows(grid[2], target)
    requires used == CellsOf(PathsThrough(grid, base, rows0, rows1, rows2))
    ensures cells == RowCells(0, rows0) + RowCells(1, rows1) + RowCells(2, rows2)
  {
    var height := |grid[0]|;
    forall row
      ensures Position(0, row) in used <==> row in rows0
    {
      PathsUse(grid, base, rows0, rows1, rows2, 0, row);
    }
    var cells0 := UsedCells(used, 0, height, rows0);
    forall row
      ensures Position(1, row) in used <==> row in rows1
    {
      PathsUse(grid, base, rows0, rows1, rows2, 1, row);
    }
    var cells1 := UsedCells(used, 1, height, rows1);
    forall row
      ensures Position(2, row) in used <==> row in rows2
    {
      PathsUse(grid, base, rows0, rows1, rows2, 2, row);
    }
    var cells2 := UsedCells(used, 2, height, rows2);
    cells := cells0 + cells1 + cells2;
  }

  lemma AmountAtLeastBase(grid: Grid, base: int, rows0: seq<int>, rows1: seq<int>, rows2: seq<int>)
    requires GridOk(grid) && base >= 0 && RowsOf(rows1, grid[1]) && rows0 != [] && rows1 != [] && rows2 != []
    ensures AmountSum(PathsThrough(grid, base, rows0, rows1, rows2)) >= base
  {
    FactorSumAtLeastOne(grid, rows1);
    PathsSum(grid, base, rows0, rows1, rows2);
    ProductAtLeast(base, FactorSum(grid[1], rows1), |rows2|, |rows0|);
  }

  lemma ProductAtLeast(base: int, f: int, m: int, n: int)
    requires base >= 0 && f >= 1 && m >= 1 && n >= 1
    ensures base * f * m * n >= base
  {
    MulMonotone(1, f, base);
    MulMonotone(1, m, base * f);
    MulMonotone(1, n, base * f * m);
  }

  lemma {:induction false} FactorSumAtLeastOne(grid: Grid, rows: seq<int>)
    requires GridOk(grid) && RowsOf(rows, grid[1])
    ensures FactorSum(grid[1], rows) >= |rows|
  {
    if rows != [] {
      FactorSumAtLeastOne(grid, rows[..|rows| - 1]);
      FactorsPositive(grid, 1, rows[|rows| - 1]);
    }
  }

  /** The win of one symbol: its matches, its paths, and the cells they use. */
  method EvaluateSymbol(grid: Grid, pay: int, unit: int, target: Symbol) returns (r: Result<Option<Win>>)
    requires GridOk(grid) && pay > 0 && unit > 0
    ensures r.Ok? ==> r.value == SymbolWin(grid, pay * unit, target)
    ensures r.Ok? && r.value.Some? ==> 0 <= r.value.value.amount <= MAX_INT64
    ensures r.Err? ==> var win := SymbolWin(grid, pay * unit, target); win.Some? && win.value.amount > MAX_INT64
  {
    var rows0 := CollectMatches(grid[0], target);
    var rows1 := CollectMatches(grid[1], target);
    var rows2 := CollectMatches(grid[2], target);
    if |rows0| == 0 || |rows1| == 0 || |rows2| == 0 {
      return Ok(None);
    }
    var base := SafeMul(pay, unit);
    if base.Err? {
      AmountAtLeastBase(grid, pay * unit, rows0, rows1, rows2);
      return Err(base.fault);
    }
    var amount, paths, used := ExpandPaths(grid, base.value, rows0, rows1, rows2);
    if amount.Err? {
      return Err(amount.fault);
    }
    var cells := WinCells(grid, base.value, rows0, rows1, rows2, used, target);
    return Ok(Some(Win(ThreeOf(target), target, |paths|, amount.value, amount.value, cells, paths)));
  }

  lemma SymbolWinNonNegative(grid: Grid, base: int, target: Symbol)
    requires GridOk(grid) && base >= 0
    ensures var win := SymbolWin(grid, base, target); win.Some? ==> win.value.amount >= base
  {
    var rows0, rows1, rows2 := MatchRows(grid[0], target), MatchRows(grid[1], target), MatchRows(grid[2], target);
    if rows0 != [] && rows1 != [] && rows2 != [] {
      AmountAtLeastBase(grid, base, rows0, rows1, rows2);
    }
  }

  lemma WinSumAppend(wins: seq<Win>, win: Option<Win>)
    ensures WinSum(wins + if win.Some? then [win.value] else []) ==
            WinSum(wins) + if win.Some? then win.value.amount else 0
  {
    if win.Some? {
      assert (wins + [win.value])[..|wins|] == wins;
    } else {
      assert wins + [] == wins;
    }
  }

  /** What one more symbol adds to the wins and their sum. */
  lemma WinsStep(grid: Grid, paytable: map<Symbol, int>, unit: int, targets: seq<Symbol>, k: nat)
    requires GridOk(grid) && unit > 0 && k < |targets|
    requires forall s :: s in targets[..k + 1] ==> s in paytable && paytable[s] > 0
    ensures var was, win := WinsOf(grid, paytable, unit, targets[..k]), SymbolWin(grid, paytable[targets[k]] * unit, targets[k]);
            var now := WinsOf(grid, paytable, unit, targets[..k + 1]);
            && now == was + (if win.Some? then [win.value] else [])
            && WinSum(now) == WinSum(was) + (if win.Some? then win.value.amount else 0)
            && (win.Some? ==> win.value.amount >= 0)
  {
    assert targets[..k + 1][..k] == targets[..k];
    assert targets[..k + 1][k] == targets[k];
    var base := paytable[targets[k]] * unit;
    MulMonotone(0, paytable[targets[k]], unit);
    SymbolWinNonNegative(grid, base, targets[k]);
    WinSumAppend(WinsOf(grid, paytable, unit, targets[..k]), SymbolWin(grid, base, targets[k]));
  }

  lemma {:induction false} WinsGrow(grid: Grid, paytable: map<Symbol, int>, unit: int, targets: seq<Symbol>, k: nat)
    requires GridOk(grid) && unit > 0 && k <= |targets|
    requires forall s :: s in targets ==> s in paytable && paytable[s] > 0
    ensures WinSum(WinsOf(grid, paytable, unit, targets[..k])) <= WinSum(WinsOf(grid, paytable, unit, targets))
    decreases |targets| - k
  {
    if k < |targets| {
      WinsStep(grid, paytable, unit, targets, k);
      WinsGrow(grid, paytable, unit, targets, k + 1);
    } else {
      assert targets[..k] == targets;
    }
  }

  /** One more symbol: its win, if it has one, and the new total. */
  method AddTarget(grid: Grid, paytable: map<Symbol, int>, unit: int, targets: seq<Symbol>, k: nat, wins: seq<Win>, total: int)
    returns (r: Result<(seq<Win>, int)>)
    requires GridOk(grid) && unit > 0 && k < |targets| && (forall s :: s in targets[..k + 1] ==> s in paytable && paytable[s] > 0)
    requires wins == WinsOf(grid, paytable, unit, targets[..k]) && 0 <= total == WinSum(wins) <= MAX_INT64
    ensures r.Ok? ==> r.value.0 == WinsOf(grid, paytable, unit, targets[..k + 1]) && 0 <= r.value.1 == WinSum(r.value.0) <= MAX_INT64
    ensures r.Err? ==> WinSum(WinsOf(grid, paytable, unit, targets[..k + 1])) > MAX_INT64
  {
    WinsStep(grid, paytable, unit, targets, k);
    var win := EvaluateSymbol(grid, paytable[targets[k]], unit, targets[k]);
    match win
    case Err(fault) => return Err(fault);
    case Ok(None) => return Ok((wins, total));
    case Ok(Some(found)) =>
      var sum := SafeAdd(total, found.amount);
      match sum
      case Err(fault) => return Err(fault);
      case Ok(value) => return Ok((wins + [found], value));
  }

  predicate PaysEach(paytable: map<Symbol, int>, targets: seq<Symbol>) {
    forall s :: s in targets ==> s in paytable && paytable[s] > 0
  }

  /** The loop over symbols. */
  method EvaluateTargets(grid: Grid, paytable: map<Symbol, int>, unit: int, targets: seq<Symbol>) returns (r: Result<(seq<Win>, int)>)
    requires GridOk(grid) && unit > 0
    ensures r.Ok? ==> PaysEach(paytable, targets) && r.value.0 == WinsOf(grid, paytable, unit, targets)
    ensures r.Ok? ==> 0 <= r.value.1 == WinSum(r.value.0) <= MAX_INT64
    ensures r.Err? && PaysEach(paytable, targets) ==> WinSum(WinsOf(grid, paytable, unit, targets)) > MAX_INT64
  {
    r := Ok(([], 0));
    for k := 0 to |targets|
      invariant PaysEach(paytable, targets[..k])
      invariant r.Ok? && r.value.0 == WinsOf(grid, paytable, unit, targets[..k])
      invariant 0 <= r.value.1 == WinSum(r.value.0) <= MAX_INT64
    {
      if targets[k] !in paytable || paytable[targets[k]] <= 0 {
        return Err(InvalidAmounts);
      }
      if PaysEach(paytable, targets) {
        WinsGrow(grid, paytable, unit, targets, k + 1);
      }
      r := AddTarget(grid, paytable, unit, targets, k, r.value.0, r.value.1);
      if r.Err? {
        return;
      }
    }
    assert targets[..|targets|] == targets;
  }

  /** Finds every three-reel win of the paying symbols, or reports a bad input or an overflow. */
  method EvaluateWays(grid: Grid, paytable: map<Symbol, int>, unit: int) returns (r: Result<(seq<Win>, int)>)
    ensures r.Ok? ==> unit > 0 && GridOk(grid) && PaysAll(paytable)
    ensures r.Ok? ==> r.value.0 == WinsOf(grid, paytable, unit, PAYING_SYMBOLS)
    ensures r.Ok? ==> WaysPaid(grid, paytable, unit, PAYING_SYMBOLS, r.value.0)
    ensures r.Ok? ==> 0 <= r.value.1 == WinSum(r.value.0) <= MAX_INT64
    ensures r.Err? && unit > 0 && GridOk(grid) && PaysAll(paytable) ==>
              WinSum(WinsOf(grid, paytable, unit, PAYING_SYMBOLS)) > MAX_INT64
  {
    var gridOk := CheckGrid(grid);
    if !gridOk || unit <= 0 {
      return Err(InvalidGrid);
    }
    r := EvaluateTargets(grid, paytable, unit, PAYING_SYMBOLS);
    assert PaysAll(paytable) <==> PaysEach(paytable, PAYING_SYMBOLS);
    if r.Ok? {
      PayingPaid(grid, paytable, unit);
    }
  }
}
