/** What Ways pay, said of the cells of the grid alone: no loop, no list of matches, no evaluation. */
module WaysMeaning {
  import opened Money
  import opened GameTypes
  import opened Grids
  import opened Ways
  import opened WaysEnumeration

  /** A row of a reel shows the symbol, or a Wild in its place. */
  predicate Matches(cells: seq<Cell>, target: Symbol, row: int) {
    0 <= row < |cells| && (cells[row].symbol == target || cells[row].symbol == Wild)
  }

  lemma MatchRowsExact(cells: seq<Cell>, target: Symbol)
    ensures forall row :: row in MatchRows(cells, target) <==> Matches(cells, target, row)
    ensures Distinct(MatchRows(cells, target))
  {
    forall row | Matches(cells, target, row)
      ensures row in MatchRows(cells, target)
    {
      MatchRowsComplete(cells, target, row);
    }
  }

  /** How many cells of a reel show the symbol or a Wild. */
  function MatchCount(cells: seq<Cell>, target: Symbol): nat {
    if cells == [] then 0
    else
      var last := cells[|cells| - 1];
      MatchCount(cells[..|cells| - 1], target) + if last.symbol == target || last.symbol == Wild then 1 else 0
  }

  /** The multipliers of those cells added up: that of a Wild that has one, and one for any other cell. */
  function FactorTotal(cells: seq<Cell>, target: Symbol): int {
    if cells == [] then 0
    else
      var last := cells[|cells| - 1];
      FactorTotal(cells[..|cells| - 1], target) +
      if last.symbol == Wild && last.multiplier != 0 then last.multiplier
      else if last.symbol == target || last.symbol == Wild then 1 else 0
  }

  lemma {:induction false} RowsCounted(cells: seq<Cell>, target: Symbol)
    ensures |MatchRows(cells, target)| == MatchCount(cells, target)
  {
    if cells != [] {
      RowsCounted(cells[..|cells| - 1], target);
    }
  }

  lemma {:induction false} FactorsTotalled(cells: seq<Cell>, target: Symbol)
    ensures FactorSum(cells, MatchRows(cells, target)) == FactorTotal(cells, target)
  {
    if cells != [] {
      var last := |cells| - 1;
      FactorsTotalled(cells[..last], target);
      LastFactor(cells, target, last, MatchRows(cells[..last], target));
    }
  }

  lemma LastFactor(cells: seq<Cell>, target: Symbol, last: nat, before: seq<int>)
    requires last == |cells| - 1 && before == MatchRows(cells[..last], target)
    ensures FactorSum(cells, MatchRows(cells, target)) ==
            FactorSum(cells[..last], before) + if Matches(cells, target, last) then WildFactor(cells[last]) else 0
  {
    FactorsOfPrefix(cells, last, before);
    if Matches(cells, target, last) {
      assert (before + [last as int])[..|before|] == before;
    }
  }

  lemma {:induction false} FactorsOfPrefix(cells: seq<Cell>, n: nat, rows: seq<int>)
    requires n <= |cells| && RowsOf(rows, cells[..n]) && RowsOf(rows, cells)
    ensures FactorSum(cells[..n], rows) == FactorSum(cells, rows)
  {
    if rows != [] {
      FactorsOfPrefix(cells, n, rows[..|rows| - 1]);
    }
  }

  function Through(r0: int, r1: int, r2: int): seq<Position> {
    [Position(0, r0), Position(1, r1), Position(2, r2)]
  }

  /** Three cells, one a reel, that each show the symbol or a Wild. */
  predicate Triple(grid: Grid, target: Symbol, r0: int, r1: int, r2: int)
    requires |grid| == 3
  {
    Matches(grid[0], target, r0) && Matches(grid[1], target, r1) && Matches(grid[2], target, r2)
  }

  /** A path pays the symbol's award times the multiplier of a Wild on its middle cell; a plain Wild counts once. */
  predicate PathPays(grid: Grid, base: int, target: Symbol, path: PathAward)
    requires |grid| == 3
  {
    && |path.cells| == 3
    && var r0, r1, r2 := path.cells[0].row, path.cells[1].row, path.cells[2].row;
       && path.cells == Through(r0, r1, r2) && Triple(grid, target, r0, r1, r2)
       && path.multiplier == (if grid[1][r1].symbol == Wild && grid[1][r1].multiplier != 0 then grid[1][r1].multiplier else 1)
       && path.base == base && path.amount == path.paid == base * path.multiplier
  }

  predicate PathRuns(paths: seq<PathAward>, r0: int, r1: int, r2: int) {
    exists k :: 0 <= k < |paths| && paths[k].cells == Through(r0, r1, r2)
  }

  /** The paths of a win go through exactly the triples of the symbol, each once. */
  ghost predicate TriplesExactly(grid: Grid, base: int, target: Symbol, paths: seq<PathAward>)
    requires |grid| == 3
  {
    && DistinctCells(paths)
    && (forall k :: 0 <= k < |paths| ==> PathPays(grid, base, target, paths[k]))
    && (forall r0, r1, r2 :: PathRuns(paths, r0, r1, r2) <==> Triple(grid, target, r0, r1, r2))
  }

  lemma ThroughPays(grid: Grid, base: int, target: Symbol, r0: int, r1: int, r2: int)
    requires |grid| == 3 && Triple(grid, target, r0, r1, r2)
    ensures PathPays(grid, base, target, PathThrough(grid, base, r0, r1, r2))
  {
  }

  lemma TriplesOf(grid: Grid, base: int, target: Symbol)
    requires |grid| == 3
    ensures TriplesExactly(grid, base, target,
                           PathsThrough(grid, base, MatchRows(grid[0], target), MatchRows(grid[1], target), MatchRows(grid[2], target)))
  {
    var rows0, rows1, rows2 := MatchRows(grid[0], target), MatchRows(grid[1], target), MatchRows(grid[2], target);
    MatchRowsExact(grid[0], target);
    MatchRowsExact(grid[1], target);
    MatchRowsExact(grid[2], target);
    PathsDistinct(grid, base, rows0, rows1, rows2);
    PathsAre(grid, base, rows0, rows1, rows2);
    var paths := PathsThrough(grid, base, rows0, rows1, rows2);
    forall k | 0 <= k < |paths|
      ensures PathPays(grid, base, target, paths[k])
    {
      assert IsPath(grid, base, paths[k], rows0, rows1, rows2);
      ThroughPays(grid, base, target, paths[k].cells[0].row, paths[k].cells[1].row, paths[k].cells[2].row);
    }
    forall r0, r1, r2
      ensures PathRuns(paths, r0, r1, r2) <==> Triple(grid, target, r0, r1, r2)
    {
      if Triple(grid, target, r0, r1, r2) {
        PathsContain(grid, base, rows0, rows1, rows2, r0, r1, r2);
        var k :| 0 <= k < |paths| && paths[k] == PathThrough(grid, base, r0, r1, r2);
        assert paths[k].cells == Through(r0, r1, r2);
      }
    }
  }

  /** The win of one symbol: its paths, and what they come to. */
  ghost predicate WinPays(grid: Grid, base: int, target: Symbol, win: Win)
    requires |grid| == 3
  {
    && win.id == ThreeOf(target) && win.symbol == target
    && TriplesExactly(grid, base, target, win.paths)
    && win.ways == |win.paths| == MatchCount(grid[2], target) * MatchCount(grid[1], target) * MatchCount(grid[0], target)
    && win.amount == win.paid == AmountSum(win.paths)
    && win.amount == base * FactorTotal(grid[1], target) * MatchCount(grid[2], target) * MatchCount(grid[0], target)
  }

  lemma SymbolWinPays(grid: Grid, base: int, target: Symbol)
    requires |grid| == 3
    ensures var win := SymbolWin(grid, base, target);
            && (win.Some? <==> exists r0, r1, r2 :: Triple(grid, target, r0, r1, r2))
            && (win.Some? ==> WinPays(grid, base, target, win.value))
  {
    var rows0, rows1, rows2 := MatchRows(grid[0], target), MatchRows(grid[1], target), MatchRows(grid[2], target);
    MatchRowsExact(grid[0], target);
    MatchRowsExact(grid[1], target);
    MatchRowsExact(grid[2], target);
    if rows0 != [] && rows1 != [] && rows2 != [] {
      assert Triple(grid, target, rows0[0], rows1[0], rows2[0]);
      TriplesOf(grid, base, target);
      RowsCounted(grid[0], target);
      RowsCounted(grid[1], target);
      RowsCounted(grid[2], target);
      FactorsTotalled(grid[1], target);
      PathsCount(grid, base, rows0, rows1, rows2);
      PathsSum(grid, base, rows0, rows1, rows2);
    }
  }

  predicate SymbolPaid(wins: seq<Win>, target: Symbol) {
    exists k :: 0 <= k < |wins| && wins[k].symbol == target
  }

  predicate OncePerSymbol(wins: seq<Win>) {
    forall i, j :: 0 <= i < j < |wins| ==> wins[i].symbol != wins[j].symbol
  }

  predicate AllPay(paytable: map<Symbol, int>, targets: seq<Symbol>) {
    forall s :: s in targets ==> s in paytable
  }

  /** The list of wins, symbol by symbol. */
  lemma {:induction false} ListedWon(grid: Grid, paytable: map<Symbol, int>, unit: int, targets: seq<Symbol>, k: nat)
    requires |grid| == 3 && AllPay(paytable, targets) && k < |WinsOf(grid, paytable, unit, targets)|
    ensures var win := WinsOf(grid, paytable, unit, targets)[k];
            win.symbol in targets && SymbolWin(grid, paytable[win.symbol] * unit, win.symbol) == Some(win)
  {
    var last := |targets| - 1;
    var before := WinsOf(grid, paytable, unit, targets[..last]);
    if k < |before| {
      ListedWon(grid, paytable, unit, targets[..last], k);
    }
  }

  lemma StillPaid(wins: seq<Win>, more: seq<Win>, target: Symbol)
    requires SymbolPaid(wins, target) || (|more| == 1 && more[0].symbol == target)
    ensures SymbolPaid(wins + more, target)
  {
    var all := wins + more;
    if k :| 0 <= k < |wins| && wins[k].symbol == target {
      assert all[k].symbol == target;
    } else {
      assert all[|wins|].symbol == target;
    }
  }

  lemma {:induction false} WonListed(grid: Grid, paytable: map<Symbol, int>, unit: int, targets: seq<Symbol>, i: nat)
    requires |grid| == 3 && AllPay(paytable, targets) && i < |targets|
    requires SymbolWin(grid, paytable[targets[i]] * unit, targets[i]).Some?
    ensures SymbolPaid(WinsOf(grid, paytable, unit, targets), targets[i])
  {
    var last := |targets| - 1;
    if i < last {
      WonListed(grid, paytable, unit, targets[..last], i);
    }
    var win := SymbolWin(grid, paytable[targets[last]] * unit, targets[last]);
    StillPaid(WinsOf(grid, paytable, unit, targets[..last]), if win.Some? then [win.value] else [], targets[i]);
  }

  lemma {:induction false} ListedOnce(grid: Grid, paytable: map<Symbol, int>, unit: int, targets: seq<Symbol>)
    requires |grid| == 3 && AllPay(paytable, targets) && Distinct(targets)
    ensures OncePerSymbol(WinsOf(grid, paytable, unit, targets))
  {
    if targets != [] {
      var last := |targets| - 1;
      ListedOnce(grid, paytable, unit, targets[..last]);
      var before := WinsOf(grid, paytable, unit, targets[..last]);
      forall i | 0 <= i < |before|
        ensures before[i].symbol != targets[last]
      {
        ListedWon(grid, paytable, unit, targets[..last], i);
      }
    }
  }

  /** Some cell of every reel shows the symbol or a Wild. */
  ghost predicate OnEveryReel(grid: Grid, target: Symbol)
    requires |grid| == 3
  {
    forall reel :: 0 <= reel < 3 ==>
      exists row :: 0 <= row < |grid[reel]| && (grid[reel][row].symbol == target || grid[reel][row].symbol == Wild)
  }

  lemma ReelsHaveTriple(grid: Grid, target: Symbol)
    requires |grid| == 3
    ensures OnEveryReel(grid, target) <==> exists r0, r1, r2 :: Triple(grid, target, r0, r1, r2)
  {
    if OnEveryReel(grid, target) {
      var r0 :| 0 <= r0 < |grid[0]| && (grid[0][r0].symbol == target || grid[0][r0].symbol == Wild);
      var r1 :| 0 <= r1 < |grid[1]| && (grid[1][r1].symbol == target || grid[1][r1].symbol == Wild);
      var r2 :| 0 <= r2 < |grid[2]| && (grid[2][r2].symbol == target || grid[2][r2].symbol == Wild);
      assert Triple(grid, target, r0, r1, r2);
    }
    if r0, r1, r2 :| Triple(grid, target, r0, r1, r2) {
      assert Matches(grid[0], target, r0) && Matches(grid[1], target, r1) && Matches(grid[2], target, r2);
    }
  }

  /** What a list of wins must be for a grid: one win for every symbol that lies on every reel, with its exact paths. */
  ghost predicate WaysPaid(grid: Grid, paytable: map<Symbol, int>, unit: int, targets: seq<Symbol>, wins: seq<Win>)
    requires |grid| == 3 && AllPay(paytable, targets)
  {
    && OncePerSymbol(wins)
    && (forall target :: target in targets ==> (SymbolPaid(wins, target) <==> OnEveryReel(grid, target)))
    && (forall k :: 0 <= k < |wins| ==>
          wins[k].symbol in targets && WinPays(grid, paytable[wins[k].symbol] * unit, wins[k].symbol, wins[k]))
  }

  lemma PaidOnReels(grid: Grid, paytable: map<Symbol, int>, unit: int, targets: seq<Symbol>, target: Symbol)
    requires |grid| == 3 && AllPay(paytable, targets) && target in targets
    ensures SymbolPaid(WinsOf(grid, paytable, unit, targets), target) <==> OnEveryReel(grid, target)
  {
    var wins := WinsOf(grid, paytable, unit, targets);
    SymbolWinPays(grid, paytable[target] * unit, target);
    ReelsHaveTriple(grid, target);
    if SymbolWin(grid, paytable[target] * unit, target).Some? {
      var i :| 0 <= i < |targets| && targets[i] == target;
      WonListed(grid, paytable, unit, targets, i);
    }
    if k :| 0 <= k < |wins| && wins[k].symbol == target {
      ListedWon(grid, paytable, unit, targets, k);
    }
  }

  lemma ListedPays(grid: Grid, paytable: map<Symbol, int>, unit: int, targets: seq<Symbol>, k: nat)
    requires |grid| == 3 && AllPay(paytable, targets) && k < |WinsOf(grid, paytable, unit, targets)|
    ensures var win := WinsOf(grid, paytable, unit, targets)[k];
            win.symbol in targets && WinPays(grid, paytable[win.symbol] * unit, win.symbol, win)
  {
    ListedWon(grid, paytable, unit, targets, k);
    var win := WinsOf(grid, paytable, unit, targets)[k];
    SymbolWinPays(grid, paytable[win.symbol] * unit, win.symbol);
  }

  /** The evaluated wins are those. */
  lemma WinsPaid(grid: Grid, paytable: map<Symbol, int>, unit: int, targets: seq<Symbol>)
    requires |grid| == 3 && AllPay(paytable, targets) && Distinct(targets)
    ensures WaysPaid(grid, paytable, unit, targets, WinsOf(grid, paytable, unit, targets))
  {
    var wins := WinsOf(grid, paytable, unit, targets);
    ListedOnce(grid, paytable, unit, targets);
    forall target | target in targets
      ensures SymbolPaid(wins, target) <==> OnEveryReel(grid, target)
    {
      PaidOnReels(grid, paytable, unit, targets, target);
    }
    forall k | 0 <= k < |wins|
      ensures wins[k].symbol in targets && WinPays(grid, paytable[wins[k].symbol] * unit, wins[k].symbol, wins[k])
    {
      ListedPays(grid, paytable, unit, targets, k);
    }
  }

  lemma PayingPaid(grid: Grid, paytable: map<Symbol, int>, unit: int)
    requires |grid| == 3 && PaysAll(paytable)
    ensures WaysPaid(grid, paytable, unit, PAYING_SYMBOLS, WinsOf(grid, paytable, unit, PAYING_SYMBOLS))
  {
    WinsPaid(grid, paytable, unit, PAYING_SYMBOLS);
  }
}
