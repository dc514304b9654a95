/** Ways awards at a bet: enumeration at the reference unit, then scaling of every win. */
module WaysForBet {
  import opened Money
  import opened GameTypes
  import opened Grids
  import opened Ways
  import opened WaysEnumeration
  import opened WaysMeaning
  import opened WaysEvaluation
  import opened WaysScaling
  import opened LargestRemainder
  import opened PathSharing

  /** The wins of a grid at a bet. */
  function WinsForBet(grid: Grid, paytable: map<Symbol, int>, bet: int, unit: int): seq<Win>
    requires |grid| == 3 && PaysAll(paytable) && unit > 0
  {
    ScaledWins(WinsOf(grid, paytable, 1, PAYING_SYMBOLS), bet, unit)
  }

  predicate RawPathOk(path: PathAward) {
    path.base >= 1 && path.multiplier >= 1 && path.amount == path.base * path.multiplier
  }

  /** What every unscaled win satisfies. */
  predicate RawWinOk(win: Win) {
    && win.paths != []
    && win.amount == AmountSum(win.paths) >= 1
    && (forall i :: 0 <= i < |win.paths| ==> RawPathOk(win.paths[i]) && win.paths[i].amount >= win.paths[i].base)
  }

  lemma PathsRaw(grid: Grid, base: int, rows0: seq<int>, rows1: seq<int>, rows2: seq<int>)
    requires GridOk(grid) && base >= 1 && RowsOf(rows1, grid[1])
    ensures forall i :: 0 <= i < |PathsThrough(grid, base, rows0, rows1, rows2)| ==>
              var path := PathsThrough(grid, base, rows0, rows1, rows2)[i];
              RawPathOk(path) && path.amount >= path.base
  {
    var paths := PathsThrough(grid, base, rows0, rows1, rows2);
    PathsAre(grid, base, rows0, rows1, rows2);
    forall i | 0 <= i < |paths|
      ensures RawPathOk(paths[i]) && paths[i].amount >= paths[i].base
    {
      assert IsPath(grid, base, paths[i], rows0, rows1, rows2);
      PathRaw(grid, base, paths[i].cells[0].row, paths[i].cells[1].row, paths[i].cells[2].row);
    }
  }

  lemma SymbolWinRaw(grid: Grid, base: int, target: Symbol)
    requires GridOk(grid) && base >= 1
    ensures var win := SymbolWin(grid, base, target); win.Some? ==> RawWinOk(win.value)
  {
    var rows0, rows1, rows2 := MatchRows(grid[0], target), MatchRows(grid[1], target), MatchRows(grid[2], target);
    if rows0 != [] && rows1 != [] && rows2 != [] {
      AmountAtLeastBase(grid, base, rows0, rows1, rows2);
      PathsRaw(grid, base, rows0, rows1, rows2);
      PathsContain(grid, base, rows0, rows1, rows2, rows0[0], rows1[0], rows2[0]);
    }
  }

  lemma PathRaw(grid: Grid, base: int, r0: int, r1: int, r2: int)
    requires GridOk(grid) && base >= 1 && 0 <= r1 < |grid[1]|
    ensures var path := PathThrough(grid, base, r0, r1, r2); RawPathOk(path) && path.amount >= path.base
  {
    FactorsPositive(grid, 1, r1);
    MulMonotone(1, WildFactor(grid[1][r1]), base);
  }

  lemma {:induction false} WinsRaw(grid: Grid, paytable: map<Symbol, int>, targets: seq<Symbol>)
    requires GridOk(grid) && forall s :: s in targets ==> s in paytable && paytable[s] > 0
    ensures forall i :: 0 <= i < |WinsOf(grid, paytable, 1, targets)| ==> RawWinOk(WinsOf(grid, paytable, 1, targets)[i])
  {
    if targets != [] {
      var last := |targets| - 1;
      WinsRaw(grid, paytable, targets[..last]);
      SymbolWinRaw(grid, paytable[targets[last]] * 1, targets[last]);
    }
  }

  /** A raw win's rounded amount can always be shared: no refusal of the sharing step is reachable. */
  lemma WinShareable(win: Win, bet: int, unit: int)
    requires RawWinOk(win) && bet > 0 && unit > 0
    ensures 0 <= Rounded(win.amount, bet, unit) - FloorSum(win.paths, bet, unit) <= |win.paths|
    ensures AmountSum(ScaledPaths(win.paths, Rounded(win.amount, bet, unit), bet, unit)) == Rounded(win.amount, bet, unit)
    ensures Rounded(win.amount, bet, unit) >= 1
  {
    AggregateShareable(win.paths, bet, unit);
    ScaledSumExact(win.paths, Rounded(win.amount, bet, unit), bet, unit);
    FloorSumNonNegative(win.paths, bet, unit);
    RoundedPositive(win.amount, bet, unit);
  }

  lemma RoundedPositive(amount: int, bet: int, unit: int)
    requires amount > 0 && bet > 0 && unit > 0
    ensures Rounded(amount, bet, unit) >= 1
  {
    MulMonotone(1, amount, bet);
    assert amount * bet >= 1;
    assert (amount * bet) / unit >= 0;
  }

  /** No amount of the evaluation at this bet leaves the int64 range. */
  predicate WaysFit(grid: Grid, paytable: map<Symbol, int>, bet: int, unit: int)
    requires |grid| == 3 && PaysAll(paytable) && unit > 0
  {
    var raw := WinsOf(grid, paytable, 1, PAYING_SYMBOLS);
    && WinSum(raw) <= MAX_INT64
    && (forall i :: 0 <= i < |raw| ==> raw[i].amount * bet <= MAX_INT64)
    && WinSum(ScaledWins(raw, bet, unit)) <= MAX_INT64
  }

  lemma {:induction false} WinSumPrefix(wins: seq<Win>, i: nat)
    requires i <= |wins| && forall j :: 0 <= j < |wins| ==> wins[j].amount >= 0
    ensures 0 <= WinSum(wins[..i]) <= WinSum(wins)
    decreases |wins|
  {
    if i < |wins| {
      assert wins[..|wins| - 1][..i] == wins[..i];
      WinSumPrefix(wins[..|wins| - 1], i);
    } else {
      assert wins[..i] == wins;
      if i > 0 {
        WinSumPrefix(wins[..i - 1], i - 1);
        assert wins[..i - 1][..i - 1] == wins[..i - 1];
      }
    }
  }

  /** One win scaled: the aggregate is rounded, then the paths are scaled in place. */
  method ScaleWin(win: Win, bet: int, unit: int) returns (r: Result<Win>)
    requires bet > 0 && unit > 0 && RawWinOk(win)
    ensures r.Ok? ==> r.value == ScaledWin(win, bet, unit) && 0 <= r.value.amount <= MAX_INT64
    ensures win.amount * bet <= MAX_INT64 <==> r.Ok?
  {
    var scaled := ScaleAward(win.amount, bet, unit);
    if scaled.Err? {
      return Err(scaled.fault);
    }
    var paths := new PathAward[|win.paths|](i requires 0 <= i < |win.paths| => win.paths[i]);
    assert paths[..] == win.paths;
    WinShareable(win, bet, unit);
    var shared := ScalePathAwards(paths, scaled.value, bet, unit);
    match shared {
      case Err(fault) => return Err(fault);
      case Ok(_) =>
        return Ok(win.(amount := scaled.value, paid := scaled.value, paths := paths[..]));
    }
  }

  lemma OneMoreWin(goal: seq<Win>, i: nat)
    requires i < |goal| && forall j :: 0 <= j < |goal| ==> goal[j].amount >= 0
    ensures goal[..i + 1] == goal[..i] + [goal[i]]
    ensures 0 <= WinSum(goal[..i + 1]) == WinSum(goal[..i]) + goal[i].amount <= WinSum(goal)
  {
    WinSumPrefix(goal, i + 1);
    SumOfMore(goal[..i], goal[i]);
    assert goal[..i + 1] == goal[..i] + [goal[i]];
  }

  lemma SumOfMore(wins: seq<Win>, win: Win)
    ensures WinSum(wins + [win]) == WinSum(wins) + win.amount
  {
    assert (wins + [win])[..|wins|] == wins;
  }

  /** Every win scaled, and their checked total. */
  method ScaleWins(raw: seq<Win>, bet: int, unit: int) returns (r: Result<(seq<Win>, int)>)
    requires bet > 0 && unit > 0 && forall i :: 0 <= i < |raw| ==> RawWinOk(raw[i])
    ensures r.Ok? ==> r.value.0 == ScaledWins(raw, bet, unit) && 0 <= r.value.1 == WinSum(r.value.0) <= MAX_INT64
    ensures (&& (forall i :: 0 <= i < |raw| ==> raw[i].amount * bet <= MAX_INT64)
             && WinSum(ScaledWins(raw, bet, unit)) <= MAX_INT64) <==> r.Ok?
  {
    ghost var goal := ScaledWins(raw, bet, unit);
    ScaledNonNegative(raw, bet, unit);
    var wins: seq<Win> := [];
    var total := 0;
    for i := 0 to |raw|
      invariant wins == goal[..i]
      invariant 0 <= total == WinSum(wins) <= MAX_INT64
      invariant forall j :: 0 <= j < i ==> raw[j].amount * bet <= MAX_INT64
    {
      OneMoreWin(goal, i);
      var win := ScaleWin(raw[i], bet, unit);
      if win.Err? {
        return Err(win.fault);
      }
      wins := wins + [win.value];
      var sum := SafeAdd(total, win.value.amount);
      if sum.Err? {
        return Err(sum.fault);
      }
      total := sum.value;
    }
    assert goal[..|raw|] == goal;
    return Ok((wins, total));
  }

  /** A win at a bet beside the win at the reference unit: the same cells and paths, an amount rounded to nearest, and path
      amounts that add up to it. */
  predicate ScaledFrom(raw: Win, win: Win, bet: int, unit: int) {
    && win.id == raw.id && win.symbol == raw.symbol && win.ways == raw.ways && win.cells == raw.cells
    && win.amount == win.paid == AmountSum(win.paths)
    && (NearestUnits(win.amount, raw.amount * bet, unit) || (win.amount == 1 && NearestUnits(0, raw.amount * bet, unit)))
    && |win.paths| == |raw.paths|
    && forall k :: 0 <= k < |win.paths| ==>
         && win.paths[k].cells == raw.paths[k].cells && win.paths[k].multiplier == raw.paths[k].multiplier
         && win.paths[k].paid == win.paths[k].amount
  }

  /** The wins of a grid at a bet: each is the scaled win of a symbol that lies on every reel. */
  ghost predicate PaidForBet(grid: Grid, paytable: map<Symbol, int>, bet: int, unit: int, wins: seq<Win>)
    requires |grid| == 3 && PaysAll(paytable)
  {
    exists raw: seq<Win> ::
      && WaysPaid(grid, paytable, 1, PAYING_SYMBOLS, raw) && |raw| == |wins|
      && forall i :: 0 <= i < |wins| ==> ScaledFrom(raw[i], wins[i], bet, unit)
  }

  lemma WinScaledFrom(raw: Win, bet: int, unit: int)
    requires RawWinOk(raw) && bet > 0 && unit > 0
    ensures ScaledFrom(raw, ScaledWin(raw, bet, unit), bet, unit)
  {
    WinShareable(raw, bet, unit);
    RoundedNearest(raw.amount, bet, unit);
  }

  /** The wins of a grid at a bet are those. */
  lemma WinsPaidForBet(grid: Grid, paytable: map<Symbol, int>, bet: int, unit: int)
    requires GridOk(grid) && PaysAll(paytable) && bet > 0 && unit > 0
    ensures PaidForBet(grid, paytable, bet, unit, WinsForBet(grid, paytable, bet, unit))
  {
    var raw, wins := WinsOf(grid, paytable, 1, PAYING_SYMBOLS), WinsForBet(grid, paytable, bet, unit);
    PayingPaid(grid, paytable, 1);
    WinsRaw(grid, paytable, PAYING_SYMBOLS);
    forall i | 0 <= i < |wins|
      ensures ScaledFrom(raw[i], wins[i], bet, unit)
    {
      WinScaledFrom(raw[i], bet, unit);
    }
  }

  /** What the evaluated wins are to the wins at a bet. */
  lemma RawWins(grid: Grid, paytable: map<Symbol, int>, bet: int, unit: int, raw: seq<Win>)
    requires GridOk(grid) && PaysAll(paytable) && bet > 0 && unit > 0 && raw == WinsOf(grid, paytable, 1, PAYING_SYMBOLS)
    ensures forall i :: 0 <= i < |raw| ==> RawWinOk(raw[i])
    ensures WinsForBet(grid, paytable, bet, unit) == ScaledWins(raw, bet, unit)
    ensures PaidForBet(grid, paytable, bet, unit, ScaledWins(raw, bet, unit))
    ensures WaysFit(grid, paytable, bet, unit) <==>
              && WinSum(raw) <= MAX_INT64 && (forall i :: 0 <= i < |raw| ==> raw[i].amount * bet <= MAX_INT64)
              && WinSum(ScaledWins(raw, bet, unit)) <= MAX_INT64
  {
    WinsRaw(grid, paytable, PAYING_SYMBOLS);
    WinsPaidForBet(grid, paytable, bet, unit);
  }

  method EvaluateWaysForBet(grid: Grid, paytable: map<Symbol, int>, bet: int, unit: int)
    returns (r: Result<(seq<Win>, int)>)
    ensures r.Ok? <==> bet > 0 && unit > 0 && GridOk(grid) && PaysAll(paytable) && WaysFit(grid, paytable, bet, unit)
    ensures r.Ok? ==> r.value.0 == WinsForBet(grid, paytable, bet, unit)
    ensures r.Ok? ==> PaidForBet(grid, paytable, bet, unit, r.value.0)
    ensures r.Ok? ==> 0 <= r.value.1 == WinSum(r.value.0) <= MAX_INT64
  {
    if bet <= 0 || unit <= 0 {
      return Err(InvalidAmounts);
    }
    r := EvaluateWays(grid, paytable, 1);
    if r.Ok? {
      RawWins(grid, paytable, bet, unit, r.value.0);
      r := ScaleWins(r.value.0, bet, unit);
    }
  }

  lemma ScaledNonNegative(raw: seq<Win>, bet: int, unit: int)
    requires bet > 0 && unit > 0 && forall i :: 0 <= i < |raw| ==> RawWinOk(raw[i])
    ensures forall i :: 0 <= i < |raw| ==> ScaledWins(raw, bet, unit)[i].amount >= 1
  {
    forall i | 0 <= i < |raw|
      ensures ScaledWins(raw, bet, unit)[i].amount >= 1
    {
      RoundedPositive(raw[i].amount, bet, unit);
    }
  }
}
