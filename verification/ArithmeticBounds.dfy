/** The definition-time overflow check: its loops, and the proof that it rules out every later overflow. */
module ArithmeticBounds {
  import opened Money
  import opened Weights
  import opened GameTypes
  import opened Grids
  import opened Ways
  import opened WaysEnumeration
  import opened WaysEvaluation
  import opened WaysScaling
  import opened WaysForBet
  import opened GameConfig

  method LargestWild(items: seq<Weighted<int>>) returns (m: int)
    ensures m == MaxWild(items)
  {
    m := 1;
    for i := 0 to |items|
      invariant m == MaxWild(items[..i])
    {
      assert items[..i + 1][..i] == items[..i];
      var value := items[i].value;
      if value == 0 {
        value := 1;
      }
      if value > m {
        m := value;
      }
    }
    assert items[..|items|] == items;
  }

  method LargestVault(c: Config) returns (m: int)
    ensures m == MaxVault(c)
  {
    m := 0;
    for i := 0 to |c.vaults|
      invariant m == MaxOf(c.vaults[..i], false)
    {
      assert c.vaults[..i + 1][..i] == c.vaults[..i];
      if c.vaults[i].value > m {
        m := c.vaults[i].value;
      }
    }
    assert c.vaults[..|c.vaults|] == c.vaults;
    for i := 0 to |c.overdrives|
      invariant m == var base, king := MaxOf(c.vaults, false), MaxOf(c.overdrives[..i], true);
                     if king > base then king else base
    {
      assert c.overdrives[..i + 1][..i] == c.overdrives[..i];
      var value := c.overdrives[i].value;
      if IsBaseJackpot(value) {
        value := value * 2;
      }
      if value > m {
        m := value;
      }
    }
    assert c.overdrives[..|c.overdrives|] == c.overdrives;
  }

  method LargestWheel(items: seq<Weighted<WheelPrize>>) returns (m: int)
    ensures m == MaxWheel(items)
  {
    m := 0;
    for i := 0 to |items|
      invariant m == MaxWheel(items[..i])
    {
      assert items[..i + 1][..i] == items[..i];
      if items[i].value.kind == Instant && items[i].value.multiplier > m {
        m := items[i].value.multiplier;
      }
    }
    assert items[..|items|] == items;
  }

  /** The symbol loop: both liabilities with every product and sum checked. */
  method SumLiabilities(c: Config) returns (r: Result<(int, int)>)
    requires PaysAll(c.paytable) && 0 < c.bet.payUnit && 0 <= c.bet.max
    ensures r.Ok? ==> r.value == (RawTotal(c, PAYING_SYMBOLS), ScaledTotal(c, PAYING_SYMBOLS))
    ensures r.Ok? <==>
            && (forall s :: s in PAYING_SYMBOLS ==> RawLiability(c, s) <= MAX_INT64 && RawLiability(c, s) * c.bet.max <= MAX_INT64)
            && RawTotal(c, PAYING_SYMBOLS) <= MAX_INT64 && ScaledTotal(c, PAYING_SYMBOLS) <= MAX_INT64
  {
    var wild := LargestWild(c.wilds);
    var symbols := PAYING_SYMBOLS;
    var rawTotal, scaledTotal := 0, 0;
    for i := 0 to |symbols|
      invariant 0 <= rawTotal == RawTotal(c, symbols[..i]) <= MAX_INT64
      invariant 0 <= scaledTotal == ScaledTotal(c, symbols[..i]) <= MAX_INT64
      invariant forall s :: s in symbols[..i] ==> RawLiability(c, s) <= MAX_INT64 && RawLiability(c, s) * c.bet.max <= MAX_INT64
    {
      assert symbols[..i + 1][..i] == symbols[..i];
      LiabilityStep(c, symbols, i);
      var raw := RawLiabilityOf(c, symbols[i], wild);
      if raw.Err? {
        return Err(raw.fault);
      }
      var rawSum := SafeAdd(rawTotal, raw.value);
      if rawSum.Err? {
        return Err(rawSum.fault);
      }
      rawTotal := rawSum.value;
      var scaled := ScaleAward(raw.value, c.bet.max, c.bet.payUnit);
      if scaled.Err? {
        return Err(scaled.fault);
      }
      var scaledSum := SafeAdd(scaledTotal, scaled.value);
      if scaledSum.Err? {
        return Err(scaledSum.fault);
      }
      scaledTotal := scaledSum.value;
    }
    assert symbols[..|symbols|] == symbols;
    return Ok((rawTotal, scaledTotal));
  }

  method RawLiabilityOf(c: Config, symbol: Symbol, wild: int) returns (r: Result<int>)
    requires PaysAll(c.paytable) && symbol in PAYING_SYMBOLS && wild == MaxWild(c.wilds)
    ensures r.Ok? <==> RawLiability(c, symbol) <= MAX_INT64
    ensures r.Ok? ==> r.value == RawLiability(c, symbol)
  {
    r := SafeMul(c.paytable[symbol], wild);
    if r.Ok? {
      r := SafeMul(r.value, MAX_WAYS);
    }
  }

  lemma LiabilityPositive(c: Config, symbol: Symbol)
    requires PaysAll(c.paytable) && symbol in PAYING_SYMBOLS
    ensures RawLiability(c, symbol) > 0
  {
    MulMonotone(1, MaxWild(c.wilds), c.paytable[symbol]);
  }

  lemma RoundedNonNegative(amount: int, bet: int, unit: int)
    requires 0 <= amount && 0 <= bet && unit > 0
    ensures Rounded(amount, bet, unit) >= 0
  {
    MulMonotone(0, amount, bet);
  }

  /** Totals only grow from one symbol to the next, so an early overflow is an overflow of the total. */
  lemma {:induction false} LiabilityStep(c: Config, symbols: seq<Symbol>, i: nat)
    requires PaysAll(c.paytable) && 0 < c.bet.payUnit && 0 <= c.bet.max && i < |symbols|
    requires forall s :: s in symbols ==> s in PAYING_SYMBOLS
    ensures RawTotal(c, symbols[..i + 1]) == RawTotal(c, symbols[..i]) + RawLiability(c, symbols[i])
    ensures ScaledTotal(c, symbols[..i + 1]) ==
            ScaledTotal(c, symbols[..i]) + Rounded(RawLiability(c, symbols[i]), c.bet.max, c.bet.payUnit)
    ensures 0 < RawLiability(c, symbols[i]) && 0 <= Rounded(RawLiability(c, symbols[i]), c.bet.max, c.bet.payUnit)
    ensures RawTotal(c, symbols[..i + 1]) <= RawTotal(c, symbols)
    ensures ScaledTotal(c, symbols[..i + 1]) <= ScaledTotal(c, symbols)
    decreases |symbols| - i
  {
    assert symbols[..i + 1][..i] == symbols[..i];
    LiabilityPositive(c, symbols[i]);
    RoundedNonNegative(RawLiability(c, symbols[i]), c.bet.max, c.bet.payUnit);
    if i + 1 < |symbols| {
      LiabilityStep(c, symbols, i + 1);
    } else {
      assert symbols[..i + 1] == symbols;
    }
  }

  /** Vault and wheel liabilities on top of the scaled ways. */
  method CombineLiabilities(c: Config, scaled: int) returns (ok: bool)
    requires 0 <= scaled <= MAX_INT64 && 0 < c.bet.max <= MAX_INT64
    ensures ok <==>
            && c.bet.max * MaxVault(c) * MAX_VAULTS <= MAX_INT64
            && c.bet.max * MaxWheel(c.feature.wheel) <= MAX_INT64
            && scaled + c.bet.max * MaxVault(c) * MAX_VAULTS + c.bet.max * MaxWheel(c.feature.wheel) <= MAX_INT64
  {
    var vault := LargestVault(c);
    var wheel := LargestWheel(c.feature.wheel);
    ghost var perVault := c.bet.max * vault;
    assert perVault >= 0 && c.bet.max * wheel >= 0 by {
      MulMonotone(0, vault, c.bet.max);
      MulMonotone(0, wheel, c.bet.max);
    }
    var vaultLiability := SafeMul(c.bet.max, vault);
    if vaultLiability.Ok? {
      vaultLiability := SafeMul(vaultLiability.value, MAX_VAULTS);
    }
    var wheelLiability := SafeMul(c.bet.max, wheel);
    if vaultLiability.Err? || wheelLiability.Err? {
      return false;
    }
    var combined := SafeAdd(scaled, vaultLiability.value);
    if combined.Err? {
      return false;
    }
    combined := SafeAdd(combined.value, wheelLiability.value);
    return combined.Ok?;
  }

  /** The whole check accepts exactly the definitions whose awards all fit. */
  method CheckArithmeticBounds(c: Config) returns (ok: bool)
    requires PaysAll(c.paytable) && 0 < c.bet.payUnit && 0 < c.bet.max <= MAX_INT64
    ensures ok <==> ArithmeticBoundsOk(c)
  {
    LiabilitiesPositive(c);
    FeatureLiabilitiesNonNegative(c);
    var ways := SumLiabilities(c);
    if ways.Err? || ways.value.0 <= 0 || ways.value.1 <= 0 {
      return false;
    }
    ok := CombineLiabilities(c, ways.value.1);
  }

  lemma FeatureLiabilitiesNonNegative(c: Config)
    requires 0 < c.bet.max
    ensures c.bet.max * MaxVault(c) * MAX_VAULTS >= 0 && c.bet.max * MaxWheel(c.feature.wheel) >= 0
  {
    MulMonotone(0, MaxVault(c), c.bet.max);
    MulMonotone(0, MaxWheel(c.feature.wheel), c.bet.max);
  }

  lemma LiabilitiesPositive(c: Config)
    requires PaysAll(c.paytable) && 0 < c.bet.payUnit && 0 < c.bet.max
    ensures RawTotal(c, PAYING_SYMBOLS) > 0 && ScaledTotal(c, PAYING_SYMBOLS) > 0
  {
    LiabilityStep(c, PAYING_SYMBOLS, 0);
    RoundedPositive(RawLiability(c, PAYING_SYMBOLS[0]), c.bet.max, c.bet.payUnit);
  }

  // --- No later overflow ---

  /** Every Wild on the grid has a value of the definition's table. */
  predicate WildsFrom(grid: Grid, wilds: seq<Weighted<int>>) {
    forall reel, row :: 0 <= reel < |grid| && 0 <= row < |grid[reel]| && grid[reel][row].symbol == Wild ==>
      exists i :: 0 <= i < |wilds| && wilds[i].value == grid[reel][row].multiplier
  }

  lemma {:induction false} FactorSumBound(grid: Grid, wilds: seq<Weighted<int>>, rows: seq<int>)
    requires GridOk(grid) && WildsFrom(grid, wilds) && RowsOf(rows, grid[1])
    ensures 0 <= FactorSum(grid[1], rows) <= MaxWild(wilds) * |rows|
  {
    if rows != [] {
      var last := |rows| - 1;
      FactorSumBound(grid, wilds, rows[..last]);
      FactorsPositive(grid, 1, rows[last]);
      assert WildFactor(grid[1][rows[last]]) <= MaxWild(wilds);
      OneMore(MaxWild(wilds), last);
    }
  }

  lemma ProductBound(base: int, f: int, wild: int, n0: int, n1: int, n2: int)
    requires 0 <= base && 0 <= f <= wild * n1 && 0 <= wild && 0 <= n0 <= 8 && 0 <= n1 <= 8 && 0 <= n2 <= 8
    ensures base * f * n2 * n0 <= base * wild * MAX_WAYS
  {
    MulMonotone(n1, 8, wild);
    MulMonotone(f, wild * 8, base);
    assert base * (wild * 8) == base * wild * 8;
    var b := base * f;
    MulMonotone(0, f, base);
    MulMonotone(n2, 8, b);
    MulMonotone(0, n2, b);
    MulMonotone(n0, 8, b * n2);
  }

  /** One symbol never awards more than its liability. */
  lemma SymbolWithinLiability(c: Config, grid: Grid, symbol: Symbol)
    requires PaysAll(c.paytable) && symbol in PAYING_SYMBOLS && GridOk(grid) && WildsFrom(grid, c.wilds)
    ensures var win := SymbolWin(grid, c.paytable[symbol], symbol);
            win.Some? ==> 0 < win.value.amount <= RawLiability(c, symbol)
  {
    var base := c.paytable[symbol];
    var rows0, rows1, rows2 := MatchRows(grid[0], symbol), MatchRows(grid[1], symbol), MatchRows(grid[2], symbol);
    FactorSumBound(grid, c.wilds, rows1);
    PathsSum(grid, base, rows0, rows1, rows2);
    ProductBound(base, FactorSum(grid[1], rows1), MaxWild(c.wilds), |rows0|, |rows1|, |rows2|);
    SymbolWinRaw(grid, base, symbol);
  }

  /** Rounding is monotone in both the amount and the bet. */
  lemma RoundedMonotone(a: int, b: int, bet: int, top: int, unit: int)
    requires 0 < a <= b && 0 < bet <= top && unit > 0
    ensures Rounded(a, bet, unit) <= Rounded(b, top, unit)
    ensures a * bet <= b * top
  {
    MulMonotone(a, b, bet);
    MulMonotone(bet, top, b);
    NearestMonotone(a * bet, b * top, unit);
    RoundedPositive(b, top, unit);
  }

  lemma NearestMonotone(m: int, n: int, unit: int)
    requires 0 <= m <= n && unit > 0
    ensures m / unit <= n / unit
    ensures m / unit == n / unit ==> m % unit <= n % unit
  {
    assert m == (m / unit) * unit + m % unit && n == (n / unit) * unit + n % unit;
    assert (n / unit + 1) * unit == (n / unit) * unit + unit;
    CancelFactor(m / unit, n / unit + 1, unit);
  }

  predicate WithinLiability(c: Config, amount: int)
    requires PaysAll(c.paytable)
  {
    exists s :: s in PAYING_SYMBOLS && 0 < amount <= RawLiability(c, s)
  }

  /** What one more scaled win adds to the sums. */
  lemma SumsStep(wins: seq<Win>, win: Win, bet: int, unit: int)
    requires unit > 0
    ensures WinSum(wins + [win]) == WinSum(wins) + win.amount
    ensures WinSum(ScaledWins(wins + [win], bet, unit)) == WinSum(ScaledWins(wins, bet, unit)) + Rounded(win.amount, bet, unit)
  {
    assert (wins + [win])[..|wins|] == wins;
    assert ScaledWins(wins + [win], bet, unit)[..|wins|] == ScaledWins(wins, bet, unit);
  }

  /** The wins of any prefix of the symbols stay within the liabilities of that prefix. */
  lemma {:induction false} WinsWithinLiability(c: Config, grid: Grid, bet: int, symbols: seq<Symbol>)
    requires PaysAll(c.paytable) && 0 < c.bet.payUnit && 0 < bet <= c.bet.max && GridOk(grid) && WildsFrom(grid, c.wilds)
    requires forall s :: s in symbols ==> s in PAYING_SYMBOLS
    ensures WinSum(WinsOf(grid, c.paytable, 1, symbols)) <= RawTotal(c, symbols)
    ensures WinSum(ScaledWins(WinsOf(grid, c.paytable, 1, symbols), bet, c.bet.payUnit)) <= ScaledTotal(c, symbols)
    ensures forall win :: win in WinsOf(grid, c.paytable, 1, symbols) ==> WithinLiability(c, win.amount)
  {
    if symbols != [] {
      var last := |symbols| - 1;
      var symbol := symbols[last];
      WinsWithinLiability(c, grid, bet, symbols[..last]);
      SymbolWithinLiability(c, grid, symbol);
      LiabilityPositive(c, symbol);
      RoundedNonNegative(RawLiability(c, symbol), c.bet.max, c.bet.payUnit);
      var before := WinsOf(grid, c.paytable, 1, symbols[..last]);
      assert c.paytable[symbol] * 1 == c.paytable[symbol];
      var win := SymbolWin(grid, c.paytable[symbol], symbol);
      if win.Some? {
        RoundedMonotone(win.value.amount, RawLiability(c, symbol), bet, c.bet.max, c.bet.payUnit);
        SumsStep(before, win.value, bet, c.bet.payUnit);
        assert WithinLiability(c, win.value.amount);
      } else {
        assert before + [] == before;
      }
    }
  }

  /** Overflow is unreachable in ways: on any grid drawn from an accepted definition, at any legal bet. */
  lemma WaysNeverOverflow(c: Config, grid: Grid, bet: int)
    requires ArithmeticBoundsOk(c) && 0 < bet <= c.bet.max && GridOk(grid) && WildsFrom(grid, c.wilds)
    ensures WaysFit(grid, c.paytable, bet, c.bet.payUnit)
    ensures WinSum(WinsForBet(grid, c.paytable, bet, c.bet.payUnit)) <= ScaledTotal(c, PAYING_SYMBOLS)
  {
    WinsWithinLiability(c, grid, bet, PAYING_SYMBOLS);
    FeatureLiabilitiesNonNegative(c);
    var raw := WinsOf(grid, c.paytable, 1, PAYING_SYMBOLS);
    forall i | 0 <= i < |raw|
      ensures raw[i].amount * bet <= MAX_INT64
    {
      assert raw[i] in raw;
      var s :| s in PAYING_SYMBOLS && 0 < raw[i].amount <= RawLiability(c, s);
      RoundedMonotone(raw[i].amount, RawLiability(c, s), bet, c.bet.max, c.bet.payUnit);
    }
  }
}
