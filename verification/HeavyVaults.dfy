/** A definition that is accepted although none of its Expansion spins can succeed. */
module HeavyVaults {
  import opened Money
  import opened Weights
  import opened GameTypes
  import opened Grids
  import opened Ways
  import opened WaysScaling
  import opened GameConfig
  import ConfigChecks
  import opened RawSpins
  import opened RandomPicks
  import opened GridDraws
  import opened VaultDraws
  import opened SpinSamples
  import opened Engine
  import opened VaultOverflow

  const REEL: seq<Weighted<Symbol>> := [Weighted(Orbit, 1)]
  const MIDDLE: seq<Weighted<Symbol>> := [Weighted(Vault, 1)]
  const ONES: seq<Weighted<int>> := [Weighted(1, 1)]
  const ROWS: seq<Weighted<int>> :=
    [Weighted(3, 1), Weighted(4, 1), Weighted(5, 1), Weighted(6, 1), Weighted(7, 1), Weighted(8, 1)]

  const PAYS: map<Symbol, int> := map[Orbit := 1, Prism := 1, Pulse := 1, Nova := 1, Circuit := 1, Tank := 1]

  const FEATURE: FeatureConfig := FeatureConfig(
    0, 0, INITIAL_FREE_SPINS, INITIAL_FREE_SPINS, 10_000, MAX_INT64, 0, 0, 0, ROWS, [0],
    [Weighted(WheelPrize(ExpansionWheel, 0), 1)])

  /** One coin a spin; the free-spin weight alone is the largest machine integer. */
  const HEAVY: Config := Config(
    MAX_WIN_MULTIPLIER, BetConfig(1, 1, 1, 1, 1, [1]), [REEL, MIDDLE, REEL], PAYS, ONES, ONES, ONES, FEATURE)

  lemma OneEntry<T>(w: Weighted<T>)
    ensures Total([w]) == w.weight
  {
    assert [w][1..] == [];
  }

  lemma RowsTotal()
    ensures Total(ROWS) == 6
  {
    assert Total(ROWS[5..]) == 1 by { assert ROWS[5..][1..] == []; }
    assert Total(ROWS[4..]) == 2 by { assert ROWS[4..][1..] == ROWS[5..]; }
    assert Total(ROWS[3..]) == 3 by { assert ROWS[3..][1..] == ROWS[4..]; }
    assert Total(ROWS[2..]) == 4 by { assert ROWS[2..][1..] == ROWS[3..]; }
    assert Total(ROWS[1..]) == 5 by { assert ROWS[1..][1..] == ROWS[2..]; }
  }

  lemma ReelsFine()
    ensures ReelOk(REEL, 0) && ReelOk(MIDDLE, 1) && ReelOk(REEL, 2)
  {
    OneEntry(REEL[0]);
    OneEntry(MIDDLE[0]);
    assert Without(REEL, Surge) == REEL by { assert REEL[1..] == []; }
    assert Without(MIDDLE, Surge) == MIDDLE by { assert MIDDLE[1..] == []; }
  }

  lemma FeatureFine()
    ensures FeatureOk(FEATURE)
  {
    RowsTotal();
    OneEntry(FEATURE.wheel[0]);
  }

  lemma OnesFine()
    ensures WeightedIntsOk(ONES) && Drawable(ONES) && Total(ONES) == 1
    ensures MaxWild(ONES) == 1 && MaxOf(ONES, false) == 1 && MaxOf(ONES, true) == 1
  {
    OneEntry(ONES[0]);
    assert ONES[..0] == [];
  }

  lemma OneLiability(symbol: Symbol)
    requires symbol in PAYING_SYMBOLS
    ensures RawLiability(HEAVY, symbol) == 512 && Rounded(512, 1, 1) == 512
  {
    OnesFine();
  }

  lemma {:induction false} Liabilities(symbols: seq<Symbol>)
    requires forall s :: s in symbols ==> s in PAYING_SYMBOLS
    ensures RawTotal(HEAVY, symbols) == 512 * |symbols| == ScaledTotal(HEAVY, symbols)
  {
    if symbols != [] {
      Liabilities(symbols[..|symbols| - 1]);
      OneLiability(symbols[|symbols| - 1]);
    }
  }

  lemma BoundsFine()
    ensures ArithmeticBoundsOk(HEAVY)
  {
    OnesFine();
    Liabilities(PAYING_SYMBOLS);
    forall s | s in PAYING_SYMBOLS
      ensures RawLiability(HEAVY, s) == 512
    {
      OneLiability(s);
    }
    assert FEATURE.wheel[..0] == [];
    assert MaxWheel(FEATURE.wheel) == 0;
  }

  /** The definition is accepted, although the rewards of its Expansion spins outweigh the machine integer. */
  lemma AcceptedButTooHeavy()
    ensures ConfigOk(HEAVY) && RewardsTooHeavy(HEAVY, Expansion)
  {
    ReelsFine();
    TablesFine();
    FeatureFine();
    BoundsFine();
    ConfigChecks.ConfigParts(HEAVY);
  }

  lemma TablesFine()
    ensures ConfigChecks.TablesOk(HEAVY) && RewardsTooHeavy(HEAVY, Expansion)
  {
    OnesFine();
  }

  /** The last of eight Expansion spins at one coin. */
  const LAST_SPIN: SpinInput := SpinInput(1, FeatureState(Expansion, 1, 8, 1, 0, DEFAULT_RAGE_LEVEL, 0))

  lemma LastSpinAccepted()
    ensures Accepted(HEAVY, LAST_SPIN)
  {
    AcceptedButTooHeavy();
  }

  lemma OnlyVaults()
    ensures GridTablesOk(HEAVY) && Without(MIDDLE, Surge) == MIDDLE && Without(REEL, Surge) == REEL
    ensures forall reel :: 0 <= reel < 3 ==> Drawable(Without(HEAVY.reels[reel], Surge))
    ensures CellOf(HEAVY, 1, 0).symbol == Vault
  {
    ReelsFine();
    OnesFine();
    OneEntry(REEL[0]);
    OneEntry(MIDDLE[0]);
    assert Without(REEL, Surge) == REEL by { assert REEL[1..] == []; }
    assert Without(MIDDLE, Surge) == MIDDLE by { assert MIDDLE[1..] == []; }
    assert Selected(MIDDLE, 0) == 0;
  }

  lemma LowestHeight(after: seq<nat>)
    ensures RowsSample(HEAVY, LAST_SPIN.feature, [0] + after) == Sample(Ok(3), after)
  {
    RowsTotal();
    assert ([0] + after)[1..] == after;
    assert Selected(ROWS, 0) == 0;
  }

  /** The failing input: this spin draws its grid, unlocks its Vaults and ends in the overflow. */
  method HeavySpin() returns (r: Result<Outcome>)
    ensures r == Err(WeightsOverflow)
  {
    LastSpinAccepted();
    AcceptedButTooHeavy();
    OnlyVaults();
    LowestHeight(GridTape(3, 0, [0]));
    SpinFails(HEAVY, LAST_SPIN, 3, 0);
    var random := new RandomSource(FailingTape(3, 0));
    var engine := new GameEngine(HEAVY, random);
    r := engine.Spin(false, LAST_SPIN);
  }

  /** Every Expansion spin of this definition fails, whatever is drawn: no tape yields an outcome. */
  lemma NoExpansionSpin(input: SpinInput, tape: seq<nat>)
    requires Accepted(HEAVY, input) && input.feature.mode == Expansion
    ensures SpinSample(HEAVY, input, tape).result.Err?
  {
    AcceptedButTooHeavy();
    OnlyVaults();
    var rows := RowsSample(HEAVY, input.feature, tape);
    RowsWithin(HEAVY, input.feature, tape);
    if rows.result.Ok? {
      ReelsDrawn(HEAVY, Expansion, rows.result.value, rows.rest);
      var drawn := ReelsTo(HEAVY, Expansion, rows.result.value, 3, rows.rest);
      if drawn.result.Ok? {
        MiddleIsVaults(drawn.result.value.0);
        VaultFault(HEAVY, Expansion, input.bet, PositionsFor(drawn.result.value.0, Vault), StartState(input.feature), drawn.rest);
      }
    }
  }

  lemma MiddleIsVaults(grid: Grid)
    requires DrawnGrid(HEAVY, Expansion, grid) && |grid[1]| >= 3
    ensures PositionsFor(grid, Vault) != []
  {
    PositionsExact(grid, Vault);
    assert DrawnReel(HEAVY, Expansion, 1, grid[1]);
    assert DrawnCell(HEAVY, Expansion, 1, grid[1][0]);
    assert OnGrid(grid, Position(1, 0));
    assert Position(1, 0) in PositionsFor(grid, Vault);
  }
}
