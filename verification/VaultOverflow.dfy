/** When a spin on accepted input can end because its Vault rewards are too heavy: exactly which definitions and modes. */
module VaultOverflow {
  import opened Money
  import opened Weights
  import opened GameTypes
  import opened Grids
  import opened GameConfig
  import opened SpinShape
  import opened FeatureStates
  import opened RawSpins
  import opened RandomPicks
  import opened GridDraws
  import opened VaultDraws
  import opened KingDraws
  import opened KingAwards
  import opened VaultSection
  import opened RageDrawing
  import opened RageSection
  import opened SpinSamples
  import opened Engine

  // --- Nothing else overflows ---

  /** A draw that fails only because the tape is exhausted. */
  predicate OnlyExhausted<T>(r: Result<T>) {
    r.Err? ==> r.fault == RandomFailed
  }

  lemma UpgradeFault(c: Config, from: int, tape: seq<nat>)
    ensures OnlyExhausted(UpgradeSample(c, from, tape).result)
  {
  }

  lemma {:induction false} TurnsFault(c: Config, positions: seq<Position>, step: int, multipliers: seq<int>, n: nat, tape: seq<nat>)
    requires n <= |positions| == |multipliers|
    ensures OnlyExhausted(TurnsTo(c, positions, step, multipliers, n, tape).result)
  {
    if n > 0 {
      TurnsFault(c, positions, step, multipliers, n - 1, tape);
      var before := TurnsTo(c, positions, step, multipliers, n - 1, tape);
      if before.result.Ok? {
        UpgradeFault(c, before.result.value.1[n - 1], before.rest);
      }
    }
  }

  lemma {:induction false} RoundsFault(c: Config, positions: seq<Position>, events: seq<Event>, multipliers: seq<int>, round: int,
                                       tape: seq<nat>)
    requires |positions| == |multipliers|
    ensures OnlyExhausted(RoundsFrom(c, positions, events, multipliers, round, tape).result)
    decreases c.feature.kingMaxRounds - round
  {
    if round <= c.feature.kingMaxRounds {
      var luck := ChanceSample(c.feature.kingUpgradeChance, tape);
      if luck.result == Ok(true) {
        TurnsFault(c, positions, round, multipliers, |positions|, luck.rest);
        var turns := TurnsTo(c, positions, round, multipliers, |positions|, luck.rest);
        if turns.result.Ok? && turns.result.value.0 != [] {
          var turned := turns.result.value;
          RoundsFault(c, positions, events + ([UpgradeStartedEvent(|turned.0|, round)] + turned.0), turned.1, round + 1, turns.rest);
        }
      }
    }
  }

  lemma {:induction false} RevealsFault(c: Config, n: nat, tape: seq<nat>)
    ensures OnlyExhausted(RevealsTo(c, n, tape).result)
  {
    if n > 0 {
      RevealsFault(c, n - 1, tape);
    }
  }

  lemma KingFault(c: Config, bet: int, positions: seq<Position>, tape: seq<nat>)
    ensures OnlyExhausted(KingSample(c, bet, positions, tape).result)
  {
    RevealsFault(c, |positions|, tape);
    var shown := RevealsTo(c, |positions|, tape);
    if shown.result.Ok? {
      var begun := [GroupEvent(VaultsLanded, positions), GroupEvent(VaultsUnlockStarted, positions)];
      var unlocked := begun + RevealEvents(positions, shown.result.value) + [GroupEvent(VaultsUnlockCompleted, positions)];
      RoundsFault(c, positions, unlocked, shown.result.value, 1, shown.rest);
    }
  }

  lemma {:induction false} ShuffleFault(candidates: seq<Position>, n: nat, tape: seq<nat>)
    requires n <= |candidates|
    ensures OnlyExhausted(ShuffledTo(candidates, n, tape).result)
  {
    if n > 0 {
      ShuffleFault(candidates, n - 1, tape);
    }
  }

  lemma EndFault(c: Config, f: FeatureState, grid: Grid, tape: seq<nat>)
    requires GridOk(grid)
    ensures var surges := PositionsFor(grid, Surge);
            EndSample(c, f, grid, tape).result == Err(RageMeterFull) <==>
              !f.Active() && MeterFull(f, |surges|) && TriggerSample(c, |surges|, tape).result.Ok?
    ensures EndSample(c, f, grid, tape).result.Err? ==> EndSample(c, f, grid, tape).result.fault in {RageMeterFull, RandomFailed, InvalidTransform}
  {
    var surges := PositionsFor(grid, Surge);
    var trigger := TriggerSample(c, |surges|, tape);
    var listed, count := PositionsExcept(grid, Surge), 3 - |surges|;
    if 0 <= count <= |listed| {
      ShuffleFault(listed, count, trigger.rest);
    }
  }

  // --- The rewards overflow exactly when they are too heavy ---

  predicate VaultFaultOnly<T>(r: Result<T>) {
    r.Err? ==> r.fault == RandomFailed || r.fault == WeightsOverflow
  }

  lemma HeavyTable(c: Config, mode: FeatureMode)
    requires Drawable(c.vaults)
    ensures Total(VaultRewards(c.vaults, c.feature.vaultFreeSpinWeight, mode == Expansion)) > MAX_INT64 <==> RewardsTooHeavy(c, mode)
  {
  }

  lemma {:induction false} OpeningFault(c: Config, mode: FeatureMode, bet: int, positions: seq<Position>, begun: seq<Event>,
                                        start: FeatureState, n: nat, tape: seq<nat>)
    requires n <= |positions| && Drawable(c.vaults)
    ensures OpeningTo(c, mode, bet, positions, begun, start, n, tape).result == Err(WeightsOverflow) <==>
              n > 0 && RewardsTooHeavy(c, mode)
    ensures VaultFaultOnly(OpeningTo(c, mode, bet, positions, begun, start, n, tape).result)
  {
    if n > 0 {
      OpeningFault(c, mode, bet, positions, begun, start, n - 1, tape);
      var before := OpeningTo(c, mode, bet, positions, begun, start, n - 1, tape);
      if before.result.Ok? {
        OpenedFault(c, mode, bet, before.result.value.1.awarded, before.rest);
      }
    }
  }

  lemma OpenedFault(c: Config, mode: FeatureMode, bet: int, awarded: int, tape: seq<nat>)
    requires Drawable(c.vaults)
    ensures OpenedSample(c, mode, bet, awarded, tape).result == Err(WeightsOverflow) <==> RewardsTooHeavy(c, mode)
    ensures VaultFaultOnly(OpenedSample(c, mode, bet, awarded, tape).result)
  {
    HeavyTable(c, mode);
  }

  lemma UnlockFault(c: Config, mode: FeatureMode, bet: int, positions: seq<Position>, next: FeatureState, tape: seq<nat>)
    requires Drawable(c.vaults)
    ensures UnlockSample(c, mode, bet, positions, next, tape).result == Err(WeightsOverflow) <==> RewardsTooHeavy(c, mode) && positions != []
    ensures VaultFaultOnly(UnlockSample(c, mode, bet, positions, next, tape).result)
  {
    OpeningFault(c, mode, bet, positions, [GroupEvent(VaultsLanded, positions), GroupEvent(VaultsUnlockStarted, positions)], next,
                 |positions|, tape);
  }

  lemma VaultFault(c: Config, mode: FeatureMode, bet: int, positions: seq<Position>, next: FeatureState, tape: seq<nat>)
    requires Drawable(c.vaults)
    ensures VaultSample(c, mode, bet, positions, next, tape).result == Err(WeightsOverflow) <==>
              RewardsTooHeavy(c, mode) && positions != [] && Unlocks(c, tape)
    ensures VaultFaultOnly(VaultSample(c, mode, bet, positions, next, tape).result)
  {
    KingFault(c, bet, positions, tape);
    UnlockFault(c, mode, bet, positions, next, ChanceSample(c.feature.vaultUnlockChance, tape).rest);
  }

  // --- A failing spin needs a Vault, an unlock and heavy rewards ---

  /** The middle reel can yield a Vault. */
  predicate VaultsLand(c: Config)
    requires |c.reels| == 3
  {
    Drawn(c.reels[1], Vault)
  }

  lemma VaultWasDrawn(c: Config, mode: FeatureMode, grid: Grid)
    requires GridTablesOk(c) && DrawnGrid(c, mode, grid) && PositionsFor(grid, Vault) != []
    ensures VaultsLand(c)
  {
    PositionsExact(grid, Vault);
    var p := PositionsFor(grid, Vault)[0];
    assert p in PositionsFor(grid, Vault);
    assert DrawnReel(c, mode, p.reel, grid[p.reel]);
    assert DrawnCell(c, mode, p.reel, grid[p.reel][p.row]) && ReelOk(c.reels[p.reel], p.reel);
  }

  lemma RowsWithin(c: Config, f: FeatureState, tape: seq<nat>)
    requires FeatureOk(c.feature)
    ensures match RowsSample(c, f, tape).result
            case Err(fault) => fault == RandomFailed
            case Ok(rows) => 3 <= rows <= 8
  {
    SampledValue(c.feature.expansionRows, tape);
  }

  lemma OverflowNeeds(c: Config, input: SpinInput, tape: seq<nat>)
    requires Accepted(c, input) && SpinSample(c, input, tape).result == Err(WeightsOverflow)
    ensures RewardsTooHeavy(c, input.feature.mode) && VaultsLand(c) && c.feature.vaultUnlockChance > 0
  {
    var mode := input.feature.mode;
    var rows := RowsSample(c, input.feature, tape);
    RowsWithin(c, input.feature, tape);
    var drawn := ReelsTo(c, mode, rows.result.value, 3, rows.rest);
    ReelsDrawn(c, mode, rows.result.value, rows.rest);
    var grid := drawn.result.value.0;
    var vault := VaultSample(c, mode, input.bet, PositionsFor(grid, Vault), StartState(input.feature), drawn.rest);
    VaultFault(c, mode, input.bet, PositionsFor(grid, Vault), StartState(input.feature), drawn.rest);
    DrawnGridOk(c, mode, grid);
    if vault.result.Ok? {
      EndFault(c, input.feature, grid, vault.rest);
    }
    VaultWasDrawn(c, mode, grid);
  }

  // --- A tape on which the spin fails ---

  function Repeated<T>(x: T, n: nat): (s: seq<T>)
    ensures |s| == n && forall i :: 0 <= i < n ==> s[i] == x
  {
    seq(n, _ => x)
  }

  /** What a draw selects for every cell of a reel in free spins. */
  function CellOf(c: Config, reel: int, draw: nat): Cell
    requires GridTablesOk(c) && 0 <= reel < 3 && Drawable(Without(c.reels[reel], Surge))
  {
    var items := Without(c.reels[reel], Surge);
    Cell(items[Selected(items, draw % Total(items))].value, 0, NoPrize)
  }

  /** Equal draws fill a reel with equal cells, one draw a cell. */
  lemma {:induction false} EqualCells(c: Config, reel: int, settled: int, n: nat, draw: nat, tape: seq<nat>)
    requires GridTablesOk(c) && 0 <= reel < 3 && Drawable(Without(c.reels[reel], Surge))
    requires CellOf(c, reel, draw).symbol != Wild && CellOf(c, reel, draw).symbol != Surge
    requires n <= |tape| && forall i :: 0 <= i < n ==> tape[i] == draw
    ensures CellsTo(c, Expansion, reel, settled, n, tape) == Sample(Ok((Repeated(CellOf(c, reel, draw), n), settled)), tape[n..])
  {
    if n > 0 {
      EqualCells(c, reel, settled, n - 1, draw, tape);
      var cells := Repeated(CellOf(c, reel, draw), n - 1);
      NextCell(c, Expansion, reel, settled, n - 1, tape, cells, settled, tape[n - 1..]);
      assert tape[n - 1..][0] == draw && tape[n - 1..][1..] == tape[n..];
      assert CellSample(c, Expansion, reel, settled, tape[n - 1..]) == Sample(Ok(CellOf(c, reel, draw)), tape[n..]);
      assert Repeated(CellOf(c, reel, draw), n) == cells + [CellOf(c, reel, draw)];
    }
  }

  /** An entry that holds a Vault, in the middle reel without Surge. */
  lemma VaultEntry(c: Config) returns (i: nat)
    requires GridTablesOk(c) && VaultsLand(c)
    ensures var items := Without(c.reels[1], Surge);
            Drawable(items) && i < |items| && items[i].value == Vault
  {
    var items := Without(c.reels[1], Surge);
    WithoutSurge(c.reels[1], 1);
    var k :| 0 <= k < |c.reels[1]| && c.reels[1][k].value == Vault;
    WithoutKeeps(c.reels[1], Surge, c.reels[1][k]);
    assert c.reels[1][k] in items;
    i :| 0 <= i < |items| && items[i] == c.reels[1][k];
  }

  lemma OuterCell(c: Config, reel: int)
    requires GridTablesOk(c) && reel in {0, 2}
    ensures Drawable(Without(c.reels[reel], Surge))
    ensures CellOf(c, reel, 0).symbol != Wild && CellOf(c, reel, 0).symbol != Surge
  {
    var items := Without(c.reels[reel], Surge);
    WithoutSurge(c.reels[reel], reel);
    var i := Selected(items, 0);
    assert Drawn(items, items[i].value);
    assert ReelOk(c.reels[reel], reel);
  }

  lemma SmallModulo(d: nat, n: int)
    requires d < n
    ensures d % n == d
  {
  }

  lemma EntryDrawn(items: seq<Weighted<Symbol>>, i: nat) returns (draw: nat)
    requires AllPositive(items) && i < |items|
    ensures draw < Total(items) && Selected(items, draw % Total(items)) == i
  {
    StartWithin(items, i);
    draw := Start(items, i);
    SmallModulo(draw, Total(items));
    SelectedInterval(items, draw, i);
  }

  /** A draw for which the middle reel yields a Vault. */
  lemma VaultDraw(c: Config) returns (draw: nat)
    requires GridTablesOk(c) && VaultsLand(c)
    ensures Drawable(Without(c.reels[1], Surge)) && CellOf(c, 1, draw).symbol == Vault
  {
    var i := VaultEntry(c);
    draw := EntryDrawn(Without(c.reels[1], Surge), i);
  }

  /** A run of equal draws, and what comes after it. */
  lemma EqualReel(c: Config, reel: int, rows: nat, draw: nat, after: seq<nat>)
    requires GridTablesOk(c) && 0 <= reel < 3 && Drawable(Without(c.reels[reel], Surge))
    requires CellOf(c, reel, draw).symbol != Wild && CellOf(c, reel, draw).symbol != Surge
    ensures CellsTo(c, Expansion, reel, 0, rows, Repeated(draw, rows) + after) ==
            Sample(Ok((Repeated(CellOf(c, reel, draw), rows), 0)), after)
  {
    var tape := Repeated(draw, rows) + after;
    EqualCells(c, reel, 0, rows, draw, tape);
    assert tape[rows..] == after;
  }

  /** The tape of such a grid. */
  function GridTape(rows: nat, vault: nat, after: seq<nat>): seq<nat> {
    Repeated(0, rows) + (Repeated(vault, rows) + (Repeated(0, rows) + after))
  }

  function EqualGrid(c: Config, rows: nat, vault: nat): Grid
    requires GridTablesOk(c) && forall reel :: 0 <= reel < 3 ==> Drawable(Without(c.reels[reel], Surge))
  {
    [Repeated(CellOf(c, 0, 0), rows), Repeated(CellOf(c, 1, vault), rows), Repeated(CellOf(c, 2, 0), rows)]
  }

  /** One more reel of equal cells. */
  lemma ReelAdded(c: Config, rows: nat, n: nat, tape: seq<nat>, reels: Grid, draw: nat, after: seq<nat>)
    requires GridTablesOk(c) && n < 3 && Drawable(Without(c.reels[n], Surge))
    requires CellOf(c, n, draw).symbol != Wild && CellOf(c, n, draw).symbol != Surge
    requires ReelsTo(c, Expansion, rows, n, tape) == Sample(Ok((reels, 0)), Repeated(draw, rows) + after)
    ensures ReelsTo(c, Expansion, rows, n + 1, tape) == Sample(Ok((reels + [Repeated(CellOf(c, n, draw), rows)], 0)), after)
  {
    EqualReel(c, n, rows, draw, after);
    NextReel(c, Expansion, rows, n, tape, reels, 0, Repeated(draw, rows) + after);
  }

  lemma GridIsDrawn(c: Config, rows: nat, vault: nat, after: seq<nat>, n: nat)
    requires GridTablesOk(c) && (forall reel :: 0 <= reel < 3 ==> Drawable(Without(c.reels[reel], Surge)))
    requires CellOf(c, 1, vault).symbol == Vault && n == 0
    ensures ReelsTo(c, Expansion, rows, n + 3, GridTape(rows, vault, after)) == Sample(Ok((EqualGrid(c, rows, vault), 0)), after)
  {
    OuterCell(c, n);
    OuterCell(c, n + 2);
    var tape := GridTape(rows, vault, after);
    var a, b := Repeated(CellOf(c, n, 0), rows), Repeated(CellOf(c, n + 1, vault), rows);
    ReelAdded(c, rows, n, tape, [], 0, Repeated(vault, rows) + (Repeated(0, rows) + after));
    ReelAdded(c, rows, n + 1, tape, [] + [a], vault, Repeated(0, rows) + after);
    ReelAdded(c, rows, n + 2, tape, [] + [a] + [b], 0, after);
    assert [] + [a] + [b] + [Repeated(CellOf(c, n + 2, 0), rows)] == EqualGrid(c, rows, vault);
  }

  lemma GridHasVault(c: Config, rows: nat, vault: nat)
    requires GridTablesOk(c) && (forall reel :: 0 <= reel < 3 ==> Drawable(Without(c.reels[reel], Surge)))
    requires CellOf(c, 1, vault).symbol == Vault && rows > 0
    ensures PositionsFor(EqualGrid(c, rows, vault), Vault) != []
  {
    var grid := EqualGrid(c, rows, vault);
    PositionsExact(grid, Vault);
    assert OnGrid(grid, Position(1, 0)) && grid[1][0].symbol == Vault;
    assert Position(1, 0) in PositionsFor(grid, Vault);
  }

  lemma UnlocksOnZero(c: Config)
    requires c.feature.vaultUnlockChance > 0
    ensures Unlocks(c, [0])
  {
    assert 0 % 10_000 == 0;
  }

  /** A failing tape: zeros for the height and the outer reels, Vault draws for the middle one, and one more for the unlock. */
  function FailingTape(rows: nat, vault: nat): seq<nat> {
    [0] + GridTape(rows, vault, [0])
  }

  lemma SpinFails(c: Config, input: SpinInput, rows: nat, vault: nat)
    requires Accepted(c, input) && RewardsTooHeavy(c, input.feature.mode) && c.feature.vaultUnlockChance > 0
    requires RowsSample(c, input.feature, FailingTape(rows, vault)) == Sample(Ok(rows), GridTape(rows, vault, [0])) && rows > 0
    requires GridTablesOk(c) && (forall reel :: 0 <= reel < 3 ==> Drawable(Without(c.reels[reel], Surge)))
    requires CellOf(c, 1, vault).symbol == Vault
    ensures SpinSample(c, input, FailingTape(rows, vault)).result == Err(WeightsOverflow)
  {
    GridIsDrawn(c, rows, vault, [0], 0);
    GridHasVault(c, rows, vault);
    UnlocksOnZero(c);
    VaultFault(c, Expansion, input.bet, PositionsFor(EqualGrid(c, rows, vault), Vault), StartState(input.feature), [0]);
  }

  lemma OverflowReached(c: Config, input: SpinInput) returns (tape: seq<nat>)
    requires Accepted(c, input) && RewardsTooHeavy(c, input.feature.mode) && VaultsLand(c) && c.feature.vaultUnlockChance > 0
    ensures SpinSample(c, input, tape).result == Err(WeightsOverflow)
  {
    var vault := VaultDraw(c);
    RowsWithin(c, input.feature, [0]);
    var rows := RowsSample(c, input.feature, [0]).result.value;
    tape := FailingTape(rows, vault);
    FirstDraw(c, input.feature, GridTape(rows, vault, [0]));
    forall reel | 0 <= reel < 3
      ensures Drawable(Without(c.reels[reel], Surge))
    {
      WithoutSurge(c.reels[reel], reel);
    }
    SpinFails(c, input, rows, vault);
  }

  /** An Expansion spin takes one draw for its height. */
  lemma FirstDraw(c: Config, f: FeatureState, after: seq<nat>)
    requires f.Active() && f.mode == Expansion && Drawable(c.feature.expansionRows)
    ensures RowsSample(c, f, [0] + after) == Sample(RowsSample(c, f, [0]).result, after)
  {
    assert ([0] + after)[1..] == after;
  }

  /** Exactly when an accepted input can meet the overflow: its mode draws free spins from Vaults, their weight and the
      money weights together leave the machine integer, the middle reel can yield a Vault, and Vaults can unlock. */
  lemma OverflowExactly(c: Config, input: SpinInput)
    requires Accepted(c, input)
    ensures (exists tape :: SpinSample(c, input, tape).result == Err(WeightsOverflow)) <==>
              RewardsTooHeavy(c, input.feature.mode) && VaultsLand(c) && c.feature.vaultUnlockChance > 0
  {
    if tape :| SpinSample(c, input, tape).result == Err(WeightsOverflow) {
      OverflowNeeds(c, input, tape);
    }
    if RewardsTooHeavy(c, input.feature.mode) && VaultsLand(c) && c.feature.vaultUnlockChance > 0 {
      var tape := OverflowReached(c, input);
    }
  }

  // --- The other failure of an accepted spin ---

  /** The grid and the Vaults of a base spin are drawn without failure. */
  predicate BaseDrawn(c: Config, input: SpinInput, tape: seq<nat>)
    requires |c.reels| == 3
  {
    var drawn := ReelsTo(c, input.feature.mode, 3, 3, tape);
    && !input.feature.Active() && drawn.result.Ok?
    && VaultSample(c, input.feature.mode, input.bet, PositionsFor(drawn.result.value.0, Vault), StartState(input.feature), drawn.rest).result.Ok?
  }

  /** The Surge symbols that a base spin credits, and whether their trigger can be drawn. */
  predicate Overfilled(c: Config, input: SpinInput, tape: seq<nat>)
    requires |c.reels| == 3 && BaseDrawn(c, input, tape)
  {
    var f := input.feature;
    var drawn := ReelsTo(c, f.mode, 3, 3, tape);
    var grid := drawn.result.value.0;
    var vault := VaultSample(c, f.mode, input.bet, PositionsFor(grid, Vault), StartState(f), drawn.rest);
    var count := |PositionsFor(grid, Surge)|;
    MeterFull(f, count) && TriggerSample(c, count, vault.rest).result.Ok?
  }

  lemma MeterAfterGrid(c: Config, input: SpinInput, grid: Grid, tape: seq<nat>)
    requires Accepted(c, input) && GridOk(grid)
    ensures var f, count := input.feature, |PositionsFor(grid, Surge)|;
            var vault := VaultSample(c, f.mode, input.bet, PositionsFor(grid, Vault), StartState(f), tape);
            ResolveSample(c, input, grid, tape).result == Err(RageMeterFull) <==>
              !f.Active() && vault.result.Ok? && MeterFull(f, count) && TriggerSample(c, count, vault.rest).result.Ok?
  {
    var f := input.feature;
    VaultFault(c, f.mode, input.bet, PositionsFor(grid, Vault), StartState(f), tape);
    var vault := VaultSample(c, f.mode, input.bet, PositionsFor(grid, Vault), StartState(f), tape);
    EndFault(c, f, grid, vault.rest);
  }

  /** A spin ends at the Rage meter exactly when it draws one or two Surge symbols that the meter has no room for. */
  lemma MeterFullExactly(c: Config, input: SpinInput, tape: seq<nat>)
    requires Accepted(c, input)
    ensures SpinSample(c, input, tape).result == Err(RageMeterFull) <==>
              BaseDrawn(c, input, tape) && Overfilled(c, input, tape)
  {
    var f := input.feature;
    var rows := RowsSample(c, f, tape);
    RowsWithin(c, f, tape);
    if rows.result.Ok? {
      ReelsDrawn(c, f.mode, rows.result.value, rows.rest);
      var drawn := ReelsTo(c, f.mode, rows.result.value, 3, rows.rest);
      if drawn.result.Ok? {
        DrawnGridOk(c, f.mode, drawn.result.value.0);
        MeterAfterGrid(c, input, drawn.result.value.0, drawn.rest);
      }
    }
  }
}
