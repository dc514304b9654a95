/** What the engine has built when a spin's draws are done, before the win cap. */
module RawSpins {
  import opened Money
  import opened Weights
  import opened GameTypes
  import opened Grids
  import opened Ways
  import opened WaysForBet
  import opened GameConfig
  import opened ArithmeticBounds
  import opened WinCap
  import opened OutcomeRules
  import opened SpinShape
  import opened FeatureStates

  /** The draws behind the Rage section. */
  datatype RageDraws = RageDraws(triggered: bool, cells: seq<Position>, wheel: WheelPrize)

  /** The state with which a spin starts to count. */
  function StartState(f: FeatureState): FeatureState {
    if f.Active() then f.(remaining := f.remaining - 1) else f.WithoutFreeSpins()
  }

  /** The free spins that the Vaults added. */
  predicate VaultStep(c: Config, f: FeatureState, vault: seq<Event>, after: FeatureState) {
    var extra, start := FreeSpinsAwarded(vault, |vault|), StartState(f);
    && 0 <= extra
    && after == start.(remaining := start.remaining + extra, awarded := start.awarded + extra)
    && (extra > 0 ==> f.Active() && f.mode == Expansion && after.awarded <= c.feature.maxExpansionSpins)
  }

  /** The Rage meter after a base spin. */
  function MeterAfter(c: Config, f: FeatureState, surges: int, triggered: bool): (int, int) {
    if surges == 3 then (f.rageLevel, f.rageCollected)
    else if triggered then (DEFAULT_RAGE_LEVEL, 0)
    else (RageLevelFor(f.rageCollected + surges, c.feature.rageThresholds), f.rageCollected + surges)
  }

  predicate RageStep(c: Config, bet: int, f: FeatureState, grid: Grid, draws: RageDraws, rage: seq<Event>,
                     before: FeatureState, after: FeatureState) {
    var surges := PositionsFor(grid, Surge);
    if f.Active() || surges == [] then rage == [] && after == before && (f.Active() ==> surges == [])
    else
      var meter := MeterAfter(c, f, |surges|, draws.triggered);
      && |surges| <= 3
      && (|surges| < 3 ==> f.rageCollected + |surges| <= MAX_RAGE_COLLECTED)
      && (|surges| == 3 ==> draws.triggered)
      && rage == RageEvents(bet, surges, draws.triggered, meter.0, meter.1, draws.cells, draws.wheel)
      && (draws.triggered ==> WheelEntryOk(draws.wheel) && (|surges| < 3 ==> TransformedOk(grid, surges, draws.cells)))
      && after == if draws.triggered && draws.wheel.kind != Instant
                  then FeatureState(ModeOf(draws.wheel.kind), INITIAL_FREE_SPINS, INITIAL_FREE_SPINS, bet, 0, meter.0, meter.1)
                  else before.(rageLevel := meter.0, rageCollected := meter.1)
  }

  /** The cells turned into Rage: distinct, on the grid, none settled, and enough to make three. */
  predicate TransformedOk(grid: Grid, surges: seq<Position>, cells: seq<Position>) {
    && |cells| == 3 - |surges| && Distinct(cells)
    && forall i :: 0 <= i < |cells| ==> OnGrid(grid, cells[i]) && cells[i] !in surges
  }

  predicate RawSpin(c: Config, input: SpinInput, raw: Outcome, pre: seq<Event>, vault: seq<Event>, rage: seq<Event>,
                    draws: RageDraws, middle: FeatureState) {
    var f := input.feature;
    && ConfigOk(c) && BetOk(c, input.bet) && FeatureStateOk(c, input.bet, f) && f == f.Canonical()
    && GridOk(raw.grid) && WildsFrom(raw.grid, c.wilds)
    && raw.wins == WinsForBet(raw.grid, c.paytable, input.bet, c.bet.payUnit)
    && PreShape(f.mode, |raw.grid[0]|, pre)
    && VaultShape(f.mode, input.bet, raw.grid, vault)
    && VaultStep(c, f, vault, middle)
    && RageStep(c, input.bet, f, raw.grid, draws, rage, middle, raw.next)
    && raw.events == pre + vault + rage
    && raw.total == WinSum(raw.wins) + EventSum(raw.events)
    && raw.total <= MAX_INT64
  }
}
