/** A spin, from its random draws to its validated outcome. */
module Engine {
  import opened Money
  import opened Weights
  import opened GameTypes
  import opened Grids
  import opened Ways
  import opened WaysForBet
  import opened GameConfig
  import opened ArithmeticBounds
  import opened WinCap
  import opened OutcomeRules
  import opened SpinShape
  import opened FeatureStates
  import opened RawSpins
  import opened Completeness
  import opened CapAccepted
  import opened SpinAccepted
  import opened EngineCompleteness
  import opened RandomPicks
  import opened GridBuffers
  import opened GridDraws
  import opened VaultWrites
  import opened VaultDraws
  import opened KingDraws
  import opened VaultSection
  import opened RageDrawing
  import opened RageSection
  import opened OutcomeChecks
  import opened SpinSamples
  import ConfigChecks

  // --- What an accepted definition guarantees at a legal bet ---

  lemma TablesOk(c: Config, bet: int)
    requires ConfigOk(c) && 0 < bet <= c.bet.max
    ensures GridTablesOk(c) && KingTablesOk(c, bet) && WheelTablesOk(c, bet)
    ensures Drawable(c.feature.expansionRows)
  {
    MulMonotone(bet, c.bet.max, MaxVault(c));
    MulMonotone(bet * MaxVault(c), c.bet.max * MaxVault(c), MAX_VAULTS);
    MulMonotone(bet, c.bet.max, MaxWheel(c.feature.wheel));
  }

  /** Ways, Vaults and wheel of one spin fit together. */
  lemma TotalsFit(c: Config, bet: int, ways: int, vaults: int)
    requires ConfigOk(c) && 0 < bet <= c.bet.max
    requires 0 <= ways <= ScaledTotal(c, PAYING_SYMBOLS) && 0 <= vaults <= bet * MaxVault(c) * MAX_VAULTS
    ensures 0 <= bet * MaxWheel(c.feature.wheel) && ways + vaults + bet * MaxWheel(c.feature.wheel) <= MAX_INT64
  {
    MulMonotone(bet, c.bet.max, MaxVault(c));
    MulMonotone(bet * MaxVault(c), c.bet.max * MaxVault(c), MAX_VAULTS);
    MulMonotone(bet, c.bet.max, MaxWheel(c.feature.wheel));
    MulMonotone(0, MaxWheel(c.feature.wheel), bet);
  }

  /** The failures a spin on accepted input can end with. */
  predicate SpinFault(c: Config, f: FeatureState, fault: Fault, exhausted: bool) {
    || (fault == RandomFailed && exhausted)
    || (fault == WeightsOverflow && RewardsTooHeavy(c, f.mode))
    || (fault == RageMeterFull && !f.Active() && f.rageCollected > MAX_RAGE_COLLECTED - 2)
  }

  /** An accepted spin: definition, bet and canonical state. */
  predicate Accepted(c: Config, input: SpinInput) {
    && ConfigOk(c) && BetOk(c, input.bet) && FeatureStateOk(c, input.bet, input.feature)
    && input.feature == input.feature.Canonical()
  }

  /** The rows of the grid, drawn for an Expansion spin. */
  method DrawRows(rng: RandomSource, c: Config, f: FeatureState) returns (r: Result<(int, seq<Event>)>)
    requires ConfigOk(c) && (f.mode == Expansion ==> f.Active())
    modifies rng
    ensures var s := RowsSample(c, f, old(rng.tape));
            rng.tape == s.rest && s.result == match r case Err(fault) => Err(fault) case Ok(rows) => Ok(rows.0)
    ensures r.Ok? ==> 3 <= r.value.0 <= 8 && PreShape(f.mode, r.value.0, r.value.1)
    ensures r.Err? ==> r.fault == RandomFailed && rng.tape == []
  {
    if !f.Active() || f.mode != Expansion {
      return Ok((3, []));
    }
    var rows := DrawValue(rng, c.feature.expansionRows);
    match rows
    case Err(fault) => return Err(fault);
    case Ok(n) =>
      assert Drawn(c.feature.expansionRows, n);
      return Ok((n, [ExpandedEvent(n)]));
  }

  /** What the grid phase hands on: a legal unresolved grid, its wins, and their total. */
  predicate GridPhase(c: Config, input: SpinInput, grid: Grid, wins: seq<Win>, ways: int) {
    && GridOk(grid) && WildsFrom(grid, c.wilds)
    && 0 < c.bet.payUnit && PaysAll(c.paytable)
    && wins == WinsForBet(grid, c.paytable, input.bet, c.bet.payUnit)
    && 0 <= ways == WinSum(wins) <= ScaledTotal(c, PAYING_SYMBOLS)
    && (input.feature.Active() ==> PositionsFor(grid, Surge) == [])
    && |PositionsFor(grid, Surge)| <= 3
  }

  /** The grid a method drew beside what the tape holds. */
  predicate DrewReels(s: Sample<(Grid, int)>, grid: Result<Grid>, rest: seq<nat>) {
    rest == s.rest && grid == match s.result case Err(fault) => Err(fault) case Ok(reels) => Ok(reels.0)
  }

  method DrawGrid(rng: RandomSource, c: Config, input: SpinInput, rows: int)
    returns (r: Result<(array2<Cell>, seq<Win>, int)>)
    requires Accepted(c, input) && 3 <= rows <= 8
    modifies rng
    ensures r.Ok? ==> fresh(r.value.0) && r.value.0.Length0 == 3 && r.value.0.Length1 == rows
    ensures DrewReels(ReelsTo(c, input.feature.mode, rows, 3, old(rng.tape)),
                      if r.Ok? then Ok(GridOf(r.value.0)) else Err(r.fault), rng.tape)
    ensures r.Ok? ==> GridPhase(c, input, GridOf(r.value.0), r.value.1, r.value.2) && Unresolved(GridOf(r.value.0))
    ensures r.Err? ==> r.fault == RandomFailed && rng.tape == []
  {
    BetsLegal(c, input);
    TablesOk(c, input.bet);
    var drawn := GenerateGrid(rng, c, rows, input.feature.mode);
    match drawn
    case Err(fault) => return Err(fault);
    case Ok(grid) =>
      var wins, ways := AwardWays(c, input, GridOf(grid));
      return Ok((grid, wins, ways));
  }

  lemma DrawnReady(c: Config, mode: FeatureMode, grid: Grid)
    requires ConfigOk(c) && DrawnGrid(c, mode, grid) && 3 <= |grid[0]| <= 8
    requires forall reel :: 0 <= reel < 3 ==> |grid[reel]| == |grid[0]|
    ensures GridOk(grid) && WildsFrom(grid, c.wilds) && Unresolved(grid)
    ensures (mode in {Expansion, Overdrive} ==> PositionsFor(grid, Surge) == []) && (mode == Base ==> |PositionsFor(grid, Surge)| <= 3)
  {
    DrawnGridOk(c, mode, grid);
  }

  /** No award on a legal grid with Wilds of the table can overflow. */
  lemma AmountsReady(c: Config, bet: int, grid: Grid)
    requires ConfigOk(c) && 0 < bet <= c.bet.max && GridOk(grid) && WildsFrom(grid, c.wilds)
    ensures PaysAll(c.paytable) && 0 < c.bet.payUnit && WaysFit(grid, c.paytable, bet, c.bet.payUnit)
    ensures WinSum(WinsForBet(grid, c.paytable, bet, c.bet.payUnit)) <= ScaledTotal(c, PAYING_SYMBOLS)
  {
    WaysNeverOverflow(c, grid, bet);
  }

  /** The ways awards of a drawn grid; none of them can overflow. */
  method AwardWays(c: Config, input: SpinInput, grid: Grid) returns (wins: seq<Win>, ways: int)
    requires Accepted(c, input) && DrawnGrid(c, input.feature.mode, grid) && 3 <= |grid[0]| <= 8
    requires forall reel :: 0 <= reel < 3 ==> |grid[reel]| == |grid[0]|
    ensures GridPhase(c, input, grid, wins, ways) && Unresolved(grid)
  {
    wins, ways := [], 0;
    BetsLegal(c, input);
    DrawnReady(c, input.feature.mode, grid);
    AmountsReady(c, input.bet, grid);
    wins, ways := AwardGrid(c, input.bet, grid);
  }

  /** The evaluation of a grid on which nothing overflows. */
  method AwardGrid(c: Config, bet: int, grid: Grid) returns (wins: seq<Win>, ways: int)
    requires 0 < bet && 0 < c.bet.payUnit && PaysAll(c.paytable) && GridOk(grid) && WaysFit(grid, c.paytable, bet, c.bet.payUnit)
    ensures wins == WinsForBet(grid, c.paytable, bet, c.bet.payUnit) && 0 <= ways == WinSum(wins)
  {
    wins, ways := [], 0;
    var evaluated := EvaluateWaysForBet(grid, c.paytable, bet, c.bet.payUnit);
    match evaluated
    case Err(_) => assert false;
    case Ok(value) => return value.0, value.1;
  }

  /** Vault rewards leave the grid phase as it was. */
  lemma GridPhaseKept(c: Config, input: SpinInput, before: Grid, after: Grid, wins: seq<Win>, ways: int)
    requires GridPhase(c, input, before, wins, ways) && Rewarded(before, after)
    ensures GridPhase(c, input, after, wins, ways)
  {
    RewardedWilds(before, after, c.wilds);
    WinsIgnoreVaultRewards(before, after, c.paytable, input.bet, c.bet.payUnit);
    PositionsOfSymbols(before, after, Surge);
  }

  /** The Vault phase as the completeness theorem reads it. */
  lemma VaultPhase(c: Config, input: SpinInput, vault: seq<Event>, amount: int, after: FeatureState)
    requires Accepted(c, input)
    requires Tally(c, input.feature.mode, input.bet, StartState(input.feature), after, vault, amount, MAX_VAULTS)
    ensures VaultStep(c, input.feature, vault, after)
    ensures 0 <= amount == EventSum(vault) <= input.bet * MaxVault(c) * MAX_VAULTS
    ensures !input.feature.Active() ==> after == input.feature.WithoutFreeSpins()
  {
  }

  lemma RawAssembled(c: Config, input: SpinInput, raw: Outcome, pre: seq<Event>, vault: seq<Event>, rage: seq<Event>,
                     draws: RageDraws, middle: FeatureState, ways: int, amount: int, total: int)
    requires Accepted(c, input) && GridPhase(c, input, raw.grid, raw.wins, ways)
    requires PreShape(input.feature.mode, |raw.grid[0]|, pre) && VaultShape(input.feature.mode, input.bet, raw.grid, vault)
    requires VaultStep(c, input.feature, vault, middle) && amount == EventSum(vault)
    requires RageStep(c, input.bet, input.feature, raw.grid, draws, rage, middle, raw.next)
    requires raw.events == pre + vault + rage && raw.total == total == ways + amount + EventSum(rage) <= MAX_INT64
    ensures RawSpin(c, input, raw, pre, vault, rage, draws, middle)
  {
    SumsAppend(pre, vault);
    SumsAppend(pre + vault, rage);
    OneSum(ExpandedEvent(|raw.grid[0]|));
  }

  /** What the draws of a spin build, or why they fail, beside what the tape holds. */
  predicate Built(c: Config, input: SpinInput, s: Sample<SpinDraws>, r: Result<Outcome>, pre: seq<Event>, vault: seq<Event>,
                  rage: seq<Event>, draws: RageDraws, middle: FeatureState, rest: seq<nat>) {
    && SpunFrom(s, r, vault, middle, draws, rest)
    && match r
       case Ok(raw) => RawSpin(c, input, raw, pre, vault, rage, draws, middle)
       case Err(fault) => SpinFault(c, input.feature, fault, rest == [])
  }

  /** All draws of a spin, and what they build before the win cap. */
  method DrawSpin(rng: RandomSource, c: Config, input: SpinInput)
    returns (r: Result<Outcome>, ghost pre: seq<Event>, ghost vault: seq<Event>, ghost rage: seq<Event>,
             ghost draws: RageDraws, ghost middle: FeatureState)
    requires Accepted(c, input)
    modifies rng
    ensures Built(c, input, SpinSample(c, input, old(rng.tape)), r, pre, vault, rage, draws, middle, rng.tape)
  {
    var f := input.feature;
    pre, vault, rage, draws, middle := [], [], [], RageDraws(false, [], WheelPrize(NoWheel, 0)), f;
    BetsLegal(c, input);
    TablesOk(c, input.bet);
    var rows := DrawRows(rng, c, f);
    match rows
    case Err(fault) => r := Err(fault);
    case Ok(height) =>
      pre := height.1;
      r, vault, rage, draws, middle := DrawOn(rng, c, input, height.0, height.1);
  }

  /** The draws of a spin once the height of its grid is known. */
  method DrawOn(rng: RandomSource, c: Config, input: SpinInput, rows: int, begun: seq<Event>)
    returns (r: Result<Outcome>, ghost vault: seq<Event>, ghost rage: seq<Event>, ghost draws: RageDraws, ghost middle: FeatureState)
    requires Accepted(c, input) && 3 <= rows <= 8 && PreShape(input.feature.mode, rows, begun)
    modifies rng
    ensures Built(c, input, GridSample(c, input, rows, old(rng.tape)), r, begun, vault, rage, draws, middle, rng.tape)
  {
    vault, rage, draws, middle := [], [], RageDraws(false, [], WheelPrize(NoWheel, 0)), input.feature;
    var drawn := DrawGrid(rng, c, input, rows);
    match drawn
    case Err(fault) => r := Err(fault);
    case Ok(phase) =>
      r, vault, rage, draws, middle := Resolve(rng, c, input, begun, phase.0, phase.1, phase.2);
  }

  /** The Vaults, resolved into the grid, with the running total. */
  method ResolveInto(rng: RandomSource, c: Config, input: SpinInput, grid: array2<Cell>, ghost wins: seq<Win>, ways: int)
    returns (r: Result<(seq<Event>, int, FeatureState)>, total: int)
    requires Accepted(c, input) && grid.Length0 == 3
    requires GridPhase(c, input, GridOf(grid), wins, ways) && Unresolved(GridOf(grid))
    modifies rng, grid
    ensures r.Ok? ==> GridPhase(c, input, GridOf(grid), wins, ways) && Rewarded(old(GridOf(grid)), GridOf(grid))
    ensures SameVaults(r, rng.tape, VaultSample(c, input.feature.mode, input.bet, PositionsFor(old(GridOf(grid)), Vault),
                                                StartState(input.feature), old(rng.tape)))
    ensures r.Ok? ==> VaultShape(input.feature.mode, input.bet, GridOf(grid), r.value.0)
    ensures r.Ok? ==> VaultStep(c, input.feature, r.value.0, r.value.2) && r.value.1 == EventSum(r.value.0)
    ensures r.Ok? ==> 0 <= total == ways + r.value.1 && total + input.bet * MaxWheel(c.feature.wheel) <= MAX_INT64
    ensures r.Ok? && !input.feature.Active() ==> r.value.2 == input.feature.WithoutFreeSpins()
    ensures r.Err? ==> SpinFault(c, input.feature, r.fault, rng.tape == [])
  {
    total := 0;
    BetsLegal(c, input);
    TablesOk(c, input.bet);
    ghost var before := GridOf(grid);
    r := ResolveVaults(rng, c, input.feature.mode, input.bet, grid, StartState(input.feature));
    if r.Ok? {
      GridPhaseKept(c, input, before, GridOf(grid), wins, ways);
      VaultPhase(c, input, r.value.0, r.value.1, r.value.2);
      TotalsFit(c, input.bet, ways, r.value.1);
      var sum := SafeAdd(ways, r.value.1);
      if sum.Err? {
        assert false;
      }
      total := sum.value;
    }
  }

  /** The rest of a spin once its Vaults are resolved: Rage and the wheel belong to the base game. */
  method FinishDraws(rng: RandomSource, c: Config, input: SpinInput, begun: seq<Event>, grid: Grid, wins: seq<Win>,
                     ghost ways: int, vault: seq<Event>, ghost amount: int, middle: FeatureState, total: int)
    returns (r: Result<Outcome>, ghost rage: seq<Event>, ghost draws: RageDraws)
    requires Accepted(c, input) && GridPhase(c, input, grid, wins, ways)
    requires PreShape(input.feature.mode, |grid[0]|, begun) && VaultShape(input.feature.mode, input.bet, grid, vault)
    requires VaultStep(c, input.feature, vault, middle) && amount == EventSum(vault)
    requires 0 <= total == ways + amount && total + input.bet * MaxWheel(c.feature.wheel) <= MAX_INT64
    requires 0 <= input.bet * MaxWheel(c.feature.wheel) && WheelTablesOk(c, input.bet)
    requires !input.feature.Active() ==> middle == input.feature.WithoutFreeSpins()
    modifies rng
    ensures r.Ok? ==> RawSpin(c, input, r.value, begun, vault, rage, draws, middle) && r.value.grid == grid
    ensures var s := EndSample(c, input.feature, grid, old(rng.tape));
            rng.tape == s.rest && s.result == match r case Err(fault) => Err(fault) case Ok(_) => Ok(draws)
    ensures r.Err? ==> SpinFault(c, input.feature, r.fault, rng.tape == [])
  {
    var f := input.feature;
    rage, draws := [], RageDraws(false, [], WheelPrize(NoWheel, 0));
    if f.Active() {
      var raw := Outcome(grid, wins, begun + vault + [], total, middle);
      RawAssembled(c, input, raw, begun, vault, [], draws, middle, ways, amount, total);
      return Ok(raw), [], draws;
    }
    var settled, made := SettleRage(rng, c, input.bet, f, grid, total);
    match settled
    case Err(fault) => return Err(fault), [], made;
    case Ok(last) =>
      var raw := Outcome(grid, wins, begun + vault + last.0, last.1, last.2);
      RawAssembled(c, input, raw, begun, vault, last.0, made, middle, ways, amount, last.1);
      return Ok(raw), last.0, made;
  }

  /** The phases after the grid. */
  method Resolve(rng: RandomSource, c: Config, input: SpinInput, begun: seq<Event>, grid: array2<Cell>, wins: seq<Win>,
                 ways: int)
    returns (r: Result<Outcome>, ghost vault: seq<Event>, ghost rage: seq<Event>, ghost draws: RageDraws,
             ghost middle: FeatureState)
    requires Accepted(c, input) && grid.Length0 == 3
    requires GridPhase(c, input, GridOf(grid), wins, ways) && Unresolved(GridOf(grid))
    requires PreShape(input.feature.mode, grid.Length1, begun)
    modifies rng, grid
    ensures Built(c, input, ResolveSample(c, input, old(GridOf(grid)), old(rng.tape)), r, begun, vault, rage, draws, middle,
                  rng.tape)
  {
    ghost var before := GridOf(grid);
    vault, rage, draws, middle := [], [], RageDraws(false, [], WheelPrize(NoWheel, 0)), input.feature;
    var resolved, total := ResolveInto(rng, c, input, grid, wins, ways);
    match resolved
    case Err(fault) => r := Err(fault);
    case Ok(value) =>
      vault, middle := value.0, value.2;
      BetsLegal(c, input);
      TablesOk(c, input.bet);
      WheelBound(c, input.bet);
      EndOfSymbols(c, input.feature, before, GridOf(grid), rng.tape);
      r, rage, draws := FinishDraws(rng, c, input, begun, GridOf(grid), wins, ways, value.0, value.1, value.2, total);
  }

  // --- The spin ---

  /** What a spin may return: the capped projection of something its draws can build. */
  ghost predicate SpinStep(c: Config, input: SpinInput, o: Outcome) {
    exists raw: Outcome, pre: seq<Event>, vault: seq<Event>, rage: seq<Event>, draws: RageDraws, middle: FeatureState ::
      RawSpin(c, input, raw, pre, vault, rage, draws, middle) && o == Capped(c, input, raw)
  }

  /** What a spin returns on given draws: the capped projection of what they build. */
  ghost predicate SpunStep(c: Config, input: SpinInput, draws: SpinDraws, o: Outcome) {
    exists raw: Outcome, pre: seq<Event>, rage: seq<Event> ::
      && RawSpin(c, input, raw, pre, draws.vault, rage, draws.rage, draws.middle)
      && Rewarded(draws.grid, raw.grid) && o == Capped(c, input, raw)
  }

  /** The result of a spin beside what the tape holds. */
  ghost predicate SpinIs(c: Config, input: SpinInput, s: Sample<SpinDraws>, r: Result<Outcome>) {
    match s.result
    case Err(fault) => r == Err(fault)
    case Ok(draws) => r.Ok? && SpunStep(c, input, draws, r.value)
  }

  lemma CanonicalCap(input: SpinInput, same: SpinInput, o: Outcome)
    requires same.bet == input.bet && PriorWin(same) == PriorWin(input)
    ensures WinCapEventOk(same, o) == WinCapEventOk(input, o)
  {
  }

  lemma CanonicalAwards(c: Config, input: SpinInput, same: SpinInput, o: Outcome, wins: seq<Win>)
    requires same.bet == input.bet && PriorWin(same) == PriorWin(input)
    ensures CappedAwardsOk(c, same, o, wins) == CappedAwardsOk(c, input, o, wins)
  {
    assert Budget(c, same) == Budget(c, input) && GameCap(c, same) == GameCap(c, input);
  }

  lemma CanonicalStructure(input: SpinInput, same: SpinInput, o: Outcome)
    requires same.bet == input.bet && same.feature.Canonical() == input.feature.Canonical()
    requires WinCapEventOk(same, o) == WinCapEventOk(input, o)
    ensures StructureOk(same, o) == StructureOk(input, o)
  {
  }

  /** The validator looks only at the canonical state. */
  lemma CanonicalInput(c: Config, input: SpinInput, o: Outcome)
    requires c.bet.step != 0 && c.bet.payUnit > 0 && PaysAll(c.paytable)
    ensures var same := SpinInput(input.bet, input.feature.Canonical());
            OutcomeOk(c, same, o) == OutcomeOk(c, input, o)
  {
    var same := SpinInput(input.bet, input.feature.Canonical());
    CanonicalTwice(input.feature);
    CanonicalCap(input, same, o);
    CanonicalStructure(input, same, o);
    if |o.grid| == 3 {
      CanonicalAwards(c, input, same, o, WinsForBet(o.grid, c.paytable, input.bet, c.bet.payUnit));
    }
  }

  lemma MoneyReady(c: Config, input: SpinInput, raw: Outcome, pre: seq<Event>, vault: seq<Event>, rage: seq<Event>,
                   draws: RageDraws, middle: FeatureState)
    requires RawSpin(c, input, raw, pre, vault, rage, draws, middle)
    ensures AwardsNonNegative(raw.wins) && EventsNonNegative(raw.events) && 0 <= raw.total
    ensures 0 <= input.bet && 0 <= c.maxWin && GameCap(c, input) <= MAX_INT64 && 0 <= PriorWin(input) <= GameCap(c, input)
  {
    RawReady(c, input, raw, pre, vault, rage, draws, middle);
    BudgetsNonNegative(c, input, raw);
  }

  /** A game engine: an accepted definition and a source of randomness. */
  class GameEngine {
    const config: Config
    const random: RandomSource

    constructor (config: Config, random: RandomSource)
      requires ConfigOk(config)
      ensures this.config == config && this.random == random
    {
      this.config := config;
      this.random := random;
    }

    /** The cap and the check of a drawn spin: neither can fail. */
    method Settle(input: SpinInput, raw: Outcome, ghost pre: seq<Event>, ghost vault: seq<Event>, ghost rage: seq<Event>,
                  ghost draws: RageDraws, ghost middle: FeatureState)
      returns (r: Result<Outcome>)
      requires RawSpin(config, input, raw, pre, vault, rage, draws, middle)
      ensures r == Ok(Capped(config, input, raw))
      ensures OutcomeOk(config, input, r.value) && FeatureStateOk(config, input.bet, r.value.next)
    {
      MoneyReady(config, input, raw, pre, vault, rage, draws, middle);
      var record := new SpinRecord(raw);
      var capped := record.ApplyWinCap(config, input);
      if capped.Err? {
        assert false;
      }
      RawSpinIsValid(config, input, raw, pre, vault, rage, draws, middle);
      var outcome := record.Value();
      var valid := ValidateOutcome(config, input, outcome);
      if !valid {
        return Err(InvalidOutcome);
      }
      return Ok(outcome);
    }

    /** A spin fails only for a cancelled context, refused input, an exhausted source, a full Rage meter, or Vault
        rewards too heavy for the machine integer; otherwise its outcome is valid and its next state is accepted. On an
        accepted input the result is a function of the tape, failures included. */
    method Spin(cancelled: bool, input: SpinInput) returns (r: Result<Outcome>)
      requires ConfigOk(config)
      modifies random
      ensures cancelled ==> r == Err(Cancelled)
      ensures !cancelled && !BetOk(config, input.bet) ==> r == Err(InvalidBet)
      ensures !cancelled && BetOk(config, input.bet) && !FeatureStateOk(config, input.bet, input.feature) ==>
                r == Err(InvalidFeature)
      ensures !cancelled && BetOk(config, input.bet) && FeatureStateOk(config, input.bet, input.feature) ==>
                var accepted := SpinInput(input.bet, input.feature.Canonical());
                var s := SpinSample(config, accepted, old(random.tape));
                random.tape == s.rest && SpinIs(config, accepted, s, r)
      ensures r.Ok? ==> OutcomeOk(config, input, r.value) && FeatureStateOk(config, input.bet, r.value.next)
      ensures r.Ok? ==> SpinStep(config, SpinInput(input.bet, input.feature.Canonical()), r.value)
      ensures r.Err? && !cancelled && BetOk(config, input.bet) && FeatureStateOk(config, input.bet, input.feature) ==>
                SpinFault(config, input.feature.Canonical(), r.fault, random.tape == [])
    {
      if cancelled {
        return Err(Cancelled);
      }
      if !BetOk(config, input.bet) {
        return Err(InvalidBet);
      }
      if !FeatureStateOk(config, input.bet, input.feature) {
        return Err(InvalidFeature);
      }
      CanonicalTwice(input.feature);
      var accepted := SpinInput(input.bet, input.feature.Canonical());
      var raw, pre, vault, rage, draws, middle := DrawSpin(random, config, accepted);
      match raw
      case Err(fault) => return Err(fault);
      case Ok(drawn) =>
        r := Settle(accepted, drawn, pre, vault, rage, draws, middle);
        CanonicalInput(config, input, r.value);
    }
  }

  /** An engine exists exactly for accepted definitions. */
  method NewEngine(config: Config, random: RandomSource) returns (engine: Option<GameEngine>)
    ensures engine.Some? <==> ConfigOk(config)
    ensures engine.Some? ==> engine.value.config == config && engine.value.random == random && fresh(engine.value)
  {
    var accepted := ConfigChecks.CheckConfig(config);
    if !accepted {
      return None;
    }
    var made := new GameEngine(config, random);
    return Some(made);
  }
}
