/** The Vault section of a spin, whichever way its Vaults go. */
module VaultSection {
  import opened Money
  import opened Weights
  import opened GameTypes
  import opened Grids
  import opened GameConfig
  import opened WinCap
  import opened OutcomeRules
  import opened SpinShape
  import opened RandomPicks
  import opened GridBuffers
  import opened VaultWrites
  import opened VaultDraws
  import opened KingDraws
  import opened KingAwards

  /** No Vault shows anything yet. */
  ghost predicate Unresolved(grid: Grid) {
    forall p :: OnGrid(grid, p) && grid[p.reel][p.row].symbol == Vault ==> grid[p.reel][p.row] == Cell(Vault, 0, NoPrize)
  }

  lemma LockedSection(grid: Grid, positions: seq<Position>)
    requires Unresolved(grid) && positions == PositionsFor(grid, Vault)
    ensures LockedShape(grid, positions, [GroupEvent(VaultsLanded, positions), GroupEvent(VaultsLocked, positions)])
  {
    PositionsExact(grid, Vault);
  }

  lemma QuietTally(c: Config, mode: FeatureMode, bet: int, start: FeatureState, ve: seq<Event>)
    requires Quiet(ve) && 0 <= bet * MaxVault(c) * MAX_VAULTS
    ensures Tally(c, mode, bet, start, start, ve, 0, MAX_VAULTS)
  {
    QuietSums(ve, |ve|);
  }

  lemma TallyWithin(c: Config, mode: FeatureMode, bet: int, start: FeatureState, next: FeatureState, ve: seq<Event>,
                    total: int, k: nat)
    requires VaultTablesOk(c, bet) && k <= MAX_VAULTS && Tally(c, mode, bet, start, next, ve, total, k)
    ensures Tally(c, mode, bet, start, next, ve, total, MAX_VAULTS)
  {
    TotalFits(c, bet, k);
  }

  /** Whether the Vaults unlock on this tape. */
  predicate Unlocks(c: Config, tape: seq<nat>) {
    ChanceSample(c.feature.vaultUnlockChance, tape).result == Ok(true)
  }

  /** Vaults outside King Spin, as the tape has them. */
  function OpenOrLockedSample(c: Config, mode: FeatureMode, bet: int, positions: seq<Position>, next: FeatureState, tape: seq<nat>)
    : Sample<(seq<Event>, FeatureState)>
  {
    var luck := ChanceSample(c.feature.vaultUnlockChance, tape);
    match luck.result
    case Err(fault) => Sample(Err(fault), luck.rest)
    case Ok(true) => UnlockSample(c, mode, bet, positions, next, luck.rest)
    case Ok(false) =>
      Sample(Ok(([GroupEvent(VaultsLanded, positions), GroupEvent(VaultsLocked, positions)], next)), luck.rest)
  }

  /** The Vault section of a spin, as the tape has it. */
  function VaultSample(c: Config, mode: FeatureMode, bet: int, positions: seq<Position>, next: FeatureState, tape: seq<nat>)
    : Sample<(seq<Event>, FeatureState)>
  {
    if positions == [] then Sample(Ok(([], next)), tape)
    else if mode == Overdrive then
      var king := KingSample(c, bet, positions, tape);
      match king.result
      case Err(fault) => Sample(Err(fault), king.rest)
      case Ok(events) => Sample(Ok((events, next)), king.rest)
    else OpenOrLockedSample(c, mode, bet, positions, next, tape)
  }

  /** Vaults outside King Spin: locked, or opened one by one. */
  method ResolveOpenOrLocked(rng: RandomSource, c: Config, mode: FeatureMode, bet: int, grid: array2<Cell>,
                             positions: seq<Position>, next: FeatureState)
    returns (r: Result<(seq<Event>, int, FeatureState)>)
    requires VaultTablesOk(c, bet) && grid.Length0 == 3 && GridOk(GridOf(grid)) && Unresolved(GridOf(grid))
    requires positions == PositionsFor(GridOf(grid), Vault) && Distinct(positions) && |positions| <= MAX_VAULTS
    modifies rng, grid
    ensures r.Ok? ==> Rewarded(old(GridOf(grid)), GridOf(grid))
    ensures r.Ok? ==> LockedShape(GridOf(grid), positions, r.value.0) || OpenedShape(mode, bet, GridOf(grid), positions, r.value.0)
    ensures r.Ok? ==> Tally(c, mode, bet, next, r.value.2, r.value.0, r.value.1, MAX_VAULTS)
    ensures SameVaults(r, rng.tape, OpenOrLockedSample(c, mode, bet, positions, next, old(rng.tape)))
    ensures r.Err? ==> r.fault == WeightsOverflow || (r.fault == RandomFailed && rng.tape == [])
    ensures r == Err(WeightsOverflow) <==> RewardsTooHeavy(c, mode) && positions != [] && Unlocks(c, old(rng.tape))
  {
    var chance := Chance(rng, c.feature.vaultUnlockChance);
    match chance
    case Err(fault) => return Err(fault);
    case Ok(luck) =>
      if luck {
        r := OpenVaults(rng, c, mode, bet, grid, positions, next);
      } else {
        var events := [GroupEvent(VaultsLanded, positions), GroupEvent(VaultsLocked, positions)];
        LockedSection(GridOf(grid), positions);
        TotalFits(c, bet, MAX_VAULTS);
        QuietTally(c, mode, bet, next, events);
        return Ok((events, 0, next));
      }
  }

  /** The Vaults of a spin. The grid keeps its symbols; events, grid and counters tell one story. */
  method ResolveVaults(rng: RandomSource, c: Config, mode: FeatureMode, bet: int, grid: array2<Cell>, next: FeatureState)
    returns (r: Result<(seq<Event>, int, FeatureState)>)
    requires KingTablesOk(c, bet) && grid.Length0 == 3 && GridOk(GridOf(grid)) && Unresolved(GridOf(grid))
    modifies rng, grid
    ensures r.Ok? ==> Rewarded(old(GridOf(grid)), GridOf(grid)) && VaultShape(mode, bet, GridOf(grid), r.value.0)
    ensures r.Ok? ==> Tally(c, mode, bet, next, r.value.2, r.value.0, r.value.1, MAX_VAULTS)
    ensures SameVaults(r, rng.tape, VaultSample(c, mode, bet, PositionsFor(old(GridOf(grid)), Vault), next, old(rng.tape)))
    ensures r.Err? ==> r.fault == WeightsOverflow || (r.fault == RandomFailed && rng.tape == [])
    ensures r == Err(WeightsOverflow) <==>
              RewardsTooHeavy(c, mode) && PositionsFor(old(GridOf(grid)), Vault) != [] && Unlocks(c, old(rng.tape))
  {
    ghost var before := GridOf(grid);
    var positions := PositionsOf(GridOf(grid), Vault);
    TotalFits(c, bet, MAX_VAULTS);
    if |positions| == 0 {
      QuietTally(c, mode, bet, next, []);
      return Ok(([], 0, next));
    }
    PositionsExact(before, Vault);
    VaultsInMiddle(before);
    if mode == Overdrive {
      var king := ResolveKingVaults(rng, c, bet, grid, positions, next);
      match king
      case Err(fault) => return Err(fault);
      case Ok(value) =>
        PositionsOfSymbols(before, GridOf(grid), Vault);
        TallyWithin(c, mode, bet, next, next, value.0, value.1, |positions|);
        return Ok((value.0, value.1, next));
    }
    r := ResolveOpenOrLocked(rng, c, mode, bet, grid, positions, next);
    if r.Ok? {
      PositionsOfSymbols(before, GridOf(grid), Vault);
    }
  }
}
