/** Opening the Vaults of a base or Expansion spin. */
module VaultDraws {
  import opened Money
  import opened Weights
  import opened GameTypes
  import opened Grids
  import opened Ways
  import opened WaysEnumeration
  import opened GameConfig
  import opened WinCap
  import opened OutcomeRules
  import opened SpinShape
  import opened RandomPicks
  import opened GridBuffers
  import opened VaultWrites

  /** The tables and bounds behind Vault rewards. */
  predicate VaultTablesOk(c: Config, bet: int) {
    && Drawable(c.vaults) && 0 <= c.feature.vaultFreeSpinWeight && 0 < bet
    && (forall i :: 0 <= i < |c.vaults| ==> IsBaseVaultMultiplier(c.vaults[i].value))
    && bet * MaxVault(c) * MAX_VAULTS <= MAX_INT64
  }

  /** The reward table of an Expansion spin is too heavy for the machine integer: the definition check misses this. */
  predicate RewardsTooHeavy(c: Config, mode: FeatureMode) {
    mode == Expansion && Total(c.vaults) + c.feature.vaultFreeSpinWeight > MAX_INT64
  }

  lemma {:induction false} RewardMultiplier(multipliers: seq<Weighted<int>>, weight: int, free: bool, i: nat)
    requires i < |VaultRewards(multipliers, weight, free)|
    ensures var reward := VaultRewards(multipliers, weight, free)[i].value;
            && (reward.MoneyReward? ==> exists j :: 0 <= j < |multipliers| && multipliers[j].value == reward.multiplier)
            && (reward.FreeSpinReward? ==> free)
  {
    if multipliers != [] && i > 0 {
      RewardMultiplier(multipliers[1..], weight, free, i - 1);
      var reward := VaultRewards(multipliers, weight, free)[i].value;
      if reward.MoneyReward? {
        var j :| 0 <= j < |multipliers[1..]| && multipliers[1..][j].value == reward.multiplier;
        assert multipliers[j + 1].value == reward.multiplier;
      }
    }
  }

  predicate RewardOk(c: Config, mode: FeatureMode, reward: VaultReward) {
    match reward
    case MoneyReward(m) => IsBaseVaultMultiplier(m) && m <= MaxVault(c)
    case FreeSpinReward => mode == Expansion
  }

  lemma VaultWithin(c: Config, m: int, j: nat)
    requires j < |c.vaults| && c.vaults[j].value == m
    ensures m <= MaxVault(c)
  {
  }

  /** A Vault's content as the tape has it. A table too heavy for the machine integer is refused before any draw. */
  function RewardSample(c: Config, mode: FeatureMode, tape: seq<nat>): Sample<VaultReward> {
    var table := VaultRewards(c.vaults, c.feature.vaultFreeSpinWeight, mode == Expansion);
    if Total(table) > MAX_INT64 then Sample(Err(WeightsOverflow), tape) else ValueSample(table, tape)
  }

  method DrawReward(rng: RandomSource, c: Config, mode: FeatureMode, bet: int) returns (r: Result<VaultReward>)
    requires VaultTablesOk(c, bet)
    modifies rng
    ensures Sample(r, rng.tape) == RewardSample(c, mode, old(rng.tape))
    ensures r.Ok? ==> RewardOk(c, mode, r.value)
    ensures r.Err? ==> (r.fault == RandomFailed && rng.tape == []) || r.fault == WeightsOverflow
    ensures r == Err(WeightsOverflow) <==> RewardsTooHeavy(c, mode)
  {
    ghost var tape := rng.tape;
    ghost var table := VaultRewards(c.vaults, c.feature.vaultFreeSpinWeight, mode == Expansion);
    r := PickVaultReward(rng, c.vaults, c.feature.vaultFreeSpinWeight, mode == Expansion);
    if |tape| == 0 {
      assert tape == [];
    }
    if r.Ok? {
      var i := Selected(table, tape[0] % Total(table));
      RewardMultiplier(c.vaults, c.feature.vaultFreeSpinWeight, mode == Expansion, i);
      if r.value.MoneyReward? {
        var j :| 0 <= j < |c.vaults| && c.vaults[j].value == r.value.multiplier;
        VaultWithin(c, r.value.multiplier, j);
      }
    }
  }

  /** What one opened Vault turned out to be. */
  datatype Opened = Paid(multiplier: int, amount: int) | ExtraSpin | SpinsAtCap

  function ShownEvent(p: Position, v: Opened): Event {
    if v.Paid? then UnlockedEvent(p, VaultPrize(v.multiplier, false), v.multiplier)
    else UnlockedEvent(p, FreeSpinPrize, 0)
  }

  function ResultEvent(p: Position, v: Opened): Event {
    match v
    case Paid(m, amount) => AwardedEvent(p, VaultPrize(m, false), m, amount)
    case ExtraSpin => At(FreeSpinAwarded, p).(count := 1)
    case SpinsAtCap => At(FreeSpinCapReached, p)
  }

  function VaultCell(v: Opened): Cell {
    if v.Paid? then Cell(Vault, v.multiplier, VaultPrize(v.multiplier, false)) else Cell(Vault, 0, FreeSpinPrize)
  }

  function AwardOf(v: Opened): int {
    if v.Paid? then v.amount else 0
  }

  function ExtraOf(v: Opened): int {
    if v == ExtraSpin then 1 else 0
  }

  predicate OpenedOk(c: Config, mode: FeatureMode, bet: int, awarded: int, v: Opened) {
    match v
    case Paid(m, amount) => IsBaseVaultMultiplier(m) && amount == bet * m && 0 <= amount <= bet * MaxVault(c)
    case ExtraSpin => mode == Expansion && awarded < c.feature.maxExpansionSpins
    case SpinsAtCap => mode == Expansion && awarded >= c.feature.maxExpansionSpins
  }

  lemma OpenedIsPair(c: Config, mode: FeatureMode, bet: int, p: Position, awarded: int, v: Opened)
    requires OpenedOk(c, mode, bet, awarded, v)
    ensures OpenedPair(mode, bet, p, VaultCell(v), ShownEvent(p, v), ResultEvent(p, v))
    ensures CellModifierOk(VaultCell(v))
  {
  }

  /** What a Vault turns out to be. */
  function OpenedFrom(c: Config, bet: int, awarded: int, reward: VaultReward): Opened {
    match reward
    case FreeSpinReward => if awarded < c.feature.maxExpansionSpins then ExtraSpin else SpinsAtCap
    case MoneyReward(m) => Paid(m, bet * m)
  }

  function OpenedSample(c: Config, mode: FeatureMode, bet: int, awarded: int, tape: seq<nat>): Sample<Opened> {
    var reward := RewardSample(c, mode, tape);
    match reward.result
    case Err(fault) => Sample(Err(fault), reward.rest)
    case Ok(value) => Sample(Ok(OpenedFrom(c, bet, awarded, value)), reward.rest)
  }

  /** Draws one Vault's content. A free spin beyond the configured maximum only reports the cap. */
  method OpenVault(rng: RandomSource, c: Config, mode: FeatureMode, bet: int, awarded: int) returns (r: Result<Opened>)
    requires VaultTablesOk(c, bet)
    modifies rng
    ensures Sample(r, rng.tape) == OpenedSample(c, mode, bet, awarded, old(rng.tape))
    ensures r.Ok? ==> OpenedOk(c, mode, bet, awarded, r.value)
    ensures r.Err? ==> r.fault == WeightsOverflow || (r.fault == RandomFailed && rng.tape == [])
    ensures r == Err(WeightsOverflow) <==> RewardsTooHeavy(c, mode)
  {
    var reward := DrawReward(rng, c, mode, bet);
    match reward
    case Err(fault) => return Err(fault);
    case Ok(FreeSpinReward) =>
      return Ok(if awarded < c.feature.maxExpansionSpins then ExtraSpin else SpinsAtCap);
    case Ok(MoneyReward(m)) =>
      AwardFits(c, bet, m);
      var award := SafeMul(bet, m);
      match award
      case Err(fault) => return Err(fault);
      case Ok(amount) => return Ok(Paid(m, amount));
  }

  lemma AwardFits(c: Config, bet: int, m: int)
    requires 0 <= m <= MaxVault(c) && 0 < bet && bet * MaxVault(c) * MAX_VAULTS <= MAX_INT64
    ensures 0 <= bet * m <= bet * MaxVault(c) <= MAX_INT64
  {
    MulMonotone(m, MaxVault(c), bet);
    MulMonotone(0, m, bet);
    var unit := bet * MaxVault(c);
    assert unit * MAX_VAULTS >= unit;
  }

  /** Opening the Vaults up to the k-th. */
  predicate OpenedTo(mode: FeatureMode, bet: int, grid: Grid, positions: seq<Position>, ve: seq<Event>, k: nat) {
    && k <= |positions| && |ve| == 2 * k + 2
    && ve[0] == GroupEvent(VaultsLanded, positions)
    && ve[1] == GroupEvent(VaultsUnlockStarted, positions)
    && forall j :: 0 <= j < k ==> OpenedPair(mode, bet, positions[j], CellAt(grid, positions[j]), ve[2 * j + 2], ve[2 * j + 3])
  }

  lemma OpenedOneMore(mode: FeatureMode, bet: int, grid: Grid, positions: seq<Position>, ve: seq<Event>, k: nat, cell: Cell,
                      shown: Event, result: Event)
    requires Distinct(positions) && k < |positions| && OnGrid(grid, positions[k])
    requires OpenedTo(mode, bet, grid, positions, ve, k) && OpenedPair(mode, bet, positions[k], cell, shown, result)
    ensures OpenedTo(mode, bet, WithCell(grid, positions[k], cell), positions, ve + [shown, result], k + 1)
  {
    var after, next := WithCell(grid, positions[k], cell), ve + [shown, result];
    forall j | 0 <= j < k + 1
      ensures OpenedPair(mode, bet, positions[j], CellAt(after, positions[j]), next[2 * j + 2], next[2 * j + 3])
    {
      CellAfterWrite(grid, positions[k], cell, positions[j]);
      if j < k {
        assert next[2 * j + 2] == ve[2 * j + 2] && next[2 * j + 3] == ve[2 * j + 3];
      }
    }
  }

  // --- Sums over appended events ---

  lemma {:induction false} EventsBeforeAppend(a: seq<Event>, b: seq<Event>, n: nat)
    requires n <= |a| + |b|
    ensures EventsBefore(a + b, n) == if n <= |a| then EventsBefore(a, n) else EventsBefore(a, |a|) + EventsBefore(b, n - |a|)
    ensures FreeSpinsAwarded(a + b, n) ==
            if n <= |a| then FreeSpinsAwarded(a, n) else FreeSpinsAwarded(a, |a|) + FreeSpinsAwarded(b, n - |a|)
  {
    if n > 0 {
      EventsBeforeAppend(a, b, n - 1);
    }
  }

  lemma SumsAppend(a: seq<Event>, b: seq<Event>)
    ensures EventSum(a + b) == EventSum(a) + EventSum(b)
    ensures FreeSpinsAwarded(a + b, |a + b|) == FreeSpinsAwarded(a, |a|) + FreeSpinsAwarded(b, |b|)
  {
    EventsBeforeAppend(a, b, |a| + |b|);
  }

  lemma OneSum(e: Event)
    ensures EventSum([e]) == if IsMonetary(e.kind) then e.amount else 0
    ensures FreeSpinsAwarded([e], |[e]|) == if e.kind == FreeSpinAwarded then e.count else 0
  {
    assert EventsBefore([e], 1) == EventsBefore([e], 0) + if IsMonetary(e.kind) then e.amount else 0;
    assert FreeSpinsAwarded([e], 1) == FreeSpinsAwarded([e], 0) + if e.kind == FreeSpinAwarded then e.count else 0;
  }

  lemma PairSum(a: Event, b: Event)
    ensures EventSum([a, b]) == EventSum([a]) + EventSum([b])
    ensures FreeSpinsAwarded([a, b], |[a, b]|) == FreeSpinsAwarded([a], |[a]|) + FreeSpinsAwarded([b], |[b]|)
  {
    SumsAppend([a], [b]);
    assert [a] + [b] == [a, b];
  }

  lemma OpenedSums(p: Position, v: Opened)
    ensures EventSum([ShownEvent(p, v), ResultEvent(p, v)]) == AwardOf(v)
    ensures FreeSpinsAwarded([ShownEvent(p, v), ResultEvent(p, v)], |[ShownEvent(p, v), ResultEvent(p, v)]|) == ExtraOf(v)
  {
    var a, b := ShownEvent(p, v), ResultEvent(p, v);
    assert a.kind == VaultUnlocked;
    OneSum(a);
    OneSum(b);
    PairSum(a, b);
  }

  /** The running totals of an unlock sequence. */
  predicate Tally(c: Config, mode: FeatureMode, bet: int, start: FeatureState, next: FeatureState, ve: seq<Event>, total: int, k: nat) {
    var extra := FreeSpinsAwarded(ve, |ve|);
    && 0 <= extra && next == start.(remaining := start.remaining + extra, awarded := start.awarded + extra)
    && (extra > 0 ==> mode == Expansion && next.awarded <= c.feature.maxExpansionSpins)
    && EventSum(ve) == total && 0 <= total <= bet * MaxVault(c) * k
  }

  lemma TallyStep(c: Config, mode: FeatureMode, bet: int, p: Position, start: FeatureState, next: FeatureState,
                  ve: seq<Event>, total: int, k: nat, v: Opened)
    requires Tally(c, mode, bet, start, next, ve, total, k) && OpenedOk(c, mode, bet, next.awarded, v)
    requires 0 <= bet * MaxVault(c)
    ensures Tally(c, mode, bet, start, next.(remaining := next.remaining + ExtraOf(v), awarded := next.awarded + ExtraOf(v)),
                  ve + [ShownEvent(p, v), ResultEvent(p, v)], total + AwardOf(v), k + 1)
  {
    OpenedSums(p, v);
    SumsAppend(ve, [ShownEvent(p, v), ResultEvent(p, v)]);
    OneMore(bet * MaxVault(c), k);
  }

  lemma TotalFits(c: Config, bet: int, k: nat)
    requires VaultTablesOk(c, bet) && k <= MAX_VAULTS
    ensures 0 <= bet * MaxVault(c) * k <= bet * MaxVault(c) * MAX_VAULTS <= MAX_INT64
  {
    MulMonotone(0, MaxVault(c), bet);
    MulMonotone(k, MAX_VAULTS, bet * MaxVault(c));
    MulMonotone(0, k, bet * MaxVault(c));
  }

  /** The unlock sequence after k Vaults: grid, events, counters and total. */
  predicate Opening(c: Config, mode: FeatureMode, bet: int, before: Grid, grid: Grid, positions: seq<Position>,
                    start: FeatureState, events: seq<Event>, total: int, next: FeatureState, k: nat) {
    && Rewarded(before, grid)
    && OpenedTo(mode, bet, grid, positions, events, k)
    && Tally(c, mode, bet, start, next, events, total, k)
  }

  function CountedNext(next: FeatureState, v: Opened): FeatureState {
    next.(remaining := next.remaining + ExtraOf(v), awarded := next.awarded + ExtraOf(v))
  }

  function Announced(events: seq<Event>, p: Position, v: Opened): seq<Event> {
    events + [ShownEvent(p, v), ResultEvent(p, v)]
  }

  lemma OpeningWrites(c: Config, mode: FeatureMode, bet: int, before: Grid, grid: Grid, positions: seq<Position>,
                      events: seq<Event>, awarded: int, k: nat, v: Opened)
    requires GridOk(before) && positions == PositionsFor(before, Vault) && Distinct(positions) && k < |positions|
    requires Rewarded(before, grid) && OpenedTo(mode, bet, grid, positions, events, k) && OpenedOk(c, mode, bet, awarded, v)
    ensures OnGrid(grid, positions[k])
    ensures Rewarded(before, WithCell(grid, positions[k], VaultCell(v)))
    ensures OpenedTo(mode, bet, WithCell(grid, positions[k], VaultCell(v)), positions, Announced(events, positions[k], v), k + 1)
  {
    var p := positions[k];
    assert p in positions;
    OpenedIsPair(c, mode, bet, p, awarded, v);
    RewardWritten(before, grid, p, VaultCell(v));
    OpenedOneMore(mode, bet, grid, positions, events, k, VaultCell(v), ShownEvent(p, v), ResultEvent(p, v));
  }

  lemma OpeningCounts(c: Config, mode: FeatureMode, bet: int, p: Position, start: FeatureState, events: seq<Event>,
                      total: int, next: FeatureState, k: nat, v: Opened)
    requires VaultTablesOk(c, bet) && k < MAX_VAULTS && Tally(c, mode, bet, start, next, events, total, k)
    requires OpenedOk(c, mode, bet, next.awarded, v)
    ensures 0 <= total && 0 <= AwardOf(v) && total + AwardOf(v) <= MAX_INT64
    ensures Tally(c, mode, bet, start, CountedNext(next, v), Announced(events, p, v), total + AwardOf(v), k + 1)
  {
    TotalFits(c, bet, 1);
    TallyStep(c, mode, bet, p, start, next, events, total, k, v);
    TotalFits(c, bet, k + 1);
  }

  /** The Vaults opened so far with the next one, if it opens. */
  function WithVault(events: seq<Event>, next: FeatureState, p: Position, drawn: Sample<Opened>): Sample<(seq<Event>, FeatureState)> {
    match drawn.result
    case Err(fault) => Sample(Err(fault), drawn.rest)
    case Ok(v) => Sample(Ok((Announced(events, p, v), CountedNext(next, v))), drawn.rest)
  }

  /** The first n Vaults opened one after the other. */
  function OpeningTo(c: Config, mode: FeatureMode, bet: int, positions: seq<Position>, begun: seq<Event>, start: FeatureState, n: nat,
                     tape: seq<nat>): Sample<(seq<Event>, FeatureState)>
    requires n <= |positions|
  {
    if n == 0 then Sample(Ok((begun, start)), tape)
    else
      var before := OpeningTo(c, mode, bet, positions, begun, start, n - 1, tape);
      match before.result
      case Err(_) => before
      case Ok(open) =>
        WithVault(open.0, open.1, positions[n - 1], OpenedSample(c, mode, bet, open.1.awarded, before.rest))
  }

  lemma NextVault(c: Config, mode: FeatureMode, bet: int, positions: seq<Position>, begun: seq<Event>, start: FeatureState, n: nat,
                  tape: seq<nat>, events: seq<Event>, next: FeatureState, rest: seq<nat>)
    requires n < |positions| && OpeningTo(c, mode, bet, positions, begun, start, n, tape) == Sample(Ok((events, next)), rest)
    ensures OpeningTo(c, mode, bet, positions, begun, start, n + 1, tape) ==
            WithVault(events, next, positions[n], OpenedSample(c, mode, bet, next.awarded, rest))
  {
  }

  lemma {:induction false} OpeningStops(c: Config, mode: FeatureMode, bet: int, positions: seq<Position>, begun: seq<Event>,
                                        start: FeatureState, m: nat, n: nat, tape: seq<nat>)
    requires m <= n <= |positions| && OpeningTo(c, mode, bet, positions, begun, start, m, tape).result.Err?
    ensures OpeningTo(c, mode, bet, positions, begun, start, n, tape) == OpeningTo(c, mode, bet, positions, begun, start, m, tape)
  {
    if m < n {
      OpeningStops(c, mode, bet, positions, begun, start, m, n - 1, tape);
    }
  }

  /** What a method returned, without the running total, beside what the tape holds. */
  predicate SameVaults(r: Result<(seq<Event>, int, FeatureState)>, rest: seq<nat>, s: Sample<(seq<Event>, FeatureState)>) {
    && rest == s.rest
    && match s.result
       case Err(fault) => r == Err(fault)
       case Ok(open) => r.Ok? && r.value.0 == open.0 && r.value.2 == open.1
  }

  /** One Vault: its content is drawn, written into the grid, announced and counted. */
  method OpenNext(rng: RandomSource, c: Config, mode: FeatureMode, bet: int, grid: array2<Cell>, positions: seq<Position>,
                  k: nat, events: seq<Event>, total: int, next: FeatureState, ghost start: FeatureState, ghost before: Grid)
    returns (r: Result<(seq<Event>, int, FeatureState)>)
    requires VaultTablesOk(c, bet) && grid.Length0 == 3 && GridOk(before)
    requires positions == PositionsFor(before, Vault) && Distinct(positions) && k < |positions| <= MAX_VAULTS
    requires Opening(c, mode, bet, before, GridOf(grid), positions, start, events, total, next, k)
    modifies rng, grid
    ensures r.Ok? ==> Opening(c, mode, bet, before, GridOf(grid), positions, start, r.value.0, r.value.1, r.value.2, k + 1)
    ensures SameVaults(r, rng.tape, WithVault(events, next, positions[k], OpenedSample(c, mode, bet, next.awarded, old(rng.tape))))
    ensures r.Err? ==> r.fault == WeightsOverflow || (r.fault == RandomFailed && rng.tape == [])
    ensures r == Err(WeightsOverflow) <==> RewardsTooHeavy(c, mode)
  {
    var drawn := OpenVault(rng, c, mode, bet, next.awarded);
    match drawn
    case Err(fault) => return Err(fault);
    case Ok(v) =>
      OpeningWrites(c, mode, bet, before, GridOf(grid), positions, events, next.awarded, k, v);
      OpeningCounts(c, mode, bet, positions[k], start, events, total, next, k, v);
      WriteCell(grid, positions[k], VaultCell(v));
      var sum := SafeAdd(total, AwardOf(v));
      match sum
      case Err(fault) => return Err(fault);
      case Ok(value) => return Ok((Announced(events, positions[k], v), value, CountedNext(next, v)));
  }

  lemma UnlockCompleted(c: Config, mode: FeatureMode, bet: int, grid: Grid, positions: seq<Position>, start: FeatureState,
                        next: FeatureState, ve: seq<Event>, total: int)
    requires VaultTablesOk(c, bet) && |positions| <= MAX_VAULTS && OpenedTo(mode, bet, grid, positions, ve, |positions|)
    requires Tally(c, mode, bet, start, next, ve, total, |positions|)
    ensures var all := ve + [GroupEvent(VaultsUnlockCompleted, positions)];
            OpenedShape(mode, bet, grid, positions, all) && Tally(c, mode, bet, start, next, all, total, MAX_VAULTS)
  {
    TotalFits(c, bet, |positions|);
    OneSum(GroupEvent(VaultsUnlockCompleted, positions));
    SumsAppend(ve, [GroupEvent(VaultsUnlockCompleted, positions)]);
  }

  lemma StartTally(c: Config, mode: FeatureMode, bet: int, positions: seq<Position>, start: FeatureState)
    ensures Tally(c, mode, bet, start, start, [GroupEvent(VaultsLanded, positions), GroupEvent(VaultsUnlockStarted, positions)], 0, 0)
  {
    OneSum(GroupEvent(VaultsLanded, positions));
    OneSum(GroupEvent(VaultsUnlockStarted, positions));
    PairSum(GroupEvent(VaultsLanded, positions), GroupEvent(VaultsUnlockStarted, positions));
  }

  lemma OpeningStarts(c: Config, mode: FeatureMode, bet: int, grid: Grid, positions: seq<Position>, start: FeatureState)
    requires GridOk(grid)
    ensures Opening(c, mode, bet, grid, grid, positions, start,
                    [GroupEvent(VaultsLanded, positions), GroupEvent(VaultsUnlockStarted, positions)], 0, start, 0)
  {
    StartTally(c, mode, bet, positions, start);
  }

  /** The loop so far: what is written and counted, and where the tape stands. */
  predicate OpenSoFar(c: Config, mode: FeatureMode, bet: int, before: Grid, grid: Grid, positions: seq<Position>, begun: seq<Event>,
                      start: FeatureState, events: seq<Event>, total: int, next: FeatureState, k: nat, tape: seq<nat>, rest: seq<nat>)
    requires k <= |positions|
  {
    && Opening(c, mode, bet, before, grid, positions, start, events, total, next, k)
    && OpeningTo(c, mode, bet, positions, begun, start, k, tape) == Sample(Ok((events, next)), rest)
    && (k > 0 ==> !RewardsTooHeavy(c, mode))
  }

  /** How the loop may go on, or why it ends. */
  predicate TurnOk(c: Config, mode: FeatureMode, bet: int, before: Grid, grid: Grid, positions: seq<Position>, begun: seq<Event>,
                   start: FeatureState, k: nat, tape: seq<nat>, rest: seq<nat>, r: Result<(seq<Event>, int, FeatureState)>)
    requires k <= |positions|
  {
    match r
    case Ok(open) => OpenSoFar(c, mode, bet, before, grid, positions, begun, start, open.0, open.1, open.2, k, tape, rest)
    case Err(fault) =>
      && SameVaults(r, rest, OpeningTo(c, mode, bet, positions, begun, start, |positions|, tape))
      && (fault == WeightsOverflow <==> RewardsTooHeavy(c, mode)) && 0 < k
      && (fault == WeightsOverflow || (fault == RandomFailed && rest == []))
  }

  lemma TurnTaken(c: Config, mode: FeatureMode, bet: int, before: Grid, grid: Grid, positions: seq<Position>, begun: seq<Event>,
                  start: FeatureState, k: nat, tape: seq<nat>, rest: seq<nat>, r: Result<(seq<Event>, int, FeatureState)>)
    requires k < |positions|
    requires SameVaults(r, rest, OpeningTo(c, mode, bet, positions, begun, start, k + 1, tape))
    requires r.Ok? ==> Opening(c, mode, bet, before, grid, positions, start, r.value.0, r.value.1, r.value.2, k + 1)
    requires r.Err? ==> r.fault == WeightsOverflow || (r.fault == RandomFailed && rest == [])
    requires r == Err(WeightsOverflow) <==> RewardsTooHeavy(c, mode)
    ensures TurnOk(c, mode, bet, before, grid, positions, begun, start, k + 1, tape, rest, r)
  {
    if r.Err? {
      OpeningStops(c, mode, bet, positions, begun, start, k + 1, |positions|, tape);
    }
  }

  /** A loop that ends early ends as the whole tape says. */
  lemma TurnEnds(c: Config, mode: FeatureMode, bet: int, before: Grid, grid: Grid, positions: seq<Position>, begun: seq<Event>,
                 start: FeatureState, k: nat, tape: seq<nat>, rest: seq<nat>, r: Result<(seq<Event>, int, FeatureState)>)
    requires k <= |positions| && r.Err? && TurnOk(c, mode, bet, before, grid, positions, begun, start, k, tape, rest, r)
    ensures TurnOk(c, mode, bet, before, grid, positions, begun, start, |positions|, tape, rest, r)
  {
  }

  /** One turn of the loop. */
  method OpenTurn(rng: RandomSource, c: Config, mode: FeatureMode, bet: int, grid: array2<Cell>, positions: seq<Position>, k: nat,
                  events: seq<Event>, total: int, next: FeatureState, ghost begun: seq<Event>, ghost start: FeatureState,
                  ghost before: Grid, ghost tape: seq<nat>)
    returns (r: Result<(seq<Event>, int, FeatureState)>)
    requires VaultTablesOk(c, bet) && grid.Length0 == 3 && GridOk(before)
    requires positions == PositionsFor(before, Vault) && Distinct(positions) && k < |positions| <= MAX_VAULTS
    requires OpenSoFar(c, mode, bet, before, GridOf(grid), positions, begun, start, events, total, next, k, tape, rng.tape)
    modifies rng, grid
    ensures TurnOk(c, mode, bet, before, GridOf(grid), positions, begun, start, k + 1, tape, rng.tape, r)
  {
    NextVault(c, mode, bet, positions, begun, start, k, tape, events, next, rng.tape);
    r := OpenNext(rng, c, mode, bet, grid, positions, k, events, total, next, start, before);
    TurnTaken(c, mode, bet, before, GridOf(grid), positions, begun, start, k, tape, rng.tape, r);
  }

  method OpenAll(rng: RandomSource, c: Config, mode: FeatureMode, bet: int, grid: array2<Cell>, positions: seq<Position>,
                 begun: seq<Event>, start: FeatureState, ghost before: Grid)
    returns (r: Result<(seq<Event>, int, FeatureState)>)
    requires VaultTablesOk(c, bet) && grid.Length0 == 3 && GridOk(before)
    requires positions == PositionsFor(before, Vault) && Distinct(positions) && |positions| <= MAX_VAULTS
    requires Opening(c, mode, bet, before, GridOf(grid), positions, start, begun, 0, start, 0)
    modifies rng, grid
    ensures TurnOk(c, mode, bet, before, GridOf(grid), positions, begun, start, |positions|, old(rng.tape), rng.tape, r)
  {
    var events, total, next := begun, 0, start;
    ghost var tape := rng.tape;
    for k := 0 to |positions|
      invariant OpenSoFar(c, mode, bet, before, GridOf(grid), positions, begun, start, events, total, next, k, tape, rng.tape)
    {
      r := OpenTurn(rng, c, mode, bet, grid, positions, k, events, total, next, begun, start, before, tape);
      if r.Err? {
        TurnEnds(c, mode, bet, before, GridOf(grid), positions, begun, start, k + 1, tape, rng.tape, r);
        return;
      }
      events, total, next := r.value.0, r.value.1, r.value.2;
    }
    r := Ok((events, total, next));
  }

  /** A whole unlock sequence as the tape has it. */
  function UnlockSample(c: Config, mode: FeatureMode, bet: int, positions: seq<Position>, start: FeatureState, tape: seq<nat>)
    : Sample<(seq<Event>, FeatureState)>
  {
    var begun := [GroupEvent(VaultsLanded, positions), GroupEvent(VaultsUnlockStarted, positions)];
    var drawn := OpeningTo(c, mode, bet, positions, begun, start, |positions|, tape);
    match drawn.result
    case Err(_) => drawn
    case Ok(open) => Sample(Ok((open.0 + [GroupEvent(VaultsUnlockCompleted, positions)], open.1)), drawn.rest)
  }

  /** Every write, event and counter of an unlock sequence. */
  method OpenVaults(rng: RandomSource, c: Config, mode: FeatureMode, bet: int, grid: array2<Cell>,
                    positions: seq<Position>, start: FeatureState)
    returns (r: Result<(seq<Event>, int, FeatureState)>)
    requires VaultTablesOk(c, bet) && grid.Length0 == 3 && GridOk(GridOf(grid))
    requires positions == PositionsFor(GridOf(grid), Vault) && Distinct(positions) && |positions| <= MAX_VAULTS
    modifies rng, grid
    ensures r.Ok? ==> Rewarded(old(GridOf(grid)), GridOf(grid))
    ensures r.Ok? ==> OpenedShape(mode, bet, GridOf(grid), positions, r.value.0)
    ensures r.Ok? ==> Tally(c, mode, bet, start, r.value.2, r.value.0, r.value.1, MAX_VAULTS)
    ensures SameVaults(r, rng.tape, UnlockSample(c, mode, bet, positions, start, old(rng.tape)))
    ensures r.Err? ==> r.fault == WeightsOverflow || (r.fault == RandomFailed && rng.tape == [])
    ensures r == Err(WeightsOverflow) <==> RewardsTooHeavy(c, mode) && positions != []
  {
    ghost var before := GridOf(grid);
    var begun := [GroupEvent(VaultsLanded, positions), GroupEvent(VaultsUnlockStarted, positions)];
    OpeningStarts(c, mode, bet, before, positions, start);
    r := OpenAll(rng, c, mode, bet, grid, positions, begun, start, before);
    if r.Ok? {
      UnlockCompleted(c, mode, bet, GridOf(grid), positions, start, r.value.2, r.value.0, r.value.1);
      r := Ok((r.value.0 + [GroupEvent(VaultsUnlockCompleted, positions)], r.value.1, r.value.2));
    }
  }
}
