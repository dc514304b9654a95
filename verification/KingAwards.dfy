/** The final awards of a King Spin, and the whole of its Vault section. */
module KingAwards {
  import opened Money
  import opened Weights
  import opened GameTypes
  import opened Grids
  import opened WaysEnumeration
  import opened GameConfig
  import opened WinCap
  import opened OutcomeRules
  import opened SpinShape
  import opened RandomPicks
  import opened GridBuffers
  import opened VaultWrites
  import opened VaultDraws
  import opened UpgradeChains
  import opened KingDraws

  function KingCell(m: int): Cell {
    Cell(Vault, m, VaultPrize(m, true))
  }

  function FinalAward(bet: int, p: Position, m: int): Event {
    AwardedEvent(p, VaultPrize(m, true), m, bet * m)
  }

  /** The awards of the first k Vaults, written and announced. */
  predicate AwardedTo(bet: int, grid: Grid, positions: seq<Position>, multipliers: seq<int>, begun: seq<Event>,
                      ve: seq<Event>, k: nat) {
    && k <= |positions| == |multipliers| && |ve| == |begun| + k && ve[..|begun|] == begun
    && forall j :: 0 <= j < k ==>
         && ve[|begun| + j] == FinalAward(bet, positions[j], multipliers[j])
         && CellAt(grid, positions[j]) == KingCell(multipliers[j])
  }

  lemma AwardedOneMore(bet: int, grid: Grid, positions: seq<Position>, multipliers: seq<int>, begun: seq<Event>,
                       ve: seq<Event>, k: nat)
    requires Distinct(positions) && k < |positions| && OnGrid(grid, positions[k])
    requires AwardedTo(bet, grid, positions, multipliers, begun, ve, k)
    ensures AwardedTo(bet, WithCell(grid, positions[k], KingCell(multipliers[k])), positions, multipliers, begun,
                      ve + [FinalAward(bet, positions[k], multipliers[k])], k + 1)
  {
    var next := ve + [FinalAward(bet, positions[k], multipliers[k])];
    assert next[..|begun|] == ve[..|begun|];
    forall j | 0 <= j < k + 1
      ensures next[|begun| + j] == FinalAward(bet, positions[j], multipliers[j])
      ensures CellAt(WithCell(grid, positions[k], KingCell(multipliers[k])), positions[j]) == KingCell(multipliers[j])
    {
      CellAfterWrite(grid, positions[k], KingCell(multipliers[k]), positions[j]);
    }
  }

  predicate Quiet(events: seq<Event>) {
    forall i :: 0 <= i < |events| ==> !IsMonetary(events[i].kind) && events[i].kind != FreeSpinAwarded
  }

  lemma {:induction false} QuietSums(events: seq<Event>, n: nat)
    requires Quiet(events) && n <= |events|
    ensures EventsBefore(events, n) == 0 && FreeSpinsAwarded(events, n) == 0
  {
    if n > 0 {
      QuietSums(events, n - 1);
    }
  }

  lemma ChainIsQuiet(positions: seq<Position>, ve: seq<Event>, multipliers: seq<int>, step: int)
    requires ChainBuilt(positions, ve, multipliers, step)
    ensures Quiet(ve)
  {
    forall i | 0 <= i < |ve|
      ensures !IsMonetary(ve[i].kind) && ve[i].kind != FreeSpinAwarded
    {
      if 2 <= i < |positions| + 2 {
        assert KingReveal(positions[i - 2], ve[i - 2 + 2]);
      } else if i >= |positions| + 3 {
        assert ChainEvent(positions, ve[i]);
      }
    }
  }

  lemma AwardTallied(c: Config, bet: int, p: Position, m: int, start: FeatureState, ve: seq<Event>, total: int, k: nat)
    requires VaultTablesOk(c, bet) && KingMultiplier(c, m) && k < MAX_VAULTS
    requires Tally(c, Overdrive, bet, start, start, ve, total, k)
    ensures 0 <= total && 0 <= bet * m && total + bet * m <= MAX_INT64
    ensures Tally(c, Overdrive, bet, start, start, ve + [FinalAward(bet, p, m)], total + bet * m, k + 1)
  {
    AwardFits(c, bet, m);
    OneSum(FinalAward(bet, p, m));
    SumsAppend(ve, [FinalAward(bet, p, m)]);
    OneMore(bet * MaxVault(c), k);
    TotalFits(c, bet, k + 1);
  }

  lemma AwardWritten(c: Config, before: Grid, grid: Grid, positions: seq<Position>, k: nat, m: int)
    requires GridOk(before) && Rewarded(before, grid) && positions == PositionsFor(before, Vault) && k < |positions|
    requires KingMultiplier(c, m)
    ensures OnGrid(grid, positions[k]) && Rewarded(before, WithCell(grid, positions[k], KingCell(m)))
  {
    assert positions[k] in positions;
    RewardWritten(before, grid, positions[k], KingCell(m));
  }

  /** One final award: written into the grid, announced and paid. */
  method AwardNext(c: Config, bet: int, grid: array2<Cell>, positions: seq<Position>, k: nat, m: int, events: seq<Event>,
                   total: int, ghost finals: seq<int>, ghost begun: seq<Event>, ghost before: Grid, ghost start: FeatureState)
    returns (r: Result<int>)
    requires VaultTablesOk(c, bet) && grid.Length0 == 3 && GridOk(before) && Rewarded(before, GridOf(grid))
    requires positions == PositionsFor(before, Vault) && Distinct(positions) && k < |positions| <= MAX_VAULTS
    requires AwardedTo(bet, GridOf(grid), positions, finals, begun, events, k)
    requires KingMultiplier(c, m) && m == finals[k] && Tally(c, Overdrive, bet, start, start, events, total, k)
    modifies grid
    ensures Rewarded(before, GridOf(grid))
    ensures AwardedTo(bet, GridOf(grid), positions, finals, begun, events + [FinalAward(bet, positions[k], m)], k + 1)
    ensures r.Ok?
    ensures Tally(c, Overdrive, bet, start, start, events + [FinalAward(bet, positions[k], m)], r.value, k + 1)
  {
    AwardWritten(c, before, GridOf(grid), positions, k, m);
    AwardedOneMore(bet, GridOf(grid), positions, finals, begun, events, k);
    AwardTallied(c, bet, positions[k], m, start, events, total, k);
    WriteCell(grid, positions[k], KingCell(m));
    var award := SafeMul(bet, m);
    if award.Err? {
      return award;
    }
    r := SafeAdd(total, award.value);
  }

  /** The award loop over all Vaults. */
  method AwardVaults(c: Config, bet: int, grid: array2<Cell>, positions: seq<Position>, multipliers: array<int>,
                     begun: seq<Event>, ghost before: Grid, ghost start: FeatureState)
    returns (r: Result<(seq<Event>, int)>)
    requires VaultTablesOk(c, bet) && grid.Length0 == 3 && GridOk(before) && Rewarded(before, GridOf(grid))
    requires positions == PositionsFor(before, Vault) && Distinct(positions) && |positions| <= MAX_VAULTS
    requires multipliers.Length == |positions| && KingMultipliers(c, multipliers[..])
    requires Tally(c, Overdrive, bet, start, start, begun, 0, 0)
    modifies grid
    ensures r.Ok? && Rewarded(before, GridOf(grid))
    ensures AwardedTo(bet, GridOf(grid), positions, multipliers[..], begun, r.value.0, |positions|)
    ensures Tally(c, Overdrive, bet, start, start, r.value.0, r.value.1, |positions|)
  {
    var events, total := begun, 0;
    ghost var finals := multipliers[..];
    for k := 0 to |positions|
      invariant Rewarded(before, GridOf(grid))
      invariant AwardedTo(bet, GridOf(grid), positions, finals, begun, events, k)
      invariant Tally(c, Overdrive, bet, start, start, events, total, k)
    {
      var m := multipliers[k];
      assert m == finals[k] && KingMultiplier(c, finals[k]);
      var sum := AwardNext(c, bet, grid, positions, k, m, events, total, finals, begun, before, start);
      events, total := events + [FinalAward(bet, positions[k], m)], sum.value;
    }
    r := Ok((events, total));
  }

  lemma AwardsRevealNothing(bet: int, grid: Grid, positions: seq<Position>, multipliers: seq<int>, begun: seq<Event>, ve: seq<Event>)
    requires AwardedTo(bet, grid, positions, multipliers, begun, ve, |positions|)
    ensures ve == begun + ve[|begun|..] && NoReveals(ve[|begun|..])
  {
    forall i | 0 <= i < |ve[|begun|..]|
      ensures ve[|begun|..][i].kind != VaultUnlocked
    {
      assert ve[|begun|..][i] == ve[|begun| + i] == FinalAward(bet, positions[i], multipliers[i]);
    }
  }

  /** The chain the awards settle is the chain that was built. */
  lemma SettledChain(bet: int, grid: Grid, positions: seq<Position>, multipliers: seq<int>, begun: seq<Event>, ve: seq<Event>)
    requires |begun| >= |positions| + 3 && AwardedTo(bet, grid, positions, multipliers, begun, ve, |positions|)
    ensures ChainTo(ve, ChainStart(ve, positions), |positions| + 3, |begun|)
            == ChainTo(begun, ChainStart(begun, positions), |positions| + 3, |begun|)
  {
    AwardsRevealNothing(bet, grid, positions, multipliers, begun, ve);
    ChainStartStays(begun, ve[|begun|..], positions);
    ChainPrefix(begun, ve[|begun|..], ChainStart(begun, positions), |positions| + 3, |begun|);
  }

  lemma BegunStays(positions: seq<Position>, multipliers: seq<int>, begun: seq<Event>, ve: seq<Event>, step: int)
    requires ChainBuilt(positions, begun, multipliers, step) && |ve| >= |begun| && ve[..|begun|] == begun
    ensures var n := |positions|;
            && ve[0] == GroupEvent(VaultsLanded, positions)
            && ve[1] == GroupEvent(VaultsUnlockStarted, positions)
            && ve[n + 2] == GroupEvent(VaultsUnlockCompleted, positions)
            && (forall k :: 0 <= k < n ==> KingReveal(positions[k], ve[k + 2]))
            && (forall i :: n + 3 <= i < |begun| ==> ChainEvent(positions, ve[i]))
  {
    assert forall i :: 0 <= i < |begun| ==> ve[i] == ve[..|begun|][i];
    forall k | 0 <= k < |positions|
      ensures KingReveal(positions[k], ve[k + 2])
    {
      assert ve[k + 2] == begun[k + 2];
    }
    forall i | |positions| + 3 <= i < |begun|
      ensures ChainEvent(positions, ve[i])
    {
      assert ve[i] == begun[i];
    }
  }

  lemma FinalIsAward(c: Config, bet: int, p: Position, m: int, current: map<Position, int>)
    requires p in current && current[p] == m && KingMultiplier(c, m)
    ensures KingAward(bet, p, KingCell(m), current, FinalAward(bet, p, m))
  {
  }

  /** Every final award pays what the chain ended with. */
  lemma AwardsSettle(c: Config, bet: int, grid: Grid, positions: seq<Position>, multipliers: seq<int>, begun: seq<Event>,
                     ve: seq<Event>, current: map<Position, int>)
    requires KingMultipliers(c, multipliers) && Tracks(current, positions, multipliers)
    requires AwardedTo(bet, grid, positions, multipliers, begun, ve, |positions|)
    ensures forall k :: 0 <= k < |positions| ==>
              KingAward(bet, positions[k], CellAt(grid, positions[k]), current, ve[|begun| + k])
  {
    forall k | 0 <= k < |positions|
      ensures KingAward(bet, positions[k], CellAt(grid, positions[k]), current, ve[|begun| + k])
    {
      assert ve[|begun| + k] == FinalAward(bet, positions[k], multipliers[k]);
      FinalIsAward(c, bet, positions[k], multipliers[k], current);
    }
  }

  lemma FrameAssembled(c: Config, bet: int, grid: Grid, positions: seq<Position>, multipliers: seq<int>, begun: seq<Event>,
                       ve: seq<Event>, step: int)
    requires 0 < bet && ChainBuilt(positions, begun, multipliers, step) && KingMultipliers(c, multipliers)
    requires |begun| >= |positions| + 3 && AwardedTo(bet, grid, positions, multipliers, begun, ve, |positions|)
    ensures KingFrame(positions, ve)
  {
    BegunStays(positions, multipliers, begun, ve, step);
    AwardsStand(c, bet, grid, positions, multipliers, begun, ve);
  }

  lemma AwardsStand(c: Config, bet: int, grid: Grid, positions: seq<Position>, multipliers: seq<int>, begun: seq<Event>, ve: seq<Event>)
    requires 0 < bet && KingMultipliers(c, multipliers) && AwardedTo(bet, grid, positions, multipliers, begun, ve, |positions|)
    ensures forall k :: 0 <= k < |positions| ==> AwardStands(positions[k], ve[|begun| + k])
  {
    forall k | 0 <= k < |positions|
      ensures AwardStands(positions[k], ve[|begun| + k])
    {
      assert ve[|begun| + k] == FinalAward(bet, positions[k], multipliers[k]) && KingMultiplier(c, multipliers[k]);
    }
  }

  lemma KingSettled(c: Config, bet: int, grid: Grid, positions: seq<Position>, multipliers: seq<int>, begun: seq<Event>,
                    ve: seq<Event>, step: int)
    requires 0 < bet && ChainBuilt(positions, begun, multipliers, step) && KingMultipliers(c, multipliers)
    requires |begun| >= |positions| + 3 && AwardedTo(bet, grid, positions, multipliers, begun, ve, |positions|)
    ensures KingShape(bet, grid, positions, ve)
  {
    FrameAssembled(c, bet, grid, positions, multipliers, begun, ve, step);
    EndsAssembled(c, bet, grid, positions, multipliers, begun, ve, step);
  }

  lemma EndsAssembled(c: Config, bet: int, grid: Grid, positions: seq<Position>, multipliers: seq<int>, begun: seq<Event>,
                      ve: seq<Event>, step: int)
    requires ChainBuilt(positions, begun, multipliers, step) && KingMultipliers(c, multipliers)
    requires |begun| >= |positions| + 3 && AwardedTo(bet, grid, positions, multipliers, begun, ve, |positions|)
    ensures |ve| >= 2 * |positions| + 3 && KingEnds(bet, grid, positions, ve)
  {
    SettledChain(bet, grid, positions, multipliers, begun, ve);
    var final := ChainTo(begun, ChainStart(begun, positions), |positions| + 3, |begun|);
    EndsSettle(c, bet, grid, positions, multipliers, begun, ve, final);
    EndsAre(bet, grid, positions, ve, |begun|, final);
  }

  lemma EndsAre(bet: int, grid: Grid, positions: seq<Position>, ve: seq<Event>, first: nat, final: Chain)
    requires |positions| + 3 <= first == |ve| - |positions| && final == ChainTo(ve, ChainStart(ve, positions), |positions| + 3, first)
    requires EndsAt(bet, grid, positions, ve, final)
    ensures KingEnds(bet, grid, positions, ve) == true
  {
  }

  lemma EndsSettle(c: Config, bet: int, grid: Grid, positions: seq<Position>, multipliers: seq<int>, begun: seq<Event>,
                   ve: seq<Event>, final: Chain)
    requires KingMultipliers(c, multipliers) && GroupClosed(final) && Tracks(final.current, positions, multipliers)
    requires AwardedTo(bet, grid, positions, multipliers, begun, ve, |positions|)
    ensures |ve| == |begun| + |positions| && EndsAt(bet, grid, positions, ve, final)
  {
    AwardsSettle(c, bet, grid, positions, multipliers, begun, ve, final.current);
  }

  lemma BegunTally(c: Config, bet: int, positions: seq<Position>, multipliers: seq<int>, begun: seq<Event>, step: int,
                   start: FeatureState)
    requires ChainBuilt(positions, begun, multipliers, step)
    ensures Tally(c, Overdrive, bet, start, start, begun, 0, 0)
  {
    ChainIsQuiet(positions, begun, multipliers, step);
    QuietSums(begun, |begun|);
  }

  function RevealEvents(positions: seq<Position>, multipliers: seq<int>): seq<Event>
    requires |positions| == |multipliers|
  {
    seq(|positions|, k requires 0 <= k < |positions| => UnlockedEvent(positions[k], VaultPrize(multipliers[k], true), multipliers[k]))
  }

  function FinalAwards(bet: int, positions: seq<Position>, multipliers: seq<int>): seq<Event>
    requires |positions| == |multipliers|
  {
    seq(|positions|, k requires 0 <= k < |positions| => FinalAward(bet, positions[k], multipliers[k]))
  }

  lemma RevealedIs(positions: seq<Position>, begun: seq<Event>, events: seq<Event>, multipliers: seq<int>)
    requires Revealed(positions, begun, events, multipliers, |positions|)
    ensures events == begun + RevealEvents(positions, multipliers)
  {
    forall i | 0 <= i < |events|
      ensures events[i] == (begun + RevealEvents(positions, multipliers))[i]
    {
      if i < 2 {
        assert events[..2][i] == begun[i];
      } else {
        assert KingReveal(positions[i - 2], events[i - 2 + 2]);
      }
    }
  }

  lemma AwardedIs(bet: int, grid: Grid, positions: seq<Position>, multipliers: seq<int>, begun: seq<Event>, ve: seq<Event>)
    requires AwardedTo(bet, grid, positions, multipliers, begun, ve, |positions|)
    ensures ve == begun + FinalAwards(bet, positions, multipliers)
  {
    forall i | 0 <= i < |ve|
      ensures ve[i] == (begun + FinalAwards(bet, positions, multipliers))[i]
    {
      if i < |begun| {
        assert ve[..|begun|][i] == begun[i];
      } else {
        assert ve[|begun| + (i - |begun|)] == FinalAward(bet, positions[i - |begun|], multipliers[i - |begun|]);
      }
    }
  }

  /** A whole King Spin as the tape has it: reveals, rounds, and what the multipliers then award. */
  function KingSample(c: Config, bet: int, positions: seq<Position>, tape: seq<nat>): Sample<seq<Event>> {
    var shown := RevealsTo(c, |positions|, tape);
    match shown.result
    case Err(fault) => Sample(Err(fault), shown.rest)
    case Ok(first) =>
      var begun := [GroupEvent(VaultsLanded, positions), GroupEvent(VaultsUnlockStarted, positions)];
      var unlocked := begun + RevealEvents(positions, first) + [GroupEvent(VaultsUnlockCompleted, positions)];
      SettledSample(c, bet, positions, unlocked, first, shown.rest)
  }

  /** What follows the reveals, as the tape has it. */
  function SettledSample(c: Config, bet: int, positions: seq<Position>, unlocked: seq<Event>, first: seq<int>, tape: seq<nat>)
    : Sample<seq<Event>>
    requires |positions| == |first|
  {
    var rounds := RoundsFrom(c, positions, unlocked, first, 1, tape);
    match rounds.result
    case Err(fault) => Sample(Err(fault), rounds.rest)
    case Ok(upgraded) => Sample(Ok(upgraded.0 + FinalAwards(bet, positions, upgraded.1)), rounds.rest)
  }

  /** What a method returned, without the total, beside what the tape holds. */
  predicate SameSection(r: Result<(seq<Event>, int)>, rest: seq<nat>, s: Sample<seq<Event>>) {
    rest == s.rest && s.result == match r case Err(fault) => Err(fault) case Ok(value) => Ok(value.0)
  }

  /** The upgrade rounds over the revealed Vaults, and the final awards. */
  method UpgradeAndAward(rng: RandomSource, c: Config, bet: int, grid: array2<Cell>, positions: seq<Position>, multipliers: array<int>,
                         unlocked: seq<Event>, ghost start: FeatureState)
    returns (r: Result<(seq<Event>, int)>)
    requires KingTablesOk(c, bet) && grid.Length0 == 3 && GridOk(GridOf(grid)) && multipliers.Length == |positions|
    requires positions == PositionsFor(GridOf(grid), Vault) && Distinct(positions) && |positions| <= MAX_VAULTS
    requires KingMultipliers(c, multipliers[..]) && ChainBuilt(positions, unlocked, multipliers[..], 1)
    modifies rng, grid, multipliers
    ensures r.Ok? ==> Rewarded(old(GridOf(grid)), GridOf(grid))
    ensures r.Ok? ==> KingShape(bet, GridOf(grid), positions, r.value.0)
    ensures r.Ok? ==> Tally(c, Overdrive, bet, start, start, r.value.0, r.value.1, |positions|)
    ensures SameSection(r, rng.tape, SettledSample(c, bet, positions, unlocked, old(multipliers[..]), old(rng.tape)))
    ensures r.Err? ==> r.fault == RandomFailed && rng.tape == []
  {
    ghost var before := GridOf(grid);
    var upgraded, step := UpgradeRounds(rng, c, bet, multipliers, positions, unlocked);
    match upgraded
    case Err(fault) => return Err(fault);
    case Ok(events) =>
      BegunTally(c, bet, positions, multipliers[..], events, step, start);
      r := AwardVaults(c, bet, grid, positions, multipliers, events, before, start);
      KingSettled(c, bet, GridOf(grid), positions, multipliers[..], events, r.value.0, step);
      AwardedIs(bet, GridOf(grid), positions, multipliers[..], events, r.value.0);
  }

  /** A whole King Spin: reveals, rounds and awards, in the order the validator checks. */
  method ResolveKingVaults(rng: RandomSource, c: Config, bet: int, grid: array2<Cell>, positions: seq<Position>,
                           ghost start: FeatureState)
    returns (r: Result<(seq<Event>, int)>)
    requires KingTablesOk(c, bet) && grid.Length0 == 3 && GridOk(GridOf(grid))
    requires positions == PositionsFor(GridOf(grid), Vault) && Distinct(positions) && |positions| <= MAX_VAULTS
    modifies rng, grid
    ensures r.Ok? ==> Rewarded(old(GridOf(grid)), GridOf(grid))
    ensures r.Ok? ==> KingShape(bet, GridOf(grid), positions, r.value.0)
    ensures r.Ok? ==> Tally(c, Overdrive, bet, start, start, r.value.0, r.value.1, |positions|)
    ensures SameSection(r, rng.tape, KingSample(c, bet, positions, old(rng.tape)))
    ensures r.Err? ==> r.fault == RandomFailed && rng.tape == []
  {
    var begun := [GroupEvent(VaultsLanded, positions), GroupEvent(VaultsUnlockStarted, positions)];
    var revealed := RevealVaults(rng, c, bet, positions, begun);
    match revealed
    case Err(fault) => return Err(fault);
    case Ok(shown) =>
      var unlocked := shown.1 + [GroupEvent(VaultsUnlockCompleted, positions)];
      RevealsBuilt(positions, shown.1, shown.0[..], unlocked);
      RevealedIs(positions, begun, shown.1, shown.0[..]);
      r := UpgradeAndAward(rng, c, bet, grid, positions, shown.0, unlocked, start);
  }
}
