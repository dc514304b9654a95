/** The engine's completeness theorem: what a spin builds, once capped, passes its own validator. */
module EngineCompleteness {
  import opened Money
  import opened Weights
  import opened GameTypes
  import opened Grids
  import opened Ways
  import opened WaysForBet
  import opened GameConfig
  import opened WinCap
  import opened OutcomeRules
  import opened SpinShape
  import opened EventLists
  import opened FeatureStates
  import opened RawSpins
  import opened OpenedVaults
  import opened KingVaults
  import opened Completeness
  import opened CapAccepted
  import opened SpinAccepted
  import opened VaultsAccepted
  import opened RageAccepted

  // --- The next state ---

  lemma LevelWithin(c: Config, collected: int)
    requires ThresholdsOk(c.feature.rageThresholds)
    ensures DEFAULT_RAGE_LEVEL <= RageLevelFor(collected, c.feature.rageThresholds) <= |c.feature.rageThresholds|
  {
  }

  lemma MeterKept(c: Config, bet: int, f: FeatureState, surges: int, triggered: bool)
    requires FeatureOk(c.feature) && FeatureStateOk(c, bet, f) && f == f.Canonical() && 1 <= surges <= 3
    requires surges < 3 ==> f.rageCollected + surges <= MAX_RAGE_COLLECTED
    ensures var meter := MeterAfter(c, f, surges, triggered);
            forall state: FeatureState :: state.rageLevel == meter.0 && state.rageCollected == meter.1 ==> RageMeterOk(c, state)
  {
    LevelWithin(c, f.rageCollected + surges);
  }

  /** What the draws of a spin make of its state, before the cap closes it. */
  predicate RawNextOk(c: Config, input: SpinInput, next: FeatureState) {
    var f := input.feature;
    && RageMeterOk(c, next)
    && if f.Active() then
         && next == f.(remaining := next.remaining, awarded := next.awarded)
         && 0 <= f.remaining - 1 <= next.remaining && next.remaining - (f.remaining - 1) == next.awarded - f.awarded
         && (next.awarded > f.awarded ==> f.mode == Expansion && next.awarded <= c.feature.maxExpansionSpins)
       else
         || next == FeatureState(Base, 0, 0, 0, 0, next.rageLevel, next.rageCollected)
         || (&& next.mode in {Expansion, Overdrive} && next.bet == input.bet && next.win == 0
             && next.remaining == next.awarded == INITIAL_FREE_SPINS)
  }

  lemma RawNextIs(c: Config, input: SpinInput, raw: Outcome, pre: seq<Event>, vault: seq<Event>, rage: seq<Event>,
                  draws: RageDraws, middle: FeatureState)
    requires RawSpin(c, input, raw, pre, vault, rage, draws, middle)
    ensures RawNextOk(c, input, raw.next)
    ensures input.feature.Active() ==> raw.next == middle && rage == [] && VaultStep(c, input.feature, vault, raw.next)
  {
    var f, surges := input.feature, PositionsFor(raw.grid, Surge);
    if !f.Active() && surges != [] {
      MeterKept(c, input.bet, f, |surges|, draws.triggered);
    }
  }

  /** Closing a spin leaves a state that is accepted as the next input. */
  lemma ClosedNextOk(c: Config, input: SpinInput, next: FeatureState, paid: int)
    requires FeatureOk(c.feature) && FeatureStateOk(c, input.bet, input.feature) && input.feature == input.feature.Canonical()
    requires RawNextOk(c, input, next)
    requires 0 < input.bet && 0 <= c.maxWin && GameCap(c, input) <= MAX_INT64 && 0 <= paid <= Budget(c, input)
    ensures var closed := ClosedNext(input, next, paid); FeatureStateOk(c, input.bet, closed) && closed == closed.Canonical()
  {
  }

  lemma NextOk(c: Config, input: SpinInput, raw: Outcome, pre: seq<Event>, vault: seq<Event>, rage: seq<Event>,
               draws: RageDraws, middle: FeatureState)
    requires RawSpin(c, input, raw, pre, vault, rage, draws, middle)
    requires 0 < input.bet && 0 <= c.maxWin && GameCap(c, input) <= MAX_INT64
    requires 0 <= PaidTotal(Budget(c, input), raw.wins, raw.events) <= Budget(c, input)
    ensures FeatureStateOk(c, input.bet, Capped(c, input, raw).next)
  {
    RawNextIs(c, input, raw, pre, vault, rage, draws, middle);
    ClosedNextOk(c, input, raw.next, PaidTotal(Budget(c, input), raw.wins, raw.events));
  }

  /** A state the engine accepts next has the shape the validator demands. */
  lemma NextShaped(c: Config, bet: int, next: FeatureState)
    requires FeatureOk(c.feature) && 0 < bet && FeatureStateOk(c, bet, next)
    ensures NextShapeOk(next, bet)
  {
  }

  // --- Free spins ---

  lemma {:induction false} FreeSpinsOfVaults(events: seq<Event>, ve: seq<Event>, w: nat, n: nat)
    requires VaultsAt(events, ve, w) && n <= |events|
    ensures FreeSpinsAwarded(events, n) ==
            if n <= w then 0 else FreeSpinsAwarded(ve, if n <= w + |ve| then n - w else |ve|)
  {
    if n > 0 {
      FreeSpinsOfVaults(events, ve, w, n - 1);
      if w < n <= w + |ve| {
        VaultEventIs(events, ve, w, n - 1 - w);
      }
    }
  }

  lemma FreeCountIsOne(mode: FeatureMode, bet: int, grid: Grid, ve: seq<Event>, j: nat)
    requires VaultShape(mode, bet, grid, ve) && j < |ve| && ve[j].kind == FreeSpinAwarded
    ensures ve[j].count == 1
  {
    var positions := PositionsFor(grid, Vault);
    if mode == Overdrive {
      KingKinds(positions, ve, j);
    } else if !LockedShape(grid, positions, ve) {
      OpenedKinds(mode, bet, grid, positions, ve, j);
      var k := (j - 2) / 2;
      assert OpenedPair(mode, bet, positions[k], CellAt(grid, positions[k]), ve[2 * k + 2], ve[2 * k + 3]);
    }
  }

  lemma FreeAwardsAccepted(mode: FeatureMode, bet: int, grid: Grid, events: seq<Event>, ve: seq<Event>, w: nat)
    requires VaultShape(mode, bet, grid, ve) && VaultsAt(events, ve, w)
    ensures FreeAwardsPositive(events)
    ensures FreeSpinsAwarded(events, |events|) == FreeSpinsAwarded(ve, |ve|)
  {
    FreeSpinsOfVaults(events, ve, w, |events|);
    forall i | 0 <= i < |events| && events[i].kind == FreeSpinAwarded
      ensures events[i].count > 0
    {
      VaultEventIs(events, ve, w, i - w);
      FreeCountIsOne(mode, bet, grid, ve, i - w);
    }
  }

  /** The counters and the completion event of a spin, from where its events stand. */
  lemma CompletionAssembled(c: Config, input: SpinInput, next: FeatureState, o: Outcome, vault: seq<Event>)
    requires StateReady(c, input, next, o) && EndReady(input, next, o)
    requires SpinsReady(c, input, next, o, vault)
    ensures FeatureCompletionOk(input.feature, o)
  {
  }

  predicate StateReady(c: Config, input: SpinInput, next: FeatureState, o: Outcome) {
    var f := input.feature;
    && f == f.Canonical() && FeatureStateOk(c, input.bet, f) && FeatureOk(c.feature)
    && RawNextOk(c, input, next) && o.next == ClosedNext(input, next, o.total)
    && 0 <= o.total && PriorWin(input) + o.total <= GameCap(c, input) <= MAX_INT64
  }

  predicate EndReady(input: SpinInput, next: FeatureState, o: Outcome) {
    && Indexes(o.events, FreeSpinsCompleted) == (if input.feature.Active() && next.remaining == 0 then [|o.events| - 1] else [])
    && (input.feature.Active() && next.remaining == 0 ==>
          |o.events| > 0 && o.events[|o.events| - 1] == CompletionEvent(input.feature.mode, next.awarded, PriorWin(input) + o.total))
  }

  predicate SpinsReady(c: Config, input: SpinInput, next: FeatureState, o: Outcome, vault: seq<Event>) {
    input.feature.Active() ==>
      && VaultStep(c, input.feature, vault, next) && FreeAwardsPositive(o.events)
      && FreeSpinsAwarded(o.events, |o.events|) == FreeSpinsAwarded(vault, |vault|)
  }

  lemma StateIsReady(c: Config, input: SpinInput, raw: Outcome, pre: seq<Event>, vault: seq<Event>, rage: seq<Event>,
                     draws: RageDraws, middle: FeatureState)
    requires RawSpin(c, input, raw, pre, vault, rage, draws, middle) && CapReady(c, input, raw)
    ensures StateReady(c, input, raw.next, Capped(c, input, raw))
  {
    RawNextIs(c, input, raw, pre, vault, rage, draws, middle);
    PaidSums(c, input, raw);
  }

  lemma EndIsReady(c: Config, input: SpinInput, raw: Outcome)
    requires CapReady(c, input, raw) && input.feature == input.feature.Canonical()
    ensures EndReady(input, raw.next, Capped(c, input, raw))
  {
    CompletionPlace(c, input, raw);
    CompletionIsLast(c, input, raw);
  }

  lemma SpinsAreReady(c: Config, input: SpinInput, raw: Outcome, pre: seq<Event>, vault: seq<Event>, rage: seq<Event>,
                      draws: RageDraws, middle: FeatureState)
    requires RawSpin(c, input, raw, pre, vault, rage, draws, middle) && CapReady(c, input, raw)
    requires InSections(raw.events, pre, vault, rage)
    ensures input.feature == input.feature.Canonical()
    ensures SpinsReady(c, input, raw.next, Capped(c, input, raw), vault)
  {
    RawNextIs(c, input, raw, pre, vault, rage, draws, middle);
    FreeSpinsFound(input.feature, input.bet, raw, Capped(c, input, raw).events, pre, vault, rage, c, input);
  }

  lemma CompletionIsLast(c: Config, input: SpinInput, raw: Outcome)
    requires CapReady(c, input, raw)
    ensures var o := Capped(c, input, raw);
            input.feature.Canonical().Active() && raw.next.remaining == 0 ==>
              |o.events| > 0 && o.events[|o.events| - 1] == CompletionEvent(input.feature.Canonical().mode, raw.next.awarded,
                                                                          PriorWin(input) + o.total)
  {
  }

  lemma CompletionAccepted(c: Config, input: SpinInput, raw: Outcome, pre: seq<Event>, vault: seq<Event>, rage: seq<Event>,
                           draws: RageDraws, middle: FeatureState)
    requires RawSpin(c, input, raw, pre, vault, rage, draws, middle) && CapReady(c, input, raw)
    requires InSections(raw.events, pre, vault, rage)
    ensures FeatureCompletionOk(input.feature, Capped(c, input, raw))
  {
    StateIsReady(c, input, raw, pre, vault, rage, draws, middle);
    SpinsAreReady(c, input, raw, pre, vault, rage, draws, middle);
    EndIsReady(c, input, raw);
    CompletionAssembled(c, input, raw.next, Capped(c, input, raw), vault);
  }

  lemma FreeSpinsFound(f: FeatureState, bet: int, raw: Outcome, events: seq<Event>, pre: seq<Event>, vault: seq<Event>,
                       rage: seq<Event>, c: Config, input: SpinInput)
    requires CapReady(c, input, raw) && InSections(raw.events, pre, vault, rage) && VaultShape(f.mode, bet, raw.grid, vault)
    requires events == Capped(c, input, raw).events
    ensures FreeAwardsPositive(events)
    ensures FreeSpinsAwarded(events, |events|) == FreeSpinsAwarded(vault, |vault|)
  {
    CappedFacts(c, input, raw);
    VaultsPlaced(raw.events, events, pre, vault, rage);
    FreeAwardsAccepted(f.mode, bet, raw.grid, events, vault, |pre|);
  }

  // --- Rage ---

  lemma WheelPaid(c: Config, input: SpinInput, raw: Outcome, pre: seq<Event>, vault: seq<Event>, rage: seq<Event>, j: nat,
                  wheel: WheelPrize, at: nat)
    requires CapReady(c, input, raw) && InSections(raw.events, pre, vault, rage) && at == |pre| + |vault| + j
    requires j < |rage| && rage[j] == WheelEvent(input.bet, wheel)
    ensures WheelPaidOk(input.bet, wheel, Capped(c, input, raw).events, at)
  {
    WheelClipped(c, input, raw, pre, vault, rage, j);
  }

  /** What a triggered base spin leaves for the wheel and the meter. */
  lemma TriggeredState(c: Config, bet: int, f: FeatureState, grid: Grid, draws: RageDraws, rage: seq<Event>,
                       before: FeatureState, after: FeatureState, input: SpinInput, paid: int)
    requires RageStep(c, bet, f, grid, draws, rage, before, after) && !f.Active() && before.mode == Base
    requires f == input.feature == f.Canonical() && PositionsFor(grid, Surge) != [] && draws.triggered && RageMeterOk(c, f)
    ensures var surges := PositionsFor(grid, Surge);
            var meter := MeterAfter(c, f, |surges|, true);
            && rage == RageEvents(bet, surges, true, meter.0, meter.1, draws.cells, draws.wheel)
            && TriggeredFacts(f, grid, ClosedNext(input, after, paid), surges, meter.0, meter.1, draws.cells, draws.wheel)
  {
  }

  /** A triggered section in the final list of a spin. */
  predicate TriggeredIn(bet: int, events: seq<Event>, w: nat, t: nat, surges: seq<Position>, level: int, total: int,
                        cells: seq<Position>, wheel: WheelPrize) {
    && TriggeredAt(events, w, t, wheel.kind == Instant)
    && CollectionPlaced(events, w, surges, level, total, cells)
    && WheelPlaced(bet, events, w + t + 2, wheel)
  }

  lemma TriggeredInPlace(events: seq<Event>, w: nat, t: nat, bet: int, surges: seq<Position>, level: int, total: int,
                         cells: seq<Position>, wheel: WheelPrize)
    requires 1 <= |surges| <= 3 && t == (if |surges| < 3 then 1 else 0)
    requires RageAt(events, RageEvents(bet, surges, true, level, total, cells, wheel), w)
    ensures TriggeredIn(bet, events, w, t, surges, level, total, cells, wheel)
  {
    TriggeredPlaced(events, w, bet, surges, level, total, cells, wheel);
    TriggeredEventsPlaced(events, w, bet, surges, level, total, cells, wheel);
  }

  /** The state facts behind a triggered section. */
  predicate TriggeredFacts(f: FeatureState, grid: Grid, next: FeatureState, surges: seq<Position>, level: int, total: int,
                           cells: seq<Position>, wheel: WheelPrize) {
    && !f.Active() && surges == PositionsFor(grid, Surge) && 1 <= |surges| <= 3 && WheelEntryOk(wheel)
    && TriggeredNext(f, |surges|, wheel, next)
    && (|surges| < 3 ==> f.rageCollected + |surges| <= MAX_RAGE_COLLECTED && TransformedOk(grid, surges, cells))
    && (if |surges| < 3 then level == DEFAULT_RAGE_LEVEL && total == 0
        else 1 <= level == f.rageLevel && total == f.rageCollected)
  }

  predicate WheelPaidOk(bet: int, wheel: WheelPrize, events: seq<Event>, at: nat) {
    && at < |events| && Clipped(bet, WheelEvent(bet, wheel), events[at], HasWinCap(events))
    && (wheel.kind != Instant ==> events[at].amount == 0)
  }

  predicate WheelJudged(bet: int, o: Outcome, at: nat, wheel: WheelPrize) {
    at < |o.events| && WheelAwardOk(bet, o, o.events[at], at, if wheel.kind == Instant then [] else [at + 1])
  }

  lemma TriggeredWheelOk(f: FeatureState, bet: int, o: Outcome, at: nat, surges: nat, wheel: WheelPrize)
    requires 0 < bet && WheelEntryOk(wheel) && TriggeredNext(f, surges, wheel, o.next)
    requires WheelPlaced(bet, o.events, at, wheel) && WheelPaidOk(bet, wheel, o.events, at)
    ensures WheelJudged(bet, o, at, wheel)
  {
    WheelAwardAccepted(bet, o, at, f, surges, wheel);
  }

  /** A triggered collection and its wheel, judged by the validator. */
  lemma TriggeredSpinAccepted(f: FeatureState, bet: int, o: Outcome, w: nat, t: nat, surges: seq<Position>, level: int,
                              total: int, cells: seq<Position>, wheel: WheelPrize, at: nat)
    requires TriggeredFacts(f, o.grid, o.next, surges, level, total, cells, wheel) && t == (if |surges| < 3 then 1 else 0)
    requires TriggeredIn(bet, o.events, w, t, surges, level, total, cells, wheel)
    requires at == w + t + 2 && WheelJudged(bet, o, at, wheel)
    ensures RageAndWheelOk(f, bet, o)
  {
    TriggeredCollection(f, o, surges, w, level, total, cells);
    TriggeredAccepted(f, bet, o, surges, w, t, wheel);
  }

  /** A triggered section at its place, with the raw event of its wheel. */
  lemma RageSettled(events: seq<Event>, w: nat, t: nat, bet: int, rage: seq<Event>, surges: seq<Position>, level: int,
                    total: int, cells: seq<Position>, wheel: WheelPrize)
    requires 1 <= |surges| <= 3 && t == (if |surges| < 3 then 1 else 0)
    requires rage == RageEvents(bet, surges, true, level, total, cells, wheel) && RageAt(events, rage, w)
    ensures TriggeredIn(bet, events, w, t, surges, level, total, cells, wheel)
    ensures t + 2 < |rage| && rage[t + 2] == WheelEvent(bet, wheel)
  {
    TriggeredInPlace(events, w, t, bet, surges, level, total, cells, wheel);
    TriggeredLayout(bet, surges, level, total, cells, wheel);
  }

  /** What is paid of the wheel award of a triggered spin. */
  lemma RageWheelPaid(c: Config, input: SpinInput, raw: Outcome, pre: seq<Event>, vault: seq<Event>, rage: seq<Event>,
                      t: nat, surges: seq<Position>, draws: RageDraws, level: int, total: int, o: Outcome, w: nat, at: nat)
    requires CapReady(c, input, raw) && InSections(raw.events, pre, vault, rage) && o == Capped(c, input, raw)
    requires 1 <= |surges| <= 3 && t == (if |surges| < 3 then 1 else 0) && w == |pre| + |vault| && at == w + t + 2
    requires rage == RageEvents(input.bet, surges, true, level, total, draws.cells, draws.wheel)
    ensures WheelPaidOk(input.bet, draws.wheel, o.events, at)
  {
    TriggeredLayout(input.bet, surges, level, total, draws.cells, draws.wheel);
    WheelPaid(c, input, raw, pre, vault, rage, t + 2, draws.wheel, at);
  }

  lemma FactsOfWheel(f: FeatureState, bet: int, o: Outcome, w: nat, t: nat, surges: seq<Position>, level: int, total: int,
                     cells: seq<Position>, wheel: WheelPrize, at: nat)
    requires TriggeredFacts(f, o.grid, o.next, surges, level, total, cells, wheel) && at == w + t + 2
    requires TriggeredIn(bet, o.events, w, t, surges, level, total, cells, wheel)
    ensures WheelEntryOk(wheel) == true && TriggeredNext(f, |surges|, wheel, o.next)
    ensures WheelPlaced(bet, o.events, at, wheel) == true
  {
  }

  lemma RageTriggered(f: FeatureState, bet: int, o: Outcome, w: nat, t: nat, at: nat, rage: seq<Event>,
                      surges: seq<Position>, draws: RageDraws, level: int, total: int)
    requires 0 < bet && t == (if |surges| < 3 then 1 else 0) && at == w + t + 2
    requires rage == RageEvents(bet, surges, true, level, total, draws.cells, draws.wheel) && RageAt(o.events, rage, w)
    requires TriggeredFacts(f, o.grid, o.next, surges, level, total, draws.cells, draws.wheel)
    requires WheelPaidOk(bet, draws.wheel, o.events, at)
    ensures RageAndWheelOk(f, bet, o)
  {
    RageSettled(o.events, w, t, bet, rage, surges, level, total, draws.cells, draws.wheel);
    FactsOfWheel(f, bet, o, w, t, surges, level, total, draws.cells, draws.wheel, at);
    TriggeredWheelOk(f, bet, o, at, |surges|, draws.wheel);
    TriggeredSpinAccepted(f, bet, o, w, t, surges, level, total, draws.cells, draws.wheel, at);
  }

  lemma CappedIs(c: Config, input: SpinInput, raw: Outcome)
    ensures var o := Capped(c, input, raw); o.grid == raw.grid && o.next == ClosedNext(input, raw.next, o.total)
  {
  }

  lemma CreditedState(c: Config, bet: int, f: FeatureState, grid: Grid, draws: RageDraws, rage: seq<Event>,
                      before: FeatureState, after: FeatureState, input: SpinInput, paid: int)
    requires RageStep(c, bet, f, grid, draws, rage, before, after) && !f.Active() && before.mode == Base
    requires f == input.feature == f.Canonical() && PositionsFor(grid, Surge) != [] && !draws.triggered
    ensures var surges := PositionsFor(grid, Surge);
            var level := RageLevelFor(f.rageCollected + |surges|, c.feature.rageThresholds);
            && 1 <= |surges| < 3 && f.rageCollected + |surges| <= MAX_RAGE_COLLECTED
            && rage == [CollectedEvent(surges, false, level, f.rageCollected + |surges|)]
            && ClosedNext(input, after, paid).rageLevel == level
            && ClosedNext(input, after, paid).rageCollected == f.rageCollected + |surges|
  {
  }

  lemma CappedRageAt(c: Config, input: SpinInput, raw: Outcome, pre: seq<Event>, vault: seq<Event>, rage: seq<Event>)
    requires CapReady(c, input, raw) && InSections(raw.events, pre, vault, rage)
    ensures RageAt(Capped(c, input, raw).events, rage, |pre| + |vault|)
  {
    CappedFacts(c, input, raw);
    RagePlaced(raw.events, Capped(c, input, raw).events, pre, vault, rage);
  }

  lemma RageCredited(c: Config, input: SpinInput, raw: Outcome, pre: seq<Event>, vault: seq<Event>, rage: seq<Event>,
                     draws: RageDraws, middle: FeatureState)
    requires CapReady(c, input, raw) && InSections(raw.events, pre, vault, rage) && FeatureOk(c.feature)
    requires var f := input.feature; !f.Active() && f == f.Canonical() && RageMeterOk(c, f)
    requires RageStep(c, input.bet, input.feature, raw.grid, draws, rage, middle, raw.next) && middle.mode == Base
    requires PositionsFor(raw.grid, Surge) != [] && !draws.triggered
    ensures RageAndWheelOk(input.feature, input.bet, Capped(c, input, raw))
  {
    var f, o, surges := input.feature, Capped(c, input, raw), PositionsFor(raw.grid, Surge);
    LevelWithin(c, f.rageCollected + |surges|);
    CappedRageAt(c, input, raw, pre, vault, rage);
    CreditedState(c, input.bet, f, raw.grid, draws, rage, middle, raw.next, input, o.total);
    CreditedAccepted(f, input.bet, o, surges, |pre| + |vault|, RageLevelFor(f.rageCollected + |surges|, c.feature.rageThresholds));
  }

  lemma RageSilent(c: Config, input: SpinInput, raw: Outcome, pre: seq<Event>, vault: seq<Event>)
    requires CapReady(c, input, raw) && InSections(raw.events, pre, vault, [])
    requires PositionsFor(raw.grid, Surge) == [] && input.feature == input.feature.Canonical()
    requires !input.feature.Active() ==>
               && raw.next.mode == Base && raw.next.rageLevel == input.feature.rageLevel
               && raw.next.rageCollected == input.feature.rageCollected
    ensures RageAndWheelOk(input.feature, input.bet, Capped(c, input, raw))
  {
    var o := Capped(c, input, raw);
    CappedFacts(c, input, raw);
    RagePlaced(raw.events, o.events, pre, vault, []);
    SilentRage(o.events, |pre| + |vault|);
  }

  /** The Rage part of what a raw spin says. */
  lemma RageOfRaw(c: Config, input: SpinInput, raw: Outcome, pre: seq<Event>, vault: seq<Event>, rage: seq<Event>,
                  draws: RageDraws, middle: FeatureState)
    requires RawSpin(c, input, raw, pre, vault, rage, draws, middle)
    ensures var f, surges := input.feature, PositionsFor(raw.grid, Surge);
            && f == f.Canonical() && RageMeterOk(c, f) && FeatureOk(c.feature)
            && RageStep(c, input.bet, f, raw.grid, draws, rage, middle, raw.next)
            && (!f.Active() ==> middle.mode == Base)
            && (f.Active() || surges == [] ==> surges == [] && rage == [])
            && (!f.Active() && surges == [] ==>
                  raw.next.mode == Base && raw.next.rageLevel == f.rageLevel && raw.next.rageCollected == f.rageCollected)
  {
  }

  lemma RageRulesAccepted(c: Config, input: SpinInput, raw: Outcome, pre: seq<Event>, vault: seq<Event>, rage: seq<Event>,
                          draws: RageDraws, middle: FeatureState)
    requires RawSpin(c, input, raw, pre, vault, rage, draws, middle) && CapReady(c, input, raw)
    requires InSections(raw.events, pre, vault, rage)
    ensures RageAndWheelOk(input.feature, input.bet, Capped(c, input, raw))
  {
    RageOfRaw(c, input, raw, pre, vault, rage, draws, middle);
    if input.feature.Active() || PositionsFor(raw.grid, Surge) == [] {
      RageSilent(c, input, raw, pre, vault);
    } else if draws.triggered {
      var o, surges := Capped(c, input, raw), PositionsFor(raw.grid, Surge);
      var meter := MeterAfter(c, input.feature, |surges|, true);
      CappedIs(c, input, raw);
      TriggeredState(c, input.bet, input.feature, raw.grid, draws, rage, middle, raw.next, input, o.total);
      var t, w := if |surges| < 3 then 1 else 0, |pre| + |vault|;
      CappedRageAt(c, input, raw, pre, vault, rage);
      RageWheelPaid(c, input, raw, pre, vault, rage, t, surges, draws, meter.0, meter.1, o, w, w + t + 2);
      RageTriggered(input.feature, input.bet, o, w, t, w + t + 2, rage, surges, draws, meter.0, meter.1);
    } else {
      RageCredited(c, input, raw, pre, vault, rage, draws, middle);
    }
  }

  // --- The theorem ---

  /** Completeness: the capped outcome of any raw spin is valid, and its next state is accepted at the same bet. */
  lemma RawSpinIsValid(c: Config, input: SpinInput, raw: Outcome, pre: seq<Event>, vault: seq<Event>, rage: seq<Event>,
                       draws: RageDraws, middle: FeatureState)
    requires RawSpin(c, input, raw, pre, vault, rage, draws, middle)
    ensures OutcomeOk(c, input, Capped(c, input, raw))
    ensures FeatureStateOk(c, input.bet, Capped(c, input, raw).next)
  {
    var o := Capped(c, input, raw);
    BetsLegal(c, input);
    RawReady(c, input, raw, pre, vault, rage, draws, middle);
    PaidSums(c, input, raw);
    NextOk(c, input, raw, pre, vault, rage, draws, middle);
    StructureAccepted(c, input, raw, pre, vault, rage, draws, middle);
    CappedAwardsAccepted(c, input, raw);
  }

  lemma FieldRulesAccepted(c: Config, input: SpinInput, raw: Outcome, pre: seq<Event>, vault: seq<Event>, rage: seq<Event>,
                           draws: RageDraws, middle: FeatureState)
    requires RawSpin(c, input, raw, pre, vault, rage, draws, middle) && CapReady(c, input, raw)
    requires forall i :: 0 <= i < |raw.events| ==> EventFieldsOk(raw.events[i], |raw.grid[0]|)
    requires forall i :: 0 <= i < |raw.wins| ==> NominalWinOk(raw.wins[i], raw.grid)
    ensures var o := Capped(c, input, raw);
            && (forall i :: 0 <= i < |o.wins| ==> WinOk(o.wins[i], o.grid))
            && (forall i :: 0 <= i < |o.events| ==> EventFieldsOk(o.events[i], |o.grid[0]|))
  {
    RawNextIs(c, input, raw, pre, vault, rage, draws, middle);
    WinRulesAccepted(c, input, raw);
    FieldsAccepted(c, input, raw, |raw.grid[0]|);
  }

  predicate Shapes(input: SpinInput, raw: Outcome, pre: seq<Event>, vault: seq<Event>, rage: seq<Event>) {
    var f := input.feature;
    && GridOk(raw.grid) && PreShape(f.mode, |raw.grid[0]|, pre) && VaultShape(f.mode, input.bet, raw.grid, vault)
    && (f.mode == Overdrive ==> rage == [])
  }

  lemma ShapesOfRaw(c: Config, input: SpinInput, raw: Outcome, pre: seq<Event>, vault: seq<Event>, rage: seq<Event>,
                    draws: RageDraws, middle: FeatureState)
    requires RawSpin(c, input, raw, pre, vault, rage, draws, middle)
    ensures Shapes(input, raw, pre, vault, rage)
  {
  }

  predicate FieldsOk(events: seq<Event>, rows: int) {
    forall i :: 0 <= i < |events| ==> EventFieldsOk(events[i], rows)
  }

  lemma OrderRulesAccepted(c: Config, input: SpinInput, raw: Outcome, pre: seq<Event>, vault: seq<Event>, rage: seq<Event>,
                           o: Outcome)
    requires Shapes(input, raw, pre, vault, rage) && CapReady(c, input, raw) && o == Capped(c, input, raw)
    requires InSections(raw.events, pre, vault, rage) && FieldsOk(o.events, |o.grid[0]|)
    ensures ExpansionEventsOk(input.feature, o) && VaultEventsOk(input.feature, input.bet, o)
  {
    CappedFacts(c, input, raw);
    CappedIs(c, input, raw);
    VaultAwardsClipped(c, input, raw, pre, vault, rage);
    ExpansionAccepted(input.feature, o, raw.events, pre, vault, rage);
    VaultRulesAccepted(input.feature, input.bet, o, raw.events, pre, vault, rage);
  }

  lemma StructureAccepted(c: Config, input: SpinInput, raw: Outcome, pre: seq<Event>, vault: seq<Event>, rage: seq<Event>,
                          draws: RageDraws, middle: FeatureState)
    requires RawSpin(c, input, raw, pre, vault, rage, draws, middle) && CapReady(c, input, raw)
    requires InSections(raw.events, pre, vault, rage)
    requires forall i :: 0 <= i < |raw.events| ==> EventFieldsOk(raw.events[i], |raw.grid[0]|)
    requires forall i :: 0 <= i < |raw.wins| ==> NominalWinOk(raw.wins[i], raw.grid)
    requires FeatureStateOk(c, input.bet, Capped(c, input, raw).next)
    ensures StructureOk(input, Capped(c, input, raw))
  {
    FieldRulesAccepted(c, input, raw, pre, vault, rage, draws, middle);
    ShapesOfRaw(c, input, raw, pre, vault, rage, draws, middle);
    OrderRulesAccepted(c, input, raw, pre, vault, rage, Capped(c, input, raw));
    TotalAccepted(c, input, raw);
    NextShaped(c, input.bet, Capped(c, input, raw).next);
    WinCapAccepted(c, input, raw);
    RageRulesAccepted(c, input, raw, pre, vault, rage, draws, middle);
    CompletionAccepted(c, input, raw, pre, vault, rage, draws, middle);
  }
}
