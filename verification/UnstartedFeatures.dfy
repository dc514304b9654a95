/** What acceptance does not guarantee: free spins may start although no wheel was won. */
module UnstartedFeatures {
  import opened Money
  import opened GameTypes
  import opened Grids
  import opened Ways
  import opened WaysForBet
  import opened GameConfig
  import opened WinCap
  import opened OutcomeRules
  import opened SpinShape
  import opened FeatureStates
  import opened RawSpins
  import opened EngineCompleteness
  import opened SpinAccepted
  import opened ArithmeticBounds
  import opened AcceptedVaults
  import opened AcceptedFeatures
  import opened WaysEnumeration
  import opened WaysEvaluation
  import opened WaysMeaning
  import opened WaysScaling
  import opened HeavyVaults
  import opened EventLists
  import opened CapAccepted
  import opened RageAccepted

  /** A next state that fits a base spin on which no wheel was won. */
  predicate MayFollow(o: Outcome, bet: int, next: FeatureState) {
    && next.rageLevel == o.next.rageLevel && next.rageCollected == o.next.rageCollected
    && if next.Active() then
         && (next.mode == Expansion || next.mode == Overdrive) && next.remaining <= next.awarded <= MAX_FEATURE_SPINS
         && next.bet == bet && next.win == o.total
       else Rests(next)
  }

  // --- The rules that do not read the next state ---

  lemma ResultsAlike(bet: int, a: Outcome, b: Outcome, p: Position)
    requires a.grid == b.grid && a.events == b.events
    ensures FinalResultOk(bet, a, p) == FinalResultOk(bet, b, p)
  {
  }

  lemma KingsAlike(bet: int, a: Outcome, b: Outcome, positions: seq<Position>, c: int)
    requires a.grid == b.grid && a.events == b.events && 0 <= c < |a.events|
    ensures KingEventsOk(bet, a, positions, c) == KingEventsOk(bet, b, positions, c)
  {
  }

  lemma AllResultsAlike(bet: int, a: Outcome, b: Outcome, positions: seq<Position>)
    requires a.grid == b.grid && a.events == b.events
    ensures (forall p :: p in positions ==> FinalResultOk(bet, a, p)) == (forall p :: p in positions ==> FinalResultOk(bet, b, p))
  {
    forall p | p in positions
      ensures FinalResultOk(bet, a, p) == FinalResultOk(bet, b, p)
    {
      ResultsAlike(bet, a, b, p);
    }
  }

  lemma UnlocksAlike(mode: FeatureMode, bet: int, a: Outcome, b: Outcome, positions: seq<Position>, landed: int)
    requires a.grid == b.grid && a.events == b.events && 0 <= landed < |a.events|
    ensures UnlockedOk(mode, bet, a, positions, landed) == UnlockedOk(mode, bet, b, positions, landed)
  {
    var ends := Indexes(a.events, VaultsUnlockCompleted);
    AllResultsAlike(bet, a, b, positions);
    if |ends| == 1 && 0 <= ends[0] < |a.events| {
      KingsAlike(bet, a, b, positions, ends[0]);
    }
  }

  lemma VaultsAlike(f: FeatureState, bet: int, a: Outcome, b: Outcome)
    requires a.grid == b.grid && a.events == b.events
    ensures VaultEventsOk(f, bet, a) == VaultEventsOk(f, bet, b)
  {
    var landed := if f.mode == Expansion then 1 else 0;
    if landed < |a.events| {
      UnlocksAlike(f.mode, bet, a, b, PositionsFor(a.grid, Vault), landed);
    }
  }

  lemma AwardsAlike(c: Config, input: SpinInput, a: Outcome, b: Outcome, wins: seq<Win>)
    requires a.grid == b.grid && a.events == b.events && a.wins == b.wins && a.total == b.total
    ensures CappedAwardsOk(c, input, a, wins) == CappedAwardsOk(c, input, b, wins)
  {
  }

  lemma TotalsAlike(input: SpinInput, a: Outcome, b: Outcome)
    requires a.events == b.events && a.wins == b.wins && a.total == b.total
    ensures WinCapEventOk(input, a) == WinCapEventOk(input, b) && TotalOk(a) == TotalOk(b)
  {
  }

  lemma ShapeFollows(next: FeatureState, was: FeatureState, bet: int)
    requires NextShapeOk(was, bet) && bet > 0 && next.rageLevel == was.rageLevel && next.rageCollected == was.rageCollected
    ensures NextShapeOk(next, bet) <==>
              if next.Active() then
                && (next.mode == Expansion || next.mode == Overdrive) && next.remaining <= next.awarded <= MAX_FEATURE_SPINS
                && next.bet == bet && next.win >= 0
              else Rests(next)
  {
  }

  lemma WheelFollows(f: FeatureState, bet: int, o: Outcome, next: FeatureState)
    requires RageAndWheelOk(f, bet, o) && !f.Active() && Absent(o.events, WheelAwarded)
    ensures RageAndWheelOk(f, bet, o.(next := next)) <==> next.rageLevel == o.next.rageLevel && next.rageCollected == o.next.rageCollected
  {
    IndexesNone(o.events, WheelAwarded);
  }

  lemma CompletionFollows(f: FeatureState, o: Outcome, next: FeatureState)
    requires FeatureCompletionOk(f, o) && !f.Active()
    ensures FeatureCompletionOk(f, o.(next := next)) <==> (next.Active() ==> next.win == o.total)
  {
  }

  lemma StructureFollows(input: SpinInput, o: Outcome, next: FeatureState)
    requires StructureOk(input, o) && input.bet > 0 && !input.feature.Canonical().Active() && Absent(o.events, WheelAwarded)
    ensures StructureOk(input, o.(next := next)) <==> MayFollow(o, input.bet, next)
  {
    var f, after := input.feature.Canonical(), o.(next := next);
    VaultsAlike(f, input.bet, o, after);
    TotalsAlike(input, o, after);
    WheelFollows(f, input.bet, o, next);
    CompletionFollows(f, o, next);
    if next.rageLevel == o.next.rageLevel && next.rageCollected == o.next.rageCollected {
      ShapeFollows(next, o.next, input.bet);
    }
  }

  /** On a base spin without a wheel award the validator accepts every next state that keeps the meter and is well formed:
      one that starts free spins, too. */
  lemma NextUnchecked(c: Config, input: SpinInput, o: Outcome, next: FeatureState)
    requires c.bet.step != 0 && c.bet.payUnit > 0 && PaysAll(c.paytable) && OutcomeOk(c, input, o)
    requires !input.feature.Canonical().Active() && Absent(o.events, WheelAwarded)
    ensures OutcomeOk(c, input, o.(next := next)) <==> MayFollow(o, input.bet, next)
  {
    StructureFollows(input, o, next);
    AwardsAlike(c, input, o, o.(next := next), WinsForBet(o.grid, c.paytable, input.bet, c.bet.payUnit));
  }

  predicate StartTold(o: Outcome) {
    exists k :: 0 <= k < |o.events| && o.events[k].kind == FreeSpinsStarted && o.events[k].mode == o.next.mode
  }

  lemma WheelStarts(bet: int, o: Outcome, w: int)
    requires 0 <= w < |o.events| && o.next.Active() && WheelTold(bet, o, w)
    ensures StartTold(o)
  {
  }

  lemma SpunStarts(f: FeatureState, bet: int, o: Outcome, surges: seq<Position>, i: int)
    requires 0 <= i < |o.events| && SpunTold(f, bet, o, surges, i) && o.next.Active()
    ensures Any(o.events, WheelAwarded) && StartTold(o)
  {
    var s, w :| && OnlyAt(o.events, WheelStarted, s) && OnlyAt(o.events, WheelAwarded, w) && i < s < w
                && TriggerTold(f, o, surges, i, s) && WheelTold(bet, o, w);
    WheelStarts(bet, o, w);
  }

  lemma SurgesStart(f: FeatureState, bet: int, o: Outcome, surges: seq<Position>)
    requires SurgesTold(f, bet, o, surges) && o.next.Active()
    ensures Any(o.events, WheelAwarded) <==> StartTold(o)
  {
    if surges != [] {
      var i :| CollectedTold(f, bet, o, surges, i);
      if o.events[i].triggered {
        SpunStarts(f, bet, o, surges, i);
      }
    }
  }

  /** Free spins that an accepted base spin starts are announced exactly when the outcome tells of a wheel award. */
  lemma StartedExactly(input: SpinInput, o: Outcome)
    requires StructureOk(input, o)
    requires !input.feature.Canonical().Active() && o.next.Active()
    ensures Any(o.events, WheelAwarded) <==> StartTold(o)
  {
    AcceptedBaseSpin(input, o);
    SurgesStart(input.feature.Canonical(), input.bet, o, PositionsFor(o.grid, Surge));
  }

  // --- The engine ---

  lemma OnlyWheelStarts(c: Config, bet: int, f: FeatureState, grid: Grid, draws: RageDraws, rage: seq<Event>, before: FeatureState,
                        after: FeatureState)
    requires RageStep(c, bet, f, grid, draws, rage, before, after) && !f.Active() && before.mode == Base && after.mode != Base
    ensures PositionsFor(grid, Surge) != [] && draws.triggered
  {
  }

  lemma WheelStays(raw: seq<Event>, events: seq<Event>, i: nat)
    requires Extends(raw, events) && i < |raw| && raw[i].kind == WheelAwarded
    ensures Any(events, WheelAwarded)
  {
    assert SameButAmount(raw[i], events[i]);
  }

  /** The engine starts free spins only through a wheel award. */
  lemma EngineStarts(c: Config, input: SpinInput, raw: Outcome, pre: seq<Event>, vault: seq<Event>, rage: seq<Event>,
                     draws: RageDraws, middle: FeatureState)
    requires RawSpin(c, input, raw, pre, vault, rage, draws, middle)
    requires !input.feature.Active() && Capped(c, input, raw).next.Active()
    ensures Any(Capped(c, input, raw).events, WheelAwarded)
  {
    var f, surges := input.feature, PositionsFor(raw.grid, Surge);
    RageOfRaw(c, input, raw, pre, vault, rage, draws, middle);
    OnlyWheelStarts(c, input.bet, f, raw.grid, draws, rage, middle, raw.next);
    var meter := MeterAfter(c, f, |surges|, true);
    TriggeredState(c, input.bet, f, raw.grid, draws, rage, middle, raw.next, input, 0);
    TriggeredLayout(input.bet, surges, meter.0, meter.1, draws.cells, draws.wheel);
    RawReady(c, input, raw, pre, vault, rage, draws, middle);
    CappedFacts(c, input, raw);
    WheelStays(raw.events, Capped(c, input, raw).events, |pre| + |vault| + (if |surges| < 3 then 1 else 0) + 2);
  }

  // --- A concrete outcome ---

  /** A losing base spin of one coin. */
  const LOSING: SpinInput := SpinInput(1, FeatureState(Base, 0, 0, 0, 0, DEFAULT_RAGE_LEVEL, 0))

  function Plain(symbol: Symbol): Cell {
    Cell(symbol, 0, NoPrize)
  }

  const LOST: Grid :=
    [[Plain(Orbit), Plain(Orbit), Plain(Orbit)], [Plain(Prism), Plain(Prism), Plain(Prism)], [Plain(Orbit), Plain(Orbit), Plain(Orbit)]]

  function LostOutcome(): Outcome {
    Outcome(LOST, [], [], 0, LOSING.feature)
  }

  /** The same spin, with eight free spins to follow that nothing announced. */
  function Unstarted(): Outcome {
    LostOutcome().(next := FeatureState(Expansion, 8, 8, 1, 0, DEFAULT_RAGE_LEVEL, 0))
  }

  lemma FirstMember(s: seq<Position>)
    ensures s == [] || s[0] in s
  {
  }

  lemma NoPositions(grid: Grid, symbol: Symbol)
    requires forall reel, row :: 0 <= reel < |grid| && 0 <= row < |grid[reel]| ==> grid[reel][row].symbol != symbol
    ensures PositionsFor(grid, symbol) == []
  {
    FirstMember(PositionsFor(grid, symbol));
    PositionsExact(grid, symbol);
  }

  lemma LostLegal()
    ensures GridOk(LOST) && |LOST[0]| == 3
    ensures forall reel, row :: 0 <= reel < |LOST| && 0 <= row < |LOST[reel]| ==> LOST[reel][row].symbol in {Orbit, Prism}
  {
  }

  lemma LostOnReels(symbol: Symbol)
    ensures !OnEveryReel(LOST, symbol)
  {
    var reel := if symbol == Orbit then 1 else 0;
    assert forall row :: 0 <= row < |LOST[reel]| ==> LOST[reel][row].symbol != symbol && LOST[reel][row].symbol != Wild;
  }

  lemma NothingWon(grid: Grid, paytable: map<Symbol, int>)
    requires |grid| == 3 && PaysAll(paytable) && forall symbol :: !OnEveryReel(grid, symbol)
    ensures WinsOf(grid, paytable, 1, PAYING_SYMBOLS) == []
  {
    FirstPaid(WinsOf(grid, paytable, 1, PAYING_SYMBOLS));
    PayingPaid(grid, paytable, 1);
  }

  lemma FirstPaid(wins: seq<Win>)
    ensures wins == [] || SymbolPaid(wins, wins[0].symbol)
  {
  }

  /** A base spin that shows and draws nothing of note. */
  lemma EmptyRaw(c: Config, input: SpinInput, grid: Grid)
    requires ConfigOk(c) && BetOk(c, input.bet) && FeatureStateOk(c, input.bet, input.feature)
    requires input.feature == input.feature.Canonical() && input.feature == input.feature.WithoutFreeSpins()
    requires GridOk(grid) && |grid[0]| == 3 && PositionsFor(grid, Vault) == [] && PositionsFor(grid, Surge) == []
    requires WildsFrom(grid, c.wilds) && WinsForBet(grid, c.paytable, input.bet, c.bet.payUnit) == []
    ensures RawSpin(c, input, Outcome(grid, [], [], 0, input.feature), [], [], [], RageDraws(false, [], WheelPrize(NoWheel, 0)),
                    input.feature)
  {
  }

  lemma EmptyCapped(c: Config, input: SpinInput, grid: Grid)
    requires !input.feature.Active() && input.feature == input.feature.WithoutFreeSpins() && 0 <= input.bet * c.maxWin
    ensures Capped(c, input, Outcome(grid, [], [], 0, input.feature)) == Outcome(grid, [], [], 0, input.feature)
  {
  }

  lemma EmptyAccepted(c: Config, input: SpinInput, grid: Grid)
    requires ConfigOk(c) && BetOk(c, input.bet) && FeatureStateOk(c, input.bet, input.feature)
    requires input.feature == input.feature.Canonical() && input.feature == input.feature.WithoutFreeSpins()
    requires GridOk(grid) && |grid[0]| == 3 && PositionsFor(grid, Vault) == [] && PositionsFor(grid, Surge) == []
    requires WildsFrom(grid, c.wilds) && WinsForBet(grid, c.paytable, input.bet, c.bet.payUnit) == []
    ensures OutcomeOk(c, input, Outcome(grid, [], [], 0, input.feature))
  {
    BetsLegal(c, input);
    EmptyRaw(c, input, grid);
    EmptyCapped(c, input, grid);
    RawSpinIsValid(c, input, Outcome(grid, [], [], 0, input.feature), [], [], [], RageDraws(false, [], WheelPrize(NoWheel, 0)),
                   input.feature);
  }

  lemma LostInput()
    ensures BetOk(HEAVY, LOSING.bet) && FeatureStateOk(HEAVY, LOSING.bet, LOSING.feature)
    ensures LOSING.feature == LOSING.feature.Canonical() && LOSING.feature == LOSING.feature.WithoutFreeSpins()
  {
  }

  lemma LostGrid(grid: Grid)
    requires grid == LOST
    ensures GridOk(grid) && |grid[0]| == 3 && PositionsFor(grid, Vault) == [] && PositionsFor(grid, Surge) == []
    ensures WildsFrom(grid, HEAVY.wilds)
  {
    LostLegal();
    NoPositions(grid, Vault);
    NoPositions(grid, Surge);
  }

  lemma LostWins(grid: Grid)
    requires grid == LOST
    ensures |grid| == 3 && PaysAll(PAYS) && WinsForBet(grid, PAYS, 1, 1) == []
  {
    LostLegal();
    forall symbol
      ensures !OnEveryReel(grid, symbol)
    {
      LostOnReels(symbol);
    }
    NothingWon(grid, PAYS);
  }

  lemma LostAccepted()
    ensures ConfigOk(HEAVY) && OutcomeOk(HEAVY, LOSING, LostOutcome())
  {
    AcceptedButTooHeavy();
    LostGrid(LOST);
    LostWins(LOST);
    LostInput();
    EmptyAccepted(HEAVY, LOSING, LOST);
  }

  /** The validator accepts free spins that no wheel award and no event announce. */
  lemma UnstartedAccepted()
    ensures ConfigOk(HEAVY) && OutcomeOk(HEAVY, LOSING, Unstarted())
    ensures Unstarted().next.Active() && Unstarted().events == []
  {
    LostAccepted();
    NextUnchecked(HEAVY, LOSING, LostOutcome(), Unstarted().next);
  }
}
