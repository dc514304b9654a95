/** Engine completeness, rule by rule: the capped outcome of any raw spin passes the whole validator. */
module SpinAccepted {
  import opened Money
  import opened Weights
  import opened GameTypes
  import opened Grids
  import opened Ways
  import opened WaysForBet
  import opened GameConfig
  import opened ArithmeticBounds
  import opened WinCap
  import opened OutcomeRules
  import opened SpinShape
  import opened EventLists
  import opened FeatureStates
  import opened RawSpins
  import opened RawEvents
  import opened OpenedVaults
  import opened KingVaults
  import opened Completeness
  import opened WinsAccepted
  import opened CapAccepted

  // --- Sections of the raw list ---

  lemma SectionsTogether(bet: int, rows: int, raw: seq<Event>, pre: seq<Event>, vault: seq<Event>, rage: seq<Event>)
    requires 0 <= bet && raw == pre + vault + rage
    requires AllRaw(bet, rows, 0, pre) && AllRaw(bet, rows, 1, vault) && AllRaw(bet, rows, 2, rage)
    ensures InSections(raw, pre, vault, rage) && AllNominal(bet, raw)
    ensures forall i :: 0 <= i < |raw| ==> EventFieldsOk(raw[i], rows)
  {
    forall i | 0 <= i < |raw|
      ensures EventFieldsOk(raw[i], rows) && 0 <= raw[i].amount == Nominal(bet, raw[i]) && Section(raw[i].kind) < 3
    {
      if i < |pre| {
        assert raw[i] == pre[i];
      } else if i < |pre| + |vault| {
        assert raw[i] == vault[i - |pre|];
      } else {
        assert raw[i] == rage[i - |pre| - |vault|];
      }
    }
  }

  lemma MeterNonNegative(c: Config, bet: int, f: FeatureState, surges: int, triggered: bool)
    requires FeatureStateOk(c, bet, f) && f == f.Canonical() && 0 <= surges
    ensures var meter := MeterAfter(c, f, surges, triggered); 1 <= meter.0 && 0 <= meter.1
  {
  }

  lemma RawSections(c: Config, input: SpinInput, raw: Outcome, pre: seq<Event>, vault: seq<Event>, rage: seq<Event>,
                    draws: RageDraws, middle: FeatureState)
    requires RawSpin(c, input, raw, pre, vault, rage, draws, middle) && 0 <= input.bet
    ensures var rows := |raw.grid[0]|;
            && AllRaw(input.bet, rows, 0, pre) && AllRaw(input.bet, rows, 1, vault) && AllRaw(input.bet, rows, 2, rage)
  {
    var f, surges := input.feature, PositionsFor(raw.grid, Surge);
    PreRaw(input.bet, f.mode, |raw.grid[0]|, pre);
    VaultRaw(f.mode, input.bet, raw.grid, vault);
    if !f.Active() && surges != [] {
      MeterNonNegative(c, input.bet, f, |surges|, draws.triggered);
      var meter := MeterAfter(c, f, |surges|, draws.triggered);
      RageRaw(input.bet, raw.grid, surges, draws.triggered, meter.0, meter.1, draws.cells, draws.wheel);
    }
  }

  lemma BetsLegal(c: Config, input: SpinInput)
    requires ConfigOk(c) && BetOk(c, input.bet) && FeatureStateOk(c, input.bet, input.feature)
    ensures 0 < input.bet <= c.bet.max && 0 < c.maxWin
    ensures GameCap(c, input) <= MAX_INT64 && 0 <= PriorWin(input) <= GameCap(c, input)
  {
    MulMonotone(input.bet, c.bet.max, c.maxWin);
    MulMonotone(0, input.bet, c.maxWin);
  }

  lemma WinsNonNegative(grid: Grid, wins: seq<Win>)
    requires GridOk(grid) && forall i :: 0 <= i < |wins| ==> NominalWinOk(wins[i], grid)
    ensures AwardsNonNegative(wins)
  {
    forall i, j | 0 <= i < |wins| && 0 <= j < |wins[i].paths|
      ensures wins[i].paths[j].amount >= 0
    {
      assert NominalWinOk(wins[i], grid);
      assert PathOk(wins[i].symbol, wins[i].paths[j], grid);
    }
  }

  /** What the money rules need, from what the engine built. */
  lemma RawReady(c: Config, input: SpinInput, raw: Outcome, pre: seq<Event>, vault: seq<Event>, rage: seq<Event>,
                 draws: RageDraws, middle: FeatureState)
    requires RawSpin(c, input, raw, pre, vault, rage, draws, middle)
    ensures CapReady(c, input, raw) && InSections(raw.events, pre, vault, rage)
    ensures forall i :: 0 <= i < |raw.events| ==> EventFieldsOk(raw.events[i], |raw.grid[0]|)
    ensures forall i :: 0 <= i < |raw.wins| ==> NominalWinOk(raw.wins[i], raw.grid)
    ensures WaysFit(raw.grid, c.paytable, input.bet, c.bet.payUnit)
  {
    BetsLegal(c, input);
    WaysNeverOverflow(c, raw.grid, input.bet);
    WinsForBetOk(raw.grid, c.paytable, input.bet, c.bet.payUnit);
    WinsNonNegative(raw.grid, raw.wins);
    RawSections(c, input, raw, pre, vault, rage, draws, middle);
    SectionsTogether(input.bet, |raw.grid[0]|, raw.events, pre, vault, rage);
  }

  // --- Fields, cap position and expansion ---

  lemma ClosingFieldsOk(c: Config, input: SpinInput, raw: Outcome, rows: int, i: nat)
    requires CapReady(c, input, raw) && i < |Closing(c, input, raw)| && 0 <= raw.next.awarded
    ensures EventFieldsOk(Closing(c, input, raw)[i], rows)
  {
    PaidSums(c, input, raw);
  }

  lemma FieldsAccepted(c: Config, input: SpinInput, raw: Outcome, rows: int)
    requires CapReady(c, input, raw) && 0 <= raw.next.awarded
    requires forall i :: 0 <= i < |raw.events| ==> EventFieldsOk(raw.events[i], rows)
    ensures var o := Capped(c, input, raw); forall i :: 0 <= i < |o.events| ==> EventFieldsOk(o.events[i], rows)
  {
    var o, n := Capped(c, input, raw), |raw.events|;
    CappedFacts(c, input, raw);
    forall i | 0 <= i < |o.events|
      ensures EventFieldsOk(o.events[i], rows)
    {
      if i < n {
        AwardClippedOnly(c, input, raw, i);
        assert EventFieldsOk(raw.events[i], rows) && SameButAmount(raw.events[i], o.events[i]);
      } else {
        ClosingFieldsOk(c, input, raw, rows, i - n);
      }
    }
  }

  lemma ExpansionAccepted(f: FeatureState, o: Outcome, raw: seq<Event>, pre: seq<Event>, vault: seq<Event>, rage: seq<Event>)
    requires GridOk(o.grid) && InSections(raw, pre, vault, rage) && Extends(raw, o.events)
    requires PreShape(f.mode, |o.grid[0]|, pre)
    ensures ExpansionEventsOk(f, o)
  {
    if f.mode == Expansion {
      FoundOnce(raw, o.events, pre, vault, rage, GridExpanded, 0);
    } else {
      FoundNowhere(raw, o.events, pre, vault, rage, GridExpanded);
    }
  }

  // --- Vaults ---

  lemma VaultsPlaced(raw: seq<Event>, events: seq<Event>, pre: seq<Event>, vault: seq<Event>, rage: seq<Event>)
    requires InSections(raw, pre, vault, rage) && Extends(raw, events)
    ensures VaultsAt(events, vault, |pre|)
    ensures rage == [] ==> forall i :: |pre| + |vault| <= i < |events| ==> Section(events[i].kind) == 3
  {
    forall j | 0 <= j < |vault|
      ensures SameButAmount(vault[j], events[|pre| + j])
    {
      assert raw[|pre| + j] == vault[j];
    }
    forall i | 0 <= i < |events|
      ensures Section(events[i].kind) == 1 <==> |pre| <= i < |pre| + |vault|
    {
      if i < |raw| {
        assert SameButAmount(raw[i], events[i]);
        if i < |pre| {
          assert raw[i] == pre[i];
        } else if i >= |pre| + |vault| {
          assert raw[i] == rage[i - |pre| - |vault|];
        }
      }
    }
  }

  lemma {:induction false} VaultCount(events: seq<Event>, ve: seq<Event>, w: nat, n: nat)
    requires VaultsAt(events, ve, w) && n <= |events|
    ensures VaultEventCount(events, n) == if n <= w then 0 else if n <= w + |ve| then n - w else |ve|
  {
    if n > 0 {
      VaultCount(events, ve, w, n - 1);
      assert IsVaultEvent(events[n - 1].kind) <==> Section(events[n - 1].kind) == 1;
    }
  }

  lemma LockedAccepted(f: FeatureState, o: Outcome, raw: seq<Event>, pre: seq<Event>, vault: seq<Event>, rage: seq<Event>)
    requires InSections(raw, pre, vault, rage) && Extends(raw, o.events)
    requires f.mode != Overdrive && LockedShape(o.grid, PositionsFor(o.grid, Vault), vault)
    ensures Indexes(o.events, VaultsLanded) == [|pre|] && |pre| < |o.events|
    ensures VaultGroup(o.events[|pre|], PositionsFor(o.grid, Vault))
    ensures LockedOk(f.mode, o, PositionsFor(o.grid, Vault), |pre|)
  {
    FoundOnce(raw, o.events, pre, vault, rage, VaultsLanded, 0);
    FoundOnce(raw, o.events, pre, vault, rage, VaultsLocked, 1);
    FoundNowhere(raw, o.events, pre, vault, rage, VaultsUnlockStarted);
    FoundNowhere(raw, o.events, pre, vault, rage, VaultsUnlockCompleted);
    VaultsPlaced(raw, o.events, pre, vault, rage);
    VaultCount(o.events, vault, |pre|, |o.events|);
  }

  /** The three group events of an unlock sequence, found in the final list. */
  predicate UnlockGroups(events: seq<Event>, positions: seq<Position>, w: nat, c: nat) {
    && Indexes(events, VaultsLanded) == [w] && Indexes(events, VaultsLocked) == []
    && Indexes(events, VaultsUnlockStarted) == [w + 1] && Indexes(events, VaultsUnlockCompleted) == [c]
    && w + 1 < c < |events|
    && VaultGroup(events[w], positions) && VaultGroup(events[w + 1], positions) && VaultGroup(events[c], positions)
  }

  lemma GroupsFound(raw: seq<Event>, events: seq<Event>, pre: seq<Event>, vault: seq<Event>, rage: seq<Event>,
                    positions: seq<Position>, end: nat)
    requires InSections(raw, pre, vault, rage) && Extends(raw, events)
    requires OnlyAt(vault, VaultsLanded, 0) && OnlyAt(vault, VaultsUnlockStarted, 1) && OnlyAt(vault, VaultsUnlockCompleted, end)
    requires Absent(vault, VaultsLocked) && 1 < end
    requires VaultGroup(vault[0], positions) && VaultGroup(vault[1], positions) && VaultGroup(vault[end], positions)
    ensures UnlockGroups(events, positions, |pre|, |pre| + end)
  {
    FoundOnce(raw, events, pre, vault, rage, VaultsLanded, 0);
    FoundOnce(raw, events, pre, vault, rage, VaultsUnlockStarted, 1);
    FoundOnce(raw, events, pre, vault, rage, VaultsUnlockCompleted, end);
    FoundNowhere(raw, events, pre, vault, rage, VaultsLocked);
  }

  lemma OpenedGroups(mode: FeatureMode, bet: int, grid: Grid, positions: seq<Position>, ve: seq<Event>)
    requires OpenedShape(mode, bet, grid, positions, ve)
    ensures OnlyAt(ve, VaultsLanded, 0) && OnlyAt(ve, VaultsUnlockStarted, 1) && OnlyAt(ve, VaultsUnlockCompleted, |ve| - 1)
    ensures Absent(ve, VaultsLocked)
  {
    forall j | 0 <= j < |ve|
      ensures j != 0 ==> ve[j].kind != VaultsLanded
      ensures j != 1 ==> ve[j].kind != VaultsUnlockStarted
      ensures j != |ve| - 1 ==> ve[j].kind != VaultsUnlockCompleted
      ensures ve[j].kind != VaultsLocked
    {
      OpenedKinds(mode, bet, grid, positions, ve, j);
    }
  }

  lemma KingGroups(bet: int, grid: Grid, positions: seq<Position>, ve: seq<Event>)
    requires KingShape(bet, grid, positions, ve)
    ensures OnlyAt(ve, VaultsLanded, 0) && OnlyAt(ve, VaultsUnlockStarted, 1) && OnlyAt(ve, VaultsUnlockCompleted, |positions| + 2)
    ensures Absent(ve, VaultsLocked)
  {
    forall j | 0 <= j < |ve|
      ensures j != 0 ==> ve[j].kind != VaultsLanded
      ensures j != 1 ==> ve[j].kind != VaultsUnlockStarted
      ensures j != |positions| + 2 ==> ve[j].kind != VaultsUnlockCompleted
      ensures ve[j].kind != VaultsLocked
    {
      KingKinds(positions, ve, j);
    }
  }
}
