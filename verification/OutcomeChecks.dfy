/** The independent validator: every check, in its order, decides exactly the rules of an outcome. */
module OutcomeChecks {
  import opened Money
  import opened GameTypes
  import opened Grids
  import opened Ways
  import opened WaysForBet
  import opened GameConfig
  import opened WinCap
  import opened OutcomeRules
  import opened AwardChecks
  import opened EventChecks
  import opened FeatureChecks
  import opened WinsAccepted

  method CheckWinCapEvent(input: SpinInput, o: Outcome) returns (ok: bool)
    ensures ok == WinCapEventOk(input, o)
  {
    var at := EventIndexes(o.events, WinCapReached);
    IndexesToExact(o.events, WinCapReached, |o.events|);
    if |at| > 1 {
      return false;
    }
    if |at| == 0 {
      return true;
    }
    var e := o.events[at[0]];
    var cap := SafeMul(input.bet, e.multiplier);
    var cycle := SafeAdd(PriorWin(input), o.total);
    if cap.Err? || e.multiplier <= 0 || e.cumulative != cap.value || cycle.Err? || cycle.value != cap.value
       || e != Bare(WinCapReached).(multiplier := e.multiplier, cumulative := e.cumulative) {
      return false;
    }
    var completed := EventIndexes(o.events, FreeSpinsCompleted);
    return at[0] == |o.events| - 1 || (completed == [|o.events| - 1] && at[0] == |o.events| - 2);
  }

  method CheckExpansion(f: FeatureState, o: Outcome) returns (ok: bool)
    requires GridOk(o.grid)
    ensures ok == ExpansionEventsOk(f, o)
  {
    var at := EventIndexes(o.events, GridExpanded);
    if f.mode != Expansion {
      return at == [] && |o.grid[0]| == 3;
    }
    if at != [0] || o.events == [] {
      return false;
    }
    var e := o.events[0];
    return e.rows == |o.grid[0]| && e.ways == e.rows * e.rows * e.rows;
  }

  method CheckTransform(surges: seq<Position>, collection: Event, e: Event) returns (ok: bool)
    ensures ok == TransformOk(surges, collection, e)
  {
    if e.count != 3 - |surges| || |e.cells| != e.count || e.level != collection.level || e.total != collection.total {
      return false;
    }
    for i := 0 to |e.cells|
      invariant forall k :: 0 <= k < i ==> e.cells[k] !in surges
    {
      if e.cells[i] in surges {
        return false;
      }
    }
    return true;
  }

  method CheckWheelAward(bet: int, o: Outcome, award: Event, at: int, freeStarted: seq<int>) returns (ok: bool)
    requires 0 <= award.multiplier && freeStarted == Indexes(o.events, FreeSpinsStarted)
    ensures ok == WheelAwardOk(bet, o, award, at, freeStarted)
  {
    match award.outcome
    case Instant =>
      var wanted := SafeMul(bet, award.multiplier);
      var notices := EventIndexes(o.events, WinCapReached);
      if wanted.Err? {
        return false;
      }
      return !o.next.Active() && freeStarted == [] && award.prize != NoPrize && award.prize == VaultPrize(award.multiplier, false)
             && award.multiplier > 0 && award.amount <= wanted.value && (award.amount == wanted.value || |notices| == 1);
    case OtherWheel(_) => return false;
    case NoWheel => return false;
    case _ =>
      if !o.next.Active() || o.next.mode != ModeOf(award.outcome) || award.multiplier != 0 || award.amount != 0
         || |freeStarted| != 1 || freeStarted[0] <= at || at < 0 {
        return false;
      }
      IndexesToExact(o.events, FreeSpinsStarted, |o.events|);
      var started := o.events[freeStarted[0]];
      return started.mode == ModeOf(award.outcome) && started.awarded == INITIAL_FREE_SPINS == o.next.awarded == o.next.remaining;
  }

  /** The transformation that precedes the wheel, and the meter it leaves. */
  predicate MeterOk(f: FeatureState, o: Outcome, surges: seq<Position>, c: int, wheel: int, transformed: seq<int>)
    requires 0 <= c < |o.events| && wheel <= |o.events|
  {
    if |surges| < 3 then
      && |transformed| == 1 && c < transformed[0] < wheel
      && TransformOk(surges, o.events[c], o.events[transformed[0]])
      && o.next.rageLevel == DEFAULT_RAGE_LEVEL && o.next.rageCollected == 0
    else transformed == [] && o.next.rageLevel == f.rageLevel && o.next.rageCollected == f.rageCollected
  }

  method CheckMeter(f: FeatureState, o: Outcome, surges: seq<Position>, c: int, wheel: int, transformed: seq<int>) returns (ok: bool)
    requires 0 <= c < |o.events| && wheel <= |o.events|
    ensures ok == MeterOk(f, o, surges, c, wheel, transformed)
  {
    if |surges| >= 3 {
      return transformed == [] && o.next.rageLevel == f.rageLevel && o.next.rageCollected == f.rageCollected;
    }
    if |transformed| != 1 || transformed[0] <= c || transformed[0] >= wheel {
      return false;
    }
    ok := CheckTransform(surges, o.events[c], o.events[transformed[0]]);
    return ok && o.next.rageLevel == DEFAULT_RAGE_LEVEL && o.next.rageCollected == 0;
  }

  method CheckTriggered(f: FeatureState, bet: int, o: Outcome, surges: seq<Position>, c: int, transformed: seq<int>,
                        started: seq<int>, awarded: seq<int>, freeStarted: seq<int>) returns (ok: bool)
    requires 0 <= c < |o.events| && MultipliersOk(o.events)
    requires transformed == Indexes(o.events, RageTransformed) && started == Indexes(o.events, WheelStarted)
    requires awarded == Indexes(o.events, WheelAwarded) && freeStarted == Indexes(o.events, FreeSpinsStarted)
    ensures ok == TriggeredOk(f, bet, o, surges, c, transformed, started, awarded, freeStarted)
  {
    IndexesToExact(o.events, WheelAwarded, |o.events|);
    if |started| != 1 || |awarded| != 1 || started[0] <= c || awarded[0] <= started[0] {
      return false;
    }
    var meter := CheckMeter(f, o, surges, c, started[0], transformed);
    if !meter {
      return false;
    }
    ok := CheckWheelAward(bet, o, o.events[awarded[0]], awarded[0], freeStarted);
  }

  predicate MultipliersOk(events: seq<Event>) {
    forall i :: 0 <= i < |events| ==> 0 <= events[i].multiplier
  }

  method CheckRageAndWheel(f: FeatureState, bet: int, o: Outcome) returns (ok: bool)
    requires MultipliersOk(o.events)
    ensures ok == RageAndWheelOk(f, bet, o)
  {
    var surges := PositionsOf(o.grid, Surge);
    var collected := EventIndexes(o.events, SurgeCollected);
    var transformed := EventIndexes(o.events, RageTransformed);
    var started := EventIndexes(o.events, WheelStarted);
    var awarded := EventIndexes(o.events, WheelAwarded);
    var freeStarted := EventIndexes(o.events, FreeSpinsStarted);
    var silent := |transformed| + |started| + |awarded| + |freeStarted| == 0;
    if f.Active() {
      return |surges| == 0 && |collected| == 0 && silent;
    }
    if |surges| == 0 {
      return |collected| == 0 && silent && o.next.rageCollected == f.rageCollected && o.next.rageLevel == f.rageLevel;
    }
    if |surges| > 3 || |collected| != 1 {
      return false;
    }
    IndexesToExact(o.events, SurgeCollected, |o.events|);
    var collection := o.events[collected[0]];
    if !CollectionOk(f, surges, collection) {
      return false;
    }
    if !collection.triggered {
      return silent && o.next.rageCollected == Credited(f, |surges|) && o.next.rageLevel == collection.level;
    }
    ok := CheckTriggered(f, bet, o, surges, collected[0], transformed, started, awarded, freeStarted);
  }

  /** Every rule that needs no definition, in order. */
  method CheckStructure(input: SpinInput, o: Outcome) returns (ok: bool)
    ensures ok == StructureOk(input, o)
  {
    var f := input.feature.Canonical();
    var legal := CheckGrid(o.grid);
    if !legal {
      return false;
    }
    StructureParts(input, o);
    var visible := CheckVisibleAwards(o);
    if !visible || !NextShapeOk(o.next, input.bet) {
      return false;
    }
    FieldsMultiply(o);
    var capped := CheckWinCapEvent(input, o);
    if !capped {
      return false;
    }
    var expanded := CheckExpansion(f, o);
    if !expanded {
      return false;
    }
    var vaults := CheckVaults(f, input.bet, o);
    if !vaults {
      return false;
    }
    var rage := CheckRageAndWheel(f, input.bet, o);
    if !rage {
      return false;
    }
    ok := CheckCompletion(f, o);
  }

  lemma StructureParts(input: SpinInput, o: Outcome)
    requires GridOk(o.grid)
    ensures var f := input.feature.Canonical();
            StructureOk(input, o) <==>
              && VisibleOk(o) && NextShapeOk(o.next, input.bet) && WinCapEventOk(input, o) && ExpansionEventsOk(f, o)
              && VaultEventsOk(f, input.bet, o) && RageAndWheelOk(f, input.bet, o) && FeatureCompletionOk(f, o)
  {
  }

  lemma FieldsMultiply(o: Outcome)
    requires GridOk(o.grid) && VisibleOk(o)
    ensures MultipliersOk(o.events)
  {
    forall i | 0 <= i < |o.events|
      ensures 0 <= o.events[i].multiplier
    {
      assert EventFieldsOk(o.events[i], |o.grid[0]|);
    }
  }

  /** The validator of an outcome against an accepted definition. */
  method ValidateOutcome(c: Config, input: SpinInput, o: Outcome) returns (ok: bool)
    requires c.bet.step != 0 && c.bet.payUnit > 0 && PaysAll(c.paytable)
    ensures ok == OutcomeOk(c, input, o)
  {
    if !BetOk(c, input.bet) {
      return false;
    }
    var legal := CheckStructure(input, o);
    if !legal {
      return false;
    }
    var ways := EvaluateWaysForBet(o.grid, c.paytable, input.bet, c.bet.payUnit);
    match ways
    case Err(_) => return false;
    case Ok(evaluated) =>
      WinsForBetNonNegative(o.grid, c.paytable, input.bet, c.bet.payUnit);
      ok := CheckCappedAwards(c, input, o, evaluated.0, evaluated.1);
  }
}
