/** The Rage section of a base spin, in the order the engine works through it. */
module RageSection {
  import opened Money
  import opened Weights
  import opened GameTypes
  import opened Grids
  import opened GameConfig
  import opened WinCap
  import opened OutcomeRules
  import opened SpinShape
  import opened FeatureStates
  import opened RawSpins
  import opened RandomPicks
  import opened GridDraws
  import opened VaultDraws
  import opened RageDrawing

  // --- What the section awards ---

  lemma WheelSums(bet: int, prize: WheelPrize)
    ensures EventSum(WheelEvents(bet, prize)) == WheelAmount(bet, prize)
  {
    var started, award := Bare(WheelStarted), WheelEvent(bet, prize);
    OneSum(started);
    OneSum(award);
    PairSum(started, award);
    if prize.kind != Instant {
      var free := FreeStartedEvent(ModeOf(prize.kind), INITIAL_FREE_SPINS);
      OneSum(free);
      SumsAppend([started, award], [free]);
    } else {
      assert WheelEvents(bet, prize) == [started, award];
    }
  }

  lemma SectionSums(bet: int, collected: Event, surges: seq<Position>, cells: seq<Position>, wheel: WheelPrize)
    requires collected.kind == SurgeCollected
    ensures EventSum([collected] + (TransformEvents(surges, cells) + WheelEvents(bet, wheel))) == WheelAmount(bet, wheel)
  {
    var transform, spun := TransformEvents(surges, cells), WheelEvents(bet, wheel);
    OneSum(collected);
    OneSum(TransformedEvent(cells));
    WheelSums(bet, wheel);
    SumsAppend(transform, spun);
    SumsAppend([collected], transform + spun);
  }

  // --- The meter ---

  /** Credits one or two settled symbols, unless the meter is at its limit; three leave it alone. */
  method CreditMeter(c: Config, next: FeatureState, count: int) returns (r: Result<FeatureState>)
    requires 0 < count <= 3
    ensures r.Ok? <==> count == 3 || next.rageCollected + count <= MAX_RAGE_COLLECTED
    ensures r.Err? ==> r.fault == RageMeterFull
    ensures r.Ok? ==>
              r.value == if count == 3 then next
                         else next.(rageLevel := RageLevelFor(next.rageCollected + count, c.feature.rageThresholds),
                                    rageCollected := next.rageCollected + count)
  {
    if count == 3 {
      return Ok(next);
    }
    if next.rageCollected > MAX_RAGE_COLLECTED - count {
      return Err(RageMeterFull);
    }
    var level := RageLevel(next.rageCollected + count, c.feature.rageThresholds);
    return Ok(next.(rageLevel := level, rageCollected := next.rageCollected + count));
  }

  /** The transformed cells as the tape has them; three symbols need none. */
  function TransformSample(grid: Grid, surges: seq<Position>, tape: seq<nat>): Sample<seq<Position>> {
    if |surges| == 3 then Sample(Ok([]), tape) else CellsSample(grid, 3 - |surges|, tape)
  }

  /** The transformation and the wheel of a triggered spin, as the tape has them. */
  function SpunSample(c: Config, grid: Grid, surges: seq<Position>, tape: seq<nat>): Sample<RageDraws> {
    var cells := TransformSample(grid, surges, tape);
    match cells.result
    case Err(fault) => Sample(Err(fault), cells.rest)
    case Ok(chosen) =>
      var wheel := ValueSample(c.feature.wheel, cells.rest);
      match wheel.result
      case Err(fault) => Sample(Err(fault), wheel.rest)
      case Ok(prize) => Sample(Ok(RageDraws(true, chosen, prize)), wheel.rest)
  }

  const QUIET: RageDraws := RageDraws(false, [], WheelPrize(NoWheel, 0))

  /** The meter has no room for the settled symbols; three are not credited. */
  predicate MeterFull(f: FeatureState, count: int) {
    0 < count < 3 && f.rageCollected + count > MAX_RAGE_COLLECTED
  }

  /** The Rage section of a base spin, as the tape has it. */
  function RageSample(c: Config, f: FeatureState, grid: Grid, tape: seq<nat>): Sample<RageDraws> {
    var surges := PositionsFor(grid, Surge);
    var trigger := TriggerSample(c, |surges|, tape);
    match trigger.result
    case Err(fault) => Sample(Err(fault), trigger.rest)
    case Ok(triggered) =>
      if surges == [] then Sample(Ok(QUIET), trigger.rest)
      else if MeterFull(f, |surges|) then Sample(Err(RageMeterFull), trigger.rest)
      else if triggered then SpunSample(c, grid, surges, trigger.rest)
      else Sample(Ok(QUIET), trigger.rest)
  }

  /** What a method returned and drew, beside what the tape holds. */
  predicate SameDraws(r: Result<(seq<Event>, int, FeatureState)>, draws: RageDraws, rest: seq<nat>, s: Sample<RageDraws>) {
    rest == s.rest && s.result == match r case Err(fault) => Err(fault) case Ok(_) => Ok(draws)
  }

  /** One or two symbols are made three, and the meter is reset. */
  method Transform(rng: RandomSource, grid: Grid, surges: seq<Position>, credited: FeatureState)
    returns (r: Result<(seq<Event>, FeatureState)>, ghost cells: seq<Position>)
    requires GridOk(grid) && surges == PositionsFor(grid, Surge) && 1 <= |surges| <= 3
    modifies rng
    ensures var s := TransformSample(grid, surges, old(rng.tape));
            rng.tape == s.rest && s.result == match r case Err(fault) => Err(fault) case Ok(_) => Ok(cells)
    ensures r.Ok? ==> r.value == (TransformEvents(surges, cells), Reset(credited, |surges|))
    ensures r.Ok? && |surges| < 3 ==> TransformedOk(grid, surges, cells)
    ensures r.Err? ==> r.fault == RandomFailed && rng.tape == []
  {
    cells := [];
    if |surges| == 3 {
      return Ok(([], credited)), cells;
    }
    ExceptExact(grid, Surge);
    AtLeastNine(grid);
    var picked := PickTransformCells(rng, grid, 3 - |surges|);
    match picked
    case Err(fault) => return Err(fault), cells;
    case Ok(value) =>
      cells := value;
      return Ok(([TransformedEvent(value)], Reset(credited, |surges|))), cells;
  }

  function Reset(credited: FeatureState, surges: int): FeatureState {
    if surges < 3 then credited.(rageLevel := DEFAULT_RAGE_LEVEL, rageCollected := 0) else credited
  }

  /** The draws of a triggered spin are legal, and the prize is within the definition's liability. */
  predicate SpunOk(c: Config, bet: int, grid: Grid, surges: seq<Position>, cells: seq<Position>, prize: WheelPrize) {
    && WheelEntryOk(prize) && 0 <= WheelAmount(bet, prize) <= bet * MaxWheel(c.feature.wheel)
    && (|surges| < 3 ==> TransformedOk(grid, surges, cells))
  }

  /** The transformation and the wheel of a triggered spin. */
  method TransformAndSpin(rng: RandomSource, c: Config, bet: int, grid: Grid, surges: seq<Position>, credited: FeatureState,
                          total: int)
    returns (r: Result<(seq<Event>, int, FeatureState)>, ghost cells: seq<Position>, ghost prize: WheelPrize)
    requires WheelTablesOk(c, bet) && 0 <= total && total + bet * MaxWheel(c.feature.wheel) <= MAX_INT64
    requires GridOk(grid) && surges == PositionsFor(grid, Surge) && 1 <= |surges| <= 3
    modifies rng
    ensures SameDraws(r, RageDraws(true, cells, prize), rng.tape, SpunSample(c, grid, surges, old(rng.tape)))
    ensures r.Ok? ==> SpunOk(c, bet, grid, surges, cells, prize) == true
    ensures r.Ok? ==>
              r == Ok((TransformEvents(surges, cells) + WheelEvents(bet, prize), total + WheelAmount(bet, prize),
                       WheelNext(bet, prize, Reset(credited, |surges|))))
    ensures r.Err? ==> r == Err(RandomFailed) && rng.tape == []
  {
    prize := WheelPrize(NoWheel, 0);
    var transformed, chosen := Transform(rng, grid, surges, credited);
    cells := chosen;
    match transformed
    case Err(fault) => return Err(fault), cells, prize;
    case Ok(reset) =>
      var spun, drawn := SpinWheel(rng, c, bet, reset.1, total);
      prize := drawn;
      match spun
      case Err(fault) => return Err(fault), cells, prize;
      case Ok(value) => return Ok((reset.0 + value.0, value.1, value.2)), cells, prize;
  }

  /** The state after crediting, the meter the section ends with, and how they agree. */
  predicate Credited(c: Config, f: FeatureState, surges: int, triggered: bool, credited: FeatureState) {
    var meter := MeterAfter(c, f, surges, triggered);
    && (if triggered && surges < 3 then meter == (DEFAULT_RAGE_LEVEL, 0) else meter == (credited.rageLevel, credited.rageCollected))
    && f.WithoutFreeSpins().(rageLevel := meter.0, rageCollected := meter.1) ==
       if triggered && surges < 3 then Reset(credited, surges) else credited
  }

  lemma MeterReported(c: Config, f: FeatureState, count: int, triggered: bool, credited: FeatureState)
    requires f == f.Canonical() && RageMeterOk(c, f) && 1 <= count <= 3 && (count == 3 ==> triggered)
    requires var next := f.WithoutFreeSpins();
             credited == if count == 3 then next
                         else next.(rageLevel := RageLevelFor(next.rageCollected + count, c.feature.rageThresholds),
                                    rageCollected := next.rageCollected + count)
    ensures Credited(c, f, count, triggered, credited)
  {
  }

  /** A section that does not trigger the wheel. */
  lemma QuietStep(c: Config, bet: int, f: FeatureState, grid: Grid, surges: seq<Position>, credited: FeatureState, draws: RageDraws)
    requires surges == PositionsFor(grid, Surge) && 1 <= |surges| < 3 && !f.Active() && !draws.triggered
    requires f.rageCollected + |surges| <= MAX_RAGE_COLLECTED && Credited(c, f, |surges|, false, credited)
    ensures RageStep(c, bet, f, grid, draws, [CollectedEvent(surges, false, credited.rageLevel, credited.rageCollected)],
                     f.WithoutFreeSpins(), credited)
  {
  }

  /** A section that triggers it. */
  lemma WheelStep(c: Config, bet: int, f: FeatureState, grid: Grid, surges: seq<Position>, credited: FeatureState,
                  draws: RageDraws, level: int, count: int)
    requires surges == PositionsFor(grid, Surge) && 1 <= |surges| <= 3 && !f.Active() && draws.triggered
    requires |surges| < 3 ==> f.rageCollected + |surges| <= MAX_RAGE_COLLECTED && TransformedOk(grid, surges, draws.cells)
    requires Credited(c, f, |surges|, true, credited) && WheelEntryOk(draws.wheel)
    requires (level, count) == if |surges| < 3 then (DEFAULT_RAGE_LEVEL, 0) else (credited.rageLevel, credited.rageCollected)
    ensures RageStep(c, bet, f, grid, draws,
                     [CollectedEvent(surges, true, level, count)] +
                     (TransformEvents(surges, draws.cells) + WheelEvents(bet, draws.wheel)),
                     f.WithoutFreeSpins(), WheelNext(bet, draws.wheel, Reset(credited, |surges|)))
  {
  }

  /** The section begins with its collection event, which says whether it triggered. */
  predicate TriggeredWhen(rage: seq<Event>, triggered: bool) {
    |rage| > 0 && rage[0].kind == SurgeCollected && rage[0].triggered == triggered
  }

  /** The Rage section: it settles the meter, and if it triggers, the transformation and the wheel. */
  method SettleRage(rng: RandomSource, c: Config, bet: int, f: FeatureState, grid: Grid, total: int)
    returns (r: Result<(seq<Event>, int, FeatureState)>, ghost draws: RageDraws)
    requires WheelTablesOk(c, bet) && 0 <= total && total + bet * MaxWheel(c.feature.wheel) <= MAX_INT64
    requires GridOk(grid) && |PositionsFor(grid, Surge)| <= 3
    requires !f.Active() && f == f.Canonical() && RageMeterOk(c, f)
    modifies rng
    ensures r.Ok? ==> RageStep(c, bet, f, grid, draws, r.value.0, f.WithoutFreeSpins(), r.value.2)
    ensures r.Ok? ==> total <= r.value.1 == total + EventSum(r.value.0) <= MAX_INT64
    ensures r.Ok? && |PositionsFor(grid, Surge)| == 1 ==> TriggeredWhen(r.value.0, Lucky(c.feature.surgeOneChance, old(rng.tape)))
    ensures r.Ok? && |PositionsFor(grid, Surge)| == 2 ==> TriggeredWhen(r.value.0, Lucky(c.feature.surgeTwoChance, old(rng.tape)))
    ensures SameDraws(r, draws, rng.tape, RageSample(c, f, grid, old(rng.tape)))
    ensures r.Err? ==> r.fault == RageMeterFull || (r.fault == RandomFailed && rng.tape == [])
    ensures r == Err(RageMeterFull) <==>
              MeterFull(f, |PositionsFor(grid, Surge)|) && TriggerSample(c, |PositionsFor(grid, Surge)|, old(rng.tape)).result.Ok?
  {
    var surges := PositionsOf(grid, Surge);
    var next := f.WithoutFreeSpins();
    draws := RageDraws(false, [], WheelPrize(NoWheel, 0));
    WheelBound(c, bet);
    var trigger := SurgeTriggers(rng, c, |surges|);
    match trigger
    case Err(fault) => return Err(fault), draws;
    case Ok(triggered) =>
      if |surges| == 0 {
        return Ok(([], total, next)), draws;
      }
      var credit := CreditMeter(c, next, |surges|);
      match credit
      case Err(fault) => return Err(fault), draws;
      case Ok(credited) =>
        MeterReported(c, f, |surges|, triggered, credited);
        r, draws := SettleCollected(rng, c, bet, f, grid, total, surges, triggered, credited);
  }

  lemma WheelBound(c: Config, bet: int)
    requires 0 < bet
    ensures 0 <= bet * MaxWheel(c.feature.wheel)
  {
    MulMonotone(0, MaxWheel(c.feature.wheel), bet);
  }

  /** The collection event, then the transformation and the wheel if they are due. */
  method SettleCollected(rng: RandomSource, c: Config, bet: int, f: FeatureState, grid: Grid, total: int,
                         surges: seq<Position>, triggered: bool, credited: FeatureState)
    returns (r: Result<(seq<Event>, int, FeatureState)>, ghost draws: RageDraws)
    requires WheelTablesOk(c, bet) && 0 <= total && total + bet * MaxWheel(c.feature.wheel) <= MAX_INT64
    requires GridOk(grid) && surges == PositionsFor(grid, Surge) && 1 <= |surges| <= 3
    requires !f.Active() && (|surges| == 3 ==> triggered) && Credited(c, f, |surges|, triggered, credited)
    requires |surges| < 3 ==> f.rageCollected + |surges| <= MAX_RAGE_COLLECTED
    modifies rng
    ensures r.Ok? ==> RageStep(c, bet, f, grid, draws, r.value.0, f.WithoutFreeSpins(), r.value.2)
    ensures r.Ok? ==> total <= r.value.1 == total + EventSum(r.value.0) <= MAX_INT64
    ensures r.Ok? ==> TriggeredWhen(r.value.0, triggered)
    ensures SameDraws(r, draws, rng.tape, if triggered then SpunSample(c, grid, surges, old(rng.tape)) else Sample(Ok(QUIET), old(rng.tape)))
    ensures r.Err? ==> r.fault == RandomFailed && rng.tape == []
  {
    var level, count := credited.rageLevel, credited.rageCollected;
    if triggered && |surges| < 3 {
      level, count := DEFAULT_RAGE_LEVEL, 0;
    }
    var collected := CollectedEvent(surges, triggered, level, count);
    draws := RageDraws(false, [], WheelPrize(NoWheel, 0));
    WheelBound(c, bet);
    if !triggered {
      QuietStep(c, bet, f, grid, surges, credited, draws);
      OneSum(collected);
      return Ok(([collected], total, credited)), draws;
    }
    var spun, cells, prize := TransformAndSpin(rng, c, bet, grid, surges, credited, total);
    match spun
    case Err(fault) => return Err(fault), draws;
    case Ok(value) =>
      draws := RageDraws(true, cells, prize);
      SectionSums(bet, collected, surges, cells, prize);
      WheelStep(c, bet, f, grid, surges, credited, draws, level, count);
      return Ok(([collected] + value.0, value.1, value.2)), draws;
  }
}
