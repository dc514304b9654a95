/** Settling Surge symbols: the meter, the transformed cells and the wheel. */
module RageDrawing {
  import opened Money
  import opened Weights
  import opened GameTypes
  import opened Grids
  import opened GameConfig
  import opened WinCap
  import opened OutcomeRules
  import opened SpinShape
  import opened FeatureStates
  import opened RawSpins
  import opened RandomPicks
  import opened GridDraws
  import opened VaultDraws

  // --- Transformed cells ---

  function ColumnExcept(cells: seq<Cell>, reel: int, excluded: Symbol): seq<Position> {
    if cells == [] then []
    else
      var last := |cells| - 1;
      ColumnExcept(cells[..last], reel, excluded) +
      if cells[last].symbol != excluded then [Position(reel, last)] else []
  }

  /** Where other symbols lie, reel by reel. */
  function PositionsExcept(grid: Grid, excluded: Symbol): seq<Position> {
    if grid == [] then []
    else
      var last := |grid| - 1;
      PositionsExcept(grid[..last], excluded) + ColumnExcept(grid[last], last, excluded)
  }

  lemma {:induction false} ColumnExceptExact(cells: seq<Cell>, reel: int, excluded: Symbol)
    ensures forall p :: p in ColumnExcept(cells, reel, excluded) <==>
              p.reel == reel && 0 <= p.row < |cells| && cells[p.row].symbol != excluded
    ensures Distinct(ColumnExcept(cells, reel, excluded))
    ensures |ColumnExcept(cells, reel, excluded)| + |ColumnPositions(cells, reel, excluded)| == |cells|
  {
    if cells != [] {
      ColumnExceptExact(cells[..|cells| - 1], reel, excluded);
    }
  }

  function CellCount(grid: Grid): nat {
    if grid == [] then 0 else CellCount(grid[..|grid| - 1]) + |grid[|grid| - 1]|
  }

  /** The other positions are exactly the cells with other symbols, each listed once. */
  lemma {:induction false} ExceptExact(grid: Grid, excluded: Symbol)
    ensures forall p :: p in PositionsExcept(grid, excluded) <==> OnGrid(grid, p) && grid[p.reel][p.row].symbol != excluded
    ensures Distinct(PositionsExcept(grid, excluded))
    ensures |PositionsExcept(grid, excluded)| + |PositionsFor(grid, excluded)| == CellCount(grid)
  {
    if grid != [] {
      var last := |grid| - 1;
      ExceptExact(grid[..last], excluded);
      ColumnExceptExact(grid[last], last, excluded);
      assert forall p :: OnGrid(grid[..last], p) <==> OnGrid(grid, p) && p.reel < last;
    }
  }

  lemma AtLeastNine(grid: Grid)
    requires GridOk(grid)
    ensures CellCount(grid) >= 9
  {
    assert grid[..2][..1] == grid[..1] && grid[..1][..0] == [];
    assert CellCount(grid[..1]) == |grid[0]| && CellCount(grid[..2]) == CellCount(grid[..1]) + |grid[1]|;
  }

  method ListExcept(grid: Grid, excluded: Symbol) returns (positions: seq<Position>)
    ensures positions == PositionsExcept(grid, excluded)
  {
    positions := [];
    for reel := 0 to |grid|
      invariant positions == PositionsExcept(grid[..reel], excluded)
    {
      var cells := grid[reel];
      assert grid[..reel + 1][..reel] == grid[..reel];
      for row := 0 to |cells|
        invariant positions == PositionsExcept(grid[..reel], excluded) + ColumnExcept(cells[..row], reel, excluded)
      {
        assert cells[..row + 1][..row] == cells[..row];
        if cells[row].symbol != excluded {
          positions := positions + [Position(reel, row)];
        }
      }
      assert cells[..|cells|] == cells;
    }
    assert grid[..|grid|] == grid;
  }

  predicate Among(s: seq<Position>, all: seq<Position>) {
    Distinct(s) && forall i :: 0 <= i < |s| ==> s[i] in all
  }

  lemma SwapKeeps(s: seq<Position>, all: seq<Position>, i: nat, j: nat)
    requires Among(s, all) && i < |s| && j < |s|
    ensures Among(s[i := s[j]][j := s[i]], all)
  {
  }

  /** The candidates after n turns of a partial shuffle. */
  function ShuffledTo(candidates: seq<Position>, n: nat, tape: seq<nat>): (s: Sample<seq<Position>>)
    requires n <= |candidates|
    ensures s.result.Ok? ==> |s.result.value| == |candidates|
  {
    if n == 0 then Sample(Ok(candidates), tape)
    else
      var before := ShuffledTo(candidates, n - 1, tape);
      match before.result
      case Err(_) => before
      case Ok(shuffled) => WithSwap(shuffled, n - 1, PickSample(|candidates| - (n - 1), before.rest))
  }

  /** One turn: the drawn candidate among those left changes places with the first of them. */
  function WithSwap(s: seq<Position>, i: nat, pick: Sample<int>): (next: Sample<seq<Position>>)
    requires i < |s|
    ensures next.result.Ok? ==> |next.result.value| == |s|
  {
    match pick.result
    case Err(fault) => Sample(Err(fault), pick.rest)
    case Ok(drawn) =>
      if 0 <= drawn + i < |s| then Sample(Ok(s[i := s[drawn + i]][drawn + i := s[i]]), pick.rest) else Sample(Ok(s), pick.rest)
  }

  lemma SwapStaysAmong(s: seq<Position>, all: seq<Position>, i: nat, pick: Sample<int>)
    requires Among(s, all) && i < |s|
    ensures WithSwap(s, i, pick).result.Ok? ==> Among(WithSwap(s, i, pick).result.value, all)
  {
    if pick.result.Ok? && 0 <= pick.result.value + i < |s| {
      SwapKeeps(s, all, i, pick.result.value + i);
    }
  }

  lemma NextSwap(candidates: seq<Position>, n: nat, tape: seq<nat>, shuffled: seq<Position>, rest: seq<nat>)
    requires n < |candidates| == |shuffled| && ShuffledTo(candidates, n, tape) == Sample(Ok(shuffled), rest)
    ensures ShuffledTo(candidates, n + 1, tape) == WithSwap(shuffled, n, PickSample(|candidates| - n, rest))
  {
  }

  lemma {:induction false} ShuffleStops(candidates: seq<Position>, m: nat, n: nat, tape: seq<nat>)
    requires m <= n <= |candidates| && ShuffledTo(candidates, m, tape).result.Err?
    ensures ShuffledTo(candidates, n, tape) == ShuffledTo(candidates, m, tape)
  {
    if m < n {
      ShuffleStops(candidates, m, n - 1, tape);
    }
  }

  /** The cells to transform, as the tape has them: the first places of a partial shuffle of the others. */
  function CellsSample(grid: Grid, count: int, tape: seq<nat>): Sample<seq<Position>> {
    var listed := PositionsExcept(grid, Surge);
    if count < 0 || count > |listed| then Sample(Err(InvalidTransform), tape)
    else
      var shuffled := ShuffledTo(listed, count, tape);
      match shuffled.result
      case Err(_) => shuffled
      case Ok(all) => Sample(Ok(all[..count]), shuffled.rest)
  }

  /** One turn of the shuffle, in place. */
  method TakeSwap(rng: RandomSource, candidates: array<Position>, index: nat) returns (r: Result<()>)
    requires index < candidates.Length
    modifies rng, candidates
    ensures var s := WithSwap(old(candidates[..]), index, PickSample(candidates.Length - index, old(rng.tape)));
            rng.tape == s.rest && s.result == match r case Err(fault) => Err(fault) case Ok(_) => Ok(candidates[..])
    ensures r.Err? ==> r.fault == RandomFailed && rng.tape == []
  {
    ghost var tape, before := rng.tape, candidates[..];
    var picked := rng.Intn(candidates.Length - index);
    match picked
    case Err(fault) =>
      assert |tape| == 0;
      return Err(fault);
    case Ok(pick) =>
      var j := pick + index;
      candidates[index], candidates[j] := candidates[j], candidates[index];
      assert candidates[..] == before[index := before[j]][j := before[index]];
      return Ok(());
  }

  /** The first places of a partial shuffle. */
  method Shuffle(rng: RandomSource, candidates: array<Position>, count: int) returns (r: Result<()>)
    requires 0 <= count <= candidates.Length && Distinct(candidates[..])
    modifies rng, candidates
    ensures r.Ok? ==> Among(candidates[..], old(candidates[..]))
    ensures var s := ShuffledTo(old(candidates[..]), count, old(rng.tape));
            rng.tape == s.rest && s.result == match r case Err(fault) => Err(fault) case Ok(_) => Ok(candidates[..])
    ensures r.Err? ==> r.fault == RandomFailed && rng.tape == []
  {
    ghost var all, first := candidates[..], rng.tape;
    for index := 0 to count
      invariant Among(candidates[..], all)
      invariant ShuffledTo(all, index, first) == Sample(Ok(candidates[..]), rng.tape)
    {
      ghost var before := candidates[..];
      NextSwap(all, index, first, before, rng.tape);
      SwapStaysAmong(before, all, index, PickSample(candidates.Length - index, rng.tape));
      r := TakeSwap(rng, candidates, index);
      if r.Err? {
        ShuffleStops(all, index + 1, count, first);
        return;
      }
    }
    return Ok(());
  }

  /** Distinct cells that are not Surge, chosen by a partial shuffle of all of them. */
  method PickTransformCells(rng: RandomSource, grid: Grid, count: int) returns (r: Result<seq<Position>>)
    modifies rng
    ensures Sample(r, rng.tape) == CellsSample(grid, count, old(rng.tape))
    ensures r.Ok? ==> |r.value| == count && Distinct(r.value)
    ensures r.Ok? ==> forall i :: 0 <= i < |r.value| ==> OnGrid(grid, r.value[i]) && r.value[i] !in PositionsFor(grid, Surge)
    ensures r == Err(InvalidTransform) <==> !(0 <= count <= |PositionsExcept(grid, Surge)|)
    ensures r.Err? ==> r.fault == InvalidTransform || (r.fault == RandomFailed && rng.tape == [])
  {
    var listed := ListExcept(grid, Surge);
    if count < 0 || count > |listed| {
      return Err(InvalidTransform);
    }
    ExceptExact(grid, Surge);
    PositionsExact(grid, Surge);
    var candidates := new Position[|listed|](i requires 0 <= i < |listed| => listed[i]);
    assert candidates[..] == listed;
    var shuffled := Shuffle(rng, candidates, count);
    match shuffled
    case Err(fault) => return Err(fault);
    case Ok(_) =>
      var cells := candidates[..count];
      forall i | 0 <= i < |cells|
        ensures OnGrid(grid, cells[i]) && cells[i] !in PositionsFor(grid, Surge)
      {
        assert candidates[..][i] in listed;
      }
      return Ok(cells);
  }

  // --- The trigger and the wheel ---

  /** Whether settled Surge symbols trigger, as the tape has it: three always do. */
  function TriggerSample(c: Config, count: int, tape: seq<nat>): Sample<bool> {
    if count == 3 then Sample(Ok(true), tape)
    else if count == 2 then ChanceSample(c.feature.surgeTwoChance, tape)
    else if count == 1 then ChanceSample(c.feature.surgeOneChance, tape)
    else Sample(Ok(false), tape)
  }

  method SurgeTriggers(rng: RandomSource, c: Config, count: int) returns (r: Result<bool>)
    requires 0 <= count <= 3
    modifies rng
    ensures Sample(r, rng.tape) == TriggerSample(c, count, old(rng.tape))
    ensures r.Ok? && count == 3 ==> r.value
    ensures r.Ok? && count == 2 ==> (r.value <==> Lucky(c.feature.surgeTwoChance, old(rng.tape)))
    ensures r.Ok? && count == 1 ==> (r.value <==> Lucky(c.feature.surgeOneChance, old(rng.tape)))
    ensures r.Ok? && count == 0 ==> !r.value
    ensures r.Err? ==> r.fault == RandomFailed && rng.tape == []
  {
    ghost var tape := rng.tape;
    if count == 3 {
      return Ok(true);
    } else if count == 2 {
      r := Chance(rng, c.feature.surgeTwoChance);
    } else if count == 1 {
      r := Chance(rng, c.feature.surgeOneChance);
    } else {
      return Ok(false);
    }
    if r.Err? {
      assert |tape| == 0;
    }
  }

  /** The wheel's tables and the liability of its largest prize. */
  predicate WheelTablesOk(c: Config, bet: int) {
    && Drawable(c.feature.wheel) && 0 < bet && bet * MaxWheel(c.feature.wheel) <= MAX_INT64
    && c.feature.initialFreeSpins == INITIAL_FREE_SPINS
    && forall i :: 0 <= i < |c.feature.wheel| ==> WheelEntryOk(c.feature.wheel[i].value)
  }

  lemma WheelWithin(c: Config, bet: int, prize: WheelPrize)
    requires WheelTablesOk(c, bet) && Drawn(c.feature.wheel, prize)
    ensures WheelEntryOk(prize) && 0 <= prize.multiplier
    ensures prize.kind == Instant ==> 0 <= bet * prize.multiplier <= bet * MaxWheel(c.feature.wheel)
    ensures 0 <= bet * MaxWheel(c.feature.wheel)
  {
    PrizeWithin(c, bet, prize);
    AmountWithin(bet, prize.multiplier, if prize.kind == Instant then MaxWheel(c.feature.wheel) else prize.multiplier);
    AmountWithin(bet, 0, MaxWheel(c.feature.wheel));
  }

  lemma PrizeWithin(c: Config, bet: int, prize: WheelPrize)
    requires WheelTablesOk(c, bet) && Drawn(c.feature.wheel, prize)
    ensures WheelEntryOk(prize) && 0 <= prize.multiplier
    ensures prize.kind == Instant ==> prize.multiplier <= MaxWheel(c.feature.wheel)
  {
    var i :| 0 <= i < |c.feature.wheel| && c.feature.wheel[i].value == prize;
  }

  lemma AmountWithin(bet: int, m: int, most: int)
    requires 0 < bet && 0 <= m <= most
    ensures 0 <= bet * m <= bet * most
  {
    MulMonotone(m, most, bet);
    MulMonotone(0, m, bet);
  }

  /** What the wheel adds to the total. */
  function WheelAmount(bet: int, prize: WheelPrize): int {
    if prize.kind == Instant then bet * prize.multiplier else 0
  }

  /** The state after the wheel: an instant prize leaves it, a feature replaces it and keeps the meter. */
  function WheelNext(bet: int, prize: WheelPrize, next: FeatureState): FeatureState {
    if prize.kind == Instant then next
    else FeatureState(ModeOf(prize.kind), INITIAL_FREE_SPINS, INITIAL_FREE_SPINS, bet, 0, next.rageLevel, next.rageCollected)
  }

  /** What a drawn wheel prize pays and leaves. */
  method SettleWheel(bet: int, wheel: WheelPrize, next: FeatureState, total: int) returns (r: Result<(seq<Event>, int, FeatureState)>)
    requires WheelEntryOk(wheel) && 0 < bet && 0 <= total && total + WheelAmount(bet, wheel) <= MAX_INT64
    requires wheel.kind == Instant ==> 0 <= bet * wheel.multiplier
    ensures r == Ok((WheelEvents(bet, wheel), total + WheelAmount(bet, wheel), WheelNext(bet, wheel, next)))
  {
    match wheel.kind
    case Instant =>
      var award := SafeMul(bet, wheel.multiplier);
      match award {
        case Err(fault) => return Err(fault);
        case Ok(amount) =>
          var sum := SafeAdd(total, amount);
          match sum {
            case Err(fault) => return Err(fault);
            case Ok(value) => return Ok((WheelEvents(bet, wheel), value, next));
          }
      }
    case ExpansionWheel => return Ok((WheelEvents(bet, wheel), total, WheelNext(bet, wheel, next)));
    case OverdriveWheel => return Ok((WheelEvents(bet, wheel), total, WheelNext(bet, wheel, next)));
    case _ => return Err(InvalidWheel);
  }

  method SpinWheel(rng: RandomSource, c: Config, bet: int, next: FeatureState, total: int)
    returns (r: Result<(seq<Event>, int, FeatureState)>, ghost prize: WheelPrize)
    requires WheelTablesOk(c, bet) && 0 <= total && total + bet * MaxWheel(c.feature.wheel) <= MAX_INT64
    modifies rng
    ensures var s := ValueSample(c.feature.wheel, old(rng.tape));
            rng.tape == s.rest && s.result == match r case Err(fault) => Err(fault) case Ok(_) => Ok(prize)
    ensures r.Ok? ==> WheelEntryOk(prize) && 0 <= WheelAmount(bet, prize) <= bet * MaxWheel(c.feature.wheel)
    ensures r.Ok? ==> r == Ok((WheelEvents(bet, prize), total + WheelAmount(bet, prize), WheelNext(bet, prize, next)))
    ensures r.Err? ==> r.fault == RandomFailed && rng.tape == []
  {
    prize := WheelPrize(NoWheel, 0);
    var drawn := DrawValue(rng, c.feature.wheel);
    match drawn
    case Err(fault) => return Err(fault), prize;
    case Ok(wheel) =>
      prize := wheel;
      WheelWithin(c, bet, wheel);
      r := SettleWheel(bet, wheel, next, total);
  }
}
