/** Every event a spin emits has legal fields, belongs to its section, and pays its nominal award. */
module RawEvents {
  import opened Money
  import opened GameTypes
  import opened Grids
  import opened GameConfig
  import opened WinCap
  import opened OutcomeRules
  import opened SpinShape
  import opened EventLists
  import opened OpenedVaults
  import opened KingVaults
  import opened RawSpins

  predicate RawEventOk(bet: int, rows: int, section: int, e: Event) {
    && EventFieldsOk(e, rows)
    && Section(e.kind) == section
    && e.amount == Nominal(bet, e)
    && (e.kind == WheelAwarded && e.outcome != Instant ==> e.amount == 0)
  }

  predicate AllRaw(bet: int, rows: int, section: int, events: seq<Event>) {
    forall i :: 0 <= i < |events| ==> RawEventOk(bet, rows, section, events[i])
  }

  lemma PreRaw(bet: int, mode: FeatureMode, rows: int, pre: seq<Event>)
    requires PreShape(mode, rows, pre) && 3 <= rows <= 8
    ensures AllRaw(bet, rows, 0, pre)
  {
    assert 0 <= rows * rows * rows;
  }

  predicate VaultsOnGrid(positions: seq<Position>, rows: int) {
    Distinct(positions) && forall p :: p in positions ==> p.reel == 1 && 0 <= p.row < rows
  }

  lemma GroupRaw(bet: int, rows: int, kind: EventKind, positions: seq<Position>)
    requires VaultsOnGrid(positions, rows)
    requires kind in {VaultsLanded, VaultsLocked, VaultsUnlockStarted, VaultsUnlockCompleted}
    ensures RawEventOk(bet, rows, 1, GroupEvent(kind, positions))
  {
    forall i | 0 <= i < |positions|
      ensures 0 <= positions[i].reel < 3 && 0 <= positions[i].row < rows
    {
      assert positions[i] in positions;
    }
  }

  lemma PairRaw(mode: FeatureMode, bet: int, rows: int, p: Position, cell: Cell, a: Event, b: Event)
    requires 0 <= bet && p.reel == 1 && 0 <= p.row < rows && OpenedPair(mode, bet, p, cell, a, b)
    ensures RawEventOk(bet, rows, 1, a) && RawEventOk(bet, rows, 1, b)
  {
    if MoneyPair(bet, p, cell, a, b) {
      MulMonotone(0, a.multiplier, bet);
    }
  }

  lemma OpenedRaw(mode: FeatureMode, bet: int, rows: int, grid: Grid, positions: seq<Position>, ve: seq<Event>)
    requires 0 <= bet && VaultsOnGrid(positions, rows) && OpenedShape(mode, bet, grid, positions, ve)
    ensures AllRaw(bet, rows, 1, ve)
  {
    GroupRaw(bet, rows, VaultsLanded, positions);
    GroupRaw(bet, rows, VaultsUnlockStarted, positions);
    GroupRaw(bet, rows, VaultsUnlockCompleted, positions);
    forall j | 0 <= j < |ve|
      ensures RawEventOk(bet, rows, 1, ve[j])
    {
      if 2 <= j < |ve| - 1 {
        var k := (j - 2) / 2;
        assert OpenedPair(mode, bet, positions[k], CellAt(grid, positions[k]), ve[2 * k + 2], ve[2 * k + 3]);
        assert positions[k] in positions;
        PairRaw(mode, bet, rows, positions[k], CellAt(grid, positions[k]), ve[2 * k + 2], ve[2 * k + 3]);
      }
    }
  }

  lemma KingRevealRaw(bet: int, rows: int, p: Position, e: Event)
    requires p.reel == 1 && 0 <= p.row < rows && KingReveal(p, e)
    ensures RawEventOk(bet, rows, 1, e)
  {
  }

  lemma ChainEventRaw(bet: int, rows: int, positions: seq<Position>, e: Event)
    requires VaultsOnGrid(positions, rows) && ChainEvent(positions, e)
    ensures RawEventOk(bet, rows, 1, e)
  {
  }

  lemma KingAwardRaw(bet: int, rows: int, p: Position, cell: Cell, current: map<Position, int>, e: Event)
    requires 0 <= bet && p.reel == 1 && 0 <= p.row < rows && KingAward(bet, p, cell, current, e)
    ensures RawEventOk(bet, rows, 1, e)
  {
    MulMonotone(0, current[p], bet);
  }

  lemma KingRaw(bet: int, rows: int, grid: Grid, positions: seq<Position>, ve: seq<Event>)
    requires 0 <= bet && VaultsOnGrid(positions, rows) && positions != [] && KingShape(bet, grid, positions, ve)
    ensures AllRaw(bet, rows, 1, ve)
  {
    GroupRaw(bet, rows, VaultsLanded, positions);
    GroupRaw(bet, rows, VaultsUnlockStarted, positions);
    GroupRaw(bet, rows, VaultsUnlockCompleted, positions);
    forall j | 0 <= j < |ve|
      ensures RawEventOk(bet, rows, 1, ve[j])
    {
      KingAnyRaw(bet, rows, grid, positions, ve, j);
    }
  }

  lemma KingLastRaw(bet: int, rows: int, grid: Grid, positions: seq<Position>, ve: seq<Event>, k: nat)
    requires 0 <= bet && VaultsOnGrid(positions, rows) && KingShape(bet, grid, positions, ve) && k < |positions|
    ensures RawEventOk(bet, rows, 1, ve[|ve| - |positions| + k])
  {
    assert positions[k] in positions;
    KingAwardAt(bet, grid, positions, ve, k, |ve| - |positions| + k);
    KingAwardRaw(bet, rows, positions[k], CellAt(grid, positions[k]), FinalMultipliers(positions, ve), ve[|ve| - |positions| + k]);
  }

  lemma KingAnyRaw(bet: int, rows: int, grid: Grid, positions: seq<Position>, ve: seq<Event>, j: nat)
    requires 0 <= bet && VaultsOnGrid(positions, rows) && positions != [] && KingShape(bet, grid, positions, ve) && j < |ve|
    requires forall kind :: kind in {VaultsLanded, VaultsUnlockStarted, VaultsUnlockCompleted} ==>
               RawEventOk(bet, rows, 1, GroupEvent(kind, positions))
    ensures RawEventOk(bet, rows, 1, ve[j])
  {
    var n, first := |positions|, |ve| - |positions|;
    if first <= j {
      KingLastRaw(bet, rows, grid, positions, ve, j - first);
    } else {
      KingFrameRaw(bet, rows, positions, ve, j);
    }
  }

  lemma KingFrameRaw(bet: int, rows: int, positions: seq<Position>, ve: seq<Event>, j: nat)
    requires VaultsOnGrid(positions, rows) && positions != [] && KingFrame(positions, ve) && j < |ve| - |positions|
    requires forall kind :: kind in {VaultsLanded, VaultsUnlockStarted, VaultsUnlockCompleted} ==>
               RawEventOk(bet, rows, 1, GroupEvent(kind, positions))
    ensures RawEventOk(bet, rows, 1, ve[j])
  {
    var n := |positions|;
    KingKinds(positions, ve, j);
    if 2 <= j < n + 2 {
      assert positions[j - 2] in positions;
      KingRevealRaw(bet, rows, positions[j - 2], ve[j]);
    } else if n + 3 <= j {
      ChainEventRaw(bet, rows, positions, ve[j]);
    }
  }

  lemma VaultRaw(mode: FeatureMode, bet: int, grid: Grid, ve: seq<Event>)
    requires 0 <= bet && GridOk(grid) && VaultShape(mode, bet, grid, ve)
    ensures AllRaw(bet, |grid[0]|, 1, ve)
  {
    var positions := PositionsFor(grid, Vault);
    PositionsExact(grid, Vault);
    VaultsInMiddle(grid);
    if positions != [] {
      if mode == Overdrive {
        KingRaw(bet, |grid[0]|, grid, positions, ve);
      } else if LockedShape(grid, positions, ve) {
        GroupRaw(bet, |grid[0]|, VaultsLanded, positions);
        GroupRaw(bet, |grid[0]|, VaultsLocked, positions);
      } else {
        OpenedRaw(mode, bet, |grid[0]|, grid, positions, ve);
      }
    }
  }

  lemma WheelRaw(bet: int, rows: int, wheel: WheelPrize)
    requires 0 <= bet && WheelEntryOk(wheel)
    ensures AllRaw(bet, rows, 2, WheelEvents(bet, wheel))
  {
    MulMonotone(0, wheel.multiplier, bet);
  }

  lemma CellsOnGrid(grid: Grid, cells: seq<Position>)
    requires GridOk(grid) && Distinct(cells) && forall i :: 0 <= i < |cells| ==> OnGrid(grid, cells[i])
    ensures PositionsOk(cells, |grid[0]|)
  {
  }

  lemma RageRaw(bet: int, grid: Grid, surges: seq<Position>, triggered: bool, level: int, total: int,
                cells: seq<Position>, wheel: WheelPrize)
    requires 0 <= bet && GridOk(grid) && surges == PositionsFor(grid, Surge) && 0 <= level && 0 <= total
    requires triggered ==> WheelEntryOk(wheel) && (|surges| < 3 ==> TransformedOk(grid, surges, cells))
    ensures AllRaw(bet, |grid[0]|, 2, RageEvents(bet, surges, triggered, level, total, cells, wheel))
  {
    var rows := |grid[0]|;
    PositionsExact(grid, Surge);
    forall i | 0 <= i < |surges|
      ensures OnGrid(grid, surges[i])
    {
      assert surges[i] in surges;
    }
    CellsOnGrid(grid, surges);
    assert RawEventOk(bet, rows, 2, CollectedEvent(surges, triggered, level, total));
    if triggered {
      WheelRaw(bet, rows, wheel);
      if |surges| < 3 {
        CellsOnGrid(grid, cells);
        assert RawEventOk(bet, rows, 2, TransformedEvent(cells));
      }
    }
  }
}
