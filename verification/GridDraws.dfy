/** Drawing the grid of a spin. */
module GridDraws {
  import opened Money
  import opened Weights
  import opened FiniteSets
  import opened GameTypes
  import opened Grids
  import opened GameConfig
  import opened ArithmeticBounds
  import opened RandomPicks
  import opened GridBuffers

  predicate Drawn<T(==)>(items: seq<Weighted<T>>, value: T) {
    exists i :: 0 <= i < |items| && items[i].value == value
  }

  /** A cell as it is drawn: a symbol of its reel, with a multiplier of the table if it is Wild. */
  predicate DrawnCell(c: Config, mode: FeatureMode, reel: int, cell: Cell)
    requires |c.reels| == 3 && 0 <= reel < 3
  {
    && Drawn(c.reels[reel], cell.symbol) && cell.prize == NoPrize
    && (if cell.symbol == Wild then Drawn(c.wilds, cell.multiplier) else cell.multiplier == 0)
    && (mode in {Expansion, Overdrive} ==> cell.symbol != Surge)
  }

  /** Drawing from a drawable table yields one of its values, or fails because the source is exhausted. */
  method DrawValue<T(==)>(rng: RandomSource, items: seq<Weighted<T>>) returns (r: Result<T>)
    requires Drawable(items)
    modifies rng
    ensures Sample(r, rng.tape) == ValueSample(items, old(rng.tape))
    ensures r.Ok? ==> Drawn(items, r.value)
    ensures r.Err? ==> r.fault == RandomFailed && rng.tape == []
  {
    ghost var tape := rng.tape;
    r := PickWeighted(rng, items);
    if |tape| == 0 {
      assert tape == [];
    }
  }

  lemma WithoutSurge(reel: seq<Weighted<Symbol>>, index: int)
    requires ReelOk(reel, index)
    ensures Drawable(Without(reel, Surge))
    ensures forall s :: Drawn(Without(reel, Surge), s) ==> Drawn(reel, s) && s != Surge
  {
    forall s | Drawn(Without(reel, Surge), s)
      ensures Drawn(reel, s) && s != Surge
    {
      var kept := Without(reel, Surge);
      var i :| 0 <= i < |kept| && kept[i].value == s;
      WithoutKeeps(reel, Surge, kept[i]);
      assert kept[i] in kept;
      var j :| 0 <= j < |reel| && reel[j] == kept[i];
    }
  }

  /** The tables behind a grid. */
  predicate GridTablesOk(c: Config) {
    |c.reels| == 3 && (forall reel :: 0 <= reel < 3 ==> ReelOk(c.reels[reel], reel)) && Drawable(c.wilds)
  }

  /** The symbols a cell is drawn from: no Surge in free spins, nor in a base grid that has settled three. */
  function SymbolsFor(c: Config, mode: FeatureMode, reel: int, settled: int): seq<Weighted<Symbol>>
    requires |c.reels| == 3 && 0 <= reel < 3
  {
    if mode in {Expansion, Overdrive} || (mode == Base && settled == 3) then Without(c.reels[reel], Surge) else c.reels[reel]
  }

  /** A cell as the tape has it: a symbol, and for a Wild its multiplier. */
  function CellSample(c: Config, mode: FeatureMode, reel: int, settled: int, tape: seq<nat>): Sample<Cell>
    requires |c.reels| == 3 && 0 <= reel < 3
  {
    var symbol := ValueSample(SymbolsFor(c, mode, reel, settled), tape);
    match symbol.result
    case Err(fault) => Sample(Err(fault), symbol.rest)
    case Ok(s) =>
      if s != Wild then Sample(Ok(Cell(s, 0, NoPrize)), symbol.rest)
      else
        var multiplier := ValueSample(c.wilds, symbol.rest);
        match multiplier.result
        case Err(fault) => Sample(Err(fault), multiplier.rest)
        case Ok(m) => Sample(Ok(Cell(s, m, NoPrize)), multiplier.rest)
  }

  function Settles(cell: Cell): int {
    if cell.symbol == Surge then 1 else 0
  }

  /** The first n cells of a reel, and how many Surge symbols have settled by then. */
  function CellsTo(c: Config, mode: FeatureMode, reel: int, settled: int, n: nat, tape: seq<nat>): Sample<(seq<Cell>, int)>
    requires |c.reels| == 3 && 0 <= reel < 3
  {
    if n == 0 then Sample(Ok(([], settled)), tape)
    else
      var before := CellsTo(c, mode, reel, settled, n - 1, tape);
      match before.result
      case Err(_) => before
      case Ok(drawn) => WithNext(drawn.0, drawn.1, CellSample(c, mode, reel, drawn.1, before.rest))
  }

  /** The cells of a reel with the next one, if there is one. */
  function WithNext(cells: seq<Cell>, settled: int, next: Sample<Cell>): Sample<(seq<Cell>, int)> {
    match next.result
    case Err(fault) => Sample(Err(fault), next.rest)
    case Ok(cell) => Sample(Ok((cells + [cell], settled + Settles(cell))), next.rest)
  }

  lemma NextCell(c: Config, mode: FeatureMode, reel: int, settled: int, n: nat, tape: seq<nat>, cells: seq<Cell>, count: int, rest: seq<nat>)
    requires |c.reels| == 3 && 0 <= reel < 3 && CellsTo(c, mode, reel, settled, n, tape) == Sample(Ok((cells, count)), rest)
    ensures CellsTo(c, mode, reel, settled, n + 1, tape) == WithNext(cells, count, CellSample(c, mode, reel, count, rest))
  {
  }

  lemma {:induction false} CellsStop(c: Config, mode: FeatureMode, reel: int, settled: int, m: nat, n: nat, tape: seq<nat>)
    requires |c.reels| == 3 && 0 <= reel < 3 && m <= n && CellsTo(c, mode, reel, settled, m, tape).result.Err?
    ensures CellsTo(c, mode, reel, settled, n, tape) == CellsTo(c, mode, reel, settled, m, tape)
  {
    if m < n {
      CellsStop(c, mode, reel, settled, m, n - 1, tape);
    }
  }

  /** The first n reels of a grid. */
  function ReelsTo(c: Config, mode: FeatureMode, rows: nat, n: nat, tape: seq<nat>): Sample<(Grid, int)>
    requires |c.reels| == 3 && n <= 3
  {
    if n == 0 then Sample(Ok(([], 0)), tape)
    else
      var before := ReelsTo(c, mode, rows, n - 1, tape);
      match before.result
      case Err(_) => before
      case Ok(drawn) => WithReel(drawn.0, CellsTo(c, mode, n - 1, drawn.1, rows, before.rest))
  }

  /** The reels of a grid with the next one, if there is one. */
  function WithReel(reels: Grid, next: Sample<(seq<Cell>, int)>): Sample<(Grid, int)> {
    match next.result
    case Err(fault) => Sample(Err(fault), next.rest)
    case Ok(cells) => Sample(Ok((reels + [cells.0], cells.1)), next.rest)
  }

  lemma NextReel(c: Config, mode: FeatureMode, rows: nat, n: nat, tape: seq<nat>, reels: Grid, count: int, rest: seq<nat>)
    requires |c.reels| == 3 && n < 3 && ReelsTo(c, mode, rows, n, tape) == Sample(Ok((reels, count)), rest)
    ensures ReelsTo(c, mode, rows, n + 1, tape) == WithReel(reels, CellsTo(c, mode, n, count, rows, rest))
  {
  }

  lemma {:induction false} ReelsStop(c: Config, mode: FeatureMode, rows: nat, m: nat, n: nat, tape: seq<nat>)
    requires |c.reels| == 3 && m <= n <= 3 && ReelsTo(c, mode, rows, m, tape).result.Err?
    ensures ReelsTo(c, mode, rows, n, tape) == ReelsTo(c, mode, rows, m, tape)
  {
    if m < n {
      ReelsStop(c, mode, rows, m, n - 1, tape);
    }
  }

  method DrawCell(rng: RandomSource, c: Config, mode: FeatureMode, reel: int, settled: int) returns (r: Result<Cell>)
    requires GridTablesOk(c) && 0 <= reel < 3
    modifies rng
    ensures Sample(r, rng.tape) == CellSample(c, mode, reel, settled, old(rng.tape))
    ensures r.Ok? ==> DrawnCell(c, mode, reel, r.value) && (mode == Base && settled == 3 ==> r.value.symbol != Surge)
    ensures r.Err? ==> r.fault == RandomFailed && rng.tape == []
  {
    var weights := c.reels[reel];
    WithoutSurge(weights, reel);
    if mode == Expansion || mode == Overdrive || (mode == Base && settled == 3) {
      weights := Without(weights, Surge);
    }
    var symbol := DrawValue(rng, weights);
    match symbol
    case Err(fault) => return Err(fault);
    case Ok(s) =>
      if s != Wild {
        return Ok(Cell(s, 0, NoPrize));
      }
      var multiplier := DrawValue(rng, c.wilds);
      match multiplier
      case Err(fault) => return Err(fault);
      case Ok(m) => return Ok(Cell(s, m, NoPrize));
  }

  predicate DrawnReel(c: Config, mode: FeatureMode, reel: int, cells: seq<Cell>)
    requires |c.reels| == 3 && 0 <= reel < 3
  {
    forall row :: 0 <= row < |cells| ==> DrawnCell(c, mode, reel, cells[row])
  }

  predicate SettledIn(reel: int, cells: seq<Cell>, surges: set<Position>) {
    forall row :: 0 <= row < |cells| && cells[row].symbol == Surge ==> Position(reel, row) in surges
  }

  /** Only positions before a cell, reel by reel. */
  predicate Before(surges: set<Position>, reel: int, row: int) {
    forall p :: p in surges ==> p.reel < reel || (p.reel == reel && p.row < row)
  }

  /** A reel drawn so far, with the Surge cells settled before and after. */
  predicate DrawnTo(c: Config, mode: FeatureMode, reel: int, cells: seq<Cell>, before: set<Position>, after: set<Position>)
    requires |c.reels| == 3 && 0 <= reel < 3
  {
    && DrawnReel(c, mode, reel, cells) && SettledIn(reel, cells, after)
    && Before(after, reel, |cells|) && before <= after && (mode == Base ==> |after| <= 3)
  }

  function Settling(surges: set<Position>, reel: int, row: int, cell: Cell): set<Position> {
    if cell.symbol == Surge then surges + {Position(reel, row)} else surges
  }

  lemma DrawnStep(c: Config, mode: FeatureMode, reel: int, cells: seq<Cell>, before: set<Position>, after: set<Position>, cell: Cell)
    requires |c.reels| == 3 && 0 <= reel < 3 && DrawnTo(c, mode, reel, cells, before, after)
    requires DrawnCell(c, mode, reel, cell) && (mode == Base && |after| == 3 ==> cell.symbol != Surge)
    ensures var next := Settling(after, reel, |cells|, cell);
            && DrawnTo(c, mode, reel, cells + [cell], before, next)
            && |next| == |after| + Settles(cell)
  {
  }

  lemma SampledCell(c: Config, mode: FeatureMode, reel: int, settled: int, tape: seq<nat>)
    requires GridTablesOk(c) && 0 <= reel < 3
    ensures var s := CellSample(c, mode, reel, settled, tape);
            match s.result
            case Err(fault) => fault == RandomFailed && s.rest == []
            case Ok(cell) => DrawnCell(c, mode, reel, cell) && (mode == Base && settled == 3 ==> cell.symbol != Surge)
  {
    WithoutSurge(c.reels[reel], reel);
    var symbol := ValueSample(SymbolsFor(c, mode, reel, settled), tape);
    SampledValue(SymbolsFor(c, mode, reel, settled), tape);
    SampledValue(c.wilds, symbol.rest);
  }

  lemma SampledValue<T>(items: seq<Weighted<T>>, tape: seq<nat>)
    requires Drawable(items)
    ensures match ValueSample(items, tape).result
            case Err(fault) => fault == RandomFailed && ValueSample(items, tape).rest == []
            case Ok(value) => Drawn(items, value)
  {
  }

  /** What a reel drawn from a tape is: its cells, and the Surge cells settled after those before it. */
  predicate CellsFit(c: Config, mode: FeatureMode, reel: int, surges: set<Position>, n: nat, s: Sample<(seq<Cell>, int)>, after: set<Position>)
    requires |c.reels| == 3 && 0 <= reel < 3
  {
    match s.result
    case Err(fault) => fault == RandomFailed && s.rest == []
    case Ok(drawn) => |drawn.0| == n && DrawnTo(c, mode, reel, drawn.0, surges, after) && |after| == drawn.1
  }

  lemma CellFits(c: Config, mode: FeatureMode, reel: int, surges: set<Position>, n: nat, before: Sample<(seq<Cell>, int)>,
                 after: set<Position>) returns (next: set<Position>)
    requires GridTablesOk(c) && 0 <= reel < 3 && before.result.Ok? && CellsFit(c, mode, reel, surges, n, before, after)
    ensures var drawn := before.result.value;
            CellsFit(c, mode, reel, surges, n + 1, WithNext(drawn.0, drawn.1, CellSample(c, mode, reel, drawn.1, before.rest)), next)
  {
    var drawn := before.result.value;
    SampledCell(c, mode, reel, drawn.1, before.rest);
    var cell := CellSample(c, mode, reel, drawn.1, before.rest);
    next := after;
    if cell.result.Ok? {
      DrawnStep(c, mode, reel, drawn.0, surges, after, cell.result.value);
      next := Settling(after, reel, n, cell.result.value);
    }
  }

  lemma {:induction false} CellsDrawn(c: Config, mode: FeatureMode, reel: int, surges: set<Position>, settled: int, n: nat, tape: seq<nat>)
    returns (after: set<Position>)
    requires GridTablesOk(c) && 0 <= reel < 3 && Before(surges, reel, 0) && (mode == Base ==> |surges| <= 3) && settled == |surges|
    ensures CellsFit(c, mode, reel, surges, n, CellsTo(c, mode, reel, settled, n, tape), after) == true
  {
    after := surges;
    if n > 0 {
      after := CellsDrawn(c, mode, reel, surges, settled, n - 1, tape);
      var before := CellsTo(c, mode, reel, settled, n - 1, tape);
      if before.result.Ok? {
        after := CellFits(c, mode, reel, surges, n - 1, before, after);
      }
    }
  }

  /** One cell drawn and written. */
  method DrawInto(rng: RandomSource, c: Config, mode: FeatureMode, reel: int, row: int, grid: array2<Cell>, settled: int)
    returns (r: Result<Cell>)
    requires GridTablesOk(c) && 0 <= reel < 3 && grid.Length0 == 3 && 0 <= row < grid.Length1
    modifies rng, grid
    ensures Sample(r, rng.tape) == CellSample(c, mode, reel, settled, old(rng.tape))
    ensures forall q :: 0 <= q < 3 && q != reel ==> Column(grid, q) == old(Column(grid, q))
    ensures Column(grid, reel) == if r.Ok? then old(Column(grid, reel))[row := r.value] else old(Column(grid, reel))
  {
    r := DrawCell(rng, c, mode, reel, settled);
    if r.Ok? {
      grid[reel, row] := r.value;
    }
    assert Column(grid, reel) == if r.Ok? then old(Column(grid, reel))[row := r.value] else old(Column(grid, reel));
  }

  lemma Extended(column: seq<Cell>, row: nat, cell: Cell)
    requires row < |column|
    ensures column[row := cell][..row + 1] == column[..row] + [cell]
  {
  }

  /** The next cell of a reel. */
  method DrawNext(rng: RandomSource, c: Config, mode: FeatureMode, reel: int, grid: array2<Cell>, row: nat, count: int,
                  ghost settled: int, ghost cells: seq<Cell>, ghost tape: seq<nat>)
    returns (r: Result<int>, ghost next: seq<Cell>)
    requires GridTablesOk(c) && 0 <= reel < 3 && grid.Length0 == 3 && row < grid.Length1
    requires Column(grid, reel)[..row] == cells
    requires CellsTo(c, mode, reel, settled, row, tape) == Sample(Ok((cells, count)), rng.tape)
    modifies rng, grid
    ensures forall q :: 0 <= q < 3 && q != reel ==> Column(grid, q) == old(Column(grid, q))
    ensures r.Ok? ==> Column(grid, reel)[..row + 1] == next
    ensures r.Ok? ==> CellsTo(c, mode, reel, settled, row + 1, tape) == Sample(Ok((next, r.value)), rng.tape)
    ensures r.Err? ==> CellsTo(c, mode, reel, settled, grid.Length1, tape) == Sample(Err(r.fault), rng.tape)
  {
    NextCell(c, mode, reel, settled, row, tape, cells, count, rng.tape);
    ghost var column := Column(grid, reel);
    next := cells;
    var cell := DrawInto(rng, c, mode, reel, row, grid, count);
    match cell
    case Err(fault) =>
      CellsStop(c, mode, reel, settled, row + 1, grid.Length1, tape);
      r := Err(fault);
    case Ok(value) =>
      Extended(column, row, value);
      next := cells + [value];
      r := Ok(count + if value.symbol == Surge then 1 else 0);
  }

  /** One reel, from the top, as the tape has it. */
  method DrawReel(rng: RandomSource, c: Config, mode: FeatureMode, reel: int, grid: array2<Cell>, settled: int) returns (r: Result<int>)
    requires GridTablesOk(c) && 0 <= reel < 3 && grid.Length0 == 3
    modifies rng, grid
    ensures forall q :: 0 <= q < 3 && q != reel ==> Column(grid, q) == old(Column(grid, q))
    ensures var s := CellsTo(c, mode, reel, settled, grid.Length1, old(rng.tape));
            && rng.tape == s.rest
            && match s.result
               case Err(fault) => r == Err(fault)
               case Ok(drawn) => r == Ok(drawn.1) && Column(grid, reel) == drawn.0
  {
    r := Ok(settled);
    ghost var cells: seq<Cell>, tape := [], rng.tape;
    for row := 0 to grid.Length1
      invariant forall q :: 0 <= q < 3 && q != reel ==> Column(grid, q) == old(Column(grid, q))
      invariant r.Ok? && Column(grid, reel)[..row] == cells
      invariant CellsTo(c, mode, reel, settled, row, tape) == Sample(Ok((cells, r.value)), rng.tape)
    {
      r, cells := DrawNext(rng, c, mode, reel, grid, row, r.value, settled, cells, tape);
      if r.Err? {
        return;
      }
    }
  }

  lemma {:induction false} DistinctWithin(positions: seq<Position>, s: set<Position>)
    requires Distinct(positions) && forall i :: 0 <= i < |positions| ==> positions[i] in s
    ensures |positions| <= |s|
  {
    if positions != [] {
      var last := |positions| - 1;
      DistinctWithin(positions[..last], s - {positions[last]});
    }
  }

  /** What drawing guarantees of a fresh grid. */
  predicate DrawnGrid(c: Config, mode: FeatureMode, grid: Grid)
    requires |c.reels| == 3
  {
    && |grid| == 3
    && (forall reel :: 0 <= reel < 3 ==> DrawnReel(c, mode, reel, grid[reel]))
    && (mode in {Expansion, Overdrive} ==> PositionsFor(grid, Surge) == [])
    && (mode == Base ==> |PositionsFor(grid, Surge)| <= 3)
  }

  lemma SettledBound(mode: FeatureMode, grid: Grid, surges: set<Position>)
    requires |grid| == 3 && forall reel :: 0 <= reel < 3 ==> SettledIn(reel, grid[reel], surges)
    ensures |PositionsFor(grid, Surge)| <= |surges|
  {
    var positions := PositionsFor(grid, Surge);
    PositionsExact(grid, Surge);
    forall i | 0 <= i < |positions|
      ensures positions[i] in surges
    {
      assert positions[i] in positions;
    }
    DistinctWithin(positions, surges);
  }

  lemma NoSurges(c: Config, mode: FeatureMode, grid: Grid)
    requires |c.reels| == 3 && |grid| == 3 && mode in {Expansion, Overdrive}
    requires forall reel :: 0 <= reel < 3 ==> DrawnReel(c, mode, reel, grid[reel])
    ensures PositionsFor(grid, Surge) == []
  {
    forall reel | 0 <= reel < 3
      ensures SettledIn(reel, grid[reel], {})
    {
      assert DrawnReel(c, mode, reel, grid[reel]);
    }
    SettledBound(mode, grid, {});
  }

  lemma GridDrawn(c: Config, mode: FeatureMode, grid: Grid, surges: set<Position>)
    requires |c.reels| == 3 && |grid| == 3 && (mode == Base ==> |surges| <= 3)
    requires forall reel :: 0 <= reel < 3 ==> DrawnReel(c, mode, reel, grid[reel]) && SettledIn(reel, grid[reel], surges)
    ensures DrawnGrid(c, mode, grid)
  {
    SettledBound(mode, grid, surges);
    if mode == Expansion || mode == Overdrive {
      NoSurges(c, mode, grid);
    }
  }

  /** A grid drawn from a tape is a drawn grid; only an exhausted tape yields none. */
  lemma ReelsDrawn(c: Config, mode: FeatureMode, rows: nat, tape: seq<nat>)
    requires GridTablesOk(c)
    ensures var s := ReelsTo(c, mode, rows, 3, tape);
            match s.result
            case Err(fault) => fault == RandomFailed && s.rest == []
            case Ok(drawn) => DrawnGrid(c, mode, drawn.0) && forall reel :: 0 <= reel < 3 ==> |drawn.0[reel]| == rows
  {
    var surges := ReelsSettle(c, mode, rows, 3, tape);
    var s := ReelsTo(c, mode, rows, 3, tape);
    if s.result.Ok? {
      GridDrawn(c, mode, s.result.value.0, surges);
    }
  }

  /** The first n reels drawn from a tape: cells of their reels, and every settled Surge. */
  predicate ReelsFit(c: Config, mode: FeatureMode, rows: nat, n: nat, s: Sample<(Grid, int)>, surges: set<Position>)
    requires |c.reels| == 3 && n <= 3
  {
    match s.result
    case Err(fault) => fault == RandomFailed && s.rest == []
    case Ok(drawn) =>
      && |drawn.0| == n && |surges| == drawn.1
      && forall q :: 0 <= q < n ==> |drawn.0[q]| == rows && DrawnReel(c, mode, q, drawn.0[q]) && SettledIn(q, drawn.0[q], surges)
  }

  lemma ReelJoins(c: Config, mode: FeatureMode, rows: nat, n: nat, reels: Grid, count: int, surges: set<Position>,
                  next: Sample<(seq<Cell>, int)>, rest: seq<nat>, after: set<Position>)
    requires |c.reels| == 3 && n < 3 && ReelsFit(c, mode, rows, n, Sample(Ok((reels, count)), rest), surges)
    requires CellsFit(c, mode, n, surges, rows, next, after)
    ensures ReelsFit(c, mode, rows, n + 1, WithReel(reels, next), if next.result.Ok? then after else surges)
  {
  }

  lemma {:induction false} ReelsSettle(c: Config, mode: FeatureMode, rows: nat, n: nat, tape: seq<nat>) returns (surges: set<Position>)
    requires GridTablesOk(c) && n <= 3
    ensures Before(surges, n, 0) && (mode == Base ==> |surges| <= 3)
    ensures ReelsFit(c, mode, rows, n, ReelsTo(c, mode, rows, n, tape), surges)
  {
    surges := {};
    if n > 0 {
      surges := ReelsSettle(c, mode, rows, n - 1, tape);
      var before := ReelsTo(c, mode, rows, n - 1, tape);
      if before.result.Ok? {
        var drawn := before.result.value;
        var next := CellsTo(c, mode, n - 1, drawn.1, rows, before.rest);
        var after := CellsDrawn(c, mode, n - 1, surges, drawn.1, rows, before.rest);
        ReelJoins(c, mode, rows, n - 1, drawn.0, drawn.1, surges, next, before.rest, after);
        surges := if next.result.Ok? then after else surges;
      }
    }
  }

  /** The grid a tape holds, reel by reel; the tape is left where the last cell ended. */
  method GenerateGrid(rng: RandomSource, c: Config, rows: int, mode: FeatureMode) returns (r: Result<array2<Cell>>)
    requires GridTablesOk(c)
    modifies rng
    ensures r.Ok? ==> fresh(r.value) && r.value.Length0 == 3 && r.value.Length1 == rows && 3 <= rows <= 8
    ensures r.Ok? ==> DrawnGrid(c, mode, GridOf(r.value))
    ensures r.Err? && 3 <= rows <= 8 ==> r.fault == RandomFailed && rng.tape == []
    ensures !(3 <= rows <= 8) ==> r == Err(InvalidGrid)
    ensures 3 <= rows <= 8 ==>
              var s := ReelsTo(c, mode, rows, 3, old(rng.tape));
              && rng.tape == s.rest
              && match s.result
                 case Err(fault) => r == Err(fault)
                 case Ok(drawn) => r.Ok? && GridOf(r.value) == drawn.0
  {
    if rows < 3 || rows > 8 {
      return Err(InvalidGrid);
    }
    ReelsDrawn(c, mode, rows, rng.tape);
    var grid := new Cell[3, rows]((_, _) => Cell(Orbit, 0, NoPrize));
    var filled := FillGrid(rng, c, mode, grid);
    match filled
    case Err(fault) => return Err(fault);
    case Ok(_) => return Ok(grid);
  }

  method FillGrid(rng: RandomSource, c: Config, mode: FeatureMode, grid: array2<Cell>) returns (r: Result<int>)
    requires GridTablesOk(c) && grid.Length0 == 3
    modifies rng, grid
    ensures var s := ReelsTo(c, mode, grid.Length1, 3, old(rng.tape));
            && rng.tape == s.rest
            && match s.result
               case Err(fault) => r == Err(fault)
               case Ok(drawn) => r == Ok(drawn.1) && GridOf(grid) == drawn.0
  {
    var settled := 0;
    ghost var columns: Grid, tape := [], rng.tape;
    for reel := 0 to 3
      invariant |columns| == reel && forall q :: 0 <= q < reel ==> Column(grid, q) == columns[q]
      invariant ReelsTo(c, mode, grid.Length1, reel, tape) == Sample(Ok((columns, settled)), rng.tape)
    {
      NextReel(c, mode, grid.Length1, reel, tape, columns, settled, rng.tape);
      var drawn := DrawReel(rng, c, mode, reel, grid, settled);
      match drawn {
        case Err(fault) =>
          ReelsStop(c, mode, grid.Length1, reel + 1, 3, tape);
          return Err(fault);
        case Ok(count) =>
          settled := count;
          columns := columns + [Column(grid, reel)];
      }
    }
    assert columns == GridOf(grid);
    return Ok(settled);
  }

  /** A drawn grid is legal, its Wilds come from the table, and its Vaults are unresolved. */
  lemma DrawnGridOk(c: Config, mode: FeatureMode, grid: Grid)
    requires ConfigOk(c) && DrawnGrid(c, mode, grid) && 3 <= |grid[0]| <= 8
    requires forall reel :: 0 <= reel < 3 ==> |grid[reel]| == |grid[0]|
    ensures GridOk(grid) && WildsFrom(grid, c.wilds)
    ensures forall p :: OnGrid(grid, p) && grid[p.reel][p.row].symbol == Vault ==> grid[p.reel][p.row] == Cell(Vault, 0, NoPrize)
  {
    forall reel, row | 0 <= reel < 3 && 0 <= row < |grid[reel]|
      ensures CellOk(grid[reel][row], reel)
      ensures grid[reel][row].symbol == Wild ==> exists i :: 0 <= i < |c.wilds| && c.wilds[i].value == grid[reel][row].multiplier
      ensures grid[reel][row].symbol == Vault ==> grid[reel][row] == Cell(Vault, 0, NoPrize)
    {
      assert DrawnReel(c, mode, reel, grid[reel]);
      assert DrawnCell(c, mode, reel, grid[reel][row]);
      assert ReelOk(c.reels[reel], reel);
    }
  }
}
