/** A whole spin as a function of the random tape, before the win cap. */
module SpinSamples {
  import opened Money
  import opened Weights
  import opened GameTypes
  import opened Grids
  import opened GameConfig
  import opened RawSpins
  import opened RandomPicks
  import opened GridDraws
  import opened VaultDraws
  import opened VaultWrites
  import opened VaultSection
  import opened RageDrawing
  import opened RageSection

  /** Everything a spin draws: its grid, what its Vaults tell, the state after them, and its Rage section. */
  datatype SpinDraws = SpinDraws(grid: Grid, vault: seq<Event>, middle: FeatureState, rage: RageDraws)

  /** The height of the grid: drawn in Expansion, three otherwise. */
  function RowsSample(c: Config, f: FeatureState, tape: seq<nat>): Sample<int> {
    if !f.Active() || f.mode != Expansion then Sample(Ok(3), tape) else ValueSample(c.feature.expansionRows, tape)
  }

  function EndSample(c: Config, f: FeatureState, grid: Grid, tape: seq<nat>): Sample<RageDraws> {
    if f.Active() then Sample(Ok(QUIET), tape) else RageSample(c, f, grid, tape)
  }

  /** What follows the grid. */
  function ResolveSample(c: Config, input: SpinInput, grid: Grid, tape: seq<nat>): Sample<SpinDraws> {
    var f := input.feature;
    var vault := VaultSample(c, f.mode, input.bet, PositionsFor(grid, Vault), StartState(f), tape);
    match vault.result
    case Err(fault) => Sample(Err(fault), vault.rest)
    case Ok(told) =>
      var end := EndSample(c, f, grid, vault.rest);
      match end.result
      case Err(fault) => Sample(Err(fault), end.rest)
      case Ok(rage) => Sample(Ok(SpinDraws(grid, told.0, told.1, rage)), end.rest)
  }

  /** A grid of some height, and what follows it. */
  function GridSample(c: Config, input: SpinInput, rows: int, tape: seq<nat>): Sample<SpinDraws>
    requires |c.reels| == 3
  {
    if rows < 0 then Sample(Err(InvalidGrid), tape)
    else
      var drawn := ReelsTo(c, input.feature.mode, rows, 3, tape);
      match drawn.result
      case Err(fault) => Sample(Err(fault), drawn.rest)
      case Ok(reels) => ResolveSample(c, input, reels.0, drawn.rest)
  }

  /** A whole spin. */
  function SpinSample(c: Config, input: SpinInput, tape: seq<nat>): Sample<SpinDraws>
    requires |c.reels| == 3
  {
    var rows := RowsSample(c, input.feature, tape);
    match rows.result
    case Err(fault) => Sample(Err(fault), rows.rest)
    case Ok(height) => GridSample(c, input, height, rows.rest)
  }

  /** What a spin built beside what the tape holds. */
  predicate SpunFrom(s: Sample<SpinDraws>, r: Result<Outcome>, vault: seq<Event>, middle: FeatureState, rage: RageDraws, rest: seq<nat>) {
    && rest == s.rest
    && match s.result
       case Err(fault) => r == Err(fault)
       case Ok(draws) => r.Ok? && Rewarded(draws.grid, r.value.grid) && SpinDraws(draws.grid, vault, middle, rage) == draws
  }

  // --- Rewards written into the grid do not change what follows ---

  lemma {:induction false} ColumnExceptOfSymbols(a: seq<Cell>, b: seq<Cell>, reel: int, symbol: Symbol)
    requires |a| == |b| && forall row :: 0 <= row < |a| ==> a[row].symbol == b[row].symbol
    ensures ColumnExcept(a, reel, symbol) == ColumnExcept(b, reel, symbol)
  {
    if a != [] {
      ColumnExceptOfSymbols(a[..|a| - 1], b[..|b| - 1], reel, symbol);
    }
  }

  lemma {:induction false} ExceptOfSymbols(a: Grid, b: Grid, symbol: Symbol)
    requires SameSymbols(a, b)
    ensures PositionsExcept(a, symbol) == PositionsExcept(b, symbol)
  {
    if a != [] {
      var last := |a| - 1;
      ExceptOfSymbols(a[..last], b[..last], symbol);
      ColumnExceptOfSymbols(a[last], b[last], last, symbol);
    }
  }

  lemma EndOfSymbols(c: Config, f: FeatureState, a: Grid, b: Grid, tape: seq<nat>)
    requires SameSymbols(a, b)
    ensures EndSample(c, f, a, tape) == EndSample(c, f, b, tape)
  {
    PositionsOfSymbols(a, b, Surge);
    ExceptOfSymbols(a, b, Surge);
  }
}
