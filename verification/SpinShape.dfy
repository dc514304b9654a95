/** The events a spin emits, section by section, before the win cap clips them. */
module SpinShape {
  import opened Money
  import opened GameTypes
  import opened Grids
  import opened GameConfig
  import opened WinCap
  import opened OutcomeRules

  // --- Event constructors ---

  function ExpandedEvent(rows: int): Event {
    Bare(GridExpanded).(rows := rows, ways := rows * rows * rows)
  }

  function GroupEvent(kind: EventKind, positions: seq<Position>): Event {
    Bare(kind).(count := |positions|, cells := positions)
  }

  function At(kind: EventKind, p: Position): Event {
    Bare(kind).(reel := p.reel, row := p.row)
  }

  function UnlockedEvent(p: Position, prize: Prize, multiplier: int): Event {
    At(VaultUnlocked, p).(prize := prize, multiplier := multiplier)
  }

  function AwardedEvent(p: Position, prize: Prize, multiplier: int, amount: int): Event {
    At(VaultAwarded, p).(prize := prize, multiplier := multiplier, amount := amount)
  }

  function UpgradeStartedEvent(count: int, step: int): Event {
    Bare(VaultsUpgradeStarted).(count := count, step := step)
  }

  function UpgradedEvent(p: Position, step: int, before: int, after: int): Event {
    At(VaultUpgraded, p).(step := step, prize := VaultPrize(after, true), fromMultiplier := before, toMultiplier := after)
  }

  function CollectedEvent(surges: seq<Position>, triggered: bool, level: int, total: int): Event {
    GroupEvent(SurgeCollected, surges).(triggered := triggered, guaranteed := |surges| == 3, level := level, total := total)
  }

  function TransformedEvent(cells: seq<Position>): Event {
    GroupEvent(RageTransformed, cells).(level := DEFAULT_RAGE_LEVEL)
  }

  function WheelEvent(bet: int, prize: WheelPrize): Event {
    if prize.kind == Instant then
      Bare(WheelAwarded).(outcome := Instant, prize := VaultPrize(prize.multiplier, false),
                          multiplier := prize.multiplier, amount := bet * prize.multiplier)
    else Bare(WheelAwarded).(outcome := prize.kind)
  }

  function FreeStartedEvent(mode: FeatureMode, spins: int): Event {
    Bare(FreeSpinsStarted).(mode := mode, awarded := spins)
  }

  // --- Sections ---

  /** Which part of a spin an event belongs to. */
  function Section(kind: EventKind): int {
    match kind
    case GridExpanded => 0
    case SurgeCollected => 2
    case RageTransformed => 2
    case WheelStarted => 2
    case WheelAwarded => 2
    case FreeSpinsStarted => 2
    case WinCapReached => 3
    case FreeSpinsCompleted => 3
    case OtherKind(_) => 4
    case _ => 1
  }

  predicate AllIn(events: seq<Event>, section: int) {
    forall i :: 0 <= i < |events| ==> Section(events[i].kind) == section
  }

  /** The leading grid.expanded event of an Expansion spin. */
  predicate PreShape(mode: FeatureMode, rows: int, pre: seq<Event>) {
    if mode == Expansion then pre == [ExpandedEvent(rows)] else pre == [] && rows == 3
  }

  // --- Vault sections ---

  predicate LockedShape(grid: Grid, positions: seq<Position>, ve: seq<Event>) {
    && ve == [GroupEvent(VaultsLanded, positions), GroupEvent(VaultsLocked, positions)]
    && forall p :: p in positions ==> CellAt(grid, p) == Cell(Vault, 0, NoPrize)
  }

  predicate MoneyPair(bet: int, p: Position, cell: Cell, a: Event, b: Event) {
    var m := a.multiplier;
    && IsBaseVaultMultiplier(m)
    && a == UnlockedEvent(p, VaultPrize(m, false), m)
    && b == AwardedEvent(p, VaultPrize(m, false), m, bet * m)
    && cell == Cell(Vault, m, VaultPrize(m, false))
  }

  predicate FreePair(mode: FeatureMode, p: Position, cell: Cell, a: Event, b: Event) {
    && mode == Expansion
    && a == UnlockedEvent(p, FreeSpinPrize, 0)
    && (b == At(FreeSpinAwarded, p).(count := 1) || b == At(FreeSpinCapReached, p))
    && cell == Cell(Vault, 0, FreeSpinPrize)
  }

  /** Each unlocked Vault has its reveal directly followed by its one result. */
  predicate OpenedPair(mode: FeatureMode, bet: int, p: Position, cell: Cell, a: Event, b: Event) {
    MoneyPair(bet, p, cell, a, b) || FreePair(mode, p, cell, a, b)
  }

  predicate OpenedShape(mode: FeatureMode, bet: int, grid: Grid, positions: seq<Position>, ve: seq<Event>) {
    var n := |positions|;
    && |ve| == 2 * n + 3
    && ve[0] == GroupEvent(VaultsLanded, positions)
    && ve[1] == GroupEvent(VaultsUnlockStarted, positions)
    && ve[2 * n + 2] == GroupEvent(VaultsUnlockCompleted, positions)
    && forall k :: 0 <= k < n ==> OpenedPair(mode, bet, positions[k], CellAt(grid, positions[k]), ve[2 * k + 2], ve[2 * k + 3])
  }

  predicate KingReveal(p: Position, e: Event) {
    && IsBaseVaultMultiplier(e.multiplier)
    && e == UnlockedEvent(p, VaultPrize(e.multiplier, true), e.multiplier)
  }

  predicate KingAward(bet: int, p: Position, cell: Cell, current: map<Position, int>, e: Event) {
    && p in current && IsKingVaultMultiplier(current[p])
    && e == AwardedEvent(p, VaultPrize(current[p], true), current[p], bet * current[p])
    && cell == Cell(Vault, current[p], VaultPrize(current[p], true))
  }

  /** A well-formed event of an upgrade chain. */
  predicate ChainEvent(positions: seq<Position>, e: Event) {
    && 0 <= e.step
    && match e.kind
       case VaultsUpgradeStarted => 0 <= e.count && e == UpgradeStartedEvent(e.count, e.step)
       case VaultUpgraded =>
         && e.Pos() in positions && 0 <= e.fromMultiplier && 0 <= e.toMultiplier
         && e == UpgradedEvent(e.Pos(), e.step, e.fromMultiplier, e.toMultiplier)
       case _ => false
  }

  predicate AwardStands(p: Position, e: Event) {
    e.kind == VaultAwarded && e.Pos() == p && 0 < e.multiplier && e.prize != NoPrize
  }

  /** Where the events of a King Spin stand: reveals, then a chain of upgrades, then one award per Vault. */
  predicate KingFrame(positions: seq<Position>, ve: seq<Event>) {
    var n := |positions|;
    var first := |ve| - n;
    && |ve| >= 2 * n + 3
    && ve[0] == GroupEvent(VaultsLanded, positions)
    && ve[1] == GroupEvent(VaultsUnlockStarted, positions)
    && ve[n + 2] == GroupEvent(VaultsUnlockCompleted, positions)
    && (forall k :: 0 <= k < n ==> KingReveal(positions[k], ve[k + 2]))
    && (forall i :: n + 3 <= i < first ==> ChainEvent(positions, ve[i]))
    && (forall k :: 0 <= k < n ==> AwardStands(positions[k], ve[first + k]))
  }

  /** The chain is one the validator accepts, and the awards pay where it ends. */
  predicate KingEnds(bet: int, grid: Grid, positions: seq<Position>, ve: seq<Event>)
    requires |ve| >= 2 * |positions| + 3
  {
    EndsAt(bet, grid, positions, ve, ChainTo(ve, ChainStart(ve, positions), |positions| + 3, |ve| - |positions|))
  }

  predicate EndsAt(bet: int, grid: Grid, positions: seq<Position>, ve: seq<Event>, final: Chain)
    requires |ve| >= |positions|
  {
    && GroupClosed(final)
    && forall k :: 0 <= k < |positions| ==>
         KingAward(bet, positions[k], CellAt(grid, positions[k]), final.current, ve[|ve| - |positions| + k])
  }

  predicate KingShape(bet: int, grid: Grid, positions: seq<Position>, ve: seq<Event>) {
    KingFrame(positions, ve) && KingEnds(bet, grid, positions, ve)
  }

  /** The vault events of a spin, whichever way its Vaults went. */
  predicate VaultShape(mode: FeatureMode, bet: int, grid: Grid, ve: seq<Event>) {
    var positions := PositionsFor(grid, Vault);
    if positions == [] then ve == []
    else if mode == Overdrive then KingShape(bet, grid, positions, ve)
    else LockedShape(grid, positions, ve) || OpenedShape(mode, bet, grid, positions, ve)
  }

  // --- Rage section ---

  /** The wheel part of a triggered spin. */
  function WheelEvents(bet: int, wheel: WheelPrize): seq<Event> {
    [Bare(WheelStarted), WheelEvent(bet, wheel)] +
    if wheel.kind == Instant then [] else [FreeStartedEvent(ModeOf(wheel.kind), INITIAL_FREE_SPINS)]
  }

  function TransformEvents(surges: seq<Position>, cells: seq<Position>): seq<Event> {
    if |surges| < 3 then [TransformedEvent(cells)] else []
  }

  function RageEvents(bet: int, surges: seq<Position>, triggered: bool, level: int, total: int,
                      cells: seq<Position>, wheel: WheelPrize): seq<Event> {
    if surges == [] then []
    else [CollectedEvent(surges, triggered, level, total)] +
         if triggered then TransformEvents(surges, cells) + WheelEvents(bet, wheel) else []
  }
}
