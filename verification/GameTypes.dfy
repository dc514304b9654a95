/** The data of one spin: grid, wins, events and the state carried between spins. */
module GameTypes {

  const DEFAULT_RAGE_LEVEL := 1
  const MAX_FEATURE_SPINS := 1_000_000
  const MAX_RAGE_COLLECTED := 1_000_000

  datatype Symbol =
    | Orbit | Prism | Pulse | Nova | Circuit | Tank
    | Wild | Vault | Surge
    | Unlisted(name: string)

  const PAYING_SYMBOLS: seq<Symbol> := [Orbit, Prism, Pulse, Nova, Circuit, Tank]

  predicate IsKnown(s: Symbol) {
    !s.Unlisted?
  }

  /** What a Vault cell or a feature event shows the player. */
  datatype Prize =
    | NoPrize
    | FreeSpinPrize
    | Times(n: int)
    | Mini | Minor | Major | Mega | Grand
    | Mini2X | Minor2X | Major2X | Mega2X
    | OtherPrize(name: string)

  datatype Cell = Cell(symbol: Symbol, multiplier: int, prize: Prize)

  /** Addressed grid[reel][row]. */
  type Grid = seq<seq<Cell>>

  datatype Position = Position(reel: int, row: int)

  /** One concrete left-to-right path of a win. */
  datatype PathAward = PathAward(cells: seq<Position>, multiplier: int, base: int, amount: int, paid: int)

  datatype WinId = ThreeOf(symbol: Symbol) | OtherId(name: string)

  datatype Win = Win(id: WinId, symbol: Symbol, ways: int, amount: int, paid: int,
                     cells: seq<Position>, paths: seq<PathAward>)

  datatype EventKind =
    | GridExpanded
    | VaultsLanded | VaultsLocked | VaultsUnlockStarted | VaultsUnlockCompleted
    | VaultUnlocked | VaultAwarded | VaultsUpgradeStarted | VaultUpgraded
    | FreeSpinAwarded | FreeSpinCapReached
    | SurgeCollected | RageTransformed | WheelStarted | WheelAwarded | FreeSpinsStarted
    | WinCapReached | FreeSpinsCompleted
    | OtherKind(name: string)

  datatype WheelKind = NoWheel | Instant | ExpansionWheel | OverdriveWheel | OtherWheel(name: string)

  datatype FeatureMode = Unset | Base | Expansion | Overdrive | OtherMode(name: string)

  function ModeOf(kind: WheelKind): FeatureMode {
    match kind
    case NoWheel => Unset
    case Instant => OtherMode("INSTANT")
    case ExpansionWheel => Expansion
    case OverdriveWheel => Overdrive
    case OtherWheel(name) => OtherMode(name)
  }

  datatype Event = Event(
    kind: EventKind,
    count: int,
    cells: seq<Position>,
    triggered: bool,
    guaranteed: bool,
    outcome: WheelKind,
    prize: Prize,
    multiplier: int,
    amount: int,
    cumulative: int,
    mode: FeatureMode,
    awarded: int,
    rows: int,
    ways: int,
    reel: int,
    row: int,
    level: int,
    total: int,
    step: int,
    fromMultiplier: int,
    toMultiplier: int) {

    function Pos(): Position {
      Position(reel, row)
    }
  }

  /** An event carrying nothing but its kind. */
  function Bare(kind: EventKind): Event {
    Event(kind, 0, [], false, false, NoWheel, NoPrize, 0, 0, 0, Unset, 0, 0, 0, 0, 0, 0, 0, 0, 0, 0)
  }

  datatype FeatureState = FeatureState(
    mode: FeatureMode,
    remaining: int,
    awarded: int,
    bet: int,
    win: int,
    rageLevel: int,
    rageCollected: int) {

    predicate Active() {
      mode != Base && remaining > 0
    }

    /** The base-game state that keeps only the Rage meter. */
    function WithoutFreeSpins(): FeatureState {
      FeatureState(Base, 0, 0, 0, 0,
                   if rageCollected == 0 then DEFAULT_RAGE_LEVEL else rageLevel, rageCollected)
    }

    /** Names an unset mode and raises a never-used meter to level one. */
    function Canonical(): FeatureState {
      var named := if mode == Unset then this.(mode := Base) else this;
      if named.rageCollected == 0 && named.rageLevel == 0
      then named.(rageLevel := DEFAULT_RAGE_LEVEL) else named
    }
  }

  datatype SpinInput = SpinInput(bet: int, feature: FeatureState)

  datatype Outcome = Outcome(grid: Grid, wins: seq<Win>, events: seq<Event>, total: int, next: FeatureState)
}
