/** The mathematical definition of the game and when it is accepted. */
module GameConfig {
  import opened Money
  import opened Weights
  import opened GameTypes
  import opened Grids
  import opened Ways
  import opened WaysScaling

  const MAX_WIN_MULTIPLIER := 2_500
  const INITIAL_FREE_SPINS := 8
  const MAX_WAYS := 512
  const MAX_VAULTS := 8

  datatype BetConfig = BetConfig(min: int, max: int, step: int, payUnit: int, default: int, options: seq<int>)

  datatype WheelPrize = WheelPrize(kind: WheelKind, multiplier: int)

  datatype FeatureConfig = FeatureConfig(
    surgeOneChance: int,
    surgeTwoChance: int,
    initialFreeSpins: int,
    maxExpansionSpins: int,
    vaultUnlockChance: int,
    vaultFreeSpinWeight: int,
    kingUpgradeChance: int,
    kingMaxRounds: int,
    overdriveDoubleChance: int,
    expansionRows: seq<Weighted<int>>,
    rageThresholds: seq<int>,
    wheel: seq<Weighted<WheelPrize>>)

  datatype Config = Config(
    maxWin: int,
    bet: BetConfig,
    reels: seq<seq<Weighted<Symbol>>>,
    paytable: map<Symbol, int>,
    wilds: seq<Weighted<int>>,
    vaults: seq<Weighted<int>>,
    overdrives: seq<Weighted<int>>,
    feature: FeatureConfig)

  predicate DistinctValues<T(==)>(items: seq<Weighted<T>>) {
    forall i, j :: 0 <= i < j < |items| ==> items[i].value != items[j].value
  }

  predicate BetBoundsOk(c: Config, bet: int)
    requires c.bet.step != 0
  {
    c.bet.min <= bet <= c.bet.max && bet % c.bet.step == 0
  }

  predicate BetsOk(c: Config) {
    && 0 < c.bet.min <= c.bet.max && 0 < c.bet.step && 0 < c.bet.payUnit
    && c.maxWin == MAX_WIN_MULTIPLIER
    && c.bet.max <= MAX_INT64 / c.maxWin
    && c.bet.options != []
    && (forall i :: 0 <= i < |c.bet.options| ==> BetBoundsOk(c, c.bet.options[i]))
    && (forall i :: 0 < i < |c.bet.options| ==> c.bet.options[i - 1] < c.bet.options[i])
    && c.bet.default in c.bet.options
  }

  predicate ReelOk(reel: seq<Weighted<Symbol>>, index: int) {
    && Drawable(reel)
    && DistinctValues(reel)
    && (forall i :: 0 <= i < |reel| ==> IsKnown(reel[i].value))
    && Total(Without(reel, Surge)) > 0
    && (index != 1 ==> forall i :: 0 <= i < |reel| ==> reel[i].value != Wild && reel[i].value != Vault)
  }

  predicate WeightedIntsOk(items: seq<Weighted<int>>) {
    && Drawable(items)
    && DistinctValues(items)
    && forall i :: 0 <= i < |items| ==> items[i].value > 0
  }

  predicate ThresholdsOk(thresholds: seq<int>) {
    && 0 < |thresholds| <= MAX_RAGE_COLLECTED
    && thresholds[0] == 0
    && (forall i :: 0 <= i < |thresholds| ==> 0 <= thresholds[i] <= MAX_RAGE_COLLECTED)
    && (forall i :: 0 < i < |thresholds| ==> thresholds[i - 1] < thresholds[i])
  }

  predicate WheelEntryOk(prize: WheelPrize) {
    match prize.kind
    case Instant => IsWheelMultiplier(prize.multiplier)
    case ExpansionWheel => prize.multiplier == 0
    case OverdriveWheel => prize.multiplier == 0
    case _ => false
  }

  predicate ChanceOk(basisPoints: int) {
    0 <= basisPoints <= 10_000
  }

  predicate FeatureOk(f: FeatureConfig) {
    && f.initialFreeSpins == INITIAL_FREE_SPINS <= f.maxExpansionSpins <= MAX_FEATURE_SPINS
    && 0 <= f.vaultFreeSpinWeight && 0 <= f.kingMaxRounds <= 16
    && ChanceOk(f.surgeOneChance) && ChanceOk(f.surgeTwoChance) && ChanceOk(f.vaultUnlockChance)
    && ChanceOk(f.kingUpgradeChance) && ChanceOk(f.overdriveDoubleChance)
    && WeightedIntsOk(f.expansionRows)
    && (forall i :: 0 <= i < |f.expansionRows| ==> 3 <= f.expansionRows[i].value <= 8)
    && |f.expansionRows| == 6
    && ThresholdsOk(f.rageThresholds)
    && Drawable(f.wheel) && DistinctValues(f.wheel)
    && (forall i :: 0 <= i < |f.wheel| ==> WheelEntryOk(f.wheel[i].value))
  }

  /** The definitions the engine accepts; name patterns are not part of this model. */
  predicate ConfigOk(c: Config) {
    && BetsOk(c)
    && |c.reels| == 3
    && (forall i :: 0 <= i < 3 ==> ReelOk(c.reels[i], i))
    && PaysAll(c.paytable) && |c.paytable| == |PAYING_SYMBOLS|
    && Drawable(c.wilds) && DistinctValues(c.wilds)
    && (forall i :: 0 <= i < |c.wilds| ==> IsWildMultiplier(c.wilds[i].value))
    && WeightedIntsOk(c.vaults)
    && (forall i :: 0 <= i < |c.vaults| ==> IsBaseVaultMultiplier(c.vaults[i].value))
    && WeightedIntsOk(c.overdrives)
    && (forall i :: 0 <= i < |c.overdrives| ==> IsKingVaultMultiplier(c.overdrives[i].value))
    && FeatureOk(c.feature)
    && ArithmeticBoundsOk(c)
  }

  predicate BetOk(c: Config, bet: int)
    requires c.bet.step != 0
  {
    BetBoundsOk(c, bet) && bet in c.bet.options
  }

  /** The largest factor a Wild of the table can have. */
  function MaxWild(items: seq<Weighted<int>>): (m: int)
    ensures m >= 1
    ensures forall i :: 0 <= i < |items| ==> items[i].value <= m
  {
    if items == [] then 1
    else
      var before := MaxWild(items[..|items| - 1]);
      var value := if items[|items| - 1].value == 0 then 1 else items[|items| - 1].value;
      if value > before then value else before
  }

  /** The largest multiplier a Vault can end with: a table value, or a doubled jackpot. */
  function MaxOf(items: seq<Weighted<int>>, doubling: bool): (m: int)
    ensures m >= 0
    ensures forall i :: 0 <= i < |items| ==> items[i].value <= m
    ensures forall i :: 0 <= i < |items| && doubling && IsBaseJackpot(items[i].value) ==> 2 * items[i].value <= m
  {
    if items == [] then 0
    else
      var before := MaxOf(items[..|items| - 1], doubling);
      var last := items[|items| - 1].value;
      var value := if doubling && IsBaseJackpot(last) then last * 2 else last;
      if value > before then value else before
  }

  function MaxVault(c: Config): int {
    var base, king := MaxOf(c.vaults, false), MaxOf(c.overdrives, true);
    if king > base then king else base
  }

  function MaxWheel(items: seq<Weighted<WheelPrize>>): (m: int)
    ensures m >= 0
    ensures forall i :: 0 <= i < |items| && items[i].value.kind == Instant ==> items[i].value.multiplier <= m
  {
    if items == [] then 0
    else
      var before, last := MaxWheel(items[..|items| - 1]), items[|items| - 1].value;
      if last.kind == Instant && last.multiplier > before then last.multiplier else before
  }

  /** The most a symbol can award at the reference unit. */
  function RawLiability(c: Config, symbol: Symbol): int
    requires PaysAll(c.paytable) && symbol in PAYING_SYMBOLS
  {
    c.paytable[symbol] * MaxWild(c.wilds) * MAX_WAYS
  }

  function RawTotal(c: Config, symbols: seq<Symbol>): int
    requires PaysAll(c.paytable) && forall s :: s in symbols ==> s in PAYING_SYMBOLS
  {
    if symbols == [] then 0
    else RawTotal(c, symbols[..|symbols| - 1]) + RawLiability(c, symbols[|symbols| - 1])
  }

  function ScaledTotal(c: Config, symbols: seq<Symbol>): int
    requires PaysAll(c.paytable) && c.bet.payUnit > 0 && forall s :: s in symbols ==> s in PAYING_SYMBOLS
  {
    if symbols == [] then 0
    else
      ScaledTotal(c, symbols[..|symbols| - 1]) +
      Rounded(RawLiability(c, symbols[|symbols| - 1]), c.bet.max, c.bet.payUnit)
  }

  /** Every award of one spin, at the largest bet and before the win cap, fits int64. */
  predicate ArithmeticBoundsOk(c: Config) {
    && PaysAll(c.paytable) && 0 < c.bet.payUnit && 0 <= c.bet.max
    && (forall s :: s in PAYING_SYMBOLS ==> RawLiability(c, s) <= MAX_INT64 && RawLiability(c, s) * c.bet.max <= MAX_INT64)
    && RawTotal(c, PAYING_SYMBOLS) <= MAX_INT64
    && c.bet.max * MaxVault(c) * MAX_VAULTS <= MAX_INT64
    && c.bet.max * MaxWheel(c.feature.wheel) <= MAX_INT64
    && 0 < ScaledTotal(c, PAYING_SYMBOLS)
    && ScaledTotal(c, PAYING_SYMBOLS) + c.bet.max * MaxVault(c) * MAX_VAULTS +
       c.bet.max * MaxWheel(c.feature.wheel) <= MAX_INT64
  }
}
