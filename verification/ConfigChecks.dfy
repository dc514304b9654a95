/** The checks that load a definition: their loops decide exactly which definitions are accepted. */
module ConfigChecks {
  import opened Money
  import opened FiniteSets
  import opened Weights
  import opened GameTypes
  import opened Grids
  import opened Ways
  import opened GameConfig
  import opened ArithmeticBounds

  method CheckBets(c: Config) returns (ok: bool)
    ensures ok == BetsOk(c)
  {
    if c.bet.min <= 0 || c.bet.max < c.bet.min || c.bet.step <= 0 || c.bet.payUnit <= 0 || c.maxWin != MAX_WIN_MULTIPLIER {
      return false;
    }
    if c.bet.max > MAX_INT64 / c.maxWin || c.bet.options == [] {
      return false;
    }
    var options := c.bet.options;
    var seen: set<int> := {};
    for index := 0 to |options|
      invariant forall i :: 0 <= i < index ==> BetBoundsOk(c, options[i]) && options[i] in seen
      invariant forall i :: 0 < i < index ==> options[i - 1] < options[i]
      invariant forall bet :: bet in seen ==> bet in options[..index] && (index > 0 ==> bet <= options[index - 1])
    {
      if !BetBoundsOk(c, options[index]) || options[index] in seen || (index > 0 && options[index] <= options[index - 1]) {
        return false;
      }
      assert options[..index + 1] == options[..index] + [options[index]];
      seen := seen + {options[index]};
    }
    assert options[..|options|] == options;
    return c.bet.default in seen;
  }

  lemma {:induction false} TotalSplits<T>(items: seq<Weighted<T>>, i: nat)
    requires i < |items|
    ensures items[i..] == [items[i]] + items[i + 1..]
    ensures Total(items[i..]) == items[i].weight + Total(items[i + 1..])
  {
    assert items[i..][1..] == items[i + 1..];
  }

  /** Positive weights whose sum fits, and no value twice. */
  method CheckEntries<T(==)>(items: seq<Weighted<T>>) returns (ok: bool)
    ensures ok <==> Drawable(items) && DistinctValues(items)
  {
    var seen: set<T>, total := {}, 0;
    for i := 0 to |items|
      invariant AllPositive(items[..i]) && 0 <= total <= MAX_INT64 && total + Total(items[i..]) == Total(items)
      invariant forall j, k :: 0 <= j < k < i ==> items[j].value != items[k].value
      invariant forall v :: v in seen <==> exists j :: 0 <= j < i && items[j].value == v
    {
      if items[i].weight <= 0 || items[i].value in seen {
        return false;
      }
      TotalSplits(items, i);
      if items[i].weight > MAX_INT64 - total {
        return false;
      }
      seen, total := seen + {items[i].value}, total + items[i].weight;
    }
    assert items[..|items|] == items;
    return |items| > 0;
  }

  /** The weight left once the excluded value is taken out. */
  method WeightWithout<T(==)>(items: seq<Weighted<T>>, excluded: T) returns (weight: int)
    ensures weight == Total(Without(items, excluded))
  {
    weight := 0;
    for i := 0 to |items|
      invariant weight + Total(Without(items[i..], excluded)) == Total(Without(items, excluded))
    {
      WithoutSplits(items, excluded, i);
      if items[i].value != excluded {
        weight := weight + items[i].weight;
      }
    }
  }

  lemma WithoutSplits<T>(items: seq<Weighted<T>>, excluded: T, i: nat)
    requires i < |items|
    ensures Total(Without(items[i..], excluded)) ==
            Total(Without(items[i + 1..], excluded)) + if items[i].value != excluded then items[i].weight else 0
  {
    assert items[i..][1..] == items[i + 1..];
    if items[i].value != excluded {
      assert Without(items[i..], excluded)[1..] == Without(items[i + 1..], excluded);
    }
  }

  predicate ReelSymbolOk(symbol: Symbol, index: int) {
    IsKnown(symbol) && (index != 1 ==> symbol != Wild && symbol != Vault)
  }

  method CheckReel(reel: seq<Weighted<Symbol>>, index: int) returns (ok: bool)
    ensures ok == ReelOk(reel, index)
  {
    for i := 0 to |reel|
      invariant forall k :: 0 <= k < i ==> ReelSymbolOk(reel[k].value, index)
    {
      if !ReelSymbolOk(reel[i].value, index) {
        return false;
      }
    }
    var drawable := CheckEntries(reel);
    if !drawable {
      return false;
    }
    var others := WeightWithout(reel, Surge);
    return others > 0;
  }

  method CheckWeightedInts(items: seq<Weighted<int>>) returns (ok: bool)
    ensures ok == WeightedIntsOk(items)
  {
    for i := 0 to |items|
      invariant forall k :: 0 <= k < i ==> items[k].value > 0
    {
      if items[i].value <= 0 {
        return false;
      }
    }
    ok := CheckEntries(items);
  }

  method CheckThresholds(thresholds: seq<int>) returns (ok: bool)
    ensures ok == ThresholdsOk(thresholds)
  {
    if |thresholds| == 0 || |thresholds| > MAX_RAGE_COLLECTED || thresholds[0] != 0 {
      return false;
    }
    for i := 0 to |thresholds|
      invariant forall k :: 0 <= k < i ==> 0 <= thresholds[k] <= MAX_RAGE_COLLECTED
      invariant forall k :: 0 < k < i ==> thresholds[k - 1] < thresholds[k]
    {
      if thresholds[i] < 0 || thresholds[i] > MAX_RAGE_COLLECTED || (i > 0 && thresholds[i] <= thresholds[i - 1]) {
        return false;
      }
    }
    return true;
  }

  /** Heights between three and eight, six of them: every height from three to eight. */
  method CheckExpansionRows(items: seq<Weighted<int>>) returns (ok: bool)
    ensures ok <==> WeightedIntsOk(items) && (forall i :: 0 <= i < |items| ==> 3 <= items[i].value <= 8) && |items| == 6
    ensures ok ==> forall height :: 3 <= height <= 8 ==> HasValue(items, height)
  {
    ok := CheckWeightedInts(items);
    if !ok {
      return;
    }
    var seen: set<int> := {};
    for i := 0 to |items|
      invariant |seen| == i && forall k :: 0 <= k < i ==> 3 <= items[k].value <= 8
      invariant forall v :: v in seen <==> exists k :: 0 <= k < i && items[k].value == v
    {
      if items[i].value < 3 || items[i].value > 8 {
        return false;
      }
      seen := seen + {items[i].value};
    }
    if |seen| != 6 {
      return false;
    }
    forall height | 3 <= height <= 8
      ensures HasValue(items, height)
    {
      EveryHeight(items, height);
    }
    return true;
  }

  predicate HasValue(items: seq<Weighted<int>>, value: int) {
    exists i :: 0 <= i < |items| && items[i].value == value
  }

  /** Six distinct heights between three and eight are all of them. */
  lemma EveryHeight(items: seq<Weighted<int>>, height: int)
    requires WeightedIntsOk(items) && (forall i :: 0 <= i < |items| ==> 3 <= items[i].value <= 8) && |items| == 6
    requires 3 <= height <= 8
    ensures HasValue(items, height)
  {
    var all, seen := Interval(3, |items|), ValuesTo(items, |items|);
    FullSubset(seen, all);
    assert height in all;
  }

  lemma FullSubset(a: set<int>, b: set<int>)
    requires a <= b && |a| == |b|
    ensures a == b
  {
    SomeMember(b - a);
    assert b == a + (b - a);
  }

  function ValuesTo(items: seq<Weighted<int>>, n: nat): (seen: set<int>)
    requires n <= |items| && DistinctValues(items)
    ensures forall v :: v in seen <==> exists k :: 0 <= k < n && items[k].value == v
    ensures |seen| == n
  {
    if n == 0 then {} else ValuesTo(items, n - 1) + {items[n - 1].value}
  }

  method CheckWheel(wheel: seq<Weighted<WheelPrize>>) returns (ok: bool)
    ensures ok <==> Drawable(wheel) && DistinctValues(wheel) && forall i :: 0 <= i < |wheel| ==> WheelEntryOk(wheel[i].value)
  {
    for i := 0 to |wheel|
      invariant forall k :: 0 <= k < i ==> WheelEntryOk(wheel[k].value)
    {
      if !WheelEntryOk(wheel[i].value) {
        return false;
      }
    }
    ok := CheckEntries(wheel);
  }

  method CheckFeature(f: FeatureConfig) returns (ok: bool)
    ensures ok == FeatureOk(f)
  {
    if f.initialFreeSpins != INITIAL_FREE_SPINS || f.maxExpansionSpins < f.initialFreeSpins || f.maxExpansionSpins > MAX_FEATURE_SPINS
       || f.vaultFreeSpinWeight < 0 || f.kingMaxRounds < 0 || f.kingMaxRounds > 16 {
      return false;
    }
    if !(ChanceOk(f.surgeOneChance) && ChanceOk(f.surgeTwoChance) && ChanceOk(f.vaultUnlockChance) && ChanceOk(f.kingUpgradeChance)
         && ChanceOk(f.overdriveDoubleChance)) {
      return false;
    }
    var rows := CheckExpansionRows(f.expansionRows);
    if !rows {
      return false;
    }
    var levels := CheckThresholds(f.rageThresholds);
    if !levels {
      return false;
    }
    ok := CheckWheel(f.wheel);
  }

  method CheckPaytable(paytable: map<Symbol, int>) returns (ok: bool)
    ensures ok <==> PaysAll(paytable) && |paytable| == |PAYING_SYMBOLS|
  {
    for i := 0 to |PAYING_SYMBOLS|
      invariant forall k :: 0 <= k < i ==> PAYING_SYMBOLS[k] in paytable && paytable[PAYING_SYMBOLS[k]] > 0
    {
      if PAYING_SYMBOLS[i] !in paytable || paytable[PAYING_SYMBOLS[i]] <= 0 {
        assert PAYING_SYMBOLS[i] in PAYING_SYMBOLS;
        return false;
      }
    }
    return |paytable| == |PAYING_SYMBOLS|;
  }

  predicate ValuesOk(items: seq<Weighted<int>>, supported: int -> bool) {
    forall i :: 0 <= i < |items| ==> supported(items[i].value)
  }

  method CheckValues(items: seq<Weighted<int>>, supported: int -> bool) returns (ok: bool)
    ensures ok == ValuesOk(items, supported)
  {
    for i := 0 to |items|
      invariant forall k :: 0 <= k < i ==> supported(items[k].value)
    {
      if !supported(items[i].value) {
        return false;
      }
    }
    return true;
  }

  predicate TablesOk(c: Config) {
    && Drawable(c.wilds) && DistinctValues(c.wilds) && ValuesOk(c.wilds, IsWildMultiplier)
    && WeightedIntsOk(c.vaults) && ValuesOk(c.vaults, IsBaseVaultMultiplier)
    && WeightedIntsOk(c.overdrives) && ValuesOk(c.overdrives, IsKingVaultMultiplier)
  }

  method CheckTables(c: Config) returns (ok: bool)
    ensures ok == TablesOk(c)
  {
    ok := CheckEntries(c.wilds);
    var supported := CheckValues(c.wilds, IsWildMultiplier);
    if !ok || !supported {
      return false;
    }
    ok := CheckWeightedInts(c.vaults);
    supported := CheckValues(c.vaults, IsBaseVaultMultiplier);
    if !ok || !supported {
      return false;
    }
    ok := CheckWeightedInts(c.overdrives);
    supported := CheckValues(c.overdrives, IsKingVaultMultiplier);
    ok := ok && supported;
  }

  method CheckReels(c: Config) returns (ok: bool)
    ensures ok <==> |c.reels| == 3 && forall i :: 0 <= i < 3 ==> ReelOk(c.reels[i], i)
  {
    if |c.reels| != 3 {
      return false;
    }
    for i := 0 to 3
      invariant forall k :: 0 <= k < i ==> ReelOk(c.reels[k], k)
    {
      var legal := CheckReel(c.reels[i], i);
      if !legal {
        return false;
      }
    }
    return true;
  }

  lemma ConfigParts(c: Config)
    ensures ConfigOk(c) <==>
              && BetsOk(c) && (|c.reels| == 3 && forall i :: 0 <= i < 3 ==> ReelOk(c.reels[i], i))
              && (PaysAll(c.paytable) && |c.paytable| == |PAYING_SYMBOLS|)
              && TablesOk(c) && FeatureOk(c.feature) && ArithmeticBoundsOk(c)
  {
  }

  lemma BetsFit(c: Config)
    requires BetsOk(c)
    ensures 0 < c.bet.payUnit && 0 < c.bet.max <= MAX_INT64
  {
  }

  /** The whole definition check. */
  method CheckConfig(c: Config) returns (ok: bool)
    ensures ok == ConfigOk(c)
  {
    ConfigParts(c);
    var bets := CheckBets(c);
    if !bets {
      return false;
    }
    var reels := CheckReels(c);
    if !reels {
      return false;
    }
    var pays := CheckPaytable(c.paytable);
    if !pays {
      return false;
    }
    var tables := CheckTables(c);
    if !tables {
      return false;
    }
    var feature := CheckFeature(c.feature);
    if !feature {
      return false;
    }
    BetsFit(c);
    ok := CheckArithmeticBounds(c);
  }
}
