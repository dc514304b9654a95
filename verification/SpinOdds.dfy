/** How many draws lead a spin each way: every chance and weight of the definition, counted at the place that uses it. */
module SpinOdds {
  import opened Money
  import opened Weights
  import opened FiniteSets
  import opened GameTypes
  import opened Grids
  import opened GameConfig
  import opened OutcomeRules
  import opened SpinShape
  import opened RawSpins
  import opened RandomPicks
  import opened GridDraws
  import opened VaultDraws
  import opened KingDraws
  import opened VaultSection
  import opened RageDrawing
  import opened RageSection

  // --- Chances ---

  lemma LuckyBelow(chance: int, d: nat, rest: seq<nat>)
    requires ChanceOk(chance) && d < 10_000
    ensures Lucky(chance, [d] + rest) <==> d < chance
  {
    assert d % 10_000 == d;
  }

  /** As many draws in ten thousand are lucky as the chance says. */
  lemma LuckyDraws(chance: int, lucky: set<nat>, rest: seq<nat>)
    requires ChanceOk(chance)
    requires forall d: nat :: d in lucky <==> d < 10_000 && Lucky(chance, [d] + rest)
    ensures |lucky| == chance
  {
    forall d: int
      ensures d in lucky <==> d in Interval(0, chance)
    {
      if 0 <= d < 10_000 {
        LuckyBelow(chance, d, rest);
      }
    }
    SameSize(lucky, Interval(0, chance));
  }

  lemma {:induction false} SameSize(a: set<nat>, b: set<int>)
    requires forall d: int :: d in a <==> d in b
    ensures |a| == |b|
  {
    if b != {} {
      SomeIndex(b);
      var d: int :| d in b;
      SameSize(a - {d}, b - {d});
    } else {
      assert a == {} by {
        assert forall d: int :: d in a ==> d in b;
      }
    }
  }

  /** The other draws. */
  lemma UnluckyDraws(chance: int, unlucky: set<nat>, rest: seq<nat>)
    requires ChanceOk(chance)
    requires forall d: nat :: d in unlucky <==> d < 10_000 && !Lucky(chance, [d] + rest)
    ensures |unlucky| == 10_000 - chance
  {
    forall d: int
      ensures d in unlucky <==> d in Interval(chance, 10_000 - chance)
    {
      if 0 <= d < 10_000 {
        LuckyBelow(chance, d, rest);
      }
    }
    SameSize(unlucky, Interval(chance, 10_000 - chance));
  }

  // --- Surge ---

  lemma ShuffleLasts(candidates: seq<Position>, n: nat, tape: seq<nat>)
    requires n < |candidates| && n <= |tape|
    ensures var s := ShuffledTo(candidates, n, tape);
            s.result.Ok? && s.rest == tape[n..]
    decreases n
  {
    if n > 0 {
      ShuffleLasts(candidates, n - 1, tape);
    }
  }

  /** With a few draws left, the Rage section of a spin ends as its trigger says. */
  lemma RageLasts(c: Config, f: FeatureState, grid: Grid, tape: seq<nat>)
    requires GridOk(grid) && Drawable(c.feature.wheel) && 4 <= |tape|
    requires var n := |PositionsFor(grid, Surge)|; 1 <= n <= 2 && !MeterFull(f, n)
    ensures var s, n := RageSample(c, f, grid, tape), |PositionsFor(grid, Surge)|;
            s.result.Ok? && (s.result.value.triggered <==> TriggerSample(c, n, tape).result == Ok(true))
  {
    var surges := PositionsFor(grid, Surge);
    var trigger := TriggerSample(c, |surges|, tape);
    ExceptExact(grid, Surge);
    AtLeastNine(grid);
    ShuffleLasts(PositionsExcept(grid, Surge), 3 - |surges|, trigger.rest);
  }

  /** Settling this grid on this tape triggers the wheel. */
  predicate Triggers(c: Config, f: FeatureState, grid: Grid, tape: seq<nat>) {
    RageSample(c, f, grid, tape).result.Ok? && RageSample(c, f, grid, tape).result.value.triggered
  }

  /** One settled Surge triggers on as many draws as its chance, two on as many as theirs, and three on all. */
  lemma SurgeOdds(c: Config, f: FeatureState, grid: Grid, triggering: set<nat>, rest: seq<nat>)
    requires ConfigOk(c) && GridOk(grid) && 3 <= |rest|
    requires var n := |PositionsFor(grid, Surge)|; n <= 3 && !MeterFull(f, n)
    requires forall d: nat :: d in triggering <==> d < 10_000 && Triggers(c, f, grid, [d] + rest)
    ensures |PositionsFor(grid, Surge)| == 0 ==> |triggering| == 0
    ensures |PositionsFor(grid, Surge)| == 1 ==> |triggering| == c.feature.surgeOneChance
    ensures |PositionsFor(grid, Surge)| == 2 ==> |triggering| == c.feature.surgeTwoChance
    ensures |PositionsFor(grid, Surge)| == 3 ==> |triggering| == 10_000
  {
    var n := |PositionsFor(grid, Surge)|;
    var chance := if n == 1 then c.feature.surgeOneChance else if n == 2 then c.feature.surgeTwoChance else if n == 3 then 10_000 else 0;
    forall d: nat
      ensures d in triggering <==> d < 10_000 && Lucky(chance, [d] + rest)
    {
      TriggersWhenLucky(c, f, grid, chance, d, rest);
    }
    LuckyDraws(chance, triggering, rest);
  }

  lemma TriggersWhenLucky(c: Config, f: FeatureState, grid: Grid, chance: int, d: nat, rest: seq<nat>)
    requires GridOk(grid) && Drawable(c.feature.wheel) && 3 <= |rest|
    requires var n := |PositionsFor(grid, Surge)|;
             && n <= 3 && !MeterFull(f, n)
             && chance == if n == 1 then c.feature.surgeOneChance else if n == 2 then c.feature.surgeTwoChance else if n == 3 then 10_000 else 0
    ensures Triggers(c, f, grid, [d] + rest) <==> Lucky(chance, [d] + rest)
  {
    var n := |PositionsFor(grid, Surge)|;
    if 1 <= n <= 2 {
      RageLasts(c, f, grid, [d] + rest);
    }
  }

  // --- Vaults ---

  /** The events of an unlock sequence begin as it begins. */
  lemma {:induction false} OpeningBegins(c: Config, mode: FeatureMode, bet: int, positions: seq<Position>, begun: seq<Event>,
                                         start: FeatureState, n: nat, tape: seq<nat>)
    requires n <= |positions|
    ensures var s := OpeningTo(c, mode, bet, positions, begun, start, n, tape);
            s.result.Ok? ==> begun <= s.result.value.0
  {
    if n > 0 {
      OpeningBegins(c, mode, bet, positions, begun, start, n - 1, tape);
    }
  }

  /** On this tape the Vaults of a spin stay locked. */
  predicate StaysLocked(c: Config, mode: FeatureMode, bet: int, positions: seq<Position>, next: FeatureState, tape: seq<nat>) {
    var s := VaultSample(c, mode, bet, positions, next, tape);
    s.result.Ok? && |s.result.value.0| > 1 && s.result.value.0[1].kind == VaultsLocked
  }

  lemma LockedWhenUnlucky(c: Config, mode: FeatureMode, bet: int, positions: seq<Position>, next: FeatureState, d: nat, rest: seq<nat>)
    requires positions != [] && mode != Overdrive
    ensures StaysLocked(c, mode, bet, positions, next, [d] + rest) <==> !Lucky(c.feature.vaultUnlockChance, [d] + rest)
  {
    var begun := [GroupEvent(VaultsLanded, positions), GroupEvent(VaultsUnlockStarted, positions)];
    var luck := ChanceSample(c.feature.vaultUnlockChance, [d] + rest);
    OpeningBegins(c, mode, bet, positions, begun, next, |positions|, luck.rest);
  }

  /** Outside King Spin the Vaults stay locked on all draws but those of the unlock chance. */
  lemma UnlockOdds(c: Config, mode: FeatureMode, bet: int, positions: seq<Position>, next: FeatureState, locked: set<nat>, rest: seq<nat>)
    requires ConfigOk(c) && positions != [] && mode != Overdrive
    requires forall d: nat :: d in locked <==> d < 10_000 && StaysLocked(c, mode, bet, positions, next, [d] + rest)
    ensures |locked| == 10_000 - c.feature.vaultUnlockChance
  {
    forall d: nat
      ensures d in locked <==> d < 10_000 && !Lucky(c.feature.vaultUnlockChance, [d] + rest)
    {
      LockedWhenUnlucky(c, mode, bet, positions, next, d, rest);
    }
    UnluckyDraws(c.feature.vaultUnlockChance, locked, rest);
  }

  /** Of the draws for a Vault of an Expansion spin, as many as the free-spin weight give a free spin; others give none. */
  lemma FreeSpinOdds(c: Config, mode: FeatureMode, free: set<nat>, rest: seq<nat>)
    requires ConfigOk(c) && !RewardsTooHeavy(c, mode)
    requires var total := Total(c.vaults) + if mode == Expansion then c.feature.vaultFreeSpinWeight else 0;
             forall d: nat :: d in free <==> d < total && RewardSample(c, mode, [d] + rest).result == Ok(FreeSpinReward)
    ensures |free| == if mode == Expansion then c.feature.vaultFreeSpinWeight else 0
  {
    var weight := if mode == Expansion then c.feature.vaultFreeSpinWeight else 0;
    forall d: int
      ensures d in free <==> d in Interval(Total(c.vaults), weight)
    {
      if 0 <= d < Total(c.vaults) + weight {
        FreeSpinDrawn(c, mode, d, rest);
      }
    }
    SameSize(free, Interval(Total(c.vaults), weight));
  }

  lemma FreeSpinDrawn(c: Config, mode: FeatureMode, d: nat, rest: seq<nat>)
    requires ConfigOk(c) && !RewardsTooHeavy(c, mode)
    requires d < Total(c.vaults) + if mode == Expansion then c.feature.vaultFreeSpinWeight else 0
    ensures RewardSample(c, mode, [d] + rest).result == Ok(FreeSpinReward) <==> d >= Total(c.vaults)
  {
    var table := VaultRewards(c.vaults, c.feature.vaultFreeSpinWeight, mode == Expansion);
    VaultRewardsSelect(c.vaults, c.feature.vaultFreeSpinWeight, mode == Expansion, d);
    SmallRemainder(d, Total(table));
  }

  lemma SmallRemainder(d: nat, n: int)
    requires d < n
    ensures d % n == d
  {
  }

  // --- Tables ---

  /** A table with distinct values yields each of them on as many draws as its weight. */
  lemma ValueOdds<T>(items: seq<Weighted<T>>, i: nat, yielding: set<nat>, rest: seq<nat>)
    requires Drawable(items) && DistinctValues(items) && i < |items|
    requires forall d: nat :: d in yielding <==> d < Total(items) && ValueSample(items, [d] + rest).result == Ok(items[i].value)
    ensures |yielding| == items[i].weight
  {
    DrawsMatchWeight(items, i);
    forall d: int
      ensures d in yielding <==> d in DrawsOf(items, i)
    {
      if 0 <= d < Total(items) {
        SmallRemainder(d, Total(items));
        var j := Selected(items, d);
        assert items[j].value == items[i].value ==> j == i;
      }
    }
    SameSize(yielding, DrawsOf(items, i));
  }

  /** Three settled Surge symbols or free spins bar a fourth. */
  predicate SurgeBarred(mode: FeatureMode, settled: int) {
    mode == Expansion || mode == Overdrive || (mode == Base && settled == 3)
  }

  lemma {:induction false} WithoutDistinct(items: seq<Weighted<Symbol>>, excluded: Symbol)
    requires DistinctValues(items)
    ensures DistinctValues(Without(items, excluded))
  {
    if items != [] {
      WithoutDistinct(items[1..], excluded);
      var kept := Without(items[1..], excluded);
      forall k | 0 <= k < |kept|
        ensures kept[k].value != items[0].value
      {
        WithoutKeeps(items[1..], excluded, kept[k]);
        assert kept[k] in kept;
        var j :| 0 <= j < |items[1..]| && items[1..][j] == kept[k];
        assert items[j + 1] == kept[k];
      }
    }
  }

  /** The table behind a cell. */
  function CellTable(c: Config, reel: int, barred: bool): seq<Weighted<Symbol>>
    requires |c.reels| == 3 && 0 <= reel < 3
  {
    if barred then Without(c.reels[reel], Surge) else c.reels[reel]
  }

  /** An entry of a reel in the table behind a cell, unless it is barred. */
  lemma EntryOfCell(reel: seq<Weighted<Symbol>>, index: int, i: nat, barred: bool) returns (j: nat)
    requires ReelOk(reel, index) && i < |reel| && !(barred && reel[i].value == Surge)
    ensures var items := if barred then Without(reel, Surge) else reel;
            Drawable(items) && DistinctValues(items) && j < |items| && items[j] == reel[i]
  {
    var items := if barred then Without(reel, Surge) else reel;
    WithoutSurge(reel, index);
    WithoutDistinct(reel, Surge);
    WithoutKeeps(reel, Surge, reel[i]);
    assert reel[i] in reel;
    j :| 0 <= j < |items| && items[j] == reel[i];
  }

  lemma BarredNeverShown(reel: seq<Weighted<Symbol>>, index: int, tape: seq<nat>)
    requires ReelOk(reel, index)
    ensures ValueSample(Without(reel, Surge), tape).result != Ok(Surge)
  {
    WithoutSurge(reel, index);
    SampledValue(Without(reel, Surge), tape);
  }

  lemma ShownIsDrawn(c: Config, mode: FeatureMode, reel: int, settled: int, d: nat, rest: seq<nat>, symbol: Symbol)
    requires GridTablesOk(c) && 0 <= reel < 3 && rest != []
    ensures Shows(c, mode, reel, settled, [d] + rest, symbol) <==>
              ValueSample(CellTable(c, reel, SurgeBarred(mode, settled)), [d] + rest).result == Ok(symbol)
  {
    assert ([d] + rest)[1..] == rest;
  }

  /** A cell shows each symbol of its reel on as many draws as its weight, and a barred Surge on none. */
  lemma CellOdds(c: Config, mode: FeatureMode, reel: int, settled: int, i: nat, showing: set<nat>, rest: seq<nat>)
    requires GridTablesOk(c) && 0 <= reel < 3 && i < |c.reels[reel]| && rest != []
    requires forall d: nat :: d in showing <==> && d < Total(CellTable(c, reel, SurgeBarred(mode, settled)))
                                                && Shows(c, mode, reel, settled, [d] + rest, c.reels[reel][i].value)
    ensures |showing| == if SurgeBarred(mode, settled) && c.reels[reel][i].value == Surge then 0 else c.reels[reel][i].weight
  {
    var barred, entry := SurgeBarred(mode, settled), c.reels[reel][i];
    var items := CellTable(c, reel, barred);
    forall d: nat
      ensures d in showing <==> d < Total(items) && ValueSample(items, [d] + rest).result == Ok(entry.value)
    {
      ShownIsDrawn(c, mode, reel, settled, d, rest, entry.value);
    }
    if barred && entry.value == Surge {
      forall d: nat
        ensures d !in showing
      {
        BarredNeverShown(c.reels[reel], reel, [d] + rest);
      }
      assert showing == {};
    } else {
      var j := EntryOfCell(c.reels[reel], reel, i, barred);
      ValueOdds(items, j, showing, rest);
    }
  }

  predicate Shows(c: Config, mode: FeatureMode, reel: int, settled: int, tape: seq<nat>, symbol: Symbol)
    requires |c.reels| == 3 && 0 <= reel < 3
  {
    var cell := CellSample(c, mode, reel, settled, tape).result;
    cell.Ok? && cell.value.symbol == symbol
  }
}
