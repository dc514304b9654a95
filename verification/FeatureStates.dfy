/** The state carried between spins: which states the engine accepts, and the Rage level. */
module FeatureStates {
  import opened Money
  import opened GameTypes
  import opened GameConfig
  import opened WinCap

  function LevelTo(collected: int, thresholds: seq<int>, n: nat): (level: int)
    requires n <= |thresholds|
    ensures 1 <= level && (n >= 1 ==> level <= n)
  {
    if n == 0 then 1
    else if collected >= thresholds[n - 1] then n
    else LevelTo(collected, thresholds, n - 1)
  }

  /** The Rage level of a collected count. */
  function RageLevelFor(collected: int, thresholds: seq<int>): int {
    if collected <= 0 then DEFAULT_RAGE_LEVEL else LevelTo(collected, thresholds, |thresholds|)
  }

  /** The threshold loop: the last threshold reached decides. */
  method RageLevel(collected: int, thresholds: seq<int>) returns (level: int)
    ensures level == RageLevelFor(collected, thresholds)
  {
    if collected <= 0 {
      return DEFAULT_RAGE_LEVEL;
    }
    level := 1;
    for index := 0 to |thresholds|
      invariant level == LevelTo(collected, thresholds, index)
    {
      if collected >= thresholds[index] {
        level := index + 1;
      }
    }
  }

  /** A level is the place of the last threshold reached: the count lies between it and the next. */
  lemma {:induction false} RageLevelBracket(collected: int, thresholds: seq<int>, n: nat)
    requires ThresholdsOk(thresholds) && collected >= 0 && 1 <= n <= |thresholds|
    ensures var level := LevelTo(collected, thresholds, n);
            && 1 <= level <= n
            && thresholds[level - 1] <= collected
            && (level < n ==> collected < thresholds[level])
  {
    if n > 1 && collected < thresholds[n - 1] {
      RageLevelBracket(collected, thresholds, n - 1);
    }
  }

  /** The Rage meter of an accepted state. */
  predicate RageMeterOk(c: Config, state: FeatureState) {
    && 0 <= state.rageCollected <= MAX_RAGE_COLLECTED
    && DEFAULT_RAGE_LEVEL <= state.rageLevel <= |c.feature.rageThresholds|
    && (state.rageCollected == 0 ==> state.rageLevel == DEFAULT_RAGE_LEVEL)
    && (state.rageCollected > 0 ==> state.rageLevel == RageLevelFor(state.rageCollected, c.feature.rageThresholds))
  }

  /** The states a spin accepts at a bet. */
  predicate FeatureStateOk(c: Config, bet: int, input: FeatureState) {
    var state := input.Canonical();
    && RageMeterOk(c, state)
    && if !state.Active() then
         state.mode == Base && state.remaining == 0 && state.awarded == 0 && state.bet == 0 && state.win == 0
       else
         && (state.mode == Expansion || state.mode == Overdrive)
         && state.bet == bet
         && 0 <= bet && 0 <= c.maxWin && bet * c.maxWin <= MAX_INT64 && 0 <= state.win <= bet * c.maxWin
         && 0 < state.awarded && state.remaining <= state.awarded
         && state.awarded <= MAX_FEATURE_SPINS
         && (state.mode == Expansion ==> state.awarded <= c.feature.maxExpansionSpins)
         && (state.mode == Overdrive ==> state.awarded == c.feature.initialFreeSpins)
  }

  lemma CanonicalTwice(state: FeatureState)
    ensures state.Canonical().Canonical() == state.Canonical()
  {
  }
}
