/** Whole games: a base spin and every free spin it starts, under one cap and one termination measure. */
module GameCycle {
  import opened Money
  import opened GameTypes
  import opened Grids
  import opened Ways
  import opened WaysForBet
  import opened GameConfig
  import opened WinCap
  import opened OutcomeRules
  import opened SpinShape
  import opened FeatureStates
  import opened RawSpins
  import opened CapAccepted
  import opened SpinAccepted
  import opened EngineCompleteness
  import opened Engine
  import opened AwardChecks

  /** What a spin awards before the cap, read off its final grid and events. */
  function Uncapped(c: Config, bet: int, o: Outcome): int {
    if |o.grid| == 3 && PaysAll(c.paytable) && c.bet.payUnit > 0
    then WinSum(WinsForBet(o.grid, c.paytable, bet, c.bet.payUnit)) + NominalSum(bet, o.events)
    else 0
  }

  /** The input of the i-th spin of a game: the first state, then each state the spin before left. */
  function InputAt(bet: int, first: FeatureState, spins: seq<Outcome>, i: nat): SpinInput
    requires i <= |spins|
  {
    SpinInput(bet, if i == 0 then first else spins[i - 1].next)
  }

  /** A game: a base spin, then free spins for as long as the feature is active. */
  ghost predicate Game(c: Config, bet: int, first: FeatureState, spins: seq<Outcome>) {
    && !first.Active() && first == first.Canonical()
    && (forall i :: 0 <= i < |spins| ==> SpinStep(c, InputAt(bet, first, spins, i), spins[i]))
    && (forall i :: 0 <= i < |spins| - 1 ==> spins[i].next.Active())
  }

  function UncappedTo(c: Config, bet: int, spins: seq<Outcome>, n: nat): int
    requires n <= |spins|
  {
    if n == 0 then 0 else UncappedTo(c, bet, spins, n - 1) + Uncapped(c, bet, spins[n - 1])
  }

  function PaidTo(spins: seq<Outcome>, n: nat): int
    requires n <= |spins|
  {
    if n == 0 then 0 else PaidTo(spins, n - 1) + spins[n - 1].total
  }

  // --- One step ---

  /** How the counters move in one free spin. */
  predicate CountersMove(c: Config, before: FeatureState, after: FeatureState, awarded: int) {
    var extra := awarded - before.awarded;
    && 0 <= extra && (extra > 0 ==> before.mode == Expansion && awarded <= c.feature.maxExpansionSpins)
    && (after.Active() ==>
          after.mode == before.mode && after.awarded == awarded && after.remaining == before.remaining - 1 + extra)
    && (!after.Active() ==> before.remaining - 1 + extra == 0)
  }

  /** What one step of the engine does to the state of a game. */
  ghost predicate Stepped(c: Config, input: SpinInput, o: Outcome) {
    var f := input.feature;
    && o.next == o.next.Canonical()
    && (o.next.Active() ==> o.next.win == PriorWin(input) + o.total)
    && (f.Active() ==> exists awarded :: CountersMove(c, f, o.next, awarded) && CompletedWith(f, o, awarded, f.win + o.total))
    && (!f.Active() && o.next.Active() ==> o.next.awarded == o.next.remaining == INITIAL_FREE_SPINS)
  }

  /** The completion event of the last free spin. */
  predicate CompletedWith(f: FeatureState, o: Outcome, awarded: int, cycle: int) {
    !o.next.Active() ==>
      |o.events| > 0 && o.events[|o.events| - 1] == CompletionEvent(f.mode, awarded, cycle)
  }

  lemma CountersOf(c: Config, input: SpinInput, raw: Outcome, paid: int)
    requires input.feature == input.feature.Canonical() && FeatureStateOk(c, input.bet, input.feature) && FeatureOk(c.feature)
    requires input.feature.Active() && RawNextOk(c, input, raw.next)
    ensures CountersMove(c, input.feature, ClosedNext(input, raw.next, paid), raw.next.awarded)
    ensures ClosedNext(input, raw.next, paid).Active() <==> raw.next.remaining > 0
    ensures ClosedNext(input, raw.next, paid).Active() ==> ClosedNext(input, raw.next, paid).win == PriorWin(input) + paid
  {
  }

  lemma StartOf(c: Config, input: SpinInput, raw: Outcome, paid: int)
    requires input.feature == input.feature.Canonical() && !input.feature.Active() && RawNextOk(c, input, raw.next)
    ensures var next := ClosedNext(input, raw.next, paid);
            next.Active() ==> next.awarded == next.remaining == INITIAL_FREE_SPINS && next.win == PriorWin(input) + paid
  {
  }

  lemma StepCompletes(c: Config, input: SpinInput, raw: Outcome)
    requires CapReady(c, input, raw) && input.feature == input.feature.Canonical() && input.feature.Active()
    requires raw.next.remaining == 0
    ensures var o := Capped(c, input, raw);
            |o.events| > 0 && o.events[|o.events| - 1] == CompletionEvent(input.feature.mode, raw.next.awarded, input.feature.win + o.total)
  {
    CompletionIsLast(c, input, raw);
  }

  lemma NextCanonical(c: Config, input: SpinInput, raw: Outcome, pre: seq<Event>, vault: seq<Event>, rage: seq<Event>,
                      draws: RageDraws, middle: FeatureState)
    requires RawSpin(c, input, raw, pre, vault, rage, draws, middle) && CapReady(c, input, raw)
    ensures var o := Capped(c, input, raw); o.next == o.next.Canonical() && RawNextOk(c, input, raw.next)
    ensures input.feature == input.feature.Canonical() && FeatureStateOk(c, input.bet, input.feature) && FeatureOk(c.feature)
  {
    RawNextIs(c, input, raw, pre, vault, rage, draws, middle);
    PaidSums(c, input, raw);
    ClosedNextOk(c, input, raw.next, PaidTotal(Budget(c, input), raw.wins, raw.events));
  }

  lemma StepFrom(c: Config, input: SpinInput, raw: Outcome, o: Outcome)
    requires CapReady(c, input, raw) && o == Capped(c, input, raw) && RawNextOk(c, input, raw.next)
    requires input.feature == input.feature.Canonical() && FeatureStateOk(c, input.bet, input.feature) && FeatureOk(c.feature)
    requires o.next == o.next.Canonical()
    ensures Stepped(c, input, o)
  {
    CappedIs(c, input, raw);
    if input.feature.Active() {
      CountersOf(c, input, raw, o.total);
      if raw.next.remaining == 0 {
        StepCompletes(c, input, raw);
      }
      assert CountersMove(c, input.feature, o.next, raw.next.awarded) &&
             CompletedWith(input.feature, o, raw.next.awarded, input.feature.win + o.total);
    } else {
      StartOf(c, input, raw, o.total);
    }
  }

  /** Every step of the engine steps the game. */
  lemma SpinSteps(c: Config, input: SpinInput, o: Outcome)
    requires SpinStep(c, input, o)
    ensures Stepped(c, input, o)
  {
    var raw: Outcome, pre: seq<Event>, vault: seq<Event>, rage: seq<Event>, draws: RageDraws, middle: FeatureState :|
      RawSpin(c, input, raw, pre, vault, rage, draws, middle) && o == Capped(c, input, raw);
    RawReady(c, input, raw, pre, vault, rage, draws, middle);
    NextCanonical(c, input, raw, pre, vault, rage, draws, middle);
    StepFrom(c, input, raw, o);
  }

  /** Every step of the engine is accepted by its validator, and so is its next state. */
  lemma SpinAccepts(c: Config, input: SpinInput, o: Outcome)
    requires SpinStep(c, input, o)
    ensures ConfigOk(c) && OutcomeOk(c, input, o) && FeatureStateOk(c, input.bet, o.next)
  {
    var raw: Outcome, pre: seq<Event>, vault: seq<Event>, rage: seq<Event>, draws: RageDraws, middle: FeatureState :|
      RawSpin(c, input, raw, pre, vault, rage, draws, middle) && o == Capped(c, input, raw);
    RawSpinIsValid(c, input, raw, pre, vault, rage, draws, middle);
  }

  /** What a step pays: what it awards, or what is left of the game's cap. */
  predicate StepPays(cap: int, prior: int, uncapped: int, total: int) {
    0 <= cap && 0 <= uncapped && total == Min(cap - prior, uncapped)
  }

  lemma SpinPays(c: Config, input: SpinInput, o: Outcome)
    requires SpinStep(c, input, o)
    ensures StepPays(input.bet * c.maxWin, PriorWin(input), Uncapped(c, input.bet, o), o.total)
  {
    SpinAccepts(c, input, o);
    AcceptedMoney(c, input, o);
  }

  function SumTo(amounts: seq<int>, n: nat): int
    requires n <= |amounts|
  {
    if n == 0 then 0 else SumTo(amounts, n - 1) + amounts[n - 1]
  }

  /** A game seen only through its states and amounts. */
  ghost predicate Played(c: Config, bet: int, first: FeatureState, spins: seq<Outcome>, awards: seq<int>) {
    && !first.Active() && first == first.Canonical() && |awards| == |spins|
    && (forall i :: 0 <= i < |spins| ==> Stepped(c, InputAt(bet, first, spins, i), spins[i]))
    && (forall i :: 0 <= i < |spins| ==>
          StepPays(bet * c.maxWin, PriorWin(InputAt(bet, first, spins, i)), awards[i], spins[i].total))
    && (forall i :: 0 <= i < |spins| - 1 ==> spins[i].next.Active())
  }

  function Awards(c: Config, bet: int, spins: seq<Outcome>): (awards: seq<int>)
    ensures |awards| == |spins|
    ensures forall i :: 0 <= i < |spins| ==> awards[i] == Uncapped(c, bet, spins[i])
  {
    seq(|spins|, i requires 0 <= i < |spins| => Uncapped(c, bet, spins[i]))
  }

  lemma {:induction false} AwardsSum(c: Config, bet: int, spins: seq<Outcome>, n: nat)
    requires n <= |spins|
    ensures UncappedTo(c, bet, spins, n) == SumTo(Awards(c, bet, spins), n)
  {
    if n > 0 {
      AwardsSum(c, bet, spins, n - 1);
    }
  }

  lemma GameIsPlayed(c: Config, bet: int, first: FeatureState, spins: seq<Outcome>)
    requires Game(c, bet, first, spins)
    ensures Played(c, bet, first, spins, Awards(c, bet, spins))
  {
    forall i | 0 <= i < |spins|
      ensures Stepped(c, InputAt(bet, first, spins, i), spins[i])
      ensures StepPays(bet * c.maxWin, PriorWin(InputAt(bet, first, spins, i)), Awards(c, bet, spins)[i], spins[i].total)
    {
      SpinSteps(c, InputAt(bet, first, spins, i), spins[i]);
      SpinPays(c, InputAt(bet, first, spins, i), spins[i]);
    }
  }

  // --- The cap over a whole game ---

  lemma CapAccumulates(cap: int, before: int, paid: int, uncapped: int)
    requires 0 <= cap && 0 <= before && 0 <= uncapped && paid == Min(cap, before)
    ensures paid + Min(cap - paid, uncapped) == Min(cap, before + uncapped)
  {
  }

  /** What a spin carries in is what the game has paid so far. */
  lemma CarriedIn(c: Config, bet: int, first: FeatureState, spins: seq<Outcome>, awards: seq<int>, i: nat)
    requires Played(c, bet, first, spins, awards) && i < |spins|
    requires i > 0 ==> spins[i - 1].next.win == PaidTo(spins, i)
    ensures PriorWin(InputAt(bet, first, spins, i)) == PaidTo(spins, i)
  {
    if i > 0 {
      assert Stepped(c, InputAt(bet, first, spins, i - 1), spins[i - 1]);
    }
  }

  lemma {:induction false} PlayedWithinCap(c: Config, bet: int, first: FeatureState, spins: seq<Outcome>, awards: seq<int>, n: nat)
    requires Played(c, bet, first, spins, awards) && n <= |spins| && 0 <= bet * c.maxWin
    ensures 0 <= SumTo(awards, n)
    ensures PaidTo(spins, n) == Min(bet * c.maxWin, SumTo(awards, n))
    ensures n > 0 && spins[n - 1].next.Active() ==> spins[n - 1].next.win == PaidTo(spins, n)
  {
    if n > 0 {
      PlayedWithinCap(c, bet, first, spins, awards, n - 1);
      CarriedIn(c, bet, first, spins, awards, n - 1);
      assert Stepped(c, InputAt(bet, first, spins, n - 1), spins[n - 1]);
      CapAccumulates(bet * c.maxWin, SumTo(awards, n - 1), PaidTo(spins, n - 1), awards[n - 1]);
    }
  }

  /** Whole-cycle cap: after every spin the game has paid the smaller of its cap and everything it has awarded so far,
      and while the feature runs, the carried win is exactly that amount. */
  lemma GamePaysItsCap(c: Config, bet: int, first: FeatureState, spins: seq<Outcome>, n: nat)
    requires Game(c, bet, first, spins) && 1 <= n <= |spins|
    ensures PaidTo(spins, n) == Min(bet * c.maxWin, UncappedTo(c, bet, spins, n))
    ensures spins[n - 1].next.Active() ==> spins[n - 1].next.win == PaidTo(spins, n)
  {
    GameIsPlayed(c, bet, first, spins);
    assert StepPays(bet * c.maxWin, PriorWin(InputAt(bet, first, spins, 0)), Awards(c, bet, spins)[0], spins[0].total);
    PlayedWithinCap(c, bet, first, spins, Awards(c, bet, spins), n);
    AwardsSum(c, bet, spins, n);
  }

  /** Every state a game passes through is accepted as the input of its next spin, at the same bet. */
  lemma GameContinues(c: Config, bet: int, first: FeatureState, spins: seq<Outcome>, n: nat)
    requires Game(c, bet, first, spins) && 1 <= n <= |spins|
    ensures ConfigOk(c) && FeatureStateOk(c, bet, spins[n - 1].next)
    ensures OutcomeOk(c, InputAt(bet, first, spins, n - 1), spins[n - 1])
  {
    SpinAccepts(c, InputAt(bet, first, spins, n - 1), spins[n - 1]);
  }

  // --- Termination ---

  /** Free spins still to come at most, in the mode being played. */
  function SpinsLeft(c: Config, f: FeatureState): int {
    if f.mode == Expansion then f.remaining + (c.feature.maxExpansionSpins - f.awarded) else f.remaining
  }

  lemma StepLowers(c: Config, input: SpinInput, o: Outcome)
    requires Stepped(c, input, o) && input.feature.Active() && o.next.Active()
    ensures var f := input.feature;
            && o.next.mode == f.mode && SpinsLeft(c, o.next) == SpinsLeft(c, f) - 1
            && o.next.awarded - o.next.remaining == f.awarded - f.remaining + 1
            && (o.next.awarded > c.feature.maxExpansionSpins && f.mode == Expansion ==> o.next.awarded == f.awarded)
  {
  }

  /** Each free spin lowers the measure by exactly one. */
  lemma FreeSpinLowers(c: Config, input: SpinInput, o: Outcome)
    requires SpinStep(c, input, o) && input.feature.Active() && o.next.Active()
    ensures o.next.mode == input.feature.mode && SpinsLeft(c, o.next) == SpinsLeft(c, input.feature) - 1
  {
    SpinSteps(c, input, o);
    StepLowers(c, input, o);
  }

  /** Spins played so far are the free spins awarded and no longer remaining, and the measure has paid for each. */
  lemma {:induction false} PlayedCounts(c: Config, bet: int, first: FeatureState, spins: seq<Outcome>, awards: seq<int>, n: nat)
    requires Played(c, bet, first, spins, awards) && 1 <= n <= |spins| && spins[n - 1].next.Active()
    requires INITIAL_FREE_SPINS <= c.feature.maxExpansionSpins
    ensures var f := spins[n - 1].next;
            && f.awarded - f.remaining == n - 1 && f.mode == spins[0].next.mode
            && SpinsLeft(c, f) == (if f.mode == Expansion then c.feature.maxExpansionSpins else INITIAL_FREE_SPINS) - (n - 1)
            && 1 <= SpinsLeft(c, f) && (f.mode == Expansion ==> f.awarded <= c.feature.maxExpansionSpins)
  {
    PlayedStep(c, bet, first, spins, awards, n);
    if n > 1 {
      PlayedCounts(c, bet, first, spins, awards, n - 1);
      StepLowers(c, InputAt(bet, first, spins, n - 1), spins[n - 1]);
    }
  }

  /** One spin of a game: it steps, from a state that was active unless it is the first. */
  lemma PlayedStep(c: Config, bet: int, first: FeatureState, spins: seq<Outcome>, awards: seq<int>, n: nat)
    requires Played(c, bet, first, spins, awards) && 1 <= n <= |spins|
    ensures Stepped(c, InputAt(bet, first, spins, n - 1), spins[n - 1])
    ensures n > 1 ==> spins[n - 2].next.Active() && InputAt(bet, first, spins, n - 1).feature == spins[n - 2].next
    ensures n == 1 ==> !InputAt(bet, first, spins, n - 1).feature.Active()
  {
    assert n > 1 ==> spins[n - 2].next.Active();
    assert n > 1 ==> Stepped(c, InputAt(bet, first, spins, n - 2), spins[n - 2]);
  }

  /** Every game ends: at most the configured maximum of free spins follows the base spin. */
  lemma GameEnds(c: Config, bet: int, first: FeatureState, spins: seq<Outcome>)
    requires Game(c, bet, first, spins) && |spins| >= 2
    ensures |spins| - 1 <= if spins[0].next.mode == Expansion then c.feature.maxExpansionSpins else INITIAL_FREE_SPINS
  {
    GameIsPlayed(c, bet, first, spins);
    GameConfigured(c, bet, first, spins);
    PlayedCounts(c, bet, first, spins, Awards(c, bet, spins), |spins| - 1);
  }

  /** The last free spin completes the feature with every spin it was awarded. */
  lemma LastStep(c: Config, input: SpinInput, o: Outcome)
    requires Stepped(c, input, o) && input.feature.Active() && !o.next.Active()
    ensures var f := input.feature;
            |o.events| > 0 && o.events[|o.events| - 1] == CompletionEvent(f.mode, f.awarded - f.remaining + 1, f.win + o.total)
  {
    var f := input.feature;
    var awarded :| CountersMove(c, f, o.next, awarded) && CompletedWith(f, o, awarded, f.win + o.total);
  }

  lemma PlayedCompletes(c: Config, bet: int, first: FeatureState, spins: seq<Outcome>, awards: seq<int>)
    requires Played(c, bet, first, spins, awards) && |spins| >= 2 && !spins[|spins| - 1].next.Active()
    requires INITIAL_FREE_SPINS <= c.feature.maxExpansionSpins
    ensures var last := spins[|spins| - 1];
            && |last.events| > 0
            && last.events[|last.events| - 1] == CompletionEvent(spins[0].next.mode, |spins| - 1, PaidTo(spins, |spins|))
  {
    var n := |spins|;
    assert spins[n - 2].next.Active();
    assert StepPays(bet * c.maxWin, PriorWin(InputAt(bet, first, spins, 0)), awards[0], spins[0].total);
    PlayedCounts(c, bet, first, spins, awards, n - 1);
    PlayedWithinCap(c, bet, first, spins, awards, n - 1);
    LastStep(c, InputAt(bet, first, spins, n - 1), spins[n - 1]);
  }

  /** The completion event tells the truth: it reports the free spins actually played and everything the game paid. */
  lemma CompletionReportsGame(c: Config, bet: int, first: FeatureState, spins: seq<Outcome>)
    requires Game(c, bet, first, spins) && |spins| >= 2 && !spins[|spins| - 1].next.Active()
    ensures var last := spins[|spins| - 1];
            && |last.events| > 0
            && last.events[|last.events| - 1] == CompletionEvent(spins[0].next.mode, |spins| - 1, PaidTo(spins, |spins|))
  {
    GameIsPlayed(c, bet, first, spins);
    GameConfigured(c, bet, first, spins);
    PlayedCompletes(c, bet, first, spins, Awards(c, bet, spins));
  }

  lemma GameConfigured(c: Config, bet: int, first: FeatureState, spins: seq<Outcome>)
    requires Game(c, bet, first, spins) && |spins| >= 1
    ensures INITIAL_FREE_SPINS <= c.feature.maxExpansionSpins
  {
    SpinAccepts(c, InputAt(bet, first, spins, 0), spins[0]);
  }
}
