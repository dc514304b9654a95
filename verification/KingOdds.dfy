/** The rounds of a King Spin: what starts one, what ends them, and when a jackpot is doubled. */
module KingOdds {
  import opened Money
  import opened Weights
  import opened GameTypes
  import opened Grids
  import opened GameConfig
  import opened OutcomeRules
  import opened SpinShape
  import opened RandomPicks
  import opened GridDraws
  import opened KingDraws
  import opened SpinOdds

  /** Some Vault can still rise. */
  predicate Rises(c: Config, multipliers: seq<int>) {
    exists k :: 0 <= k < |multipliers| && Above(c.overdrives, multipliers[k]) != []
  }

  /** How many rounds a list of events announces. */
  function Rounds(events: seq<Event>): nat {
    if events == [] then 0
    else Rounds(events[..|events| - 1]) + if events[|events| - 1].kind == VaultsUpgradeStarted then 1 else 0
  }

  lemma {:induction false} RoundsAppend(a: seq<Event>, b: seq<Event>)
    ensures Rounds(a + b) == Rounds(a) + Rounds(b)
  {
    if b == [] {
      assert a + b == a;
    } else {
      assert (a + b)[..|a + b| - 1] == a + b[..|b| - 1];
      RoundsAppend(a, b[..|b| - 1]);
    }
  }

  /** The turns of a round, as far as they got: no announcement among them, and an upgrade if some Vault could rise. */
  predicate TurnsPlain(c: Config, multipliers: seq<int>, n: nat, s: Sample<(seq<Event>, seq<int>)>, tape: seq<nat>)
    requires n <= |multipliers|
  {
    s.result.Ok? ==>
      && |s.result.value.1| == |multipliers|
      && Rounds(s.result.value.0) == 0
      && (forall k :: n <= k < |multipliers| ==> s.result.value.1[k] == multipliers[k])
      && (s.result.value.0 == [] <==> forall k :: 0 <= k < n ==> Above(c.overdrives, multipliers[k]) == [])
      && (s.result.value.0 == [] ==> s.result.value.1 == multipliers && s.rest == tape)
      && Suffix(s.rest, tape)
  }

  /** What is left of a tape. */
  predicate Suffix(rest: seq<nat>, tape: seq<nat>) {
    |rest| <= |tape| && rest == tape[|tape| - |rest|..]
  }

  lemma SuffixOfSuffix(a: seq<nat>, b: seq<nat>, c: seq<nat>)
    requires Suffix(a, b) && Suffix(b, c)
    ensures Suffix(a, c)
  {
  }

  /** The draw before the rest of a tape lost the upgrade chance. */
  predicate LastDrawLost(chance: int, rest: seq<nat>, tape: seq<nat>) {
    chance <= 0 || (|rest| < |tape| && Suffix(rest, tape) && tape[|tape| - |rest| - 1] % 10_000 >= chance)
  }

  lemma OneTaken(tape: seq<nat>)
    ensures Suffix(tape, tape) && (tape != [] ==> Suffix(tape[1..], tape))
  {
  }

  lemma PickTakes(items: seq<Weighted<int>>, tape: seq<nat>)
    ensures Suffix(ValueSample(items, tape).rest, tape)
  {
    OneTaken(tape);
  }

  lemma ChanceTakes(chance: int, tape: seq<nat>)
    ensures var s := ChanceSample(chance, tape);
            && Suffix(s.rest, tape)
            && (s.result == Ok(false) ==> LastDrawLost(chance, s.rest, tape))
  {
    OneTaken(tape);
  }

  lemma DoubledTakes(c: Config, to: int, tape: seq<nat>)
    ensures Suffix(DoubledSample(c, to, tape).rest, tape)
  {
    ChanceTakes(c.feature.overdriveDoubleChance, tape);
  }

  /** An upgrade takes draws from the front of the tape, and happens exactly when an entry lies above. */
  predicate UpgradeTaken(c: Config, from: int, s: Sample<Option<int>>, tape: seq<nat>) {
    && Suffix(s.rest, tape)
    && (s.result.Ok? ==> (s.result.value.None? <==> Above(c.overdrives, from) == []))
    && (s.result == Ok(None) ==> s.rest == tape)
  }

  lemma UpgradeTakes(c: Config, from: int, tape: seq<nat>)
    ensures UpgradeTaken(c, from, UpgradeSample(c, from, tape), tape)
  {
    var above := Above(c.overdrives, from);
    var picked := ValueSample(above, tape);
    OneTaken(tape);
    if above != [] && picked.result.Ok? {
      PickedTakes(c, picked.result.value, picked.rest, tape);
    }
  }

  lemma PickedTakes(c: Config, to: int, rest: seq<nat>, tape: seq<nat>)
    requires tape != [] && rest == tape[1..]
    ensures Suffix(rest, tape) && Suffix(DoubledSample(c, to, rest).rest, tape)
  {
    OneTaken(tape);
    DoubledTakes(c, to, rest);
    SuffixOfSuffix(DoubledSample(c, to, rest).rest, rest, tape);
  }

  lemma {:induction false} TurnsAre(c: Config, positions: seq<Position>, step: int, multipliers: seq<int>, n: nat, tape: seq<nat>)
    requires n <= |positions| == |multipliers|
    ensures TurnsPlain(c, multipliers, n, TurnsTo(c, positions, step, multipliers, n, tape), tape)
  {
    if n > 0 {
      TurnsAre(c, positions, step, multipliers, n - 1, tape);
      var before := TurnsTo(c, positions, step, multipliers, n - 1, tape);
      if before.result.Ok? {
        var from := before.result.value.1[n - 1];
        UpgradeTakes(c, from, before.rest);
        NextTurn(c, positions, step, multipliers, n - 1, tape, before.result.value.0, before.result.value.1, before.rest);
        TurnJoined(c, multipliers, n - 1, before, UpgradeSample(c, from, before.rest), positions[n - 1], step, tape);
      }
    }
  }

  lemma TurnJoined(c: Config, multipliers: seq<int>, k: nat, before: Sample<(seq<Event>, seq<int>)>, up: Sample<Option<int>>,
                   p: Position, step: int, tape: seq<nat>)
    requires k < |multipliers| && before.result.Ok? && TurnsPlain(c, multipliers, k, before, tape)
    requires UpgradeTaken(c, multipliers[k], up, before.rest)
    ensures TurnsPlain(c, multipliers, k + 1, WithTurn(before.result.value.0, before.result.value.1, p, step, k, up), tape)
  {
    if up.result.Ok? {
      SuffixOfSuffix(up.rest, before.rest, tape);
      if up.result.value.Some? {
        RisenJoined(c, multipliers, k, before, up.result.value.value, up.rest, p, step, tape);
      } else {
        IdleJoined(c, multipliers, k, before, tape);
      }
    }
  }

  lemma RisenJoined(c: Config, multipliers: seq<int>, k: nat, before: Sample<(seq<Event>, seq<int>)>, to: int, rest: seq<nat>,
                    p: Position, step: int, tape: seq<nat>)
    requires k < |multipliers| && before.result.Ok? && TurnsPlain(c, multipliers, k, before, tape)
    requires Suffix(rest, tape) && Above(c.overdrives, multipliers[k]) != []
    ensures TurnsPlain(c, multipliers, k + 1,
                       WithTurn(before.result.value.0, before.result.value.1, p, step, k, Sample(Ok(Some(to)), rest)), tape)
  {
    var events, turned := before.result.value.0, before.result.value.1;
    OneMoreEvent(events, UpgradedEvent(p, step, turned[k], to));
  }

  lemma IdleJoined(c: Config, multipliers: seq<int>, k: nat, before: Sample<(seq<Event>, seq<int>)>, tape: seq<nat>)
    requires k < |multipliers| && TurnsPlain(c, multipliers, k, before, tape) && Above(c.overdrives, multipliers[k]) == []
    ensures TurnsPlain(c, multipliers, k + 1, before, tape)
  {
  }

  lemma OneMoreEvent(events: seq<Event>, e: Event)
    ensures Rounds(events + [e]) == Rounds(events) + if e.kind == VaultsUpgradeStarted then 1 else 0
  {
    assert (events + [e])[..|events|] == events;
  }

  lemma LostEarlier(chance: int, rest: seq<nat>, later: seq<nat>, tape: seq<nat>)
    requires LastDrawLost(chance, rest, later) && Suffix(later, tape)
    ensures LastDrawLost(chance, rest, tape)
  {
  }

  /** Why the rounds from a given one on ended. */
  predicate EndsFor(c: Config, events: seq<Event>, round: int, s: Sample<(seq<Event>, seq<int>)>, tape: seq<nat>) {
    s.result.Ok? ==>
      var played, left := Rounds(s.result.value.0) - Rounds(events), c.feature.kingMaxRounds + 1 - round;
      && played <= left
      && (played == left || !Rises(c, s.result.value.1) || LastDrawLost(c.feature.kingUpgradeChance, s.rest, tape))
  }

  lemma RoundPlayed(c: Config, events: seq<Event>, turned: seq<Event>, round: int, s: Sample<(seq<Event>, seq<int>)>, later: seq<nat>,
                    tape: seq<nat>)
    requires Rounds(turned) == 0 && Suffix(later, tape)
    requires EndsFor(c, events + ([UpgradeStartedEvent(|turned|, round)] + turned), round + 1, s, later)
    ensures EndsFor(c, events, round, s, tape)
  {
    OneMoreEvent([], UpgradeStartedEvent(|turned|, round));
    assert [] + [UpgradeStartedEvent(|turned|, round)] == [UpgradeStartedEvent(|turned|, round)];
    RoundsAppend([UpgradeStartedEvent(|turned|, round)], turned);
    RoundsAppend(events, [UpgradeStartedEvent(|turned|, round)] + turned);
    if s.result.Ok? && LastDrawLost(c.feature.kingUpgradeChance, s.rest, later) {
      LostEarlier(c.feature.kingUpgradeChance, s.rest, later, tape);
    }
  }

  /** The turns of a round that is played, if one is. */
  function TurnsOf(c: Config, positions: seq<Position>, multipliers: seq<int>, round: int, tape: seq<nat>): Sample<(seq<Event>, seq<int>)>
    requires |positions| == |multipliers|
  {
    var luck := ChanceSample(c.feature.kingUpgradeChance, tape);
    if round > c.feature.kingMaxRounds || luck.result != Ok(true) then Sample(Ok(([], multipliers)), luck.rest)
    else TurnsTo(c, positions, round, multipliers, |positions|, luck.rest)
  }

  lemma RoundStops(c: Config, positions: seq<Position>, events: seq<Event>, multipliers: seq<int>, round: int, tape: seq<nat>)
    requires |positions| == |multipliers| && round <= c.feature.kingMaxRounds + 1
    requires var turns := TurnsOf(c, positions, multipliers, round, tape); turns.result.Err? || turns.result.value.0 == []
    ensures EndsFor(c, events, round, RoundsFrom(c, positions, events, multipliers, round, tape), tape)
  {
    var luck := ChanceSample(c.feature.kingUpgradeChance, tape);
    ChanceTakes(c.feature.kingUpgradeChance, tape);
    TurnsAre(c, positions, round, multipliers, |positions|, luck.rest);
  }

  lemma RoundGoesOn(c: Config, positions: seq<Position>, events: seq<Event>, multipliers: seq<int>, round: int, tape: seq<nat>)
    requires |positions| == |multipliers|
    requires var turns := TurnsOf(c, positions, multipliers, round, tape); turns.result.Ok? && turns.result.value.0 != []
    ensures var turns := TurnsOf(c, positions, multipliers, round, tape);
            var turned := turns.result.value;
            && round <= c.feature.kingMaxRounds && |turned.1| == |positions|
            && Rounds(turned.0) == 0 && Suffix(turns.rest, tape)
            && RoundsFrom(c, positions, events, multipliers, round, tape) ==
               RoundsFrom(c, positions, events + ([UpgradeStartedEvent(|turned.0|, round)] + turned.0), turned.1, round + 1, turns.rest)
  {
    var luck := ChanceSample(c.feature.kingUpgradeChance, tape);
    ChanceTakes(c.feature.kingUpgradeChance, tape);
    TurnsAre(c, positions, round, multipliers, |positions|, luck.rest);
    SuffixOfSuffix(TurnsOf(c, positions, multipliers, round, tape).rest, luck.rest, tape);
  }

  /** The rounds of a King Spin end for one of three reasons: every one that is allowed was played, no Vault can rise any
      more, or the last draw lost the upgrade chance. */
  lemma {:induction false} RoundsEnd(c: Config, positions: seq<Position>, events: seq<Event>, multipliers: seq<int>, round: int, tape: seq<nat>)
    requires |positions| == |multipliers| && round <= c.feature.kingMaxRounds + 1
    ensures EndsFor(c, events, round, RoundsFrom(c, positions, events, multipliers, round, tape), tape)
    decreases c.feature.kingMaxRounds - round
  {
    var turns := TurnsOf(c, positions, multipliers, round, tape);
    if turns.result.Err? || turns.result.value.0 == [] {
      RoundStops(c, positions, events, multipliers, round, tape);
    } else {
      var turned := turns.result.value;
      RoundGoesOn(c, positions, events, multipliers, round, tape);
      RoundsEnd(c, positions, events + ([UpgradeStartedEvent(|turned.0|, round)] + turned.0), turned.1, round + 1, turns.rest);
      RoundPlayed(c, events, turned.0, round, RoundsFrom(c, positions, events, multipliers, round, tape), turns.rest, tape);
    }
  }

  /** On this tape no round is played. */
  predicate GivesUp(c: Config, positions: seq<Position>, events: seq<Event>, multipliers: seq<int>, round: int, tape: seq<nat>)
    requires |positions| == |multipliers|
  {
    var s := RoundsFrom(c, positions, events, multipliers, round, tape);
    s.result.Ok? && s.result.value.0 == events
  }

  lemma {:induction false} RoundsExtend(c: Config, positions: seq<Position>, events: seq<Event>, multipliers: seq<int>, round: int, tape: seq<nat>)
    requires |positions| == |multipliers|
    ensures var s := RoundsFrom(c, positions, events, multipliers, round, tape); s.result.Ok? ==> |events| <= |s.result.value.0|
    decreases c.feature.kingMaxRounds - round
  {
    if round <= c.feature.kingMaxRounds {
      var luck := ChanceSample(c.feature.kingUpgradeChance, tape);
      if luck.result == Ok(true) {
        var turns := TurnsTo(c, positions, round, multipliers, |positions|, luck.rest);
        if turns.result.Ok? && turns.result.value.0 != [] {
          var turned := turns.result.value;
          RoundsExtend(c, positions, events + ([UpgradeStartedEvent(|turned.0|, round)] + turned.0), turned.1, round + 1, turns.rest);
        }
      }
    }
  }

  lemma GivesUpWhenUnlucky(c: Config, positions: seq<Position>, events: seq<Event>, multipliers: seq<int>, round: int, tape: seq<nat>)
    requires |positions| == |multipliers| && round <= c.feature.kingMaxRounds && Rises(c, multipliers) && tape != []
    ensures GivesUp(c, positions, events, multipliers, round, tape) <==> !Lucky(c.feature.kingUpgradeChance, tape)
  {
    var luck := ChanceSample(c.feature.kingUpgradeChance, tape);
    if luck.result == Ok(true) {
      TurnsAre(c, positions, round, multipliers, |positions|, luck.rest);
      var turns := TurnsTo(c, positions, round, multipliers, |positions|, luck.rest);
      if turns.result.Ok? {
        var turned := turns.result.value;
        RoundsExtend(c, positions, events + ([UpgradeStartedEvent(|turned.0|, round)] + turned.0), turned.1, round + 1, turns.rest);
      }
    }
  }

  /** While rounds are left and some Vault can rise, the next one is given up on all draws but those of the upgrade chance. */
  lemma UpgradeOdds(c: Config, positions: seq<Position>, events: seq<Event>, multipliers: seq<int>, round: int, ending: set<nat>, rest: seq<nat>)
    requires ConfigOk(c) && |positions| == |multipliers| && round <= c.feature.kingMaxRounds && Rises(c, multipliers)
    requires forall d: nat :: d in ending <==> d < 10_000 && GivesUp(c, positions, events, multipliers, round, [d] + rest)
    ensures |ending| == 10_000 - c.feature.kingUpgradeChance
  {
    forall d: nat
      ensures d in ending <==> d < 10_000 && !Lucky(c.feature.kingUpgradeChance, [d] + rest)
    {
      GivesUpWhenUnlucky(c, positions, events, multipliers, round, [d] + rest);
    }
    UnluckyDraws(c.feature.kingUpgradeChance, ending, rest);
  }

  /** The upgrade a first draw leads to, before any doubling. */
  predicate RisesTo(c: Config, from: int, draw: nat, to: int) {
    var above := Above(c.overdrives, from);
    Drawable(above) && above[Selected(above, draw % Total(above))].value == to
  }

  /** A jackpot that an upgrade reaches is doubled on as many draws as the doubling chance; anything else on none. */
  lemma DoublingOdds(c: Config, from: int, draw: nat, to: int, doubling: set<nat>, rest: seq<nat>)
    requires ConfigOk(c) && RisesTo(c, from, draw, to) && 0 < to
    requires forall d: nat :: d in doubling <==> d < 10_000 && UpgradeSample(c, from, [draw] + ([d] + rest)).result == Ok(Some(2 * to))
    ensures |doubling| == if to == 10 || to == 30 || to == 75 || to == 250 then c.feature.overdriveDoubleChance else 0
  {
    var jackpot := to == 10 || to == 30 || to == 75 || to == 250;
    var chance := if jackpot then c.feature.overdriveDoubleChance else 0;
    forall d: nat
      ensures d in doubling <==> d < 10_000 && Lucky(chance, [d] + rest)
    {
      DoubledWhenLucky(c, from, draw, to, d, rest);
    }
    LuckyDraws(chance, doubling, rest);
  }

  lemma DoubledWhenLucky(c: Config, from: int, draw: nat, to: int, d: nat, rest: seq<nat>)
    requires RisesTo(c, from, draw, to) && 0 < to
    ensures var jackpot := to == 10 || to == 30 || to == 75 || to == 250;
            UpgradeSample(c, from, [draw] + ([d] + rest)).result == Ok(Some(2 * to)) <==>
              jackpot && Lucky(c.feature.overdriveDoubleChance, [d] + rest)
  {
    assert ([draw] + ([d] + rest))[1..] == [d] + rest;
  }
}
