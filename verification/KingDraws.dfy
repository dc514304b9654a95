/** Resolving the Vaults of a King Spin: reveals, upgrade rounds, final awards. */
module KingDraws {
  import opened Money
  import opened Weights
  import opened GameTypes
  import opened Grids
  import opened WaysEnumeration
  import opened GameConfig
  import opened WinCap
  import opened OutcomeRules
  import opened SpinShape
  import opened KingVaults
  import opened RandomPicks
  import opened GridBuffers
  import opened GridDraws
  import opened VaultWrites
  import opened VaultDraws
  import opened UpgradeChains

  /** The tables and bounds behind a King Spin. */
  predicate KingTablesOk(c: Config, bet: int) {
    && VaultTablesOk(c, bet) && Drawable(c.overdrives)
    && (forall i :: 0 <= i < |c.overdrives| ==> IsKingVaultMultiplier(c.overdrives[i].value))
  }

  /** A multiplier a King Spin Vault can show, within the definition's liability. */
  predicate KingMultiplier(c: Config, m: int) {
    IsKingVaultMultiplier(m) && m <= MaxVault(c)
  }

  predicate KingMultipliers(c: Config, multipliers: seq<int>) {
    forall k :: 0 <= k < |multipliers| ==> KingMultiplier(c, multipliers[k])
  }

  lemma RevealLegal(c: Config, bet: int, m: int)
    requires KingTablesOk(c, bet) && Drawn(c.vaults, m)
    ensures IsBaseVaultMultiplier(m) && KingMultiplier(c, m)
  {
    var j :| 0 <= j < |c.vaults| && c.vaults[j].value == m;
    VaultWithin(c, m, j);
  }

  lemma UpgradeLegal(c: Config, bet: int, from: int, w: Weighted<int>)
    requires KingTablesOk(c, bet) && w in Above(c.overdrives, from)
    ensures from < w.value && KingMultiplier(c, w.value)
    ensures IsBaseJackpot(w.value) ==> KingMultiplier(c, w.value * 2)
  {
    AboveKeeps(c.overdrives, from, w);
    var i :| 0 <= i < |c.overdrives| && c.overdrives[i] == w;
    assert c.overdrives[i].value <= MaxOf(c.overdrives, true);
  }

  /** An upgrade as the tape has it: an entry above the multiplier, doubled if it is a jackpot and luck allows. */
  function UpgradeSample(c: Config, from: int, tape: seq<nat>): Sample<Option<int>> {
    var above := Above(c.overdrives, from);
    if above == [] then Sample(Ok(None), tape)
    else
      var picked := ValueSample(above, tape);
      match picked.result
      case Err(fault) => Sample(Err(fault), picked.rest)
      case Ok(to) => if IsBaseJackpot(to) then DoubledSample(c, to, picked.rest) else Sample(Ok(Some(to)), picked.rest)
  }

  function DoubledSample(c: Config, to: int, tape: seq<nat>): Sample<Option<int>> {
    var luck := ChanceSample(c.feature.overdriveDoubleChance, tape);
    match luck.result
    case Err(fault) => Sample(Err(fault), luck.rest)
    case Ok(doubled) => Sample(Ok(Some(if doubled then to * 2 else to)), luck.rest)
  }

  /** One Vault's chance of an upgrade. */
  method UpgradeOne(rng: RandomSource, c: Config, bet: int, from: int) returns (r: Result<Option<int>>)
    requires KingTablesOk(c, bet)
    modifies rng
    ensures Sample(r, rng.tape) == UpgradeSample(c, from, old(rng.tape))
    ensures r.Ok? && r.value.Some? ==> from < r.value.value && KingMultiplier(c, r.value.value)
    ensures r.Ok? ==> (r.value.None? <==> Above(c.overdrives, from) == [])
    ensures r.Err? ==> r.fault == RandomFailed && rng.tape == []
  {
    ghost var tape := rng.tape;
    ghost var above := Above(c.overdrives, from);
    var picked := PickGreater(rng, c.overdrives, from);
    if |tape| == 0 {
      assert tape == [];
    }
    if picked.Err? || picked.value.None? {
      return picked;
    }
    var to := picked.value.value;
    ghost var i := Selected(above, tape[0] % Total(above));
    assert above[i] in above;
    UpgradeLegal(c, bet, from, above[i]);
    if IsBaseJackpot(to) {
      ghost var left := rng.tape;
      var doubled := Chance(rng, c.feature.overdriveDoubleChance);
      match doubled {
        case Err(fault) =>
          assert |left| == 0;
          return Err(fault);
        case Ok(luck) =>
          if luck {
            var twice := SafeMul(to, 2);
            match twice {
              case Err(fault) => return Err(fault);
              case Ok(value) => to := value;
            }
          }
      }
    }
    return Ok(Some(to));
  }

  /** The multipliers first revealed behind n Vaults. */
  function RevealsTo(c: Config, n: nat, tape: seq<nat>): (s: Sample<seq<int>>)
    ensures s.result.Ok? ==> |s.result.value| == n
  {
    if n == 0 then Sample(Ok([]), tape)
    else
      var before := RevealsTo(c, n - 1, tape);
      match before.result
      case Err(_) => before
      case Ok(drawn) => WithMultiplier(drawn, ValueSample(c.vaults, before.rest))
  }

  function WithMultiplier(drawn: seq<int>, next: Sample<int>): Sample<seq<int>> {
    match next.result
    case Err(fault) => Sample(Err(fault), next.rest)
    case Ok(m) => Sample(Ok(drawn + [m]), next.rest)
  }

  lemma {:induction false} RevealsStop(c: Config, m: nat, n: nat, tape: seq<nat>)
    requires m <= n && RevealsTo(c, m, tape).result.Err?
    ensures RevealsTo(c, n, tape) == RevealsTo(c, m, tape)
  {
    if m < n {
      RevealsStop(c, m, n - 1, tape);
    }
  }

  lemma NextReveal(c: Config, n: nat, tape: seq<nat>, drawn: seq<int>, rest: seq<nat>)
    requires RevealsTo(c, n, tape) == Sample(Ok(drawn), rest)
    ensures RevealsTo(c, n + 1, tape) == WithMultiplier(drawn, ValueSample(c.vaults, rest))
  {
  }

  /** Draws the multiplier behind each Vault. */
  method RevealVaults(rng: RandomSource, c: Config, bet: int, positions: seq<Position>, begun: seq<Event>)
    returns (r: Result<(array<int>, seq<Event>)>)
    requires KingTablesOk(c, bet) && |begun| == 2
    modifies rng
    ensures r.Ok? ==> fresh(r.value.0) && r.value.0.Length == |positions| && KingMultipliers(c, r.value.0[..])
    ensures r.Ok? ==> Revealed(positions, begun, r.value.1, r.value.0[..], |positions|)
    ensures var s := RevealsTo(c, |positions|, old(rng.tape));
            && rng.tape == s.rest
            && match s.result
               case Err(fault) => r == Err(fault)
               case Ok(drawn) => r.Ok? && r.value.0[..] == drawn
    ensures r.Err? ==> r.fault == RandomFailed && rng.tape == []
  {
    var multipliers := new int[|positions|];
    var events := begun;
    ghost var tape := rng.tape;
    for k := 0 to |positions|
      invariant Revealed(positions, begun, events, multipliers[..], k)
      invariant RevealsTo(c, k, tape) == Sample(Ok(multipliers[..k]), rng.tape)
      invariant forall j :: 0 <= j < k ==> KingMultiplier(c, multipliers[j])
    {
      NextReveal(c, k, tape, multipliers[..k], rng.tape);
      var drawn := DrawValue(rng, c.vaults);
      match drawn {
        case Err(fault) =>
          RevealsStop(c, k + 1, |positions|, tape);
          return Err(fault);
        case Ok(m) =>
          RevealLegal(c, bet, m);
          ghost var before := multipliers[..k];
          multipliers[k] := m;
          assert multipliers[..k + 1] == before + [m];
          events := events + [UnlockedEvent(positions[k], VaultPrize(m, true), m)];
      }
    }
    return Ok((multipliers, events));
  }

  predicate Revealed(positions: seq<Position>, begun: seq<Event>, events: seq<Event>, multipliers: seq<int>, k: nat) {
    && k <= |positions| == |multipliers| && |begun| == 2 && |events| == k + 2 && events[..2] == begun
    && forall j :: 0 <= j < k ==> KingReveal(positions[j], events[j + 2]) && events[j + 2].multiplier == multipliers[j]
  }

  /** After the reveals the chain is empty and tracks the drawn multipliers. */
  lemma RevealsBuilt(positions: seq<Position>, events: seq<Event>, multipliers: seq<int>, ve: seq<Event>)
    requires Distinct(positions)
    requires Revealed(positions, [GroupEvent(VaultsLanded, positions), GroupEvent(VaultsUnlockStarted, positions)], events,
                      multipliers, |positions|)
    requires ve == events + [GroupEvent(VaultsUnlockCompleted, positions)]
    ensures ChainBuilt(positions, ve, multipliers, 1)
  {
    var n := |positions|;
    assert ve[0] == events[..2][0] && ve[1] == events[..2][1];
    forall k | 0 <= k < n
      ensures KingReveal(positions[k], ve[k + 2]) && RevealedTo(ve, positions[k], |ve|) == multipliers[k]
    {
      assert ve[k + 2] == events[k + 2];
      forall i | 0 <= i < |ve| && ve[i].kind == VaultUnlocked && ve[i].Pos() == positions[k]
        ensures i == k + 2
      {
        assert 2 <= i < n + 2 && KingReveal(positions[i - 2], events[i - 2 + 2]);
      }
      RevealedOnce(ve, positions[k], k + 2, |ve|);
    }
  }

  // --- Upgrade rounds ---

  function Turned(events: seq<Event>, p: Position, step: int, from: int, to: Option<int>): seq<Event> {
    if to.None? then events else events + [UpgradedEvent(p, step, from, to.value)]
  }

  function MultipliersAfter(multipliers: seq<int>, k: nat, to: Option<int>): seq<int>
    requires k < |multipliers|
  {
    if to.None? then multipliers else multipliers[k := to.value]
  }

  ghost function SeenAfter(seen: set<Position>, p: Position, to: Option<int>): set<Position> {
    if to.None? then seen else seen + {p}
  }

  ghost function CurrentAfter(current: map<Position, int>, p: Position, to: Option<int>): map<Position, int> {
    if to.None? then current else current[p := to.value]
  }

  lemma TurnTaken(c: Config, positions: seq<Position>, events: seq<Event>, step: int, before: map<Position, int>,
                  multipliers: seq<int>, seen: set<Position>, current: map<Position, int>, k: nat, to: Option<int>)
    requires Distinct(positions) && 0 < step && k < |positions| && KingMultipliers(c, multipliers)
    requires RoundTo(positions, events, step, before, multipliers, seen, current, k)
    requires to.Some? ==> multipliers[k] < to.value && KingMultiplier(c, to.value)
    ensures RoundTo(positions, Turned(events, positions[k], step, multipliers[k], to), step, before,
                    MultipliersAfter(multipliers, k, to), SeenAfter(seen, positions[k], to),
                    CurrentAfter(current, positions[k], to), k + 1)
    ensures KingMultipliers(c, MultipliersAfter(multipliers, k, to))
  {
    assert KingMultiplier(c, multipliers[k]);
    if to.None? {
      RoundSkip(positions, events, step, before, multipliers, seen, current, k);
    } else {
      RoundStep(positions, events, step, before, multipliers, seen, current, k, to.value);
    }
  }

  /** The first n turns of a round as the tape has them: their events, and the multipliers they leave. */
  function TurnsTo(c: Config, positions: seq<Position>, step: int, multipliers: seq<int>, n: nat, tape: seq<nat>)
    : (s: Sample<(seq<Event>, seq<int>)>)
    requires n <= |positions| == |multipliers|
    ensures s.result.Ok? ==> |s.result.value.1| == |multipliers|
  {
    if n == 0 then Sample(Ok(([], multipliers)), tape)
    else
      var before := TurnsTo(c, positions, step, multipliers, n - 1, tape);
      match before.result
      case Err(_) => before
      case Ok(turned) =>
        WithTurn(turned.0, turned.1, positions[n - 1], step, n - 1, UpgradeSample(c, turned.1[n - 1], before.rest))
  }

  function WithTurn(events: seq<Event>, multipliers: seq<int>, p: Position, step: int, k: nat, to: Sample<Option<int>>)
    : (s: Sample<(seq<Event>, seq<int>)>)
    requires k < |multipliers|
    ensures s.result.Ok? ==> |s.result.value.1| == |multipliers|
  {
    match to.result
    case Err(fault) => Sample(Err(fault), to.rest)
    case Ok(up) => Sample(Ok((Turned(events, p, step, multipliers[k], up), MultipliersAfter(multipliers, k, up))), to.rest)
  }

  lemma NextTurn(c: Config, positions: seq<Position>, step: int, multipliers: seq<int>, n: nat, tape: seq<nat>, events: seq<Event>,
                 turned: seq<int>, rest: seq<nat>)
    requires n < |positions| == |multipliers| == |turned|
    requires TurnsTo(c, positions, step, multipliers, n, tape) == Sample(Ok((events, turned)), rest)
    ensures TurnsTo(c, positions, step, multipliers, n + 1, tape) ==
            WithTurn(events, turned, positions[n], step, n, UpgradeSample(c, turned[n], rest))
  {
  }

  lemma {:induction false} TurnsStop(c: Config, positions: seq<Position>, step: int, multipliers: seq<int>, m: nat, n: nat, tape: seq<nat>)
    requires m <= n <= |positions| == |multipliers| && TurnsTo(c, positions, step, multipliers, m, tape).result.Err?
    ensures TurnsTo(c, positions, step, multipliers, n, tape) == TurnsTo(c, positions, step, multipliers, m, tape)
  {
    if m < n {
      TurnsStop(c, positions, step, multipliers, m, n - 1, tape);
    }
  }

  /** The rounds from a given one on: a lost chance or an idle round ends them. */
  function RoundsFrom(c: Config, positions: seq<Position>, events: seq<Event>, multipliers: seq<int>, round: int, tape: seq<nat>)
    : (s: Sample<(seq<Event>, seq<int>)>)
    requires |positions| == |multipliers|
    ensures s.result.Ok? ==> |s.result.value.1| == |positions|
    decreases c.feature.kingMaxRounds - round
  {
    if round > c.feature.kingMaxRounds then Sample(Ok((events, multipliers)), tape)
    else
      var luck := ChanceSample(c.feature.kingUpgradeChance, tape);
      match luck.result
      case Err(fault) => Sample(Err(fault), luck.rest)
      case Ok(false) => Sample(Ok((events, multipliers)), luck.rest)
      case Ok(true) =>
        var turns := TurnsTo(c, positions, round, multipliers, |positions|, luck.rest);
        match turns.result
        case Err(_) => turns
        case Ok(turned) =>
          if turned.0 == [] then Sample(Ok((events, turned.1)), turns.rest)
          else RoundsFrom(c, positions, events + ([UpgradeStartedEvent(|turned.0|, round)] + turned.0), turned.1, round + 1, turns.rest)
  }

  /** What a method returned and left in the array, beside what the tape holds. */
  predicate SameTurns(r: Result<seq<Event>>, multipliers: seq<int>, rest: seq<nat>, s: Sample<(seq<Event>, seq<int>)>) {
    && rest == s.rest
    && match s.result
       case Err(fault) => r == Err(fault)
       case Ok(turned) => r == Ok(turned.0) && multipliers == turned.1
  }

  /** One Vault's turn in a round. */
  method UpgradeVault(rng: RandomSource, c: Config, bet: int, multipliers: array<int>, p: Position, step: int, k: nat,
                      events: seq<Event>)
    returns (r: Result<seq<Event>>, ghost to: Option<int>)
    requires KingTablesOk(c, bet) && k < multipliers.Length
    modifies rng, multipliers
    ensures to.Some? ==> old(multipliers[k]) < to.value && KingMultiplier(c, to.value)
    ensures var s := UpgradeSample(c, old(multipliers[k]), old(rng.tape));
            rng.tape == s.rest && s.result == match r case Err(fault) => Err(fault) case Ok(_) => Ok(to)
    ensures r.Ok? ==> multipliers[..] == MultipliersAfter(old(multipliers[..]), k, to)
    ensures r.Ok? ==> r.value == Turned(events, p, step, old(multipliers[k]), to)
    ensures r.Err? ==> r.fault == RandomFailed && rng.tape == []
  {
    var from := multipliers[k];
    var upgraded := UpgradeOne(rng, c, bet, from);
    match upgraded
    case Err(fault) => return Err(fault), None;
    case Ok(option) =>
      to := option;
      if option.Some? {
        multipliers[k] := option.value;
        assert multipliers[..] == old(multipliers[..])[k := option.value];
      }
      r := Ok(Turned(events, p, step, from, option));
  }

  /** A round so far: its chain, its legal multipliers, and where the tape stands. */
  ghost predicate RoundSoFar(c: Config, positions: seq<Position>, step: int, before: map<Position, int>, first: seq<int>,
                             events: seq<Event>, multipliers: seq<int>, seen: set<Position>, current: map<Position, int>, k: nat,
                             tape: seq<nat>, rest: seq<nat>)
    requires k <= |positions| == |first|
  {
    && RoundTo(positions, events, step, before, multipliers, seen, current, k) && KingMultipliers(c, multipliers)
    && (|events| == 0 ==> multipliers == first)
    && TurnsTo(c, positions, step, first, k, tape) == Sample(Ok((events, multipliers)), rest)
  }

  /** A turn taken in a round. */
  lemma TurnJoins(c: Config, positions: seq<Position>, step: int, before: map<Position, int>, first: seq<int>, events: seq<Event>,
                  was: seq<int>, seen: set<Position>, current: map<Position, int>, k: nat, tape: seq<nat>, rest: seq<nat>,
                  to: Option<int>, later: seq<nat>)
    requires Distinct(positions) && 0 < step && k < |positions| == |first|
    requires RoundSoFar(c, positions, step, before, first, events, was, seen, current, k, tape, rest)
    requires k < |was| && UpgradeSample(c, was[k], rest) == Sample(Ok(to), later)
    requires to.Some? ==> was[k] < to.value && KingMultiplier(c, to.value)
    ensures RoundSoFar(c, positions, step, before, first, Turned(events, positions[k], step, was[k], to),
                       MultipliersAfter(was, k, to), SeenAfter(seen, positions[k], to), CurrentAfter(current, positions[k], to),
                       k + 1, tape, later)
  {
    NextTurn(c, positions, step, first, k, tape, events, was, rest);
    TurnTaken(c, positions, events, step, before, was, seen, current, k, to);
  }

  lemma TurnFails(c: Config, positions: seq<Position>, step: int, before: map<Position, int>, first: seq<int>, events: seq<Event>,
                  was: seq<int>, seen: set<Position>, current: map<Position, int>, k: nat, tape: seq<nat>, rest: seq<nat>)
    requires k < |positions| == |first| && RoundSoFar(c, positions, step, before, first, events, was, seen, current, k, tape, rest)
    requires k < |was| && UpgradeSample(c, was[k], rest).result.Err?
    ensures var s, all := UpgradeSample(c, was[k], rest), TurnsTo(c, positions, step, first, |positions|, tape);
            all.rest == s.rest && all.result == Err(s.result.fault)
  {
    NextTurn(c, positions, step, first, k, tape, events, was, rest);
    TurnsStop(c, positions, step, first, k + 1, |positions|, tape);
  }

  /** The next turn of a round. */
  method TakeTurn(rng: RandomSource, c: Config, bet: int, multipliers: array<int>, positions: seq<Position>, step: int, k: nat,
                  events: seq<Event>, ghost before: map<Position, int>, ghost first: seq<int>, ghost seen: set<Position>,
                  ghost current: map<Position, int>, ghost tape: seq<nat>)
    returns (r: Result<seq<Event>>, ghost seenNow: set<Position>, ghost now: map<Position, int>)
    requires KingTablesOk(c, bet) && Distinct(positions) && 0 < step && k < |positions| == |first| == multipliers.Length
    requires RoundSoFar(c, positions, step, before, first, events, multipliers[..], seen, current, k, tape, rng.tape)
    modifies rng, multipliers
    ensures r.Ok? ==> RoundSoFar(c, positions, step, before, first, r.value, multipliers[..], seenNow, now, k + 1, tape, rng.tape)
    ensures r.Err? ==> SameTurns(r, multipliers[..], rng.tape, TurnsTo(c, positions, step, first, |positions|, tape))
    ensures r.Err? ==> r.fault == RandomFailed && rng.tape == []
  {
    ghost var was, rest := multipliers[..], rng.tape;
    var turn, to := UpgradeVault(rng, c, bet, multipliers, positions[k], step, k, events);
    if turn.Err? {
      TurnFails(c, positions, step, before, first, events, was, seen, current, k, tape, rest);
      return turn, seen, current;
    }
    TurnJoins(c, positions, step, before, first, events, was, seen, current, k, tape, rest, to, rng.tape);
    return turn, SeenAfter(seen, positions[k], to), CurrentAfter(current, positions[k], to);
  }

  /** One round over all Vaults, in place. */
  method UpgradeRound(rng: RandomSource, c: Config, bet: int, multipliers: array<int>, positions: seq<Position>, step: int,
                      ghost before: map<Position, int>)
    returns (r: Result<seq<Event>>, ghost seen: set<Position>, ghost current: map<Position, int>)
    requires KingTablesOk(c, bet) && Distinct(positions) && 0 < step && multipliers.Length == |positions|
    requires KingMultipliers(c, multipliers[..]) && Tracks(before, positions, multipliers[..])
    modifies rng, multipliers
    ensures r.Ok? ==>
              RoundSoFar(c, positions, step, before, old(multipliers[..]), r.value, multipliers[..], seen, current, |positions|,
                         old(rng.tape), rng.tape)
    ensures SameTurns(r, multipliers[..], rng.tape,
                      TurnsTo(c, positions, step, old(multipliers[..]), |positions|, old(rng.tape)))
    ensures r.Err? ==> r.fault == RandomFailed && rng.tape == []
  {
    var events: seq<Event> := [];
    seen, current := {}, before;
    RoundStarts(positions, step, before, multipliers[..]);
    ghost var first, tape := multipliers[..], rng.tape;
    for k := 0 to |positions|
      invariant RoundSoFar(c, positions, step, before, first, events, multipliers[..], seen, current, k, tape, rng.tape)
    {
      r, seen, current := TakeTurn(rng, c, bet, multipliers, positions, step, k, events, before, first, seen, current, tape);
      if r.Err? {
        return;
      }
      events := r.value;
    }
    r := Ok(events);
  }

  lemma RoundStarts(positions: seq<Position>, step: int, before: map<Position, int>, multipliers: seq<int>)
    requires Tracks(before, positions, multipliers)
    ensures RoundTo(positions, [], step, before, multipliers, {}, before, 0)
  {
  }

  /** The rounds: each is announced with its exact size; a lost chance or an idle round ends them. */
  method UpgradeRounds(rng: RandomSource, c: Config, bet: int, multipliers: array<int>, positions: seq<Position>,
                       begun: seq<Event>)
    returns (r: Result<seq<Event>>, ghost step: int)
    requires KingTablesOk(c, bet) && Distinct(positions) && multipliers.Length == |positions|
    requires KingMultipliers(c, multipliers[..]) && ChainBuilt(positions, begun, multipliers[..], 1)
    modifies rng, multipliers
    ensures r.Ok? ==> ChainBuilt(positions, r.value, multipliers[..], step) && KingMultipliers(c, multipliers[..])
    ensures SameTurns(r, multipliers[..], rng.tape, RoundsFrom(c, positions, begun, old(multipliers[..]), 1, old(rng.tape)))
    ensures r.Err? ==> r.fault == RandomFailed && rng.tape == []
  {
    var events := begun;
    var round := 1;
    step := 1;
    ghost var goal := RoundsFrom(c, positions, begun, multipliers[..], round, rng.tape);
    while round <= c.feature.kingMaxRounds
      invariant 1 <= round == step
      invariant RoundsFrom(c, positions, events, multipliers[..], round, rng.tape) == goal
      invariant ChainBuilt(positions, events, multipliers[..], step) && KingMultipliers(c, multipliers[..])
      decreases c.feature.kingMaxRounds - round
    {
      ghost var left := rng.tape;
      var upgrade := Chance(rng, c.feature.kingUpgradeChance);
      match upgrade {
        case Err(fault) =>
          assert |left| == 0;
          return Err(fault), step;
        case Ok(luck) =>
          if !luck {
            break;
          }
      }
      ghost var st := ChainTo(events, ChainStart(events, positions), |positions| + 3, |events|);
      ghost var was := multipliers[..];
      var upgraded, seen, current := UpgradeRound(rng, c, bet, multipliers, positions, round, st.current);
      match upgraded {
        case Err(fault) => return Err(fault), step;
        case Ok(steps) =>
          if |steps| == 0 {
            break;
          }
          RoundBuilt(positions, events, was, steps, round, multipliers[..], seen, current, st);
          events := events + ([UpgradeStartedEvent(|steps|, round)] + steps);
      }
      round, step := round + 1, step + 1;
    }
    r := Ok(events);
  }
}
