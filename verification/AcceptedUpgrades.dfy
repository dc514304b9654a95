/** What an accepted King Spin guarantees about its upgrades, whoever made it: every multiplier rises from what was shown
    last, every announced round has its exact size, and each Vault ends with the award of what it showed last. */
module AcceptedUpgrades {
  import opened Money
  import opened GameTypes
  import opened Grids
  import opened Ways
  import opened GameConfig
  import opened OutcomeRules
  import opened AcceptedVaults

  /** What the first n events last showed in a cell: its reveal, or its latest upgrade. */
  function LastShown(events: seq<Event>, p: Position, n: nat): int
    requires n <= |events|
  {
    if n == 0 then 0
    else
      var e := events[n - 1];
      if e.kind == VaultUnlocked && e.Pos() == p then e.multiplier
      else if e.kind == VaultUpgraded && e.Pos() == p then e.toMultiplier
      else LastShown(events, p, n - 1)
  }

  /** How many rounds the first n events announce. */
  function Starts(events: seq<Event>, n: nat): nat
    requires n <= |events|
  {
    if n == 0 then 0 else Starts(events, n - 1) + if events[n - 1].kind == VaultsUpgradeStarted then 1 else 0
  }

  /** How many upgrades of a round the first n events tell. */
  function UpgradesIn(events: seq<Event>, step: int, n: nat): nat
    requires n <= |events|
  {
    if n == 0 then 0
    else UpgradesIn(events, step, n - 1) + if events[n - 1].kind == VaultUpgraded && events[n - 1].step == step then 1 else 0
  }

  /** An upgrade belongs to the round announced last, and rises from what its cell showed. */
  predicate UpgradeTold(events: seq<Event>, i: int)
    requires 0 <= i < |events|
  {
    var e := events[i];
    e.kind == VaultUpgraded ==>
      && 1 <= e.step == Starts(events, i)
      && e.fromMultiplier == LastShown(events, e.Pos(), i) < e.toMultiplier
      && e.prize == VaultPrize(e.toMultiplier, true)
  }

  /** A round is numbered in order, and announces as many upgrades as it has. */
  predicate RoundTold(events: seq<Event>, i: int, n: nat)
    requires 0 <= i < |events| && n <= |events|
  {
    events[i].kind == VaultsUpgradeStarted ==>
      events[i].step == Starts(events, i) + 1 && 0 < events[i].count == UpgradesIn(events, events[i].step, n)
  }

  /** No Vault rises twice in a round. */
  predicate RisesOnce(events: seq<Event>, n: nat)
    requires n <= |events|
  {
    forall i, j :: 0 <= i < j < n && events[i].kind == VaultUpgraded && events[j].kind == VaultUpgraded && events[i].step == events[j].step ==>
      events[i].Pos() != events[j].Pos()
  }

  /** Every upgrade, round and award of a list of events. */
  predicate ChainTold(events: seq<Event>) {
    && (forall i :: 0 <= i < |events| ==> UpgradeTold(events, i))
    && (forall i :: 0 <= i < |events| ==> RoundTold(events, i, |events|))
    && RisesOnce(events, |events|)
    && (forall i :: 0 <= i < |events| && events[i].kind == VaultAwarded ==> events[i].multiplier == LastShown(events, events[i].Pos(), i))
  }

  // --- Along the chain ---

  /** The round that is open when the first n events are told, and those before it. */
  predicate RoundsTo(events: seq<Event>, st: Chain, n: nat)
    requires n <= |events| && st.Chain?
  {
    forall i :: 0 <= i < n && events[i].kind == VaultsUpgradeStarted ==>
      && events[i].step == Starts(events, i) + 1 && 0 < events[i].count
      && events[i].count == if events[i].step == st.active then st.count else UpgradesIn(events, events[i].step, n)
  }

  predicate SeenTo(events: seq<Event>, st: Chain, n: nat)
    requires n <= |events| && st.Chain?
  {
    && |st.seen| == UpgradesIn(events, st.active, n)
    && forall i :: 0 <= i < n && events[i].kind == VaultUpgraded && events[i].step == st.active ==> events[i].Pos() in st.seen
  }

  predicate ShownTo(events: seq<Event>, st: Chain, n: nat)
    requires n <= |events| && st.Chain?
  {
    forall p :: p in st.current ==> st.current[p] == LastShown(events, p, n)
  }

  predicate UpgradesTo(events: seq<Event>, n: nat)
    requires n <= |events|
  {
    forall i :: 0 <= i < n ==> UpgradeTold(events, i)
  }

  predicate Along(events: seq<Event>, st: Chain, n: nat)
    requires n <= |events|
  {
    && st.Chain? && st.active == Starts(events, n) && st.next == st.active + 1
    && RoundsTo(events, st, n) && SeenTo(events, st, n) && ShownTo(events, st, n)
    && UpgradesTo(events, n) && RisesOnce(events, n)
  }

  lemma {:induction false} StartsGrow(events: seq<Event>, i: nat, n: nat)
    requires i <= n <= |events|
    ensures Starts(events, i) <= Starts(events, n)
    ensures i < n && events[i].kind == VaultsUpgradeStarted ==> Starts(events, i) < Starts(events, n)
  {
    if i < n {
      StartsGrow(events, i, n - 1);
    }
  }

  /** A round not yet announced has no upgrades. */
  lemma {:induction false} NoneYet(events: seq<Event>, step: int, n: nat)
    requires n <= |events| && UpgradesTo(events, n) && Starts(events, n) < step
    ensures UpgradesIn(events, step, n) == 0
  {
    if n > 0 {
      NoneYet(events, step, n - 1);
      assert UpgradeTold(events, n - 1);
    }
  }

  lemma RoundOpens(events: seq<Event>, st: Chain, n: nat)
    requires n < |events| && Along(events, st, n) && events[n].kind == VaultsUpgradeStarted
    requires GroupClosed(st) && events[n].step == st.next && 0 < events[n].count
    ensures Along(events, Chain(st.next + 1, events[n].step, events[n].count, {}, st.current), n + 1)
  {
    var next := Chain(st.next + 1, events[n].step, events[n].count, {}, st.current);
    NoneYet(events, events[n].step, n);
    forall i | 0 <= i < n && events[i].kind == VaultsUpgradeStarted
      ensures events[i].step <= st.active
    {
      StartsGrow(events, i, n);
    }
    forall i | 0 <= i < n && events[i].kind == VaultUpgraded
      ensures events[i].step <= st.active
    {
      assert UpgradeTold(events, i);
      StartsGrow(events, i, n);
    }
    assert RoundsTo(events, next, n + 1);
  }

  lemma UpgradeSeen(events: seq<Event>, st: Chain, next: Chain, n: nat)
    requires n < |events| && st.Chain? && events[n].kind == VaultUpgraded
    requires next == st.(seen := st.seen + {events[n].Pos()}, current := st.current[events[n].Pos() := events[n].toMultiplier])
    requires RoundsTo(events, st, n) && SeenTo(events, st, n) && ShownTo(events, st, n)
    requires events[n].step == st.active && events[n].Pos() !in st.seen
    ensures RoundsTo(events, next, n + 1) && SeenTo(events, next, n + 1) && ShownTo(events, next, n + 1)
  {
  }

  lemma Upgraded(events: seq<Event>, st: Chain, n: nat)
    requires n < |events| && Along(events, st, n) && events[n].kind == VaultUpgraded && ChainStep(st, events[n]).Chain?
    ensures Along(events, ChainStep(st, events[n]), n + 1)
  {
    UpgradeSeen(events, st, ChainStep(st, events[n]), n);
    forall i | 0 <= i < n && events[i].kind == VaultUpgraded && events[i].step == events[n].step
      ensures events[i].Pos() != events[n].Pos()
    {
      assert events[i].Pos() in st.seen;
    }
  }

  lemma StepAlong(events: seq<Event>, st: Chain, n: nat)
    requires n < |events| && Along(events, st, n) && ChainStep(st, events[n]).Chain?
    ensures Along(events, ChainStep(st, events[n]), n + 1)
  {
    if events[n].kind == VaultsUpgradeStarted {
      RoundOpens(events, st, n);
    } else {
      Upgraded(events, st, n);
    }
  }

  lemma {:induction false} ChainAlong(events: seq<Event>, start: Chain, from: nat, n: nat, st: Chain)
    requires from <= n <= |events| && Along(events, start, from) && st == ChainTo(events, start, from, n) && st.Chain?
    ensures Along(events, st, n)
  {
    if n > from {
      var before := ChainTo(events, start, from, n - 1);
      ChainAlong(events, start, from, n - 1, before);
      StepAlong(events, before, n - 1);
    }
  }

  // --- Before and after it ---

  /** No round and no upgrade among the first n events. */
  predicate NoUpgrades(events: seq<Event>, n: nat)
    requires n <= |events|
  {
    forall i :: 0 <= i < n ==> events[i].kind != VaultsUpgradeStarted && events[i].kind != VaultUpgraded
  }

  lemma {:induction false} ShownIsRevealed(events: seq<Event>, p: Position, n: nat)
    requires n <= |events| && NoUpgrades(events, n)
    ensures LastShown(events, p, n) == RevealedTo(events, p, n)
    ensures Starts(events, n) == 0 && UpgradesIn(events, 0, n) == 0
  {
    if n > 0 {
      ShownIsRevealed(events, p, n - 1);
    }
  }

  lemma {:induction false} RevealedEarly(events: seq<Event>, p: Position, n: nat, m: nat)
    requires n <= m <= |events| && forall i :: n <= i < m ==> events[i].kind != VaultUnlocked
    ensures RevealedTo(events, p, m) == RevealedTo(events, p, n)
  {
    if n < m {
      RevealedEarly(events, p, n, m - 1);
    }
  }

  lemma ChainBegins(events: seq<Event>, positions: seq<Position>, n: nat)
    requires n <= |events| && NoUpgrades(events, n) && forall i :: n <= i < |events| ==> events[i].kind != VaultUnlocked
    ensures Along(events, ChainStart(events, positions), n)
  {
    ShownIsRevealed(events, Position(0, 0), n);
    forall p | p in positions
      ensures RevealedTo(events, p, |events|) == LastShown(events, p, n)
    {
      ShownIsRevealed(events, p, n);
      RevealedEarly(events, p, n, |events|);
    }
  }

  predicate Closing(events: seq<Event>, n: nat)
    requires n <= |events|
  {
    forall i :: n <= i < |events| ==> ClosingKind(events[i].kind)
  }

  lemma {:induction false} ClosingShows(events: seq<Event>, p: Position, step: int, n: nat, m: nat)
    requires n <= m <= |events| && Closing(events, n)
    ensures LastShown(events, p, m) == LastShown(events, p, n) && UpgradesIn(events, step, m) == UpgradesIn(events, step, n)
  {
    if n < m {
      ClosingShows(events, p, step, n, m - 1);
    }
  }

  lemma RoundsClosed(events: seq<Event>, st: Chain, n: nat, i: nat)
    requires n <= |events| && Along(events, st, n) && GroupClosed(st) && Closing(events, n) && i < |events|
    ensures UpgradeTold(events, i) && RoundTold(events, i, |events|)
  {
    if i < n {
      ClosingShows(events, Position(0, 0), events[i].step, n, |events|);
      assert UpgradeTold(events, i);
      StartsGrow(events, i, n);
    } else {
      assert ClosingKind(events[i].kind);
    }
  }

  lemma UpgradesClosed(events: seq<Event>, st: Chain, n: nat)
    requires n <= |events| && Along(events, st, n) && Closing(events, n)
    ensures RisesOnce(events, |events|)
  {
    forall i | n <= i < |events|
      ensures events[i].kind != VaultUpgraded
    {
      assert ClosingKind(events[i].kind);
    }
  }

  /** The places of an accepted King Spin. */
  lemma KingPlaces(events: seq<Event>, positions: seq<Position>, s: int, c: int, i: nat)
    requires VaultEventsPlaced(Overdrive, events, positions, s, c) && i < |events|
    ensures events[i].kind == VaultUnlocked ==> i < c && events[i].Pos() in positions
    ensures events[i].kind == VaultAwarded ==> c < i && events[i].Pos() in positions
    ensures events[i].kind == VaultUpgraded || events[i].kind == VaultsUpgradeStarted ==> c < i
  {
    assert VaultEventOk(Overdrive, events[i], i, positions, s, c);
  }

  lemma AwardTold(bet: int, o: Outcome, positions: seq<Position>, final: Chain, n: nat, i: nat)
    requires n <= i < |o.events| && Along(o.events, final, n) && Closing(o.events, n)
    requires o.events[i].kind == VaultAwarded && o.events[i].Pos() in final.current
    requires KingAwardOk(bet, o.events[i], final.current[o.events[i].Pos()], CellAt(o.grid, o.events[i].Pos()), HasWinCap(o.events))
    ensures o.events[i].multiplier == LastShown(o.events, o.events[i].Pos(), i)
  {
    ClosingShows(o.events, o.events[i].Pos(), 0, n, i);
  }

  lemma KingOrder(events: seq<Event>, positions: seq<Position>, s: int, c: int, n: nat)
    requires VaultEventsPlaced(Overdrive, events, positions, s, c) && 0 <= c < |events| && n == c + 1
    ensures NoUpgrades(events, n) && forall i :: n <= i < |events| ==> events[i].kind != VaultUnlocked
  {
    forall i | 0 <= i < |events|
      ensures events[i].kind == VaultUnlocked ==> i < c
      ensures events[i].kind == VaultUpgraded || events[i].kind == VaultsUpgradeStarted ==> c < i
    {
      KingPlaces(events, positions, s, c, i);
    }
  }

  lemma KingEnding(bet: int, o: Outcome, positions: seq<Position>, c: int, first: nat, final: Chain)
    requires 0 <= c < |o.events| && KingEventsOk(bet, o, positions, c)
    requires first == FirstAt(o.events, VaultAwarded) && c < first && final == ChainTo(o.events, ChainStart(o.events, positions), c + 1, first)
    ensures GroupClosed(final) && Closing(o.events, first)
  {
  }

  /** The chain of an accepted King Spin, up to its first award. */
  lemma KingAlong(bet: int, o: Outcome, positions: seq<Position>, s: int, c: int, first: nat, final: Chain)
    requires VaultEventsPlaced(Overdrive, o.events, positions, s, c) && 0 <= c < |o.events| && KingEventsOk(bet, o, positions, c)
    requires first == FirstAt(o.events, VaultAwarded) && final == ChainTo(o.events, ChainStart(o.events, positions), c + 1, first)
    ensures c < first && Along(o.events, final, first) && GroupClosed(final) && Closing(o.events, first)
    ensures final.current.Keys == ChainStart(o.events, positions).current.Keys
  {
    KingEnding(bet, o, positions, c, first, final);
    KingOrder(o.events, positions, s, c, c + 1);
    ChainBegins(o.events, positions, c + 1);
    ChainAlong(o.events, ChainStart(o.events, positions), c + 1, first, final);
    KeepsCells(o.events, ChainStart(o.events, positions), c + 1, first);
  }

  lemma KingAwardsTold(bet: int, o: Outcome, positions: seq<Position>, s: int, c: int, first: nat, final: Chain, i: nat)
    requires VaultEventsPlaced(Overdrive, o.events, positions, s, c) && 0 <= c < |o.events| && KingEventsOk(bet, o, positions, c)
    requires first == FirstAt(o.events, VaultAwarded) && final == ChainTo(o.events, ChainStart(o.events, positions), c + 1, first)
    requires Along(o.events, final, first) && Closing(o.events, first)
    requires final.current.Keys == ChainStart(o.events, positions).current.Keys
    requires i < |o.events| && o.events[i].kind == VaultAwarded
    ensures o.events[i].multiplier == LastShown(o.events, o.events[i].Pos(), i)
  {
    KingPlaces(o.events, positions, s, c, i);
    AwardTold(bet, o, positions, final, first, i);
  }

  lemma KingChainTold(bet: int, o: Outcome, positions: seq<Position>, s: int, c: int)
    requires VaultEventsPlaced(Overdrive, o.events, positions, s, c) && 0 <= c < |o.events| && KingEventsOk(bet, o, positions, c)
    ensures ChainTold(o.events)
  {
    var events, first := o.events, FirstAt(o.events, VaultAwarded);
    var final := ChainTo(events, ChainStart(events, positions), c + 1, first);
    KingAlong(bet, o, positions, s, c, first, final);
    UpgradesClosed(events, final, first);
    forall i | 0 <= i < |events|
      ensures UpgradeTold(events, i) && RoundTold(events, i, |events|)
    {
      RoundsClosed(events, final, first, i);
    }
    forall i | 0 <= i < |events| && events[i].kind == VaultAwarded
      ensures events[i].multiplier == LastShown(events, events[i].Pos(), i)
    {
      KingAwardsTold(bet, o, positions, s, c, first, final, i);
    }
  }

  lemma NothingTold(events: seq<Event>)
    requires VaultEventCount(events, |events|) == 0
    ensures ChainTold(events)
  {
    forall i | 0 <= i < |events|
      ensures !IsVaultEvent(events[i].kind)
    {
      NothingCounted(events, i);
    }
  }

  lemma KingVaultsTold(f: FeatureState, bet: int, o: Outcome)
    requires VaultEventsOk(f, bet, o) && f.mode == Overdrive
    ensures ChainTold(o.events)
  {
    var positions := PositionsFor(o.grid, Vault);
    if positions == [] {
      NothingTold(o.events);
    } else {
      KingChainTold(bet, o, positions, 1, Indexes(o.events, VaultsUnlockCompleted)[0]);
    }
  }

  /** In an accepted King Spin every upgrade rises from what its Vault showed, rounds have their exact size, and each award
      pays what its Vault showed last. */
  lemma AcceptedChain(input: SpinInput, o: Outcome)
    requires StructureOk(input, o)
    requires input.feature.Canonical().mode == Overdrive
    ensures ChainTold(o.events)
  {
    KingVaultsTold(input.feature.Canonical(), input.bet, o);
  }

  // --- Where Vault events stand ---

  lemma {:induction false} UpgradesOnCells(events: seq<Event>, start: Chain, from: nat, n: nat, i: nat)
    requires from <= i < n <= |events| && start.Chain? && ChainTo(events, start, from, n).Chain? && events[i].kind == VaultUpgraded
    ensures events[i].Pos() in start.current
  {
    if i == n - 1 {
      KeepsCells(events, start, from, n - 1);
    } else {
      UpgradesOnCells(events, start, from, n - 1, i);
    }
  }

  lemma UpgradeOnVault(bet: int, o: Outcome, positions: seq<Position>, s: int, c: int, i: nat)
    requires VaultEventsPlaced(Overdrive, o.events, positions, s, c) && 0 <= c < |o.events| && KingEventsOk(bet, o, positions, c)
    requires i < |o.events| && o.events[i].kind == VaultUpgraded
    ensures o.events[i].Pos() in positions
  {
    KingPlaces(o.events, positions, s, c, i);
    var first := FirstAt(o.events, VaultAwarded);
    assert first <= i ==> ClosingKind(o.events[i].kind);
    UpgradesOnCells(o.events, ChainStart(o.events, positions), c + 1, first, i);
  }

  lemma LockedOnVault(f: FeatureState, bet: int, o: Outcome, i: nat)
    requires VaultEventsOk(f, bet, o) && PositionsFor(o.grid, Vault) != [] && |Indexes(o.events, VaultsLocked)| == 1
    requires i < |o.events|
    ensures !IsVaultCellEvent(o.events[i].kind)
  {
    var landed := if f.mode == Expansion then 1 else 0;
    IndexesOne(o.events, VaultsLanded, landed);
    IndexesOne(o.events, VaultsLocked, landed + 1);
    if IsVaultEvent(o.events[i].kind) {
      OnlyTwo(o.events, landed, i);
    }
  }

  lemma UnlockedOnVault(mode: FeatureMode, bet: int, o: Outcome, positions: seq<Position>, landed: int, i: nat)
    requires 0 <= landed < |o.events| && UnlockedOk(mode, bet, o, positions, landed)
    requires i < |o.events| && IsVaultCellEvent(o.events[i].kind)
    ensures o.events[i].Pos() in positions
  {
    var c := Indexes(o.events, VaultsUnlockCompleted)[0];
    assert VaultEventOk(mode, o.events[i], i, positions, landed + 1, c);
    if o.events[i].kind == VaultUpgraded {
      UpgradeOnVault(bet, o, positions, landed + 1, c, i);
    }
  }

  lemma EventOnVault(f: FeatureState, bet: int, o: Outcome, i: nat)
    requires VaultEventsOk(f, bet, o) && i < |o.events| && IsVaultCellEvent(o.events[i].kind)
    ensures o.events[i].Pos() in PositionsFor(o.grid, Vault)
  {
    var positions := PositionsFor(o.grid, Vault);
    if positions == [] {
      NothingCounted(o.events, i);
    } else if |Indexes(o.events, VaultsLocked)| == 1 {
      LockedOnVault(f, bet, o, i);
    } else {
      UnlockedOnVault(f.mode, bet, o, positions, if f.mode == Expansion then 1 else 0, i);
    }
  }

  /** An accepted outcome tells only of cells that hold a Vault. */
  lemma AcceptedVaultEvents(input: SpinInput, o: Outcome, i: nat)
    requires StructureOk(input, o) && i < |o.events|
    requires o.events[i].kind in {VaultUnlocked, VaultAwarded, VaultUpgraded, FreeSpinAwarded, FreeSpinCapReached}
    ensures VaultAt(o.grid, o.events[i].Pos())
  {
    EventOnVault(input.feature.Canonical(), input.bet, o, i);
    PositionsExact(o.grid, Vault);
  }
}
