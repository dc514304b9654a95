/** The validator's checks of Vault sections, Rage meter, wheel and feature counters. */
module FeatureChecks {
  import opened Money
  import opened GameTypes
  import opened Grids
  import opened WinCap
  import opened OutcomeRules
  import opened AwardChecks
  import opened VaultChecks
  import opened KingResults

  // --- Vaults ---

  /** The boundaries of an unlock sequence. */
  predicate BoundsOk(o: Outcome, positions: seq<Position>, landed: int) {
    var s, ends := landed + 1, Indexes(o.events, VaultsUnlockCompleted);
    && Indexes(o.events, VaultsLocked) == []
    && Indexes(o.events, VaultsUnlockStarted) == [s] && |ends| == 1
    && s < ends[0] < |o.events| && 0 <= s
    && VaultGroup(o.events[s], positions) && VaultGroup(o.events[ends[0]], positions)
  }

  method CheckBounds(o: Outcome, positions: seq<Position>, landed: int) returns (ok: bool, c: int)
    requires 0 <= landed < |o.events|
    ensures ok == BoundsOk(o, positions, landed)
    ensures ok ==> landed + 1 < c < |o.events| && Indexes(o.events, VaultsUnlockCompleted) == [c]
  {
    var locked := EventIndexes(o.events, VaultsLocked);
    var started := EventIndexes(o.events, VaultsUnlockStarted);
    var completed := EventIndexes(o.events, VaultsUnlockCompleted);
    c := 0;
    if locked != [] || |started| != 1 || |completed| != 1 || started[0] != landed + 1 || completed[0] <= started[0] {
      return false, c;
    }
    IndexesToExact(o.events, VaultsUnlockCompleted, |o.events|);
    c := completed[0];
    return VaultGroup(o.events[landed + 1], positions) && VaultGroup(o.events[c], positions), c;
  }

  /** What an unlock sequence between its bounds must say. */
  predicate UnlockedWithin(mode: FeatureMode, bet: int, o: Outcome, positions: seq<Position>, s: int, c: int)
    requires 0 <= s < c < |o.events|
  {
    && VaultEventsPlaced(mode, o.events, positions, s, c)
    && if mode == Overdrive then KingEventsOk(bet, o, positions, c)
       else
         && (forall p :: p in positions ==> FinalResultOk(bet, o, p))
         && (forall i :: s < i < c ==> UnlockKind(o.events[i].kind))
  }

  lemma UnlockedParts(mode: FeatureMode, bet: int, o: Outcome, positions: seq<Position>, landed: int)
    requires 0 <= landed < |o.events|
    ensures UnlockedOk(mode, bet, o, positions, landed) ==
            (BoundsOk(o, positions, landed) &&
             UnlockedWithin(mode, bet, o, positions, landed + 1, Indexes(o.events, VaultsUnlockCompleted)[0]))
  {
  }

  lemma PlacedParts(mode: FeatureMode, events: seq<Event>, positions: seq<Position>, s: int, c: int)
    ensures VaultEventsPlaced(mode, events, positions, s, c) ==
            (PlacesTo(mode, events, positions, s, c, |events|) && OncePerCell(events) &&
             forall p :: p in positions ==> Occurs(events, VaultUnlocked, p))
  {
  }

  /** Reveals and awards stand on Vault cells, and awards multiply. */
  lemma PlacesCells(mode: FeatureMode, events: seq<Event>, positions: seq<Position>, s: int, c: int)
    requires PlacesTo(mode, events, positions, s, c, |events|)
    ensures forall i :: 0 <= i < |events| && (events[i].kind == VaultUnlocked || events[i].kind == VaultAwarded) ==>
              events[i].Pos() in positions
    ensures AwardsPositive(events)
  {
    forall i | 0 <= i < |events| && (events[i].kind == VaultUnlocked || events[i].kind == VaultAwarded)
      ensures events[i].Pos() in positions && (events[i].kind == VaultAwarded ==> 0 <= events[i].multiplier)
    {
      assert VaultEventOk(mode, events[i], i, positions, s, c);
    }
  }

  /** The sequence, and one reveal for every Vault. */
  method CheckRevealed(mode: FeatureMode, events: seq<Event>, positions: seq<Position>, s: int, c: int)
    returns (ok: bool, t: Tables)
    requires Distinct(positions)
    ensures ok == VaultEventsPlaced(mode, events, positions, s, c)
    ensures ok ==> KingTables(events, positions, t) && AwardsPositive(events)
  {
    PlacedParts(mode, events, positions, s, c);
    ok, t := CheckSequence(mode, events, positions, s, c);
    if !ok {
      return;
    }
    PlacesCells(mode, events, positions, s, c);
    EveryCellListed(events, VaultUnlocked, positions, t.shown);
    ok := |t.shown| == |positions|;
  }

  method CheckUnlocked(mode: FeatureMode, bet: int, o: Outcome, positions: seq<Position>, s: int, c: int) returns (ok: bool)
    requires 0 <= s < c < |o.events| && Distinct(positions)
    ensures ok == UnlockedWithin(mode, bet, o, positions, s, c)
  {
    var placed, t := CheckRevealed(mode, o.events, positions, s, c);
    if !placed {
      return false;
    }
    if mode == Overdrive {
      ok := CheckKing(bet, o, positions, c, t);
      return;
    }
    ok := CheckResults(bet, o, positions, t);
    if ok {
      ok := CheckUnlockKinds(o.events, s, c);
    }
  }

  method CheckVaults(f: FeatureState, bet: int, o: Outcome) returns (ok: bool)
    ensures ok == VaultEventsOk(f, bet, o)
  {
    var positions := PositionsOf(o.grid, Vault);
    PositionsExact(o.grid, Vault);
    var count := CountVaultEvents(o.events);
    if |positions| == 0 {
      return count == 0;
    }
    var found := EventIndexes(o.events, VaultsLanded);
    var landed := if f.mode == Expansion then 1 else 0;
    if found != [landed] || landed >= |o.events| || !VaultGroup(o.events[landed], positions) {
      return false;
    }
    var locked := EventIndexes(o.events, VaultsLocked);
    if |locked| == 1 {
      ok := CheckLocked(f.mode, o, positions, landed, count);
      return;
    }
    UnlockedParts(f.mode, bet, o, positions, landed);
    var bounded, c := CheckBounds(o, positions, landed);
    if !bounded {
      return false;
    }
    ok := CheckUnlocked(f.mode, bet, o, positions, landed + 1, c);
  }

  // --- Feature counters ---

  predicate CountersOk(f: FeatureState, events: seq<Event>, n: nat)
    requires n <= |events|
  {
    && (forall i :: 0 <= i < n && events[i].kind == FreeSpinAwarded ==> events[i].count > 0)
    && (FreeSpinsAwarded(events, n) > 0 ==>
          && f.remaining - 1 + FreeSpinsAwarded(events, n) <= MAX_FEATURE_SPINS
          && f.awarded + FreeSpinsAwarded(events, n) <= MAX_FEATURE_SPINS)
  }

  lemma {:induction false} AwardedGrows(events: seq<Event>, m: nat, n: nat)
    requires m <= n <= |events| && FreeAwardsPositive(events)
    ensures 0 <= FreeSpinsAwarded(events, m) <= FreeSpinsAwarded(events, n)
  {
    if m < n {
      AwardedGrows(events, m, n - 1);
    } else if m > 0 {
      AwardedGrows(events, m - 1, m - 1);
    }
  }

  /** The free spins awarded, added to both counters one event at a time. */
  method CountFreeSpins(f: FeatureState, events: seq<Event>) returns (ok: bool, remaining: int, awarded: int)
    ensures ok == CountersOk(f, events, |events|)
    ensures ok ==> remaining == f.remaining - 1 + FreeSpinsAwarded(events, |events|)
                   && awarded == f.awarded + FreeSpinsAwarded(events, |events|)
  {
    remaining, awarded := f.remaining - 1, f.awarded;
    for i := 0 to |events|
      invariant CountersOk(f, events, i) && 0 <= FreeSpinsAwarded(events, i)
      invariant remaining == f.remaining - 1 + FreeSpinsAwarded(events, i) && awarded == f.awarded + FreeSpinsAwarded(events, i)
    {
      var e := events[i];
      if e.kind != FreeSpinAwarded {
        continue;
      }
      if e.count <= 0 || remaining > MAX_FEATURE_SPINS - e.count || awarded > MAX_FEATURE_SPINS - e.count {
        CountersRefused(f, events, i);
        return false, remaining, awarded;
      }
      remaining, awarded := remaining + e.count, awarded + e.count;
    }
    ok := true;
  }

  lemma CountersRefused(f: FeatureState, events: seq<Event>, i: nat)
    requires i < |events| && events[i].kind == FreeSpinAwarded && 0 <= FreeSpinsAwarded(events, i)
    requires var more := FreeSpinsAwarded(events, i) + events[i].count;
             events[i].count <= 0 || f.remaining - 1 + more > MAX_FEATURE_SPINS || f.awarded + more > MAX_FEATURE_SPINS
    ensures !CountersOk(f, events, |events|)
  {
    if FreeAwardsPositive(events) {
      AwardedGrows(events, i + 1, |events|);
    }
  }

  method CheckCompletion(f: FeatureState, o: Outcome) returns (ok: bool)
    ensures ok == FeatureCompletionOk(f, o)
  {
    var completed := EventIndexes(o.events, FreeSpinsCompleted);
    if !f.Active() {
      return completed == [] && (o.next.Active() ==> o.next.win == o.total);
    }
    var win := SafeAdd(f.win, o.total);
    if win.Err? {
      return false;
    }
    var counted, remaining, awarded := CountFreeSpins(f, o.events);
    if !counted || o.next.rageLevel != f.rageLevel || o.next.rageCollected != f.rageCollected {
      return false;
    }
    if o.next.Active() {
      return completed == [] && o.next.mode == f.mode && o.next.bet == f.bet && o.next.win == win.value
             && 1 <= remaining == o.next.remaining && o.next.awarded == awarded;
    }
    if remaining != 0 || o.events == [] || completed != [|o.events| - 1] {
      return false;
    }
    var e := o.events[|o.events| - 1];
    return e.mode == f.mode && e.awarded == awarded && e.cumulative == win.value;
  }
}
