/** Engine completeness for the Vaults: whichever way they went, the validator accepts their events. */
module VaultsAccepted {
  import opened Money
  import opened GameTypes
  import opened Grids
  import opened GameConfig
  import opened WinCap
  import opened OutcomeRules
  import opened SpinShape
  import opened EventLists
  import opened RawSpins
  import opened OpenedVaults
  import opened KingVaults
  import opened Completeness
  import opened CapAccepted
  import opened SpinAccepted

  /** Every vault award of the final list is its raw award, or less at the cap. */
  lemma VaultAwardsClipped(c: Config, input: SpinInput, raw: Outcome, pre: seq<Event>, vault: seq<Event>, rage: seq<Event>)
    requires CapReady(c, input, raw) && InSections(raw.events, pre, vault, rage)
    ensures var o := Capped(c, input, raw);
            |pre| + |vault| <= |o.events| && AwardsClipped(input.bet, vault, o.events, |pre|)
  {
    var o := Capped(c, input, raw);
    CappedFacts(c, input, raw);
    forall j | 0 <= j < |vault| && vault[j].kind == VaultAwarded
      ensures Clipped(input.bet, vault[j], o.events[|pre| + j], HasWinCap(o.events))
    {
      assert raw.events[|pre| + j] == vault[j];
      OneAwardClipped(c, input, raw, vault[j], |pre| + j);
    }
  }

  lemma OneAwardClipped(c: Config, input: SpinInput, raw: Outcome, award: Event, i: nat)
    requires CapReady(c, input, raw) && i < |raw.events| && raw.events[i] == award && award.kind == VaultAwarded
    ensures var o := Capped(c, input, raw);
            i < |o.events| && Clipped(input.bet, award, o.events[i], HasWinCap(o.events))
  {
    AwardClippedOnly(c, input, raw, i);
    AwardWithin(c, input, raw, i);
  }

  predicate AmountsFine(events: seq<Event>) {
    forall i :: 0 <= i < |events| ==> events[i].amount >= 0
  }

  predicate ResultsOk(bet: int, o: Outcome, positions: seq<Position>) {
    forall p :: p in positions ==> FinalResultOk(bet, o, p)
  }

  predicate OnlyUnlocks(events: seq<Event>, s: int, c: int) {
    forall i :: s < i < c && 0 <= i < |events| ==> UnlockKind(events[i].kind)
  }

  /** The parts of an unlock sequence, put together. */
  lemma UnlockAssembled(mode: FeatureMode, bet: int, o: Outcome, positions: seq<Position>, w: nat, c: nat)
    requires UnlockGroups(o.events, positions, w, c)
    requires VaultEventsPlaced(mode, o.events, positions, w + 1, c)
    requires mode == Overdrive ==> KingEventsOk(bet, o, positions, c)
    requires mode != Overdrive ==> ResultsOk(bet, o, positions) && OnlyUnlocks(o.events, w + 1, c)
    ensures UnlockedOk(mode, bet, o, positions, w)
  {
  }

  /** What both unlock sequences start from. */
  predicate Unlocking(bet: int, o: Outcome, raw: seq<Event>, pre: seq<Event>, vault: seq<Event>, rage: seq<Event>,
                      positions: seq<Position>) {
    && 0 < bet && positions != [] && Distinct(positions)
    && InSections(raw, pre, vault, rage) && Extends(raw, o.events) && AmountsFine(o.events)
    && |pre| + |vault| <= |o.events| && AwardsClipped(bet, vault, o.events, |pre|)
  }

  lemma OpenedGroupsFound(mode: FeatureMode, bet: int, o: Outcome, raw: seq<Event>, pre: seq<Event>, vault: seq<Event>,
                          rage: seq<Event>, positions: seq<Position>)
    requires Unlocking(bet, o, raw, pre, vault, rage, positions) && OpenedShape(mode, bet, o.grid, positions, vault)
    ensures UnlockGroups(o.events, positions, |pre|, |pre| + |vault| - 1)
  {
    OpenedGroups(mode, bet, o.grid, positions, vault);
    GroupsFound(raw, o.events, pre, vault, rage, positions, |vault| - 1);
  }

  lemma OpenedResultsOk(mode: FeatureMode, bet: int, o: Outcome, positions: seq<Position>, vault: seq<Event>, w: nat)
    requires 0 < bet && Distinct(positions) && OpenedShape(mode, bet, o.grid, positions, vault) && VaultsAt(o.events, vault, w)
    requires AwardsClipped(bet, vault, o.events, w)
    ensures ResultsOk(bet, o, positions) && OnlyUnlocks(o.events, w + 1, w + |vault| - 1)
  {
    OpenedReveals(mode, bet, o.grid, positions, vault, o.events, w);
    forall p | p in positions
      ensures FinalResultOk(bet, o, p)
    {
      var k :| 0 <= k < |positions| && positions[k] == p;
      OpenedResult(mode, bet, positions, vault, o, w, k);
    }
  }

  /** An unlock sequence outside King Spin. */
  lemma OpenedAccepted(mode: FeatureMode, bet: int, o: Outcome, raw: seq<Event>, pre: seq<Event>, vault: seq<Event>,
                       rage: seq<Event>, positions: seq<Position>)
    requires mode != Overdrive && Unlocking(bet, o, raw, pre, vault, rage, positions)
    requires OpenedShape(mode, bet, o.grid, positions, vault)
    ensures UnlockGroups(o.events, positions, |pre|, |pre| + |vault| - 1)
    ensures UnlockedOk(mode, bet, o, positions, |pre|)
  {
    VaultsPlaced(raw, o.events, pre, vault, rage);
    OpenedGroupsFound(mode, bet, o, raw, pre, vault, rage, positions);
    OpenedPlaced(mode, bet, o.grid, positions, vault, o.events, |pre|);
    OpenedResultsOk(mode, bet, o, positions, vault, |pre|);
    UnlockAssembled(mode, bet, o, positions, |pre|, |pre| + |vault| - 1);
  }

  lemma KingGroupsFound(bet: int, o: Outcome, raw: seq<Event>, pre: seq<Event>, vault: seq<Event>,
                        positions: seq<Position>)
    requires Unlocking(bet, o, raw, pre, vault, [], positions) && KingShape(bet, o.grid, positions, vault)
    ensures UnlockGroups(o.events, positions, |pre|, |pre| + |positions| + 2)
  {
    KingGroups(bet, o.grid, positions, vault);
    GroupsFound(raw, o.events, pre, vault, [], positions, |positions| + 2);
  }

  lemma KingEventsPlaced(bet: int, o: Outcome, raw: seq<Event>, pre: seq<Event>, vault: seq<Event>,
                         positions: seq<Position>, w: nat, c: nat)
    requires Unlocking(bet, o, raw, pre, vault, [], positions) && KingShape(bet, o.grid, positions, vault)
    requires w == |pre| && c == w + |positions| + 2
    ensures VaultEventsPlaced(Overdrive, o.events, positions, w + 1, c)
  {
    VaultsPlaced(raw, o.events, pre, vault, []);
    KingPlaced(positions, vault, o.events, |pre|);
  }

  lemma KingEventsAccepted(bet: int, o: Outcome, raw: seq<Event>, pre: seq<Event>, vault: seq<Event>,
                           positions: seq<Position>, c: nat)
    requires Unlocking(bet, o, raw, pre, vault, [], positions) && KingShape(bet, o.grid, positions, vault)
    requires c == |pre| + |positions| + 2
    ensures c < |o.events| && KingEventsOk(bet, o, positions, c)
  {
    VaultsPlaced(raw, o.events, pre, vault, []);
    ClosersOnly(o.events, |pre| + |vault|);
    KingAccepted(bet, positions, vault, o, |pre|, c);
  }

  lemma KingFound(bet: int, o: Outcome, raw: seq<Event>, pre: seq<Event>, vault: seq<Event>, positions: seq<Position>, w: nat, c: nat)
    requires Unlocking(bet, o, raw, pre, vault, [], positions) && KingShape(bet, o.grid, positions, vault)
    requires w == |pre| && c == w + |positions| + 2
    ensures VaultEventsPlaced(Overdrive, o.events, positions, w + 1, c)
    ensures c < |o.events| && KingEventsOk(bet, o, positions, c)
  {
    KingEventsPlaced(bet, o, raw, pre, vault, positions, w, c);
    KingEventsAccepted(bet, o, raw, pre, vault, positions, c);
  }

  /** The unlock, upgrade and award sequence of a King Spin. */
  lemma KingSpinAccepted(bet: int, o: Outcome, raw: seq<Event>, pre: seq<Event>, vault: seq<Event>, positions: seq<Position>,
                         w: nat, c: nat)
    requires Unlocking(bet, o, raw, pre, vault, [], positions) && KingShape(bet, o.grid, positions, vault)
    requires w == |pre| && c == w + |positions| + 2
    ensures UnlockGroups(o.events, positions, w, c) && UnlockedOk(Overdrive, bet, o, positions, w)
  {
    KingGroupsFound(bet, o, raw, pre, vault, positions);
    KingFound(bet, o, raw, pre, vault, positions, w, c);
    UnlockAssembled(Overdrive, bet, o, positions, w, c);
  }

  lemma ClosersOnly(events: seq<Event>, from: nat)
    requires forall i :: from <= i < |events| ==> Section(events[i].kind) == 3
    ensures forall i :: from <= i < |events| ==> ClosingKind(events[i].kind)
  {
  }

  lemma NoVaults(o: Outcome, raw: seq<Event>, pre: seq<Event>, rage: seq<Event>)
    requires InSections(raw, pre, [], rage) && Extends(raw, o.events)
    ensures VaultEventCount(o.events, |o.events|) == 0
  {
    VaultsPlaced(raw, o.events, pre, [], rage);
    VaultCount(o.events, [], |pre|, |o.events|);
  }

  /** Whatever the Vaults did, the validator's Vault rules hold of the final events. */
  lemma VaultRulesAccepted(f: FeatureState, bet: int, o: Outcome, raw: seq<Event>, pre: seq<Event>, vault: seq<Event>,
                       rage: seq<Event>)
    requires 0 < bet && GridOk(o.grid) && PreShape(f.mode, |o.grid[0]|, pre) && VaultShape(f.mode, bet, o.grid, vault)
    requires f.mode == Overdrive ==> rage == []
    requires InSections(raw, pre, vault, rage) && Extends(raw, o.events) && AmountsFine(o.events)
    requires |pre| + |vault| <= |o.events| && AwardsClipped(bet, vault, o.events, |pre|)
    ensures VaultEventsOk(f, bet, o)
  {
    var positions := PositionsFor(o.grid, Vault);
    PositionsExact(o.grid, Vault);
    if positions == [] {
      NoVaults(o, raw, pre, rage);
    } else if f.mode == Overdrive {
      KingSpinAccepted(bet, o, raw, pre, vault, positions, |pre|, |pre| + |positions| + 2);
    } else if LockedShape(o.grid, positions, vault) {
      LockedAccepted(f, o, raw, pre, vault, rage);
    } else {
      OpenedAccepted(f.mode, bet, o, raw, pre, vault, rage, positions);
    }
  }
}
