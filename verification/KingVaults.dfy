/** The validator accepts the event sequence of a King Spin. */
module KingVaults {
  import opened Money
  import opened GameTypes
  import opened Grids
  import opened WinCap
  import opened OutcomeRules
  import opened SpinShape
  import opened EventLists
  import opened OpenedVaults

  /** What stands at place j of a King Spin sequence. */
  lemma KingKinds(positions: seq<Position>, ve: seq<Event>, j: nat)
    requires KingFrame(positions, ve) && j < |ve|
    ensures var n := |positions|;
            && (j == 0 ==> ve[j].kind == VaultsLanded)
            && (j == 1 ==> ve[j].kind == VaultsUnlockStarted)
            && (j == n + 2 ==> ve[j].kind == VaultsUnlockCompleted)
            && (2 <= j < n + 2 ==> ve[j].kind == VaultUnlocked && ve[j].Pos() == positions[j - 2] && KingReveal(positions[j - 2], ve[j]))
            && (n + 3 <= j < |ve| - n ==> ChainEvent(positions, ve[j]) && ve[j].kind in {VaultsUpgradeStarted, VaultUpgraded})
            && (|ve| - n <= j ==> ve[j].kind == VaultAwarded && ve[j].Pos() == positions[j - (|ve| - n)])
  {
    var n := |positions|;
    var first := |ve| - n;
    if 2 <= j < n + 2 {
      assert KingReveal(positions[j - 2], ve[(j - 2) + 2]);
    }
    if first <= j {
      assert AwardStands(positions[j - first], ve[first + (j - first)]);
    }
  }

  /** The same, at place i of the final list. */
  lemma KingEventAt(positions: seq<Position>, ve: seq<Event>, events: seq<Event>, w: nat, i: int)
    requires KingFrame(positions, ve) && VaultsAt(events, ve, w)
    requires 0 <= i < |events| && Section(events[i].kind) == 1
    ensures w <= i < w + |ve| && SameButAmount(ve[i - w], events[i])
    ensures var n := |positions|;
            && (events[i].kind == VaultUnlocked <==> w + 2 <= i < w + n + 2)
            && (events[i].kind == VaultUnlocked ==> events[i].Pos() == positions[i - w - 2] && KingReveal(positions[i - w - 2], ve[i - w]))
            && (events[i].kind == VaultAwarded <==> w + |ve| - n <= i)
            && (events[i].kind == VaultAwarded ==> events[i].Pos() == positions[i - w - (|ve| - n)])
            && (events[i].kind in {VaultsUpgradeStarted, VaultUpgraded} <==> w + n + 3 <= i < w + |ve| - n)
            && events[i].kind != FreeSpinAwarded && events[i].kind != FreeSpinCapReached
  {
    assert SameButAmount(ve[i - w], events[w + (i - w)]);
    KingKinds(positions, ve, i - w);
  }

  lemma KingRevealNamed(p: Position, e: Event)
    requires KingReveal(p, e)
    ensures e.prize != NoPrize && 0 < e.multiplier && e.prize == VaultPrize(e.multiplier, true)
  {
  }

  /** The multipliers at the end of the chain. */
  function FinalMultipliers(positions: seq<Position>, ve: seq<Event>): map<Position, int>
    requires |ve| >= 2 * |positions| + 3
  {
    var final := ChainTo(ve, ChainStart(ve, positions), |positions| + 3, |ve| - |positions|);
    if final.Chain? then final.current else map[]
  }

  lemma KingAwardAt(bet: int, grid: Grid, positions: seq<Position>, ve: seq<Event>, k: nat, j: nat)
    requires KingShape(bet, grid, positions, ve) && k < |positions| && j == |ve| - |positions| + k
    ensures j < |ve| && |ve| >= 2 * |positions| + 3
    ensures KingAward(bet, positions[k], CellAt(grid, positions[k]), FinalMultipliers(positions, ve), ve[j])
  {
  }

  lemma KingEventOk(positions: seq<Position>, ve: seq<Event>, events: seq<Event>, w: nat, i: nat)
    requires KingFrame(positions, ve) && VaultsAt(events, ve, w)
    requires i < |events| && events[i].amount >= 0
    ensures VaultEventOk(Overdrive, events[i], i, positions, w + 1, w + |positions| + 2)
  {
    if Section(events[i].kind) == 1 {
      KingEventAt(positions, ve, events, w, i);
      if events[i].kind == VaultUnlocked {
        KingRevealNamed(positions[i - w - 2], ve[i - w]);
      }
      if events[i].kind == VaultAwarded {
        assert AwardStands(positions[i - w - (|ve| - |positions|)], ve[|ve| - |positions| + (i - w - (|ve| - |positions|))]);
      }
    }
  }

  lemma KingOncePerCell(positions: seq<Position>, ve: seq<Event>, events: seq<Event>, w: nat)
    requires Distinct(positions) && KingFrame(positions, ve) && VaultsAt(events, ve, w)
    ensures OncePerCell(events)
  {
    forall i, j | 0 <= i < j < |events| && SameFamily(events[i].kind, events[j].kind)
      ensures events[i].Pos() != events[j].Pos()
    {
      KingEventAt(positions, ve, events, w, i);
      KingEventAt(positions, ve, events, w, j);
    }
  }

  lemma KingOccurrences(positions: seq<Position>, ve: seq<Event>, events: seq<Event>, w: nat)
    requires KingFrame(positions, ve) && VaultsAt(events, ve, w)
    ensures forall p :: p in positions ==> Occurs(events, VaultUnlocked, p) && Occurs(events, VaultAwarded, p)
  {
    forall p | p in positions
      ensures Occurs(events, VaultUnlocked, p) && Occurs(events, VaultAwarded, p)
    {
      var k :| 0 <= k < |positions| && positions[k] == p;
      var a, b := k + 2, |ve| - |positions| + k;
      KingKinds(positions, ve, a);
      KingKinds(positions, ve, b);
      assert SameButAmount(ve[a], events[w + a]) && SameButAmount(ve[b], events[w + b]);
    }
  }

  lemma KingPlaced(positions: seq<Position>, ve: seq<Event>, events: seq<Event>, w: nat)
    requires Distinct(positions) && KingFrame(positions, ve) && VaultsAt(events, ve, w)
    requires forall i :: 0 <= i < |events| ==> events[i].amount >= 0
    ensures VaultEventsPlaced(Overdrive, events, positions, w + 1, w + |positions| + 2)
  {
    forall i | 0 <= i < |events|
      ensures VaultEventOk(Overdrive, events[i], i, positions, w + 1, w + |positions| + 2)
    {
      KingEventOk(positions, ve, events, w, i);
    }
    KingOncePerCell(positions, ve, events, w);
    KingOccurrences(positions, ve, events, w);
  }

  // --- The chain at an offset ---

  lemma ChainStepIgnoresAmount(st: Chain, a: Event, b: Event)
    requires SameButAmount(a, b)
    ensures ChainStep(st, a) == ChainStep(st, b)
  {
  }

  /** A chain reads the same in the vault section and in the final list. */
  lemma {:induction false} ChainShift(ve: seq<Event>, events: seq<Event>, w: nat, start: Chain, from: nat, n: nat)
    requires w + |ve| <= |events| && from <= n <= |ve|
    requires forall j :: 0 <= j < |ve| ==> SameButAmount(ve[j], events[w + j])
    ensures ChainTo(events, start, w + from, w + n) == ChainTo(ve, start, from, n)
  {
    if n > from {
      ChainShift(ve, events, w, start, from, n - 1);
      assert SameButAmount(ve[n - 1], events[w + (n - 1)]);
      ChainStepIgnoresAmount(ChainTo(ve, start, from, n - 1), ve[n - 1], events[w + (n - 1)]);
    }
  }

  /** A cell revealed exactly once has that event's multiplier. */
  lemma {:induction false} RevealedOnce(events: seq<Event>, p: Position, at: int, n: nat)
    requires n <= |events| && 0 <= at < |events| && events[at].kind == VaultUnlocked && events[at].Pos() == p
    requires forall i :: 0 <= i < |events| && events[i].kind == VaultUnlocked && events[i].Pos() == p ==> i == at
    ensures RevealedTo(events, p, n) == if at < n then events[at].multiplier else 0
  {
    if n > 0 {
      RevealedOnce(events, p, at, n - 1);
    }
  }

  lemma KingRevealed(positions: seq<Position>, ve: seq<Event>, events: seq<Event>, w: nat, k: nat)
    requires Distinct(positions) && KingFrame(positions, ve) && VaultsAt(events, ve, w) && k < |positions|
    ensures RevealedTo(events, positions[k], |events|) == ve[k + 2].multiplier
  {
    KingKinds(positions, ve, k + 2);
    assert SameButAmount(ve[k + 2], events[w + (k + 2)]);
    forall i | 0 <= i < |events| && events[i].kind == VaultUnlocked && events[i].Pos() == positions[k]
      ensures i == w + k + 2
    {
      KingEventAt(positions, ve, events, w, i);
    }
    RevealedOnce(events, positions[k], w + k + 2, |events|);
  }

  lemma ChainStartSame(positions: seq<Position>, ve: seq<Event>, events: seq<Event>, w: nat)
    requires Distinct(positions) && KingFrame(positions, ve) && VaultsAt(events, ve, w)
    ensures ChainStart(events, positions) == ChainStart(ve, positions)
  {
    VaultsAlone(ve);
    VaultSectionOnly(positions, ve);
    forall p | p in positions
      ensures RevealedTo(events, p, |events|) == RevealedTo(ve, p, |ve|)
    {
      var k :| 0 <= k < |positions| && positions[k] == p;
      KingRevealed(positions, ve, events, w, k);
      KingRevealed(positions, ve, ve, 0, k);
    }
  }

  lemma VaultsAlone(ve: seq<Event>)
    ensures forall j :: 0 <= j < |ve| ==> SameButAmount(ve[j], ve[0 + j])
  {
  }

  lemma VaultSectionOnly(positions: seq<Position>, ve: seq<Event>)
    requires KingFrame(positions, ve)
    ensures VaultsAt(ve, ve, 0)
  {
    forall j | 0 <= j < |ve|
      ensures Section(ve[j].kind) == 1
    {
      KingKinds(positions, ve, j);
    }
  }

  // --- Acceptance ---

  /** The place of the first award in the final list. */
  lemma KingFirstAward(positions: seq<Position>, ve: seq<Event>, events: seq<Event>, w: nat)
    requires positions != [] && KingFrame(positions, ve) && VaultsAt(events, ve, w)
    ensures FirstAt(events, VaultAwarded) == w + |ve| - |positions|
  {
    var first := w + |ve| - |positions|;
    KingKinds(positions, ve, |ve| - |positions|);
    assert SameButAmount(ve[first - w], events[w + (first - w)]);
    var at := FirstAt(events, VaultAwarded);
    if at < |events| {
      KingEventAt(positions, ve, events, w, at);
    }
  }

  lemma KingAwardAccepted(bet: int, p: Position, cell: Cell, current: map<Position, int>, award: Event, paid: Event,
                          capped: bool)
    requires 0 < bet && KingAward(bet, p, cell, current, award) && SameButAmount(award, paid)
    requires Clipped(bet, award, paid, capped)
    ensures KingAwardOk(bet, paid, current[p], cell, capped)
  {
  }

  /** Event i of the final list awards Vault k, and was event j of the section before the cap. */
  predicate AwardedBy(bet: int, grid: Grid, positions: seq<Position>, ve: seq<Event>, events: seq<Event>, w: nat, i: nat, k: nat, j: nat) {
    && k < |positions| && j < |ve| && w + |ve| <= |events| && i == w + j && |ve| >= 2 * |positions| + 3
    && events[i].Pos() == positions[k] && ve[j].kind == VaultAwarded && SameButAmount(ve[j], events[i])
    && KingAward(bet, positions[k], CellAt(grid, positions[k]), FinalMultipliers(positions, ve), ve[j])
  }

  /** The Vault whose award stands at place i. */
  lemma AwardPlace(positions: seq<Position>, ve: seq<Event>, events: seq<Event>, w: nat, i: nat)
    returns (k: nat, j: nat)
    requires KingFrame(positions, ve) && VaultsAt(events, ve, w)
    requires i < |events| && events[i].kind == VaultAwarded
    ensures k < |positions| && w + |ve| <= |events| && j == |ve| - |positions| + k && i == w + j && |ve| >= 2 * |positions| + 3
    ensures events[i].Pos() == positions[k] && SameButAmount(ve[j], events[i])
  {
    KingEventAt(positions, ve, events, w, i);
    k, j := i - w - (|ve| - |positions|), i - w;
  }

  lemma KingAwardOf(bet: int, grid: Grid, positions: seq<Position>, ve: seq<Event>, events: seq<Event>, w: nat, i: nat)
    returns (k: nat, j: nat)
    requires KingShape(bet, grid, positions, ve) && VaultsAt(events, ve, w)
    requires i < |events| && events[i].kind == VaultAwarded
    ensures AwardedBy(bet, grid, positions, ve, events, w, i, k, j)
  {
    k, j := AwardPlace(positions, ve, events, w, i);
    KingAwardAt(bet, grid, positions, ve, k, j);
    Awarded(bet, grid, positions, ve, events, w, i, k, j);
  }

  lemma Awarded(bet: int, grid: Grid, positions: seq<Position>, ve: seq<Event>, events: seq<Event>, w: nat, i: nat, k: nat, j: nat)
    requires k < |positions| && w + |ve| <= |events| && j < |ve| && i == w + j && |ve| >= 2 * |positions| + 3
    requires events[i].Pos() == positions[k] && events[i].kind == VaultAwarded && SameButAmount(ve[j], events[i])
    requires KingAward(bet, positions[k], CellAt(grid, positions[k]), FinalMultipliers(positions, ve), ve[j])
    ensures AwardedBy(bet, grid, positions, ve, events, w, i, k, j)
  {
  }

  lemma AwardedPays(bet: int, positions: seq<Position>, ve: seq<Event>, o: Outcome, w: nat, i: nat, k: nat, j: nat)
    requires 0 < bet && AwardedBy(bet, o.grid, positions, ve, o.events, w, i, k, j) && AwardsClipped(bet, ve, o.events, w)
    ensures var p, current := o.events[i].Pos(), FinalMultipliers(positions, ve);
            p in current && KingAwardOk(bet, o.events[i], current[p], CellAt(o.grid, p), HasWinCap(o.events))
  {
    assert Clipped(bet, ve[j], o.events[w + j], HasWinCap(o.events));
    KingAwardAccepted(bet, positions[k], CellAt(o.grid, positions[k]), FinalMultipliers(positions, ve), ve[j], o.events[i],
                      HasWinCap(o.events));
  }

  lemma KingFinalAward(bet: int, positions: seq<Position>, ve: seq<Event>, o: Outcome, w: nat, i: nat)
    requires 0 < bet && KingShape(bet, o.grid, positions, ve) && VaultsAt(o.events, ve, w)
    requires i < |o.events| && o.events[i].kind == VaultAwarded
    requires AwardsClipped(bet, ve, o.events, w)
    ensures var p, current := o.events[i].Pos(), FinalMultipliers(positions, ve);
            p in current && KingAwardOk(bet, o.events[i], current[p], CellAt(o.grid, p), HasWinCap(o.events))
  {
    var k, j := KingAwardOf(bet, o.grid, positions, ve, o.events, w, i);
    AwardedPays(bet, positions, ve, o, w, i, k, j);
  }

  lemma KingRevealsOk(positions: seq<Position>, ve: seq<Event>, events: seq<Event>, w: nat)
    requires KingFrame(positions, ve) && VaultsAt(events, ve, w)
    ensures forall i :: 0 <= i < |events| ==> KingRevealOk(events[i])
  {
    forall i | 0 <= i < |events|
      ensures KingRevealOk(events[i])
    {
      if events[i].kind == VaultUnlocked {
        KingEventAt(positions, ve, events, w, i);
        KingRevealNamed(positions[i - w - 2], ve[i - w]);
      }
    }
  }

  lemma KingClosing(positions: seq<Position>, ve: seq<Event>, events: seq<Event>, w: nat)
    requires KingFrame(positions, ve) && VaultsAt(events, ve, w)
    requires forall i :: w + |ve| <= i < |events| ==> ClosingKind(events[i].kind)
    ensures forall i :: w + |ve| - |positions| <= i < |events| ==> ClosingKind(events[i].kind)
  {
    forall i | w + |ve| - |positions| <= i < |events|
      ensures ClosingKind(events[i].kind)
    {
      if i < w + |ve| {
        KingEventAt(positions, ve, events, w, i);
      }
    }
  }

  lemma KingChainClosed(bet: int, grid: Grid, positions: seq<Position>, ve: seq<Event>)
    requires KingShape(bet, grid, positions, ve)
    ensures |ve| >= 2 * |positions| + 3
    ensures GroupClosed(ChainTo(ve, ChainStart(ve, positions), |positions| + 3, |ve| - |positions|))
  {
  }

  /** The chain the validator replays on the final list ends as it did when the spin was built. */
  lemma KingChain(positions: seq<Position>, ve: seq<Event>, events: seq<Event>, w: nat, first: nat)
    requires |ve| >= 2 * |positions| + 3 && w + |ve| <= |events| && first == w + |ve| - |positions|
    requires forall j :: 0 <= j < |ve| ==> SameButAmount(ve[j], events[w + j])
    requires ChainStart(events, positions) == ChainStart(ve, positions)
    requires GroupClosed(ChainTo(ve, ChainStart(ve, positions), |positions| + 3, |ve| - |positions|))
    ensures var final := ChainTo(events, ChainStart(events, positions), w + |positions| + 2 + 1, first);
            GroupClosed(final) && final.current == FinalMultipliers(positions, ve)
  {
    ChainShift(ve, events, w, ChainStart(ve, positions), |positions| + 3, |ve| - |positions|);
  }

  lemma KingAccepted(bet: int, positions: seq<Position>, ve: seq<Event>, o: Outcome, w: nat, c: nat)
    requires c == w + |positions| + 2 && 0 < bet && positions != [] && Distinct(positions)
    requires KingShape(bet, o.grid, positions, ve) && VaultsAt(o.events, ve, w)
    requires forall i :: w + |ve| <= i < |o.events| ==> ClosingKind(o.events[i].kind)
    requires AwardsClipped(bet, ve, o.events, w)
    ensures c < |o.events| && KingEventsOk(bet, o, positions, c)
  {
    var events := o.events;
    KingFirstAward(positions, ve, events, w);
    ChainStartSame(positions, ve, events, w);
    KingChainClosed(bet, o.grid, positions, ve);
    KingChain(positions, ve, events, w, FirstAt(events, VaultAwarded));
    KingOccurrences(positions, ve, events, w);
    KingRevealsOk(positions, ve, events, w);
    KingClosing(positions, ve, events, w);
    forall i | 0 <= i < |events| && events[i].kind == VaultAwarded
      ensures var p, current := events[i].Pos(), FinalMultipliers(positions, ve);
              p in current && KingAwardOk(bet, events[i], current[p], CellAt(o.grid, p), HasWinCap(events))
    {
      KingFinalAward(bet, positions, ve, o, w, i);
    }
  }
}
