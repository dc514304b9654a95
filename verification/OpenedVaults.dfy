/** The validator accepts the event sequence of Vaults that open outside King Spin, and of locked Vaults. */
module OpenedVaults {
  import opened Money
  import opened GameTypes
  import opened Grids
  import opened WinCap
  import opened OutcomeRules
  import opened SpinShape
  import opened EventLists

  /** A final event list holds the vault section at an offset, and no vault event elsewhere. */
  predicate VaultsAt(events: seq<Event>, ve: seq<Event>, w: nat) {
    && w + |ve| <= |events|
    && (forall j :: 0 <= j < |ve| ==> SameButAmount(ve[j], events[w + j]))
    && (forall i :: 0 <= i < |events| ==> (Section(events[i].kind) == 1 <==> w <= i < w + |ve|))
  }

  lemma VaultEventIs(events: seq<Event>, ve: seq<Event>, w: nat, j: nat)
    requires VaultsAt(events, ve, w) && j < |ve|
    ensures SameButAmount(ve[j], events[w + j])
  {
  }

  /** The clipping of one award: legal, never more, and less only at the cap. */
  predicate Clipped(bet: int, award: Event, paid: Event, capped: bool) {
    bet * award.multiplier <= MAX_INT64 && paid.amount <= award.amount && (paid.amount == award.amount || capped)
  }

  predicate AwardsClipped(bet: int, ve: seq<Event>, events: seq<Event>, w: nat)
    requires w + |ve| <= |events|
  {
    forall j :: 0 <= j < |ve| && ve[j].kind == VaultAwarded ==> Clipped(bet, ve[j], events[w + j], HasWinCap(events))
  }

  lemma AwardClipped(bet: int, ve: seq<Event>, events: seq<Event>, w: nat, j: nat)
    requires w + |ve| <= |events| && AwardsClipped(bet, ve, events, w) && j < |ve|
    ensures ve[j].kind == VaultAwarded ==> Clipped(bet, ve[j], events[w + j], HasWinCap(events))
  {
  }

  /** What stands at place j of an opened sequence. */
  lemma OpenedKinds(mode: FeatureMode, bet: int, grid: Grid, positions: seq<Position>, ve: seq<Event>, j: nat)
    requires OpenedShape(mode, bet, grid, positions, ve) && j < |ve|
    ensures j == 0 ==> ve[j].kind == VaultsLanded
    ensures j == 1 ==> ve[j].kind == VaultsUnlockStarted
    ensures j == |ve| - 1 ==> ve[j].kind == VaultsUnlockCompleted
    ensures 2 <= j < |ve| - 1 ==>
              var k := (j - 2) / 2;
              && 0 <= k < |positions| && ve[j].Pos() == positions[k]
              && (j == 2 * k + 2 ==> ve[j].kind == VaultUnlocked)
              && (j == 2 * k + 3 ==> ve[j].kind in {VaultAwarded, FreeSpinAwarded, FreeSpinCapReached})
              && (j == 2 * k + 2 || j == 2 * k + 3)
  {
    if 2 <= j < |ve| - 1 {
      var k := (j - 2) / 2;
      assert OpenedPair(mode, bet, positions[k], CellAt(grid, positions[k]), ve[2 * k + 2], ve[2 * k + 3]);
    }
  }

  /** The same, at place i of the final list. */
  lemma OpenedEventAt(mode: FeatureMode, bet: int, grid: Grid, positions: seq<Position>, ve: seq<Event>,
                      events: seq<Event>, w: nat, i: int)
    requires OpenedShape(mode, bet, grid, positions, ve) && VaultsAt(events, ve, w)
    requires 0 <= i < |events| && UnlockKind(events[i].kind)
    ensures var k := (i - w - 2) / 2;
            && w + 1 < i < w + |ve| - 1
            && 0 <= k < |positions| && events[i].Pos() == positions[k]
            && (events[i].kind == VaultUnlocked <==> i == w + 2 * k + 2)
            && (events[i].kind != VaultUnlocked <==> i == w + 2 * k + 3)
            && OpenedPair(mode, bet, positions[k], CellAt(grid, positions[k]), ve[2 * k + 2], ve[2 * k + 3])
  {
    assert SameButAmount(ve[i - w], events[i]) by {
      assert SameButAmount(ve[i - w], events[w + (i - w)]);
    }
    OpenedKinds(mode, bet, grid, positions, ve, i - w);
  }

  lemma OpenedOncePerCell(mode: FeatureMode, bet: int, grid: Grid, positions: seq<Position>, ve: seq<Event>,
                          events: seq<Event>, w: nat)
    requires Distinct(positions) && OpenedShape(mode, bet, grid, positions, ve) && VaultsAt(events, ve, w)
    ensures OncePerCell(events)
  {
    forall i, j | 0 <= i < j < |events| && SameFamily(events[i].kind, events[j].kind)
      ensures events[i].Pos() != events[j].Pos()
    {
      OpenedEventAt(mode, bet, grid, positions, ve, events, w, i);
      OpenedEventAt(mode, bet, grid, positions, ve, events, w, j);
    }
  }

  lemma OpenedReveals(mode: FeatureMode, bet: int, grid: Grid, positions: seq<Position>, ve: seq<Event>,
                      events: seq<Event>, w: nat)
    requires OpenedShape(mode, bet, grid, positions, ve) && VaultsAt(events, ve, w)
    ensures forall p :: p in positions ==> Occurs(events, VaultUnlocked, p)
    ensures forall i :: w + 1 < i < w + |ve| - 1 ==> UnlockKind(events[i].kind)
  {
    forall p | p in positions
      ensures Occurs(events, VaultUnlocked, p)
    {
      var k :| 0 <= k < |positions| && positions[k] == p;
      OpenedKinds(mode, bet, grid, positions, ve, 2 * k + 2);
      assert SameButAmount(ve[2 * k + 2], events[w + (2 * k + 2)]);
    }
    forall i | w + 1 < i < w + |ve| - 1
      ensures UnlockKind(events[i].kind)
    {
      OpenedKinds(mode, bet, grid, positions, ve, i - w);
      assert SameButAmount(ve[i - w], events[w + (i - w)]);
    }
  }

  lemma OpenedPlaced(mode: FeatureMode, bet: int, grid: Grid, positions: seq<Position>, ve: seq<Event>,
                     events: seq<Event>, w: nat)
    requires mode != Overdrive && Distinct(positions)
    requires OpenedShape(mode, bet, grid, positions, ve) && VaultsAt(events, ve, w)
    requires forall i :: 0 <= i < |events| ==> events[i].amount >= 0
    ensures VaultEventsPlaced(mode, events, positions, w + 1, w + |ve| - 1)
  {
    forall i | 0 <= i < |events|
      ensures VaultEventOk(mode, events[i], i, positions, w + 1, w + |ve| - 1)
    {
      OpenedEventOk(mode, bet, grid, positions, ve, events, w, i);
    }
    OpenedOncePerCell(mode, bet, grid, positions, ve, events, w);
    OpenedReveals(mode, bet, grid, positions, ve, events, w);
  }

  lemma OpenedEventOk(mode: FeatureMode, bet: int, grid: Grid, positions: seq<Position>, ve: seq<Event>,
                      events: seq<Event>, w: nat, i: nat)
    requires mode != Overdrive && OpenedShape(mode, bet, grid, positions, ve) && VaultsAt(events, ve, w)
    requires i < |events| && events[i].amount >= 0
    ensures VaultEventOk(mode, events[i], i, positions, w + 1, w + |ve| - 1)
  {
    if UnlockKind(events[i].kind) {
      OpenedEventAt(mode, bet, grid, positions, ve, events, w, i);
      assert SameButAmount(ve[i - w], events[w + (i - w)]);
    } else if events[i].kind in {VaultUpgraded, VaultsUpgradeStarted} {
      assert SameButAmount(ve[i - w], events[w + (i - w)]);
      OpenedKinds(mode, bet, grid, positions, ve, i - w);
      assert false;
    }
  }

  /** With one reveal and one result in a cell, the cell's result is judged by those two events. */
  lemma OpenedResultKind(bet: int, o: Outcome, p: Position, a: int, b: int)
    requires 0 <= a < |o.events| && 0 <= b < |o.events| && o.events[a].kind == VaultUnlocked
    requires o.events[b].kind in {VaultAwarded, FreeSpinAwarded, FreeSpinCapReached} && o.events[b].Pos() == p
    requires forall i :: 0 <= i < |o.events| && UnlockKind(o.events[i].kind) && o.events[i].Pos() == p ==>
               i == if o.events[i].kind == VaultUnlocked then a else b
    requires o.events[b].kind == VaultAwarded ==>
               PayableOk(bet, o.events[a], o.events[b], CellAt(o.grid, p), HasWinCap(o.events))
    requires o.events[b].kind != VaultAwarded ==> FreeRevealOk(o.events[a], CellAt(o.grid, p))
    ensures FinalResultOk(bet, o, p)
  {
    assert Occurs(o.events, VaultAwarded, p) <==> o.events[b].kind == VaultAwarded;
    assert FreeAt(o.events, p) <==> o.events[b].kind != VaultAwarded;
  }

  /** An opened pair is agreed on by its final events, whatever was clipped off its award. */
  lemma OpenedPairAccepted(mode: FeatureMode, bet: int, p: Position, cell: Cell, a: Event, b: Event,
                           paidA: Event, paidB: Event, capped: bool)
    requires OpenedPair(mode, bet, p, cell, a, b) && SameButAmount(a, paidA) && SameButAmount(b, paidB) && 0 < bet
    requires b.kind == VaultAwarded ==> Clipped(bet, b, paidB, capped)
    ensures paidB.kind == VaultAwarded ==> PayableOk(bet, paidA, paidB, cell, capped)
    ensures paidB.kind != VaultAwarded ==> FreeRevealOk(paidA, cell)
  {
  }

  lemma PairKinds(mode: FeatureMode, bet: int, p: Position, cell: Cell, shown: Event, result: Event)
    requires OpenedPair(mode, bet, p, cell, shown, result)
    ensures shown.kind == VaultUnlocked && result.kind in {VaultAwarded, FreeSpinAwarded, FreeSpinCapReached}
    ensures shown.Pos() == p && result.Pos() == p
  {
  }

  lemma OpenedPairJudged(mode: FeatureMode, bet: int, o: Outcome, p: Position, shown: Event, result: Event, a: nat, b: nat)
    requires 0 < bet && a < |o.events| && b < |o.events|
    requires OpenedPair(mode, bet, p, CellAt(o.grid, p), shown, result)
    requires SameButAmount(shown, o.events[a]) && SameButAmount(result, o.events[b])
    requires result.kind == VaultAwarded ==> Clipped(bet, result, o.events[b], HasWinCap(o.events))
    requires forall i :: 0 <= i < |o.events| && UnlockKind(o.events[i].kind) && o.events[i].Pos() == p ==>
               i == if o.events[i].kind == VaultUnlocked then a else b
    ensures FinalResultOk(bet, o, p)
  {
    PairKinds(mode, bet, p, CellAt(o.grid, p), shown, result);
    OpenedPairAccepted(mode, bet, p, CellAt(o.grid, p), shown, result, o.events[a], o.events[b], HasWinCap(o.events));
    OpenedResultKind(bet, o, p, a, b);
  }

  /** Each opened Vault has one result, agreeing with its reveal and its cell. */
  lemma OpenedResult(mode: FeatureMode, bet: int, positions: seq<Position>, ve: seq<Event>, o: Outcome, w: nat, k: nat)
    requires Distinct(positions) && k < |positions| && 0 < bet
    requires OpenedShape(mode, bet, o.grid, positions, ve) && VaultsAt(o.events, ve, w)
    requires AwardsClipped(bet, ve, o.events, w)
    ensures FinalResultOk(bet, o, positions[k])
  {
    var p, events := positions[k], o.events;
    var a, b := w + (2 * k + 2), w + (2 * k + 3);
    VaultEventIs(events, ve, w, 2 * k + 2);
    VaultEventIs(events, ve, w, 2 * k + 3);
    AwardClipped(bet, ve, events, w, 2 * k + 3);
    OpenedPlaces(mode, bet, o.grid, positions, ve, events, w, k);
    OpenedPairJudged(mode, bet, o, p, ve[2 * k + 2], ve[2 * k + 3], a, b);
  }

  lemma OpenedPlaces(mode: FeatureMode, bet: int, grid: Grid, positions: seq<Position>, ve: seq<Event>,
                     events: seq<Event>, w: nat, k: nat)
    requires Distinct(positions) && k < |positions|
    requires OpenedShape(mode, bet, grid, positions, ve) && VaultsAt(events, ve, w)
    ensures OpenedPair(mode, bet, positions[k], CellAt(grid, positions[k]), ve[2 * k + 2], ve[2 * k + 3])
    ensures forall i :: 0 <= i < |events| && UnlockKind(events[i].kind) && events[i].Pos() == positions[k] ==>
              i == if events[i].kind == VaultUnlocked then w + (2 * k + 2) else w + (2 * k + 3)
  {
    forall i | 0 <= i < |events| && UnlockKind(events[i].kind) && events[i].Pos() == positions[k]
      ensures i == if events[i].kind == VaultUnlocked then w + (2 * k + 2) else w + (2 * k + 3)
    {
      OpenedEventAt(mode, bet, grid, positions, ve, events, w, i);
    }
  }
}
