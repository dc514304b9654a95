/** What an accepted outcome guarantees about its Vaults, whoever made it: grid, reveals, upgrades and results tell one story.
    The structural rules suffice; an outcome accepted against a definition satisfies them too. */
module AcceptedVaults {
  import opened Money
  import opened GameTypes
  import opened Grids
  import opened Ways
  import opened GameConfig
  import opened OutcomeRules

  predicate Any(events: seq<Event>, kind: EventKind) {
    exists i :: 0 <= i < |events| && events[i].kind == kind
  }

  predicate At(events: seq<Event>, kind: EventKind, p: Position, i: int) {
    0 <= i < |events| && events[i].kind == kind && events[i].Pos() == p
  }

  /** The one event of a kind that tells of a cell. */
  ghost predicate OneAt(events: seq<Event>, kind: EventKind, p: Position, i: int) {
    At(events, kind, p, i) && forall j :: At(events, kind, p, j) ==> j == i
  }

  ghost predicate NoneAt(events: seq<Event>, kind: EventKind, p: Position) {
    forall j :: !At(events, kind, p, j)
  }

  predicate VaultAt(grid: Grid, p: Position) {
    0 <= p.reel < |grid| && 0 <= p.row < |grid[p.reel]| && grid[p.reel][p.row].symbol == Vault
  }

  /** A locked Vault shows nothing, and nothing is told of its cell. */
  ghost predicate LockedVault(o: Outcome, p: Position)
    requires VaultAt(o.grid, p)
  {
    && o.grid[p.reel][p.row] == Cell(Vault, 0, NoPrize)
    && NoneAt(o.events, VaultUnlocked, p) && NoneAt(o.events, VaultAwarded, p) && NoneAt(o.events, VaultUpgraded, p)
    && NoneAt(o.events, FreeSpinAwarded, p) && NoneAt(o.events, FreeSpinCapReached, p)
  }

  /** The cell shows what its one award names, and the award pays the bet times it; only a notice of the cap explains less. */
  predicate AwardShown(bet: int, o: Outcome, p: Position, king: bool, award: Event)
    requires VaultAt(o.grid, p)
  {
    var cell := o.grid[p.reel][p.row];
    && cell.multiplier == award.multiplier > 0 && cell.prize == award.prize
    && award.prize == VaultPrize(award.multiplier, king)
    && 0 <= award.amount <= bet * award.multiplier
    && (award.amount == bet * award.multiplier || Any(o.events, WinCapReached))
  }

  /** A Vault that paid: one reveal and one award; outside King Spin the reveal shows what the cell shows. */
  ghost predicate PaidVault(bet: int, o: Outcome, p: Position, king: bool)
    requires VaultAt(o.grid, p)
  {
    && NoneAt(o.events, FreeSpinAwarded, p) && NoneAt(o.events, FreeSpinCapReached, p)
    && exists i, j ::
         && OneAt(o.events, VaultUnlocked, p, i) && OneAt(o.events, VaultAwarded, p, j)
         && AwardShown(bet, o, p, king, o.events[j])
         && (king || (o.events[i].multiplier == o.grid[p.reel][p.row].multiplier && o.events[i].prize == o.grid[p.reel][p.row].prize))
  }

  /** A Vault of Kong Quest that held a free spin: the cell and its one reveal show it, and one event awards or caps it. */
  ghost predicate FreeVault(o: Outcome, p: Position)
    requires VaultAt(o.grid, p)
  {
    && o.grid[p.reel][p.row] == Cell(Vault, 0, FreeSpinPrize) && NoneAt(o.events, VaultAwarded, p)
    && (exists i :: OneAt(o.events, VaultUnlocked, p, i) && o.events[i].multiplier == 0 && o.events[i].prize == FreeSpinPrize)
    && exists j ::
         || (OneAt(o.events, FreeSpinAwarded, p, j) && o.events[j].count == 1 && NoneAt(o.events, FreeSpinCapReached, p))
         || (OneAt(o.events, FreeSpinCapReached, p, j) && NoneAt(o.events, FreeSpinAwarded, p))
  }

  /** What a Vault cell of an outcome is. */
  ghost predicate VaultTold(mode: FeatureMode, bet: int, o: Outcome, p: Position)
    requires VaultAt(o.grid, p)
  {
    if Any(o.events, VaultsLocked) then mode != Overdrive && LockedVault(o, p)
    else PaidVault(bet, o, p, mode == Overdrive) || (mode == Expansion && FreeVault(o, p))
  }

  // --- Locked Vaults ---

  lemma {:induction false} EventsCounted(events: seq<Event>, n: nat, at: set<nat>)
    requires n <= |events| && forall i :: i in at ==> i < n && IsVaultEvent(events[i].kind)
    ensures |at| <= VaultEventCount(events, n)
  {
    if n == 0 {
      assert at == {};
    } else {
      var fewer := at - {n - 1};
      EventsCounted(events, n - 1, fewer);
      assert |at| <= |fewer| + if n - 1 in at then 1 else 0 by {
        if n - 1 in at {
          assert at == fewer + {n - 1};
        } else {
          assert at == fewer;
        }
      }
    }
  }

  /** A section of two Vault events tells of no single cell. */
  lemma OnlyTwo(events: seq<Event>, landed: nat, i: nat)
    requires landed + 1 < |events| && VaultEventCount(events, |events|) == 2
    requires IsVaultEvent(events[landed].kind) && IsVaultEvent(events[landed + 1].kind)
    requires i < |events| && IsVaultEvent(events[i].kind)
    ensures i == landed || i == landed + 1
  {
    if i != landed && i != landed + 1 {
      EventsCounted(events, |events|, {landed, landed + 1, i});
    }
  }

  lemma LockedTold(f: FeatureState, bet: int, o: Outcome, p: Position)
    requires VaultAt(o.grid, p) && VaultEventsOk(f, bet, o) && |Indexes(o.events, VaultsLocked)| == 1
    ensures Any(o.events, VaultsLocked) && f.mode != Overdrive && LockedVault(o, p)
  {
    var positions := PositionsFor(o.grid, Vault);
    PositionsExact(o.grid, Vault);
    var landed := if f.mode == Expansion then 1 else 0;
    IndexesOne(o.events, VaultsLanded, landed);
    IndexesOne(o.events, VaultsLocked, landed + 1);
    forall i | 0 <= i < |o.events| && IsVaultCellEvent(o.events[i].kind)
      ensures false
    {
      OnlyTwo(o.events, landed, i);
    }
  }

  // --- Unlocked Vaults ---

  lemma FamilyApart(events: seq<Event>, i: nat, j: nat)
    requires OncePerCell(events) && i < |events| && j < |events| && i != j && SameFamily(events[i].kind, events[j].kind)
    ensures events[i].Pos() != events[j].Pos()
  {
    if j < i {
      assert SameFamily(events[j].kind, events[i].kind);
    }
  }

  lemma SameCellOnce(events: seq<Event>, kind: EventKind, p: Position, i: nat)
    requires OncePerCell(events) && SameFamily(kind, kind) && At(events, kind, p, i)
    ensures OneAt(events, kind, p, i)
  {
    forall j | 0 <= j < |events| && j != i && events[j].kind == kind
      ensures events[j].Pos() != p
    {
      FamilyApart(events, i, j);
    }
  }

  lemma OccursAt(events: seq<Event>, kind: EventKind, p: Position) returns (i: nat)
    requires Occurs(events, kind, p) && OncePerCell(events) && SameFamily(kind, kind)
    ensures OneAt(events, kind, p, i)
  {
    i :| 0 <= i < |events| && events[i].kind == kind && events[i].Pos() == p;
    SameCellOnce(events, kind, p, i);
  }

  /** The two free-spin results exclude each other. */
  lemma OneFreeResult(events: seq<Event>, p: Position, j: nat)
    requires OncePerCell(events)
    ensures At(events, FreeSpinAwarded, p, j) ==> NoneAt(events, FreeSpinCapReached, p)
    ensures At(events, FreeSpinCapReached, p, j) ==> NoneAt(events, FreeSpinAwarded, p)
  {
    forall k | 0 <= j < |events| && 0 <= k < |events| && k != j && SameFamily(events[j].kind, events[k].kind)
      ensures events[k].Pos() != events[j].Pos()
    {
      FamilyApart(events, j, k);
    }
  }

  lemma NotOccurring(events: seq<Event>, kind: EventKind, p: Position)
    requires !Occurs(events, kind, p)
    ensures NoneAt(events, kind, p)
  {
  }

  lemma CapTold(o: Outcome)
    requires HasWinCap(o.events)
    ensures Any(o.events, WinCapReached)
  {
    IndexesToExact(o.events, WinCapReached, |o.events|);
    assert o.events[Indexes(o.events, WinCapReached)[0]].kind == WinCapReached;
  }

  lemma PaidTold(mode: FeatureMode, bet: int, o: Outcome, positions: seq<Position>, s: int, c: int, p: Position)
    requires VaultAt(o.grid, p) && p in positions && VaultEventsPlaced(mode, o.events, positions, s, c) && mode != Overdrive
    requires FinalResultOk(bet, o, p) && Occurs(o.events, VaultAwarded, p)
    ensures PaidVault(bet, o, p, false)
  {
    var i := OccursAt(o.events, VaultUnlocked, p);
    var j := OccursAt(o.events, VaultAwarded, p);
    assert VaultEventOk(mode, o.events[j], j, positions, s, c);
    NotOccurring(o.events, FreeSpinAwarded, p);
    NotOccurring(o.events, FreeSpinCapReached, p);
    if HasWinCap(o.events) {
      CapTold(o);
    }
    assert PayableOk(bet, o.events[i], o.events[j], CellAt(o.grid, p), HasWinCap(o.events));
    assert AwardShown(bet, o, p, false, o.events[j]);
  }

  lemma FreeTold(mode: FeatureMode, bet: int, o: Outcome, positions: seq<Position>, s: int, c: int, p: Position)
    requires VaultAt(o.grid, p) && p in positions && VaultEventsPlaced(mode, o.events, positions, s, c) && mode != Overdrive
    requires FinalResultOk(bet, o, p) && !Occurs(o.events, VaultAwarded, p)
    ensures mode == Expansion && FreeVault(o, p)
  {
    var i := OccursAt(o.events, VaultUnlocked, p);
    NotOccurring(o.events, VaultAwarded, p);
    var j := FreeResult(o.events, p);
    assert VaultEventOk(mode, o.events[j], j, positions, s, c);
    OneFreeResult(o.events, p, j);
    assert FreeRevealOk(o.events[i], CellAt(o.grid, p));
  }

  lemma FreeResult(events: seq<Event>, p: Position) returns (j: nat)
    requires FreeAt(events, p) && OncePerCell(events)
    ensures OneAt(events, FreeSpinAwarded, p, j) || OneAt(events, FreeSpinCapReached, p, j)
  {
    if Occurs(events, FreeSpinAwarded, p) {
      j := OccursAt(events, FreeSpinAwarded, p);
    } else {
      j := OccursAt(events, FreeSpinCapReached, p);
    }
  }

  lemma KingTold(bet: int, o: Outcome, positions: seq<Position>, s: int, c: int, p: Position)
    requires VaultAt(o.grid, p) && p in positions && VaultEventsPlaced(Overdrive, o.events, positions, s, c)
    requires 0 <= c < |o.events| && KingEventsOk(bet, o, positions, c)
    ensures PaidVault(bet, o, p, true)
  {
    var i := OccursAt(o.events, VaultUnlocked, p);
    var j := OccursAt(o.events, VaultAwarded, p);
    assert VaultEventOk(Overdrive, o.events[j], j, positions, s, c);
    forall k | 0 <= k < |o.events|
      ensures o.events[k].kind != FreeSpinAwarded && o.events[k].kind != FreeSpinCapReached
    {
      assert VaultEventOk(Overdrive, o.events[k], k, positions, s, c);
    }
    if HasWinCap(o.events) {
      CapTold(o);
    }
    KingAwardTold(bet, o, positions, c, p, j);
  }

  lemma KingAwardTold(bet: int, o: Outcome, positions: seq<Position>, c: int, p: Position, j: nat)
    requires VaultAt(o.grid, p) && p in positions && At(o.events, VaultAwarded, p, j)
    requires 0 <= c < |o.events| && KingEventsOk(bet, o, positions, c)
    requires 0 < o.events[j].multiplier && 0 <= o.events[j].amount && (HasWinCap(o.events) ==> Any(o.events, WinCapReached))
    ensures AwardShown(bet, o, p, true, o.events[j])
  {
    var first := FirstAt(o.events, VaultAwarded);
    var final := ChainTo(o.events, ChainStart(o.events, positions), c + 1, first);
    KeepsCells(o.events, ChainStart(o.events, positions), c + 1, first);
    assert p in final.current;
    assert KingAwardOk(bet, o.events[j], final.current[p], CellAt(o.grid, p), HasWinCap(o.events));
  }

  lemma {:induction false} KeepsCells(events: seq<Event>, start: Chain, from: nat, n: nat)
    requires from <= n <= |events| && start.Chain? && ChainTo(events, start, from, n).Chain?
    ensures ChainTo(events, start, from, n).current.Keys == start.current.Keys
  {
    if n > from {
      KeepsCells(events, start, from, n - 1);
    }
  }

  lemma UnlockedTold(f: FeatureState, bet: int, o: Outcome, p: Position)
    requires VaultAt(o.grid, p) && VaultEventsOk(f, bet, o) && |Indexes(o.events, VaultsLocked)| != 1
    ensures !Any(o.events, VaultsLocked)
    ensures PaidVault(bet, o, p, f.mode == Overdrive) || (f.mode == Expansion && FreeVault(o, p))
  {
    var positions := PositionsFor(o.grid, Vault);
    PositionsExact(o.grid, Vault);
    IndexesNone(o.events, VaultsLocked);
    var landed := if f.mode == Expansion then 1 else 0;
    var c := Indexes(o.events, VaultsUnlockCompleted)[0];
    if f.mode == Overdrive {
      KingTold(bet, o, positions, landed + 1, c, p);
    } else if Occurs(o.events, VaultAwarded, p) {
      PaidTold(f.mode, bet, o, positions, landed + 1, c, p);
    } else {
      FreeTold(f.mode, bet, o, positions, landed + 1, c, p);
    }
  }

  /** Every Vault cell of an accepted outcome shows exactly what the events tell of it. */
  lemma AcceptedShows(input: SpinInput, o: Outcome, p: Position)
    requires StructureOk(input, o)
    requires VaultAt(o.grid, p)
    ensures VaultTold(input.feature.Canonical().mode, input.bet, o, p)
  {
    if |Indexes(o.events, VaultsLocked)| == 1 {
      LockedTold(input.feature.Canonical(), input.bet, o, p);
    } else {
      UnlockedTold(input.feature.Canonical(), input.bet, o, p);
    }
  }

  // --- Where the Vault events stand ---

  /** A group event names all the Vaults. */
  predicate GroupAt(events: seq<Event>, kind: EventKind, positions: seq<Position>, i: int) {
    && 0 <= i < |events| && events[i].kind == kind && events[i].count == |positions| && events[i].cells == positions
    && forall j :: 0 <= j < |events| && events[j].kind == kind ==> j == i
  }

  /** The results of an unlock sequence: reveals inside it, King Spin awards after it, all others inside it. */
  predicate InsideSequence(mode: FeatureMode, events: seq<Event>, s: int, c: int) {
    forall i :: 0 <= i < |events| ==>
      && (events[i].kind == VaultUnlocked || events[i].kind == FreeSpinAwarded || events[i].kind == FreeSpinCapReached ==> s < i < c)
      && (events[i].kind == VaultAwarded ==> if mode == Overdrive then c < i else s < i < c)
      && (events[i].kind == VaultUpgraded || events[i].kind == VaultsUpgradeStarted ==> mode == Overdrive && c < i)
  }

  /** The Vaults of a grid are told first, together, and then locked, or unlocked between two events that name them all. */
  ghost predicate SectionTold(mode: FeatureMode, events: seq<Event>, positions: seq<Position>) {
    var landed := if mode == Expansion then 1 else 0;
    if positions == [] then forall i :: 0 <= i < |events| ==> !IsVaultEvent(events[i].kind)
    else
      && GroupAt(events, VaultsLanded, positions, landed)
      && if Any(events, VaultsLocked) then mode != Overdrive && GroupAt(events, VaultsLocked, positions, landed + 1)
         else
           && GroupAt(events, VaultsUnlockStarted, positions, landed + 1)
           && exists c :: landed + 1 < c && GroupAt(events, VaultsUnlockCompleted, positions, c) && InsideSequence(mode, events, landed + 1, c)
  }

  lemma GroupFound(events: seq<Event>, kind: EventKind, positions: seq<Position>, at: int)
    requires Indexes(events, kind) == [at] && 0 <= at < |events| && VaultGroup(events[at], positions)
    ensures GroupAt(events, kind, positions, at)
  {
    IndexesOne(events, kind, at);
  }

  lemma InsideFound(mode: FeatureMode, events: seq<Event>, positions: seq<Position>, s: int, c: int)
    requires VaultEventsPlaced(mode, events, positions, s, c)
    ensures InsideSequence(mode, events, s, c)
  {
    forall i | 0 <= i < |events|
      ensures events[i].kind == VaultUnlocked || events[i].kind == FreeSpinAwarded || events[i].kind == FreeSpinCapReached ==> s < i < c
      ensures events[i].kind == VaultAwarded ==> if mode == Overdrive then c < i else s < i < c
      ensures events[i].kind == VaultUpgraded || events[i].kind == VaultsUpgradeStarted ==> mode == Overdrive && c < i
    {
      assert VaultEventOk(mode, events[i], i, positions, s, c);
    }
  }

  lemma UnlockFound(mode: FeatureMode, bet: int, o: Outcome, positions: seq<Position>, landed: int)
    requires 0 <= landed < |o.events| && UnlockedOk(mode, bet, o, positions, landed)
    ensures GroupAt(o.events, VaultsUnlockStarted, positions, landed + 1)
    ensures exists c :: landed + 1 < c && GroupAt(o.events, VaultsUnlockCompleted, positions, c) && InsideSequence(mode, o.events, landed + 1, c)
  {
    var ends := Indexes(o.events, VaultsUnlockCompleted);
    assert ends == [ends[0]];
    GroupFound(o.events, VaultsUnlockStarted, positions, landed + 1);
    GroupFound(o.events, VaultsUnlockCompleted, positions, ends[0]);
    InsideFound(mode, o.events, positions, landed + 1, ends[0]);
  }

  lemma NothingCounted(events: seq<Event>, i: nat)
    requires VaultEventCount(events, |events|) == 0 && i < |events|
    ensures !IsVaultEvent(events[i].kind)
  {
    if IsVaultEvent(events[i].kind) {
      EventsCounted(events, |events|, {i});
    }
  }

  lemma SectionFound(f: FeatureState, bet: int, o: Outcome)
    requires VaultEventsOk(f, bet, o)
    ensures SectionTold(f.mode, o.events, PositionsFor(o.grid, Vault))
  {
    var positions := PositionsFor(o.grid, Vault);
    var landed := if f.mode == Expansion then 1 else 0;
    if positions == [] {
      forall i | 0 <= i < |o.events|
        ensures !IsVaultEvent(o.events[i].kind)
      {
        NothingCounted(o.events, i);
      }
    } else {
      GroupFound(o.events, VaultsLanded, positions, landed);
      if |Indexes(o.events, VaultsLocked)| == 1 {
        GroupFound(o.events, VaultsLocked, positions, landed + 1);
      } else {
        IndexesNone(o.events, VaultsLocked);
        UnlockFound(f.mode, bet, o, positions, landed);
      }
    }
  }

  /** The order of the Vault events of an accepted outcome. */
  lemma AcceptedOrder(input: SpinInput, o: Outcome)
    requires StructureOk(input, o)
    ensures SectionTold(input.feature.Canonical().mode, o.events, PositionsFor(o.grid, Vault))
  {
    SectionFound(input.feature.Canonical(), input.bet, o);
  }
}
