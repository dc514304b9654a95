/** What the independent validator demands of a spin outcome. */
module OutcomeRules {
  import opened Money
  import opened GameTypes
  import opened Grids
  import opened Ways
  import opened WaysEnumeration
  import opened WaysEvaluation
  import opened WaysForBet
  import opened GameConfig
  import opened WinCap

  // --- Positions and event lists ---

  predicate PositionsOk(positions: seq<Position>, rows: int) {
    && Distinct(positions)
    && forall i :: 0 <= i < |positions| ==> 0 <= positions[i].reel < 3 && 0 <= positions[i].row < rows
  }

  function IndexesTo(events: seq<Event>, kind: EventKind, n: nat): seq<int>
    requires n <= |events|
  {
    if n == 0 then []
    else IndexesTo(events, kind, n - 1) + if events[n - 1].kind == kind then [n - 1] else []
  }

  /** Where events of a kind stand, in order. */
  function Indexes(events: seq<Event>, kind: EventKind): seq<int> {
    IndexesTo(events, kind, |events|)
  }

  lemma {:induction false} IndexesToExact(events: seq<Event>, kind: EventKind, n: nat)
    requires n <= |events|
    ensures IndexesExact(events, kind, n, IndexesTo(events, kind, n))
  {
    if n > 0 {
      IndexesToExact(events, kind, n - 1);
      IndexesOneMore(events, kind, n, IndexesTo(events, kind, n - 1));
    }
  }

  lemma IndexesOneMore(events: seq<Event>, kind: EventKind, n: nat, before: seq<int>)
    requires 0 < n <= |events| && IndexesExact(events, kind, n - 1, before)
    ensures IndexesExact(events, kind, n, before + if events[n - 1].kind == kind then [n - 1] else [])
  {
    forall i | 0 <= i < n && events[i].kind == kind
      ensures i in before + if events[n - 1].kind == kind then [n - 1] else []
    {
      assert i < n - 1 ==> i in before;
    }
  }

  predicate IndexesExact(events: seq<Event>, kind: EventKind, n: nat, r: seq<int>)
    requires n <= |events|
  {
    && (forall j :: 0 <= j < |r| ==> 0 <= r[j] < n && events[r[j]].kind == kind)
    && (forall i :: 0 <= i < n && events[i].kind == kind ==> i in r)
    && (forall j, k :: 0 <= j < k < |r| ==> r[j] < r[k])
  }

  predicate Absent(events: seq<Event>, kind: EventKind) {
    forall i :: 0 <= i < |events| ==> events[i].kind != kind
  }

  predicate OnlyAt(events: seq<Event>, kind: EventKind, at: int) {
    && 0 <= at < |events| && events[at].kind == kind
    && forall i :: 0 <= i < |events| && i != at ==> events[i].kind != kind
  }

  lemma IndexesNone(events: seq<Event>, kind: EventKind)
    ensures Indexes(events, kind) == [] <==> Absent(events, kind)
  {
    var r := IndexesTo(events, kind, |events|);
    IndexesToExact(events, kind, |events|);
    if |r| == 0 {
      assert r == [];
    } else {
      assert events[r[0]].kind == kind;
    }
  }

  lemma IndexesOne(events: seq<Event>, kind: EventKind, at: int)
    ensures Indexes(events, kind) == [at] <==> OnlyAt(events, kind, at)
  {
    var r := IndexesTo(events, kind, |events|);
    IndexesToExact(events, kind, |events|);
    assert |r| > 1 ==> r[0] < r[1];
    if OnlyAt(events, kind, at) {
      assert at in r;
      forall j | 0 <= j < |r|
        ensures r[j] == at
      {
        assert events[r[j]].kind == kind;
      }
    }
    if r == [at] {
      forall i | 0 <= i < |events| && events[i].kind == kind
        ensures i == at
      {
        assert i in r;
      }
      assert events[r[0]].kind == kind;
    }
  }

  predicate IsVaultCellEvent(kind: EventKind) {
    kind.VaultUnlocked? || kind.VaultAwarded? || kind.VaultUpgraded? || kind.FreeSpinAwarded? || kind.FreeSpinCapReached?
  }

  predicate IsVaultEvent(kind: EventKind) {
    || IsVaultCellEvent(kind)
    || kind.VaultsLanded? || kind.VaultsLocked? || kind.VaultsUnlockStarted? || kind.VaultsUnlockCompleted?
    || kind.VaultsUpgradeStarted?
  }

  // --- Wins and fields ---

  predicate PathOk(symbol: Symbol, path: PathAward, grid: Grid)
    requires GridOk(grid)
  {
    && |path.cells| == 3
    && 1 <= path.multiplier && 0 <= path.base <= path.amount && 0 <= path.paid <= path.amount
    && (path.amount > 0 ==> path.base != 0)
    && (path.multiplier == 1 ==> path.base == path.amount)
    && (forall reel :: 0 <= reel < 3 ==>
          && path.cells[reel].reel == reel && 0 <= path.cells[reel].row < |grid[reel]|
          && Fits(grid[reel][path.cells[reel].row], symbol))
    && path.multiplier == WildFactor(grid[1][path.cells[1].row])
  }

  /** The paths of a win are distinct, legal, and account for its amounts and its cells. */
  predicate PathAwardsOk(win: Win, grid: Grid)
    requires GridOk(grid)
  {
    && |win.paths| == win.ways
    && (forall k :: 0 <= k < |win.paths| ==> PathOk(win.symbol, win.paths[k], grid))
    && DistinctCells(win.paths)
    && AmountSum(win.paths) == win.amount <= MAX_INT64
    && PaidSum(win.paths) == win.paid
    && CellsOf(win.paths) == Members(win.cells)
  }

  predicate WinOk(win: Win, grid: Grid)
    requires GridOk(grid)
  {
    && win.symbol in PAYING_SYMBOLS
    && 1 <= win.ways && 0 < win.amount && 0 <= win.paid <= win.amount && win.cells != []
    && PositionsOk(win.cells, |grid[0]|)
    && PathAwardsOk(win, grid)
  }

  predicate EventFieldsOk(e: Event, rows: int) {
    && 0 <= e.count && 0 <= e.multiplier && 0 <= e.amount && 0 <= e.cumulative && 0 <= e.awarded
    && 0 <= e.rows && 0 <= e.ways && 0 <= e.level && 0 <= e.total && 0 <= e.step
    && 0 <= e.fromMultiplier && 0 <= e.toMultiplier
    && (e.amount != 0 ==> IsMonetary(e.kind))
    && PositionsOk(e.cells, rows)
    && (IsVaultCellEvent(e.kind) ==> e.reel == 1 && 0 <= e.row < rows)
  }

  function PaidBefore(wins: seq<Win>, n: nat): int
    requires n <= |wins|
  {
    if n == 0 then 0 else PaidBefore(wins, n - 1) + wins[n - 1].paid
  }

  /** The visible awards are the total. */
  predicate TotalOk(o: Outcome) {
    0 <= PaidBefore(o.wins, |o.wins|) + EventSum(o.events) == o.total <= MAX_INT64
  }

  /** The shape of the state carried to the next spin. */
  predicate NextShapeOk(next: FeatureState, bet: int) {
    var state := next.Canonical();
    && DEFAULT_RAGE_LEVEL <= state.rageLevel <= MAX_RAGE_COLLECTED
    && 0 <= state.rageCollected <= MAX_RAGE_COLLECTED
    && (state.rageCollected == 0 ==> state.rageLevel == DEFAULT_RAGE_LEVEL)
    && if !state.Active() then
         state.mode == Base && state.remaining == 0 && state.awarded == 0 && state.bet == 0 && state.win == 0
       else
         && (state.mode == Expansion || state.mode == Overdrive)
         && 1 <= state.remaining <= state.awarded <= MAX_FEATURE_SPINS
         && state.bet == bet && bet > 0 && state.win >= 0
  }

  // --- Cap and expansion events ---

  predicate HasWinCap(events: seq<Event>) {
    |Indexes(events, WinCapReached)| == 1
  }

  predicate WinCapEventOk(input: SpinInput, o: Outcome) {
    var at := Indexes(o.events, WinCapReached);
    && |at| <= 1
    && (|at| == 1 && 0 <= at[0] < |o.events| ==>
          var e := o.events[at[0]];
          && 0 < e.multiplier && 0 <= input.bet && input.bet * e.multiplier <= MAX_INT64
          && e == Bare(WinCapReached).(multiplier := e.multiplier, cumulative := input.bet * e.multiplier)
          && 0 <= PriorWin(input) && 0 <= o.total && PriorWin(input) + o.total == input.bet * e.multiplier
          && (at[0] == |o.events| - 1 ||
              (Indexes(o.events, FreeSpinsCompleted) == [|o.events| - 1] && at[0] == |o.events| - 2)))
  }

  predicate ExpansionEventsOk(f: FeatureState, o: Outcome)
    requires GridOk(o.grid)
  {
    var at := Indexes(o.events, GridExpanded);
    var rows := |o.grid[0]|;
    if f.mode != Expansion then at == [] && rows == 3
    else at == [0] && o.events != [] && o.events[0].rows == rows && o.events[0].ways == rows * rows * rows
  }

  // --- Vault events ---

  predicate VaultGroup(e: Event, positions: seq<Position>) {
    e.count == |positions| && e.cells == positions
  }

  function VaultEventCount(events: seq<Event>, n: nat): int
    requires n <= |events|
  {
    if n == 0 then 0 else VaultEventCount(events, n - 1) + if IsVaultEvent(events[n - 1].kind) then 1 else 0
  }

  predicate Occurs(events: seq<Event>, kind: EventKind, p: Position) {
    exists i :: 0 <= i < |events| && events[i].kind == kind && events[i].Pos() == p
  }

  /** Kinds of which each Vault cell has at most one event. */
  predicate SameFamily(a: EventKind, b: EventKind) {
    || (a.VaultUnlocked? && b.VaultUnlocked?)
    || (a.VaultAwarded? && b.VaultAwarded?)
    || ((a.FreeSpinAwarded? || a.FreeSpinCapReached?) && (b.FreeSpinAwarded? || b.FreeSpinCapReached?))
  }

  predicate OncePerCell(events: seq<Event>) {
    forall i, j :: 0 <= i < j < |events| && SameFamily(events[i].kind, events[j].kind) ==> events[i].Pos() != events[j].Pos()
  }

  /** Where an event of an unlock sequence running from s to c may stand, and what it must carry. */
  predicate VaultEventOk(mode: FeatureMode, e: Event, i: int, positions: seq<Position>, s: int, c: int) {
    match e.kind
    case VaultUnlocked => s < i < c && e.Pos() in positions && e.prize != NoPrize
    case VaultAwarded =>
      && e.Pos() in positions && 0 < e.multiplier && 0 <= e.amount && e.prize != NoPrize
      && if mode == Overdrive then c < i else s < i < c
    case FreeSpinAwarded => mode == Expansion && e.Pos() in positions && s < i < c && e.count == 1
    case FreeSpinCapReached => mode == Expansion && e.Pos() in positions && s < i < c
    case VaultUpgraded => mode == Overdrive && c < i
    case VaultsUpgradeStarted => mode == Overdrive && c < i
    case _ => true
  }

  predicate VaultEventsPlaced(mode: FeatureMode, events: seq<Event>, positions: seq<Position>, s: int, c: int) {
    && (forall i :: 0 <= i < |events| ==> VaultEventOk(mode, events[i], i, positions, s, c))
    && OncePerCell(events)
    && (forall p :: p in positions ==> Occurs(events, VaultUnlocked, p))
  }

  /** A paid Vault: reveal, award and cell agree, and less is paid only at the cap. */
  predicate PayableOk(bet: int, shown: Event, award: Event, cell: Cell, capped: bool) {
    && 0 <= bet && bet * award.multiplier <= MAX_INT64
    && shown.prize == award.prize && shown.multiplier == award.multiplier && 0 < shown.multiplier
    && award.prize == VaultPrize(award.multiplier, false)
    && (award.amount == bet * award.multiplier || capped)
    && award.amount <= bet * award.multiplier
    && cell.multiplier == award.multiplier && cell.prize == award.prize
  }

  predicate FreeRevealOk(shown: Event, cell: Cell) {
    shown.prize == FreeSpinPrize && shown.multiplier == 0 && cell.prize == FreeSpinPrize && cell.multiplier == 0
  }

  /** The cell at a position; outside the grid there is only a blank. */
  function CellAt(grid: Grid, p: Position): Cell {
    if OnGrid(grid, p) then grid[p.reel][p.row] else Cell(Surge, 0, NoPrize)
  }

  predicate FreeAt(events: seq<Event>, p: Position) {
    Occurs(events, FreeSpinAwarded, p) || Occurs(events, FreeSpinCapReached, p)
  }

  predicate FinalResultOk(bet: int, o: Outcome, p: Position) {
    var cell, capped := CellAt(o.grid, p), HasWinCap(o.events);
    && Occurs(o.events, VaultAwarded, p) != FreeAt(o.events, p)
    && (forall i, j :: 0 <= i < |o.events| && 0 <= j < |o.events| &&
                       o.events[i].kind.VaultUnlocked? && o.events[i].Pos() == p &&
                       o.events[j].kind.VaultAwarded? && o.events[j].Pos() == p ==>
          PayableOk(bet, o.events[i], o.events[j], cell, capped))
    && (FreeAt(o.events, p) ==>
          forall i :: 0 <= i < |o.events| && o.events[i].kind.VaultUnlocked? && o.events[i].Pos() == p ==>
            FreeRevealOk(o.events[i], cell))
  }

  predicate UnlockKind(kind: EventKind) {
    kind.VaultUnlocked? || kind.VaultAwarded? || kind.FreeSpinAwarded? || kind.FreeSpinCapReached?
  }

  // --- King Spin upgrade chains ---

  /** The progress of a chain check: the next step number, the open group, and each cell's multiplier. */
  datatype Chain =
    | Chain(next: int, active: int, count: int, seen: set<Position>, current: map<Position, int>)
    | Broken

  predicate GroupClosed(st: Chain) {
    st.Chain? && (st.active != 0 ==> st.count == |st.seen|)
  }

  function ChainStep(st: Chain, e: Event): Chain {
    if st.Broken? then Broken
    else
      match e.kind
      case VaultsUpgradeStarted =>
        if GroupClosed(st) && e.step == st.next && 0 < e.count
        then Chain(st.next + 1, e.step, e.count, {}, st.current) else Broken
      case VaultUpgraded =>
        if && st.active != 0 && e.step == st.active && e.Pos() in st.current
           && e.fromMultiplier == st.current[e.Pos()] && e.fromMultiplier < e.toMultiplier
           && e.prize == VaultPrize(e.toMultiplier, true) && e.Pos() !in st.seen
        then st.(seen := st.seen + {e.Pos()}, current := st.current[e.Pos() := e.toMultiplier]) else Broken
      case _ => Broken
  }

  /** The chain state after the events from `from` up to n. */
  function ChainTo(events: seq<Event>, start: Chain, from: nat, n: nat): Chain
    requires from <= n <= |events|
  {
    if n == from then start else ChainStep(ChainTo(events, start, from, n - 1), events[n - 1])
  }

  /** The multiplier first revealed in a cell. */
  function RevealedTo(events: seq<Event>, p: Position, n: nat): int
    requires n <= |events|
  {
    if n == 0 then 0
    else if events[n - 1].kind == VaultUnlocked && events[n - 1].Pos() == p then events[n - 1].multiplier
    else RevealedTo(events, p, n - 1)
  }

  function ChainStart(events: seq<Event>, positions: seq<Position>): Chain {
    Chain(1, 0, 0, {}, map p | p in positions :: RevealedTo(events, p, |events|))
  }

  /** Where the first event of a kind stands, or the length when there is none. */
  function FirstAt(events: seq<Event>, kind: EventKind): (at: nat)
    ensures at <= |events|
    ensures at < |events| ==> events[at].kind == kind
    ensures forall i :: 0 <= i < at ==> events[i].kind != kind
  {
    if events == [] then 0
    else
      var before := FirstAt(events[..|events| - 1], kind);
      if before < |events| - 1 then before
      else if events[|events| - 1].kind == kind then |events| - 1 else |events|
  }

  predicate KingRevealOk(e: Event) {
    e.kind.VaultUnlocked? ==> 0 < e.multiplier && e.prize == VaultPrize(e.multiplier, true)
  }

  predicate KingAwardOk(bet: int, award: Event, multiplier: int, cell: Cell, capped: bool) {
    && 0 <= bet && 0 <= award.multiplier && bet * award.multiplier <= MAX_INT64
    && award.multiplier == multiplier && award.prize == VaultPrize(multiplier, true)
    && (award.amount == bet * award.multiplier || capped)
    && award.amount <= bet * award.multiplier
    && cell.multiplier == award.multiplier && cell.prize == award.prize
  }

  predicate ClosingKind(kind: EventKind) {
    kind.VaultAwarded? || kind.WinCapReached? || kind.FreeSpinsCompleted?
  }

  predicate KingEventsOk(bet: int, o: Outcome, positions: seq<Position>, c: int)
    requires 0 <= c < |o.events|
  {
    var events, first := o.events, FirstAt(o.events, VaultAwarded);
    && (forall p :: p in positions ==> Occurs(events, VaultAwarded, p))
    && (forall i :: 0 <= i < |events| ==> KingRevealOk(events[i]))
    && c < first
    && (forall i :: first <= i < |events| ==> ClosingKind(events[i].kind))
    && var final := ChainTo(events, ChainStart(events, positions), c + 1, first);
       && GroupClosed(final)
       && forall i :: 0 <= i < |events| && events[i].kind.VaultAwarded? && events[i].Pos() in positions &&
                      events[i].Pos() in final.current ==>
            KingAwardOk(bet, events[i], final.current[events[i].Pos()],
                        CellAt(o.grid, events[i].Pos()), HasWinCap(events))
  }

  predicate LockedOk(mode: FeatureMode, o: Outcome, positions: seq<Position>, landed: int)
    requires 0 <= landed < |o.events|
  {
    && mode != Overdrive && Indexes(o.events, VaultsLocked) == [landed + 1]
    && landed + 1 < |o.events| && VaultGroup(o.events[landed + 1], positions)
    && Indexes(o.events, VaultsUnlockStarted) == [] && Indexes(o.events, VaultsUnlockCompleted) == []
    && VaultEventCount(o.events, |o.events|) == 2
    && forall p :: p in positions ==> CellAt(o.grid, p).multiplier == 0 && CellAt(o.grid, p).prize == NoPrize
  }

  predicate UnlockedOk(mode: FeatureMode, bet: int, o: Outcome, positions: seq<Position>, landed: int)
    requires 0 <= landed < |o.events|
  {
    var s, ends := landed + 1, Indexes(o.events, VaultsUnlockCompleted);
    && Indexes(o.events, VaultsLocked) == []
    && Indexes(o.events, VaultsUnlockStarted) == [s] && |ends| == 1
    && s < ends[0] < |o.events|
    && VaultGroup(o.events[s], positions) && VaultGroup(o.events[ends[0]], positions)
    && VaultEventsPlaced(mode, o.events, positions, s, ends[0])
    && if mode == Overdrive then KingEventsOk(bet, o, positions, ends[0])
       else
         && (forall p :: p in positions ==> FinalResultOk(bet, o, p))
         && (forall i :: s < i < ends[0] ==> UnlockKind(o.events[i].kind))
  }

  /** Vault events tell exactly what the Vaults of the final grid paid. */
  predicate VaultEventsOk(f: FeatureState, bet: int, o: Outcome) {
    var positions := PositionsFor(o.grid, Vault);
    if positions == [] then VaultEventCount(o.events, |o.events|) == 0
    else
      var landed := if f.mode == Expansion then 1 else 0;
      && Indexes(o.events, VaultsLanded) == [landed] && landed < |o.events|
      && VaultGroup(o.events[landed], positions)
      && if |Indexes(o.events, VaultsLocked)| == 1 then LockedOk(f.mode, o, positions, landed)
         else UnlockedOk(f.mode, bet, o, positions, landed)
  }

  // --- Rage meter, wheel and feature counters ---

  /** Rage and wheel events belong to base spins that settled one to three Surge symbols. */
  predicate RageAndWheelOk(f: FeatureState, bet: int, o: Outcome) {
    var surges := PositionsFor(o.grid, Surge);
    var collected, transformed := Indexes(o.events, SurgeCollected), Indexes(o.events, RageTransformed);
    var started, awarded := Indexes(o.events, WheelStarted), Indexes(o.events, WheelAwarded);
    var freeStarted := Indexes(o.events, FreeSpinsStarted);
    var silent := transformed == [] && started == [] && awarded == [] && freeStarted == [];
    if f.Active() then surges == [] && collected == [] && silent
    else if surges == [] then
      collected == [] && silent && o.next.rageCollected == f.rageCollected && o.next.rageLevel == f.rageLevel
    else
      && |surges| <= 3 && |collected| == 1 && 0 <= collected[0] < |o.events|
      && CollectionOk(f, surges, o.events[collected[0]])
      && if !o.events[collected[0]].triggered then
           silent && o.next.rageCollected == Credited(f, |surges|) && o.next.rageLevel == o.events[collected[0]].level
         else TriggeredOk(f, bet, o, surges, collected[0], transformed, started, awarded, freeStarted)
  }

  /** A triggered collection leads through its transformation to one wheel award. */
  predicate TriggeredOk(f: FeatureState, bet: int, o: Outcome, surges: seq<Position>, c: int, transformed: seq<int>,
                        started: seq<int>, awarded: seq<int>, freeStarted: seq<int>)
    requires 0 <= c < |o.events|
  {
    && |started| == 1 && |awarded| == 1 && c < started[0] < awarded[0] < |o.events|
    && (if |surges| < 3 then
          && |transformed| == 1 && c < transformed[0] < started[0]
          && TransformOk(surges, o.events[c], o.events[transformed[0]])
          && o.next.rageLevel == DEFAULT_RAGE_LEVEL && o.next.rageCollected == 0
        else
          transformed == [] && o.next.rageLevel == f.rageLevel && o.next.rageCollected == f.rageCollected)
    && WheelAwardOk(bet, o, o.events[awarded[0]], awarded[0], freeStarted)
  }

  /** The Rage count after a spin that settled n symbols without triggering. */
  function Credited(f: FeatureState, n: int): int {
    if n < 3 then f.rageCollected + n else f.rageCollected
  }

  predicate CollectionOk(f: FeatureState, surges: seq<Position>, e: Event) {
    && (|surges| < 3 ==> f.rageCollected <= MAX_RAGE_COLLECTED - |surges|)
    && e.count == |surges| && e.cells == surges && e.guaranteed == (|surges| == 3)
    && DEFAULT_RAGE_LEVEL <= e.level
    && (|surges| == 3 ==> e.triggered && e.level == f.rageLevel && e.total == f.rageCollected)
    && (|surges| < 3 && e.triggered ==> e.level == DEFAULT_RAGE_LEVEL && e.total == 0)
    && (|surges| < 3 && !e.triggered ==> e.total == Credited(f, |surges|))
  }

  predicate TransformOk(surges: seq<Position>, collection: Event, e: Event) {
    && e.count == 3 - |surges| && |e.cells| == e.count
    && e.level == collection.level && e.total == collection.total
    && forall i :: 0 <= i < |e.cells| ==> e.cells[i] !in surges
  }

  predicate WheelAwardOk(bet: int, o: Outcome, award: Event, at: int, freeStarted: seq<int>) {
    match award.outcome
    case Instant =>
      && 0 <= bet && 0 < award.multiplier && bet * award.multiplier <= MAX_INT64
      && !o.next.Active() && freeStarted == []
      && award.prize != NoPrize && award.prize == VaultPrize(award.multiplier, false)
      && award.amount <= bet * award.multiplier
      && (award.amount == bet * award.multiplier || HasWinCap(o.events))
    case OtherWheel(_) => false
    case NoWheel => false
    case _ =>
      && o.next.Active() && o.next.mode == ModeOf(award.outcome)
      && award.multiplier == 0 && award.amount == 0
      && |freeStarted| == 1 && 0 <= at < freeStarted[0] < |o.events|
      && o.events[freeStarted[0]].mode == ModeOf(award.outcome)
      && o.events[freeStarted[0]].awarded == INITIAL_FREE_SPINS == o.next.awarded == o.next.remaining
  }

  /** The free spins that the first n events award; a negative result marks an award of none. */
  function FreeSpinsAwarded(events: seq<Event>, n: nat): int
    requires n <= |events|
  {
    if n == 0 then 0
    else FreeSpinsAwarded(events, n - 1) + if events[n - 1].kind == FreeSpinAwarded then events[n - 1].count else 0
  }

  predicate FreeAwardsPositive(events: seq<Event>) {
    forall i :: 0 <= i < |events| && events[i].kind == FreeSpinAwarded ==> events[i].count > 0
  }

  /** The counters, the carried win and the completion event of a feature agree. */
  predicate FeatureCompletionOk(f: FeatureState, o: Outcome) {
    var completed := Indexes(o.events, FreeSpinsCompleted);
    if !f.Active() then completed == [] && (o.next.Active() ==> o.next.win == o.total)
    else
      var extra := FreeSpinsAwarded(o.events, |o.events|);
      var win, remaining, awarded := f.win + o.total, f.remaining - 1 + extra, f.awarded + extra;
      && 0 <= f.win && 0 <= o.total && win <= MAX_INT64
      && FreeAwardsPositive(o.events)
      && (extra > 0 ==> remaining <= MAX_FEATURE_SPINS && awarded <= MAX_FEATURE_SPINS)
      && o.next.rageLevel == f.rageLevel && o.next.rageCollected == f.rageCollected
      && if o.next.Active() then
           && completed == [] && o.next.mode == f.mode && o.next.bet == f.bet && o.next.win == win
           && 1 <= remaining == o.next.remaining && o.next.awarded == awarded
         else
           && remaining == 0 && completed == [|o.events| - 1] && o.events != []
           && var e := o.events[|o.events| - 1];
              e.mode == f.mode && e.awarded == awarded && e.cumulative == win
  }

  // --- The whole validator ---

  /** Every rule that needs no definition. */
  predicate StructureOk(input: SpinInput, o: Outcome) {
    var f := input.feature.Canonical();
    && GridOk(o.grid)
    && (forall i :: 0 <= i < |o.wins| ==> WinOk(o.wins[i], o.grid))
    && (forall i :: 0 <= i < |o.events| ==> EventFieldsOk(o.events[i], |o.grid[0]|))
    && TotalOk(o)
    && NextShapeOk(o.next, input.bet)
    && WinCapEventOk(input, o)
    && ExpansionEventsOk(f, o)
    && VaultEventsOk(f, input.bet, o)
    && RageAndWheelOk(f, input.bet, o)
    && FeatureCompletionOk(f, o)
  }

  predicate HasNominal(e: Event) {
    e.kind == VaultAwarded || (e.kind == WheelAwarded && e.outcome == Instant)
  }

  /** What an event awards before the cap. */
  function Nominal(bet: int, e: Event): int {
    if HasNominal(e) then bet * e.multiplier else 0
  }

  function NominalBefore(bet: int, events: seq<Event>, n: nat): int
    requires n <= |events|
  {
    if n == 0 then 0 else NominalBefore(bet, events, n - 1) + Nominal(bet, events[n - 1])
  }

  function NominalSum(bet: int, events: seq<Event>): int {
    NominalBefore(bet, events, |events|)
  }

  predicate ShareOk(bet: int, events: seq<Event>, i: int, budget: int)
    requires 0 <= i < |events|
  {
    HasNominal(events[i]) ==>
      && 0 <= events[i].multiplier && Nominal(bet, events[i]) <= MAX_INT64
      && events[i].amount == Share(NominalBefore(bet, events, i), Nominal(bet, events[i]), budget)
  }

  /** Each event award is its nominal award, clipped to what the earlier ones leave of the budget. */
  predicate SharesOk(bet: int, events: seq<Event>, budget: int) {
    forall i :: 0 <= i < |events| ==> ShareOk(bet, events, i, budget)
  }

  /** Every award is recomputed from the grid and the definition, and clipped in order to the budget. */
  predicate CappedAwardsOk(c: Config, input: SpinInput, o: Outcome, raw: seq<Win>) {
    var budget, ways, nominal := Budget(c, input), WinSum(raw), NominalSum(input.bet, o.events);
    var notices := Indexes(o.events, WinCapReached);
    && 0 <= input.bet && 0 <= c.maxWin && GameCap(c, input) <= MAX_INT64
    && 0 <= PriorWin(input) <= GameCap(c, input)
    && o.wins == ProjectedWins(raw, budget)
    && SharesOk(input.bet, o.events, budget - Min(budget, ways))
    && ways + nominal <= MAX_INT64
    && o.total == Min(budget, ways + nominal)
    && ((ways + nominal > 0 && ways + nominal >= budget) <==> |notices| == 1)
    && (|notices| == 1 && 0 <= notices[0] < |o.events| ==>
          o.events[notices[0]].multiplier == c.maxWin && o.events[notices[0]].cumulative == GameCap(c, input))
  }

  /** The validator of an outcome against its definition. */
  predicate OutcomeOk(c: Config, input: SpinInput, o: Outcome)
    requires c.bet.step != 0 && c.bet.payUnit > 0 && PaysAll(c.paytable)
  {
    && BetOk(c, input.bet)
    && StructureOk(input, o)
    && input.bet > 0 && WaysFit(o.grid, c.paytable, input.bet, c.bet.payUnit)
    && CappedAwardsOk(c, input, o, WinsForBet(o.grid, c.paytable, input.bet, c.bet.payUnit))
  }
}
