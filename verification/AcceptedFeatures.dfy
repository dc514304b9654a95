/** What an accepted outcome guarantees about the state it carries on, whoever made it: counters, Rage meter and wheel. */
module AcceptedFeatures {
  import opened Money
  import opened GameTypes
  import opened Grids
  import opened Ways
  import opened WaysForBet
  import opened GameConfig
  import opened WinCap
  import opened OutcomeRules
  import opened AcceptedVaults
  import opened AcceptedUpgrades
  import opened WaysEvaluation
  import opened WaysMeaning

  // --- Counting free spins ---

  /** How many events of a kind are among the first n. */
  function Told(events: seq<Event>, kind: EventKind, n: nat): nat
    requires n <= |events|
  {
    if n == 0 then 0 else Told(events, kind, n - 1) + if events[n - 1].kind == kind then 1 else 0
  }

  lemma {:induction false} CountsAreOne(events: seq<Event>, n: nat)
    requires n <= |events| && forall i :: 0 <= i < n && events[i].kind == FreeSpinAwarded ==> events[i].count == 1
    ensures FreeSpinsAwarded(events, n) == Told(events, FreeSpinAwarded, n)
  {
    if n > 0 {
      CountsAreOne(events, n - 1);
    }
  }

  /** Each award of an accepted outcome is of one free spin. */
  lemma AwardsOfOne(f: FeatureState, bet: int, o: Outcome)
    requires VaultEventsOk(f, bet, o)
    ensures FreeSpinsAwarded(o.events, |o.events|) == Told(o.events, FreeSpinAwarded, |o.events|)
  {
    var positions := PositionsFor(o.grid, Vault);
    forall i | 0 <= i < |o.events|
      ensures o.events[i].kind == FreeSpinAwarded ==> o.events[i].count == 1
    {
      if positions == [] {
        NothingCounted(o.events, i);
      } else if |Indexes(o.events, VaultsLocked)| == 1 {
        NoAwardLocked(f, bet, o, i);
      } else {
        var landed := if f.mode == Expansion then 1 else 0;
        assert VaultEventOk(f.mode, o.events[i], i, positions, landed + 1, Indexes(o.events, VaultsUnlockCompleted)[0]);
      }
    }
    CountsAreOne(o.events, |o.events|);
  }

  lemma NoAwardLocked(f: FeatureState, bet: int, o: Outcome, i: nat)
    requires VaultEventsOk(f, bet, o) && PositionsFor(o.grid, Vault) != [] && |Indexes(o.events, VaultsLocked)| == 1
    requires i < |o.events|
    ensures o.events[i].kind != FreeSpinAwarded
  {
    var landed := if f.mode == Expansion then 1 else 0;
    IndexesOne(o.events, VaultsLanded, landed);
    IndexesOne(o.events, VaultsLocked, landed + 1);
    if IsVaultEvent(o.events[i].kind) {
      OnlyTwo(o.events, landed, i);
    }
  }

  // --- A free spin ---

  /** No event of the base game. */
  predicate NoBaseEvents(events: seq<Event>) {
    forall i :: 0 <= i < |events| ==>
      events[i].kind !in {SurgeCollected, RageTransformed, WheelStarted, WheelAwarded, FreeSpinsStarted}
  }

  /** A free spin takes one from the spins left and adds those that its events award; the game goes on while any are left,
      carrying what it has won, and ends with one closing event that says how many it had and what they paid. */
  predicate FreeSpinTold(f: FeatureState, o: Outcome) {
    var extra := Told(o.events, FreeSpinAwarded, |o.events|);
    && (o.next.Active() <==> f.remaining - 1 + extra > 0)
    && o.next.rageLevel == f.rageLevel && o.next.rageCollected == f.rageCollected
    && NoBaseEvents(o.events)
    && if o.next.Active() then
         && o.next == FeatureState(f.mode, f.remaining - 1 + extra, f.awarded + extra, f.bet, f.win + o.total, f.rageLevel, f.rageCollected)
         && Absent(o.events, FreeSpinsCompleted)
       else
         && f.remaining - 1 + extra == 0
         && OnlyAt(o.events, FreeSpinsCompleted, |o.events| - 1)
         && o.events[|o.events| - 1].mode == f.mode
         && o.events[|o.events| - 1].awarded == f.awarded + extra
         && o.events[|o.events| - 1].cumulative == f.win + o.total
  }

  lemma BaseEventsAbsent(f: FeatureState, bet: int, o: Outcome)
    requires RageAndWheelOk(f, bet, o) && (f.Active() || PositionsFor(o.grid, Surge) == [])
    ensures NoBaseEvents(o.events)
  {
    IndexesNone(o.events, SurgeCollected);
    IndexesNone(o.events, RageTransformed);
    IndexesNone(o.events, WheelStarted);
    IndexesNone(o.events, WheelAwarded);
    IndexesNone(o.events, FreeSpinsStarted);
  }

  lemma CompletionTold(f: FeatureState, o: Outcome)
    requires FeatureCompletionOk(f, o) && f.Active()
    requires FreeSpinsAwarded(o.events, |o.events|) == Told(o.events, FreeSpinAwarded, |o.events|) && NoBaseEvents(o.events)
    ensures FreeSpinTold(f, o)
  {
    IndexesNone(o.events, FreeSpinsCompleted);
    IndexesOne(o.events, FreeSpinsCompleted, |o.events| - 1);
  }

  /** The state after an accepted free spin. */
  lemma AcceptedFreeSpin(input: SpinInput, o: Outcome)
    requires StructureOk(input, o)
    requires input.feature.Canonical().Active()
    ensures FreeSpinTold(input.feature.Canonical(), o)
    ensures Rests(o.next) || o.next.Active()
    ensures PositionsFor(o.grid, Surge) == []
  {
    var f := input.feature.Canonical();
    StructureGives(input, o);
    BaseEventsAbsent(f, input.bet, o);
    AwardsOfOne(f, input.bet, o);
    CompletionTold(f, o);
    if !o.next.Active() {
      NextRests(o.next, input.bet);
    }
  }

  // --- A base spin ---

  /** Without Surge nothing of the meter changes, and no event tells of it. */
  predicate NothingSettled(f: FeatureState, o: Outcome) {
    NoBaseEvents(o.events) && o.next.rageLevel == f.rageLevel && o.next.rageCollected == f.rageCollected
  }

  /** One collection event names the settled cells. */
  predicate CollectionTold(surges: seq<Position>, e: Event) {
    e.count == |surges| && e.cells == surges && e.guaranteed == (|surges| == 3) && (|surges| == 3 ==> e.triggered)
  }

  /** A collection that does not trigger credits its symbols. */
  predicate QuietTold(f: FeatureState, o: Outcome, n: int, e: Event) {
    && n < 3 && !e.triggered
    && o.next.rageCollected == e.total == f.rageCollected + n <= MAX_RAGE_COLLECTED
    && o.next.rageLevel == e.level
    && Absent(o.events, RageTransformed) && Absent(o.events, WheelStarted) && Absent(o.events, WheelAwarded)
    && Absent(o.events, FreeSpinsStarted)
  }

  /** A trigger of one or two symbols makes them three and empties the meter; three of them leave both alone. */
  predicate TriggerTold(f: FeatureState, o: Outcome, surges: seq<Position>, i: int, start: int)
    requires 0 <= i < |o.events|
  {
    if |surges| == 3 then
      && Absent(o.events, RageTransformed)
      && o.next.rageLevel == o.events[i].level == f.rageLevel && o.next.rageCollected == o.events[i].total == f.rageCollected
    else
      && o.next.rageLevel == o.events[i].level == DEFAULT_RAGE_LEVEL && o.next.rageCollected == o.events[i].total == 0
      && exists t :: OnlyAt(o.events, RageTransformed, t) && i < t < start && MadeThree(surges, o.events[t])
  }

  predicate MadeThree(surges: seq<Position>, e: Event) {
    && e.count == |e.cells| == 3 - |surges| && Distinct(e.cells)
    && forall k :: 0 <= k < |e.cells| ==> e.cells[k] !in surges
  }

  /** The wheel pays at once, or starts eight free spins of its feature. */
  predicate WheelTold(bet: int, o: Outcome, w: int)
    requires 0 <= w < |o.events|
  {
    var award := o.events[w];
    match award.outcome
    case Instant =>
      && !o.next.Active() && Absent(o.events, FreeSpinsStarted)
      && 0 < award.multiplier && award.prize == VaultPrize(award.multiplier, false) && award.prize != NoPrize
      && award.amount <= bet * award.multiplier && (award.amount == bet * award.multiplier || Any(o.events, WinCapReached))
    case ExpansionWheel => FeatureTold(o, Expansion, award, w)
    case OverdriveWheel => FeatureTold(o, Overdrive, award, w)
    case _ => false
  }

  predicate FeatureTold(o: Outcome, mode: FeatureMode, award: Event, w: int) {
    && award.multiplier == 0 && award.amount == 0
    && o.next.mode == mode && o.next.remaining == o.next.awarded == 8
    && exists k :: w < k < |o.events| && OnlyAt(o.events, FreeSpinsStarted, k) && o.events[k].mode == mode && o.events[k].awarded == 8
  }

  /** A collection that triggers leads to one wheel award. */
  ghost predicate SpunTold(f: FeatureState, bet: int, o: Outcome, surges: seq<Position>, i: int)
    requires 0 <= i < |o.events|
  {
    exists s, w :: && OnlyAt(o.events, WheelStarted, s) && OnlyAt(o.events, WheelAwarded, w) && i < s < w
                   && TriggerTold(f, o, surges, i, s) && WheelTold(bet, o, w)
  }

  ghost predicate CollectedTold(f: FeatureState, bet: int, o: Outcome, surges: seq<Position>, i: int) {
    && OnlyAt(o.events, SurgeCollected, i) && CollectionTold(surges, o.events[i])
    && if o.events[i].triggered then SpunTold(f, bet, o, surges, i) else QuietTold(f, o, |surges|, o.events[i])
  }

  /** What a base spin tells of its Surge symbols. */
  ghost predicate SurgesTold(f: FeatureState, bet: int, o: Outcome, surges: seq<Position>) {
    && |surges| <= 3
    && if surges == [] then NothingSettled(f, o) else exists i :: CollectedTold(f, bet, o, surges, i)
  }

  lemma OneIndex(events: seq<Event>, kind: EventKind)
    requires |Indexes(events, kind)| == 1
    ensures OnlyAt(events, kind, Indexes(events, kind)[0])
  {
    var at := Indexes(events, kind);
    assert at == [at[0]];
    IndexesOne(events, kind, at[0]);
  }

  lemma WheelAccepted(bet: int, o: Outcome, w: int)
    requires 0 <= w < |o.events| && WheelAwardOk(bet, o, o.events[w], w, Indexes(o.events, FreeSpinsStarted))
    ensures WheelTold(bet, o, w)
  {
    IndexesNone(o.events, FreeSpinsStarted);
    if o.events[w].outcome.Instant? {
      if HasWinCap(o.events) {
        CapTold(o);
      }
    } else {
      OneIndex(o.events, FreeSpinsStarted);
    }
  }

  lemma QuietAccepted(f: FeatureState, bet: int, o: Outcome, surges: seq<Position>, i: nat)
    requires RageAndWheelOk(f, bet, o) && !f.Active() && surges == PositionsFor(o.grid, Surge) && surges != []
    requires Indexes(o.events, SurgeCollected) == [i] && i < |o.events| && !o.events[i].triggered
    ensures CollectionTold(surges, o.events[i]) && QuietTold(f, o, |surges|, o.events[i])
  {
    IndexesNone(o.events, RageTransformed);
    IndexesNone(o.events, WheelStarted);
    IndexesNone(o.events, WheelAwarded);
    IndexesNone(o.events, FreeSpinsStarted);
  }

  lemma TriggerAccepted(f: FeatureState, bet: int, o: Outcome, surges: seq<Position>, i: nat)
    requires RageAndWheelOk(f, bet, o) && !f.Active() && surges == PositionsFor(o.grid, Surge) && surges != []
    requires Indexes(o.events, SurgeCollected) == [i] && i < |o.events| && o.events[i].triggered
    requires forall k :: 0 <= k < |o.events| ==> Distinct(o.events[k].cells)
    ensures |Indexes(o.events, WheelStarted)| == 1 && |Indexes(o.events, WheelAwarded)| == 1
    ensures var s, w := Indexes(o.events, WheelStarted)[0], Indexes(o.events, WheelAwarded)[0];
            i < s < w < |o.events| && CollectionTold(surges, o.events[i]) && TriggerTold(f, o, surges, i, s) && WheelTold(bet, o, w)
  {
    var w := Indexes(o.events, WheelAwarded)[0];
    WheelAccepted(bet, o, w);
    IndexesNone(o.events, RageTransformed);
    if |surges| < 3 {
      OneIndex(o.events, RageTransformed);
    }
  }

  lemma SpinAccepted(f: FeatureState, bet: int, o: Outcome, surges: seq<Position>, i: nat)
    requires RageAndWheelOk(f, bet, o) && !f.Active() && surges == PositionsFor(o.grid, Surge) && surges != []
    requires Indexes(o.events, SurgeCollected) == [i] && i < |o.events| && o.events[i].triggered
    requires forall k :: 0 <= k < |o.events| ==> Distinct(o.events[k].cells)
    ensures CollectionTold(surges, o.events[i]) && SpunTold(f, bet, o, surges, i)
  {
    TriggerAccepted(f, bet, o, surges, i);
    OneIndex(o.events, WheelStarted);
    OneIndex(o.events, WheelAwarded);
  }

  lemma CollectionFound(f: FeatureState, bet: int, o: Outcome, surges: seq<Position>) returns (i: nat)
    requires RageAndWheelOk(f, bet, o) && !f.Active() && surges == PositionsFor(o.grid, Surge) && surges != []
    ensures |surges| <= 3 && Indexes(o.events, SurgeCollected) == [i] && i < |o.events| && OnlyAt(o.events, SurgeCollected, i)
  {
    i := Indexes(o.events, SurgeCollected)[0];
    OneIndex(o.events, SurgeCollected);
    assert Indexes(o.events, SurgeCollected) == [i];
  }

  lemma SurgesAccepted(f: FeatureState, bet: int, o: Outcome, surges: seq<Position>)
    requires RageAndWheelOk(f, bet, o) && !f.Active() && surges == PositionsFor(o.grid, Surge)
    requires forall k :: 0 <= k < |o.events| ==> Distinct(o.events[k].cells)
    ensures SurgesTold(f, bet, o, surges)
  {
    if surges == [] {
      NothingAccepted(f, bet, o);
    } else {
      var i := CollectionFound(f, bet, o, surges);
      if o.events[i].triggered {
        SpinAccepted(f, bet, o, surges, i);
      } else {
        QuietAccepted(f, bet, o, surges, i);
      }
      assert CollectedTold(f, bet, o, surges, i);
    }
  }

  lemma NothingAccepted(f: FeatureState, bet: int, o: Outcome)
    requires RageAndWheelOk(f, bet, o) && !f.Active() && PositionsFor(o.grid, Surge) == []
    ensures NothingSettled(f, o)
  {
    BaseEventsAbsent(f, bet, o);
  }

  lemma StructureGives(input: SpinInput, o: Outcome)
    requires StructureOk(input, o)
    ensures var f := input.feature.Canonical();
            && RageAndWheelOk(f, input.bet, o) && FeatureCompletionOk(f, o) && VaultEventsOk(f, input.bet, o)
            && NextShapeOk(o.next, input.bet)
    ensures forall k :: 0 <= k < |o.events| ==> Distinct(o.events[k].cells)
  {
    forall k | 0 <= k < |o.events|
      ensures Distinct(o.events[k].cells)
    {
      assert EventFieldsOk(o.events[k], |o.grid[0]|);
    }
  }

  lemma BaseCompletion(f: FeatureState, o: Outcome)
    requires FeatureCompletionOk(f, o) && !f.Active()
    ensures Absent(o.events, FreeSpinsCompleted) && (o.next.Active() ==> o.next.win == o.total)
  {
    IndexesNone(o.events, FreeSpinsCompleted);
  }

  /** The meter, the wheel and the state after an accepted base spin. */
  lemma AcceptedBaseSpin(input: SpinInput, o: Outcome)
    requires StructureOk(input, o)
    requires !input.feature.Canonical().Active()
    ensures SurgesTold(input.feature.Canonical(), input.bet, o, PositionsFor(o.grid, Surge))
    ensures o.next.Active() ==> o.next.win == o.total && o.next.bet == input.bet
    ensures Rests(o.next) || o.next.Active()
    ensures Absent(o.events, FreeSpinsCompleted)
  {
    StructureGives(input, o);
    if !o.next.Active() {
      NextRests(o.next, input.bet);
    }
    SurgesAccepted(input.feature.Canonical(), input.bet, o, PositionsFor(o.grid, Surge));
    BaseCompletion(input.feature.Canonical(), o);
    if o.next.Active() {
      NextBet(o.next, input.bet);
    }
  }

  /** A state between games keeps only the meter. */
  predicate Rests(next: FeatureState) {
    next.mode in {Base, Unset} && next.remaining == next.awarded == next.bet == next.win == 0
  }

  lemma NextRests(next: FeatureState, bet: int)
    requires NextShapeOk(next, bet) && !next.Active()
    ensures Rests(next)
  {
  }

  lemma NextBet(next: FeatureState, bet: int)
    requires NextShapeOk(next, bet) && next.Active()
    ensures next.bet == bet
  {
  }

  // --- Events and paths ---

  /** Only an award carries money, and every place an event names lies on the grid, once. */
  predicate EventTold(o: Outcome, e: Event)
    requires |o.grid| == 3
  {
    && 0 <= e.amount && (e.amount > 0 ==> e.kind == VaultAwarded || e.kind == WheelAwarded)
    && Distinct(e.cells)
    && forall k :: 0 <= k < |e.cells| ==> 0 <= e.cells[k].reel < 3 && 0 <= e.cells[k].row < |o.grid[0]|
  }

  /** A path of a win: three cells in reel order that show the symbol or a Wild, and the multiplier of the middle one. */
  predicate PathTold(o: Outcome, symbol: Symbol, path: PathAward)
    requires |o.grid| == 3
  {
    && |path.cells| == 3
    && (forall reel :: 0 <= reel < 3 ==> path.cells[reel].reel == reel && Matches(o.grid[reel], symbol, path.cells[reel].row))
    && path.multiplier == (var cell := o.grid[1][path.cells[1].row]; if cell.symbol == Wild && cell.multiplier != 0 then cell.multiplier else 1)
    && 0 <= path.base <= path.amount && 0 <= path.paid <= path.amount && (path.base == 0 <==> path.amount == 0)
    && (path.multiplier == 1 ==> path.base == path.amount)
  }

  /** A win accounts for itself: distinct paths, their number, their amounts, what is paid of them, and their cells. */
  predicate WinTold(o: Outcome, win: Win)
    requires |o.grid| == 3
  {
    && win.symbol in PAYING_SYMBOLS && 1 <= win.ways == |win.paths| && 0 < win.amount && 0 <= win.paid <= win.amount
    && (forall k :: 0 <= k < |win.paths| ==> PathTold(o, win.symbol, win.paths[k]))
    && (forall i, j :: 0 <= i < j < |win.paths| ==> win.paths[i].cells != win.paths[j].cells)
    && AmountSum(win.paths) == win.amount && PaidSum(win.paths) == win.paid
    && Distinct(win.cells) && CellsOf(win.paths) == Members(win.cells)
  }

  lemma PathAccepted(o: Outcome, symbol: Symbol, path: PathAward)
    requires GridOk(o.grid) && PathOk(symbol, path, o.grid)
    ensures PathTold(o, symbol, path)
  {
    forall reel | 0 <= reel < 3
      ensures path.cells[reel].reel == reel && Matches(o.grid[reel], symbol, path.cells[reel].row)
    {
    }
  }

  lemma PartsOk(input: SpinInput, o: Outcome)
    requires StructureOk(input, o)
    ensures GridOk(o.grid) && (forall i :: 0 <= i < |o.wins| ==> WinOk(o.wins[i], o.grid))
    ensures forall i :: 0 <= i < |o.events| ==> EventFieldsOk(o.events[i], |o.grid[0]|)
  {
  }

  lemma EventAccepted(o: Outcome, e: Event)
    requires GridOk(o.grid) && EventFieldsOk(e, |o.grid[0]|)
    ensures EventTold(o, e)
  {
  }

  /** The wins and events of an accepted outcome, each by itself. */
  lemma AcceptedParts(input: SpinInput, o: Outcome)
    requires StructureOk(input, o)
    ensures |o.grid| == 3
    ensures forall i :: 0 <= i < |o.wins| ==> WinTold(o, o.wins[i])
    ensures forall i :: 0 <= i < |o.events| ==> EventTold(o, o.events[i])
  {
    PartsOk(input, o);
    forall i | 0 <= i < |o.wins|
      ensures WinTold(o, o.wins[i])
    {
      WinAccepted(o, o.wins[i]);
    }
    forall i | 0 <= i < |o.events|
      ensures EventTold(o, o.events[i])
    {
      EventAccepted(o, o.events[i]);
    }
  }

  lemma WinAccepted(o: Outcome, win: Win)
    requires GridOk(o.grid) && WinOk(win, o.grid)
    ensures WinTold(o, win)
  {
    forall k | 0 <= k < |win.paths|
      ensures PathTold(o, win.symbol, win.paths[k])
    {
      PathAccepted(o, win.symbol, win.paths[k]);
    }
  }

  // --- Notice of the cap, and the grid ---

  /** The notice of the cap says that the game has won its cap, and nothing but its completion follows. */
  predicate NoticeTold(c: Config, input: SpinInput, o: Outcome, k: int)
    requires 0 <= k < |o.events|
  {
    && o.events[k] == Bare(WinCapReached).(multiplier := c.maxWin, cumulative := input.bet * c.maxWin)
    && PriorWin(input) + o.total == input.bet * c.maxWin
    && (k == |o.events| - 1 || (k == |o.events| - 2 && o.events[|o.events| - 1].kind == FreeSpinsCompleted))
  }

  lemma NoticeAccepted(c: Config, input: SpinInput, o: Outcome, wins: seq<Win>)
    requires WinCapEventOk(input, o) && CappedAwardsOk(c, input, o, wins)
    ensures Absent(o.events, WinCapReached) || exists k :: OnlyAt(o.events, WinCapReached, k) && NoticeTold(c, input, o, k)
  {
    var at := Indexes(o.events, WinCapReached);
    IndexesNone(o.events, WinCapReached);
    if at != [] {
      OneIndex(o.events, WinCapReached);
      if Indexes(o.events, FreeSpinsCompleted) == [|o.events| - 1] {
        OneIndex(o.events, FreeSpinsCompleted);
      }
    }
  }

  /** An Expansion spin opens with the size of its grid; any other has three rows and says nothing of it. */
  predicate SizeTold(f: FeatureState, o: Outcome)
    requires |o.grid| == 3
  {
    if f.mode == Expansion then
      && OnlyAt(o.events, GridExpanded, 0)
      && o.events[0].rows == |o.grid[0]| && o.events[0].ways == |o.grid[0]| * |o.grid[0]| * |o.grid[0]|
    else Absent(o.events, GridExpanded) && |o.grid[0]| == 3
  }

  lemma SizeAccepted(f: FeatureState, o: Outcome)
    requires GridOk(o.grid) && ExpansionEventsOk(f, o)
    ensures SizeTold(f, o)
  {
    IndexesNone(o.events, GridExpanded);
    IndexesOne(o.events, GridExpanded, 0);
  }

  lemma FrameGives(c: Config, input: SpinInput, o: Outcome)
    requires c.bet.step != 0 && c.bet.payUnit > 0 && PaysAll(c.paytable) && OutcomeOk(c, input, o)
    ensures GridOk(o.grid) && WinCapEventOk(input, o) && ExpansionEventsOk(input.feature.Canonical(), o)
    ensures input.bet > 0 && CappedAwardsOk(c, input, o, WinsForBet(o.grid, c.paytable, input.bet, c.bet.payUnit))
  {
  }

  /** The notice and the size an accepted outcome tells. */
  lemma AcceptedFrame(c: Config, input: SpinInput, o: Outcome)
    requires c.bet.step != 0 && c.bet.payUnit > 0 && PaysAll(c.paytable) && OutcomeOk(c, input, o)
    ensures |o.grid| == 3 && SizeTold(input.feature.Canonical(), o)
    ensures Absent(o.events, WinCapReached) || exists k :: OnlyAt(o.events, WinCapReached, k) && NoticeTold(c, input, o, k)
  {
    FrameGives(c, input, o);
    NoticeAccepted(c, input, o, WinsForBet(o.grid, c.paytable, input.bet, c.bet.payUnit));
    SizeAccepted(input.feature.Canonical(), o);
  }

  /** The wins of an accepted outcome are those the cells of its grid pay, projected onto what is left of the cap. */
  lemma AcceptedWays(c: Config, input: SpinInput, o: Outcome)
    requires c.bet.step != 0 && c.bet.payUnit > 0 && PaysAll(c.paytable) && OutcomeOk(c, input, o)
    ensures |o.grid| == 3 && exists wins: seq<Win> ::
              PaidForBet(o.grid, c.paytable, input.bet, c.bet.payUnit, wins) && o.wins == ProjectedWins(wins, Budget(c, input))
  {
    FrameGives(c, input, o);
    WinsPaidForBet(o.grid, c.paytable, input.bet, c.bet.payUnit);
  }
}
