/** Whatever the engine builds, once capped, passes the whole validator. */
module Completeness {
  import opened Money
  import opened GameTypes
  import opened Grids
  import opened Ways
  import opened WaysEnumeration
  import opened WaysEvaluation
  import opened WaysScaling
  import opened LargestRemainder
  import opened WaysForBet
  import opened GameConfig
  import opened ArithmeticBounds
  import opened WinCap
  import opened OutcomeRules
  import opened SpinShape
  import opened EventLists
  import opened FeatureStates
  import opened RawSpins
  import opened RawEvents
  import opened OpenedVaults
  import opened KingVaults

  // --- Amounts ---

  predicate AllNominal(bet: int, events: seq<Event>) {
    forall i :: 0 <= i < |events| ==>
      && 0 <= events[i].amount == Nominal(bet, events[i])
      && 0 <= events[i].multiplier
      && Section(events[i].kind) < 3
  }

  lemma {:induction false} NominalIsAmount(bet: int, events: seq<Event>, n: nat)
    requires AllNominal(bet, events) && n <= |events|
    ensures NominalBefore(bet, events, n) == EventsBefore(events, n) >= 0
  {
    if n > 0 {
      NominalIsAmount(bet, events, n - 1);
    }
  }

  /** Clipping amounts and adding closing events leaves the nominal awards as they were. */
  lemma {:induction false} NominalKept(bet: int, raw: seq<Event>, events: seq<Event>, n: nat)
    requires Extends(raw, events) && n <= |events|
    ensures NominalBefore(bet, events, n) == NominalBefore(bet, raw, if n <= |raw| then n else |raw|)
  {
    if n > 0 {
      NominalKept(bet, raw, events, n - 1);
      if n <= |raw| {
        assert SameButAmount(raw[n - 1], events[n - 1]);
      }
    }
  }

  lemma {:induction false} EventsBeforeGrow(events: seq<Event>, i: nat, j: nat)
    requires i <= j <= |events| && EventsNonNegative(events)
    ensures EventsBefore(events, i) <= EventsBefore(events, j)
  {
    if i < j {
      EventsBeforeGrow(events, i, j - 1);
    }
  }

  /** The clipped amounts of the first n events. */
  lemma {:induction false} ClippedSum(raw: seq<Event>, events: seq<Event>, budget: int, n: nat)
    requires n <= |raw| <= |events| && EventsNonNegative(raw) && 0 <= budget
    requires forall i :: 0 <= i < |raw| ==> events[i] == CappedEvent(raw, i, budget)
    ensures EventsBefore(events, n) == Min(budget, EventsBefore(raw, n))
  {
    if n > 0 {
      ClippedSum(raw, events, budget, n - 1);
      EventsBeforeNonNegative(raw, n - 1);
      assert events[n - 1] == CappedEvent(raw, n - 1, budget);
    }
  }

  lemma {:induction false} ClosingAddsNothing(events: seq<Event>, m: nat, n: nat)
    requires m <= n <= |events| && forall i :: m <= i < |events| ==> Section(events[i].kind) == 3
    ensures EventsBefore(events, n) == EventsBefore(events, m)
  {
    if m < n {
      ClosingAddsNothing(events, m, n - 1);
    }
  }

  /** An award is clipped only when the budget runs out. */
  lemma ClippedOnlyAtCap(raw: seq<Event>, budget: int, i: nat)
    requires i < |raw| && EventsNonNegative(raw) && 0 <= budget && IsMonetary(raw[i].kind)
    ensures 0 <= CappedEvent(raw, i, budget).amount <= raw[i].amount
    ensures CappedEvent(raw, i, budget).amount < raw[i].amount ==> EventSum(raw) > budget
  {
    EventsBeforeNonNegative(raw, i);
    EventsBeforeGrow(raw, i + 1, |raw|);
    ShareIsMinimum(EventsBefore(raw, i), raw[i].amount, budget);
  }

  // --- Wins ---

  lemma {:induction false} PaidSumOfPaths(paths: seq<PathAward>, budget: int, n: nat)
    requires n <= |paths| && 0 <= budget && forall j :: 0 <= j < |paths| ==> paths[j].amount >= 0
    ensures PaidSum(ProjectedPaths(paths, budget, n)) == Min(budget, PathsBefore(paths, n))
  {
    if n > 0 {
      PaidSumOfPaths(paths, budget, n - 1);
      PathsBeforeNonNegative(paths, n - 1);
      var before := ProjectedPaths(paths, budget, n - 1);
      assert (before + [ProjectedPath(paths, n - 1, budget)])[..|before|] == before;
    }
  }

  lemma {:induction false} AmountSumOfPaths(paths: seq<PathAward>, budget: int, n: nat)
    requires n <= |paths|
    ensures AmountSum(ProjectedPaths(paths, budget, n)) == PathsBefore(paths, n)
    ensures CellsOf(ProjectedPaths(paths, budget, n)) == CellsOf(paths[..n])
  {
    if n > 0 {
      AmountSumOfPaths(paths, budget, n - 1);
      var before := ProjectedPaths(paths, budget, n - 1);
      assert (before + [ProjectedPath(paths, n - 1, budget)])[..|before|] == before;
      assert paths[..n][..n - 1] == paths[..n - 1];
    } else {
      assert paths[..0] == [];
    }
  }

  /** A win as the scaled evaluation leaves it, before the cap. */
  predicate NominalWinOk(win: Win, grid: Grid)
    requires GridOk(grid)
  {
    WinOk(win, grid) && win.paid == win.amount && forall k :: 0 <= k < |win.paths| ==> win.paths[k].paid == win.paths[k].amount
  }

  lemma ProjectedPathOk(win: Win, grid: Grid, paid: int, k: nat)
    requires GridOk(grid) && k < |win.paths| && PathOk(win.symbol, win.paths[k], grid) && 0 <= paid
    requires forall j :: 0 <= j < |win.paths| ==> win.paths[j].amount >= 0
    ensures PathOk(win.symbol, ProjectedPath(win.paths, k, paid), grid)
  {
    PathsBeforeNonNegative(win.paths, k);
    ShareIsMinimum(PathsBefore(win.paths, k), win.paths[k].amount, paid);
  }

  lemma ProjectedPathsOk(win: Win, grid: Grid, paid: int)
    requires GridOk(grid) && 0 <= paid && DistinctCells(win.paths)
    requires forall k :: 0 <= k < |win.paths| ==> PathOk(win.symbol, win.paths[k], grid)
    ensures forall k :: 0 <= k < |ProjectedWin(win, paid).paths| ==> PathOk(win.symbol, ProjectedWin(win, paid).paths[k], grid)
    ensures DistinctCells(ProjectedWin(win, paid).paths)
    ensures |ProjectedWin(win, paid).paths| == |win.paths|
  {
    var paths := ProjectedWin(win, paid).paths;
    ProjectedPathsAt(win.paths, paid, |win.paths|);
    assert forall j :: 0 <= j < |win.paths| ==> PathOk(win.symbol, win.paths[j], grid);
    forall k | 0 <= k < |paths|
      ensures PathOk(win.symbol, paths[k], grid)
    {
      ProjectedPathOk(win, grid, paid, k);
    }
    forall i, j | 0 <= i < j < |paths|
      ensures paths[i].cells != paths[j].cells
    {
      assert paths[i] == ProjectedPath(win.paths, i, paid) && paths[j] == ProjectedPath(win.paths, j, paid);
    }
  }

  /** Paying only part of a legal win keeps it legal. */
  lemma ProjectedWinOk(win: Win, grid: Grid, paid: int)
    requires GridOk(grid) && NominalWinOk(win, grid) && 0 <= paid <= win.amount
    ensures WinOk(ProjectedWin(win, paid), grid)
  {
    ProjectedPathsOk(win, grid, paid);
    assert forall k :: 0 <= k < |win.paths| ==> PathOk(win.symbol, win.paths[k], grid);
    PaidSumOfPaths(win.paths, paid, |win.paths|);
    AmountSumOfPaths(win.paths, paid, |win.paths|);
    PathsBeforeIsSum(win.paths, |win.paths|);
    assert win.paths[..|win.paths|] == win.paths;
  }
}
