/** The validator's loop over visible awards: every win, every event, and the total they must add up to. */
module EventChecks {
  import opened Money
  import opened GameTypes
  import opened Grids
  import opened WinCap
  import opened OutcomeRules
  import opened PathChecks

  predicate WinsOk(wins: seq<Win>, grid: Grid, n: nat)
    requires GridOk(grid) && n <= |wins|
  {
    forall i :: 0 <= i < n ==> WinOk(wins[i], grid)
  }

  predicate EventsOk(events: seq<Event>, rows: int, n: nat)
    requires n <= |events|
  {
    forall i :: 0 <= i < n ==> EventFieldsOk(events[i], rows)
  }

  /** Every win and event is legal, and the awards shown are the total. */
  predicate VisibleOk(o: Outcome)
    requires GridOk(o.grid)
  {
    WinsOk(o.wins, o.grid, |o.wins|) && EventsOk(o.events, |o.grid[0]|, |o.events|) && TotalOk(o)
  }

  predicate WinsPositive(wins: seq<Win>) {
    forall i :: 0 <= i < |wins| ==> 0 <= wins[i].paid
  }

  predicate EventsPositive(events: seq<Event>) {
    forall i :: 0 <= i < |events| ==> 0 <= events[i].amount
  }

  lemma {:induction false} PaidGrows(wins: seq<Win>, i: nat, j: nat)
    requires i <= j <= |wins| && WinsPositive(wins)
    ensures 0 <= PaidBefore(wins, i) <= PaidBefore(wins, j)
  {
    if i < j {
      PaidGrows(wins, i, j - 1);
    } else if i > 0 {
      PaidGrows(wins, i - 1, i - 1);
    }
  }

  lemma {:induction false} AwardsGrow(events: seq<Event>, i: nat, j: nat)
    requires i <= j <= |events| && EventsPositive(events)
    ensures 0 <= EventsBefore(events, i) <= EventsBefore(events, j)
  {
    if i < j {
      AwardsGrow(events, i, j - 1);
    } else if i > 0 {
      AwardsGrow(events, i - 1, i - 1);
    }
  }

  method CheckEvent(e: Event, rows: int) returns (ok: bool)
    ensures ok == EventFieldsOk(e, rows)
  {
    if e.count < 0 || e.multiplier < 0 || e.amount < 0 || e.cumulative < 0 || e.awarded < 0 || e.rows < 0 || e.ways < 0
       || e.level < 0 || e.total < 0 || e.step < 0 || e.fromMultiplier < 0 || e.toMultiplier < 0 {
      return false;
    }
    if e.amount != 0 && !IsMonetary(e.kind) {
      return false;
    }
    ok := CheckPositions(e.cells, rows);
    if IsVaultCellEvent(e.kind) && (e.reel != 1 || e.row < 0 || e.row >= rows) {
      return false;
    }
  }

  /** An accumulated sum that leaves the int64 range refuses the wins or the total. */
  lemma PaidOverflow(o: Outcome, n: nat)
    requires GridOk(o.grid) && n <= |o.wins| && PaidBefore(o.wins, n) > MAX_INT64
    ensures !VisibleOk(o)
  {
    if WinsOk(o.wins, o.grid, |o.wins|) && EventsOk(o.events, |o.grid[0]|, |o.events|) {
      VisiblePositive(o);
      PaidGrows(o.wins, n, |o.wins|);
      AwardsGrow(o.events, 0, |o.events|);
    }
  }

  lemma AwardOverflow(o: Outcome, n: nat)
    requires GridOk(o.grid) && n <= |o.events| && PaidBefore(o.wins, |o.wins|) + EventsBefore(o.events, n) > MAX_INT64
    ensures !VisibleOk(o)
  {
    if WinsOk(o.wins, o.grid, |o.wins|) && EventsOk(o.events, |o.grid[0]|, |o.events|) {
      VisiblePositive(o);
      AwardsGrow(o.events, n, |o.events|);
    }
  }

  lemma VisiblePositive(o: Outcome)
    requires GridOk(o.grid) && WinsOk(o.wins, o.grid, |o.wins|) && EventsOk(o.events, |o.grid[0]|, |o.events|)
    ensures WinsPositive(o.wins) && EventsPositive(o.events)
  {
    forall i | 0 <= i < |o.wins|
      ensures 0 <= o.wins[i].paid
    {
      assert WinOk(o.wins[i], o.grid);
    }
    forall i | 0 <= i < |o.events|
      ensures 0 <= o.events[i].amount
    {
      assert EventFieldsOk(o.events[i], |o.grid[0]|);
    }
  }

  method CheckWins(o: Outcome) returns (ok: bool, accounted: int)
    requires GridOk(o.grid)
    ensures ok ==> WinsOk(o.wins, o.grid, |o.wins|)
    ensures ok ==> 0 <= accounted == PaidBefore(o.wins, |o.wins|) <= MAX_INT64
    ensures !ok ==> !VisibleOk(o)
  {
    accounted := 0;
    for i := 0 to |o.wins|
      invariant WinsOk(o.wins, o.grid, i) == true
      invariant 0 <= accounted == PaidBefore(o.wins, i) <= MAX_INT64
    {
      var legal := CheckWin(o.wins[i], o.grid);
      if !legal {
        return false, accounted;
      }
      var sum := SafeAdd(accounted, o.wins[i].paid);
      if sum.Err? {
        PaidOverflow(o, i + 1);
        return false, accounted;
      }
      accounted := sum.value;
    }
    ok := true;
  }

  /** Wins, events and total together. */
  method CheckVisibleAwards(o: Outcome) returns (ok: bool)
    requires GridOk(o.grid)
    ensures ok == VisibleOk(o)
  {
    var wins, accounted := CheckWins(o);
    if !wins {
      return false;
    }
    for i := 0 to |o.events|
      invariant EventsOk(o.events, |o.grid[0]|, i)
      invariant 0 <= accounted == PaidBefore(o.wins, |o.wins|) + EventsBefore(o.events, i) <= MAX_INT64
    {
      var legal := CheckEvent(o.events[i], |o.grid[0]|);
      if !legal {
        return false;
      }
      var sum := SafeAdd(accounted, o.events[i].amount);
      if sum.Err? {
        AwardOverflow(o, i + 1);
        return false;
      }
      accounted := sum.value;
    }
    return o.total >= 0 && accounted == o.total;
  }
}
