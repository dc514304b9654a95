/** The definition-aware money check: the loop of the validator, and what an accepted outcome's money must be. */
module AwardChecks {
  import opened Money
  import opened GameTypes
  import opened Grids
  import opened Ways
  import opened WaysForBet
  import opened GameConfig
  import opened WinCap
  import opened OutcomeRules
  import opened WinsAccepted
  import opened SpinAccepted

  /** Where events of a kind stand: the validator's scan. */
  method EventIndexes(events: seq<Event>, kind: EventKind) returns (at: seq<int>)
    ensures at == Indexes(events, kind)
  {
    at := [];
    for i := 0 to |events|
      invariant at == IndexesTo(events, kind, i)
    {
      if events[i].kind == kind {
        at := at + [i];
      }
    }
  }

  /** What an event awards before the cap: its bet multiple, or nothing. */
  method NominalAward(bet: int, e: Event) returns (r: Result<int>)
    ensures r.Ok? <==> (HasNominal(e) ==> 0 <= bet && 0 <= e.multiplier && bet * e.multiplier <= MAX_INT64)
    ensures r.Ok? ==> r.value == Nominal(bet, e)
  {
    match e.kind
    case VaultAwarded => r := SafeMul(bet, e.multiplier);
    case WheelAwarded =>
      if e.outcome != Instant {
        return Ok(0);
      }
      r := SafeMul(bet, e.multiplier);
    case _ => return Ok(0);
  }

  predicate MultipliersNonNegative(events: seq<Event>) {
    forall k :: 0 <= k < |events| && HasNominal(events[k]) ==> 0 <= events[k].multiplier
  }

  lemma {:induction false} NominalGrows(bet: int, events: seq<Event>, i: nat, j: nat)
    requires i <= j <= |events| && 0 <= bet && MultipliersNonNegative(events)
    ensures 0 <= NominalBefore(bet, events, i) <= NominalBefore(bet, events, j)
  {
    if j > 0 {
      if HasNominal(events[j - 1]) {
        MulMonotone(0, events[j - 1].multiplier, bet);
      }
      if i < j {
        NominalGrows(bet, events, i, j - 1);
      } else {
        NominalGrows(bet, events, j - 1, j - 1);
      }
    }
  }

  /** Shares in order, and sums in range, up to the n-th event. */
  predicate SharesTo(bet: int, events: seq<Event>, budget: int, ways: int, n: nat)
    requires n <= |events|
  {
    && (forall i :: 0 <= i < n ==> ShareOk(bet, events, i, budget))
    && 0 <= NominalBefore(bet, events, n) && ways + NominalBefore(bet, events, n) <= MAX_INT64
  }

  /** One event: its nominal award, and what must be paid of it. */
  method CheckShare(bet: int, events: seq<Event>, i: nat, budget: int, remaining: int) returns (ok: bool, share: int, nominal: int)
    requires i < |events| && 0 <= bet && 0 <= budget && 0 <= NominalBefore(bet, events, i)
    requires remaining == budget - Min(budget, NominalBefore(bet, events, i))
    ensures ok <==> ShareOk(bet, events, i, budget)
    ensures ok ==> nominal == Nominal(bet, events[i]) >= 0 && share == Min(nominal, remaining)
  {
    share, nominal := 0, 0;
    var award := NominalAward(bet, events[i]);
    if award.Err? {
      return false, 0, 0;
    }
    nominal := award.value;
    if !HasNominal(events[i]) {
      return true, 0, nominal;
    }
    MulMonotone(0, events[i].multiplier, bet);
    ShareIsMinimum(NominalBefore(bet, events, i), nominal, budget);
    share := Min(nominal, remaining);
    ok := events[i].amount == share;
  }

  /** The event loop: every award is its nominal award clipped in order, and both totals stay in range. */
  method CheckShares(bet: int, events: seq<Event>, budget: int, waysPaid: int, ways: int)
    returns (ok: bool, expected: int, rawTotal: int, ghost at: nat)
    requires 0 <= bet && 0 <= budget && 0 <= waysPaid <= ways <= MAX_INT64 && budget + waysPaid <= MAX_INT64
    ensures ok ==> SharesTo(bet, events, budget, ways, |events|)
    ensures ok ==> expected == waysPaid + Min(budget, NominalSum(bet, events)) && rawTotal == ways + NominalSum(bet, events)
    ensures !ok ==> at < |events| && (!ShareOk(bet, events, at, budget) || ways + NominalBefore(bet, events, at + 1) > MAX_INT64)
  {
    var remaining := budget;
    expected, rawTotal, at := waysPaid, ways, 0;
    for i := 0 to |events|
      invariant SharesTo(bet, events, budget, ways, i)
      invariant remaining == budget - Min(budget, NominalBefore(bet, events, i))
      invariant expected == waysPaid + Min(budget, NominalBefore(bet, events, i))
      invariant rawTotal == ways + NominalBefore(bet, events, i)
    {
      at := i;
      var share, paid, nominal := CheckShare(bet, events, i, budget, remaining);
      if !share {
        return false, expected, rawTotal, at;
      }
      remaining := remaining - paid;
      var expectedSum := SafeAdd(expected, paid);
      var rawSum := SafeAdd(rawTotal, nominal);
      if expectedSum.Err? || rawSum.Err? {
        return false, expected, rawTotal, at;
      }
      expected, rawTotal := expectedSum.value, rawSum.value;
    }
    ok := true;
  }

  /** A share that fails anywhere, or a sum out of range on the way, refuses the outcome. */
  lemma Refused(c: Config, input: SpinInput, o: Outcome, raw: seq<Win>, at: nat)
    requires at < |o.events|
    requires !ShareOk(input.bet, o.events, at, Budget(c, input) - Min(Budget(c, input), WinSum(raw))) ||
             WinSum(raw) + NominalBefore(input.bet, o.events, at + 1) > MAX_INT64
    ensures !CappedAwardsOk(c, input, o, raw)
  {
    if SharesOk(input.bet, o.events, Budget(c, input) - Min(Budget(c, input), WinSum(raw))) && 0 <= input.bet {
      forall k | 0 <= k < |o.events| && HasNominal(o.events[k])
        ensures 0 <= o.events[k].multiplier
      {
        assert ShareOk(input.bet, o.events, k, Budget(c, input) - Min(Budget(c, input), WinSum(raw)));
      }
      NominalGrows(input.bet, o.events, at + 1, |o.events|);
    }
  }

  /** The whole check: both directions, against the closed form of what must be paid. */
  method CheckCappedAwards(c: Config, input: SpinInput, o: Outcome, raw: seq<Win>, ways: int) returns (ok: bool)
    requires AwardsNonNegative(raw) && ways == WinSum(raw) <= MAX_INT64
    ensures ok <==> CappedAwardsOk(c, input, o, raw)
  {
    WinsBeforeNonNegative(raw, |raw|);
    WinsBeforeIsSum(raw, |raw|);
    assert raw[..|raw|] == raw;
    var cap := SafeMul(input.bet, c.maxWin);
    if cap.Err? {
      return false;
    }
    assert cap.value == GameCap(c, input);
    var prior := PriorWin(input);
    if prior < 0 || prior > cap.value {
      return false;
    }
    var budget := cap.value - prior;
    var expectedWins, waysPaid := ProjectWinsToBudget(raw, budget);
    if expectedWins != o.wins {
      return false;
    }
    ok := CheckSettled(c, input, o, raw, ways, waysPaid);
  }

  /** The second half: events, total and notice, once the wins agree. */
  method CheckSettled(c: Config, input: SpinInput, o: Outcome, raw: seq<Win>, ways: int, waysPaid: int) returns (ok: bool)
    requires 0 <= input.bet && 0 <= c.maxWin && GameCap(c, input) <= MAX_INT64 && 0 <= PriorWin(input) <= GameCap(c, input)
    requires 0 <= ways == WinSum(raw) <= MAX_INT64 && waysPaid == Min(Budget(c, input), ways)
    requires o.wins == ProjectedWins(raw, Budget(c, input))
    ensures ok <==> CappedAwardsOk(c, input, o, raw)
  {
    var budget := Budget(c, input);
    var shares, expected, rawTotal, at := CheckShares(input.bet, o.events, budget - waysPaid, waysPaid, ways);
    if !shares {
      Refused(c, input, o, raw, at);
      return false;
    }
    var notices := EventIndexes(o.events, WinCapReached);
    IndexesToExact(o.events, WinCapReached, |o.events|);
    var wanted := rawTotal > 0 && rawTotal >= budget;
    if o.total != expected || wanted != (|notices| == 1) {
      return false;
    }
    return !wanted || (o.events[notices[0]].multiplier == c.maxWin && o.events[notices[0]].cumulative == GameCap(c, input));
  }

  // --- Soundness ---

  lemma {:induction false} WinsPaid(wins: seq<Win>, budget: int, n: nat)
    requires n <= |wins| && AwardsNonNegative(wins) && 0 <= budget
    ensures |ProjectedWins(wins, budget)| == |wins|
    ensures PaidBefore(ProjectedWins(wins, budget), n) == Min(budget, WinsBefore(wins, n))
  {
    ProjectedWinsAt(wins, budget, |wins|);
    if n > 0 {
      WinsPaid(wins, budget, n - 1);
      WinsBeforeNonNegative(wins, n - 1);
      assert ProjectedWins(wins, budget)[n - 1] == PaidWin(wins, n - 1, budget);
    }
  }

  /** The money rules of an accepted outcome. */
  lemma MoneyRules(c: Config, input: SpinInput, o: Outcome)
    requires c.bet.step != 0 && c.bet.payUnit > 0 && PaysAll(c.paytable) && OutcomeOk(c, input, o)
    ensures GridOk(o.grid) && TotalOk(o) && forall i :: 0 <= i < |o.wins| ==> WinOk(o.wins[i], o.grid)
    ensures CappedAwardsOk(c, input, o, WinsForBet(o.grid, c.paytable, input.bet, c.bet.payUnit))
    ensures |Indexes(o.events, WinCapReached)| <= 1
    ensures input.bet > 0 && WaysFit(o.grid, c.paytable, input.bet, c.bet.payUnit)
  {
  }

  lemma NominalNonNegative(bet: int, events: seq<Event>, budget: int)
    requires 0 <= bet && SharesOk(bet, events, budget)
    ensures 0 <= NominalSum(bet, events)
  {
    forall k | 0 <= k < |events| && HasNominal(events[k])
      ensures 0 <= events[k].multiplier
    {
      assert ShareOk(bet, events, k, budget);
    }
    NominalGrows(bet, events, 0, |events|);
  }

  /** The money of a spin, level by level, against what the grid and the events award. */
  predicate SettledMoney(c: Config, input: SpinInput, o: Outcome, ways: int) {
    var nominal, budget := NominalSum(input.bet, o.events), Budget(c, input);
    && 0 <= ways && 0 <= nominal
    && PaidBefore(o.wins, |o.wins|) == Min(budget, ways)
    && EventSum(o.events) == Min(budget - Min(budget, ways), nominal)
    && o.total == Min(budget, ways + nominal)
    && 0 <= o.total && PriorWin(input) + o.total <= GameCap(c, input)
    && (HasWinCap(o.events) <==> ways + nominal > 0 && PriorWin(input) + o.total == GameCap(c, input))
  }

  lemma SettledFrom(c: Config, input: SpinInput, o: Outcome, raw: seq<Win>)
    requires AwardsNonNegative(raw) && CappedAwardsOk(c, input, o, raw) && TotalOk(o)
    ensures SettledMoney(c, input, o, WinSum(raw))
  {
    PaidWays(raw, Budget(c, input));
    NominalNonNegative(input.bet, o.events, Budget(c, input) - Min(Budget(c, input), WinSum(raw)));
  }

  /** Money soundness: whoever made an accepted outcome, its wins, its events and its total are exactly what the grid and
      the definition award, clipped in order to what is left of the game's cap. */
  lemma AcceptedMoney(c: Config, input: SpinInput, o: Outcome)
    requires c.bet.step != 0 && c.bet.payUnit > 0 && PaysAll(c.paytable) && OutcomeOk(c, input, o)
    ensures SettledMoney(c, input, o, WinSum(WinsForBet(o.grid, c.paytable, input.bet, c.bet.payUnit)))
    ensures forall i :: 0 <= i < |o.wins| ==>
              PaidSum(o.wins[i].paths) == o.wins[i].paid && AmountSum(o.wins[i].paths) == o.wins[i].amount
  {
    MoneyRules(c, input, o);
    WinsForBetNonNegative(o.grid, c.paytable, input.bet, c.bet.payUnit);
    SettledFrom(c, input, o, WinsForBet(o.grid, c.paytable, input.bet, c.bet.payUnit));
    forall i | 0 <= i < |o.wins|
      ensures PaidSum(o.wins[i].paths) == o.wins[i].paid && AmountSum(o.wins[i].paths) == o.wins[i].amount
    {
      assert WinOk(o.wins[i], o.grid);
    }
  }

  lemma PaidWays(raw: seq<Win>, budget: int)
    requires AwardsNonNegative(raw) && 0 <= budget
    ensures 0 <= WinSum(raw)
    ensures PaidBefore(ProjectedWins(raw, budget), |ProjectedWins(raw, budget)|) == Min(budget, WinSum(raw))
  {
    WinsPaid(raw, budget, |raw|);
    WinsBeforeIsSum(raw, |raw|);
    WinsBeforeNonNegative(raw, |raw|);
    assert raw[..|raw|] == raw;
  }

  lemma WinsForBetNonNegative(grid: Grid, paytable: map<Symbol, int>, bet: int, unit: int)
    requires GridOk(grid) && PaysAll(paytable) && bet > 0 && unit > 0 && WaysFit(grid, paytable, bet, unit)
    ensures AwardsNonNegative(WinsForBet(grid, paytable, bet, unit))
  {
    WinsForBetOk(grid, paytable, bet, unit);
    WinsNonNegative(grid, WinsForBet(grid, paytable, bet, unit));
  }
}
