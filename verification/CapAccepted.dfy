/** The capped projection of a raw spin: its closing events, its sums, and the rules about money. */
module CapAccepted {
  import opened Money
  import opened GameTypes
  import opened Grids
  import opened Ways
  import opened WaysScaling
  import opened WaysForBet
  import opened GameConfig
  import opened WinCap
  import opened OutcomeRules
  import opened SpinShape
  import opened EventLists
  import opened OpenedVaults
  import opened Completeness

  /** What the cap needs to know of a raw outcome. */
  predicate CapReady(c: Config, input: SpinInput, raw: Outcome) {
    && 0 < input.bet && 0 < c.maxWin && GameCap(c, input) <= MAX_INT64 && 0 <= PriorWin(input) <= GameCap(c, input)
    && AwardsNonNegative(raw.wins) && AllNominal(input.bet, raw.events)
    && raw.total == WinSum(raw.wins) + EventSum(raw.events) <= MAX_INT64
  }

  function Closing(c: Config, input: SpinInput, raw: Outcome): seq<Event> {
    CapNotice(c, input, raw.total) +
    Completion(input, raw.next, PaidTotal(Budget(c, input), raw.wins, raw.events))
  }

  function EventBudget(c: Config, input: SpinInput, raw: Outcome): int {
    Budget(c, input) - Min(Budget(c, input), WinSum(raw.wins))
  }

  lemma CappedEventsAre(c: Config, input: SpinInput, raw: Outcome)
    ensures Capped(c, input, raw).events == CappedEvents(raw.events, EventBudget(c, input, raw)) + Closing(c, input, raw)
  {
  }

  lemma BudgetsNonNegative(c: Config, input: SpinInput, raw: Outcome)
    requires CapReady(c, input, raw)
    ensures EventsNonNegative(raw.events) && EventSum(raw.events) >= 0 && WinSum(raw.wins) >= 0
    ensures 0 <= EventBudget(c, input, raw) && 0 <= Budget(c, input)
  {
    SumsNonNegative(raw.wins, raw.events);
  }

  /** The final events: each raw event clipped, then the closing events. */
  predicate FinalEvents(raw: seq<Event>, budget: int, closing: seq<Event>, events: seq<Event>) {
    && |events| == |raw| + |closing|
    && (forall i :: 0 <= i < |raw| ==> events[i] == CappedEvent(raw, i, budget))
    && (forall i :: |raw| <= i < |events| ==> events[i] == closing[i - |raw|])
  }

  lemma FinalEventsOf(raw: seq<Event>, budget: int, closing: seq<Event>)
    requires forall i :: 0 <= i < |raw| ==> Section(raw[i].kind) < 3
    requires AllIn(closing, 3)
    ensures Extends(raw, CappedEvents(raw, budget) + closing)
    ensures FinalEvents(raw, budget, closing, CappedEvents(raw, budget) + closing)
  {
    CappedExtends(raw, budget, closing);
    CappedEventsAt(raw, budget, |raw|);
  }

  lemma ClosingSection(c: Config, input: SpinInput, raw: Outcome)
    ensures AllIn(Closing(c, input, raw), 3)
  {
  }

  lemma CappedFacts(c: Config, input: SpinInput, raw: Outcome)
    requires CapReady(c, input, raw)
    ensures EventsNonNegative(raw.events) && EventSum(raw.events) >= 0 && WinSum(raw.wins) >= 0
    ensures 0 <= EventBudget(c, input, raw) && 0 <= Budget(c, input)
    ensures Extends(raw.events, Capped(c, input, raw).events)
    ensures AllIn(Closing(c, input, raw), 3)
    ensures FinalEvents(raw.events, EventBudget(c, input, raw), Closing(c, input, raw), Capped(c, input, raw).events)
  {
    CappedEventsAre(c, input, raw);
    BudgetsNonNegative(c, input, raw);
    ClosingSection(c, input, raw);
    FinalEventsOf(raw.events, EventBudget(c, input, raw), Closing(c, input, raw));
  }

  /** The cap event is present exactly when the raw total reaches the budget. */
  lemma NoticePlace(c: Config, input: SpinInput, raw: Outcome)
    requires CapReady(c, input, raw)
    ensures var o := Capped(c, input, raw);
            Indexes(o.events, WinCapReached) ==
            if raw.total > 0 && raw.total >= Budget(c, input) then [|raw.events|] else []
  {
    var o, n := Capped(c, input, raw), |raw.events|;
    CappedFacts(c, input, raw);
    forall i | 0 <= i < |o.events|
      ensures o.events[i].kind == WinCapReached <==> i == n && raw.total > 0 && raw.total >= Budget(c, input)
    {
      if i < n {
        assert SameButAmount(raw.events[i], o.events[i]);
      }
    }
    if raw.total > 0 && raw.total >= Budget(c, input) {
      IndexesOne(o.events, WinCapReached, n);
    } else {
      IndexesNone(o.events, WinCapReached);
    }
  }

  lemma CompletionPlace(c: Config, input: SpinInput, raw: Outcome)
    requires CapReady(c, input, raw)
    ensures var o := Capped(c, input, raw);
            Indexes(o.events, FreeSpinsCompleted) ==
            if input.feature.Canonical().Active() && raw.next.remaining == 0 then [|o.events| - 1] else []
  {
    var o, n := Capped(c, input, raw), |raw.events|;
    CappedFacts(c, input, raw);
    var last := |o.events| - 1;
    var completes := input.feature.Canonical().Active() && raw.next.remaining == 0;
    forall i | 0 <= i < |o.events|
      ensures o.events[i].kind == FreeSpinsCompleted <==> i == last && completes
    {
      if i < n {
        assert SameButAmount(raw.events[i], o.events[i]);
      }
    }
    if completes {
      IndexesOne(o.events, FreeSpinsCompleted, last);
    } else {
      IndexesNone(o.events, FreeSpinsCompleted);
    }
  }

  /** What is paid: ways first, then events, together the smaller of budget and raw total. */
  lemma PaidSums(c: Config, input: SpinInput, raw: Outcome)
    requires CapReady(c, input, raw)
    ensures var o := Capped(c, input, raw);
            && EventSum(o.events) == Min(EventBudget(c, input, raw), EventSum(raw.events))
            && o.total == Min(Budget(c, input), raw.total)
            && NominalSum(input.bet, o.events) == EventSum(raw.events)
            && 0 <= o.total && PriorWin(input) + o.total <= GameCap(c, input)
  {
    EventsPaid(c, input, raw);
    NominalPaid(c, input, raw);
    BudgetsNonNegative(c, input, raw);
  }

  lemma NominalPaid(c: Config, input: SpinInput, raw: Outcome)
    requires CapReady(c, input, raw)
    ensures NominalSum(input.bet, Capped(c, input, raw).events) == EventSum(raw.events)
  {
    CappedFacts(c, input, raw);
    var o := Capped(c, input, raw);
    NominalKept(input.bet, raw.events, o.events, |o.events|);
    NominalIsAmount(input.bet, raw.events, |raw.events|);
  }

  lemma EventsPaid(c: Config, input: SpinInput, raw: Outcome)
    requires CapReady(c, input, raw)
    ensures EventSum(Capped(c, input, raw).events) == Min(EventBudget(c, input, raw), EventSum(raw.events))
  {
    var o, n := Capped(c, input, raw), |raw.events|;
    CappedFacts(c, input, raw);
    ClippedSum(raw.events, o.events, EventBudget(c, input, raw), n);
    ClosingAddsNothing(o.events, n, |o.events|);
  }

  lemma WinCapAccepted(c: Config, input: SpinInput, raw: Outcome)
    requires CapReady(c, input, raw)
    ensures WinCapEventOk(input, Capped(c, input, raw))
  {
    var o, n := Capped(c, input, raw), |raw.events|;
    CappedFacts(c, input, raw);
    NoticePlace(c, input, raw);
    CompletionPlace(c, input, raw);
    PaidSums(c, input, raw);
    if raw.total > 0 && raw.total >= Budget(c, input) {
      assert o.events[n] == CapEvent(c, input);
    }
  }

  /** An award before the cap is within everything the events award. */
  lemma AwardWithin(c: Config, input: SpinInput, raw: Outcome, i: nat)
    requires CapReady(c, input, raw) && i < |raw.events|
    ensures 0 <= EventsBefore(raw.events, i) && EventsBefore(raw.events, i + 1) <= EventSum(raw.events) <= MAX_INT64
  {
    CappedFacts(c, input, raw);
    SumsWithin(raw.events, i);
  }

  lemma SumsWithin(events: seq<Event>, i: nat)
    requires EventsNonNegative(events) && i < |events|
    ensures 0 <= EventsBefore(events, i) && EventsBefore(events, i + 1) <= EventSum(events)
  {
    EventsBeforeNonNegative(events, i);
    EventsBeforeGrow(events, i + 1, |events|);
  }

  /** Awards are clipped at the cap only, event by event. */
  lemma AwardClippedOnly(c: Config, input: SpinInput, raw: Outcome, i: nat)
    requires CapReady(c, input, raw) && i < |raw.events|
    ensures var o := Capped(c, input, raw);
            && i < |o.events|
            && 0 <= o.events[i].amount <= raw.events[i].amount
            && (o.events[i].amount == raw.events[i].amount || HasWinCap(o.events))
  {
    CappedFacts(c, input, raw);
    NoticePlace(c, input, raw);
    if IsMonetary(raw.events[i].kind) {
      ClippedOnlyAtCap(raw.events, EventBudget(c, input, raw), i);
    }
  }

  /** The share the validator expects of an award is the one the cap paid. */
  lemma NominalFits(bet: int, raw: seq<Event>, i: nat)
    requires AllNominal(bet, raw) && i < |raw| && EventSum(raw) <= MAX_INT64
    ensures NominalBefore(bet, raw, i) == EventsBefore(raw, i) >= 0 && EventsBefore(raw, i + 1) <= EventSum(raw)
    ensures NominalBefore(bet, raw, i + 1) == EventsBefore(raw, i + 1)
  {
    NominalIsAmount(bet, raw, i);
    NominalIsAmount(bet, raw, i + 1);
    EventsBeforeGrow(raw, i + 1, |raw|);
  }

  lemma SharesAgree(bet: int, raw: seq<Event>, events: seq<Event>, budget: int, i: nat)
    requires AllNominal(bet, raw) && Extends(raw, events) && i < |events| && HasNominal(events[i]) && EventSum(raw) <= MAX_INT64
    requires forall j :: 0 <= j < |raw| ==> events[j] == CappedEvent(raw, j, budget)
    ensures i < |raw| && 0 <= events[i].multiplier && Nominal(bet, events[i]) <= MAX_INT64
    ensures events[i].amount == Share(NominalBefore(bet, events, i), Nominal(bet, events[i]), budget)
  {
    assert events[i] == CappedEvent(raw, i, budget);
    NominalKept(bet, raw, events, i);
    NominalFits(bet, raw, i);
  }

  lemma SharesAccepted(c: Config, input: SpinInput, raw: Outcome)
    requires CapReady(c, input, raw)
    ensures SharesOk(input.bet, Capped(c, input, raw).events, EventBudget(c, input, raw))
  {
    var o := Capped(c, input, raw);
    CappedFacts(c, input, raw);
    forall i | 0 <= i < |o.events|
      ensures ShareOk(input.bet, o.events, i, EventBudget(c, input, raw))
    {
      if HasNominal(o.events[i]) {
        SharesAgree(input.bet, raw.events, o.events, EventBudget(c, input, raw), i);
      }
    }
  }

  lemma NoticeAccepted(c: Config, input: SpinInput, raw: Outcome)
    requires CapReady(c, input, raw)
    ensures var o := Capped(c, input, raw);
            var notices := Indexes(o.events, WinCapReached);
            && ((raw.total > 0 && raw.total >= Budget(c, input)) <==> |notices| == 1)
            && (|notices| == 1 ==> 0 <= notices[0] < |o.events| && o.events[notices[0]].multiplier == c.maxWin
                                   && o.events[notices[0]].cumulative == GameCap(c, input))
  {
    NoticePlace(c, input, raw);
    if raw.total > 0 && raw.total >= Budget(c, input) {
      CappedFacts(c, input, raw);
      assert Capped(c, input, raw).events[|raw.events|] == CapEvent(c, input);
    }
  }

  lemma CappedAwardsAccepted(c: Config, input: SpinInput, raw: Outcome)
    requires CapReady(c, input, raw)
    ensures CappedAwardsOk(c, input, Capped(c, input, raw), raw.wins)
  {
    NoticeAccepted(c, input, raw);
    PaidSums(c, input, raw);
    SharesAccepted(c, input, raw);
  }

  lemma {:induction false} PaidBeforeProjected(wins: seq<Win>, budget: int, n: nat)
    requires n <= |wins| && AwardsNonNegative(wins) && 0 <= budget
    ensures |ProjectedWins(wins, budget)| == |wins|
    ensures PaidBefore(ProjectedWins(wins, budget), n) == Min(budget, WinsBefore(wins, n))
  {
    ProjectedWinsAt(wins, budget, |wins|);
    if n > 0 {
      PaidBeforeProjected(wins, budget, n - 1);
      WinsBeforeNonNegative(wins, n - 1);
      assert ProjectedWins(wins, budget)[n - 1] == PaidWin(wins, n - 1, budget);
    }
  }

  lemma TotalAccepted(c: Config, input: SpinInput, raw: Outcome)
    requires CapReady(c, input, raw)
    ensures TotalOk(Capped(c, input, raw))
  {
    var budget := Budget(c, input);
    CappedFacts(c, input, raw);
    PaidSums(c, input, raw);
    PaidBeforeProjected(raw.wins, budget, |raw.wins|);
    WinsBeforeIsSum(raw.wins, |raw.wins|);
    assert raw.wins[..|raw.wins|] == raw.wins;
  }

  lemma WinRulesAccepted(c: Config, input: SpinInput, raw: Outcome)
    requires CapReady(c, input, raw) && GridOk(raw.grid)
    requires forall i :: 0 <= i < |raw.wins| ==> NominalWinOk(raw.wins[i], raw.grid)
    ensures var o := Capped(c, input, raw); forall i :: 0 <= i < |o.wins| ==> WinOk(o.wins[i], o.grid)
  {
    var o, budget := Capped(c, input, raw), Budget(c, input);
    ProjectedWinsAt(raw.wins, budget, |raw.wins|);
    forall i | 0 <= i < |o.wins|
      ensures WinOk(o.wins[i], o.grid)
    {
      WinsBeforeNonNegative(raw.wins, i);
      ShareIsMinimum(WinsBefore(raw.wins, i), raw.wins[i].amount, budget);
      ProjectedWinOk(raw.wins[i], raw.grid, Share(WinsBefore(raw.wins, i), raw.wins[i].amount, budget));
    }
  }
}
