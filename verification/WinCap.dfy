/** The whole-game win cap: awards are paid in order until the budget is used up. */
module WinCap {
  import opened Money
  import opened GameTypes
  import opened Ways
  import opened WaysScaling
  import opened PathSharing
  import opened WaysForBet
  import opened GameConfig

  /** What is paid of an amount when the amounts before it have already drawn on the budget. */
  function Share(before: int, amount: int, budget: int): int {
    Min(budget, before + amount) - Min(budget, before)
  }

  lemma ShareIsMinimum(before: int, amount: int, budget: int)
    requires 0 <= before && 0 <= amount && 0 <= budget
    ensures Share(before, amount, budget) == Min(amount, budget - Min(budget, before))
    ensures 0 <= Share(before, amount, budget) <= amount
  {
  }

  /** The amounts of the first n paths. */
  function PathsBefore(paths: seq<PathAward>, n: nat): int
    requires n <= |paths|
  {
    if n == 0 then 0 else PathsBefore(paths, n - 1) + paths[n - 1].amount
  }

  /** The amounts of the first n wins. */
  function WinsBefore(wins: seq<Win>, n: nat): int
    requires n <= |wins|
  {
    if n == 0 then 0 else WinsBefore(wins, n - 1) + wins[n - 1].amount
  }

  /** What the first n events award. */
  function EventsBefore(events: seq<Event>, n: nat): int
    requires n <= |events|
  {
    if n == 0 then 0
    else EventsBefore(events, n - 1) + if IsMonetary(events[n - 1].kind) then events[n - 1].amount else 0
  }

  lemma {:induction false} PathsBeforeIsSum(paths: seq<PathAward>, n: nat)
    requires n <= |paths|
    ensures PathsBefore(paths, n) == AmountSum(paths[..n])
  {
    if n > 0 {
      PathsBeforeIsSum(paths, n - 1);
      assert paths[..n][..n - 1] == paths[..n - 1];
    }
  }

  lemma {:induction false} WinsBeforeIsSum(wins: seq<Win>, n: nat)
    requires n <= |wins|
    ensures WinsBefore(wins, n) == WinSum(wins[..n])
  {
    if n > 0 {
      WinsBeforeIsSum(wins, n - 1);
      assert wins[..n][..n - 1] == wins[..n - 1];
    }
  }

  function ProjectedPath(paths: seq<PathAward>, i: int, budget: int): PathAward
    requires 0 <= i < |paths|
  {
    paths[i].(paid := Share(PathsBefore(paths, i), paths[i].amount, budget))
  }

  function ProjectedPaths(paths: seq<PathAward>, budget: int, n: nat): seq<PathAward>
    requires n <= |paths|
  {
    if n == 0 then [] else ProjectedPaths(paths, budget, n - 1) + [ProjectedPath(paths, n - 1, budget)]
  }

  /** A win of which only an amount is paid, first paths first. */
  function ProjectedWin(win: Win, amount: int): Win {
    win.(paid := amount, paths := ProjectedPaths(win.paths, amount, |win.paths|))
  }

  function PaidWin(wins: seq<Win>, i: nat, budget: int): Win
    requires i < |wins|
  {
    ProjectedWin(wins[i], Share(WinsBefore(wins, i), wins[i].amount, budget))
  }

  function ProjectedWinsTo(wins: seq<Win>, budget: int, n: nat): seq<Win>
    requires n <= |wins|
  {
    if n == 0 then []
    else
      ProjectedWinsTo(wins, budget, n - 1) + [PaidWin(wins, n - 1, budget)]
  }

  /** The wins of a spin under a budget, first wins first. */
  function ProjectedWins(wins: seq<Win>, budget: int): seq<Win> {
    ProjectedWinsTo(wins, budget, |wins|)
  }

  lemma {:induction false} ProjectedPathsAt(paths: seq<PathAward>, budget: int, n: nat)
    requires n <= |paths|
    ensures |ProjectedPaths(paths, budget, n)| == n
    ensures forall i :: 0 <= i < n ==> ProjectedPaths(paths, budget, n)[i] == ProjectedPath(paths, i, budget)
  {
    if n > 0 {
      ProjectedPathsAt(paths, budget, n - 1);
    }
  }

  lemma {:induction false} ProjectedWinsAt(wins: seq<Win>, budget: int, n: nat)
    requires n <= |wins|
    ensures |ProjectedWinsTo(wins, budget, n)| == n
    ensures forall i :: 0 <= i < n ==> ProjectedWinsTo(wins, budget, n)[i] == PaidWin(wins, i, budget)
  {
    if n > 0 {
      ProjectedWinsAt(wins, budget, n - 1);
    }
  }

  predicate IsMonetary(kind: EventKind) {
    kind == WheelAwarded || kind == VaultAwarded
  }

  /** The sum of the amounts that events award. */
  function EventSum(events: seq<Event>): int {
    EventsBefore(events, |events|)
  }

  function CappedEvent(events: seq<Event>, i: int, budget: int): Event
    requires 0 <= i < |events|
  {
    if IsMonetary(events[i].kind)
    then events[i].(amount := Share(EventsBefore(events, i), events[i].amount, budget))
    else events[i]
  }

  function CappedEventsTo(events: seq<Event>, budget: int, n: nat): seq<Event>
    requires n <= |events|
  {
    if n == 0 then [] else CappedEventsTo(events, budget, n - 1) + [CappedEvent(events, n - 1, budget)]
  }

  function CappedEvents(events: seq<Event>, budget: int): seq<Event> {
    CappedEventsTo(events, budget, |events|)
  }

  lemma {:induction false} CappedEventsAt(events: seq<Event>, budget: int, n: nat)
    requires n <= |events|
    ensures |CappedEventsTo(events, budget, n)| == n
    ensures forall i :: 0 <= i < n ==> CappedEventsTo(events, budget, n)[i] == CappedEvent(events, i, budget)
  {
    if n > 0 {
      CappedEventsAt(events, budget, n - 1);
    }
  }

  function PriorWin(input: SpinInput): int {
    if input.feature.Canonical().Active() then input.feature.Canonical().win else 0
  }

  /** The most the whole game may pay. */
  function GameCap(c: Config, input: SpinInput): int {
    input.bet * c.maxWin
  }

  /** What this spin may still pay. */
  function Budget(c: Config, input: SpinInput): int {
    GameCap(c, input) - PriorWin(input)
  }

  function CapEvent(c: Config, input: SpinInput): Event {
    Bare(WinCapReached).(multiplier := c.maxWin, cumulative := GameCap(c, input))
  }

  function CompletionEvent(mode: FeatureMode, awarded: int, cycle: int): Event {
    Bare(FreeSpinsCompleted).(mode := mode, awarded := awarded, cumulative := cycle)
  }

  /** What is paid of a spin's wins and events. */
  function PaidTotal(budget: int, wins: seq<Win>, events: seq<Event>): int {
    Min(budget, WinSum(wins) + EventSum(events))
  }

  /** The events of a spin, clipped to what the wins leave of the budget. */
  function PaidEvents(budget: int, wins: seq<Win>, events: seq<Event>): seq<Event> {
    CappedEvents(events, budget - Min(budget, WinSum(wins)))
  }

  /** The boundary event, for clipped results and for results that exactly reach the cap. */
  function CapNotice(c: Config, input: SpinInput, rawTotal: int): seq<Event> {
    if rawTotal > 0 && rawTotal >= Budget(c, input) then [CapEvent(c, input)] else []
  }

  /** The completion event of a feature whose last spin this was. */
  function Completion(input: SpinInput, next: FeatureState, paid: int): seq<Event> {
    var feature := input.feature.Canonical();
    if feature.Active() && next.remaining == 0
    then [CompletionEvent(feature.mode, next.awarded, PriorWin(input) + paid)]
    else []
  }

  /** The state after the spin: completed, carrying the cycle win, or as it was. */
  function ClosedNext(input: SpinInput, next: FeatureState, paid: int): FeatureState {
    if input.feature.Canonical().Active() then
      if next.remaining == 0 then next.WithoutFreeSpins() else next.(win := PriorWin(input) + paid)
    else if next.Active() then next.(win := paid)
    else next
  }

  /** A raw outcome projected onto the remaining budget of its game. */
  function Capped(c: Config, input: SpinInput, raw: Outcome): Outcome {
    var budget := Budget(c, input);
    var paid := PaidTotal(budget, raw.wins, raw.events);
    Outcome(raw.grid,
            ProjectedWins(raw.wins, budget),
            PaidEvents(budget, raw.wins, raw.events) + CapNotice(c, input, raw.total) + Completion(input, raw.next, paid),
            paid,
            ClosedNext(input, raw.next, paid))
  }

  predicate AwardsNonNegative(wins: seq<Win>) {
    forall i :: 0 <= i < |wins| ==>
      wins[i].amount >= 0 && forall j :: 0 <= j < |wins[i].paths| ==> wins[i].paths[j].amount >= 0
  }

  predicate EventsNonNegative(events: seq<Event>) {
    forall i :: 0 <= i < |events| ==> events[i].amount >= 0
  }

  lemma {:induction false} PathsBeforeNonNegative(paths: seq<PathAward>, n: nat)
    requires n <= |paths| && forall j :: 0 <= j < |paths| ==> paths[j].amount >= 0
    ensures PathsBefore(paths, n) >= 0
  {
    if n > 0 {
      PathsBeforeNonNegative(paths, n - 1);
    }
  }

  lemma {:induction false} WinsBeforeNonNegative(wins: seq<Win>, n: nat)
    requires n <= |wins| && AwardsNonNegative(wins)
    ensures WinsBefore(wins, n) >= 0
  {
    if n > 0 {
      WinsBeforeNonNegative(wins, n - 1);
    }
  }

  lemma {:induction false} EventsBeforeNonNegative(events: seq<Event>, n: nat)
    requires n <= |events| && EventsNonNegative(events)
    ensures EventsBefore(events, n) >= 0
  {
    if n > 0 {
      EventsBeforeNonNegative(events, n - 1);
    }
  }

  method ProjectWinToAmount(win: Win, amount: int) returns (projected: Win)
    requires amount >= 0 && forall j :: 0 <= j < |win.paths| ==> win.paths[j].amount >= 0
    ensures projected == ProjectedWin(win, amount)
  {
    var paths := [];
    var remaining := amount;
    for i := 0 to |win.paths|
      invariant paths == ProjectedPaths(win.paths, amount, i)
      invariant remaining == amount - Min(amount, PathsBefore(win.paths, i))
    {
      PathsBeforeNonNegative(win.paths, i);
      var paid := Min(win.paths[i].amount, remaining);
      ShareIsMinimum(PathsBefore(win.paths, i), win.paths[i].amount, amount);
      paths := paths + [win.paths[i].(paid := paid)];
      remaining := remaining - paid;
    }
    return win.(paid := amount, paths := paths);
  }

  method ProjectWinsToBudget(wins: seq<Win>, budget: int) returns (projected: seq<Win>, paid: int)
    requires budget >= 0 && AwardsNonNegative(wins)
    ensures projected == ProjectedWins(wins, budget)
    ensures paid == Min(budget, WinSum(wins))
  {
    projected := [];
    var remaining := budget;
    for i := 0 to |wins|
      invariant projected == ProjectedWinsTo(wins, budget, i)
      invariant remaining == budget - Min(budget, WinsBefore(wins, i))
    {
      WinsBeforeNonNegative(wins, i);
      var share := Min(wins[i].amount, remaining);
      ShareIsMinimum(WinsBefore(wins, i), wins[i].amount, budget);
      var win := ProjectWinToAmount(wins[i], share);
      projected := projected + [win];
      remaining := remaining - share;
    }
    WinsBeforeIsSum(wins, |wins|);
    assert wins[..|wins|] == wins;
    paid := budget - remaining;
  }

  lemma SumsNonNegative(wins: seq<Win>, events: seq<Event>)
    requires AwardsNonNegative(wins) && EventsNonNegative(events)
    ensures WinSum(wins) >= 0 && EventSum(events) >= 0
  {
    WinsBeforeNonNegative(wins, |wins|);
    WinsBeforeIsSum(wins, |wins|);
    assert wins[..|wins|] == wins;
    EventsBeforeNonNegative(events, |events|);
  }

  /** The outcome under construction, which the cap rewrites in place. */
  class SpinRecord {
    var grid: Grid
    var wins: seq<Win>
    var events: seq<Event>
    var total: int
    var next: FeatureState

    constructor (raw: Outcome)
      ensures Value() == raw
    {
      grid, wins, events, total, next := raw.grid, raw.wins, raw.events, raw.total, raw.next;
    }

    function Value(): Outcome
      reads this
    {
      Outcome(grid, wins, events, total, next)
    }

    /** The event loop of the cap: clips monetary events in place and returns the new paid total. */
    method CapEvents(budget: int, waysPaid: int) returns (r: Result<int>)
      requires 0 <= budget && 0 <= waysPaid && budget + waysPaid <= MAX_INT64
      requires EventsNonNegative(events)
      modifies this`events
      ensures r == Ok(waysPaid + Min(budget, EventSum(old(events))))
      ensures events == CappedEvents(old(events), budget)
    {
      ghost var was := events;
      var remaining := budget;
      var totalPaid := waysPaid;
      for i := 0 to |events|
        invariant |events| == |was|
        invariant forall j :: 0 <= j < i ==> events[j] == CappedEvent(was, j, budget)
        invariant forall j :: i <= j < |events| ==> events[j] == was[j]
        invariant remaining == budget - Min(budget, EventsBefore(was, i))
        invariant totalPaid == waysPaid + budget - remaining
      {
        EventsBeforeNonNegative(was, i);
        if !IsMonetary(events[i].kind) {
          continue;
        }
        ShareIsMinimum(EventsBefore(was, i), was[i].amount, budget);
        var paid := Min(events[i].amount, remaining);
        events := events[i := events[i].(amount := paid)];
        remaining := remaining - paid;
        var sum := SafeAdd(totalPaid, paid);
        if sum.Err? {
          return sum;
        }
        totalPaid := sum.value;
      }
      CappedEventsAt(was, budget, |was|);
      return Ok(totalPaid);
    }

    /** Clips wins and events to the budget and replaces the total by what is paid. */
    method ProjectAwards(budget: int) returns (r: Result<int>)
      requires 0 <= budget <= MAX_INT64 && AwardsNonNegative(wins) && EventsNonNegative(events)
      modifies this`wins, this`events, this`total
      ensures r == Ok(PaidTotal(budget, old(wins), old(events)))
      ensures wins == ProjectedWins(old(wins), budget)
      ensures events == PaidEvents(budget, old(wins), old(events))
      ensures total == r.value
      ensures 0 <= total <= budget
    {
      SumsNonNegative(wins, events);
      ghost var sum := WinSum(wins);
      var projected, waysPaid := ProjectWinsToBudget(wins, budget);
      wins := projected;
      r := CapEvents(budget - waysPaid, waysPaid);
      assert r.value == Min(budget, sum) + Min(budget - Min(budget, sum), EventSum(old(events)));
      total := r.value;
    }

    /** Announces the cap, then completes or carries on the feature. */
    method CloseSpin(c: Config, input: SpinInput, rawTotal: int) returns (r: Result<()>)
      requires 0 <= PriorWin(input) && 0 <= total <= Budget(c, input) && GameCap(c, input) <= MAX_INT64
      modifies this`events, this`next
      ensures r.Ok?
      ensures events == old(events) + CapNotice(c, input, rawTotal) + Completion(input, old(next), total)
      ensures next == ClosedNext(input, old(next), total)
    {
      var feature := input.feature.Canonical();
      var cycleWin := SafeAdd(PriorWin(input), total);
      if cycleWin.Err? {
        assert false;
      }
      if rawTotal > 0 && rawTotal >= Budget(c, input) {
        events := events + [CapEvent(c, input)];
      }
      if feature.Active() {
        if next.remaining == 0 {
          events := events + [CompletionEvent(feature.mode, next.awarded, cycleWin.value)];
          next := next.WithoutFreeSpins();
        } else {
          next := next.(win := cycleWin.value);
        }
      } else if next.Active() {
        next := next.(win := total);
      }
      return Ok(());
    }

    method ApplyWinCap(c: Config, input: SpinInput) returns (r: Result<()>)
      requires AwardsNonNegative(wins) && EventsNonNegative(events)
      modifies this
      ensures r.Ok? <==> && old(total) >= 0 && 0 <= input.bet && 0 <= c.maxWin && GameCap(c, input) <= MAX_INT64
                         && 0 <= PriorWin(input) <= GameCap(c, input)
      ensures r.Ok? ==> Value() == Capped(c, input, old(Value()))
    {
      if total < 0 {
        return Err(InvalidCap);
      }
      var cap := SafeMul(input.bet, c.maxWin);
      if cap.Err? {
        return Err(cap.fault);
      }
      assert cap.value == GameCap(c, input);
      if PriorWin(input) < 0 || PriorWin(input) > cap.value {
        return Err(InvalidCap);
      }
      r := ProjectOnto(c, input);
    }

    /** The projection itself, once the budget is known to be sound. */
    method ProjectOnto(c: Config, input: SpinInput) returns (r: Result<()>)
      requires AwardsNonNegative(wins) && EventsNonNegative(events)
      requires 0 <= PriorWin(input) <= GameCap(c, input) <= MAX_INT64
      modifies this
      ensures r.Ok? && Value() == Capped(c, input, old(Value()))
    {
      ghost var budget := Budget(c, input);
      var rawTotal := total;
      ghost var paid := PaidTotal(budget, wins, events);
      ghost var paidEvents := PaidEvents(budget, wins, events);
      var _ := ProjectAwards(Budget(c, input));
      assert total == paid && events == paidEvents;
      r := CloseSpin(c, input, rawTotal);
    }
  }
}
