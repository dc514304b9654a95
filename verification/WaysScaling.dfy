/** Scaling awards to a bet: one rounded amount per win, shared out over its paths by largest remainder. */
module WaysScaling {
  import opened Money
  import opened GameTypes
  import opened Ways

  /** An amount scaled by bet/unit, rounded to nearest, and at least one for a positive amount. */
  function Rounded(amount: int, bet: int, unit: int): int
    requires unit > 0
  {
    var quotient, remainder := (amount * bet) / unit, (amount * bet) % unit;
    var nearest := if remainder >= unit - remainder then quotient + 1 else quotient;
    if amount > 0 && nearest == 0 then 1 else nearest
  }

  /** A whole number of units nearest to a numerator, the upper one of two. */
  predicate NearestUnits(r: int, numerator: int, unit: int) {
    (2 * r - 1) * unit <= 2 * numerator < (2 * r + 1) * unit
  }

  /** Rounding is to nearest with ties up; only a positive amount too small for one unit is raised to it. */
  lemma RoundedNearest(amount: int, bet: int, unit: int)
    requires unit > 0 && 0 <= amount && 0 <= bet
    ensures var r := Rounded(amount, bet, unit);
            NearestUnits(r, amount * bet, unit) || (amount > 0 && r == 1 && NearestUnits(0, amount * bet, unit))
  {
    var n := amount * bet;
    var quotient, remainder := n / unit, n % unit;
    assert n == unit * quotient + remainder;
    Doubled(unit, quotient);
    Doubled(unit, quotient + 1);
  }

  lemma Doubled(unit: int, q: int)
    ensures (2 * q - 1) * unit == 2 * (unit * q) - unit && (2 * q + 1) * unit == 2 * (unit * q) + unit
  {
  }

  /** The scaling of one amount; the code's own guard against overflow in the rounding step cannot fire. */
  method ScaleAward(amount: int, bet: int, unit: int) returns (r: Result<int>)
    requires unit > 0
    ensures r.Ok? <==> 0 <= amount && 0 <= bet && amount * bet <= MAX_INT64
    ensures r.Ok? ==> r.value == Rounded(amount, bet, unit) && 0 <= r.value <= MAX_INT64
  {
    var numerator := SafeMul(amount, bet);
    if numerator.Err? {
      return numerator;
    }
    var quotient := numerator.value / unit;
    var remainder := numerator.value % unit;
    RoundedFits(numerator.value, unit);
    if remainder >= unit - remainder {
      if quotient == MAX_INT64 {
        return Err(MoneyOverflow);
      }
      quotient := quotient + 1;
    }
    if amount > 0 && quotient == 0 {
      return Ok(1);
    }
    return Ok(quotient);
  }

  lemma RoundedFits(numerator: int, unit: int)
    requires 0 <= numerator <= MAX_INT64 && unit > 0
    ensures 0 <= numerator / unit <= MAX_INT64
    ensures numerator % unit >= unit - numerator % unit ==> numerator / unit < MAX_INT64
  {
    var q, m := numerator / unit, numerator % unit;
    assert numerator == q * unit + m;
    if unit > 1 && q >= MAX_INT64 {
      MulMonotone(MAX_INT64, q, unit);
      MulMonotone(2, unit, MAX_INT64);
    }
  }

  function Numerator(path: PathAward, bet: int): int {
    path.amount * bet
  }

  /** The remainders of the exact path shares. */
  function Remainders(paths: seq<PathAward>, bet: int, unit: int): (rems: seq<int>)
    requires unit > 0
    ensures |rems| == |paths|
  {
    seq(|paths|, i requires 0 <= i < |paths| => Numerator(paths[i], bet) % unit)
  }

  /** The sum of the path shares rounded down. */
  function FloorSum(paths: seq<PathAward>, bet: int, unit: int): int
    requires unit > 0
  {
    if paths == [] then 0
    else FloorSum(paths[..|paths| - 1], bet, unit) + Numerator(paths[|paths| - 1], bet) / unit
  }

  /** Path i is served before path j: it has the larger remainder, or the same one and comes first. */
  predicate Before(rems: seq<int>, i: int, j: int)
    requires 0 <= i < |rems| && 0 <= j < |rems|
  {
    rems[i] > rems[j] || (rems[i] == rems[j] && i < j)
  }

  function ServedBefore(rems: seq<int>, j: int): set<int>
    requires 0 <= j < |rems|
  {
    set i | 0 <= i < |rems| && Before(rems, i, j)
  }

  /** How many paths are served before path j. */
  function Rank(rems: seq<int>, j: int): nat
    requires 0 <= j < |rems|
  {
    |ServedBefore(rems, j)|
  }

  /** A path's scaled amount: its exact share rounded down, plus one unit if it ranks among the served. */
  function ScaledAmount(paths: seq<PathAward>, i: int, aggregate: int, bet: int, unit: int): int
    requires unit > 0 && 0 <= i < |paths|
  {
    Numerator(paths[i], bet) / unit +
    if Rank(Remainders(paths, bet, unit), i) < aggregate - FloorSum(paths, bet, unit) then 1 else 0
  }

  function ScaledPath(paths: seq<PathAward>, i: int, aggregate: int, bet: int, unit: int): PathAward
    requires unit > 0 && 0 <= i < |paths|
  {
    var amount := ScaledAmount(paths, i, aggregate, bet, unit);
    var base := if paths[i].multiplier == 1 then amount
                else if amount == 0 then 0
                else Rounded(paths[i].base, bet, unit);
    paths[i].(base := base, amount := amount, paid := amount)
  }

  function ScaledPaths(paths: seq<PathAward>, aggregate: int, bet: int, unit: int): (scaled: seq<PathAward>)
    requires unit > 0
    ensures |scaled| == |paths|
  {
    seq(|paths|, i requires 0 <= i < |paths| => ScaledPath(paths, i, aggregate, bet, unit))
  }

  /** A win scaled to a bet. */
  function ScaledWin(win: Win, bet: int, unit: int): Win
    requires unit > 0
  {
    var amount := Rounded(win.amount, bet, unit);
    win.(amount := amount, paid := amount, paths := ScaledPaths(win.paths, amount, bet, unit))
  }

  function ScaledWins(wins: seq<Win>, bet: int, unit: int): (scaled: seq<Win>)
    requires unit > 0
    ensures |scaled| == |wins|
    ensures forall i :: 0 <= i < |wins| ==> scaled[i] == ScaledWin(wins[i], bet, unit)
  {
    seq(|wins|, i requires 0 <= i < |wins| => ScaledWin(wins[i], bet, unit))
  }
}
