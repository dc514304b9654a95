/** The largest-remainder rule: ranks, totals and bounds of the scaled path amounts. */
module LargestRemainder {
  import opened Money
  import opened FiniteSets
  import opened GameTypes
  import opened Ways
  import opened WaysScaling

  lemma BeforeIsStrictOrder(rems: seq<int>, i: int, j: int, k: int)
    requires 0 <= i < |rems| && 0 <= j < |rems| && 0 <= k < |rems|
    ensures !Before(rems, i, i)
    ensures i != j ==> Before(rems, i, j) || Before(rems, j, i)
    ensures Before(rems, i, j) && Before(rems, j, k) ==> Before(rems, i, k)
  {
  }

  /** A path served before another has the smaller rank. */
  lemma RankGrows(rems: seq<int>, i: int, j: int)
    requires 0 <= i < |rems| && 0 <= j < |rems| && Before(rems, i, j)
    ensures Rank(rems, i) < Rank(rems, j)
  {
    assert ServedBefore(rems, i) + {i} <= ServedBefore(rems, j);
    Fewer(ServedBefore(rems, i) + {i}, ServedBefore(rems, j));
  }

  /** The paths that get an extra unit when there are k of them. */
  function Served(rems: seq<int>, k: int): set<int> {
    set i | 0 <= i < |rems| && Rank(rems, i) < k
  }

  /** The first of a non-empty group of paths in serving order. */
  lemma {:induction false} FirstServed(rems: seq<int>, group: set<int>) returns (first: int)
    requires group != {} && forall i :: i in group ==> 0 <= i < |rems|
    ensures first in group && forall i :: i in group && i != first ==> Before(rems, first, i)
  {
    SomeIndex(group);
    first :| first in group;
    var rest := group - {first};
    if rest != {} {
      var best := FirstServed(rems, rest);
      if Before(rems, best, first) {
        first := best;
      } else {
        forall i | i in group && i != first
          ensures Before(rems, first, i)
        {
          if i != best {
            BeforeIsStrictOrder(rems, first, best, i);
          }
        }
      }
    }
  }

  /** While fewer than all paths are served, the next one in order has their number as rank. */
  lemma NextServed(rems: seq<int>, k: nat) returns (first: int)
    requires k < |rems| && |Served(rems, k)| == k
    ensures 0 <= first < |rems| && Rank(rems, first) == k
  {
    var n := |rems|;
    var served := Served(rems, k);
    var waiting := Indexes(n) - served;
    assert waiting != {} by {
      if Indexes(n) <= served {
        Fewer(Indexes(n), served);
      }
    }
    first := FirstServed(rems, waiting);
    forall i | 0 <= i < n
      ensures Before(rems, i, first) <==> i in served
    {
      if i in served && i != first && Before(rems, first, i) {
        RankGrows(rems, first, i);
      }
      BeforeIsStrictOrder(rems, i, first, i);
    }
    assert ServedBefore(rems, first) == served;
  }

  /** Exactly k paths rank below k. */
  lemma {:induction false} ServedCount(rems: seq<int>, k: nat)
    requires k <= |rems|
    ensures |Served(rems, k)| == k
  {
    if k == 0 {
      assert Served(rems, 0) == {};
    } else {
      ServedCount(rems, k - 1);
      var first := NextServed(rems, k - 1);
      forall i | 0 <= i < |rems|
        ensures Rank(rems, i) < k <==> i in Served(rems, k - 1) || i == first
      {
        if i != first {
          RanksDiffer(rems, i, first);
        }
      }
      assert Served(rems, k) == Served(rems, k - 1) + {first};
    }
  }

  /** Two paths never share a rank. */
  lemma RanksDiffer(rems: seq<int>, i: int, j: int)
    requires 0 <= i < |rems| && 0 <= j < |rems| && i != j
    ensures Rank(rems, i) != Rank(rems, j)
  {
    if Before(rems, i, j) {
      RankGrows(rems, i, j);
    } else {
      RankGrows(rems, j, i);
    }
  }

  function ServedAmong(rems: seq<int>, k: int, m: int): set<int> {
    set i | 0 <= i < m && i < |rems| && Rank(rems, i) < k
  }

  /** Over the first m paths, the scaled amounts exceed the floors by the served paths among them. */
  lemma {:induction false} ScaledPrefixSum(paths: seq<PathAward>, aggregate: int, bet: int, unit: int, m: nat)
    requires unit > 0 && m <= |paths|
    ensures AmountSum(ScaledPaths(paths, aggregate, bet, unit)[..m]) ==
            FloorSum(paths[..m], bet, unit) +
            |ServedAmong(Remainders(paths, bet, unit), aggregate - FloorSum(paths, bet, unit), m)|
  {
    var scaled, rems := ScaledPaths(paths, aggregate, bet, unit), Remainders(paths, bet, unit);
    var k := aggregate - FloorSum(paths, bet, unit);
    if m == 0 {
      assert ServedAmong(rems, k, 0) == {};
    } else {
      ScaledPrefixSum(paths, aggregate, bet, unit, m - 1);
      assert scaled[..m][..m - 1] == scaled[..m - 1] && paths[..m][..m - 1] == paths[..m - 1];
      assert scaled[m - 1].amount == ScaledAmount(paths, m - 1, aggregate, bet, unit);
      ServedAmongStep(rems, k, m - 1);
    }
  }

  lemma ServedAmongStep(rems: seq<int>, k: int, m: nat)
    requires m < |rems|
    ensures |ServedAmong(rems, k, m + 1)| == |ServedAmong(rems, k, m)| + if Rank(rems, m) < k then 1 else 0
  {
    if Rank(rems, m) < k {
      assert ServedAmong(rems, k, m + 1) == ServedAmong(rems, k, m) + {m};
    } else {
      assert ServedAmong(rems, k, m + 1) == ServedAmong(rems, k, m);
    }
  }

  /** The scaled paths sum exactly to the aggregate, whenever the leftover is between none and one unit a path. */
  lemma ScaledSumExact(paths: seq<PathAward>, aggregate: int, bet: int, unit: int)
    requires unit > 0 && 0 <= aggregate - FloorSum(paths, bet, unit) <= |paths|
    ensures AmountSum(ScaledPaths(paths, aggregate, bet, unit)) == aggregate
  {
    var scaled, rems := ScaledPaths(paths, aggregate, bet, unit), Remainders(paths, bet, unit);
    var k := aggregate - FloorSum(paths, bet, unit);
    ScaledPrefixSum(paths, aggregate, bet, unit, |paths|);
    assert scaled[..|paths|] == scaled && paths[..|paths|] == paths;
    assert ServedAmong(rems, k, |paths|) == Served(rems, k);
    ServedCount(rems, k);
  }

  function RemainderSum(paths: seq<PathAward>, bet: int, unit: int): int
    requires unit > 0
  {
    if paths == [] then 0
    else RemainderSum(paths[..|paths| - 1], bet, unit) + Numerator(paths[|paths| - 1], bet) % unit
  }

  /** Floors and remainders together are the exact total. */
  lemma {:induction false} FloorsAndRemainders(paths: seq<PathAward>, bet: int, unit: int)
    requires unit > 0
    ensures FloorSum(paths, bet, unit) * unit + RemainderSum(paths, bet, unit) == AmountSum(paths) * bet
    ensures 0 <= RemainderSum(paths, bet, unit) <= |paths| * (unit - 1)
  {
    if paths != [] {
      var last := |paths| - 1;
      FloorsAndRemainders(paths[..last], bet, unit);
      AddShare(FloorSum(paths[..last], bet, unit), RemainderSum(paths[..last], bet, unit),
               AmountSum(paths[..last]), paths[last].amount, bet, unit);
      assert last * (unit - 1) + (unit - 1) == |paths| * (unit - 1);
    }
  }

  lemma AddShare(floors: int, rests: int, sum: int, amount: int, bet: int, unit: int)
    requires unit > 0 && floors * unit + rests == sum * bet
    ensures (floors + amount * bet / unit) * unit + rests + amount * bet % unit == (sum + amount) * bet
    ensures 0 <= amount * bet % unit <= unit - 1
  {
    var n := amount * bet;
    assert n == (n / unit) * unit + n % unit;
    assert (floors + n / unit) * unit == floors * unit + (n / unit) * unit;
    assert (sum + amount) * bet == sum * bet + n;
  }

  /** Rounding the exact total n = f*unit + r moves it above f by at most one unit a path. */
  lemma RoundedAboveFloors(total: int, bet: int, unit: int, floors: int, rests: int, count: nat)
    requires unit > 0 && count >= 1 && total >= 0 && bet >= 0
    requires floors * unit + rests == total * bet && 0 <= rests <= count * (unit - 1)
    requires floors >= 0
    ensures floors <= Rounded(total, bet, unit) <= floors + count
  {
    var n := total * bet;
    var q, m := n / unit, n % unit;
    assert n == q * unit + m;
    assert (floors + count) * unit == floors * unit + count * unit;
    assert count * (unit - 1) == count * unit - count;
    assert (q + 1) * unit == q * unit + unit;
    assert q >= 0 by {
      MulMonotone(0, total, bet);
    }
    CancelFactor(floors, q + 1, unit);
    if m >= unit - m {
      CancelFactor(q, floors + count, unit);
    } else {
      CancelFactor(q, floors + count + 1, unit);
    }
  }

  lemma {:induction false} FloorSumNonNegative(paths: seq<PathAward>, bet: int, unit: int)
    requires unit > 0 && bet >= 0 && forall i :: 0 <= i < |paths| ==> paths[i].amount >= 0
    ensures FloorSum(paths, bet, unit) >= 0
  {
    if paths != [] {
      var last := |paths| - 1;
      FloorSumNonNegative(paths[..last], bet, unit);
      MulMonotone(0, paths[last].amount, bet);
    }
  }

  /** Both refusals of the sharing step are unreachable when the aggregate is the rounded total. */
  lemma AggregateShareable(paths: seq<PathAward>, bet: int, unit: int)
    requires unit > 0 && bet >= 0 && paths != []
    requires forall i :: 0 <= i < |paths| ==> paths[i].amount >= 0
    requires AmountSum(paths) >= 0
    ensures 0 <= Rounded(AmountSum(paths), bet, unit) - FloorSum(paths, bet, unit) <= |paths|
  {
    FloorsAndRemainders(paths, bet, unit);
    FloorSumNonNegative(paths, bet, unit);
    RoundedAboveFloors(AmountSum(paths), bet, unit, FloorSum(paths, bet, unit),
                       RemainderSum(paths, bet, unit), |paths|);
  }

  /** Larger remainders are served first, and earlier paths first among equals. */
  lemma ServedInOrder(paths: seq<PathAward>, aggregate: int, bet: int, unit: int, i: int, j: int)
    requires unit > 0 && 0 <= i < |paths| && 0 <= j < |paths|
    ensures ScaledAmount(paths, i, aggregate, bet, unit) - Numerator(paths[i], bet) / unit in {0, 1}
    ensures var rems := Remainders(paths, bet, unit);
            ScaledAmount(paths, j, aggregate, bet, unit) > Numerator(paths[j], bet) / unit && Before(rems, i, j) ==>
              ScaledAmount(paths, i, aggregate, bet, unit) > Numerator(paths[i], bet) / unit
  {
    var rems := Remainders(paths, bet, unit);
    if Before(rems, i, j) {
      RankGrows(rems, i, j);
    }
  }

  /** The shown base amount never exceeds the path amount, and they are zero together. */
  lemma BaseWithinAmount(path: PathAward, bet: int, unit: int, amount: int)
    requires unit > 0 && bet > 0 && path.base > 0 && path.multiplier >= 2
    requires path.amount == path.base * path.multiplier
    requires path.amount * bet / unit <= amount
    ensures amount > 0 ==> 1 <= Rounded(path.base, bet, unit) <= amount
  {
    var x := path.base * bet;
    var q, m := x / unit, x % unit;
    assert x == q * unit + m;
    MulMonotone(2, path.multiplier, x);
    assert path.amount * bet == path.multiplier * x;
    assert 0 < x by {
      MulMonotone(1, bet, path.base);
    }
    if q == 0 && m < unit - m {
    } else if m >= unit - m {
      assert 2 * x >= (2 * q + 1) * unit;
      AtLeast(path.multiplier * x, 2 * q + 1, unit);
    } else {
      assert 2 * x >= (2 * q) * unit;
      AtLeast(path.multiplier * x, 2 * q, unit);
    }
  }

  lemma AtLeast(n: int, q: int, unit: int)
    requires unit > 0 && n >= q * unit
    ensures n / unit >= q
  {
    assert n == (n / unit) * unit + n % unit;
    assert (n / unit + 1) * unit == (n / unit) * unit + unit;
    CancelFactor(q, n / unit + 1, unit);
  }
}
