/** The in-place scaling of a win's paths, proved against the rank definition of the largest-remainder rule. */
module PathSharing {
  import opened Money
  import opened FiniteSets
  import opened GameTypes
  import opened Ways
  import opened WaysScaling
  import opened LargestRemainder

  datatype RemainderRecord = RemainderRecord(index: int, remainder: int)

  predicate Prior(a: RemainderRecord, b: RemainderRecord) {
    a.remainder > b.remainder || (a.remainder == b.remainder && a.index < b.index)
  }

  predicate InServingOrder(records: seq<RemainderRecord>) {
    forall i, j :: 0 <= i < j < |records| ==> Prior(records[i], records[j])
  }

  /** Insertion behind every record with at least the same remainder, as a stable descending sort does. */
  function Inserted(sorted: seq<RemainderRecord>, x: RemainderRecord): (r: seq<RemainderRecord>)
    ensures |r| == |sorted| + 1
    ensures forall y :: y in r <==> y == x || y in sorted
  {
    if sorted == [] then [x]
    else
      var last := |sorted| - 1;
      if sorted[last].remainder >= x.remainder then sorted + [x]
      else Inserted(sorted[..last], x) + [sorted[last]]
  }

  /** The library's stable sort by descending remainder. */
  function StableSorted(records: seq<RemainderRecord>): (r: seq<RemainderRecord>)
    ensures |r| == |records|
    ensures forall y :: y in r <==> y in records
  {
    if records == [] then []
    else Inserted(StableSorted(records[..|records| - 1]), records[|records| - 1])
  }

  lemma {:induction false} InsertedInOrder(sorted: seq<RemainderRecord>, x: RemainderRecord)
    requires InServingOrder(sorted) && forall y :: y in sorted ==> y.index < x.index
    ensures InServingOrder(Inserted(sorted, x))
  {
    if sorted != [] {
      var last := |sorted| - 1;
      if sorted[last].remainder < x.remainder {
        InsertedInOrder(sorted[..last], x);
        var before := Inserted(sorted[..last], x);
        forall i | 0 <= i < |before|
          ensures Prior(before[i], sorted[last])
        {
          assert before[i] in before;
        }
      } else {
        forall i | 0 <= i < |sorted|
          ensures Prior(sorted[i], x)
        {
          assert sorted[i] in sorted;
        }
      }
    }
  }

  lemma {:induction false} SortedInOrder(records: seq<RemainderRecord>)
    requires forall i :: 0 <= i < |records| ==> records[i].index == i
    ensures InServingOrder(StableSorted(records))
  {
    if records != [] {
      var last := |records| - 1;
      SortedInOrder(records[..last]);
      forall y | y in StableSorted(records[..last])
        ensures y.index < last
      {
        assert y in records[..last];
      }
      InsertedInOrder(StableSorted(records[..last]), records[last]);
    }
  }

  function FirstIndexes(records: seq<RemainderRecord>, t: nat): (s: set<int>)
    requires t <= |records|
    ensures forall x :: x in s <==> exists a :: 0 <= a < t && records[a].index == x
  {
    if t == 0 then {} else FirstIndexes(records, t - 1) + {records[t - 1].index}
  }

  predicate RecordsOf(records: seq<RemainderRecord>, rems: seq<int>) {
    && |records| == |rems|
    && (forall a :: 0 <= a < |records| ==> 0 <= records[a].index < |rems| && rems[records[a].index] == records[a].remainder)
    && (forall i :: 0 <= i < |rems| ==> RemainderRecord(i, rems[i]) in records)
  }

  /** In serving order, the record at position t belongs to the path of rank t. */
  lemma {:induction false} RankOfRecord(records: seq<RemainderRecord>, rems: seq<int>, t: nat)
    requires RecordsOf(records, rems) && InServingOrder(records) && t < |records|
    ensures Rank(rems, records[t].index) == t
  {
    var j := records[t].index;
    forall i | 0 <= i < |rems|
      ensures Before(rems, i, j) <==> i in FirstIndexes(records, t)
    {
      assert RemainderRecord(i, rems[i]) in records;
      var a :| 0 <= a < |records| && records[a] == RemainderRecord(i, rems[i]);
      assert a < t ==> Prior(records[a], records[t]);
      assert t < a ==> Prior(records[t], records[a]);
    }
    assert ServedBefore(rems, j) == FirstIndexes(records, t);
    FirstIndexesCount(records, t);
  }

  lemma {:induction false} FirstIndexesCount(records: seq<RemainderRecord>, t: nat)
    requires t <= |records|
    requires forall i, j :: 0 <= i < j < |records| ==> records[i].index != records[j].index
    ensures |FirstIndexes(records, t)| == t
  {
    if t > 0 {
      FirstIndexesCount(records, t - 1);
      var x := records[t - 1].index;
      assert x !in FirstIndexes(records, t - 1);
      assert FirstIndexes(records, t) == FirstIndexes(records, t - 1) + {x};
    }
  }

  function FlooredPath(path: PathAward, bet: int, unit: int): PathAward
    requires unit > 0
  {
    var share := Numerator(path, bet) / unit;
    path.(amount := share, paid := share)
  }

  function RecordsFor(paths: seq<PathAward>, bet: int, unit: int): (records: seq<RemainderRecord>)
    requires unit > 0
    ensures |records| == |paths|
  {
    seq(|paths|, i requires 0 <= i < |paths| => RemainderRecord(i, Numerator(paths[i], bet) % unit))
  }

  /** The exact scaled total of the paths is an int64. */
  predicate SharesFit(paths: seq<PathAward>, bet: int) {
    && 0 <= bet
    && (forall i :: 0 <= i < |paths| ==> 0 <= paths[i].amount)
    && AmountSum(paths) * bet <= MAX_INT64
  }

  lemma {:induction false} AmountSumPrefix(paths: seq<PathAward>, i: nat)
    requires i <= |paths| && forall j :: 0 <= j < |paths| ==> 0 <= paths[j].amount
    ensures 0 <= AmountSum(paths[..i]) <= AmountSum(paths)
    decreases |paths|
  {
    if i < |paths| {
      var last := |paths| - 1;
      assert paths[..last][..i] == paths[..i];
      AmountSumPrefix(paths[..last], i);
    } else {
      assert paths[..i] == paths;
      if i > 0 {
        AmountSumPrefix(paths[..i - 1], i - 1);
        assert paths[..i - 1][..i - 1] == paths[..i - 1];
      }
    }
  }

  /** When the total fits, so does every share and every partial sum of shares. */
  lemma PrefixFits(paths: seq<PathAward>, bet: int, unit: int, i: nat)
    requires SharesFit(paths, bet) && unit > 0 && i < |paths|
    ensures 0 <= paths[i].amount * bet <= MAX_INT64
    ensures 0 <= FloorSum(paths[..i + 1], bet, unit) <= MAX_INT64
  {
    AmountSumPrefix(paths, i);
    AmountSumPrefix(paths, i + 1);
    assert paths[..i + 1][..i] == paths[..i];
    MulMonotone(AmountSum(paths[..i + 1]), AmountSum(paths), bet);
    MulMonotone(paths[i].amount, AmountSum(paths[..i + 1]), bet);
    MulMonotone(0, paths[i].amount, bet);
    FloorsAndRemainders(paths[..i + 1], bet, unit);
    FloorSumNonNegative(paths[..i + 1], bet, unit);
    MulMonotone(1, unit, FloorSum(paths[..i + 1], bet, unit));
  }

  /** One path's share rounded down, and what rounding leaves over. */
  method FloorPath(path: PathAward, bet: int, unit: int) returns (r: Result<PathAward>, remainder: int)
    requires unit > 0
    ensures r.Ok? <==> 0 <= path.amount && 0 <= bet && path.amount * bet <= MAX_INT64
    ensures r.Ok? ==> r.value == FlooredPath(path, bet, unit) && 0 <= r.value.amount <= MAX_INT64
    ensures r.Ok? ==> remainder == Numerator(path, bet) % unit
  {
    var numerator := SafeMul(path.amount, bet);
    if numerator.Err? {
      return Err(numerator.fault), 0;
    }
    RoundedFits(numerator.value, unit);
    var share := numerator.value / unit;
    return Ok(path.(amount := share, paid := share)), numerator.value % unit;
  }

  /** The first loop: floors in place, remainders on the side. */
  method FloorShares(paths: array<PathAward>, bet: int, unit: int)
    returns (r: Result<int>, records: seq<RemainderRecord>)
    requires unit > 0
    modifies paths
    ensures r.Ok? ==> 0 <= r.value == FloorSum(old(paths[..]), bet, unit) <= MAX_INT64
    ensures r.Ok? ==> forall i :: 0 <= i < paths.Length ==> paths[i] == FlooredPath(old(paths[i]), bet, unit)
    ensures r.Ok? ==> records == RecordsFor(old(paths[..]), bet, unit)
    ensures SharesFit(old(paths[..]), bet) ==> r.Ok?
  {
    ghost var was := paths[..];
    var total := 0;
    records := [];
    for i := 0 to paths.Length
      invariant forall j :: 0 <= j < i ==> paths[j] == FlooredPath(was[j], bet, unit)
      invariant forall j :: i <= j < paths.Length ==> paths[j] == was[j]
      invariant records == RecordsFor(was, bet, unit)[..i]
      invariant 0 <= total == FloorSum(was[..i], bet, unit) <= MAX_INT64
    {
      if SharesFit(was, bet) {
        PrefixFits(was, bet, unit, i);
      }
      assert was[..i + 1][..i] == was[..i];
      var path, remainder := FloorPath(paths[i], bet, unit);
      if path.Err? {
        return Err(path.fault), records;
      }
      paths[i] := path.value;
      records := records + [RemainderRecord(i, remainder)];
      var sum := SafeAdd(total, path.value.amount);
      if sum.Err? {
        return sum, records;
      }
      total := sum.value;
    }
    assert was[..paths.Length] == was;
    return Ok(total), records;
  }

  function Bumped(path: PathAward, units: int): PathAward {
    path.(amount := path.amount + units, paid := path.paid + units)
  }

  /** The second loop: one unit more for each of the first records in serving order. */
  method AddUnits(paths: array<PathAward>, records: seq<RemainderRecord>, ghost rems: seq<int>, remaining: nat)
    requires RecordsOf(records, rems) && InServingOrder(records)
    requires remaining <= |records| == paths.Length
    modifies paths
    ensures forall i :: 0 <= i < paths.Length ==>
              paths[i] == Bumped(old(paths[i]), if Rank(rems, i) < remaining then 1 else 0)
  {
    ghost var was := paths[..];
    for t := 0 to remaining
      invariant forall i :: 0 <= i < paths.Length ==> paths[i] == Bumped(was[i], if Rank(rems, i) < t then 1 else 0)
    {
      var index := records[t].index;
      RankOfRecord(records, rems, t);
      forall i | 0 <= i < paths.Length && i != index
        ensures Rank(rems, i) != t
      {
        RanksDiffer(rems, i, index);
      }
      paths[index] := Bumped(paths[index], 1);
    }
  }

  /** The base amount shown for a path whose scaled amount is known. */
  function WithBase(path: PathAward, bet: int, unit: int): PathAward
    requires unit > 0
  {
    path.(base := if path.multiplier == 1 then path.amount
                  else if path.amount == 0 then 0
                  else Rounded(path.base, bet, unit))
  }

  /** The third loop: base amounts, scaled on their own. */
  method SetBases(paths: array<PathAward>, bet: int, unit: int) returns (r: Result<()>)
    requires unit > 0
    modifies paths
    ensures r.Ok? ==> forall i :: 0 <= i < paths.Length ==> paths[i] == WithBase(old(paths[i]), bet, unit)
    ensures (forall i :: 0 <= i < paths.Length ==>
               0 <= bet && 0 <= old(paths[i].base) && old(paths[i].base) * bet <= MAX_INT64) ==> r.Ok?
  {
    ghost var was := paths[..];
    for i := 0 to paths.Length
      invariant forall j :: 0 <= j < i ==> paths[j] == WithBase(was[j], bet, unit)
      invariant forall j :: i <= j < paths.Length ==> paths[j] == was[j]
    {
      var scaled := ScaleAward(paths[i].base, bet, unit);
      if scaled.Err? {
        return Err(scaled.fault);
      }
      var base := scaled.value;
      if paths[i].amount == 0 {
        base := 0;
      }
      if paths[i].multiplier == 1 {
        base := paths[i].amount;
      }
      paths[i] := paths[i].(base := base);
    }
    return Ok(());
  }

  lemma RecordsMatch(paths: seq<PathAward>, bet: int, unit: int)
    requires unit > 0
    ensures var rems, records := Remainders(paths, bet, unit), RecordsFor(paths, bet, unit);
            RecordsOf(StableSorted(records), rems) && InServingOrder(StableSorted(records))
  {
    var rems, records := Remainders(paths, bet, unit), RecordsFor(paths, bet, unit);
    SortedInOrder(records);
    var sorted := StableSorted(records);
    forall a | 0 <= a < |sorted|
      ensures 0 <= sorted[a].index < |rems| && rems[sorted[a].index] == sorted[a].remainder
    {
      assert sorted[a] in records;
    }
    forall i | 0 <= i < |rems|
      ensures RemainderRecord(i, rems[i]) in sorted
    {
      assert records[i] in records;
    }
  }

  /** Scales a win's paths in place so that they share its rounded amount by largest remainder. */
  method ScalePathAwards(paths: array<PathAward>, aggregate: int, bet: int, unit: int) returns (r: Result<()>)
    requires unit > 0
    modifies paths
    ensures r.Ok? ==> paths[..] == ScaledPaths(old(paths[..]), aggregate, bet, unit)
    ensures r.Ok? ==> 0 <= aggregate - FloorSum(old(paths[..]), bet, unit) <= paths.Length
    ensures (&& SharesFit(old(paths[..]), bet)
             && (forall i :: 0 <= i < paths.Length ==> 0 <= old(paths[i].base) <= old(paths[i].amount))
             && 0 <= aggregate - FloorSum(old(paths[..]), bet, unit) <= paths.Length) ==> r.Ok?
  {
    ghost var was := paths[..];
    var floorTotal, records := FloorShares(paths, bet, unit);
    if floorTotal.Err? {
      return Err(floorTotal.fault);
    }
    if floorTotal.value > aggregate {
      return Err(InvalidRounding);
    }
    var remaining := aggregate - floorTotal.value;
    if remaining > paths.Length {
      return Err(InvalidRounding);
    }
    RecordsMatch(was, bet, unit);
    AddUnits(paths, StableSorted(records), Remainders(was, bet, unit), remaining);
    if SharesFit(was, bet) && forall i :: 0 <= i < |was| ==> 0 <= was[i].base <= was[i].amount {
      forall i | 0 <= i < |was|
        ensures 0 <= bet && 0 <= was[i].base && was[i].base * bet <= MAX_INT64
      {
        PrefixFits(was, bet, unit, i);
        MulMonotone(was[i].base, was[i].amount, bet);
      }
    }
    r := SetBases(paths, bet, unit);
    if r.Ok? {
      assert forall i :: 0 <= i < paths.Length ==> paths[i] == ScaledPath(was, i, aggregate, bet, unit);
    }
  }
}
