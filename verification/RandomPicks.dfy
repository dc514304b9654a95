/** The random source and the draws the engine makes from it. */
module RandomPicks {
  import opened Money
  import opened Weights

  /** A deterministic source: values are reduced modulo the bound, and an exhausted source fails. */
  class RandomSource {
    var tape: seq<nat>

    constructor (values: seq<nat>)
      ensures tape == values
    {
      tape := values;
    }

    method Intn(n: int) returns (r: Result<int>)
      modifies this
      ensures n <= 0 || old(tape) == [] ==> r == Err(RandomFailed) && tape == old(tape)
      ensures n > 0 && old(tape) != [] ==> r == Ok(old(tape)[0] % n) && tape == old(tape)[1..]
    {
      if n <= 0 || tape == [] {
        return Err(RandomFailed);
      }
      r := Ok(tape[0] % n);
      tape := tape[1..];
    }
  }

  /** What a draw yields from a tape, and the tape it leaves. */
  datatype Sample<+T> = Sample(result: Result<T>, rest: seq<nat>)

  /** A number below a bound. */
  function PickSample(n: int, tape: seq<nat>): Sample<int> {
    if n <= 0 || tape == [] then Sample(Err(RandomFailed), tape) else Sample(Ok(tape[0] % n), tape[1..])
  }

  /** One entry of a table. */
  function ValueSample<T>(items: seq<Weighted<T>>, tape: seq<nat>): Sample<T> {
    if tape == [] || !Drawable(items) then Sample(Err(RandomFailed), tape)
    else Sample(Ok(items[Selected(items, tape[0] % Total(items))].value), tape[1..])
  }

  /** A chance in basis points; certain and impossible chances use no randomness. */
  function ChanceSample(basisPoints: int, tape: seq<nat>): Sample<bool> {
    if basisPoints <= 0 then Sample(Ok(false), tape)
    else if basisPoints >= 10_000 then Sample(Ok(true), tape)
    else if tape == [] then Sample(Err(RandomFailed), tape)
    else Sample(Ok(tape[0] % 10_000 < basisPoints), tape[1..])
  }

  /** A chance in basis points that the next draw meets; a certain one needs no draw. */
  predicate Lucky(basisPoints: int, tape: seq<nat>) {
    basisPoints >= 10_000 || (basisPoints > 0 && |tape| > 0 && tape[0] % 10_000 < basisPoints)
  }

  /** Adds up a table's weights, refusing a sum beyond the machine integer. */
  method SumWeights<T>(items: seq<Weighted<T>>) returns (r: Result<int>)
    requires AllPositive(items)
    ensures r == if Total(items) > MAX_INT64 then Err(WeightsOverflow) else Ok(Total(items))
  {
    var total := 0;
    for i := 0 to |items|
      invariant 0 <= total <= MAX_INT64
      invariant total + Total(items[i..]) == Total(items)
    {
      assert items[i..][1..] == items[i + 1..];
      if items[i].weight > MAX_INT64 - total {
        return Err(WeightsOverflow);
      }
      total := total + items[i].weight;
    }
    return Ok(total);
  }

  /** Walks a table with a draw; the second result is what is left of a draw beyond the table. */
  method WalkWeights<T>(items: seq<Weighted<T>>, draw: int) returns (found: Option<T>, rest: int)
    requires AllPositive(items) && draw >= 0
    ensures draw < Total(items) ==> found == Some(items[Selected(items, draw)].value)
    ensures draw >= Total(items) ==> found == None && rest == draw - Total(items)
  {
    rest := draw;
    for i := 0 to |items|
      invariant 0 <= rest
      invariant rest - Total(items[i..]) == draw - Total(items)
      invariant draw < Total(items) ==> Selected(items, draw) == i + Selected(items[i..], rest)
    {
      assert items[i..][1..] == items[i + 1..];
      if rest < items[i].weight {
        return Some(items[i].value), rest;
      }
      rest := rest - items[i].weight;
    }
    return None, rest;
  }

  /** Draws one entry of a weighted table. */
  method PickWeighted<T>(rng: RandomSource, items: seq<Weighted<T>>) returns (r: Result<T>)
    requires AllPositive(items)
    modifies rng
    ensures Total(items) > MAX_INT64 ==> r == Err(WeightsOverflow) && rng.tape == old(rng.tape)
    ensures items == [] || (Total(items) <= MAX_INT64 && old(rng.tape) == []) ==>
              r == Err(RandomFailed) && rng.tape == old(rng.tape)
    ensures Drawable(items) && old(rng.tape) != [] ==>
              r == Ok(items[Selected(items, old(rng.tape)[0] % Total(items))].value) &&
              rng.tape == old(rng.tape)[1..]
  {
    var total :- SumWeights(items);
    var pick :- rng.Intn(total);
    var found, _ := WalkWeights(items, pick);
    return if found.Some? then Ok(found.value) else Err(SelectionFailed);
  }

  /** Adds up the weights of the entries above the current value. */
  method SumAbove(items: seq<Weighted<int>>, current: int) returns (r: Result<int>)
    requires AllPositive(items)
    ensures var above := Above(items, current);
            r == if Total(above) > MAX_INT64 then Err(WeightsOverflow) else Ok(Total(above))
  {
    var total := 0;
    for i := 0 to |items|
      invariant 0 <= total <= MAX_INT64
      invariant total + Total(Above(items[i..], current)) == Total(Above(items, current))
    {
      assert items[i..][1..] == items[i + 1..];
      if items[i].value <= current {
        continue;
      }
      assert Above(items[i..], current)[1..] == Above(items[i + 1..], current);
      if items[i].weight > MAX_INT64 - total {
        return Err(WeightsOverflow);
      }
      total := total + items[i].weight;
    }
    return Ok(total);
  }

  /** Walks only the entries above the current value. */
  method WalkAbove(items: seq<Weighted<int>>, current: int, draw: int) returns (found: Option<int>)
    requires AllPositive(items) && 0 <= draw < Total(Above(items, current))
    ensures var above := Above(items, current);
            found == Some(above[Selected(above, draw)].value)
  {
    var pick := draw;
    ghost var goal := Above(items, current)[Selected(Above(items, current), draw)].value;
    for i := 0 to |items|
      invariant 0 <= pick < Total(Above(items[i..], current))
      invariant goal == Above(items[i..], current)[Selected(Above(items[i..], current), pick)].value
    {
      assert items[i..][1..] == items[i + 1..];
      if items[i].value <= current {
        continue;
      }
      assert Above(items[i..], current)[1..] == Above(items[i + 1..], current);
      if pick < items[i].weight {
        return Some(items[i].value);
      }
      pick := pick - items[i].weight;
    }
    return None;
  }

  /** Draws one entry whose value is above the current one, or reports that there is none. */
  method PickGreater(rng: RandomSource, items: seq<Weighted<int>>, current: int)
    returns (r: Result<Option<int>>)
    requires AllPositive(items)
    modifies rng
    ensures var above := Above(items, current);
            if Total(above) > MAX_INT64 then r == Err(WeightsOverflow) && rng.tape == old(rng.tape)
            else if above == [] then r == Ok(None) && rng.tape == old(rng.tape)
            else if old(rng.tape) == [] then r == Err(RandomFailed) && rng.tape == old(rng.tape)
            else r == Ok(Some(above[Selected(above, old(rng.tape)[0] % Total(above))].value)) &&
                 rng.tape == old(rng.tape)[1..]
  {
    var total :- SumAbove(items, current);
    if total == 0 {
      return Ok(None);
    }
    var pick :- rng.Intn(total);
    var found := WalkAbove(items, current, pick);
    return if found.Some? then Ok(found) else Err(SelectionFailed);
  }

  /** What an unlocked Vault holds: a money multiplier, or during Kong Quest a free spin. */
  datatype VaultReward = MoneyReward(multiplier: int) | FreeSpinReward

  /** The combined table behind a Vault: the money multipliers, then the free spin if it can be drawn. */
  function VaultRewards(multipliers: seq<Weighted<int>>, freeSpinWeight: int, allowFreeSpin: bool)
    : (table: seq<Weighted<VaultReward>>)
    ensures AllPositive(multipliers) && freeSpinWeight >= 0 ==> AllPositive(table)
    ensures Total(table) == Total(multipliers) +
                            if allowFreeSpin && freeSpinWeight > 0 then freeSpinWeight else 0
  {
    if multipliers == [] then
      if allowFreeSpin && freeSpinWeight > 0 then [Weighted(FreeSpinReward, freeSpinWeight)] else []
    else
      [Weighted(MoneyReward(multipliers[0].value), multipliers[0].weight)] +
      VaultRewards(multipliers[1..], freeSpinWeight, allowFreeSpin)
  }

  /** Drawing from the combined table is drawing a multiplier first and the free spin with what is left. */
  lemma {:induction false} VaultRewardsSelect(multipliers: seq<Weighted<int>>, freeSpinWeight: int,
                                              allowFreeSpin: bool, draw: int)
    requires AllPositive(multipliers) && freeSpinWeight >= 0
    requires 0 <= draw < Total(VaultRewards(multipliers, freeSpinWeight, allowFreeSpin))
    ensures var table := VaultRewards(multipliers, freeSpinWeight, allowFreeSpin);
            table[Selected(table, draw)].value ==
            if draw < Total(multipliers) then MoneyReward(multipliers[Selected(multipliers, draw)].value)
            else FreeSpinReward
  {
    var table := VaultRewards(multipliers, freeSpinWeight, allowFreeSpin);
    if multipliers != [] {
      var rest := VaultRewards(multipliers[1..], freeSpinWeight, allowFreeSpin);
      assert table[1..] == rest;
      if draw >= multipliers[0].weight {
        var left := draw - multipliers[0].weight;
        VaultRewardsSelect(multipliers[1..], freeSpinWeight, allowFreeSpin, left);
        assert Selected(table, draw) == 1 + Selected(rest, left);
      }
    }
  }

  method PickVaultReward(rng: RandomSource, multipliers: seq<Weighted<int>>, freeSpinWeight: int,
                         allowFreeSpin: bool)
    returns (r: Result<VaultReward>)
    requires AllPositive(multipliers) && freeSpinWeight >= 0
    modifies rng
    ensures var table := VaultRewards(multipliers, freeSpinWeight, allowFreeSpin);
            if Total(table) > MAX_INT64 then r == Err(WeightsOverflow) && rng.tape == old(rng.tape)
            else if table == [] || old(rng.tape) == [] then r == Err(RandomFailed) && rng.tape == old(rng.tape)
            else r == Ok(table[Selected(table, old(rng.tape)[0] % Total(table))].value) &&
                 rng.tape == old(rng.tape)[1..]
  {
    ghost var table := VaultRewards(multipliers, freeSpinWeight, allowFreeSpin);
    var total :- SumWeights(multipliers);
    if allowFreeSpin {
      if freeSpinWeight > MAX_INT64 - total {
        return Err(WeightsOverflow);
      }
      total := total + freeSpinWeight;
    }
    var pick :- rng.Intn(total);
    VaultRewardsSelect(multipliers, freeSpinWeight, allowFreeSpin, pick);
    var found, _ := WalkWeights(multipliers, pick);
    if found.Some? {
      return Ok(MoneyReward(found.value));
    }
    if allowFreeSpin && freeSpinWeight > 0 {
      return Ok(FreeSpinReward);
    }
    return Err(SelectionFailed);
  }

  /** A draw in basis points. */
  method Chance(rng: RandomSource, basisPoints: int) returns (r: Result<bool>)
    modifies rng
    ensures basisPoints <= 0 ==> r == Ok(false) && rng.tape == old(rng.tape)
    ensures basisPoints >= 10_000 ==> r == Ok(true) && rng.tape == old(rng.tape)
    ensures 0 < basisPoints < 10_000 ==>
              if old(rng.tape) == [] then r == Err(RandomFailed) && rng.tape == []
              else r == Ok(old(rng.tape)[0] % 10_000 < basisPoints) && rng.tape == old(rng.tape)[1..]
    ensures Sample(r, rng.tape) == ChanceSample(basisPoints, old(rng.tape))
    ensures r.Ok? ==> (r.value <==> Lucky(basisPoints, old(rng.tape)))
    ensures r.Err? ==> r.fault == RandomFailed && rng.tape == []
  {
    if basisPoints <= 0 {
      return Ok(false);
    }
    if basisPoints >= 10_000 {
      return Ok(true);
    }
    var pick :- rng.Intn(10_000);
    return Ok(pick < basisPoints);
  }
}
