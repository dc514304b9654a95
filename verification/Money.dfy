/** Outcomes of fallible operations and the int64 money arithmetic of the settlement core. */
module Money {

  const MAX_INT64: int := 0x7fff_ffff_ffff_ffff

  /** Why an operation of the settlement core refuses to continue. */
  datatype Fault =
    | Cancelled
    | InvalidBet
    | InvalidFeature
    | RandomFailed
    | RageMeterFull
    | WeightsOverflow
    | SelectionFailed
    | MoneyOverflow
    | InvalidGrid
    | InvalidAmounts
    | InvalidRounding
    | InvalidTransform
    | InvalidWheel
    | InvalidCap
    | InvalidOutcome

  datatype Result<+T> = Ok(value: T) | Err(fault: Fault) {
    predicate IsFailure() {
      Err?
    }

    function PropagateFailure<U>(): Result<U>
      requires Err?
    {
      Err(fault)
    }

    function Extract(): T
      requires Ok?
    {
      value
    }
  }

  datatype Option<+T> = None | Some(value: T)

  function Min(a: int, b: int): int {
    if a < b then a else b
  }

  /** Checked addition of amounts: both operands must be non-negative and the sum must fit. */
  function SafeAdd(a: int, b: int): (r: Result<int>)
    ensures r.Ok? <==> 0 <= a && 0 <= b && a + b <= MAX_INT64
    ensures r.Ok? ==> r.value == a + b
  {
    if a < 0 || b < 0 then Err(InvalidAmounts)
    else if a > MAX_INT64 - b then Err(MoneyOverflow)
    else Ok(a + b)
  }

  /** Checked multiplication: the overflow test divides instead of multiplying. */
  function SafeMul(a: int, b: int): (r: Result<int>)
    ensures r.Ok? <==> 0 <= a && 0 <= b && a * b <= MAX_INT64
    ensures r.Ok? ==> r.value == a * b
  {
    if a < 0 || b < 0 then Err(InvalidAmounts)
    else
      DivisionTest(a, b);
      if a != 0 && b > MAX_INT64 / a then Err(MoneyOverflow)
      else Ok(a * b)
  }

  /** The division test used by SafeMul is exact. */
  lemma DivisionTest(a: nat, b: nat)
    ensures a != 0 ==> (b > MAX_INT64 / a <==> a * b > MAX_INT64)
    ensures a == 0 ==> a * b == 0
  {
    if a != 0 {
      var q := MAX_INT64 / a;
      assert q * a <= MAX_INT64 < (q + 1) * a;
      if b > q {
        MulMonotone(q + 1, b, a);
      } else {
        MulMonotone(b, q, a);
      }
    }
  }

  lemma MulMonotone(a: int, b: int, k: int)
    requires a <= b && 0 <= k
    ensures a * k <= b * k
  {
  }

  lemma CancelFactor(a: int, b: int, k: int)
    requires k > 0
    ensures a * k < b * k ==> a < b
  {
    if b <= a {
      MulMonotone(b, a, k);
    }
  }
}
