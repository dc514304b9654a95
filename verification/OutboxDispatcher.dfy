/** The outbox dispatcher: retry delays, the lease of a pass, and the publisher calls that outlive their deadline. */
module OutboxDispatcher {
  import opened Money
  import opened FiniteSets
  import opened Weights

  // --- Retry delays ---

  function Power2(n: nat): (p: int)
    ensures p >= 1
  {
    if n == 0 then 1 else 2 * Power2(n - 1)
  }

  /** base * 2^(attempt-1), at most the maximum; nothing for an unusable configuration. */
  function DelayFor(attempt: int, base: int, maximum: int): int {
    if base <= 0 || maximum < base then 0
    else Min(maximum, base * Power2(if attempt < 1 then 0 else attempt - 1))
  }

  lemma DelayDoubles(base: int, n: nat)
    requires base > 0
    ensures base * Power2(n + 1) == 2 * (base * Power2(n)) && base * Power2(n) >= base
  {
    MulMonotone(1, Power2(n), base);
  }

  lemma {:induction false} DelayGrows(base: int, n: nat, m: nat)
    requires base > 0 && n <= m
    ensures base * Power2(n) <= base * Power2(m)
  {
    if n < m {
      DelayGrows(base, n, m - 1);
      DelayDoubles(base, m - 1);
    }
  }

  /** The doubling loop: no intermediate product exceeds twice the maximum's half, so none leaves int64. */
  method RetryDelay(attempt: int, base: int, maximum: int) returns (delay: int)
    requires maximum <= MAX_INT64
    ensures delay == DelayFor(attempt, base, maximum)
    ensures base > 0 && maximum >= base ==> base <= delay <= maximum
  {
    if base <= 0 || maximum < base {
      return 0;
    }
    var tries := if attempt < 1 then 1 else attempt;
    delay := base;
    DelayDoubles(base, 0);
    for step := 1 to tries
      invariant base <= delay == base * Power2(step - 1) <= maximum
    {
      DelayDoubles(base, step - 1);
      if delay >= maximum || delay > maximum / 2 {
        DelayGrows(base, step, if tries - 1 < step then step else tries - 1);
        return maximum;
      }
      assert delay * 2 <= MAX_INT64;
      delay := delay * 2;
    }
  }

  // --- The configuration check ---

  datatype DispatcherConfig = DispatcherConfig(lease: int, timeout: int, batch: int, parallel: int)

  const MILLISECOND := 1_000_000
  const HOUR := 3_600_000 * MILLISECOND

  function Waves(n: int, p: int): int
    requires p > 0
  {
    (n + p - 1) / p
  }

  /** The time and size limits of a dispatcher; owner, interval and backoff checks do not bear on the lease. */
  predicate WithinLimits(d: DispatcherConfig) {
    && 10 * MILLISECOND <= d.timeout <= HOUR && 10 * MILLISECOND <= d.lease <= 2 * HOUR
    && 1 <= d.batch <= 1_000 && 1 <= d.parallel <= 256
  }

  lemma WavesPositive(n: int, p: int)
    requires n >= 1 && p >= 1
    ensures 1 <= Waves(n, p)
    ensures forall i :: 0 <= i < n ==> i / p + 1 <= Waves(n, p)
  {
    forall i | 0 <= i < n
      ensures i / p + 1 <= Waves(n, p)
    {
      OneWaveMore(i, n, p);
    }
    OneWaveMore(0, n, p);
  }

  lemma OneWaveMore(i: int, n: int, p: int)
    requires 0 <= i < n && p >= 1
    ensures i / p + 1 <= Waves(n, p) && (i == 0 ==> i / p == 0)
  {
    var a, b := n + p - 1, i + p;
    assert b <= a;
    assert a == (a / p) * p + a % p && b == (b / p) * p + b % p;
    if a / p < b / p {
      MulMonotone(a / p + 1, b / p, p);
    }
    assert b / p == i / p + 1 by {
      assert i == (i / p) * p + i % p;
      assert b == (i / p + 1) * p + i % p;
      QuotientIs(b, i / p + 1, i % p, p);
    }
  }

  lemma QuotientIs(a: int, q: int, r: int, p: int)
    requires p >= 1 && 0 <= r < p && a == q * p + r
    ensures a / p == q
  {
    assert a == (a / p) * p + a % p;
    assert (a / p - q) * p == r - a % p;
    if a / p > q {
      MulMonotone(1, a / p - q, p);
    } else if a / p < q {
      MulMonotone(a / p - q, -1, p);
    }
  }

  /** The lease check, with the division that keeps the product in range. */
  method CheckLease(d: DispatcherConfig) returns (ok: bool)
    ensures ok <==> WithinLimits(d) && d.timeout * Waves(d.batch, d.parallel) <= 2 * HOUR &&
                    d.timeout * Waves(d.batch, d.parallel) < d.lease
  {
    if d.timeout < 10 * MILLISECOND || d.timeout > HOUR || d.lease < 10 * MILLISECOND || d.lease > 2 * HOUR ||
       d.batch < 1 || d.batch > 1_000 || d.parallel < 1 || d.parallel > 256 {
      return false;
    }
    var waves := Waves(d.batch, d.parallel);
    WavesPositive(d.batch, d.parallel);
    DivisionExact(2 * HOUR, waves, d.timeout);
    if d.timeout > 2 * HOUR / waves {
      return false;
    }
    assert d.timeout * waves <= MAX_INT64;
    return d.timeout * waves < d.lease;
  }

  lemma DivisionExact(m: int, w: int, t: int)
    requires w >= 1 && m >= 0
    ensures t > m / w <==> t * w > m
  {
    assert m == (m / w) * w + m % w;
    if t > m / w {
      MulMonotone(m / w + 1, t, w);
    } else {
      MulMonotone(t, m / w, w);
    }
  }

  // --- A pass over n events with p slots ---

  /** When each delivery of a pass starts and ends, counted from the claim. */
  datatype Delivery = Delivery(start: int, end: int)

  /** The deliveries before the i-th that are still running at a time. */
  ghost function Running(pass: seq<Delivery>, i: nat, t: int): set<int>
    requires i <= |pass|
  {
    set j | 0 <= j < i && pass[j].end > t
  }

  /** A pass: each delivery starts as soon as the one before has started and a slot is free, and is cut off after T. */
  ghost predicate Pass(pass: seq<Delivery>, p: int, timeout: int) {
    && p >= 1 && timeout > 0
    && (forall i :: 0 <= i < |pass| ==> pass[i].start <= pass[i].end <= pass[i].start + timeout)
    && (forall i :: 0 <= i < |pass| ==> Earliest(pass, i) <= pass[i].start)
    && (forall i, t :: 0 <= i < |pass| && Earliest(pass, i) <= t < pass[i].start ==> |Running(pass, i, t)| >= p)
  }

  function Earliest(pass: seq<Delivery>, i: nat): int
    requires i <= |pass|
  {
    if i == 0 then 0 else pass[i - 1].start
  }

  lemma WaveOf(i: nat, p: int)
    requires p >= 1
    ensures (i / p) * p <= i < (i / p) * p + p && i / p >= 0
  {
    assert i == (i / p) * p + i % p;
  }

  lemma LowerWave(j: nat, w: nat, p: int)
    requires p >= 1 && j < w * p
    ensures j / p < w
  {
    WaveOf(j, p);
    CancelFactor(j / p, w, p);
  }

  /** A delivery of an earlier wave has ended when the next wave begins. */
  lemma EarlierWaveEnded(pass: seq<Delivery>, p: int, timeout: int, j: nat, w: nat)
    requires Pass(pass, p, timeout) && j < |pass| && j < w * p && pass[j].start <= (j / p) * timeout
    ensures pass[j].end <= w * timeout
  {
    LowerWave(j, w, p);
    MulMonotone(j / p, w - 1, timeout);
    assert (w - 1) * timeout + timeout == w * timeout;
  }

  /** One wave after another: at the start of wave w, fewer than p of the deliveries before the i-th are running. */
  lemma FewRunning(pass: seq<Delivery>, p: int, timeout: int, i: nat)
    requires Pass(pass, p, timeout) && i < |pass|
    requires forall j :: 0 <= j < i ==> pass[j].start <= (j / p) * timeout
    ensures |Running(pass, i, (i / p) * timeout)| < p
  {
    var w := i / p;
    WaveOf(i, p);
    forall j | 0 <= j < i && j < w * p
      ensures pass[j].end <= w * timeout
    {
      EarlierWaveEnded(pass, p, timeout, j, w);
    }
    assert Running(pass, i, w * timeout) <= Interval(w * p, i - w * p);
    Fewer(Running(pass, i, w * timeout), Interval(w * p, i - w * p));
  }

  /** List scheduling: the i-th delivery starts within floor(i/p) timeouts of the claim. */
  lemma {:induction false} StartsInItsWave(pass: seq<Delivery>, p: int, timeout: int, i: nat)
    requires Pass(pass, p, timeout) && i < |pass|
    ensures forall j :: 0 <= j <= i ==> pass[j].start <= (j / p) * timeout
  {
    if i > 0 {
      StartsInItsWave(pass, p, timeout, i - 1);
      WaveOf(i, p);
      WaveOf(i - 1, p);
      NextWave(i, p);
      MulMonotone((i - 1) / p, i / p, timeout);
    }
    MulMonotone(0, i / p, timeout);
    FewRunning(pass, p, timeout, i);
  }

  lemma NextWave(i: nat, p: int)
    requires i > 0 && p >= 1
    ensures (i - 1) / p <= i / p
  {
    WaveOf(i, p);
    WaveOf(i - 1, p);
    CancelFactor((i - 1) / p, i / p + 1, p);
  }

  /** Every delivery of a pass over n events ends within ceil(n/p) timeouts of the claim. */
  lemma PassEndsInWaves(pass: seq<Delivery>, p: int, timeout: int, i: nat)
    requires Pass(pass, p, timeout) && i < |pass|
    ensures pass[i].end <= Waves(|pass|, p) * timeout
  {
    StartsInItsWave(pass, p, timeout, i);
    WavesPositive(|pass|, p);
    MulMonotone(i / p + 1, Waves(|pass|, p), timeout);
    assert (i / p) * timeout + timeout == (i / p + 1) * timeout;
  }

  /** The lease bound: in a pass of an accepted configuration every delivery ends before the lease does. */
  lemma PassEndsWithinLease(d: DispatcherConfig, pass: seq<Delivery>, i: nat)
    requires WithinLimits(d) && d.timeout * Waves(d.batch, d.parallel) < d.lease
    requires Pass(pass, d.parallel, d.timeout) && i < |pass| <= d.batch
    ensures pass[i].end < d.lease
  {
    PassEndsInWaves(pass, d.parallel, d.timeout, i);
    WavesGrow(|pass|, d.batch, d.parallel);
    MulMonotone(Waves(|pass|, d.parallel), Waves(d.batch, d.parallel), d.timeout);
  }

  lemma WavesGrow(n: int, m: int, p: int)
    requires 1 <= n <= m && p >= 1
    ensures Waves(n, p) <= Waves(m, p)
  {
    var a, b := n + p - 1, m + p - 1;
    assert a == (a / p) * p + a % p && b == (b / p) * p + b % p;
    CancelFactor(a / p, b / p + 1, p);
  }

  // --- Publisher calls across passes ---

  /** A delivery attempt. An abandoned one has given up waiting while its publisher call still runs. */
  datatype Attempt = WaitingForSlot | HoldingSlot | Publishing | Abandoned | Finished

  /** Attempts by name, and the slots they hold. */
  datatype Slots = Slots(attempts: map<int, Attempt>, used: int)

  datatype Step =
    | Begin(id: int)
    | TakeSlot(id: int)
    | GiveUpWaiting(id: int)
    | ReleaseUnused(id: int)
    | CallPublisher(id: int)
    | DeadlinePasses(id: int)
    | PublisherReturns(id: int)

  predicate HoldsSlot(a: Attempt) {
    a == HoldingSlot || a == Publishing || a == Abandoned
  }

  /** Which steps a state allows: a slot is taken only while fewer than p are used. */
  predicate Enabled(s: Slots, p: int, step: Step) {
    match step
    case Begin(id) => id !in s.attempts
    case TakeSlot(id) => id in s.attempts && s.attempts[id] == WaitingForSlot && s.used < p
    case GiveUpWaiting(id) => id in s.attempts && s.attempts[id] == WaitingForSlot
    case ReleaseUnused(id) => id in s.attempts && s.attempts[id] == HoldingSlot
    case CallPublisher(id) => id in s.attempts && s.attempts[id] == HoldingSlot
    case DeadlinePasses(id) => id in s.attempts && s.attempts[id] == Publishing
    case PublisherReturns(id) => id in s.attempts && (s.attempts[id] == Publishing || s.attempts[id] == Abandoned)
  }

  /** The deadline of an attempt frees nothing: only the publisher's return does. */
  function After(s: Slots, step: Step): Slots {
    match step
    case Begin(id) => Slots(s.attempts[id := WaitingForSlot], s.used)
    case TakeSlot(id) => Slots(s.attempts[id := HoldingSlot], s.used + 1)
    case GiveUpWaiting(id) => Slots(s.attempts[id := Finished], s.used)
    case ReleaseUnused(id) => Slots(s.attempts[id := Finished], s.used - 1)
    case CallPublisher(id) => Slots(s.attempts[id := Publishing], s.used)
    case DeadlinePasses(id) => Slots(s.attempts[id := Abandoned], s.used)
    case PublisherReturns(id) => Slots(s.attempts[id := Finished], s.used - 1)
  }

  function Holders(s: Slots): set<int> {
    set id | id in s.attempts && HoldsSlot(s.attempts[id])
  }

  /** Attempts whose publisher call is alive. */
  function Alive(s: Slots): set<int> {
    set id | id in s.attempts && (s.attempts[id] == Publishing || s.attempts[id] == Abandoned)
  }

  predicate SlotsOk(s: Slots, p: int) {
    s.used == |Holders(s)| <= p
  }

  lemma HoldersAfter(s: Slots, id: int, a: Attempt, used: int)
    ensures Holders(Slots(s.attempts[id := a], used)) == if HoldsSlot(a) then Holders(s) + {id} else Holders(s) - {id}
  {
  }

  lemma StepKeepsSlots(s: Slots, p: int, step: Step)
    requires SlotsOk(s, p) && Enabled(s, p, step)
    ensures SlotsOk(After(s, step), p)
  {
    var next := After(s, step);
    HoldersAfter(s, step.id, next.attempts[step.id], next.used);
    assert step.id in Holders(s) <==> step.id in s.attempts && HoldsSlot(s.attempts[step.id]);
    if step.id in Holders(s) {
      assert Holders(s) + {step.id} == Holders(s);
      assert |Holders(s) - {step.id}| == |Holders(s)| - 1;
    } else {
      assert Holders(s) - {step.id} == Holders(s);
      assert |Holders(s) + {step.id}| == |Holders(s)| + 1;
    }
  }

  predicate Enables(s: Slots, p: int, steps: seq<Step>)
    decreases |steps|
  {
    steps == [] || (Enabled(s, p, steps[0]) && Enables(After(s, steps[0]), p, steps[1..]))
  }

  function AfterAll(s: Slots, steps: seq<Step>): Slots
    decreases |steps|
  {
    if steps == [] then s else AfterAll(After(s, steps[0]), steps[1..])
  }

  lemma {:induction false} RunKeepsSlots(s: Slots, p: int, steps: seq<Step>)
    requires SlotsOk(s, p) && Enables(s, p, steps)
    ensures SlotsOk(AfterAll(s, steps), p)
    decreases |steps|
  {
    if steps != [] {
      StepKeepsSlots(s, p, steps[0]);
      RunKeepsSlots(After(s, steps[0]), p, steps[1..]);
    }
  }

  /** Across any number of passes at most p publisher calls are alive, even if none honours its deadline. */
  lemma PublishersBounded(p: int, steps: seq<Step>)
    requires p >= 1 && Enables(Slots(map[], 0), p, steps)
    ensures |Alive(AfterAll(Slots(map[], 0), steps))| <= p
  {
    var s := AfterAll(Slots(map[], 0), steps);
    assert Holders(Slots(map[], 0)) == {};
    RunKeepsSlots(Slots(map[], 0), p, steps);
    forall id | id in Alive(s)
      ensures id in Holders(s)
    {
    }
    Fewer(Alive(s), Holders(s));
  }
}
