/** The process-local admission limiter: token buckets under least-recently-used eviction.
    Outside the class, time is counted in tokens: one unit is the time in which one token flows in. */
module AdmissionLimiter {

  const CLEANUP_BUDGET := 64

  /** The limits of a limiter, in token time; `budget` is how many idle keys one request may drop. */
  datatype Limits = Limits(burst: real, maxKeys: int, idle: real, budget: nat) {
    predicate Usable() {
      burst >= 1.0 && maxKeys >= 1 && idle > 0.0
    }
  }

  datatype Bucket = Bucket(tokens: real, last: real, lastSeen: real)

  // --- A bucket ---

  function Least(a: real, b: real): real {
    if a < b then a else b
  }

  /** The tokens of a bucket brought up to a time. */
  function Refilled(l: Limits, b: Bucket, now: real): real {
    if now > b.last then Least(b.tokens + (now - b.last), l.burst) else b.tokens
  }

  /** One request against a bucket: refill, then take a token if there is one. */
  function Take(l: Limits, b: Bucket, now: real): (Bucket, bool) {
    var tokens := Refilled(l, b, now);
    var last := if now > b.last then now else b.last;
    if tokens >= 1.0 then (Bucket(tokens - 1.0, last, now), true) else (Bucket(tokens, last, now), false)
  }

  function Fresh(l: Limits, now: real): Bucket {
    Bucket(l.burst, now, now)
  }

  // --- The table ---

  /** Buckets by key, and the keys from the least to the most recently used. */
  datatype Table = Table(buckets: map<string, Bucket>, order: seq<string>)

  predicate InOrder(t: Table) {
    && (forall i :: 0 <= i < |t.order| ==> t.order[i] in t.buckets)
    && (forall i, j :: 0 <= i < j < |t.order| ==> t.order[i] != t.order[j])
    && (forall key :: key in t.buckets ==> key in t.order)
    && (forall i, j :: 0 <= i < j < |t.order| && t.order[i] in t.buckets && t.order[j] in t.buckets ==>
          t.buckets[t.order[i]].lastSeen <= t.buckets[t.order[j]].lastSeen)
  }

  /** What every reachable table satisfies at a time. */
  predicate TableOk(l: Limits, t: Table, now: real) {
    && InOrder(t)
    && forall key :: key in t.buckets ==>
         var b := t.buckets[key]; 0.0 <= b.tokens <= l.burst && b.last == b.lastSeen <= now
  }

  /** Whether the least recently used key has been idle too long. */
  predicate FrontIdle(l: Limits, t: Table, now: real) {
    t.order != [] && t.order[0] in t.buckets && now - t.buckets[t.order[0]].lastSeen >= l.idle
  }

  function Dropped(t: Table): Table
    requires t.order != []
  {
    Table(t.buckets - {t.order[0]}, t.order[1..])
  }

  /** The table without its oldest keys that have been idle too long, at most `budget` of them. */
  function Cleaned(l: Limits, t: Table, now: real, budget: nat): Table
    decreases budget
  {
    if budget == 0 || !FrontIdle(l, t, now) then t else Cleaned(l, Dropped(t), now, budget - 1)
  }

  function Remove(order: seq<string>, key: string): (r: seq<string>)
    ensures forall k :: k in r <==> k in order && k != key
  {
    if order == [] then [] else if order[0] == key then Remove(order[1..], key) else [order[0]] + Remove(order[1..], key)
  }

  datatype Answer = Admitted | Refused | TableFull

  /** One request against a cleaned table. */
  function Served(l: Limits, kept: Table, key: string, now: real): (Table, Answer) {
    if key !in kept.buckets && |kept.buckets| >= l.maxKeys then (kept, TableFull)
    else
      var taken := Take(l, if key in kept.buckets then kept.buckets[key] else Fresh(l, now), now);
      (Table(kept.buckets[key := taken.0], Remove(kept.order, key) + [key]), if taken.1 then Admitted else Refused)
  }

  /** One request against the table. */
  function Step(l: Limits, t: Table, key: string, now: real): (Table, Answer) {
    Served(l, Cleaned(l, t, now, l.budget), key, now)
  }

  // --- The limiter ---

  /** Counting time in tokens changes nothing: what flows in is the difference, and comparisons stay as they are. */
  lemma TokenTime(rate: real, last: real, now: real, idle: real)
    requires rate > 0.0
    ensures (now - last) * rate == now * rate - last * rate
    ensures now > last <==> now * rate > last * rate
    ensures now - last < idle <==> now * rate - last * rate < idle * rate
  {
    Ordered(rate, last, now);
    Ordered(rate, now - last, idle);
  }

  lemma Ordered(rate: real, a: real, b: real)
    requires rate > 0.0
    ensures a < b <==> a * rate < b * rate
  {
    if a < b {
      Positive(rate, b - a);
    } else if b < a {
      Positive(rate, a - b);
    }
  }

  lemma Positive(rate: real, d: real)
    requires rate > 0.0 && d > 0.0
    ensures d * rate > 0.0
  {
  }

  /** The limiter keeps its times in tokens: seconds multiplied by the rate. */
  class Limiter {
    const rate: real
    const limits: Limits
    var buckets: map<string, Bucket>
    var order: seq<string>

    constructor (rate: real, burst: int, maxKeys: int, idle: real)
      ensures this.rate == rate && limits == Limits(burst as real, maxKeys, idle * rate, CLEANUP_BUDGET)
      ensures Value() == Table(map[], [])
    {
      this.rate, limits := rate, Limits(burst as real, maxKeys, idle * rate, CLEANUP_BUDGET);
      buckets, order := map[], [];
    }

    function Value(): Table
      reads this
    {
      Table(buckets, order)
    }

    /** Drops the oldest idle keys, looking only at the front of the order. */
    method CleanupExpired(now: real, limit: nat)
      requires InOrder(Value())
      modifies this
      ensures Value() == Cleaned(limits, old(Value()), now, limit)
      ensures InOrder(Value())
    {
      ghost var goal := Cleaned(limits, Value(), now, limit);
      var budget := limit;
      while budget > 0
        invariant InOrder(Value())
        invariant Cleaned(limits, Value(), now, budget) == goal
      {
        var dropped := DropIfIdle(now, budget, goal);
        if !dropped {
          return;
        }
        budget := budget - 1;
      }
    }

    /** The oldest key, dropped if it is idle; otherwise nothing is left to clean. */
    method DropIfIdle(now: real, ghost budget: nat, ghost goal: Table) returns (dropped: bool)
      requires InOrder(Value()) && budget > 0 && Cleaned(limits, Value(), now, budget) == goal
      modifies this
      ensures InOrder(Value())
      ensures if dropped then Cleaned(limits, Value(), now, budget - 1) == goal else Value() == goal
    {
      if |order| == 0 || now - buckets[order[0]].lastSeen < limits.idle {
        CleanedFixed(limits, Value(), now, budget);
        return false;
      }
      DropOldest(now, budget, goal);
      return true;
    }

    /** One idle key leaves both map and list. */
    method DropOldest(ghost now: real, ghost budget: nat, ghost goal: Table)
      requires InOrder(Value()) && budget > 0 && FrontIdle(limits, Value(), now)
      requires Cleaned(limits, Value(), now, budget) == goal
      modifies this
      ensures InOrder(Value())
      ensures Value() == Dropped(old(Value())) && Cleaned(limits, Value(), now, budget - 1) == goal
    {
      FrontDropped(Value());
      CleanedDropped(limits, Value(), now, budget);
      buckets, order := buckets - {order[0]}, order[1..];
    }

    method MoveToBack(key: string)
      modifies this`order
      ensures order == Remove(old(order), key) + [key]
    {
      var rest: seq<string> := [];
      for i := 0 to |order|
        invariant rest + Remove(order[i..], key) == Remove(order, key)
      {
        assert order[i..][1..] == order[i + 1..];
        if order[i] != key {
          rest := rest + [order[i]];
        }
      }
      order := rest + [key];
    }

    /** Whether a request of this key is admitted now. */
    method Allow(key: string, now: real) returns (allowed: bool)
      requires InOrder(Value())
      modifies this
      ensures rate <= 0.0 || !limits.Usable() || key == "" ==> !allowed && Value() == old(Value())
      ensures rate > 0.0 && limits.Usable() && key != "" ==>
                var step := Step(limits, old(Value()), key, now * rate);
                Value() == step.0 && (allowed <==> step.1 == Admitted)
    {
      if key == "" || rate <= 0.0 || limits.burst < 1.0 || limits.maxKeys < 1 || limits.idle <= 0.0 {
        return false;
      }
      allowed := AllowAt(key, now * rate);
    }

    method AllowAt(key: string, now: real) returns (allowed: bool)
      requires InOrder(Value())
      modifies this
      ensures var step := Step(limits, old(Value()), key, now);
              Value() == step.0 && (allowed <==> step.1 == Admitted)
    {
      CleanupExpired(now, limits.budget);
      var state: Bucket;
      if key !in buckets {
        if |buckets| >= limits.maxKeys {
          return false;
        }
        state := Fresh(limits, now);
      } else {
        state := buckets[key];
      }
      MoveToBack(key);
      state, allowed := TakeToken(limits, state, now);
      buckets := buckets[key := state];
    }
  }

  /** The arithmetic of one request against its bucket. */
  method TakeToken(l: Limits, bucket: Bucket, now: real) returns (state: Bucket, allowed: bool)
    ensures (state, allowed) == Take(l, bucket, now)
  {
    state := bucket;
    if now > state.last {
      state := state.(tokens := state.tokens + (now - state.last));
      if state.tokens > l.burst {
        state := state.(tokens := l.burst);
      }
      state := state.(last := now);
    }
    state := state.(lastSeen := now);
    allowed := state.tokens >= 1.0;
    if allowed {
      state := state.(tokens := state.tokens - 1.0);
    }
  }

  // --- The table stays in order ---

  lemma FrontDropped(t: Table)
    requires InOrder(t) && t.order != []
    ensures InOrder(Dropped(t))
  {
    var next := Dropped(t);
    forall key | key in next.buckets
      ensures key in next.order
    {
      var i :| 0 <= i < |t.order| && t.order[i] == key;
      assert next.order[i - 1] == key;
    }
  }

  lemma CleanedDropped(l: Limits, t: Table, now: real, budget: nat)
    requires budget > 0 && FrontIdle(l, t, now)
    ensures Cleaned(l, t, now, budget) == Cleaned(l, Dropped(t), now, budget - 1)
  {
  }

  /** Cleaning keeps buckets as they are, and drops only idle ones. */
  predicate Kept(l: Limits, t: Table, c: Table, now: real) {
    && (forall key :: key in c.buckets ==> key in t.buckets && c.buckets[key] == t.buckets[key])
    && (forall key :: key in t.buckets && key !in c.buckets ==> now - t.buckets[key].lastSeen >= l.idle)
  }

  lemma CleanedOk(l: Limits, t: Table, now: real, budget: nat)
    requires InOrder(t)
    ensures InOrder(Cleaned(l, t, now, budget))
    ensures Kept(l, t, Cleaned(l, t, now, budget), now)
  {
    var k := CleanedDrops(l, t, now, budget);
    OldestInOrder(t, k);
    CleanedKept(l, t, now, budget, Cleaned(l, t, now, budget));
  }

  /** The table without its k oldest keys. */
  function WithoutOldest(t: Table, k: nat): (r: Table)
    requires k <= |t.order|
    ensures |r.order| == |t.order| - k
  {
    if k == 0 then t else Dropped(WithoutOldest(t, k - 1))
  }

  lemma {:induction false} OldestInOrder(t: Table, k: nat)
    requires InOrder(t) && k <= |t.order|
    ensures InOrder(WithoutOldest(t, k))
  {
    if k > 0 {
      OldestInOrder(t, k - 1);
      FrontDropped(WithoutOldest(t, k - 1));
    }
  }

  lemma {:induction false} OneOlder(t: Table, k: nat)
    requires t.order != [] && k <= |t.order| - 1
    ensures WithoutOldest(Dropped(t), k) == WithoutOldest(t, k + 1)
  {
    if k > 0 {
      OneOlder(t, k - 1);
    }
  }

  /** Cleaning drops some number of the oldest keys. */
  lemma {:induction false} CleanedDrops(l: Limits, t: Table, now: real, budget: nat) returns (k: nat)
    ensures k <= |t.order| && Cleaned(l, t, now, budget) == WithoutOldest(t, k)
    decreases budget
  {
    k := 0;
    if budget > 0 && FrontIdle(l, t, now) {
      CleanedDropped(l, t, now, budget);
      k := CleanedDrops(l, Dropped(t), now, budget - 1);
      OneOlder(t, k);
      k := k + 1;
    }
  }

  lemma {:induction false} CleanedKept(l: Limits, t: Table, now: real, budget: nat, c: Table)
    requires c == Cleaned(l, t, now, budget)
    ensures Kept(l, t, c, now)
    decreases budget
  {
    if budget > 0 && FrontIdle(l, t, now) {
      CleanedDropped(l, t, now, budget);
      CleanedKept(l, Dropped(t), now, budget - 1, c);
      KeptFront(l, t, c, now);
    }
  }

  lemma KeptFront(l: Limits, t: Table, c: Table, now: real)
    requires FrontIdle(l, t, now) && Kept(l, Dropped(t), c, now)
    ensures Kept(l, t, c, now)
  {
  }

  lemma CleanedTableOk(l: Limits, t: Table, now: real, budget: nat)
    requires TableOk(l, t, now)
    ensures TableOk(l, Cleaned(l, t, now, budget), now) && Kept(l, t, Cleaned(l, t, now, budget), now)
  {
    CleanedOk(l, t, now, budget);
  }

  /** Where a remaining key stood before another was removed. */
  function PlaceOf(order: seq<string>, key: string, i: nat): (place: nat)
    requires i < |Remove(order, key)|
    ensures place < |order| && order[place] == Remove(order, key)[i]
  {
    if order[0] == key then 1 + PlaceOf(order[1..], key, i)
    else if i == 0 then 0 else 1 + PlaceOf(order[1..], key, i - 1)
  }

  lemma {:induction false} PlacesGrow(order: seq<string>, key: string, i: nat, j: nat)
    requires i < j < |Remove(order, key)|
    ensures PlaceOf(order, key, i) < PlaceOf(order, key, j)
  {
    if order[0] == key {
      PlacesGrow(order[1..], key, i, j);
    } else if i > 0 {
      PlacesGrow(order[1..], key, i - 1, j - 1);
    }
  }

  lemma TakeOk(l: Limits, b: Bucket, now: real)
    requires l.Usable() && 0.0 <= b.tokens <= l.burst && b.last <= now
    ensures var taken := Take(l, b, now).0;
            0.0 <= taken.tokens <= l.burst && taken.last == taken.lastSeen == now
  {
  }

  /** List and map always hold the same buckets, ordered by last use. */
  lemma StepOk(l: Limits, t: Table, key: string, now: real)
    requires l.Usable() && TableOk(l, t, now)
    ensures TableOk(l, Step(l, t, key, now).0, now)
  {
    var kept := Cleaned(l, t, now, l.budget);
    CleanedTableOk(l, t, now, l.budget);
    if key in kept.buckets || |kept.buckets| < l.maxKeys {
      TakeOk(l, if key in kept.buckets then kept.buckets[key] else Fresh(l, now), now);
      MovedToBack(l, kept, key, Take(l, if key in kept.buckets then kept.buckets[key] else Fresh(l, now), now).0, now);
    }
  }

  lemma RestInOrder(t: Table, key: string, i: nat, j: nat)
    requires InOrder(t) && i < j < |Remove(t.order, key)|
    ensures var r := Remove(t.order, key);
            && r[i] in t.buckets && r[j] in t.buckets && r[i] != r[j]
            && t.buckets[r[i]].lastSeen <= t.buckets[r[j]].lastSeen
  {
    PlacesGrow(t.order, key, i, j);
    var a, b := PlaceOf(t.order, key, i), PlaceOf(t.order, key, j);
    assert t.order[a] == Remove(t.order, key)[i] && t.order[b] == Remove(t.order, key)[j];
  }

  lemma RestKeeps(kept: Table, key: string, i: nat)
    requires InOrder(kept) && i < |Remove(kept.order, key)|
    ensures Remove(kept.order, key)[i] != key && Remove(kept.order, key)[i] in kept.buckets
  {
    assert Remove(kept.order, key)[i] in Remove(kept.order, key);
    assert kept.order[PlaceOf(kept.order, key, i)] == Remove(kept.order, key)[i];
  }

  lemma PairAfterMove(l: Limits, kept: Table, key: string, b: Bucket, now: real, i: nat, j: nat)
    requires TableOk(l, kept, now) && b.lastSeen == now && i < j <= |Remove(kept.order, key)|
    ensures var next := Table(kept.buckets[key := b], Remove(kept.order, key) + [key]);
            && next.order[i] != next.order[j] && next.order[i] in next.buckets && next.order[j] in next.buckets
            && next.buckets[next.order[i]].lastSeen <= next.buckets[next.order[j]].lastSeen
  {
    RestKeeps(kept, key, i);
    if j < |Remove(kept.order, key)| {
      RestKeeps(kept, key, j);
      RestInOrder(kept, key, i, j);
    }
  }

  lemma MovedToBack(l: Limits, kept: Table, key: string, b: Bucket, now: real)
    requires TableOk(l, kept, now) && 0.0 <= b.tokens <= l.burst && b.last == b.lastSeen == now
    ensures TableOk(l, Table(kept.buckets[key := b], Remove(kept.order, key) + [key]), now)
  {
    var r, next := Remove(kept.order, key), Table(kept.buckets[key := b], Remove(kept.order, key) + [key]);
    forall i | 0 <= i < |next.order|
      ensures next.order[i] in next.buckets
    {
      if i < |r| {
        RestKeeps(kept, key, i);
      }
    }
    forall i, j | 0 <= i < j < |next.order|
      ensures next.order[i] != next.order[j]
      ensures next.buckets[next.order[i]].lastSeen <= next.buckets[next.order[j]].lastSeen
    {
      PairAfterMove(l, kept, key, b, now, i, j);
    }
    forall k | k in next.buckets
      ensures k in next.order
    {
      if k != key {
        assert k in r;
      }
    }
  }

  // --- A token bucket that never evicts ---

  /** Buckets of every key ever let into the table. */
  type Ideal = map<string, Bucket>

  function IdealStep(l: Limits, ideal: Ideal, key: string, now: real): (Ideal, bool) {
    var taken := Take(l, if key in ideal then ideal[key] else Fresh(l, now), now);
    (ideal[key := taken.0], taken.1)
  }

  /** The table forgets only buckets that have had time to fill up again. */
  predicate Refines(l: Limits, t: Table, ideal: Ideal, now: real) {
    && (forall key :: key in t.buckets ==> key in ideal && ideal[key] == t.buckets[key])
    && (forall key :: key in ideal && key !in t.buckets ==> now - ideal[key].last >= l.idle)
    && (forall key :: key in ideal ==>
          0.0 <= ideal[key].tokens <= l.burst && ideal[key].last == ideal[key].lastSeen <= now)
  }

  lemma IdleIsFull(l: Limits, b: Bucket, now: real)
    requires l.Usable() && l.idle >= l.burst
    requires 0.0 <= b.tokens <= l.burst && now - b.last >= l.idle
    ensures Refilled(l, b, now) == l.burst
  {
  }

  lemma CleanedRefines(l: Limits, t: Table, ideal: Ideal, now: real, kept: Table)
    requires Refines(l, t, ideal, now) && Kept(l, t, kept, now)
    ensures Refines(l, kept, ideal, now)
  {
  }

  /** A table and an ideal that hand the same bucket back for a key still agree. */
  lemma SameUpdate(l: Limits, kept: Table, ideal: Ideal, key: string, b: Bucket, order: seq<string>, now: real)
    requires Refines(l, kept, ideal, now)
    requires 0.0 <= b.tokens <= l.burst && b.last == b.lastSeen == now
    ensures Refines(l, Table(kept.buckets[key := b], order), ideal[key := b], now)
  {
  }

  lemma SameTake(l: Limits, kept: Table, ideal: Ideal, key: string, now: real)
    requires l.Usable() && l.idle >= l.burst && Refines(l, kept, ideal, now)
    ensures var a := if key in kept.buckets then kept.buckets[key] else Fresh(l, now);
            var b := if key in ideal then ideal[key] else Fresh(l, now);
            && Take(l, a, now) == Take(l, b, now)
            && var taken := Take(l, a, now).0; 0.0 <= taken.tokens <= l.burst && taken.last == taken.lastSeen == now
  {
    TakeOk(l, if key in kept.buckets then kept.buckets[key] else Fresh(l, now), now);
    if key in ideal && key !in kept.buckets {
      IdleIsFull(l, ideal[key], now);
    }
  }

  /** While idle keys have had time to refill, the table answers like the bucket that never evicts, and still refines it. */
  lemma StepRefines(l: Limits, t: Table, ideal: Ideal, key: string, now: real)
    requires l.Usable() && l.idle >= l.burst
    requires TableOk(l, t, now) && Refines(l, t, ideal, now)
    ensures var step := Step(l, t, key, now);
            if step.1 == TableFull then Refines(l, step.0, ideal, now)
            else
              var same := IdealStep(l, ideal, key, now);
              (step.1 == Admitted <==> same.1) && Refines(l, step.0, same.0, now)
  {
    var kept := Cleaned(l, t, now, l.budget);
    CleanedOk(l, t, now, l.budget);
    CleanedRefines(l, t, ideal, now, kept);
    SameTake(l, kept, ideal, key, now);
    var taken := Take(l, if key in kept.buckets then kept.buckets[key] else Fresh(l, now), now);
    SameUpdate(l, kept, ideal, key, taken.0, Remove(kept.order, key) + [key], now);
  }

  // --- Runs ---

  datatype Request = Request(key: string, now: real)

  predicate ClockRuns(requests: seq<Request>) {
    forall i, j :: 0 <= i <= j < |requests| ==> requests[i].now <= requests[j].now
  }

  function TableAfter(l: Limits, requests: seq<Request>, n: nat): Table
    requires n <= |requests|
  {
    if n == 0 then Table(map[], [])
    else Step(l, TableAfter(l, requests, n - 1), requests[n - 1].key, requests[n - 1].now).0
  }

  function AnswerTo(l: Limits, requests: seq<Request>, i: nat): Answer
    requires i < |requests|
  {
    Step(l, TableAfter(l, requests, i), requests[i].key, requests[i].now).1
  }

  /** The never-evicting buckets after one request, unless the full table turned it away. */
  function NextIdeal(l: Limits, t: Table, ideal: Ideal, r: Request): Ideal {
    if Step(l, t, r.key, r.now).1 == TableFull then ideal else IdealStep(l, ideal, r.key, r.now).0
  }

  /** The never-evicting buckets after the requests that the full table did not turn away. */
  function IdealAfter(l: Limits, requests: seq<Request>, n: nat): Ideal
    requires n <= |requests|
  {
    if n == 0 then map[]
    else NextIdeal(l, TableAfter(l, requests, n - 1), IdealAfter(l, requests, n - 1), requests[n - 1])
  }

  /** Limits under which an idle bucket is a full one. */
  predicate RefillsWhenIdle(l: Limits) {
    l.Usable() && l.idle >= l.burst
  }

  predicate Tracks(l: Limits, t: Table, ideal: Ideal, now: real) {
    TableOk(l, t, now) && Refines(l, t, ideal, now)
  }

  lemma LaterOk(l: Limits, t: Table, ideal: Ideal, before: real, now: real)
    requires Tracks(l, t, ideal, before) && before <= now
    ensures Tracks(l, t, ideal, now)
  {
  }

  lemma RunStep(l: Limits, t: Table, ideal: Ideal, r: Request, later: real)
    requires RefillsWhenIdle(l) && Tracks(l, t, ideal, r.now) && r.now <= later
    ensures Tracks(l, Step(l, t, r.key, r.now).0, NextIdeal(l, t, ideal, r), later)
  {
    StepOk(l, t, r.key, r.now);
    StepRefines(l, t, ideal, r.key, r.now);
    LaterOk(l, Step(l, t, r.key, r.now).0, NextIdeal(l, t, ideal, r), r.now, later);
  }

  lemma {:induction false} RunRefines(l: Limits, requests: seq<Request>, n: nat, now: real)
    requires RefillsWhenIdle(l) && ClockRuns(requests) && n <= |requests| && (n > 0 ==> requests[n - 1].now <= now)
    ensures Tracks(l, TableAfter(l, requests, n), IdealAfter(l, requests, n), now)
  {
    if n > 0 {
      RunRefines(l, requests, n - 1, requests[n - 1].now);
      RunStep(l, TableAfter(l, requests, n - 1), IdealAfter(l, requests, n - 1), requests[n - 1], now);
    }
  }

  /** Refinement: apart from refusals of a full table, every answer is that of a token bucket that never evicts. */
  lemma LimiterRefines(l: Limits, requests: seq<Request>, i: nat)
    requires RefillsWhenIdle(l) && ClockRuns(requests) && i < |requests|
    ensures AnswerTo(l, requests, i) == TableFull ||
            (AnswerTo(l, requests, i) == Admitted <==>
             IdealStep(l, IdealAfter(l, requests, i), requests[i].key, requests[i].now).1)
  {
    RunRefines(l, requests, i, requests[i].now);
    StepRefines(l, TableAfter(l, requests, i), IdealAfter(l, requests, i), requests[i].key, requests[i].now);
  }

  // --- Admissions per key ---

  /** How many of the first n requests admitted a key. */
  function Admissions(l: Limits, requests: seq<Request>, key: string, n: nat): real
    requires n <= |requests|
  {
    if n == 0 then 0.0
    else Admissions(l, requests, key, n - 1) + Counted(AnswerTo(l, requests, n - 1), requests[n - 1].key == key)
  }

  /** One request let in: what it takes and what flows in balance. */
  lemma TakeBalance(l: Limits, b: Bucket, first: real, now: real, admitted: real)
    requires l.Usable() && 0.0 <= b.tokens && first <= b.last <= now
    requires admitted + b.tokens <= l.burst + (b.last - first)
    ensures var taken := Take(l, b, now);
            && taken.0.last == now
            && admitted + (if taken.1 then 1.0 else 0.0) + taken.0.tokens <= l.burst + (now - first)
  {
  }

  /** What balances for a key after some requests. */
  predicate Balanced(l: Limits, ideal: Ideal, key: string, first: real, admitted: real) {
    if key !in ideal then admitted == 0.0
    else first <= ideal[key].last && admitted + ideal[key].tokens <= l.burst + (ideal[key].last - first)
  }

  lemma BalanceStep(l: Limits, ideal: Ideal, key: string, first: real, admitted: real, now: real)
    requires l.Usable() && Balanced(l, ideal, key, first, admitted) && first <= now
    requires key in ideal ==> 0.0 <= ideal[key].tokens && ideal[key].last <= now
    ensures var step := IdealStep(l, ideal, key, now);
            Balanced(l, step.0, key, first, admitted + if step.1 then 1.0 else 0.0)
  {
    if key in ideal {
      TakeBalance(l, ideal[key], first, now, admitted);
    } else {
      TakeBalance(l, Fresh(l, now), first, now, 0.0);
    }
  }

  function Counted(answer: Answer, same: bool): real {
    if same && answer == Admitted then 1.0 else 0.0
  }

  lemma SameAnswer(l: Limits, t: Table, ideal: Ideal, r: Request)
    requires RefillsWhenIdle(l) && Tracks(l, t, ideal, r.now)
    ensures var answer := Step(l, t, r.key, r.now).1;
            answer == TableFull || (answer == Admitted <==> IdealStep(l, ideal, r.key, r.now).1)
  {
    StepRefines(l, t, ideal, r.key, r.now);
  }

  lemma TracksTokens(l: Limits, t: Table, ideal: Ideal, now: real, key: string)
    requires Tracks(l, t, ideal, now)
    ensures key in ideal ==> 0.0 <= ideal[key].tokens && ideal[key].last <= now
  {
  }

  lemma BalanceNext(l: Limits, t: Table, ideal: Ideal, r: Request, key: string, first: real, admitted: real)
    requires RefillsWhenIdle(l) && Tracks(l, t, ideal, r.now) && first <= r.now && Balanced(l, ideal, key, first, admitted)
    ensures Balanced(l, NextIdeal(l, t, ideal, r), key, first,
                     admitted + Counted(Step(l, t, r.key, r.now).1, r.key == key))
  {
    SameAnswer(l, t, ideal, r);
    TracksTokens(l, t, ideal, r.now, key);
    NextBalanced(l, ideal, r, key, first, admitted, Step(l, t, r.key, r.now).1, NextIdeal(l, t, ideal, r));
  }

  lemma NextBalanced(l: Limits, ideal: Ideal, r: Request, key: string, first: real, admitted: real, answer: Answer, next: Ideal)
    requires RefillsWhenIdle(l) && first <= r.now && Balanced(l, ideal, key, first, admitted)
    requires key in ideal ==> 0.0 <= ideal[key].tokens && ideal[key].last <= r.now
    requires answer == TableFull || (answer == Admitted <==> IdealStep(l, ideal, r.key, r.now).1)
    requires next == if answer == TableFull then ideal else IdealStep(l, ideal, r.key, r.now).0
    ensures Balanced(l, next, key, first, admitted + Counted(answer, r.key == key))
  {
    if r.key == key {
      BalanceStep(l, ideal, key, first, admitted, r.now);
    }
  }

  /** Tokens left plus requests admitted never exceed the burst plus what flowed in since the first request. */
  lemma {:induction false} TokensBalance(l: Limits, requests: seq<Request>, key: string, n: nat)
    requires RefillsWhenIdle(l) && ClockRuns(requests) && n <= |requests| && requests != []
    ensures Balanced(l, IdealAfter(l, requests, n), key, requests[0].now, Admissions(l, requests, key, n))
  {
    if n > 0 {
      TokensBalance(l, requests, key, n - 1);
      RunRefines(l, requests, n - 1, requests[n - 1].now);
      BalanceNext(l, TableAfter(l, requests, n - 1), IdealAfter(l, requests, n - 1), requests[n - 1], key, requests[0].now,
                  Admissions(l, requests, key, n - 1));
    }
  }

  /** Per key at most burst + elapsed tokens' worth of requests are admitted. */
  lemma AdmissionsBounded(l: Limits, requests: seq<Request>, key: string, n: nat, now: real)
    requires RefillsWhenIdle(l) && ClockRuns(requests) && 1 <= n <= |requests| && requests[n - 1].now <= now
    ensures Admissions(l, requests, key, n) <= l.burst + (now - requests[0].now)
  {
    TokensBalance(l, requests, key, n);
    RunRefines(l, requests, n, now);
    TracksTokens(l, TableAfter(l, requests, n), IdealAfter(l, requests, n), now, key);
    BoundFrom(l, IdealAfter(l, requests, n), key, requests[0].now, Admissions(l, requests, key, n), now);
  }

  lemma BoundFrom(l: Limits, ideal: Ideal, key: string, first: real, admitted: real, now: real)
    requires l.Usable() && Balanced(l, ideal, key, first, admitted) && first <= now
    requires key in ideal ==> 0.0 <= ideal[key].tokens && ideal[key].last <= now
    ensures admitted <= l.burst + (now - first)
  {
  }

  // --- Where the condition fails ---

  /** A table holding one key only. */
  function Single(key: string, tokens: real, at: real): Table {
    Table(map[key := Bucket(tokens, at, at)], [key])
  }

  lemma ServedSingle(l: Limits, key: string, tokens: real, now: real)
    requires l.Usable() && tokens >= 1.0
    ensures Served(l, Single(key, tokens, now), key, now) == (Single(key, tokens - 1.0, now), Admitted)
  {
    var t := Single(key, tokens, now);
    assert Remove(t.order[1..], key) == [];
    assert Remove(t.order, key) + [key] == [key];
    assert t.buckets[key := Bucket(tokens - 1.0, now, now)] == map[key := Bucket(tokens - 1.0, now, now)];
  }

  lemma ServedEmpty(l: Limits, key: string, now: real)
    requires l.Usable()
    ensures Served(l, Table(map[], []), key, now) == (Single(key, l.burst - 1.0, now), Admitted)
  {
    var t := Table(map[], []);
    assert |t.buckets| == 0;
    assert Remove(t.order, key) + [key] == [key];
    assert Take(l, Fresh(l, now), now) == (Bucket(l.burst - 1.0, now, now), true);
    assert t.buckets[key := Bucket(l.burst - 1.0, now, now)] == map[key := Bucket(l.burst - 1.0, now, now)];
  }

  lemma CleanedFixed(l: Limits, t: Table, now: real, budget: nat)
    requires budget == 0 || !FrontIdle(l, t, now)
    ensures Cleaned(l, t, now, budget) == t
  {
  }

  lemma DrainStep(l: Limits, key: string, tokens: real, now: real)
    requires l.Usable() && tokens >= 1.0
    ensures Step(l, Single(key, tokens, now), key, now) == (Single(key, tokens - 1.0, now), Admitted)
  {
    CleanedFixed(l, Single(key, tokens, now), now, l.budget);
    ServedSingle(l, key, tokens, now);
  }

  lemma EmptyStep(l: Limits, key: string, now: real)
    requires l.Usable()
    ensures Step(l, Table(map[], []), key, now) == (Single(key, l.burst - 1.0, now), Admitted)
  {
    CleanedFixed(l, Table(map[], []), now, l.budget);
    ServedEmpty(l, key, now);
  }

  lemma ForgottenTable(l: Limits, key: string, tokens: real, at: real)
    requires l.Usable() && l.budget >= 1
    ensures Cleaned(l, Single(key, tokens, at), at + l.idle, l.budget) == Table(map[], [])
  {
    var t, now := Single(key, tokens, at), at + l.idle;
    assert FrontIdle(l, t, now);
    CleanedDropped(l, t, now, l.budget);
    assert t.buckets - {key} == map[];
    assert Dropped(t) == Table(map[], []);
  }

  /** An idle key is forgotten, so its next request finds a full bucket. */
  lemma ForgottenStep(l: Limits, key: string, tokens: real, at: real)
    requires l.Usable() && l.budget >= 1
    ensures Step(l, Single(key, tokens, at), key, at + l.idle) == (Single(key, l.burst - 1.0, at + l.idle), Admitted)
  {
    ForgottenTable(l, key, tokens, at);
    ServedEmpty(l, key, at + l.idle);
  }

  function Whole(n: nat): real {
    if n == 0 then 0.0 else Whole(n - 1) + 1.0
  }

  /** One burst now, and a second burst as soon as the first has been idle long enough to be forgotten. */
  function TwoBursts(l: Limits, key: string, burst: nat): seq<Request> {
    seq(burst + burst, i => Request(key, if i < burst then 0.0 else l.idle))
  }

  /** The table after the n-th request of the two bursts. */
  function AfterBursts(l: Limits, key: string, burst: nat, n: nat): Table {
    if n == 0 then Table(map[], [])
    else if n <= burst then Single(key, Whole(burst - n), 0.0)
    else if n <= burst + burst then Single(key, Whole(burst + burst - n), l.idle)
    else Table(map[], [])
  }

  lemma CountDown(l: Limits, key: string, tokens: nat, now: real)
    requires l.Usable() && tokens >= 1
    ensures Step(l, Single(key, Whole(tokens), now), key, now) == (Single(key, Whole(tokens - 1), now), Admitted)
  {
    WholeNonNegative(tokens - 1);
    DrainStep(l, key, Whole(tokens), now);
  }

  lemma {:induction false} WholeNonNegative(n: nat)
    ensures 0.0 <= Whole(n)
  {
    if n > 0 {
      WholeNonNegative(n - 1);
    }
  }

  lemma FirstOfBurst(l: Limits, key: string, burst: nat)
    requires l.Usable() && l.budget >= 1 && burst >= 1 && l.burst == Whole(burst)
    ensures Step(l, Table(map[], []), key, 0.0) == (Single(key, Whole(burst - 1), 0.0), Admitted)
    ensures Step(l, Single(key, Whole(0), 0.0), key, l.idle) == (Single(key, Whole(burst - 1), l.idle), Admitted)
  {
    EmptyStep(l, key, 0.0);
    ForgottenStep(l, key, 0.0, 0.0);
  }

  lemma BurstGoesOn(l: Limits, key: string, burst: nat, n: nat, r: Request)
    requires l.Usable() && 0 < n < burst + burst && n != burst && r == Request(key, if n < burst then 0.0 else l.idle)
    ensures Step(l, AfterBursts(l, key, burst, n), r.key, r.now).0 == AfterBursts(l, key, burst, n + 1)
    ensures Step(l, AfterBursts(l, key, burst, n), r.key, r.now).1 == Admitted
  {
    CountDown(l, key, if n < burst then burst - n else burst + burst - n, r.now);
  }

  lemma BurstStep(l: Limits, key: string, burst: nat, n: nat, r: Request)
    requires l.Usable() && l.budget >= 1 && burst >= 1 && l.burst == Whole(burst)
    requires n < burst + burst && r == Request(key, if n < burst then 0.0 else l.idle)
    ensures Step(l, AfterBursts(l, key, burst, n), r.key, r.now).0 == AfterBursts(l, key, burst, n + 1)
    ensures Step(l, AfterBursts(l, key, burst, n), r.key, r.now).1 == Admitted
  {
    if n == 0 || n == burst {
      FirstOfBurst(l, key, burst);
    } else {
      BurstGoesOn(l, key, burst, n, r);
    }
  }

  lemma {:induction false} BurstTables(l: Limits, key: string, burst: nat, n: nat)
    requires l.Usable() && l.budget >= 1 && burst >= 1 && l.burst == Whole(burst) && n <= burst + burst
    ensures TableAfter(l, TwoBursts(l, key, burst), n) == AfterBursts(l, key, burst, n)
  {
    if n > 0 {
      BurstTables(l, key, burst, n - 1);
      BurstStep(l, key, burst, n - 1, TwoBursts(l, key, burst)[n - 1]);
    }
  }

  lemma BurstAnswer(l: Limits, key: string, burst: nat, n: nat)
    requires l.Usable() && l.budget >= 1 && burst >= 1 && l.burst == Whole(burst) && n < burst + burst
    ensures AnswerTo(l, TwoBursts(l, key, burst), n) == Admitted && TwoBursts(l, key, burst)[n].key == key
  {
    BurstTables(l, key, burst, n);
    BurstStep(l, key, burst, n, TwoBursts(l, key, burst)[n]);
  }

  lemma {:induction false} TwoBurstsAdmitted(l: Limits, key: string, burst: nat, n: nat)
    requires l.Usable() && l.budget >= 1 && burst >= 1 && l.burst == Whole(burst) && n <= burst + burst
    ensures Admissions(l, TwoBursts(l, key, burst), key, n) == Whole(n)
  {
    if n > 0 {
      TwoBurstsAdmitted(l, key, burst, n - 1);
      BurstAnswer(l, key, burst, n - 1);
    }
  }

  predicate WithinRate(l: Limits, requests: seq<Request>, key: string, n: nat)
    requires 1 <= n <= |requests|
  {
    Admissions(l, requests, key, n) <= l.burst + (requests[n - 1].now - requests[0].now)
  }

  lemma {:induction false} WholeAdds(m: nat, n: nat)
    ensures Whole(m + n) == Whole(m) + Whole(n)
  {
    if n > 0 {
      WholeAdds(m, n - 1);
    }
  }

  lemma TwoBurstsExceed(l: Limits, key: string, burst: nat)
    requires l.Usable() && l.budget >= 1 && burst >= 1 && l.burst == Whole(burst) && l.idle < l.burst
    ensures ClockRuns(TwoBursts(l, key, burst)) && !WithinRate(l, TwoBursts(l, key, burst), key, burst + burst)
  {
    TwoBurstsAdmitted(l, key, burst, burst + burst);
    WholeAdds(burst, burst);
    var requests := TwoBursts(l, key, burst);
    assert requests[0].now == 0.0 && requests[burst + burst - 1].now == l.idle;
  }

  /** The exact condition: the per-key bound holds on every run if and only if an idle key has had time to refill. */
  lemma BoundedExactlyWhenRefilled(l: Limits, key: string, burst: nat)
    requires l.Usable() && l.budget == CLEANUP_BUDGET && burst >= 1 && l.burst == Whole(burst)
    ensures l.idle >= l.burst <==>
            forall requests: seq<Request>, n: nat :: ClockRuns(requests) && 1 <= n <= |requests| ==>
              WithinRate(l, requests, key, n)
  {
    if l.idle >= l.burst {
      forall requests: seq<Request>, n: nat | ClockRuns(requests) && 1 <= n <= |requests|
        ensures WithinRate(l, requests, key, n)
      {
        AdmissionsBounded(l, requests, key, n, requests[n - 1].now);
      }
    } else {
      TwoBurstsExceed(l, key, burst);
    }
  }
}
