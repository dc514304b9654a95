/** Nonces of signed requests: the purging in-memory store, the SQL upsert, and the windows around them. */
module NonceStore {
  import opened Money

  const NUL: char := '\0'

  // --- Keys ---

  predicate NoNul(s: string) {
    forall i :: 0 <= i < |s| ==> s[i] != NUL
  }

  function KeyOf(scope: string, nonce: string): string {
    scope + [NUL] + nonce
  }

  /** A nonce holds no NUL, so the joined key determines scope and nonce even though scopes contain NULs. */
  lemma KeysDiffer(scope: string, nonce: string, scope': string, nonce': string)
    requires NoNul(nonce) && NoNul(nonce') && KeyOf(scope, nonce) == KeyOf(scope', nonce')
    ensures scope == scope' && nonce == nonce'
  {
    var key := KeyOf(scope, nonce);
    assert key[|scope|] == NUL && key[|scope'|] == NUL;
    assert forall i :: |scope| < i < |key| ==> key[i] == nonce[i - |scope| - 1];
    assert forall i :: |scope'| < i < |key| ==> key[i] == nonce'[i - |scope'| - 1];
    assert |scope| == |scope'|;
    assert scope == key[..|scope|] && nonce == key[|scope| + 1..];
  }

  // --- One call ---

  /** The entries that have not expired. */
  function Live(entries: map<string, int>, now: int): map<string, int> {
    map key | key in entries && entries[key] > now :: entries[key]
  }

  function MemoryStep(entries: map<string, int>, now: int, key: string, deadline: int): (bool, map<string, int>) {
    var live := Live(entries, now);
    if key in live || deadline <= now then (false, live) else (true, live[key := deadline])
  }

  /** The upsert: a row is written if its deadline lies ahead and no unexpired row stands in the way. */
  function SqlStep(rows: map<string, int>, now: int, key: string, deadline: int): (bool, map<string, int>) {
    if deadline > now && (key in rows ==> rows[key] <= now) then (true, rows[key := deadline]) else (false, rows)
  }

  class MemoryNonceStore {
    var expires: map<string, int>

    constructor ()
      ensures expires == map[]
    {
      expires := map[];
    }

    /** Purges what has expired, then consumes the nonce unless it is still held or already late. */
    method Consume(cancelled: bool, now: int, scope: string, nonce: string, expiresAt: int) returns (r: Result<bool>)
      modifies this
      ensures cancelled ==> r == Err(Cancelled) && expires == old(expires)
      ensures !cancelled ==>
                (r, expires) == var step := MemoryStep(old(expires), now, KeyOf(scope, nonce), expiresAt); (Ok(step.0), step.1)
    {
      if cancelled {
        return Err(Cancelled);
      }
      var pending := expires.Keys;
      while pending != {}
        invariant pending <= old(expires).Keys
        invariant expires == map key | key in old(expires) && (key in pending || old(expires)[key] > now) :: old(expires)[key]
        decreases |pending|
      {
        var key :| key in pending;
        pending := pending - {key};
        if expires[key] <= now {
          expires := expires - {key};
        }
      }
      assert expires == Live(old(expires), now);
      var key := KeyOf(scope, nonce);
      if key in expires && expires[key] > now {
        return Ok(false);
      }
      if expiresAt <= now {
        return Ok(false);
      }
      expires := expires[key := expiresAt];
      return Ok(true);
    }
  }

  // --- Runs ---

  datatype Call = Call(now: int, key: string, deadline: int)

  predicate ClockRuns(calls: seq<Call>) {
    forall i, j :: 0 <= i <= j < |calls| ==> calls[i].now <= calls[j].now
  }

  function MemoryAfter(calls: seq<Call>, n: nat): map<string, int>
    requires n <= |calls|
  {
    if n == 0 then map[]
    else MemoryStep(MemoryAfter(calls, n - 1), calls[n - 1].now, calls[n - 1].key, calls[n - 1].deadline).1
  }

  function SqlAfter(calls: seq<Call>, n: nat): map<string, int>
    requires n <= |calls|
  {
    if n == 0 then map[]
    else SqlStep(SqlAfter(calls, n - 1), calls[n - 1].now, calls[n - 1].key, calls[n - 1].deadline).1
  }

  predicate Consumed(calls: seq<Call>, i: int)
    requires 0 <= i < |calls|
  {
    MemoryStep(MemoryAfter(calls, i), calls[i].now, calls[i].key, calls[i].deadline).0
  }

  predicate ConsumedBySql(calls: seq<Call>, i: int)
    requires 0 <= i < |calls|
  {
    SqlStep(SqlAfter(calls, i), calls[i].now, calls[i].key, calls[i].deadline).0
  }

  lemma SameLiveStep(m: map<string, int>, t: map<string, int>, now: int, key: string, deadline: int)
    requires Live(m, now) == Live(t, now)
    ensures MemoryStep(m, now, key, deadline).0 == SqlStep(t, now, key, deadline).0
    ensures Live(MemoryStep(m, now, key, deadline).1, now) == Live(SqlStep(t, now, key, deadline).1, now)
  {
    assert key in Live(m, now) <==> key in Live(t, now);
  }

  lemma LiveLater(m: map<string, int>, t: map<string, int>, before: int, now: int)
    requires Live(m, before) == Live(t, before) && before <= now
    ensures Live(m, now) == Live(t, now)
  {
    forall key
      ensures key in Live(m, now) <==> key in Live(t, now)
      ensures key in Live(m, now) ==> Live(m, now)[key] == Live(t, now)[key]
    {
      assert key in Live(m, before) <==> key in Live(t, before);
    }
  }

  lemma {:induction false} SameLive(calls: seq<Call>, n: nat, now: int)
    requires ClockRuns(calls) && n <= |calls| && forall i :: 0 <= i < n ==> calls[i].now <= now
    ensures Live(MemoryAfter(calls, n), now) == Live(SqlAfter(calls, n), now)
  {
    if n > 0 {
      var call := calls[n - 1];
      SameLive(calls, n - 1, call.now);
      SameLiveStep(MemoryAfter(calls, n - 1), SqlAfter(calls, n - 1), call.now, call.key, call.deadline);
      LiveLater(MemoryAfter(calls, n), SqlAfter(calls, n), call.now, now);
    }
  }

  /** The purging map and the upsert answer alike, call by call, on every run of a clock that never goes back. */
  lemma StoresAgree(calls: seq<Call>, i: nat)
    requires ClockRuns(calls) && i < |calls|
    ensures Consumed(calls, i) == ConsumedBySql(calls, i)
  {
    SameLive(calls, i, calls[i].now);
    SameLiveStep(MemoryAfter(calls, i), SqlAfter(calls, i), calls[i].now, calls[i].key, calls[i].deadline);
  }

  /** A consumed nonce stays held until its deadline. */
  lemma {:induction false} HeldUntilDeadline(calls: seq<Call>, i: nat, n: nat)
    requires ClockRuns(calls) && i < n <= |calls| && Consumed(calls, i)
    requires calls[n - 1].now < calls[i].deadline
    ensures var m := MemoryAfter(calls, n);
            calls[i].key in m && m[calls[i].key] == calls[i].deadline
  {
    if n > i + 1 {
      HeldUntilDeadline(calls, i, n - 1);
    }
  }

  /** At most once: one nonce is consumed again only after the deadline of its first consumption has passed. */
  lemma ConsumedOnce(calls: seq<Call>, i: nat, j: nat)
    requires ClockRuns(calls) && i < j < |calls| && calls[i].key == calls[j].key
    requires Consumed(calls, i) && Consumed(calls, j)
    ensures calls[i].deadline <= calls[j].now
  {
    if calls[j].now < calls[i].deadline {
      assert calls[j - 1].now <= calls[j].now;
      HeldUntilDeadline(calls, i, j);
    }
  }

  /** In particular a signed request, whose deadline is fixed, is consumed at most once in any run. */
  lemma RequestConsumedOnce(calls: seq<Call>, i: nat, j: nat)
    requires ClockRuns(calls) && i < |calls| && j < |calls| && calls[i].key == calls[j].key
    requires calls[i].deadline == calls[j].deadline && Consumed(calls, i) && Consumed(calls, j)
    ensures i == j
  {
    if i < j {
      ConsumedOnce(calls, i, j);
    } else if j < i {
      ConsumedOnce(calls, j, i);
    }
  }

  // --- The acceptance window ---

  datatype Verdict = Accepted | Malformed | NotYetValid | Expired | KeyInactive

  /** The time checks of a signed request, in the order they are made. */
  function CheckWindow(created: int, expires: int, now: int, skew: int, maxLifetime: int, notBefore: int, notAfter: int): Verdict {
    if expires <= created || expires - created > maxLifetime then Malformed
    else if created > now + skew then NotYetValid
    else if expires <= now - skew then Expired
    else if created < notBefore - skew || expires > notAfter + skew || now > notAfter + skew then KeyInactive
    else Accepted
  }

  /** How long a nonce is kept. */
  function Retention(expires: int, skew: int): int {
    expires + skew + skew
  }

  /** The nonce was never seen, or everything known about it has expired. */
  predicate FirstUse(calls: seq<Call>, i: int)
    requires 0 <= i < |calls|
  {
    forall j :: 0 <= j < i && calls[j].key == calls[i].key ==> !Consumed(calls, j)
  }

  lemma {:induction false} UnusedAbsent(calls: seq<Call>, key: string, n: nat)
    requires n <= |calls| && forall j :: 0 <= j < n && calls[j].key == key ==> !Consumed(calls, j)
    ensures key !in MemoryAfter(calls, n)
  {
    if n > 0 {
      UnusedAbsent(calls, key, n - 1);
    }
  }

  /** No request inside its window is refused on first use, as long as the store clock leads by at most the skew. */
  lemma FirstUseConsumed(calls: seq<Call>, i: nat, created: int, expires: int, now: int, skew: int, maxLifetime: int,
                         notBefore: int, notAfter: int)
    requires i < |calls| && FirstUse(calls, i)
    requires CheckWindow(created, expires, now, skew, maxLifetime, notBefore, notAfter) == Accepted
    requires calls[i].now <= now + skew && calls[i].deadline == Retention(expires, skew)
    ensures Consumed(calls, i)
  {
    UnusedAbsent(calls, calls[i].key, i);
  }

  /** Every later use inside the window is a replay: the nonce is still held. */
  lemma ReplayRefused(calls: seq<Call>, i: nat, j: nat, created: int, expires: int, now: int, skew: int, maxLifetime: int,
                      notBefore: int, notAfter: int)
    requires ClockRuns(calls) && i < j < |calls| && calls[i].key == calls[j].key && Consumed(calls, i)
    requires calls[i].deadline == Retention(expires, skew)
    requires CheckWindow(created, expires, now, skew, maxLifetime, notBefore, notAfter) == Accepted
    requires calls[j].now <= now + skew
    ensures !Consumed(calls, j)
  {
    assert calls[j - 1].now <= calls[j].now;
    HeldUntilDeadline(calls, i, j);
  }
}
