/** Which requests the limiter admits: exactly those that keep every window of the run within burst plus elapsed tokens. */
module AdmissionExactly {
  import opened AdmissionLimiter

  /** The tokens that a bucket which never evicts has for a key. */
  function Available(l: Limits, ideal: Ideal, key: string, now: real): real {
    if key in ideal then Refilled(l, ideal[key], now) else l.burst
  }

  /** What the window from the j-th request on leaves for one more of its key. */
  function Room(l: Limits, requests: seq<Request>, key: string, j: nat, n: nat, now: real): real
    requires j < |requests| && j <= n <= |requests|
  {
    l.burst + (now - requests[j].now) - (Admissions(l, requests, key, n) - Admissions(l, requests, key, j))
  }

  /** No window has less room than the bucket has tokens. */
  predicate Within(l: Limits, requests: seq<Request>, key: string, n: nat, now: real, tokens: real)
    requires n <= |requests|
  {
    forall j :: 0 <= j < n ==> tokens <= Room(l, requests, key, j, n, now)
  }

  /** The bucket is full, or some window has exactly its tokens as room. */
  predicate Tight(l: Limits, requests: seq<Request>, key: string, n: nat, now: real, tokens: real)
    requires n <= |requests|
  {
    tokens == l.burst || exists j :: 0 <= j < n && tokens == Room(l, requests, key, j, n, now)
  }

  predicate Exact(l: Limits, requests: seq<Request>, key: string, n: nat, now: real, tokens: real)
    requires n <= |requests|
  {
    tokens <= l.burst && Within(l, requests, key, n, now, tokens) && Tight(l, requests, key, n, now, tokens)
  }

  /** Tokens flow in at one a unit until the bucket is full. */
  lemma FlowsIn(l: Limits, ideal: Ideal, key: string, now: real, later: real)
    requires now <= later && (key in ideal ==> ideal[key].last <= now && ideal[key].tokens <= l.burst)
    ensures Available(l, ideal, key, later) == Least(Available(l, ideal, key, now) + (later - now), l.burst)
  {
  }

  /** Time passes, and nothing is asked of the key. */
  lemma ExactLater(l: Limits, requests: seq<Request>, key: string, n: nat, now: real, later: real, tokens: real)
    requires n <= |requests| && now <= later && Exact(l, requests, key, n, now, tokens)
    requires forall j :: 0 <= j < n ==> requests[j].now <= now
    requires forall j :: 0 <= j <= n ==> Admissions(l, requests, key, j) <= Admissions(l, requests, key, n)
    ensures Exact(l, requests, key, n, later, Least(tokens + (later - now), l.burst))
  {
    var after := Least(tokens + (later - now), l.burst);
    forall j | 0 <= j < n
      ensures after <= Room(l, requests, key, j, n, later)
    {
      assert tokens <= Room(l, requests, key, j, n, now);
    }
    if after != l.burst {
      var j :| 0 <= j < n && tokens == Room(l, requests, key, j, n, now);
      assert after == Room(l, requests, key, j, n, later);
    }
  }

  lemma RoomTaken(l: Limits, requests: seq<Request>, key: string, j: nat, n: nat, now: real, taken: real)
    requires j <= n < |requests| && Admissions(l, requests, key, n + 1) == Admissions(l, requests, key, n) + taken
    ensures Room(l, requests, key, j, n + 1, now) == Room(l, requests, key, j, n, now) - taken
  {
  }

  lemma WithinTaken(l: Limits, requests: seq<Request>, key: string, n: nat, now: real, tokens: real, taken: real, m: nat)
    requires m == n + 1 && n < |requests| && now == requests[n].now && tokens <= l.burst && Within(l, requests, key, n, now, tokens)
    requires Admissions(l, requests, key, m) == Admissions(l, requests, key, n) + taken
    ensures Within(l, requests, key, m, now, tokens - taken)
  {
    forall j | 0 <= j < m
      ensures tokens - taken <= Room(l, requests, key, j, m, now)
    {
      RoomTaken(l, requests, key, j, n, now, taken);
    }
  }

  lemma TightTaken(l: Limits, requests: seq<Request>, key: string, n: nat, now: real, tokens: real, taken: real, m: nat)
    requires m == n + 1 && n < |requests| && now == requests[n].now && Tight(l, requests, key, n, now, tokens)
    requires Admissions(l, requests, key, m) == Admissions(l, requests, key, n) + taken
    ensures Tight(l, requests, key, m, now, tokens - taken)
  {
    var j := n;
    if tokens != l.burst {
      j :| 0 <= j < n && tokens == Room(l, requests, key, j, n, now);
    }
    RoomTaken(l, requests, key, j, n, now, taken);
    assert tokens - taken == Room(l, requests, key, j, m, now);
  }

  /** One request of the run takes a token of the key, or none. */
  lemma ExactTaken(l: Limits, requests: seq<Request>, key: string, n: nat, now: real, tokens: real, taken: real, m: nat)
    requires m == n + 1 && n < |requests| && now == requests[n].now && Exact(l, requests, key, n, now, tokens) && 0.0 <= taken
    requires Admissions(l, requests, key, m) == Admissions(l, requests, key, n) + taken
    ensures Exact(l, requests, key, m, now, tokens - taken)
  {
    WithinTaken(l, requests, key, n, now, tokens, taken, m);
    TightTaken(l, requests, key, n, now, tokens, taken, m);
  }

  lemma CountedIsNatural(answer: Answer, same: bool)
    ensures 0.0 <= Counted(answer, same)
  {
  }

  lemma AdmissionStep(l: Limits, requests: seq<Request>, key: string, n: nat)
    requires n < |requests|
    ensures Admissions(l, requests, key, n + 1) ==
            Admissions(l, requests, key, n) + Counted(AnswerTo(l, requests, n), requests[n].key == key)
    ensures 0.0 <= Counted(AnswerTo(l, requests, n), requests[n].key == key)
  {
    CountedIsNatural(AnswerTo(l, requests, n), requests[n].key == key);
  }

  lemma {:induction false} Rising(f: nat -> real, j: nat, n: nat)
    requires j <= n && forall i: nat :: j <= i < n ==> f(i) <= f(i + 1)
    ensures f(j) <= f(n)
  {
    if j < n {
      Rising(f, j, n - 1);
      assert f(n - 1) <= f(n - 1 + 1);
    }
  }

  lemma AdmissionsGrow(l: Limits, requests: seq<Request>, key: string, j: nat, n: nat)
    requires j <= n <= |requests|
    ensures Admissions(l, requests, key, j) <= Admissions(l, requests, key, n)
  {
    var f := (i: nat) => if i <= |requests| then Admissions(l, requests, key, i) else 0.0;
    forall i: nat | j <= i < n
      ensures f(i) <= f(i + 1)
    {
      AdmissionStep(l, requests, key, i);
    }
    Rising(f, j, n);
  }

  /** What a request leaves of the key's tokens, and whether it was admitted. */
  lemma TokensAfter(l: Limits, requests: seq<Request>, key: string, n: nat)
    requires RefillsWhenIdle(l) && ClockRuns(requests) && n < |requests|
    ensures var now := requests[n].now;
            var taken := Counted(AnswerTo(l, requests, n), requests[n].key == key);
            && Available(l, IdealAfter(l, requests, n + 1), key, now) == Available(l, IdealAfter(l, requests, n), key, now) - taken
            && (requests[n].key == key && AnswerTo(l, requests, n) != TableFull ==>
                  (AnswerTo(l, requests, n) == Admitted <==> Available(l, IdealAfter(l, requests, n), key, now) >= 1.0))
  {
    var r := requests[n];
    RunRefines(l, requests, n, r.now);
    LimiterRefines(l, requests, n);
    TakesToken(l, IdealAfter(l, requests, n), r.key, r.now);
  }

  lemma TakesToken(l: Limits, ideal: Ideal, key: string, now: real)
    requires l.Usable() && (key in ideal ==> ideal[key].last <= now && ideal[key].tokens <= l.burst)
    ensures var step, tokens := IdealStep(l, ideal, key, now), Available(l, ideal, key, now);
            && (step.1 <==> tokens >= 1.0)
            && Available(l, step.0, key, now) == tokens - (if step.1 then 1.0 else 0.0)
            && forall other :: other != key ==> Available(l, step.0, other, now) == Available(l, ideal, other, now)
  {
  }

  /** The tokens of a key are the room of its tightest window. */
  lemma {:induction false} TokensExact(l: Limits, requests: seq<Request>, key: string, n: nat, now: real)
    requires RefillsWhenIdle(l) && ClockRuns(requests) && n <= |requests| && (n > 0 ==> requests[n - 1].now <= now)
    ensures Exact(l, requests, key, n, now, Available(l, IdealAfter(l, requests, n), key, now))
  {
    if n > 0 {
      TokensExact(l, requests, key, n - 1, requests[n - 1].now);
      ExactNext(l, requests, key, n - 1);
      Passes(l, requests, key, n, now);
    }
  }

  lemma ExactNext(l: Limits, requests: seq<Request>, key: string, n: nat)
    requires RefillsWhenIdle(l) && ClockRuns(requests) && n < |requests|
    requires Exact(l, requests, key, n, requests[n].now, Available(l, IdealAfter(l, requests, n), key, requests[n].now))
    ensures Exact(l, requests, key, n + 1, requests[n].now, Available(l, IdealAfter(l, requests, n + 1), key, requests[n].now))
  {
    TokensAfter(l, requests, key, n);
    AdmissionStep(l, requests, key, n);
    ExactTaken(l, requests, key, n, requests[n].now, Available(l, IdealAfter(l, requests, n), key, requests[n].now),
               Counted(AnswerTo(l, requests, n), requests[n].key == key), n + 1);
  }

  lemma Passes(l: Limits, requests: seq<Request>, key: string, n: nat, now: real)
    requires RefillsWhenIdle(l) && ClockRuns(requests) && 0 < n <= |requests| && requests[n - 1].now <= now
    requires Exact(l, requests, key, n, requests[n - 1].now, Available(l, IdealAfter(l, requests, n), key, requests[n - 1].now))
    ensures Exact(l, requests, key, n, now, Available(l, IdealAfter(l, requests, n), key, now))
  {
    var before, ideal := requests[n - 1].now, IdealAfter(l, requests, n);
    RunRefines(l, requests, n, before);
    FlowsIn(l, ideal, key, before, now);
    forall j | 0 <= j <= n
      ensures Admissions(l, requests, key, j) <= Admissions(l, requests, key, n)
    {
      AdmissionsGrow(l, requests, key, j, n);
    }
    ExactLater(l, requests, key, n, before, now, Available(l, ideal, key, before));
  }

  /** Unless the table is full, a request is admitted exactly when one more admission keeps every window of the run, from any
      earlier request on, within the burst plus what flowed in since then. */
  lemma AdmittedExactly(l: Limits, requests: seq<Request>, i: nat)
    requires RefillsWhenIdle(l) && ClockRuns(requests) && i < |requests| && AnswerTo(l, requests, i) != TableFull
    ensures var key, now := requests[i].key, requests[i].now;
            AnswerTo(l, requests, i) == Admitted <==>
              forall j :: 0 <= j < i ==>
                Admissions(l, requests, key, i) - Admissions(l, requests, key, j) + 1.0 <= l.burst + (now - requests[j].now)
  {
    var key, now := requests[i].key, requests[i].now;
    var tokens := Available(l, IdealAfter(l, requests, i), key, now);
    TokensExact(l, requests, key, i, now);
    TokensAfter(l, requests, key, i);
    if tokens >= 1.0 {
      forall j | 0 <= j < i
        ensures Admissions(l, requests, key, i) - Admissions(l, requests, key, j) + 1.0 <= l.burst + (now - requests[j].now)
      {
        assert tokens <= Room(l, requests, key, j, i, now);
      }
    } else {
      var j :| 0 <= j < i && tokens == Room(l, requests, key, j, i, now);
    }
  }

  /** The table turns nobody away while it holds fewer keys than it may, nor a key that was used within the idle time. */
  lemma RoomInTable(l: Limits, t: Table, key: string, now: real)
    requires TableOk(l, t, now)
    requires |t.buckets| < l.maxKeys || (key in t.buckets && now - t.buckets[key].lastSeen < l.idle)
    ensures Step(l, t, key, now).1 != TableFull
  {
    var kept := Cleaned(l, t, now, l.budget);
    CleanedOk(l, t, now, l.budget);
    FewerKeys(kept.buckets, t.buckets);
  }

  lemma FewerKeys(a: map<string, Bucket>, b: map<string, Bucket>)
    requires forall key :: key in a ==> key in b
    ensures |a| <= |b|
  {
    assert a.Keys <= b.Keys;
    SubsetSize(a.Keys, b.Keys);
  }

  lemma SubsetSize(a: set<string>, b: set<string>)
    requires a <= b
    ensures |a| <= |b|
  {
    assert b == a + (b - a);
  }
}
