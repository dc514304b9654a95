/** The wallet one request at a time: what an apply and a reversal answer when nobody else holds their locks. */
module SerialWallet {
  import opened Money
  import opened WalletLedger
  import opened WalletInvariants
  import opened WalletSafety

  /** What one request leaves: its answer, if it gets one, and the tables. */
  datatype Served = Served(answer: Option<Answer>, accounts: map<int, int>, operations: map<int, Operation>,
                           rejections: map<int, Rejection>)

  function Unchanged(s: Ledger, answer: Option<Answer>): Served {
    Served(answer, s.accounts, s.operations, s.rejections)
  }

  function Refusing(s: Ledger, r: Request, code: Code): Served {
    Served(Some(Rejected(code)), s.accounts, s.operations, s.rejections[r.op := Rejection(r.digest, code)])
  }

  /** An apply, decided at once: a known operation or rejection is replayed or conflicts, the session comes before the account,
      the account before the balance, and only an amount the ledger cannot hold goes unanswered. */
  function Serve(s: Ledger, r: Request, matches: bool): Served {
    if r.op in s.operations then
      var row := s.operations[r.op];
      Unchanged(s, Some(if row.digest == r.digest && !row.rolledBack then Succeeded(row.balance) else Conflict))
    else if r.op in s.rejections then
      Unchanged(s, Some(if s.rejections[r.op].digest == r.digest then Rejected(s.rejections[r.op].code) else Conflict))
    else if r.bound && !matches then Refusing(s, r, SessionInvalid)
    else if r.account !in s.accounts then Refusing(s, r, AccountNotFound)
    else
      var balance := s.accounts[r.account];
      if r.debit < 0 || r.credit < 0 then Unchanged(s, None)
      else if balance < r.debit then Refusing(s, r, InsufficientFunds)
      else if balance - r.debit + r.credit > MAX_INT64 then Unchanged(s, None)
      else
        var paid := balance - r.debit + r.credit;
        Served(Some(Succeeded(paid)), s.accounts[r.account := paid],
               s.operations[r.op := Operation(r.digest, r.account, r.debit, r.credit, paid, false)], s.rejections)
  }

  /** The apply has ended as it is served, and has given back what it locked. */
  predicate Ended(hash: int -> int, s: Ledger, b: Ledger, t: int, r: Request, served: Served) {
    && t in b.txs && b.txs[t] == Apply(r, if served.answer.Some? then Answered(served.answer.value) else Failed)
    && b.accounts == served.accounts && b.operations == served.operations && b.rejections == served.rejections
    && b.decisions == s.decisions - {hash(r.op)} && b.holders == s.holders - {r.account}
  }

  lemma RunCons(hash: int -> int, s: Ledger, step: Step, rest: seq<Step>)
    requires Enabled(hash, s, step) && Runs(hash, After(hash, s, step), rest)
    ensures Runs(hash, s, [step] + rest) && AfterAll(hash, s, [step] + rest) == AfterAll(hash, After(hash, s, step), rest)
  {
    assert ([step] + rest)[1..] == rest;
  }

  lemma RunOne(hash: int -> int, s: Ledger, step: Step)
    requires Enabled(hash, s, step)
    ensures Runs(hash, s, [step]) && AfterAll(hash, s, [step]) == After(hash, s, step)
  {
    assert [step][1..] == [];
  }

  // --- The stages of an apply, from the last one ---

  /** What is undecided, and balances the ledger can hold. */
  predicate Open(s: Ledger, r: Request) {
    && r.op !in s.operations && r.op !in s.rejections
    && forall a :: a in s.accounts ==> 0 <= s.accounts[a]
  }

  lemma EndsRejected(hash: int -> int, s: Ledger, t: int, r: Request, code: Code, holding: bool)
    requires Open(s, r) && t in s.txs && s.txs[t] == Apply(r, Rejecting(code, holding)) && (!holding ==> r.account !in s.holders)
    ensures Runs(hash, s, [Commit(t)]) && Ended(hash, s, AfterAll(hash, s, [Commit(t)]), t, r, Refusing(s, r, code))
  {
    RunOne(hash, s, Commit(t));
    assert After(hash, s, Commit(t)) == CommittedRejection(hash, s, t, r, code);
  }

  lemma EndsSucceeded(hash: int -> int, s: Ledger, t: int, r: Request, paid: int)
    requires Open(s, r) && r.account in s.accounts && t in s.txs && s.txs[t] == Apply(r, Inserted(paid))
    ensures Runs(hash, s, [UpdateBalance(t), Commit(t)])
    ensures Ended(hash, s, AfterAll(hash, s, [UpdateBalance(t), Commit(t)]), t, r,
                  Served(Some(Succeeded(paid)), s.accounts[r.account := paid],
                         s.operations[r.op := Operation(r.digest, r.account, r.debit, r.credit, paid, false)], s.rejections))
  {
    var b := With(s, t, Apply(r, Updated(paid)));
    assert After(hash, s, UpdateBalance(t)) == b;
    RunOne(hash, b, Commit(t));
    RunCons(hash, s, UpdateBalance(t), [Commit(t)]);
    assert [UpdateBalance(t)] + [Commit(t)] == [UpdateBalance(t), Commit(t)];
    assert After(hash, b, Commit(t)) == Committed(hash, b, t, r, paid);
  }

  /** A step that touches no table, and what ends as served after it. */
  lemma Then(hash: int -> int, s: Ledger, step: Step, b: Ledger, rest: seq<Step>, t: int, r: Request, served: Served)
    requires Enabled(hash, s, step) && After(hash, s, step) == b && Runs(hash, b, rest)
    requires Ended(hash, b, AfterAll(hash, b, rest), t, r, served)
    requires b.decisions - {hash(r.op)} == s.decisions - {hash(r.op)} && b.holders - {r.account} == s.holders - {r.account}
    ensures Runs(hash, s, [step] + rest) && Ended(hash, s, AfterAll(hash, s, [step] + rest), t, r, served)
  {
    RunCons(hash, s, step, rest);
  }

  /** What the balance decides. */
  lemma BalanceServes(s: Ledger, r: Request, matches: bool)
    requires Open(s, r) && r.account in s.accounts && !(r.bound && !matches)
    ensures Serve(s, r, matches) ==
            match CheckedBalance(s.accounts[r.account], r.debit, r.credit)
            case OutOfRange => Unchanged(s, None)
            case TooPoor => Refusing(s, r, InsufficientFunds)
            case Fits(paid) => Served(Some(Succeeded(paid)), s.accounts[r.account := paid],
                                      s.operations[r.op := Operation(r.digest, r.account, r.debit, r.credit, paid, false)], s.rejections)
  {
  }

  lemma EndsUnanswered(hash: int -> int, s: Ledger, t: int, r: Request, balance: int)
    requires t in s.txs && s.txs[t] == Apply(r, AccountHeld(balance)) && CheckedBalance(balance, r.debit, r.credit).OutOfRange?
    ensures Runs(hash, s, [Write(t)]) && Ended(hash, s, AfterAll(hash, s, [Write(t)]), t, r, Unchanged(s, None))
  {
    RunOne(hash, s, Write(t));
    assert After(hash, s, Write(t)) == End(hash, s, t, Apply(r, Failed));
  }

  lemma FromHeld(hash: int -> int, s: Ledger, t: int, r: Request, matches: bool) returns (steps: seq<Step>)
    requires Open(s, r) && r.account in s.accounts && t in s.txs && s.txs[t] == Apply(r, AccountHeld(s.accounts[r.account]))
    requires !(r.bound && !matches)
    ensures Runs(hash, s, steps) && Ended(hash, s, AfterAll(hash, s, steps), t, r, Serve(s, r, matches))
  {
    BalanceServes(s, r, matches);
    match CheckedBalance(s.accounts[r.account], r.debit, r.credit) {
      case OutOfRange =>
        EndsUnanswered(hash, s, t, r, s.accounts[r.account]);
        steps := [Write(t)];
      case TooPoor => steps := WritesPoor(hash, s, t, r);
      case Fits(paid) => steps := WritesPaid(hash, s, t, r, paid);
    }
  }

  lemma WritesPoor(hash: int -> int, s: Ledger, t: int, r: Request) returns (steps: seq<Step>)
    requires Open(s, r) && r.account in s.accounts && t in s.txs && s.txs[t] == Apply(r, AccountHeld(s.accounts[r.account]))
    requires CheckedBalance(s.accounts[r.account], r.debit, r.credit).TooPoor?
    ensures Runs(hash, s, steps) && Ended(hash, s, AfterAll(hash, s, steps), t, r, Refusing(s, r, InsufficientFunds))
  {
    var b := With(s, t, Apply(r, Rejecting(InsufficientFunds, true)));
    assert After(hash, s, Write(t)) == b;
    EndsRejected(hash, b, t, r, InsufficientFunds, true);
    Then(hash, s, Write(t), b, [Commit(t)], t, r, Refusing(s, r, InsufficientFunds));
    steps := [Write(t)] + [Commit(t)];
  }

  lemma WritesPaid(hash: int -> int, s: Ledger, t: int, r: Request, paid: int) returns (steps: seq<Step>)
    requires Open(s, r) && r.account in s.accounts && t in s.txs && s.txs[t] == Apply(r, AccountHeld(s.accounts[r.account]))
    requires CheckedBalance(s.accounts[r.account], r.debit, r.credit) == Fits(paid)
    ensures Runs(hash, s, steps)
    ensures Ended(hash, s, AfterAll(hash, s, steps), t, r,
                  Served(Some(Succeeded(paid)), s.accounts[r.account := paid],
                         s.operations[r.op := Operation(r.digest, r.account, r.debit, r.credit, paid, false)], s.rejections))
  {
    var b := With(s, t, Apply(r, Inserted(paid)));
    assert After(hash, s, Write(t)) == b;
    EndsSucceeded(hash, b, t, r, paid);
    Then(hash, s, Write(t), b, [UpdateBalance(t), Commit(t)], t, r,
         Served(Some(Succeeded(paid)), s.accounts[r.account := paid],
                s.operations[r.op := Operation(r.digest, r.account, r.debit, r.credit, paid, false)], s.rejections));
    steps := [Write(t)] + [UpdateBalance(t), Commit(t)];
  }

  lemma HoldsNothing(hash: int -> int, s: Ledger, t: int, r: Request, matches: bool) returns (steps: seq<Step>)
    requires Open(s, r) && t in s.txs && s.txs[t] == Apply(r, SessionBound) && r.account !in s.holders
    requires !(r.bound && !matches) && r.account !in s.accounts
    ensures Runs(hash, s, steps) && Ended(hash, s, AfterAll(hash, s, steps), t, r, Serve(s, r, matches))
  {
    var b := With(s, t, Apply(r, Rejecting(AccountNotFound, false)));
    assert After(hash, s, HoldAccount(t)) == b;
    EndsRejected(hash, b, t, r, AccountNotFound, false);
    Then(hash, s, HoldAccount(t), b, [Commit(t)], t, r, Serve(s, r, matches));
    steps := [HoldAccount(t)] + [Commit(t)];
  }

  lemma HoldsAccount(hash: int -> int, s: Ledger, t: int, r: Request) returns (b: Ledger)
    requires r.account in s.accounts && t in s.txs && s.txs[t] == Apply(r, SessionBound) && r.account !in s.holders
    ensures Enabled(hash, s, HoldAccount(t)) && b == After(hash, s, HoldAccount(t)) && SameRows(s, b)
    ensures t in b.txs && b.txs[t] == Apply(r, AccountHeld(s.accounts[r.account])) && b.decisions == s.decisions
    ensures b.holders == s.holders[r.account := t]
  {
    b := After(hash, s, HoldAccount(t));
  }

  lemma FromBound(hash: int -> int, s: Ledger, t: int, r: Request, matches: bool) returns (steps: seq<Step>)
    requires Open(s, r) && t in s.txs && s.txs[t] == Apply(r, SessionBound) && r.account !in s.holders
    requires !(r.bound && !matches)
    ensures Runs(hash, s, steps) && Ended(hash, s, AfterAll(hash, s, steps), t, r, Serve(s, r, matches))
  {
    if r.account in s.accounts {
      var b := HoldsAccount(hash, s, t, r);
      var rest := FromHeld(hash, b, t, r, matches);
      ServesAlike(s, b, r, matches);
      Relocked(s.holders, r.account, t);
      Then(hash, s, HoldAccount(t), b, rest, t, r, Serve(s, r, matches));
      steps := [HoldAccount(t)] + rest;
    } else {
      steps := HoldsNothing(hash, s, t, r, matches);
    }
  }

  lemma FromChecked(hash: int -> int, s: Ledger, t: int, r: Request, matches: bool) returns (steps: seq<Step>)
    requires Open(s, r) && t in s.txs && s.txs[t] == Apply(r, NoRejection) && r.account !in s.holders && r.bound
    ensures Runs(hash, s, steps) && Ended(hash, s, AfterAll(hash, s, steps), t, r, Serve(s, r, matches))
  {
    var b := With(s, t, Apply(r, if matches then SessionBound else Rejecting(SessionInvalid, false)));
    assert After(hash, s, CheckSession(t, matches)) == b;
    var rest;
    if matches {
      rest := FromBound(hash, b, t, r, matches);
    } else {
      EndsRejected(hash, b, t, r, SessionInvalid, false);
      rest := [Commit(t)];
    }
    Then(hash, s, CheckSession(t, matches), b, rest, t, r, Serve(s, r, matches));
    steps := [CheckSession(t, matches)] + rest;
  }

  // --- The reads before them ---

  predicate Readable(s: Ledger) {
    forall a :: a in s.accounts ==> 0 <= s.accounts[a]
  }

  lemma ReplaysRejection(hash: int -> int, s: Ledger, t: int, r: Request, matches: bool)
    requires r.op !in s.operations && r.op in s.rejections && t in s.txs && s.txs[t] == Apply(r, NoOperation) && r.account !in s.holders
    ensures Runs(hash, s, [ReadRejection(t)])
    ensures Ended(hash, s, AfterAll(hash, s, [ReadRejection(t)]), t, r, Serve(s, r, matches))
  {
    RunOne(hash, s, ReadRejection(t));
    assert After(hash, s, ReadRejection(t)) == AfterApplyRejection(hash, s, t, r);
  }

  lemma ReplaysOperation(hash: int -> int, s: Ledger, t: int, r: Request, matches: bool)
    requires r.op in s.operations && t in s.txs && s.txs[t] == Apply(r, Locked) && r.account !in s.holders
    ensures Runs(hash, s, [ReadOperation(t)])
    ensures Ended(hash, s, AfterAll(hash, s, [ReadOperation(t)]), t, r, Serve(s, r, matches))
  {
    RunOne(hash, s, ReadOperation(t));
    assert After(hash, s, ReadOperation(t)) == AfterApplyRead(hash, s, t, r);
  }

  lemma FromUndecided(hash: int -> int, s: Ledger, t: int, r: Request, matches: bool) returns (steps: seq<Step>)
    requires Open(s, r) && t in s.txs && s.txs[t] == Apply(r, NoOperation) && r.account !in s.holders
    ensures Runs(hash, s, steps) && Ended(hash, s, AfterAll(hash, s, steps), t, r, Serve(s, r, matches))
  {
    var b := With(s, t, Apply(r, if r.bound then NoRejection else SessionBound));
    assert After(hash, s, ReadRejection(t)) == b;
    var rest;
    if r.bound {
      rest := FromChecked(hash, b, t, r, matches);
    } else {
      rest := FromBound(hash, b, t, r, matches);
    }
    Then(hash, s, ReadRejection(t), b, rest, t, r, Serve(s, r, matches));
    steps := [ReadRejection(t)] + rest;
  }

  lemma FromUnread(hash: int -> int, s: Ledger, t: int, r: Request, matches: bool) returns (steps: seq<Step>)
    requires Readable(s) && r.op !in s.operations && t in s.txs && s.txs[t] == Apply(r, Locked) && r.account !in s.holders
    ensures Runs(hash, s, steps) && Ended(hash, s, AfterAll(hash, s, steps), t, r, Serve(s, r, matches))
  {
    var b := With(s, t, Apply(r, NoOperation));
    assert After(hash, s, ReadOperation(t)) == b;
    var rest;
    if r.op in s.rejections {
      ReplaysRejection(hash, b, t, r, matches);
      rest := [ReadRejection(t)];
    } else {
      rest := FromUndecided(hash, b, t, r, matches);
    }
    Then(hash, s, ReadOperation(t), b, rest, t, r, Serve(s, r, matches));
    steps := [ReadOperation(t)] + rest;
  }

  lemma FromLocked(hash: int -> int, s: Ledger, t: int, r: Request, matches: bool) returns (steps: seq<Step>)
    requires Readable(s) && t in s.txs && s.txs[t] == Apply(r, Locked) && r.account !in s.holders
    ensures Runs(hash, s, steps) && Ended(hash, s, AfterAll(hash, s, steps), t, r, Serve(s, r, matches))
  {
    if r.op in s.operations {
      ReplaysOperation(hash, s, t, r, matches);
      steps := [ReadOperation(t)];
    } else {
      steps := FromUnread(hash, s, t, r, matches);
    }
  }

  lemma ServesAlike(s: Ledger, b: Ledger, r: Request, matches: bool)
    requires SameRows(s, b)
    ensures Serve(b, r, matches) == Serve(s, r, matches)
  {
  }

  lemma Relocked(held: map<int, int>, key: int, t: int)
    ensures held[key := t] - {key} == held - {key}
  {
  }

  lemma TakesLock(hash: int -> int, s: Ledger, t: int, r: Request) returns (b: Ledger)
    requires t in s.txs && s.txs[t] == Apply(r, Begun) && hash(r.op) !in s.decisions
    ensures Enabled(hash, s, LockDecision(t)) && b == After(hash, s, LockDecision(t)) && SameRows(s, b)
    ensures t in b.txs && b.txs[t] == Apply(r, Locked) && b.holders == s.holders && b.decisions == s.decisions[hash(r.op) := t]
  {
    b := After(hash, s, LockDecision(t));
  }

  lemma FromBegun(hash: int -> int, s: Ledger, t: int, r: Request, matches: bool) returns (steps: seq<Step>)
    requires Readable(s) && t in s.txs && s.txs[t] == Apply(r, Begun) && hash(r.op) !in s.decisions && r.account !in s.holders
    ensures Runs(hash, s, steps) && Ended(hash, s, AfterAll(hash, s, steps), t, r, Serve(s, r, matches))
  {
    var b := TakesLock(hash, s, t, r);
    var rest := FromLocked(hash, b, t, r, matches);
    ServesAlike(s, b, r, matches);
    Relocked(s.decisions, hash(r.op), t);
    Then(hash, s, LockDecision(t), b, rest, t, r, Serve(s, r, matches));
    steps := [LockDecision(t)] + rest;
  }

  lemma FromNothing(hash: int -> int, s: Ledger, t: int, r: Request, matches: bool) returns (steps: seq<Step>)
    requires Readable(s) && t !in s.txs && hash(r.op) !in s.decisions && r.account !in s.holders
    ensures Runs(hash, s, steps) && Ended(hash, s, AfterAll(hash, s, steps), t, r, Serve(s, r, matches))
  {
    var b := With(s, t, Apply(r, Begun));
    assert After(hash, s, Begin(t, Apply(r, Begun))) == b;
    var rest := FromBegun(hash, b, t, r, matches);
    Then(hash, s, Begin(t, Apply(r, Begun)), b, rest, t, r, Serve(s, r, matches));
    steps := [Begin(t, Apply(r, Begun))] + rest;
  }

  /** An apply that nobody disturbs ends as it is served, whatever it asks and whatever the tables hold. */
  lemma AppliesAsServed(hash: int -> int, before: seq<Step>, t: int, r: Request, matches: bool) returns (steps: seq<Step>)
    requires Runs(hash, EMPTY, before)
    requires var s := AfterAll(hash, EMPTY, before); t !in s.txs && hash(r.op) !in s.decisions && r.account !in s.holders
    ensures var s := AfterAll(hash, EMPTY, before);
            Runs(hash, s, steps) && Ended(hash, s, AfterAll(hash, s, steps), t, r, Serve(s, r, matches))
  {
    RunPreserves(hash, EMPTY, before);
    steps := FromNothing(hash, AfterAll(hash, EMPTY, before), t, r, matches);
  }
}
