/** Why the wallet decides as it does: along every run, what each success and each rejection of an apply rests on. */
module WalletGrounds {
  import opened Money
  import opened WalletLedger
  import opened WalletInvariants
  import opened WalletSafety

  /** One step of a run, with the ledger before and after it. */
  datatype Moment = Moment(before: Ledger, step: Step, after: Ledger)

  ghost function Trace(hash: int -> int, s: Ledger, steps: seq<Step>): (h: seq<Moment>)
    requires Runs(hash, s, steps)
    ensures |h| == |steps|
    decreases |steps|
  {
    if steps == [] then []
    else
      var next := After(hash, s, steps[0]);
      [Moment(s, steps[0], next)] + Trace(hash, next, steps[1..])
  }

  // --- What a run tells of one transaction ---

  /** The session of the apply was looked up and did not match. */
  ghost predicate Refused(h: seq<Moment>, t: int) {
    exists i :: 0 <= i < |h| && h[i].step == CheckSession(t, false)
  }

  ghost predicate Passed(h: seq<Moment>, t: int) {
    exists i :: 0 <= i < |h| && h[i].step == CheckSession(t, true)
  }

  /** It found no account to lock. */
  ghost predicate FoundAbsent(h: seq<Moment>, t: int, account: int) {
    exists i :: 0 <= i < |h| && h[i].step == HoldAccount(t) && account !in h[i].before.accounts
  }

  /** With the account locked, its balance did not cover the debit. */
  ghost predicate FoundPoor(h: seq<Moment>, t: int, account: int, debit: int) {
    exists i :: 0 <= i < |h| && h[i].step == Write(t) && PoorThen(h[i].before, t, account, debit)
  }

  predicate PoorThen(s: Ledger, t: int, account: int, debit: int) {
    account in s.holders && s.holders[account] == t && account in s.accounts && s.accounts[account] < debit
  }

  /** A step of the transaction changed a balance or an operation. */
  ghost predicate Wrote(h: seq<Moment>, t: int) {
    exists i :: 0 <= i < |h| && WroteThen(h[i], t)
  }

  predicate WroteThen(m: Moment, t: int) {
    && !m.step.Seed? && Actor(m.step) == t
    && !(m.after.accounts == m.before.accounts && m.after.operations == m.before.operations)
  }

  /** The session question was answered as the request needs: yes if it carries a session, never asked if not. */
  ghost predicate Cleared(h: seq<Moment>, t: int, r: Request) {
    !Refused(h, t) && (Passed(h, t) <==> r.bound)
  }

  /** What the phase of an apply rests on. */
  ghost predicate Rests(h: seq<Moment>, t: int, r: Request, p: ApplyPhase) {
    && (Refused(h, t) || !p.Answered? ==> !Wrote(h, t))
    && match p {
         case NoRejection => r.bound && !Refused(h, t) && !Passed(h, t)
         case SessionBound => Cleared(h, t, r)
         case AccountHeld(_) => Cleared(h, t, r)
         case Inserted(_) => Cleared(h, t, r)
         case Updated(_) => Cleared(h, t, r)
         case InsertLost => true
         case Rejecting(SessionInvalid, _) => r.bound && Refused(h, t) && !Passed(h, t)
         case Rejecting(InsufficientFunds, _) => Cleared(h, t, r) && FoundPoor(h, t, r.account, r.debit)
         case Rejecting(AccountNotFound, _) => Cleared(h, t, r) && FoundAbsent(h, t, r.account)
         case Answered(Rejected(SessionInvalid)) => true
         case Answered(_) => !Refused(h, t)
         case Failed => true
         case _ => !Refused(h, t) && !Passed(h, t)
       }
  }

  ghost predicate Grounds(h: seq<Moment>, s: Ledger, t: int) {
    if t in s.txs && s.txs[t].Apply? then Rests(h, t, s.txs[t].request, s.txs[t].apply)
    else !Refused(h, t) && !Passed(h, t) && (t !in s.txs ==> !Wrote(h, t))
  }

  // --- One more moment ---

  lemma TellsOf(h: seq<Moment>, m: Moment, t: int)
    ensures Refused(h + [m], t) <==> Refused(h, t) || m.step == CheckSession(t, false)
    ensures Passed(h + [m], t) <==> Passed(h, t) || m.step == CheckSession(t, true)
    ensures Wrote(h + [m], t) <==> Wrote(h, t) || WroteThen(m, t)
  {
    var later := h + [m];
    assert later[|h|] == m;
    assert forall i :: 0 <= i < |h| ==> later[i] == h[i];
  }

  lemma TellsAccount(h: seq<Moment>, m: Moment, t: int, account: int, debit: int)
    ensures FoundAbsent(h, t, account) || (m.step == HoldAccount(t) && account !in m.before.accounts) ==> FoundAbsent(h + [m], t, account)
    ensures FoundPoor(h, t, account, debit) || (m.step == Write(t) && PoorThen(m.before, t, account, debit)) ==>
              FoundPoor(h + [m], t, account, debit)
  {
    var later := h + [m];
    assert later[|h|] == m;
    assert forall i :: 0 <= i < |h| ==> later[i] == h[i];
  }

  /** A step of somebody else. */
  lemma OthersStep(hash: int -> int, h: seq<Moment>, s: Ledger, step: Step, t: int)
    requires Enabled(hash, s, step) && Grounds(h, s, t) && (step.Seed? || Actor(step) != t)
    ensures Grounds(h + [Moment(s, step, After(hash, s, step))], After(hash, s, step), t)
  {
    var m := Moment(s, step, After(hash, s, step));
    TellsOf(h, m, t);
    if !step.Seed? && !step.Begin? {
      StepMovesOne(hash, s, step);
    }
    if t in s.txs && s.txs[t].Apply? {
      TellsAccount(h, m, t, s.txs[t].request.account, s.txs[t].request.debit);
    }
  }

  /** A step of its own that writes no row. */
  predicate Moved(s: Ledger, b: Ledger, t: int, r: Request, p: ApplyPhase) {
    && t in b.txs && b.txs[t] == Apply(r, p) && b.accounts == s.accounts && b.operations == s.operations
  }

  lemma Locks(hash: int -> int, h: seq<Moment>, s: Ledger, t: int, r: Request)
    requires Enabled(hash, s, LockDecision(t)) && Grounds(h, s, t) && s.txs[t] == Apply(r, Begun)
    ensures Grounds(h + [Moment(s, LockDecision(t), After(hash, s, LockDecision(t)))], After(hash, s, LockDecision(t)), t)
  {
    TellsOf(h, Moment(s, LockDecision(t), After(hash, s, LockDecision(t))), t);
  }

  lemma Reads(hash: int -> int, h: seq<Moment>, s: Ledger, t: int, r: Request)
    requires Enabled(hash, s, ReadOperation(t)) && Grounds(h, s, t) && s.txs[t] == Apply(r, Locked)
    ensures Grounds(h + [Moment(s, ReadOperation(t), After(hash, s, ReadOperation(t)))], After(hash, s, ReadOperation(t)), t)
  {
    TellsOf(h, Moment(s, ReadOperation(t), After(hash, s, ReadOperation(t))), t);
    assert After(hash, s, ReadOperation(t)) == AfterApplyRead(hash, s, t, r);
  }

  lemma ReadsAgain(hash: int -> int, h: seq<Moment>, s: Ledger, t: int, r: Request)
    requires Enabled(hash, s, ReadRejection(t)) && Grounds(h, s, t) && s.txs[t] == Apply(r, NoOperation)
    ensures Grounds(h + [Moment(s, ReadRejection(t), After(hash, s, ReadRejection(t)))], After(hash, s, ReadRejection(t)), t)
  {
    TellsOf(h, Moment(s, ReadRejection(t), After(hash, s, ReadRejection(t))), t);
    assert After(hash, s, ReadRejection(t)) == AfterApplyRejection(hash, s, t, r);
  }

  lemma Checks(hash: int -> int, h: seq<Moment>, s: Ledger, t: int, r: Request, matches: bool)
    requires Enabled(hash, s, CheckSession(t, matches)) && Grounds(h, s, t) && s.txs[t] == Apply(r, NoRejection)
    ensures Grounds(h + [Moment(s, CheckSession(t, matches), After(hash, s, CheckSession(t, matches)))],
                    After(hash, s, CheckSession(t, matches)), t)
  {
    TellsOf(h, Moment(s, CheckSession(t, matches), After(hash, s, CheckSession(t, matches))), t);
  }

  lemma Holds(hash: int -> int, h: seq<Moment>, s: Ledger, t: int, r: Request)
    requires Enabled(hash, s, HoldAccount(t)) && Grounds(h, s, t) && s.txs[t] == Apply(r, SessionBound)
    ensures Grounds(h + [Moment(s, HoldAccount(t), After(hash, s, HoldAccount(t)))], After(hash, s, HoldAccount(t)), t)
  {
    var m := Moment(s, HoldAccount(t), After(hash, s, HoldAccount(t)));
    TellsOf(h, m, t);
    TellsAccount(h, m, t, r.account, r.debit);
  }

  lemma Writes(hash: int -> int, h: seq<Moment>, s: Ledger, t: int, r: Request, balance: int)
    requires Enabled(hash, s, Write(t)) && Grounds(h, s, t) && s.txs[t] == Apply(r, AccountHeld(balance)) && TxOk(hash, s, t)
    ensures Grounds(h + [Moment(s, Write(t), After(hash, s, Write(t)))], After(hash, s, Write(t)), t)
  {
    var m := Moment(s, Write(t), After(hash, s, Write(t)));
    TellsOf(h, m, t);
    TellsAccount(h, m, t, r.account, r.debit);
    assert CheckedBalance(balance, r.debit, r.credit).TooPoor? ==> PoorThen(s, t, r.account, r.debit);
  }

  lemma Updates(hash: int -> int, h: seq<Moment>, s: Ledger, t: int, r: Request)
    requires Enabled(hash, s, UpdateBalance(t)) && Grounds(h, s, t) && s.txs[t].request == r
    ensures Grounds(h + [Moment(s, UpdateBalance(t), After(hash, s, UpdateBalance(t)))], After(hash, s, UpdateBalance(t)), t)
  {
    TellsOf(h, Moment(s, UpdateBalance(t), After(hash, s, UpdateBalance(t))), t);
  }

  lemma Aborts(hash: int -> int, h: seq<Moment>, s: Ledger, t: int, r: Request)
    requires Enabled(hash, s, Abort(t)) && Grounds(h, s, t) && s.txs[t].Apply? && s.txs[t].request == r
    ensures Grounds(h + [Moment(s, Abort(t), After(hash, s, Abort(t)))], After(hash, s, Abort(t)), t)
  {
    TellsOf(h, Moment(s, Abort(t), After(hash, s, Abort(t))), t);
    EndMovesOnly(hash, s, t, Stopped(s.txs[t]));
  }

  lemma Succeeds(hash: int -> int, h: seq<Moment>, s: Ledger, t: int, r: Request, updated: int)
    requires Enabled(hash, s, Commit(t)) && Grounds(h, s, t) && s.txs[t] == Apply(r, Updated(updated))
    ensures Grounds(h + [Moment(s, Commit(t), After(hash, s, Commit(t)))], After(hash, s, Commit(t)), t)
  {
    TellsOf(h, Moment(s, Commit(t), After(hash, s, Commit(t))), t);
    assert After(hash, s, Commit(t)).txs[t] == Apply(r, Answered(Succeeded(updated)));
  }

  lemma Rejects(hash: int -> int, h: seq<Moment>, s: Ledger, t: int, r: Request, code: Code, holding: bool)
    requires Enabled(hash, s, Commit(t)) && Grounds(h, s, t) && s.txs[t] == Apply(r, Rejecting(code, holding))
    ensures Grounds(h + [Moment(s, Commit(t), After(hash, s, Commit(t)))], After(hash, s, Commit(t)), t)
  {
    TellsOf(h, Moment(s, Commit(t), After(hash, s, Commit(t))), t);
    assert After(hash, s, Commit(t)) == CommittedRejection(hash, s, t, r, code);
    assert After(hash, s, Commit(t)).txs[t] == Apply(r, Answered(Rejected(code)));
  }

  lemma Commits(hash: int -> int, h: seq<Moment>, s: Ledger, t: int, r: Request)
    requires Enabled(hash, s, Commit(t)) && Grounds(h, s, t) && s.txs[t].Apply? && s.txs[t].request == r
    ensures Grounds(h + [Moment(s, Commit(t), After(hash, s, Commit(t)))], After(hash, s, Commit(t)), t)
  {
    match s.txs[t].apply
    case Updated(updated) => Succeeds(hash, h, s, t, r, updated);
    case Rejecting(code, holding) => Rejects(hash, h, s, t, r, code, holding);
  }

  lemma Begins(hash: int -> int, h: seq<Moment>, s: Ledger, t: int, tx: Tx)
    requires Enabled(hash, s, Begin(t, tx)) && Grounds(h, s, t)
    ensures Grounds(h + [Moment(s, Begin(t, tx), After(hash, s, Begin(t, tx)))], After(hash, s, Begin(t, tx)), t)
  {
    TellsOf(h, Moment(s, Begin(t, tx), After(hash, s, Begin(t, tx))), t);
  }

  /** A reversal or a lookup is never asked for a session. */
  lemma NotAnApply(hash: int -> int, h: seq<Moment>, s: Ledger, step: Step, t: int)
    requires Enabled(hash, s, step) && Grounds(h, s, t) && !step.Seed? && Actor(step) == t && t in s.txs && !s.txs[t].Apply?
    ensures Grounds(h + [Moment(s, step, After(hash, s, step))], After(hash, s, step), t)
  {
    TellsOf(h, Moment(s, step, After(hash, s, step)), t);
    StepMovesOne(hash, s, step);
  }

  lemma OwnStep(hash: int -> int, h: seq<Moment>, s: Ledger, step: Step, t: int)
    requires Invariant(hash, s) && Enabled(hash, s, step) && Grounds(h, s, t) && !step.Seed? && Actor(step) == t
    ensures Grounds(h + [Moment(s, step, After(hash, s, step))], After(hash, s, step), t)
  {
    assert TxOk(hash, s, t);
    if step.Begin? {
      Begins(hash, h, s, t, step.tx);
    } else if !s.txs[t].Apply? {
      NotAnApply(hash, h, s, step, t);
    } else {
      var r := s.txs[t].request;
      match step
      case CheckSession(_, matches) => Checks(hash, h, s, t, r, matches);
      case HoldAccount(_) => Holds(hash, h, s, t, r);
      case Write(_) => Writes(hash, h, s, t, r, s.txs[t].apply.balance);
      case UpdateBalance(_) => Updates(hash, h, s, t, r);
      case Commit(_) => Commits(hash, h, s, t, r);
      case Abort(_) => Aborts(hash, h, s, t, r);
      case LockDecision(_) => Locks(hash, h, s, t, r);
      case ReadOperation(_) => Reads(hash, h, s, t, r);
      case ReadRejection(_) => ReadsAgain(hash, h, s, t, r);
    }
  }

  lemma StepGrounds(hash: int -> int, h: seq<Moment>, s: Ledger, step: Step, t: int)
    requires Invariant(hash, s) && Enabled(hash, s, step) && Grounds(h, s, t)
    ensures Grounds(h + [Moment(s, step, After(hash, s, step))], After(hash, s, step), t)
  {
    if !step.Seed? && Actor(step) == t {
      OwnStep(hash, h, s, step, t);
    } else {
      OthersStep(hash, h, s, step, t);
    }
  }

  // --- Along a run ---

  lemma {:induction false} RunGrounds(hash: int -> int, h: seq<Moment>, s: Ledger, steps: seq<Step>, t: int)
    requires Invariant(hash, s) && Runs(hash, s, steps) && Grounds(h, s, t)
    ensures Grounds(h + Trace(hash, s, steps), AfterAll(hash, s, steps), t)
    decreases |steps|
  {
    if steps == [] {
      assert h + Trace(hash, s, steps) == h;
    } else {
      var next := After(hash, s, steps[0]);
      var m := Moment(s, steps[0], next);
      StepPreserves(hash, s, steps[0]);
      StepGrounds(hash, h, s, steps[0], t);
      RunGrounds(hash, h + [m], next, steps[1..], t);
      assert (h + [m]) + Trace(hash, next, steps[1..]) == h + Trace(hash, s, steps);
    }
  }

  /** The ground on which the i-th step is taken. */
  lemma {:induction false} GroundsAt(hash: int -> int, h: seq<Moment>, s: Ledger, steps: seq<Step>, i: nat, t: int)
    requires Invariant(hash, s) && Runs(hash, s, steps) && Grounds(h, s, t) && i < |steps|
    ensures var m := Trace(hash, s, steps)[i];
            && Invariant(hash, m.before) && Grounds(h + Trace(hash, s, steps)[..i], m.before, t)
            && m.step == steps[i] && Enabled(hash, m.before, m.step) && m.after == After(hash, m.before, m.step)
    decreases |steps|
  {
    if i == 0 {
      assert h + Trace(hash, s, steps)[..i] == h;
    } else {
      var next := After(hash, s, steps[0]);
      var m := Moment(s, steps[0], next);
      StepPreserves(hash, s, steps[0]);
      StepGrounds(hash, h, s, steps[0], t);
      GroundsAt(hash, h + [m], next, steps[1..], i - 1, t);
      assert (h + [m]) + Trace(hash, next, steps[1..])[..i - 1] == h + Trace(hash, s, steps)[..i];
    }
  }

  lemma NothingYet(hash: int -> int, t: int)
    ensures Grounds([], EMPTY, t) && Invariant(hash, EMPTY)
  {
  }

  /** An apply whose session was refused never succeeds and never changes a balance or an operation; if it is answered, it is
      rejected for its session. */
  lemma SessionRefused(hash: int -> int, steps: seq<Step>, t: int)
    requires Runs(hash, EMPTY, steps) && Refused(Trace(hash, EMPTY, steps), t)
    ensures var s := AfterAll(hash, EMPTY, steps);
            && t in s.txs && s.txs[t].Apply? && !Wrote(Trace(hash, EMPTY, steps), t)
            && (s.txs[t].apply.Answered? ==> s.txs[t].apply.answer == Rejected(SessionInvalid))
  {
    NothingYet(hash, t);
    RunGrounds(hash, [], EMPTY, steps, t);
    assert [] + Trace(hash, EMPTY, steps) == Trace(hash, EMPTY, steps);
  }

  /** What a committed success rests on, and all that it changes. */
  predicate SuccessMade(m: Moment, t: int, r: Request) {
    && r.op !in m.before.operations && r.op !in m.before.rejections
    && r.account in m.before.accounts && 0 <= r.debit <= m.before.accounts[r.account] && 0 <= r.credit
    && var balance := m.before.accounts[r.account] - r.debit + r.credit;
       && balance <= MAX_INT64
       && m.after.accounts == m.before.accounts[r.account := balance]
       && m.after.operations == m.before.operations[r.op := Operation(r.digest, r.account, r.debit, r.credit, balance, false)]
       && m.after.order == m.before.order + [r.op]
       && m.after.rejections == m.before.rejections && m.after.rollbacks == m.before.rollbacks
       && t in m.after.txs && m.after.txs[t] == Apply(r, Answered(Succeeded(balance)))
  }

  /** What a committed rejection rests on, and all that it changes. */
  ghost predicate RejectionMade(h: seq<Moment>, m: Moment, t: int, r: Request, code: Code) {
    && r.op !in m.before.operations && r.op !in m.before.rejections
    && m.after.rejections == m.before.rejections[r.op := Rejection(r.digest, code)]
    && m.after.accounts == m.before.accounts && m.after.operations == m.before.operations
    && m.after.order == m.before.order && m.after.rollbacks == m.before.rollbacks
    && t in m.after.txs && m.after.txs[t] == Apply(r, Answered(Rejected(code)))
    && match code
       case SessionInvalid => r.bound && Refused(h, t) && !Passed(h, t)
       case InsufficientFunds => Cleared(h, t, r) && FoundPoor(h, t, r.account, r.debit)
       case AccountNotFound => Cleared(h, t, r) && FoundAbsent(h, t, r.account)
  }

  lemma UpdatedRests(hash: int -> int, s: Ledger, t: int, r: Request, updated: int)
    requires Invariant(hash, s) && t in s.txs && s.txs[t] == Apply(r, Updated(updated))
    ensures Undecided(s, r.op) && r.account in s.accounts && CheckedBalance(s.accounts[r.account], r.debit, r.credit) == Fits(updated)
  {
    assert TxOk(hash, s, t);
  }

  lemma SuccessCommitted(hash: int -> int, s: Ledger, t: int, r: Request, updated: int)
    requires Enabled(hash, s, Commit(t)) && s.txs[t] == Apply(r, Updated(updated))
    requires Undecided(s, r.op) && r.account in s.accounts && CheckedBalance(s.accounts[r.account], r.debit, r.credit) == Fits(updated)
    ensures SuccessMade(Moment(s, Commit(t), After(hash, s, Commit(t))), t, r)
  {
    assert After(hash, s, Commit(t)) == Committed(hash, s, t, r, updated);
  }

  lemma RejectionCommitted(hash: int -> int, h: seq<Moment>, s: Ledger, t: int, r: Request, code: Code, holding: bool)
    requires Invariant(hash, s) && Enabled(hash, s, Commit(t)) && s.txs[t] == Apply(r, Rejecting(code, holding)) && Grounds(h, s, t)
    ensures RejectionMade(h, Moment(s, Commit(t), After(hash, s, Commit(t))), t, r, code)
  {
    assert TxOk(hash, s, t);
    assert After(hash, s, Commit(t)) == CommittedRejection(hash, s, t, r, code);
  }

  /** Every commit of an apply is a success that its session and the locked balance allow, or a rejection with its ground:
      a refused session, a locked balance below the debit, or an absent account. */
  lemma CommitGrounds(hash: int -> int, steps: seq<Step>, i: nat, t: int)
    requires Runs(hash, EMPTY, steps) && i < |steps| && steps[i] == Commit(t)
    requires var s := Trace(hash, EMPTY, steps)[i].before; t in s.txs && s.txs[t].Apply?
    ensures var h, m := Trace(hash, EMPTY, steps)[..i], Trace(hash, EMPTY, steps)[i];
            var r := m.before.txs[t].request;
            || (Cleared(h, t, r) && SuccessMade(m, t, r))
            || exists code :: RejectionMade(h, m, t, r, code)
  {
    NothingYet(hash, t);
    GroundsAt(hash, [], EMPTY, steps, i, t);
    var m := Trace(hash, EMPTY, steps)[i];
    var h := Trace(hash, EMPTY, steps)[..i];
    assert [] + h == h;
    match m.before.txs[t].apply {
      case Updated(updated) =>
        UpdatedRests(hash, m.before, t, m.before.txs[t].request, updated);
        SuccessCommitted(hash, m.before, t, m.before.txs[t].request, updated);
      case Rejecting(code, holding) => RejectionCommitted(hash, h, m.before, t, m.before.txs[t].request, code, holding);
    }
  }
}
