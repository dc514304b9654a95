/** Safety of the wallet over every interleaving: conservation, one reversal at most, final decisions. */
module WalletSafety {
  import opened Money
  import opened WalletLedger
  import opened WalletInvariants

  // --- Steps that change no table ---

  /** A step of one transaction that touches only itself and its locks. */
  ghost predicate Moves(a: Ledger, b: Ledger, t: int) {
    && b == a.(txs := b.txs, decisions := b.decisions, holders := b.holders)
    && (forall h :: h in a.decisions && a.decisions[h] != t ==> h in b.decisions && b.decisions[h] == a.decisions[h])
    && (forall x :: x in a.holders && a.holders[x] != t ==> x in b.holders && b.holders[x] == a.holders[x])
    && (forall u :: u != t && u in b.txs ==> u in a.txs && b.txs[u] == a.txs[u])
  }

  lemma MovePreserves(hash: int -> int, a: Ledger, b: Ledger, t: int)
    requires Invariant(hash, a) && Moves(a, b, t) && TxOk(hash, b, t)
    ensures Invariant(hash, b)
  {
    Preserved(hash, a, b, t, 0, 0);
  }

  lemma EndMoves(hash: int -> int, s: Ledger, t: int, tx: Tx)
    requires t in s.txs && TxOk(hash, s, t) && !tx.Decides() && tx.Holds() == None
    ensures Moves(s, End(hash, s, t, tx), t)
    ensures t in End(hash, s, t, tx).txs && End(hash, s, t, tx).txs[t] == tx
    ensures LocksHeld(hash, End(hash, s, t, tx), t, tx)
  {
  }

  lemma EndPreserves(hash: int -> int, s: Ledger, t: int, tx: Tx)
    requires Invariant(hash, s) && t in s.txs && !tx.Decides() && tx.Holds() == None && PhaseOk(s, tx)
    ensures Invariant(hash, End(hash, s, t, tx))
  {
    assert TxOk(hash, s, t);
    EndMoves(hash, s, t, tx);
    SameTables(s, End(hash, s, t, tx), tx);
    MovePreserves(hash, s, End(hash, s, t, tx), t);
  }

  lemma SameTables(a: Ledger, b: Ledger, tx: Tx)
    requires b == a.(txs := b.txs, decisions := b.decisions, holders := b.holders) && PhaseOk(a, tx)
    ensures PhaseOk(b, tx)
  {
  }

  lemma WithPreserves(hash: int -> int, s: Ledger, t: int, tx: Tx)
    requires Invariant(hash, s) && LocksHeld(hash, s, t, tx) && PhaseOk(s, tx)
    ensures Invariant(hash, With(s, t, tx))
  {
    SameTables(s, With(s, t, tx), tx);
    MovePreserves(hash, s, With(s, t, tx), t);
  }

  lemma HoldPreserves(hash: int -> int, s: Ledger, t: int, tx: Tx, account: int)
    requires Invariant(hash, s) && account !in s.holders && tx.Holds() == Some(account)
    requires tx.Decides() ==> hash(tx.Op()) in s.decisions && s.decisions[hash(tx.Op())] == t
    requires PhaseOk(s, tx)
    ensures Invariant(hash, With(s, t, tx).(holders := s.holders[account := t]))
  {
    var b := With(s, t, tx).(holders := s.holders[account := t]);
    SameTables(s, b, tx);
    MovePreserves(hash, s, b, t);
  }

  lemma LockPreserves(hash: int -> int, s: Ledger, t: int, tx: Tx)
    requires Invariant(hash, s) && hash(tx.Op()) !in s.decisions && tx.Holds() == None && PhaseOk(s, tx)
    ensures Invariant(hash, With(s, t, tx).(decisions := s.decisions[hash(tx.Op()) := t]))
  {
    var b := With(s, t, tx).(decisions := s.decisions[hash(tx.Op()) := t]);
    SameTables(s, b, tx);
    MovePreserves(hash, s, b, t);
  }

  // --- Apply, step by step ---

  lemma ApplyReadPreserves(hash: int -> int, s: Ledger, t: int, r: Request)
    requires Invariant(hash, s) && t in s.txs && s.txs[t] == Apply(r, Locked)
    ensures Invariant(hash, AfterApplyRead(hash, s, t, r))
  {
    assert TxOk(hash, s, t);
    if r.op in s.operations {
      var row := s.operations[r.op];
      EndPreserves(hash, s, t, Apply(r, Answered(if row.digest != r.digest || row.rolledBack then Conflict else Succeeded(row.balance))));
    } else {
      WithPreserves(hash, s, t, Apply(r, NoOperation));
    }
  }

  lemma ApplyRejectionPreserves(hash: int -> int, s: Ledger, t: int, r: Request)
    requires Invariant(hash, s) && t in s.txs && s.txs[t] == Apply(r, NoOperation)
    ensures Invariant(hash, AfterApplyRejection(hash, s, t, r))
  {
    assert TxOk(hash, s, t);
    if r.op in s.rejections {
      var row := s.rejections[r.op];
      EndPreserves(hash, s, t, Apply(r, Answered(if row.digest != r.digest then Conflict else Rejected(row.code))));
    } else {
      WithPreserves(hash, s, t, Apply(r, if r.bound then NoRejection else SessionBound));
    }
  }

  lemma ApplyHoldPreserves(hash: int -> int, s: Ledger, t: int, r: Request)
    requires Invariant(hash, s) && t in s.txs && s.txs[t] == Apply(r, SessionBound) && r.account !in s.holders
    ensures Invariant(hash, AfterHold(s, t, r))
  {
    assert TxOk(hash, s, t);
    if r.account in s.accounts {
      HoldPreserves(hash, s, t, Apply(r, AccountHeld(s.accounts[r.account])), r.account);
    } else {
      WithPreserves(hash, s, t, Apply(r, Rejecting(AccountNotFound, false)));
    }
  }

  lemma ApplyWritePreserves(hash: int -> int, s: Ledger, t: int, r: Request, balance: int)
    requires Invariant(hash, s) && t in s.txs && s.txs[t] == Apply(r, AccountHeld(balance))
    ensures Invariant(hash, AfterWrite(hash, s, t, r, balance))
  {
    assert TxOk(hash, s, t);
    match CheckedBalance(balance, r.debit, r.credit) {
      case TooPoor => WithPreserves(hash, s, t, Apply(r, Rejecting(InsufficientFunds, true)));
      case OutOfRange => EndPreserves(hash, s, t, Apply(r, Failed));
      case Fits(updated) => WithPreserves(hash, s, t, Apply(r, Inserted(updated)));
    }
  }

  // --- Commits ---

  /** The ended transaction of a commit keeps its answer and no lock. */
  lemma EndLocks(hash: int -> int, s: Ledger, t: int, tx: Tx)
    requires t in s.txs && TxOk(hash, s, t) && !tx.Decides() && tx.Holds() == None
    ensures var b := End(hash, s, t, tx);
            && (forall h :: h in s.decisions && s.decisions[h] != t ==> h in b.decisions && b.decisions[h] == s.decisions[h])
            && (forall x :: x in s.holders && s.holders[x] != t ==> x in b.holders && b.holders[x] == s.holders[x])
            && t in b.txs && b.txs[t] == tx
  {
  }

  lemma CommitBalances(s: Ledger, b: Ledger, r: Request, row: Operation)
    requires BalancesOk(s) && OrderOk(s) && r.op !in s.operations && r.account in s.accounts
    requires row == Operation(r.digest, r.account, r.debit, r.credit, row.balance, false)
    requires CheckedBalance(s.accounts[r.account], r.debit, r.credit) == Fits(row.balance)
    requires b == s.(txs := b.txs, decisions := b.decisions, holders := b.holders,
                     operations := s.operations[r.op := row], order := s.order + [r.op],
                     accounts := s.accounts[r.account := row.balance])
    ensures BalancesOk(b) && OrderOk(b)
  {
    assert r.op !in s.order;
    forall a | a in b.accounts
      ensures 0 <= b.accounts[a] <= MAX_INT64
      ensures b.accounts[a] == b.seeds[a] + Net(b.order, b.operations, a, |b.order|)
    {
      NetAppended(s.order, s.operations, r.op, row, a);
    }
  }

  lemma CommitPreserves(hash: int -> int, s: Ledger, t: int, r: Request, updated: int)
    requires Invariant(hash, s) && t in s.txs && s.txs[t] == Apply(r, Updated(updated))
    ensures Invariant(hash, Committed(hash, s, t, r, updated))
  {
    assert TxOk(hash, s, t);
    var b, row := Committed(hash, s, t, r, updated), Operation(r.digest, r.account, r.debit, r.credit, updated, false);
    EndLocks(hash, s, t, Apply(r, Answered(Succeeded(updated))));
    CommitBalances(s, b, r, row);
    Preserved(hash, s, b, t, r.op, r.account);
  }

  lemma RejectionPreserves(hash: int -> int, s: Ledger, t: int, r: Request, code: Code, holding: bool)
    requires Invariant(hash, s) && t in s.txs && s.txs[t] == Apply(r, Rejecting(code, holding))
    ensures Invariant(hash, CommittedRejection(hash, s, t, r, code))
  {
    assert TxOk(hash, s, t);
    var b := CommittedRejection(hash, s, t, r, code);
    EndLocks(hash, s, t, Apply(r, Answered(Rejected(code))));
    Preserved(hash, s, b, t, r.op, r.account);
  }

  lemma ReversalBalances(s: Ledger, b: Ledger, op: int, row: Operation, updated: int)
    requires BalancesOk(s) && OrderOk(s) && Standing(s, op, row)
    requires CheckedBalance(s.accounts[row.account], row.credit, row.debit) == Fits(updated)
    requires b == s.(txs := b.txs, decisions := b.decisions, holders := b.holders, rollbacks := b.rollbacks,
                     operations := s.operations[op := row.(rolledBack := true)],
                     accounts := s.accounts[row.account := updated])
    ensures BalancesOk(b) && OrderOk(b)
  {
    var at :| 0 <= at < |s.order| && s.order[at] == op;
    forall a | a in b.accounts
      ensures 0 <= b.accounts[a] <= MAX_INT64
      ensures b.accounts[a] == b.seeds[a] + Net(b.order, b.operations, a, |b.order|)
    {
      NetReplaced(s.order, s.operations, op, row.(rolledBack := true), a, at, |s.order|);
    }
  }

  lemma ReversalDecisions(s: Ledger, b: Ledger, r: Reversal, row: Operation, updated: int)
    requires DecisionsOk(s) && Standing(s, r.op, row) && r.id !in s.rollbacks
    requires b.operations == s.operations[r.op := row.(rolledBack := true)] && b.rejections == s.rejections
    requires b.rollbacks == s.rollbacks[r.id := Rollback(r.op, r.digest, updated)]
    ensures DecisionsOk(b)
  {
    forall op | op in b.operations && b.operations[op].rolledBack
      ensures exists id :: id in b.rollbacks && b.rollbacks[id].op == op
    {
      if op == r.op {
        assert r.id in b.rollbacks;
      } else {
        var id :| id in s.rollbacks && s.rollbacks[id].op == op;
        assert id in b.rollbacks;
      }
    }
  }

  lemma ReversalPreserves(hash: int -> int, s: Ledger, t: int, r: Reversal, row: Operation, updated: int)
    requires Invariant(hash, s) && t in s.txs && s.txs[t] == Reverse(r, ReversalWritten(row, updated)) && r.id !in s.rollbacks
    ensures Invariant(hash, CommittedReversal(hash, s, t, r, row, updated))
  {
    assert TxOk(hash, s, t);
    var b := CommittedReversal(hash, s, t, r, row, updated);
    EndLocks(hash, s, t, Reverse(r, ReverseAnswered(false, updated)));
    ReversalBalances(s, b, r.op, row, updated);
    ReversalDecisions(s, b, r, row, updated);
    Preserved(hash, s, b, t, r.op, row.account);
  }

  // --- Reversals, step by step ---

  lemma ReverseReadsPreserve(hash: int -> int, s: Ledger, t: int, r: Reversal)
    requires Invariant(hash, s) && t in s.txs
    ensures s.txs[t] == Reverse(r, ReverseLocked) ==> Invariant(hash, AfterReadRollback(hash, s, t, r))
    ensures s.txs[t] == Reverse(r, NotReplayed) ==> Invariant(hash, AfterReverseRead(hash, s, t, r))
  {
    assert TxOk(hash, s, t);
    if s.txs[t] == Reverse(r, ReverseLocked) {
      if r.id in s.rollbacks {
        var row := s.rollbacks[r.id];
        EndPreserves(hash, s, t, Reverse(r, if row.digest == r.digest && row.op == r.op then ReverseAnswered(true, row.balance)
                                            else ReverseRefused));
      } else {
        WithPreserves(hash, s, t, Reverse(r, NotReplayed));
      }
    }
    if s.txs[t] == Reverse(r, NotReplayed) {
      if r.op !in s.operations || s.operations[r.op].rolledBack {
        EndPreserves(hash, s, t, Reverse(r, ReverseRefused));
      } else {
        WithPreserves(hash, s, t, Reverse(r, OperationHeld(s.operations[r.op])));
      }
    }
  }

  lemma ReverseHoldPreserves(hash: int -> int, s: Ledger, t: int, r: Reversal, row: Operation)
    requires Invariant(hash, s) && t in s.txs && s.txs[t] == Reverse(r, OperationHeld(row)) && row.account !in s.holders
    ensures Invariant(hash, AfterReverseHold(hash, s, t, r, row))
  {
    assert TxOk(hash, s, t);
    HoldPreserves(hash, s, t, Reverse(r, ReverseAccountHeld(row, s.accounts[row.account])), row.account);
  }

  lemma ReverseWritePreserves(hash: int -> int, s: Ledger, t: int, r: Reversal, row: Operation, balance: int)
    requires Invariant(hash, s) && t in s.txs && s.txs[t] == Reverse(r, ReverseAccountHeld(row, balance))
    ensures Invariant(hash, AfterReverseWrite(hash, s, t, r, row, balance))
  {
    assert TxOk(hash, s, t);
    match CheckedBalance(balance, row.credit, row.debit) {
      case Fits(updated) => WithPreserves(hash, s, t, Reverse(r, ReversalWritten(row, updated)));
      case _ => EndPreserves(hash, s, t, Reverse(r, ReverseRefused));
    }
  }

  // --- Lookups and seeds ---

  lemma LookPreserves(hash: int -> int, s: Ledger, t: int, op: int)
    requires Invariant(hash, s) && t in s.txs && s.txs[t].Look? && s.txs[t].subject == op
    ensures s.txs[t].look.LookBegun? ==> Invariant(hash, AfterLook(s, t, op))
    ensures s.txs[t].look.OperationAbsent? ==> Invariant(hash, AfterSecondLook(s, t, op, s.txs[t].look.rejectedThen))
  {
    assert TxOk(hash, s, t);
    if s.txs[t].look.LookBegun? {
      WithPreserves(hash, s, t, Look(op, if op in s.operations then FoundOperation(s.operations[op]) else OperationAbsent(op in s.rejections)));
    }
    if s.txs[t].look.OperationAbsent? {
      WithPreserves(hash, s, t, Look(op, if op in s.rejections then FoundRejection(s.rejections[op]) else FoundNothing(s.txs[t].look.rejectedThen)));
    }
  }

  lemma {:induction false} NetOfStranger(s: Ledger, a: int, n: nat)
    requires OrderOk(s) && a !in s.accounts && n <= |s.order|
    ensures Net(s.order, s.operations, a, n) == 0
  {
    if n > 0 {
      NetOfStranger(s, a, n - 1);
      assert s.order[n - 1] in s.operations && s.operations[s.order[n - 1]].account in s.accounts;
    }
  }

  lemma SeedPreserves(hash: int -> int, s: Ledger, a: int, balance: int)
    requires Invariant(hash, s) && a !in s.accounts && 0 <= balance <= MAX_INT64
    ensures Invariant(hash, s.(seeds := s.seeds[a := balance], accounts := s.accounts[a := balance]))
  {
    var b := s.(seeds := s.seeds[a := balance], accounts := s.accounts[a := balance]);
    NetOfStranger(s, a, |s.order|);
    forall t
      ensures TxOk(hash, b, t)
    {
      assert TxOk(hash, s, t);
      if t in s.txs {
        SeedKeepsPhase(s, b, s.txs[t], a, balance);
      }
    }
  }

  lemma SeedKeepsPhase(s: Ledger, b: Ledger, tx: Tx, a: int, balance: int)
    requires a !in s.accounts && b == s.(seeds := s.seeds[a := balance], accounts := s.accounts[a := balance]) && PhaseOk(s, tx)
    ensures PhaseOk(b, tx)
  {
  }

  // --- Every step ---

  lemma BeginPreserves(hash: int -> int, s: Ledger, t: int, tx: Tx)
    requires Invariant(hash, s) && t !in s.txs && Fresh(tx)
    ensures Invariant(hash, With(s, t, tx))
  {
    WithPreserves(hash, s, t, tx);
  }

  lemma LockStepPreserves(hash: int -> int, s: Ledger, t: int)
    requires Invariant(hash, s) && Enabled(hash, s, LockDecision(t))
    ensures Invariant(hash, After(hash, s, LockDecision(t)))
  {
    if s.txs[t].Apply? {
      LockPreserves(hash, s, t, Apply(s.txs[t].request, Locked));
    } else {
      LockPreserves(hash, s, t, Reverse(s.txs[t].reversal, ReverseLocked));
    }
  }

  lemma SessionPreserves(hash: int -> int, s: Ledger, t: int, r: Request, matches: bool)
    requires Invariant(hash, s) && t in s.txs && s.txs[t] == Apply(r, NoRejection)
    ensures Invariant(hash, With(s, t, Apply(r, if matches then SessionBound else Rejecting(SessionInvalid, false))))
  {
    assert TxOk(hash, s, t);
    WithPreserves(hash, s, t, Apply(r, if matches then SessionBound else Rejecting(SessionInvalid, false)));
  }

  lemma UpdatePreserves(hash: int -> int, s: Ledger, t: int, r: Request, updated: int)
    requires Invariant(hash, s) && t in s.txs && s.txs[t] == Apply(r, Inserted(updated))
    ensures Invariant(hash, With(s, t, Apply(r, Updated(updated))))
  {
    assert TxOk(hash, s, t);
    WithPreserves(hash, s, t, Apply(r, Updated(updated)));
  }

  lemma ReadsPreserve(hash: int -> int, s: Ledger, step: Step)
    requires Invariant(hash, s) && Enabled(hash, s, step)
    requires step.ReadOperation? || step.ReadRejection? || step.ReadRollback?
    ensures Invariant(hash, After(hash, s, step))
  {
    var t := step.t;
    match s.txs[t] {
      case Apply(r, p) =>
        if step.ReadOperation? {
          ApplyReadPreserves(hash, s, t, r);
        } else {
          ApplyRejectionPreserves(hash, s, t, r);
        }
      case Reverse(r, p) => ReverseReadsPreserve(hash, s, t, r);
      case Look(op, p) => LookPreserves(hash, s, t, op);
    }
  }

  lemma WritesPreserve(hash: int -> int, s: Ledger, step: Step)
    requires Invariant(hash, s) && Enabled(hash, s, step) && (step.HoldAccount? || step.Write?)
    ensures Invariant(hash, After(hash, s, step))
  {
    var t := step.t;
    if s.txs[t].Apply? {
      var r := s.txs[t].request;
      if step.HoldAccount? {
        ApplyHoldPreserves(hash, s, t, r);
      } else {
        ApplyWritePreserves(hash, s, t, r, s.txs[t].apply.balance);
      }
    } else {
      var r := s.txs[t].reversal;
      if step.HoldAccount? {
        ReverseHoldPreserves(hash, s, t, r, s.txs[t].reverse.row);
      } else {
        ReverseWritePreserves(hash, s, t, r, s.txs[t].reverse.held, s.txs[t].reverse.balance);
      }
    }
  }

  lemma CommitsPreserve(hash: int -> int, s: Ledger, t: int)
    requires Invariant(hash, s) && Enabled(hash, s, Commit(t))
    ensures Invariant(hash, After(hash, s, Commit(t)))
  {
    match s.txs[t] {
      case Apply(r, p) =>
        if p.Updated? {
          CommitPreserves(hash, s, t, r, p.updated);
        } else {
          RejectionPreserves(hash, s, t, r, p.code, p.holding);
        }
      case Reverse(r, p) => ReversalPreserves(hash, s, t, r, p.from, p.updated);
      case Look(_, _) =>
    }
  }

  lemma AbortPreserves(hash: int -> int, s: Ledger, t: int)
    requires Invariant(hash, s) && Enabled(hash, s, Abort(t))
    ensures Invariant(hash, After(hash, s, Abort(t)))
  {
    EndPreserves(hash, s, t, Stopped(s.txs[t]));
  }

  /** Every step of every transaction keeps the invariant, whatever the others are in the middle of. */
  lemma StepPreserves(hash: int -> int, s: Ledger, step: Step)
    requires Invariant(hash, s) && Enabled(hash, s, step)
    ensures Invariant(hash, After(hash, s, step))
  {
    match step {
      case Seed(a, balance) => SeedPreserves(hash, s, a, balance);
      case Begin(t, tx) => BeginPreserves(hash, s, t, tx);
      case LockDecision(t) => LockStepPreserves(hash, s, t);
      case CheckSession(t, matches) => SessionPreserves(hash, s, t, s.txs[t].request, matches);
      case UpdateBalance(t) => UpdatePreserves(hash, s, t, s.txs[t].request, s.txs[t].apply.updated);
      case HoldAccount(t) => WritesPreserve(hash, s, step);
      case Write(t) => WritesPreserve(hash, s, step);
      case Commit(t) => CommitsPreserve(hash, s, t);
      case Abort(t) => AbortPreserves(hash, s, t);
      case _ => ReadsPreserve(hash, s, step);
    }
  }

  // --- Runs ---

  const EMPTY: Ledger := Ledger(map[], map[], map[], [], map[], map[], map[], map[], map[])

  ghost predicate Runs(hash: int -> int, s: Ledger, steps: seq<Step>)
    decreases |steps|
  {
    steps == [] || (Enabled(hash, s, steps[0]) && Runs(hash, After(hash, s, steps[0]), steps[1..]))
  }

  ghost function AfterAll(hash: int -> int, s: Ledger, steps: seq<Step>): Ledger
    requires Runs(hash, s, steps)
    decreases |steps|
  {
    if steps == [] then s else AfterAll(hash, After(hash, s, steps[0]), steps[1..])
  }

  lemma {:induction false} RunPreserves(hash: int -> int, s: Ledger, steps: seq<Step>)
    requires Invariant(hash, s) && Runs(hash, s, steps)
    ensures Invariant(hash, AfterAll(hash, s, steps))
    decreases |steps|
  {
    if steps != [] {
      StepPreserves(hash, s, steps[0]);
      RunPreserves(hash, After(hash, s, steps[0]), steps[1..]);
    }
  }

  /** Conservation: in every reachable state each balance is its seed plus credits minus debits of the operations that are
      not rolled back, and fits the ledger; success and rejection exclude each other; and an operation is rolled back
      exactly when one rollback, and only one, names it. */
  lemma ReachableLedger(hash: int -> int, steps: seq<Step>)
    requires Runs(hash, EMPTY, steps)
    ensures var s := AfterAll(hash, EMPTY, steps);
            && BalancesOk(s) && OrderOk(s) && DecisionsOk(s)
            && (forall t :: t in s.txs ==> !(s.txs[t].Apply? && s.txs[t].apply.InsertLost?))
  {
    RunPreserves(hash, EMPTY, steps);
    var s := AfterAll(hash, EMPTY, steps);
    forall t | t in s.txs
      ensures !(s.txs[t].Apply? && s.txs[t].apply.InsertLost?)
    {
      assert TxOk(hash, s, t);
    }
  }

  // --- Finality ---

  /** Only commits and seeds touch the tables. */
  lemma RowsKept(hash: int -> int, s: Ledger, step: Step)
    requires Enabled(hash, s, step) && !step.Commit? && !step.Seed?
    ensures SameRows(s, After(hash, s, step))
  {
  }

  lemma CommitGrows(hash: int -> int, s: Ledger, t: int)
    requires Invariant(hash, s) && Enabled(hash, s, Commit(t))
    ensures Grows(s, After(hash, s, Commit(t)))
  {
    assert TxOk(hash, s, t);
    match s.txs[t] {
      case Apply(r, p) => assert Undecided(s, r.op);
      case Reverse(r, p) => assert Standing(s, r.op, p.from);
      case Look(_, _) =>
    }
  }

  /** One step never takes a decision back. */
  lemma StepGrows(hash: int -> int, s: Ledger, step: Step)
    requires Invariant(hash, s) && Enabled(hash, s, step)
    ensures Grows(s, After(hash, s, step))
  {
    if step.Commit? {
      CommitGrows(hash, s, step.t);
    } else if !step.Seed? {
      RowsKept(hash, s, step);
    }
  }

  lemma GrowsTwice(a: Ledger, b: Ledger, c: Ledger)
    requires Grows(a, b) && Grows(b, c)
    ensures Grows(a, c)
  {
  }

  lemma {:induction false} RunGrows(hash: int -> int, s: Ledger, steps: seq<Step>)
    requires Invariant(hash, s) && Runs(hash, s, steps)
    ensures Grows(s, AfterAll(hash, s, steps))
    decreases |steps|
  {
    if steps != [] {
      var next := After(hash, s, steps[0]);
      StepGrows(hash, s, steps[0]);
      StepPreserves(hash, s, steps[0]);
      RunGrows(hash, next, steps[1..]);
      GrowsTwice(s, next, AfterAll(hash, s, steps));
    }
  }

  /** Decision finality: answers given to equal requests under one operation never contradict each other, but for the
      conflicts that follow a rollback. */
  lemma AnswersAgree(hash: int -> int, steps: seq<Step>, t: int, u: int)
    requires Runs(hash, EMPTY, steps)
    requires var s := AfterAll(hash, EMPTY, steps);
             && t in s.txs && u in s.txs && s.txs[t].Apply? && s.txs[u].Apply?
             && s.txs[t].apply.Answered? && s.txs[u].apply.Answered?
             && s.txs[t].request.op == s.txs[u].request.op
    ensures var s := AfterAll(hash, EMPTY, steps);
            var a, b := s.txs[t].apply.answer, s.txs[u].apply.answer;
            var same := s.txs[t].request.digest == s.txs[u].request.digest;
            && (a.Succeeded? && b.Succeeded? ==> same && a == b)
            && (a.Rejected? && b.Rejected? ==> same && a == b)
            && !(a.Succeeded? && b.Rejected?)
            && (a.Succeeded? && b.Conflict? && same ==> RolledBack(s, s.txs[t].request.op))
            && !(a.Rejected? && b.Conflict? && same)
  {
    AnswersRest(hash, steps, t);
    AnswersRest(hash, steps, u);
  }

  predicate RolledBack(s: Ledger, op: int) {
    op in s.operations && s.operations[op].rolledBack
  }

  /** An answer rests on the rows of its operation. */
  lemma AnswersRest(hash: int -> int, steps: seq<Step>, t: int)
    requires Runs(hash, EMPTY, steps)
    requires var s := AfterAll(hash, EMPTY, steps); t in s.txs && s.txs[t].Apply? && s.txs[t].apply.Answered?
    ensures var s := AfterAll(hash, EMPTY, steps);
            DecisionsOk(s) && AnswerOk(s, s.txs[t].request, s.txs[t].apply.answer)
  {
    RunPreserves(hash, EMPTY, steps);
    assert TxOk(hash, AfterAll(hash, EMPTY, steps), t);
  }

  /** The answer that the rows of a decided operation fix for a request. */
  predicate AnswerFixed(s: Ledger, later: Ledger, r: Request, answer: Answer) {
    && (r.op in s.operations ==>
          var row := s.operations[r.op];
          if row.digest != r.digest then answer == Conflict
          else answer == Succeeded(row.balance) || (answer == Conflict && RolledBack(later, r.op)))
    && (r.op in s.rejections ==>
          answer == if s.rejections[r.op].digest != r.digest then Conflict else Rejected(s.rejections[r.op].code))
  }

  lemma AnswerFixedBy(s: Ledger, later: Ledger, r: Request, answer: Answer)
    requires Grows(s, later) && DecisionsOk(later) && AnswerOk(later, r, answer)
    ensures AnswerFixed(s, later, r, answer)
  {
  }

  /** Replay over whole runs: once a run has decided an operation, every apply of it that is answered, then or after any
      further run, gets the stored result for an equal request, until a rollback turns that into a conflict, and a conflict
      for any other. */
  lemma RunReplays(hash: int -> int, steps: seq<Step>, more: seq<Step>, t: int)
    requires Runs(hash, EMPTY, steps) && Runs(hash, AfterAll(hash, EMPTY, steps), more)
    requires var u := AfterAll(hash, AfterAll(hash, EMPTY, steps), more);
             t in u.txs && u.txs[t].Apply? && u.txs[t].apply.Answered?
    ensures var s := AfterAll(hash, EMPTY, steps);
            var u := AfterAll(hash, s, more);
            AnswerFixed(s, u, u.txs[t].request, u.txs[t].apply.answer)
  {
    RunPreserves(hash, EMPTY, steps);
    var s := AfterAll(hash, EMPTY, steps);
    var u := AfterAll(hash, s, more);
    RunPreserves(hash, s, more);
    RunGrows(hash, s, more);
    assert TxOk(hash, u, t);
    AnswerFixedBy(s, u, u.txs[t].request, u.txs[t].apply.answer);
  }

  /** An apply that has not read its operation before the operation was rolled back. */
  predicate TooLate(s: Ledger, t: int, op: int) {
    RolledBack(s, op) && (t in s.txs ==> LateTx(s.txs[t], op))
  }

  function Actor(step: Step): int {
    match step
    case Seed(_, _) => -1
    case Begin(t, _) => t
    case LockDecision(t) => t
    case ReadOperation(t) => t
    case ReadRejection(t) => t
    case CheckSession(t, _) => t
    case HoldAccount(t) => t
    case Write(t) => t
    case UpdateBalance(t) => t
    case ReadRollback(t) => t
    case Commit(t) => t
    case Abort(t) => t
  }

  predicate SameWho(x: Tx, y: Tx) {
    match x
    case Apply(r, _) => y.Apply? && y.request == r
    case Reverse(r, _) => y.Reverse? && y.reversal == r
    case Look(op, _) => y.Look? && y.subject == op
  }

  /** Only one transaction moved, and it is still the same request. */
  ghost predicate OnlyMoved(a: Ledger, b: Ledger, t: int) {
    && t in a.txs && t in b.txs && SameWho(a.txs[t], b.txs[t])
    && forall u :: u != t ==> (u in b.txs <==> u in a.txs) && (u in a.txs ==> b.txs[u] == a.txs[u])
  }

  lemma WithMoves(s: Ledger, t: int, tx: Tx)
    requires t in s.txs && SameWho(s.txs[t], tx)
    ensures OnlyMoved(s, With(s, t, tx), t)
  {
  }

  lemma EndMovesOnly(hash: int -> int, s: Ledger, t: int, tx: Tx)
    requires t in s.txs && SameWho(s.txs[t], tx)
    ensures OnlyMoved(s, End(hash, s, t, tx), t)
  {
    WithMoves(s, t, tx);
  }

  lemma ApplyReadMoves(hash: int -> int, s: Ledger, t: int, r: Request)
    requires t in s.txs && s.txs[t].Apply? && s.txs[t].request == r
    ensures OnlyMoved(s, AfterApplyRead(hash, s, t, r), t)
  {
    var answer := if r.op in s.operations && (s.operations[r.op].digest != r.digest || s.operations[r.op].rolledBack) then Conflict
                  else if r.op in s.operations then Succeeded(s.operations[r.op].balance) else Conflict;
    EndMovesOnly(hash, s, t, Apply(r, Answered(answer)));
    WithMoves(s, t, Apply(r, NoOperation));
  }

  lemma ReverseReadMoves(hash: int -> int, s: Ledger, t: int, r: Reversal)
    requires t in s.txs && s.txs[t].Reverse? && s.txs[t].reversal == r
    ensures OnlyMoved(s, AfterReverseRead(hash, s, t, r), t)
  {
    EndMovesOnly(hash, s, t, Reverse(r, ReverseRefused));
    if r.op in s.operations {
      WithMoves(s, t, Reverse(r, OperationHeld(s.operations[r.op])));
    }
  }

  lemma LookMoves(s: Ledger, t: int, op: int)
    requires t in s.txs && s.txs[t].Look? && s.txs[t].subject == op
    ensures OnlyMoved(s, AfterLook(s, t, op), t)
  {
  }

  lemma ApplyRejectionMoves(hash: int -> int, s: Ledger, t: int, r: Request)
    requires t in s.txs && s.txs[t].Apply? && s.txs[t].request == r
    ensures OnlyMoved(s, AfterApplyRejection(hash, s, t, r), t)
  {
    if r.op in s.rejections {
      var row := s.rejections[r.op];
      EndMovesOnly(hash, s, t, Apply(r, Answered(if row.digest != r.digest then Conflict else Rejected(row.code))));
    }
    WithMoves(s, t, Apply(r, if r.bound then NoRejection else SessionBound));
  }

  lemma SecondLookMoves(s: Ledger, t: int, op: int, before: bool)
    requires t in s.txs && s.txs[t].Look? && s.txs[t].subject == op
    ensures OnlyMoved(s, AfterSecondLook(s, t, op, before), t)
  {
  }

  lemma HoldMoves(s: Ledger, t: int, r: Request)
    requires t in s.txs && s.txs[t].Apply? && s.txs[t].request == r
    ensures OnlyMoved(s, AfterHold(s, t, r), t)
  {
  }

  lemma ReverseHoldMoves(hash: int -> int, s: Ledger, t: int, r: Reversal, row: Operation)
    requires t in s.txs && s.txs[t].Reverse? && s.txs[t].reversal == r
    ensures OnlyMoved(s, AfterReverseHold(hash, s, t, r, row), t)
  {
    EndMovesOnly(hash, s, t, Reverse(r, ReverseRefused));
  }

  lemma WriteMoves(hash: int -> int, s: Ledger, t: int, r: Request, balance: int)
    requires t in s.txs && s.txs[t].Apply? && s.txs[t].request == r
    ensures OnlyMoved(s, AfterWrite(hash, s, t, r, balance), t)
  {
    EndMovesOnly(hash, s, t, Apply(r, Failed));
  }

  lemma ReverseWriteMoves(hash: int -> int, s: Ledger, t: int, r: Reversal, row: Operation, balance: int)
    requires t in s.txs && s.txs[t].Reverse? && s.txs[t].reversal == r
    ensures OnlyMoved(s, AfterReverseWrite(hash, s, t, r, row, balance), t)
  {
    EndMovesOnly(hash, s, t, Reverse(r, ReverseRefused));
  }

  lemma ReadRollbackMoves(hash: int -> int, s: Ledger, t: int, r: Reversal)
    requires t in s.txs && s.txs[t].Reverse? && s.txs[t].reversal == r
    ensures OnlyMoved(s, AfterReadRollback(hash, s, t, r), t)
  {
    if r.id in s.rollbacks {
      var row := s.rollbacks[r.id];
      EndMovesOnly(hash, s, t, Reverse(r, if row.digest == r.digest && row.op == r.op then ReverseAnswered(true, row.balance) else ReverseRefused));
    }
    WithMoves(s, t, Reverse(r, NotReplayed));
  }

  lemma CommittedMoves(hash: int -> int, s: Ledger, t: int, r: Request, updated: int)
    requires t in s.txs && s.txs[t].Apply? && s.txs[t].request == r
    ensures OnlyMoved(s, Committed(hash, s, t, r, updated), t)
  {
    EndMovesOnly(hash, s, t, Apply(r, Answered(Succeeded(updated))));
  }

  lemma CommittedRejectionMoves(hash: int -> int, s: Ledger, t: int, r: Request, code: Code)
    requires t in s.txs && s.txs[t].Apply? && s.txs[t].request == r
    ensures OnlyMoved(s, CommittedRejection(hash, s, t, r, code), t)
  {
    EndMovesOnly(hash, s, t, Apply(r, Answered(Rejected(code))));
  }

  lemma CommittedReversalMoves(hash: int -> int, s: Ledger, t: int, r: Reversal, row: Operation, updated: int)
    requires t in s.txs && s.txs[t].Reverse? && s.txs[t].reversal == r
    ensures OnlyMoved(s, CommittedReversal(hash, s, t, r, row, updated), t)
  {
    EndMovesOnly(hash, s, t, Reverse(r, ReverseAnswered(false, updated)));
  }

  lemma ReadsMove(hash: int -> int, s: Ledger, step: Step)
    requires Enabled(hash, s, step) && (step.ReadOperation? || step.ReadRejection? || step.ReadRollback?)
    ensures OnlyMoved(s, After(hash, s, step), Actor(step))
  {
    var t := Actor(step);
    match s.txs[t]
    case Apply(r, _) =>
      ApplyReadMoves(hash, s, t, r);
      ApplyRejectionMoves(hash, s, t, r);
    case Reverse(r, _) =>
      ReverseReadMoves(hash, s, t, r);
      ReadRollbackMoves(hash, s, t, r);
    case Look(op, p) =>
      LookMoves(s, t, op);
      SecondLookMoves(s, t, op, p.OperationAbsent? && p.rejectedThen);
  }

  lemma HoldsMove(hash: int -> int, s: Ledger, step: Step)
    requires Enabled(hash, s, step) && (step.HoldAccount? || step.Write?)
    ensures OnlyMoved(s, After(hash, s, step), Actor(step))
  {
    var t := Actor(step);
    match s.txs[t]
    case Apply(r, p) =>
      HoldMoves(s, t, r);
      WriteMoves(hash, s, t, r, if p.AccountHeld? then p.balance else 0);
    case Reverse(r, p) =>
      if p.OperationHeld? {
        ReverseHoldMoves(hash, s, t, r, p.row);
      } else if p.ReverseAccountHeld? {
        ReverseWriteMoves(hash, s, t, r, p.held, p.balance);
      }
    case Look(_, _) =>
  }

  lemma CommitMoves(hash: int -> int, s: Ledger, t: int)
    requires Enabled(hash, s, Commit(t))
    ensures OnlyMoved(s, After(hash, s, Commit(t)), t)
  {
    match s.txs[t]
    case Apply(r, p) =>
      if p.Updated? {
        CommittedMoves(hash, s, t, r, p.updated);
      } else {
        CommittedRejectionMoves(hash, s, t, r, p.code);
      }
    case Reverse(r, p) => CommittedReversalMoves(hash, s, t, r, p.from, p.updated);
    case Look(_, _) =>
  }

  lemma LocksMove(hash: int -> int, s: Ledger, step: Step)
    requires Enabled(hash, s, step) && (step.LockDecision? || step.CheckSession? || step.UpdateBalance? || step.Abort?)
    ensures OnlyMoved(s, After(hash, s, step), Actor(step))
  {
    var t := Actor(step);
    if step.Abort? {
      EndMovesOnly(hash, s, t, Stopped(s.txs[t]));
    }
  }

  /** A step moves its own transaction, and no other. */
  lemma StepMovesOne(hash: int -> int, s: Ledger, step: Step)
    requires Enabled(hash, s, step) && !step.Seed? && !step.Begin?
    ensures OnlyMoved(s, After(hash, s, step), Actor(step))
  {
    match step
    case ReadOperation(_) => ReadsMove(hash, s, step);
    case ReadRejection(_) => ReadsMove(hash, s, step);
    case ReadRollback(_) => ReadsMove(hash, s, step);
    case HoldAccount(_) => HoldsMove(hash, s, step);
    case Write(_) => HoldsMove(hash, s, step);
    case Commit(t) => CommitMoves(hash, s, t);
    case _ => LocksMove(hash, s, step);
  }

  /** Where a late apply may stand. */
  predicate LateTx(tx: Tx, op: int) {
    tx.Apply? && tx.request.op == op ==> tx.apply in {Begun, Locked, Failed, Answered(Conflict)}
  }

  lemma LateBegins(hash: int -> int, s: Ledger, t: int, tx: Tx, op: int)
    requires Enabled(hash, s, Begin(t, tx))
    ensures LateTx(After(hash, s, Begin(t, tx)).txs[t], op)
  {
  }

  lemma LateLocks(hash: int -> int, s: Ledger, t: int, op: int)
    requires Enabled(hash, s, LockDecision(t))
    ensures t in After(hash, s, LockDecision(t)).txs && LateTx(After(hash, s, LockDecision(t)).txs[t], op)
  {
  }

  lemma LateReads(hash: int -> int, s: Ledger, t: int, op: int)
    requires Enabled(hash, s, ReadOperation(t)) && RolledBack(s, op)
    ensures t in After(hash, s, ReadOperation(t)).txs && LateTx(After(hash, s, ReadOperation(t)).txs[t], op)
  {
    ReadsMove(hash, s, ReadOperation(t));
    if s.txs[t].Apply? && s.txs[t].request.op == op {
      assert After(hash, s, ReadOperation(t)) == AfterApplyRead(hash, s, t, s.txs[t].request);
      EndMovesOnly(hash, s, t, Apply(s.txs[t].request, Answered(Conflict)));
    }
  }

  lemma LateAborts(hash: int -> int, s: Ledger, t: int, op: int)
    requires Enabled(hash, s, Abort(t))
    ensures t in After(hash, s, Abort(t)).txs && LateTx(After(hash, s, Abort(t)).txs[t], op)
  {
  }

  lemma OwnStepTooLate(hash: int -> int, s: Ledger, step: Step, t: int, op: int)
    requires Enabled(hash, s, step) && !step.Seed? && Actor(step) == t && TooLate(s, t, op)
    ensures var b := After(hash, s, step); t in b.txs && LateTx(b.txs[t], op)
  {
    match step
    case Begin(_, tx) => LateBegins(hash, s, t, tx, op);
    case LockDecision(_) => LateLocks(hash, s, t, op);
    case ReadOperation(_) => LateReads(hash, s, t, op);
    case Abort(_) => LateAborts(hash, s, t, op);
    case _ => StepMovesOne(hash, s, step);
  }

  lemma {:induction false} TooLateStays(hash: int -> int, s: Ledger, more: seq<Step>, t: int, op: int)
    requires Invariant(hash, s) && Runs(hash, s, more) && TooLate(s, t, op)
    ensures TooLate(AfterAll(hash, s, more), t, op)
    decreases |more|
  {
    if more != [] {
      var next := After(hash, s, more[0]);
      StepGrows(hash, s, more[0]);
      StepPreserves(hash, s, more[0]);
      if !more[0].Seed? && Actor(more[0]) == t {
        OwnStepTooLate(hash, s, more[0], t, op);
      } else if !more[0].Seed? && !more[0].Begin? {
        StepMovesOne(hash, s, more[0]);
      }
      TooLateStays(hash, next, more[1..], t, op);
    }
  }

  /** After a rollback no apply succeeds any more: one that begins later can only answer a conflict. */
  lemma RolledBackConflicts(hash: int -> int, steps: seq<Step>, more: seq<Step>, t: int)
    requires Runs(hash, EMPTY, steps) && Runs(hash, AfterAll(hash, EMPTY, steps), more)
    requires var s := AfterAll(hash, EMPTY, steps);
             var u := AfterAll(hash, s, more);
             && t !in s.txs && t in u.txs && u.txs[t].Apply? && u.txs[t].apply.Answered?
             && RolledBack(s, u.txs[t].request.op)
    ensures var u := AfterAll(hash, AfterAll(hash, EMPTY, steps), more);
            u.txs[t].apply == Answered(Conflict)
  {
    RunPreserves(hash, EMPTY, steps);
    var s := AfterAll(hash, EMPTY, steps);
    TooLateStays(hash, s, more, t, AfterAll(hash, s, more).txs[t].request.op);
  }

  /** Replay: once an operation is decided, an apply that reads it answers from the stored row, and only equal requests
      whose operation still stands succeed. */
  lemma DecidedReplays(hash: int -> int, s: Ledger, t: int, r: Request)
    requires Invariant(hash, s) && t in s.txs && s.txs[t] == Apply(r, Locked) && r.op in s.operations
    ensures Enabled(hash, s, ReadOperation(t))
    ensures var b, row := After(hash, s, ReadOperation(t)), s.operations[r.op];
            && b.txs[t] == Apply(r, Answered(if row.digest == r.digest && !row.rolledBack then Succeeded(row.balance) else Conflict))
            && b.operations == s.operations && b.accounts == s.accounts && hash(r.op) !in b.decisions
  {
    assert TxOk(hash, s, t);
  }

  /** The unlocked lookup tells the truth at some instant of the call: what it found, it found; and if it found nothing,
      there was neither an operation nor a rejection when it first looked. */
  lemma LookupTruthful(hash: int -> int, steps: seq<Step>, t: int)
    requires Runs(hash, EMPTY, steps)
    requires t in AfterAll(hash, EMPTY, steps).txs && AfterAll(hash, EMPTY, steps).txs[t].Look?
    ensures var s := AfterAll(hash, EMPTY, steps);
            var op := s.txs[t].subject;
            match s.txs[t].look {
              case FoundOperation(row) => op in s.operations && SameOperation(row, s.operations[op])
              case FoundRejection(row) => op in s.rejections && s.rejections[op] == row && op !in s.operations
              case FoundNothing(rejectedThen) => !rejectedThen
              case _ => true
            }
  {
    RunPreserves(hash, EMPTY, steps);
    assert TxOk(hash, AfterAll(hash, EMPTY, steps), t);
  }

  /** Different operations that share a lock only wait for each other: whoever holds it is the one that decides. */
  lemma OneDecider(hash: int -> int, steps: seq<Step>, t: int, u: int)
    requires Runs(hash, EMPTY, steps)
    requires var s := AfterAll(hash, EMPTY, steps);
             && t in s.txs && u in s.txs && s.txs[t].Decides() && s.txs[u].Decides()
             && hash(s.txs[t].Op()) == hash(s.txs[u].Op())
    ensures t == u
  {
    RunPreserves(hash, EMPTY, steps);
    assert TxOk(hash, AfterAll(hash, EMPTY, steps), t) && TxOk(hash, AfterAll(hash, EMPTY, steps), u);
  }
}
