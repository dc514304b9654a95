/** A reversal one at a time: what it answers when nobody else holds its locks. */
module SerialReversals {
  import opened Money
  import opened WalletLedger
  import opened WalletInvariants
  import opened WalletSafety
  import SerialWallet

  /** What a reversal leaves: its receipt, if it gets one, and the tables. */
  datatype Undone = Undone(receipt: Option<(bool, int)>, accounts: map<int, int>, operations: map<int, Operation>,
                           rollbacks: map<int, Rollback>)

  function Refusal(s: Ledger): Undone {
    Undone(None, s.accounts, s.operations, s.rollbacks)
  }

  /** A reversal, decided at once: a known receipt is replayed to the same request only; otherwise a standing operation is
      taken back from today's balance, if that balance covers its credit and the ledger can hold the rest. */
  function Undo(s: Ledger, r: Reversal): Undone {
    if r.id in s.rollbacks then
      var row := s.rollbacks[r.id];
      Undone(if row.digest == r.digest && row.op == r.op then Some((true, row.balance)) else None,
             s.accounts, s.operations, s.rollbacks)
    else if r.op !in s.operations || s.operations[r.op].rolledBack then Refusal(s)
    else
      var row := s.operations[r.op];
      if row.account !in s.accounts then Refusal(s)
      else
        var balance := s.accounts[row.account];
        if row.credit < 0 || row.debit < 0 || balance < row.credit || balance - row.credit + row.debit > MAX_INT64 then Refusal(s)
        else
          var left := balance - row.credit + row.debit;
          Undone(Some((false, left)), s.accounts[row.account := left], s.operations[r.op := row.(rolledBack := true)],
                 s.rollbacks[r.id := Rollback(r.op, r.digest, left)])
  }

  /** The account that a reversal locks. */
  function Touched(s: Ledger, r: Reversal): set<int> {
    if r.op in s.operations then {s.operations[r.op].account} else {}
  }

  /** The reversal has ended as it is undone, and has given back what it locked. */
  predicate Ended(hash: int -> int, s: Ledger, b: Ledger, t: int, r: Reversal, touched: set<int>, undone: Undone) {
    && t in b.txs
    && b.txs[t] == Reverse(r, if undone.receipt.Some? then ReverseAnswered(undone.receipt.value.0, undone.receipt.value.1) else ReverseRefused)
    && b.accounts == undone.accounts && b.operations == undone.operations && b.rollbacks == undone.rollbacks
    && b.rejections == s.rejections && b.decisions == s.decisions - {hash(r.op)} && b.holders == s.holders - touched
  }

  lemma Then(hash: int -> int, s: Ledger, step: Step, b: Ledger, rest: seq<Step>, t: int, r: Reversal, touched: set<int>, undone: Undone)
    requires Enabled(hash, s, step) && After(hash, s, step) == b && Runs(hash, b, rest)
    requires Ended(hash, b, AfterAll(hash, b, rest), t, r, touched, undone) && b.rejections == s.rejections
    requires b.decisions - {hash(r.op)} == s.decisions - {hash(r.op)} && b.holders - touched == s.holders - touched
    ensures Runs(hash, s, [step] + rest) && Ended(hash, s, AfterAll(hash, s, [step] + rest), t, r, touched, undone)
  {
    SerialWallet.RunCons(hash, s, step, rest);
  }

  /** Free locks, and balances and operations of a reachable ledger. */
  predicate Alone(s: Ledger, r: Reversal) {
    && (forall a :: a in s.accounts ==> 0 <= s.accounts[a])
    && (forall op :: op in s.operations ==> s.operations[op].account in s.accounts)
    && (forall a :: a in Touched(s, r) ==> a !in s.holders)
  }

  lemma UndoneCommits(hash: int -> int, s: Ledger, t: int, r: Reversal, row: Operation, left: int)
    requires t in s.txs && s.txs[t] == Reverse(r, ReversalWritten(row, left)) && r.id !in s.rollbacks
    ensures Runs(hash, s, [Commit(t)])
    ensures Ended(hash, s, AfterAll(hash, s, [Commit(t)]), t, r, {row.account},
                  Undone(Some((false, left)), s.accounts[row.account := left], s.operations[r.op := row.(rolledBack := true)],
                         s.rollbacks[r.id := Rollback(r.op, r.digest, left)]))
  {
    SerialWallet.RunOne(hash, s, Commit(t));
    assert After(hash, s, Commit(t)) == CommittedReversal(hash, s, t, r, row, left);
  }

  lemma RefusedOnWrite(hash: int -> int, s: Ledger, t: int, r: Reversal, row: Operation, balance: int)
    requires t in s.txs && s.txs[t] == Reverse(r, ReverseAccountHeld(row, balance))
    requires !CheckedBalance(balance, row.credit, row.debit).Fits?
    ensures Runs(hash, s, [Write(t)]) && Ended(hash, s, AfterAll(hash, s, [Write(t)]), t, r, {row.account}, Refusal(s))
  {
    SerialWallet.RunOne(hash, s, Write(t));
    assert After(hash, s, Write(t)) == End(hash, s, t, Reverse(r, ReverseRefused));
  }

  /** What the balance of today decides. */
  lemma BalanceUndoes(s: Ledger, r: Reversal, row: Operation)
    requires r.id !in s.rollbacks && r.op in s.operations && row == s.operations[r.op] && !row.rolledBack
    requires row.account in s.accounts && 0 <= s.accounts[row.account]
    ensures Undo(s, r) ==
            match CheckedBalance(s.accounts[row.account], row.credit, row.debit)
            case Fits(left) => Undone(Some((false, left)), s.accounts[row.account := left],
                                      s.operations[r.op := row.(rolledBack := true)], s.rollbacks[r.id := Rollback(r.op, r.digest, left)])
            case _ => Refusal(s)
  {
  }

  lemma FromAccount(hash: int -> int, s: Ledger, t: int, r: Reversal, row: Operation) returns (steps: seq<Step>)
    requires r.id !in s.rollbacks && r.op in s.operations && row == s.operations[r.op] && !row.rolledBack
    requires row.account in s.accounts && 0 <= s.accounts[row.account]
    requires t in s.txs && s.txs[t] == Reverse(r, ReverseAccountHeld(row, s.accounts[row.account]))
    ensures Runs(hash, s, steps) && Ended(hash, s, AfterAll(hash, s, steps), t, r, {row.account}, Undo(s, r))
  {
    BalanceUndoes(s, r, row);
    match CheckedBalance(s.accounts[row.account], row.credit, row.debit) {
      case Fits(left) =>
        var b := With(s, t, Reverse(r, ReversalWritten(row, left)));
        assert After(hash, s, Write(t)) == b;
        UndoneCommits(hash, b, t, r, row, left);
        Then(hash, s, Write(t), b, [Commit(t)], t, r, {row.account}, Undo(s, r));
        steps := [Write(t)] + [Commit(t)];
      case _ =>
        RefusedOnWrite(hash, s, t, r, row, s.accounts[row.account]);
        steps := [Write(t)];
    }
  }

  lemma FromOperation(hash: int -> int, s: Ledger, t: int, r: Reversal, row: Operation) returns (steps: seq<Step>)
    requires Alone(s, r) && r.id !in s.rollbacks && r.op in s.operations && row == s.operations[r.op] && !row.rolledBack
    requires t in s.txs && s.txs[t] == Reverse(r, OperationHeld(row))
    ensures Runs(hash, s, steps) && Ended(hash, s, AfterAll(hash, s, steps), t, r, Touched(s, r), Undo(s, r))
  {
    var b := With(s, t, Reverse(r, ReverseAccountHeld(row, s.accounts[row.account]))).(holders := s.holders[row.account := t]);
    assert After(hash, s, HoldAccount(t)) == b;
    var rest := FromAccount(hash, b, t, r, row);
    UndoesAlike(s, b, r);
    SerialWallet.Relocked(s.holders, row.account, t);
    Then(hash, s, HoldAccount(t), b, rest, t, r, Touched(s, r), Undo(s, r));
    steps := [HoldAccount(t)] + rest;
  }

  lemma UndoesAlike(s: Ledger, b: Ledger, r: Reversal)
    requires SameRows(s, b)
    ensures Undo(b, r) == Undo(s, r) && Touched(b, r) == Touched(s, r)
  {
  }

  lemma NothingHeld(s: Ledger, r: Reversal)
    requires Alone(s, r)
    ensures s.holders - Touched(s, r) == s.holders
  {
  }

  lemma RefusedOnRead(hash: int -> int, s: Ledger, t: int, r: Reversal)
    requires Alone(s, r) && r.id !in s.rollbacks && t in s.txs && s.txs[t] == Reverse(r, NotReplayed)
    requires r.op !in s.operations || s.operations[r.op].rolledBack
    ensures Runs(hash, s, [ReadOperation(t)]) && Ended(hash, s, AfterAll(hash, s, [ReadOperation(t)]), t, r, Touched(s, r), Undo(s, r))
  {
    NothingHeld(s, r);
    SerialWallet.RunOne(hash, s, ReadOperation(t));
    assert After(hash, s, ReadOperation(t)) == End(hash, s, t, Reverse(r, ReverseRefused));
  }

  lemma FromUnreplayed(hash: int -> int, s: Ledger, t: int, r: Reversal) returns (steps: seq<Step>)
    requires Alone(s, r) && r.id !in s.rollbacks && t in s.txs && s.txs[t] == Reverse(r, NotReplayed)
    ensures Runs(hash, s, steps) && Ended(hash, s, AfterAll(hash, s, steps), t, r, Touched(s, r), Undo(s, r))
  {
    if r.op !in s.operations || s.operations[r.op].rolledBack {
      RefusedOnRead(hash, s, t, r);
      steps := [ReadOperation(t)];
    } else {
      var b := With(s, t, Reverse(r, OperationHeld(s.operations[r.op])));
      assert After(hash, s, ReadOperation(t)) == b;
      var rest := FromOperation(hash, b, t, r, s.operations[r.op]);
      UndoesAlike(s, b, r);
      Then(hash, s, ReadOperation(t), b, rest, t, r, Touched(s, r), Undo(s, r));
      steps := [ReadOperation(t)] + rest;
    }
  }

  lemma ReplaysReceipt(hash: int -> int, s: Ledger, t: int, r: Reversal)
    requires Alone(s, r) && r.id in s.rollbacks && t in s.txs && s.txs[t] == Reverse(r, ReverseLocked)
    ensures Runs(hash, s, [ReadRollback(t)]) && Ended(hash, s, AfterAll(hash, s, [ReadRollback(t)]), t, r, Touched(s, r), Undo(s, r))
  {
    NothingHeld(s, r);
    SerialWallet.RunOne(hash, s, ReadRollback(t));
    assert After(hash, s, ReadRollback(t)) == AfterReadRollback(hash, s, t, r);
  }

  lemma FromLocked(hash: int -> int, s: Ledger, t: int, r: Reversal) returns (steps: seq<Step>)
    requires Alone(s, r) && t in s.txs && s.txs[t] == Reverse(r, ReverseLocked)
    ensures Runs(hash, s, steps) && Ended(hash, s, AfterAll(hash, s, steps), t, r, Touched(s, r), Undo(s, r))
  {
    if r.id in s.rollbacks {
      ReplaysReceipt(hash, s, t, r);
      steps := [ReadRollback(t)];
    } else {
      var b := With(s, t, Reverse(r, NotReplayed));
      assert After(hash, s, ReadRollback(t)) == b;
      var rest := FromUnreplayed(hash, b, t, r);
      UndoesAlike(s, b, r);
      Then(hash, s, ReadRollback(t), b, rest, t, r, Touched(s, r), Undo(s, r));
      steps := [ReadRollback(t)] + rest;
    }
  }

  lemma TakesLock(hash: int -> int, s: Ledger, t: int, r: Reversal) returns (b: Ledger)
    requires t in s.txs && s.txs[t] == Reverse(r, ReverseBegun) && hash(r.op) !in s.decisions
    ensures Enabled(hash, s, LockDecision(t)) && b == After(hash, s, LockDecision(t)) && SameRows(s, b)
    ensures t in b.txs && b.txs[t] == Reverse(r, ReverseLocked) && b.holders == s.holders && b.decisions == s.decisions[hash(r.op) := t]
  {
    b := After(hash, s, LockDecision(t));
  }

  lemma FromBegun(hash: int -> int, s: Ledger, t: int, r: Reversal) returns (steps: seq<Step>)
    requires Alone(s, r) && t in s.txs && s.txs[t] == Reverse(r, ReverseBegun) && hash(r.op) !in s.decisions
    ensures Runs(hash, s, steps) && Ended(hash, s, AfterAll(hash, s, steps), t, r, Touched(s, r), Undo(s, r))
  {
    var b := TakesLock(hash, s, t, r);
    UndoesAlike(s, b, r);
    var rest := FromLocked(hash, b, t, r);
    SerialWallet.Relocked(s.decisions, hash(r.op), t);
    Then(hash, s, LockDecision(t), b, rest, t, r, Touched(s, r), Undo(s, r));
    steps := [LockDecision(t)] + rest;
  }

  lemma FromNothing(hash: int -> int, s: Ledger, t: int, r: Reversal) returns (steps: seq<Step>)
    requires Alone(s, r) && t !in s.txs && hash(r.op) !in s.decisions
    ensures Runs(hash, s, steps) && Ended(hash, s, AfterAll(hash, s, steps), t, r, Touched(s, r), Undo(s, r))
  {
    var b := With(s, t, Reverse(r, ReverseBegun));
    assert After(hash, s, Begin(t, Reverse(r, ReverseBegun))) == b;
    UndoesAlike(s, b, r);
    var rest := FromBegun(hash, b, t, r);
    Then(hash, s, Begin(t, Reverse(r, ReverseBegun)), b, rest, t, r, Touched(s, r), Undo(s, r));
    steps := [Begin(t, Reverse(r, ReverseBegun))] + rest;
  }

  /** A reversal that nobody disturbs ends as it is undone, whatever it asks and whatever the tables hold. */
  lemma ReversesAsUndone(hash: int -> int, before: seq<Step>, t: int, r: Reversal) returns (steps: seq<Step>)
    requires Runs(hash, EMPTY, before)
    requires var s := AfterAll(hash, EMPTY, before);
             t !in s.txs && hash(r.op) !in s.decisions && forall a :: a in Touched(s, r) ==> a !in s.holders
    ensures var s := AfterAll(hash, EMPTY, before);
            Runs(hash, s, steps) && Ended(hash, s, AfterAll(hash, s, steps), t, r, Touched(s, r), Undo(s, r))
  {
    RunPreserves(hash, EMPTY, before);
    steps := FromNothing(hash, AfterAll(hash, EMPTY, before), t, r);
  }
}
