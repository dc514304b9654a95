/** What every reachable state of the wallet satisfies. */
module WalletInvariants {
  import opened Money
  import opened WalletLedger

  // --- Conservation ---

  /** What an operation contributes to an account while it stands. */
  function Contribution(row: Operation, a: int): int {
    if row.account == a && !row.rolledBack then row.credit - row.debit else 0
  }

  /** Credits minus debits of the first n committed operations that are not rolled back. */
  function Net(order: seq<int>, operations: map<int, Operation>, a: int, n: nat): int
    requires n <= |order|
  {
    if n == 0 then 0
    else Net(order, operations, a, n - 1) +
         if order[n - 1] in operations then Contribution(operations[order[n - 1]], a) else 0
  }

  predicate Once(order: seq<int>) {
    forall i, j :: 0 <= i < j < |order| ==> order[i] != order[j]
  }

  lemma {:induction false} NetSame(order: seq<int>, order': seq<int>, operations: map<int, Operation>, op: int,
                                   row: Operation, a: int, n: nat)
    requires n <= |order| <= |order'| && order'[..|order|] == order && forall i :: 0 <= i < n ==> order[i] != op
    ensures Net(order', operations[op := row], a, n) == Net(order, operations, a, n)
  {
    if n > 0 {
      NetSame(order, order', operations, op, row, a, n - 1);
      assert order'[n - 1] == order'[..|order|][n - 1];
    }
  }

  /** A newly committed operation adds its contribution. */
  lemma NetAppended(order: seq<int>, operations: map<int, Operation>, op: int, row: Operation, a: int)
    requires op !in order
    ensures Net(order + [op], operations[op := row], a, |order| + 1) == Net(order, operations, a, |order|) + Contribution(row, a)
  {
    NetSame(order, order + [op], operations, op, row, a, |order|);
  }

  /** Replacing one operation's row replaces its contribution. */
  lemma {:induction false} NetReplaced(order: seq<int>, operations: map<int, Operation>, op: int, row: Operation, a: int, at: nat, n: nat)
    requires Once(order) && at < n <= |order| && order[at] == op && op in operations
    ensures Net(order, operations[op := row], a, n) ==
            Net(order, operations, a, n) - Contribution(operations[op], a) + Contribution(row, a)
  {
    if n == at + 1 {
      NetSame(order, order, operations, op, row, a, n - 1);
    } else {
      NetReplaced(order, operations, op, row, a, at, n - 1);
      assert order[n - 1] != op;
    }
  }

  // --- Tables ---

  /** Balances are seed plus credits minus debits of standing operations, and representable. */
  predicate BalancesOk(s: Ledger) {
    && s.seeds.Keys == s.accounts.Keys
    && forall a :: a in s.accounts ==>
         && 0 <= s.accounts[a] <= MAX_INT64
         && s.accounts[a] == s.seeds[a] + Net(s.order, s.operations, a, |s.order|)
  }

  predicate OrderOk(s: Ledger) {
    && Once(s.order)
    && (forall i :: 0 <= i < |s.order| ==> s.order[i] in s.operations)
    && (forall op :: op in s.operations ==> op in s.order && s.operations[op].account in s.accounts)
  }

  /** Success and rejection exclude each other; an operation is rolled back by exactly one rollback. */
  predicate DecisionsOk(s: Ledger) {
    && (forall op :: op in s.operations ==> op !in s.rejections)
    && (forall id :: id in s.rollbacks ==> s.rollbacks[id].op in s.operations && s.operations[s.rollbacks[id].op].rolledBack)
    && (forall op :: op in s.operations && s.operations[op].rolledBack ==> exists id :: id in s.rollbacks && s.rollbacks[id].op == op)
    && (forall i, j :: i in s.rollbacks && j in s.rollbacks && s.rollbacks[i].op == s.rollbacks[j].op ==> i == j)
  }

  // --- Running transactions ---

  /** What the answer of an apply rests on. */
  predicate AnswerOk(s: Ledger, r: Request, answer: Answer) {
    match answer
    case Succeeded(balance) =>
      r.op in s.operations && s.operations[r.op].digest == r.digest && s.operations[r.op].balance == balance
    case Rejected(code) =>
      r.op in s.rejections && s.rejections[r.op] == Rejection(r.digest, code)
    case Conflict =>
      || (r.op in s.operations && (s.operations[r.op].digest != r.digest || s.operations[r.op].rolledBack))
      || (r.op in s.rejections && s.rejections[r.op].digest != r.digest)
  }

  predicate Undecided(s: Ledger, op: int) {
    op !in s.operations && op !in s.rejections
  }

  predicate ApplyOk(s: Ledger, r: Request, p: ApplyPhase) {
    match p
    case NoOperation => r.op !in s.operations
    case NoRejection => Undecided(s, r.op)
    case SessionBound => Undecided(s, r.op)
    case AccountHeld(b) => Undecided(s, r.op) && r.account in s.accounts && s.accounts[r.account] == b
    case Inserted(u) => Undecided(s, r.op) && r.account in s.accounts && CheckedBalance(s.accounts[r.account], r.debit, r.credit) == Fits(u)
    case Updated(u) => Undecided(s, r.op) && r.account in s.accounts && CheckedBalance(s.accounts[r.account], r.debit, r.credit) == Fits(u)
    case InsertLost => false
    case Rejecting(_, _) => Undecided(s, r.op)
    case Answered(answer) => AnswerOk(s, r, answer)
    case _ => true
  }

  predicate Standing(s: Ledger, op: int, row: Operation) {
    op in s.operations && s.operations[op] == row && !row.rolledBack && row.account in s.accounts
  }

  predicate ReverseOk(s: Ledger, r: Reversal, p: ReversePhase) {
    match p
    case OperationHeld(row) => Standing(s, r.op, row)
    case ReverseAccountHeld(row, b) => Standing(s, r.op, row) && s.accounts[row.account] == b
    case ReversalWritten(row, u) => Standing(s, r.op, row) && CheckedBalance(s.accounts[row.account], row.credit, row.debit) == Fits(u)
    case ReverseAnswered(_, b) => r.id in s.rollbacks && s.rollbacks[r.id] == Rollback(r.op, r.digest, b)
    case _ => true
  }

  /** Rows as they were read, up to a later rollback. */
  predicate SameOperation(a: Operation, b: Operation) {
    b == a.(rolledBack := b.rolledBack) && (a.rolledBack ==> b.rolledBack)
  }

  predicate LookOk(s: Ledger, op: int, p: LookPhase) {
    match p
    case LookBegun => true
    case OperationAbsent(rejectedThen) => rejectedThen ==> op in s.rejections
    case FoundOperation(row) => op in s.operations && SameOperation(row, s.operations[op])
    case FoundRejection(row) => op in s.rejections && s.rejections[op] == row && op !in s.operations
    case FoundNothing(rejectedThen) => !rejectedThen
  }

  predicate PhaseOk(s: Ledger, tx: Tx) {
    match tx
    case Apply(r, p) => ApplyOk(s, r, p)
    case Reverse(r, p) => ReverseOk(s, r, p)
    case Look(op, p) => LookOk(s, op, p)
  }

  predicate LocksHeld(hash: int -> int, s: Ledger, t: int, tx: Tx) {
    && (tx.Decides() ==> hash(tx.Op()) in s.decisions && s.decisions[hash(tx.Op())] == t)
    && (tx.Holds().Some? ==> tx.Holds().value in s.holders && s.holders[tx.Holds().value] == t)
  }

  predicate TxOk(hash: int -> int, s: Ledger, t: int) {
    t in s.txs ==> LocksHeld(hash, s, t, s.txs[t]) && PhaseOk(s, s.txs[t])
  }

  ghost predicate Invariant(hash: int -> int, s: Ledger) {
    && BalancesOk(s) && OrderOk(s) && DecisionsOk(s)
    && forall t :: TxOk(hash, s, t)
  }

  // --- What a step leaves alone ---

  /** Committed rows stay: an operation can only become rolled back, rejections and rollbacks never change. */
  predicate Grows(a: Ledger, b: Ledger) {
    && (forall op :: op in a.operations ==> op in b.operations && SameOperation(a.operations[op], b.operations[op]))
    && (forall op :: op in a.rejections ==> op in b.rejections && b.rejections[op] == a.rejections[op])
    && (forall id :: id in a.rollbacks ==> id in b.rollbacks && b.rollbacks[id] == a.rollbacks[id])
    && (forall acct :: acct in a.accounts ==> acct in b.accounts)
  }

  /** A change made by one transaction, to one operation it decides and one account it holds. */
  ghost predicate Changes(a: Ledger, b: Ledger, t: int, op: int, account: int) {
    && Grows(a, b)
    && (forall o :: o != op && o in b.operations ==> o in a.operations && a.operations[o] == b.operations[o])
    && (forall o :: o != op && o in b.rejections ==> o in a.rejections)
    && (forall x :: x != account && x in a.accounts ==> a.accounts[x] == b.accounts[x])
    && (forall h :: h in a.decisions && a.decisions[h] != t ==> h in b.decisions && b.decisions[h] == a.decisions[h])
    && (forall x :: x in a.holders && a.holders[x] != t ==> x in b.holders && b.holders[x] == a.holders[x])
    && (forall u :: u != t && u in b.txs ==> u in a.txs && b.txs[u] == a.txs[u])
    && (b.operations != a.operations || b.rejections != a.rejections ==> t in a.txs && a.txs[t].Decides() && a.txs[t].Op() == op)
    && (b.accounts != a.accounts ==> t in a.txs && a.txs[t].Holds() == Some(account))
  }

  lemma OtherKeepsLocks(hash: int -> int, a: Ledger, b: Ledger, t: int, op: int, account: int, u: int)
    requires Changes(a, b, t, op, account) && u != t && u in b.txs && TxOk(hash, a, u) && TxOk(hash, a, t)
    ensures LocksHeld(hash, b, u, b.txs[u])
    ensures b.txs[u].Decides() && b.txs[u].Op() == op ==> b.operations == a.operations && b.rejections == a.rejections
    ensures b.txs[u].Holds() == Some(account) ==> b.accounts == a.accounts
  {
    if b.txs[u].Decides() {
      var h := hash(b.txs[u].Op());
      assert h in a.decisions && a.decisions[h] == u;
      assert h in b.decisions && b.decisions[h] == a.decisions[h];
    }
  }

  /** Nobody else's facts are disturbed by a transaction that changes only what it has locked. */
  lemma OtherKeepsPhase(hash: int -> int, a: Ledger, b: Ledger, t: int, op: int, account: int, u: int)
    requires Changes(a, b, t, op, account) && u != t && u in b.txs && TxOk(hash, a, u) && TxOk(hash, a, t)
    requires DecisionsOk(b)
    ensures PhaseOk(b, b.txs[u])
  {
    OtherKeepsLocks(hash, a, b, t, op, account, u);
    match b.txs[u] {
      case Apply(r, p) => ApplyKept(a, b, op, account, r, p);
      case Reverse(r, p) => ReverseKept(a, b, op, account, r, p);
      case Look(o, p) => LookKept(a, b, o, p);
    }
  }

  predicate SameFor(a: Ledger, b: Ledger, op: int) {
    && (op in a.operations <==> op in b.operations) && (op in a.operations ==> a.operations[op] == b.operations[op])
    && (op in a.rejections <==> op in b.rejections)
  }

  lemma ApplyKept(a: Ledger, b: Ledger, op: int, account: int, r: Request, p: ApplyPhase)
    requires Grows(a, b) && ApplyOk(a, r, p)
    requires Apply(r, p).Decides() ==> SameFor(a, b, r.op)
    requires Apply(r, p).Holds().Some? && r.account in a.accounts ==> b.accounts[r.account] == a.accounts[r.account]
    ensures ApplyOk(b, r, p)
  {
  }

  lemma ReverseKept(a: Ledger, b: Ledger, op: int, account: int, r: Reversal, p: ReversePhase)
    requires Grows(a, b) && ReverseOk(a, r, p)
    requires Reverse(r, p).Decides() ==> SameFor(a, b, r.op)
    requires Reverse(r, p).Holds().Some? ==>
               var x := Reverse(r, p).Holds().value; x in a.accounts ==> b.accounts[x] == a.accounts[x]
    ensures ReverseOk(b, r, p)
  {
  }

  lemma LookKept(a: Ledger, b: Ledger, op: int, p: LookPhase)
    requires Grows(a, b) && DecisionsOk(b) && LookOk(a, op, p)
    ensures LookOk(b, op, p)
  {
  }

  /** The invariant carries over: tables and the transaction itself are the step's own business, the rest follows. */
  lemma Preserved(hash: int -> int, a: Ledger, b: Ledger, t: int, op: int, account: int)
    requires Invariant(hash, a) && Changes(a, b, t, op, account)
    requires BalancesOk(b) && OrderOk(b) && DecisionsOk(b) && TxOk(hash, b, t)
    ensures Invariant(hash, b)
  {
    forall u
      ensures TxOk(hash, b, u)
    {
      if u != t && u in b.txs {
        assert TxOk(hash, a, u) && TxOk(hash, a, t);
        OtherKeepsLocks(hash, a, b, t, op, account, u);
        OtherKeepsPhase(hash, a, b, t, op, account, u);
      }
    }
  }
}
