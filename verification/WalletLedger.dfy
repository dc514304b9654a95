/** The wallet's tables and locks, and its transactions as interleaved steps. */
module WalletLedger {
  import opened Money

  // --- Rows ---

  datatype Code = InsufficientFunds | SessionInvalid | AccountNotFound

  datatype Request = Request(op: int, digest: int, account: int, debit: int, credit: int, bound: bool)

  datatype Reversal = Reversal(id: int, op: int, digest: int)

  datatype Operation = Operation(digest: int, account: int, debit: int, credit: int, balance: int, rolledBack: bool)

  datatype Rejection = Rejection(digest: int, code: Code)

  datatype Rollback = Rollback(op: int, digest: int, balance: int)

  /** The new balance, the refusal of an unaffordable debit, or a number the ledger cannot hold. */
  datatype Checked = Fits(balance: int) | TooPoor | OutOfRange

  function CheckedBalance(balance: int, debit: int, credit: int): (c: Checked)
    ensures c.Fits? <==> 0 <= balance && 0 <= debit <= balance && 0 <= credit && balance - debit + credit <= MAX_INT64
    ensures c.Fits? ==> c.balance == balance - debit + credit
    ensures c.TooPoor? <==> 0 <= balance < debit && 0 <= credit
  {
    if balance < 0 || debit < 0 || credit < 0 then OutOfRange
    else if debit > balance then TooPoor
    else if credit > MAX_INT64 - (balance - debit) then OutOfRange
    else Fits(balance - debit + credit)
  }

  // --- Transactions ---

  datatype Answer = Succeeded(balance: int) | Rejected(code: Code) | Conflict

  datatype ApplyPhase =
    | Begun
    | Locked
    | NoOperation
    | NoRejection
    | SessionBound
    | AccountHeld(balance: int)
    | Inserted(updated: int)
    | Updated(updated: int)
    | InsertLost
    | Rejecting(code: Code, holding: bool)
    | Answered(answer: Answer)
    | Failed

  datatype ReversePhase =
    | ReverseBegun
    | ReverseLocked
    | NotReplayed
    | OperationHeld(row: Operation)
    | ReverseAccountHeld(held: Operation, balance: int)
    | ReversalWritten(from: Operation, updated: int)
    | ReverseAnswered(replayed: bool, balance: int)
    | ReverseRefused

  /** What an unlocked lookup found. The flag of a first read that found nothing says whether there was a rejection then. */
  datatype LookPhase =
    | LookBegun
    | OperationAbsent(rejectedThen: bool)
    | FoundOperation(row: Operation)
    | FoundRejection(rejection: Rejection)
    | FoundNothing(rejectedThen: bool)

  datatype Tx =
    | Apply(request: Request, apply: ApplyPhase)
    | Reverse(reversal: Reversal, reverse: ReversePhase)
    | Look(subject: int, look: LookPhase) {

    function Op(): int {
      match this
      case Apply(r, _) => r.op
      case Reverse(r, _) => r.op
      case Look(op, _) => op
    }

    /** Whether the transaction holds the decision lock of its operation. */
    predicate Decides() {
      match this
      case Apply(_, p) => !(p.Begun? || p.Answered? || p.Failed?)
      case Reverse(_, p) => !(p.ReverseBegun? || p.ReverseAnswered? || p.ReverseRefused?)
      case Look(_, _) => false
    }

    /** The account row the transaction holds for update. */
    function Holds(): Option<int> {
      match this
      case Apply(r, p) =>
        if p.AccountHeld? || p.Inserted? || p.Updated? || p.InsertLost? || (p.Rejecting? && p.holding)
        then Some(r.account) else None
      case Reverse(_, p) =>
        if p.ReverseAccountHeld? then Some(p.held.account)
        else if p.ReversalWritten? then Some(p.from.account) else None
      case Look(_, _) => None
    }
  }

  // --- The database ---

  /** Committed rows, the locks held by running transactions, and the order in which operations were committed. */
  datatype Ledger = Ledger(
    seeds: map<int, int>,
    accounts: map<int, int>,
    operations: map<int, Operation>,
    order: seq<int>,
    rejections: map<int, Rejection>,
    rollbacks: map<int, Rollback>,
    decisions: map<int, int>,
    holders: map<int, int>,
    txs: map<int, Tx>)

  datatype Step =
    | Seed(account: int, balance: int)
    | Begin(t: int, tx: Tx)
    | LockDecision(t: int)
    | ReadOperation(t: int)
    | ReadRejection(t: int)
    | CheckSession(t: int, matches: bool)
    | HoldAccount(t: int)
    | Write(t: int)
    | UpdateBalance(t: int)
    | ReadRollback(t: int)
    | Commit(t: int)
    | Abort(t: int)

  predicate Fresh(tx: Tx) {
    match tx
    case Apply(_, p) => p == Begun
    case Reverse(_, p) => p == ReverseBegun
    case Look(_, p) => p == LookBegun
  }

  /** The same committed rows. */
  predicate SameRows(a: Ledger, b: Ledger) {
    && a.seeds == b.seeds && a.accounts == b.accounts && a.operations == b.operations && a.order == b.order
    && a.rejections == b.rejections && a.rollbacks == b.rollbacks
  }

  function With(s: Ledger, t: int, tx: Tx): (b: Ledger)
    ensures SameRows(s, b)
  {
    s.(txs := s.txs[t := tx])
  }

  /** A transaction that ends, giving back its locks. */
  function End(hash: int -> int, s: Ledger, t: int, tx: Tx): (b: Ledger)
    requires t in s.txs
    ensures SameRows(s, b)
  {
    var was := s.txs[t];
    With(s, t, tx).(
      decisions := if was.Decides() then s.decisions - {hash(was.Op())} else s.decisions,
      holders := if was.Holds().Some? then s.holders - {was.Holds().value} else s.holders)
  }

  function Stopped(tx: Tx): Tx {
    match tx
    case Apply(r, _) => Apply(r, Failed)
    case Reverse(r, _) => Reverse(r, ReverseRefused)
    case Look(op, look) => Look(op, look)
  }

  predicate Running(tx: Tx) {
    match tx
    case Apply(_, p) => !(p.Answered? || p.Failed?)
    case Reverse(_, p) => !(p.ReverseAnswered? || p.ReverseRefused?)
    case Look(_, p) => false
  }

  /** Which steps a state allows. A lock is taken only when free; a row that is not there cannot be locked. */
  predicate Enabled(hash: int -> int, s: Ledger, step: Step) {
    match step
    case Seed(a, balance) => a !in s.accounts && 0 <= balance <= MAX_INT64
    case Begin(t, tx) => t !in s.txs && Fresh(tx)
    case LockDecision(t) =>
      && t in s.txs && hash(s.txs[t].Op()) !in s.decisions
      && match s.txs[t] {
           case Apply(_, p) => p == Begun
           case Reverse(_, p) => p == ReverseBegun
           case Look(_, _) => false
         }
    case ReadOperation(t) =>
      t in s.txs && match s.txs[t] {
        case Apply(_, p) => p == Locked
        case Reverse(_, p) => p == NotReplayed
        case Look(_, p) => p == LookBegun
      }
    case ReadRejection(t) =>
      t in s.txs && match s.txs[t] {
        case Apply(_, p) => p == NoOperation
        case Look(_, p) => p.OperationAbsent?
        case Reverse(_, _) => false
      }
    case CheckSession(t, _) => t in s.txs && s.txs[t].Apply? && s.txs[t].apply == NoRejection
    case HoldAccount(t) =>
      t in s.txs && match s.txs[t] {
        case Apply(r, p) => p == SessionBound && r.account !in s.holders
        case Reverse(_, p) => p.OperationHeld? && p.row.account !in s.holders
        case Look(_, _) => false
      }
    case Write(t) =>
      t in s.txs && match s.txs[t] {
        case Apply(_, p) => p.AccountHeld?
        case Reverse(_, p) => p.ReverseAccountHeld?
        case Look(_, _) => false
      }
    case UpdateBalance(t) => t in s.txs && s.txs[t].Apply? && s.txs[t].apply.Inserted?
    case ReadRollback(t) => t in s.txs && s.txs[t].Reverse? && s.txs[t].reverse == ReverseLocked
    case Commit(t) =>
      t in s.txs && match s.txs[t] {
        case Apply(r, p) => p.Updated? || (p.Rejecting? && r.op !in s.rejections)
        case Reverse(r, p) => p.ReversalWritten? && r.id !in s.rollbacks
        case Look(_, _) => false
      }
    case Abort(t) => t in s.txs && Running(s.txs[t])
  }

  /** Reading the operation under its decision lock: a decided one is replayed or refused. */
  function AfterApplyRead(hash: int -> int, s: Ledger, t: int, r: Request): (b: Ledger)
    requires t in s.txs
    ensures SameRows(s, b)
  {
    if r.op in s.operations then
      var row := s.operations[r.op];
      End(hash, s, t, Apply(r, Answered(if row.digest != r.digest || row.rolledBack then Conflict else Succeeded(row.balance))))
    else With(s, t, Apply(r, NoOperation))
  }

  function AfterApplyRejection(hash: int -> int, s: Ledger, t: int, r: Request): (b: Ledger)
    requires t in s.txs
    ensures SameRows(s, b)
  {
    if r.op in s.rejections then
      var row := s.rejections[r.op];
      End(hash, s, t, Apply(r, Answered(if row.digest != r.digest then Conflict else Rejected(row.code))))
    else With(s, t, Apply(r, if r.bound then NoRejection else SessionBound))
  }

  /** Locking the account row; a missing account is a recorded rejection. */
  function AfterHold(s: Ledger, t: int, r: Request): (b: Ledger)
    ensures SameRows(s, b)
  {
    if r.account in s.accounts
    then With(s, t, Apply(r, AccountHeld(s.accounts[r.account]))).(holders := s.holders[r.account := t])
    else With(s, t, Apply(r, Rejecting(AccountNotFound, false)))
  }

  /** The balance check and the insert of the operation row. */
  function AfterWrite(hash: int -> int, s: Ledger, t: int, r: Request, balance: int): (b: Ledger)
    requires t in s.txs
    ensures SameRows(s, b)
  {
    match CheckedBalance(balance, r.debit, r.credit)
    case TooPoor => With(s, t, Apply(r, Rejecting(InsufficientFunds, true)))
    case OutOfRange => End(hash, s, t, Apply(r, Failed))
    case Fits(updated) => With(s, t, Apply(r, if r.op in s.operations then InsertLost else Inserted(updated)))
  }

  function Committed(hash: int -> int, s: Ledger, t: int, r: Request, updated: int): Ledger
    requires t in s.txs
  {
    End(hash, s, t, Apply(r, Answered(Succeeded(updated)))).(
      operations := s.operations[r.op := Operation(r.digest, r.account, r.debit, r.credit, updated, false)],
      order := s.order + [r.op],
      accounts := s.accounts[r.account := updated])
  }

  function CommittedRejection(hash: int -> int, s: Ledger, t: int, r: Request, code: Code): Ledger
    requires t in s.txs
  {
    End(hash, s, t, Apply(r, Answered(Rejected(code)))).(rejections := s.rejections[r.op := Rejection(r.digest, code)])
  }

  function CommittedReversal(hash: int -> int, s: Ledger, t: int, r: Reversal, row: Operation, updated: int): Ledger
    requires t in s.txs
  {
    End(hash, s, t, Reverse(r, ReverseAnswered(false, updated))).(
      rollbacks := s.rollbacks[r.id := Rollback(r.op, r.digest, updated)],
      accounts := s.accounts[row.account := updated],
      operations := s.operations[r.op := row.(rolledBack := true)])
  }

  /** A rollback ID that is known replays its receipt, or conflicts. */
  function AfterReadRollback(hash: int -> int, s: Ledger, t: int, r: Reversal): (b: Ledger)
    requires t in s.txs
    ensures SameRows(s, b)
  {
    if r.id in s.rollbacks then
      var row := s.rollbacks[r.id];
      End(hash, s, t, Reverse(r, if row.digest == r.digest && row.op == r.op then ReverseAnswered(true, row.balance)
                                 else ReverseRefused))
    else With(s, t, Reverse(r, NotReplayed))
  }

  function AfterReverseRead(hash: int -> int, s: Ledger, t: int, r: Reversal): (b: Ledger)
    requires t in s.txs
    ensures SameRows(s, b)
  {
    if r.op !in s.operations || s.operations[r.op].rolledBack then End(hash, s, t, Reverse(r, ReverseRefused))
    else With(s, t, Reverse(r, OperationHeld(s.operations[r.op])))
  }

  function AfterReverseHold(hash: int -> int, s: Ledger, t: int, r: Reversal, row: Operation): (b: Ledger)
    requires t in s.txs
    ensures SameRows(s, b)
  {
    if row.account in s.accounts
    then With(s, t, Reverse(r, ReverseAccountHeld(row, s.accounts[row.account]))).(holders := s.holders[row.account := t])
    else End(hash, s, t, Reverse(r, ReverseRefused))
  }

  /** The reversal applies the operation backwards to the balance of today. */
  function AfterReverseWrite(hash: int -> int, s: Ledger, t: int, r: Reversal, row: Operation, balance: int): (b: Ledger)
    requires t in s.txs
    ensures SameRows(s, b)
  {
    match CheckedBalance(balance, row.credit, row.debit)
    case Fits(updated) => With(s, t, Reverse(r, ReversalWritten(row, updated)))
    case _ => End(hash, s, t, Reverse(r, ReverseRefused))
  }

  function AfterLook(s: Ledger, t: int, op: int): (b: Ledger)
    ensures SameRows(s, b)
  {
    With(s, t, Look(op, if op in s.operations then FoundOperation(s.operations[op]) else OperationAbsent(op in s.rejections)))
  }

  function AfterSecondLook(s: Ledger, t: int, op: int, rejectedThen: bool): (b: Ledger)
    ensures SameRows(s, b)
  {
    With(s, t, Look(op, if op in s.rejections then FoundRejection(s.rejections[op]) else FoundNothing(rejectedThen)))
  }

  function After(hash: int -> int, s: Ledger, step: Step): Ledger
    requires Enabled(hash, s, step)
  {
    match step
    case Seed(a, balance) => s.(seeds := s.seeds[a := balance], accounts := s.accounts[a := balance])
    case Begin(t, tx) => With(s, t, tx)
    case LockDecision(t) =>
      var locked := if s.txs[t].Apply? then Apply(s.txs[t].request, Locked) else Reverse(s.txs[t].reversal, ReverseLocked);
      With(s, t, locked).(decisions := s.decisions[hash(s.txs[t].Op()) := t])
    case ReadOperation(t) =>
      (match s.txs[t]
       case Apply(r, _) => AfterApplyRead(hash, s, t, r)
       case Reverse(r, _) => AfterReverseRead(hash, s, t, r)
       case Look(op, _) => AfterLook(s, t, op))
    case ReadRejection(t) =>
      if s.txs[t].Apply? then AfterApplyRejection(hash, s, t, s.txs[t].request)
      else AfterSecondLook(s, t, s.txs[t].subject, s.txs[t].look.rejectedThen)
    case CheckSession(t, matches) =>
      With(s, t, Apply(s.txs[t].request, if matches then SessionBound else Rejecting(SessionInvalid, false)))
    case HoldAccount(t) =>
      if s.txs[t].Apply? then AfterHold(s, t, s.txs[t].request)
      else AfterReverseHold(hash, s, t, s.txs[t].reversal, s.txs[t].reverse.row)
    case Write(t) =>
      if s.txs[t].Apply? then AfterWrite(hash, s, t, s.txs[t].request, s.txs[t].apply.balance)
      else AfterReverseWrite(hash, s, t, s.txs[t].reversal, s.txs[t].reverse.held, s.txs[t].reverse.balance)
    case UpdateBalance(t) => With(s, t, Apply(s.txs[t].request, Updated(s.txs[t].apply.updated)))
    case ReadRollback(t) => AfterReadRollback(hash, s, t, s.txs[t].reversal)
    case Commit(t) =>
      (match s.txs[t]
       case Apply(r, p) => if p.Updated? then Committed(hash, s, t, r, p.updated) else CommittedRejection(hash, s, t, r, p.code)
       case Reverse(r, p) => CommittedReversal(hash, s, t, r, p.from, p.updated)
       case Look(_, _) => s)
    case Abort(t) => End(hash, s, t, Stopped(s.txs[t]))
  }
}
