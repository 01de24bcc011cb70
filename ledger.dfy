/** Value-level model of the personal-finance account (`Finansije`):
    its state, the log entries it records, the status each operation
    reports, and every operation as a function from the old state to an
    outcome. The class in module Bank is proved to follow these functions;
    the lemmas here state what the operations promise. */
module Ledger {

  /** One record of the transaction log, in chronological order. */
  datatype Entry =
    | Income(amount: real, desc: string, newBalance: real)    // "[PRIHOD] ..."
    | Expense(amount: real, desc: string, newBalance: real)   // "[RASHOD] ..."
    | NoticeLocked                                            // "[OBAVEŠTENJE] Račun zaključan."
    | NoticeUnlocked                                          // "[OBAVEŠTENJE] Račun uspešno otključan."
    | FailedAttempt                                           // "[POKUŠAJ] Neispravan PIN ..."

  /** The status message every operation returns. */
  datatype Status =
    | AccountLocked                                 // "Račun je zaključan!"
    | AmountNotPositive                             // "Iznos mora biti veći od nule."
    | InsufficientFunds                             // "Nedovoljno sredstava!"
    | Deposited(amount: real, newBalance: real)     // "Uspešno dodat prihod: ..."
    | Withdrawn(amount: real, newBalance: real)     // "Uspešno skinuto ..."
    | AlreadyLocked                                 // "Račun je već zaključan."
    | LockedNow                                     // "Račun je zaključan."
    | AlreadyUnlocked                               // "Račun je već otključan."
    | UnlockedNow                                   // "Račun je uspešno otključan."
    | WrongPin                                      // "Neispravan PIN! Pokušaj ponovo."

  /** Statuses of calls that were turned away and change nothing. */
  predicate Rejected(s: Status) {
    s.AccountLocked? || s.AmountNotPositive? || s.InsufficientFunds? ||
    s.AlreadyLocked? || s.AlreadyUnlocked?
  }

  /** The whole state of one account. */
  datatype AccountState = AccountState(
    number: string, firstName: string, lastName: string, pin: string,
    balance: real, locked: bool, log: seq<Entry>)

  datatype Outcome = Outcome(acct: AccountState, status: Status)

  /** The state-changing calls a user can make on an account. */
  datatype Op =
    | DepositOp(amount: real, desc: string)
    | WithdrawOp(amount: real, desc: string)
    | LockOp
    | UnlockOp(attempt: string)

  /** A freshly created account: unlocked, with an empty log. */
  function Open(number: string, firstName: string, lastName: string, balance: real, pin: string): AccountState {
    AccountState(number, firstName, lastName, pin, balance, false, [])
  }

  /** `prihod`: refused when locked, then when the amount is not positive. */
  function Deposit(a: AccountState, amount: real, desc: string): Outcome {
    if a.locked then Outcome(a, AccountLocked)
    else if amount <= 0.0 then Outcome(a, AmountNotPositive)
    else
      var nb := a.balance + amount;
      Outcome(a.(balance := nb, log := a.log + [Income(amount, desc, nb)]), Deposited(amount, nb))
  }

  /** `rashod`: refused when locked, then when the amount is not positive,
      then when it exceeds the balance. */
  function Withdraw(a: AccountState, amount: real, desc: string): Outcome {
    if a.locked then Outcome(a, AccountLocked)
    else if amount <= 0.0 then Outcome(a, AmountNotPositive)
    else if amount > a.balance then Outcome(a, InsufficientFunds)
    else
      var nb := a.balance - amount;
      Outcome(a.(balance := nb, log := a.log + [Expense(amount, desc, nb)]), Withdrawn(amount, nb))
  }

  /** `zakljucajRacun` */
  function Lock(a: AccountState): Outcome {
    if a.locked then Outcome(a, AlreadyLocked)
    else Outcome(a.(locked := true, log := a.log + [NoticeLocked]), LockedNow)
  }

  /** `otkljucajRacun`: the attempt is compared with the stored PIN by exact equality. */
  function Unlock(a: AccountState, attempt: string): Outcome {
    if !a.locked then Outcome(a, AlreadyUnlocked)
    else if attempt == a.pin then Outcome(a.(locked := false, log := a.log + [NoticeUnlocked]), UnlockedNow)
    else Outcome(a.(log := a.log + [FailedAttempt]), WrongPin)
  }

  function Step(a: AccountState, op: Op): Outcome {
    match op
    case DepositOp(amount, desc) => Deposit(a, amount, desc)
    case WithdrawOp(amount, desc) => Withdraw(a, amount, desc)
    case LockOp => Lock(a)
    case UnlockOp(attempt) => Unlock(a, attempt)
  }

  /** The state after performing `ops` in order. */
  function Run(a: AccountState, ops: seq<Op>): AccountState
    decreases |ops|
  {
    if ops == [] then a else Run(Step(a, ops[0]).acct, ops[1..])
  }

  /** How many of the calls in `ops` were not rejected (successes and
      wrong-PIN attempts alike). */
  function Accepted(a: AccountState, ops: seq<Op>): nat
    decreases |ops|
  {
    if ops == [] then 0
    else
      var o := Step(a, ops[0]);
      (if Rejected(o.status) then 0 else 1) + Accepted(o.acct, ops[1..])
  }

  /** Identity, PIN and the log so far are kept; the log grows by at most one. */
  predicate Extends(a: AccountState, b: AccountState) {
    b.number == a.number && b.firstName == a.firstName && b.lastName == a.lastName &&
    b.pin == a.pin && |a.log| <= |b.log| && b.log[..|a.log|] == a.log
  }

  // ---------------------------------------------------------------------
  // Deposit and withdrawal

  /** A locked account turns deposits and withdrawals away unchanged,
      whatever the amount. */
  lemma LockedRejectsMoney(a: AccountState, amount: real, desc: string)
    requires a.locked
    ensures Deposit(a, amount, desc) == Outcome(a, AccountLocked)
    ensures Withdraw(a, amount, desc) == Outcome(a, AccountLocked)
  {
  }

  /** On an unlocked account a non-positive amount is turned away unchanged. */
  lemma NonPositiveRejected(a: AccountState, amount: real, desc: string)
    requires !a.locked && amount <= 0.0
    ensures Deposit(a, amount, desc) == Outcome(a, AmountNotPositive)
    ensures Withdraw(a, amount, desc) == Outcome(a, AmountNotPositive)
  {
  }

  /** A deposit succeeds exactly when the account is unlocked and the amount
      positive; it then adds the amount and logs one Income entry holding
      the new balance. */
  lemma DepositEffect(a: AccountState, amount: real, desc: string)
    ensures var o := Deposit(a, amount, desc);
      o.status.Deposited? <==> !a.locked && amount > 0.0
    ensures var o := Deposit(a, amount, desc);
      o.status.Deposited? ==>
        o.acct == a.(balance := a.balance + amount,
                     log := a.log + [Income(amount, desc, a.balance + amount)]) &&
        o.status == Deposited(amount, a.balance + amount)
  {
  }

  /** A withdrawal succeeds exactly when the account is unlocked and
      0 < amount <= balance; it then subtracts the amount and logs one
      Expense entry holding the new balance. */
  lemma WithdrawEffect(a: AccountState, amount: real, desc: string)
    ensures var o := Withdraw(a, amount, desc);
      o.status.Withdrawn? <==> !a.locked && 0.0 < amount <= a.balance
    ensures var o := Withdraw(a, amount, desc);
      o.status.Withdrawn? ==>
        o.acct == a.(balance := a.balance - amount,
                     log := a.log + [Expense(amount, desc, a.balance - amount)]) &&
        o.status == Withdrawn(amount, a.balance - amount)
  {
  }

  /** Withdrawing more than the balance from an unlocked account is refused
      and changes nothing. */
  lemma InsufficientFundsRejected(a: AccountState, amount: real, desc: string)
    requires !a.locked && amount > 0.0 && amount > a.balance
    ensures Withdraw(a, amount, desc) == Outcome(a, InsufficientFunds)
  {
  }

  /** A non-negative balance stays non-negative across a withdrawal. */
  lemma WithdrawKeepsNonNegative(a: AccountState, amount: real, desc: string)
    requires a.balance >= 0.0
    ensures Withdraw(a, amount, desc).acct.balance >= 0.0
  {
  }

  /** Depositing a positive amount and withdrawing it again restores the
      balance and logs exactly those two entries. The balance before must be
      non-negative: otherwise the withdrawal exceeds the raised balance. */
  lemma DepositThenWithdrawRestores(a: AccountState, amount: real, d1: string, d2: string)
    requires !a.locked && amount > 0.0 && a.balance >= 0.0
    ensures var b := Deposit(a, amount, d1).acct;
      var c := Withdraw(b, amount, d2);
      c.status == Withdrawn(amount, a.balance) &&
      c.acct == a.(log := a.log + [Income(amount, d1, a.balance + amount), Expense(amount, d2, a.balance)])
  {
  }

  /** The restore fails on a negative balance: the withdrawal is refused. */
  lemma DepositThenWithdrawNegative(a: AccountState, amount: real, d1: string, d2: string)
    requires !a.locked && amount > 0.0 && a.balance < 0.0
    ensures var b := Deposit(a, amount, d1).acct;
      Withdraw(b, amount, d2) == Outcome(b, InsufficientFunds) && b.balance != a.balance
  {
  }

  // ---------------------------------------------------------------------
  // Lock and unlock

  /** Locking a locked account changes nothing; locking an unlocked one sets
      the flag and logs one notice. Hence locking twice equals locking once. */
  lemma LockIdempotent(a: AccountState)
    ensures a.locked ==> Lock(a) == Outcome(a, AlreadyLocked)
    ensures !a.locked ==> Lock(a) == Outcome(a.(locked := true, log := a.log + [NoticeLocked]), LockedNow)
    ensures Lock(Lock(a).acct) == Outcome(Lock(a).acct, AlreadyLocked)
  {
  }

  /** Unlocking: an unlocked account is left alone; the right PIN clears the
      flag and logs one notice; a wrong PIN keeps the flag and logs one
      attempt entry, which carries no data (so never the PIN). */
  lemma UnlockEffect(a: AccountState, attempt: string)
    ensures !a.locked ==> Unlock(a, attempt) == Outcome(a, AlreadyUnlocked)
    ensures a.locked && attempt == a.pin ==>
      Unlock(a, attempt) == Outcome(a.(locked := false, log := a.log + [NoticeUnlocked]), UnlockedNow)
    ensures a.locked && attempt != a.pin ==>
      Unlock(a, attempt) == Outcome(a.(log := a.log + [FailedAttempt]), WrongPin)
  {
  }

  // ---------------------------------------------------------------------
  // Every operation

  /** Every call either is rejected and leaves the account exactly as it
      was, or appends exactly one log entry; identity and PIN never change
      and the old log is always a prefix of the new one. */
  lemma StepAtomic(a: AccountState, op: Op)
    ensures var o := Step(a, op);
      Extends(a, o.acct) &&
      (Rejected(o.status) <==> o.acct == a) &&
      (!Rejected(o.status) <==> |o.acct.log| == |a.log| + 1)
  {
  }

  /** Only deposits and withdrawals move the balance; only lock and
      unlock move the flag. */
  lemma StepSeparation(a: AccountState, op: Op)
    ensures (op.LockOp? || op.UnlockOp?) ==> Step(a, op).acct.balance == a.balance
    ensures (op.DepositOp? || op.WithdrawOp?) ==> Step(a, op).acct.locked == a.locked
  {
  }

  /** Over any sequence of calls the log only grows at its end, and by
      exactly the number of calls that were not rejected (successful
      deposits, withdrawals, locks and unlocks, plus wrong-PIN attempts). */
  lemma {:induction false} RunAppendOnly(a: AccountState, ops: seq<Op>)
    ensures var r := Run(a, ops);
      Extends(a, r) && |r.log| == |a.log| + Accepted(a, ops)
    decreases |ops|
  {
    if ops != [] {
      var b := Step(a, ops[0]).acct;
      StepAtomic(a, ops[0]);
      RunAppendOnly(b, ops[1..]);
      var r := Run(b, ops[1..]);
      assert r.log[..|a.log|] == r.log[..|b.log|][..|a.log|];
    }
  }

  /** An account that starts with a non-negative balance never goes below
      zero, whatever sequence of calls is made. */
  lemma {:induction false} RunKeepsNonNegative(a: AccountState, ops: seq<Op>)
    requires a.balance >= 0.0
    ensures Run(a, ops).balance >= 0.0
    decreases |ops|
  {
    if ops != [] {
      var o := Step(a, ops[0]);
      assert o.acct.balance >= 0.0 by {
        match ops[0]
        case WithdrawOp(amount, desc) => WithdrawKeepsNonNegative(a, amount, desc);
        case _ =>
      }
      RunKeepsNonNegative(o.acct, ops[1..]);
    }
  }

  /** Once locked, an account stays locked and its balance is frozen until
      an unlock with the right PIN: deposits and withdrawals are all
      refused. */
  lemma {:induction false} LockedFreezesBalance(a: AccountState, ops: seq<Op>)
    requires a.locked
    requires forall i :: 0 <= i < |ops| ==> ops[i] != UnlockOp(a.pin)
    ensures Run(a, ops).locked && Run(a, ops).balance == a.balance
    decreases |ops|
  {
    if ops != [] {
      var b := Step(a, ops[0]).acct;
      assert b.locked && b.balance == a.balance && b.pin == a.pin;
      assert forall i :: 0 <= i < |ops[1..]| ==> ops[1..][i] == ops[i + 1];
      LockedFreezesBalance(b, ops[1..]);
    }
  }
}
