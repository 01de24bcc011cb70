/** The account object (`Finansije`) as a class: identity and PIN are
    constants fixed by the constructor, the balance, the lock flag and the
    transaction log are fields the methods update in place. Each method is
    proved to do exactly what the matching function of module Ledger says. */
module Bank {
  import opened Ledger

  /** One line of the listing: the placeholder shown for an empty log,
      or a log entry. */
  datatype Line = NoTransactions | Record(entry: Entry)

  class Account {
    const number: string
    const firstName: string
    const lastName: string
    const pin: string
    var balance: real
    var locked: bool
    var log: seq<Entry>

    /** The abstract value of this account. */
    function State(): AccountState
      reads this
    {
      AccountState(number, firstName, lastName, pin, balance, locked, log)
    }

    constructor (number: string, firstName: string, lastName: string, balance: real, pin: string)
      ensures State() == Open(number, firstName, lastName, balance, pin)
    {
      this.number := number;
      this.firstName := firstName;
      this.lastName := lastName;
      this.balance := balance;
      this.pin := pin;
      this.locked := false;
      this.log := [];
    }

    /** `prihod` */
    method Deposit(amount: real, desc: string := "Uplata") returns (status: Status)
      modifies this
      ensures Outcome(State(), status) == Ledger.Deposit(old(State()), amount, desc)
    {
      if locked { return AccountLocked; }
      if amount <= 0.0 { return AmountNotPositive; }
      balance := balance + amount;
      log := log + [Income(amount, desc, balance)];
      return Deposited(amount, balance);
    }

    /** `rashod` */
    method Withdraw(amount: real, desc: string := "Isplata") returns (status: Status)
      modifies this
      ensures Outcome(State(), status) == Ledger.Withdraw(old(State()), amount, desc)
    {
      if locked { return AccountLocked; }
      if amount <= 0.0 { return AmountNotPositive; }
      if amount > balance { return InsufficientFunds; }
      balance := balance - amount;
      log := log + [Expense(amount, desc, balance)];
      return Withdrawn(amount, balance);
    }

    /** `zakljucajRacun` */
    method Lock() returns (status: Status)
      modifies this
      ensures Outcome(State(), status) == Ledger.Lock(old(State()))
    {
      if locked { return AlreadyLocked; }
      locked := true;
      log := log + [NoticeLocked];
      return LockedNow;
    }

    /** `otkljucajRacun` */
    method Unlock(attempt: string) returns (status: Status)
      modifies this
      ensures Outcome(State(), status) == Ledger.Unlock(old(State()), attempt)
    {
      if !locked { return AlreadyUnlocked; }
      if attempt == pin {
        locked := false;
        log := log + [NoticeUnlocked];
        return UnlockedNow;
      } else {
        log := log + [FailedAttempt];
        return WrongPin;
      }
    }

    /** `prikaziTransakcije`: the placeholder alone for an empty log,
        otherwise the log entries in order. Changes nothing. */
    method ListTransactions() returns (lines: seq<Line>)
      ensures |log| == 0 ==> lines == [NoTransactions]
      ensures |log| > 0 ==> |lines| == |log| && forall i :: 0 <= i < |log| ==> lines[i] == Record(log[i])
    {
      if |log| == 0 { return [NoTransactions]; }
      lines := seq(|log|, i requires 0 <= i < |log| reads this => Record(log[i]));
    }
  }

  /** The walk-through of the account's documented behaviour: create with
      1000 and PIN "1234", deposit 500, overdraw, lock, deposit while locked,
      unlock with a wrong and then the right PIN. */
  method Walkthrough() {
    var acct := new Account("160-1", "Ana", "Anić", 1000.0, "1234");
    var s := acct.Deposit(500.0);
    assert s == Deposited(500.0, 1500.0) && acct.balance == 1500.0;
    s := acct.Withdraw(2000.0);
    assert s == InsufficientFunds && acct.balance == 1500.0;
    s := acct.Lock();
    assert s == LockedNow && acct.locked;
    s := acct.Deposit(100.0);
    assert s == AccountLocked && acct.balance == 1500.0;
    s := acct.Unlock("0000");
    assert s == WrongPin && acct.locked;
    s := acct.Unlock("1234");
    assert s == UnlockedNow && !acct.locked && acct.balance == 1500.0;
    assert acct.log == [Income(500.0, "Uplata", 1500.0), NoticeLocked, FailedAttempt, NoticeUnlocked];
    var lines := acct.ListTransactions();
    assert |lines| == 4 && lines[2] == Record(FailedAttempt);
  }
}
