# Personal finance account (`Finansije`) in Dafny

A model of the in-memory bank account of the "Lični finansijski alat" page
(class `Finansije`, `script.js`). The account holds a balance (`stanje`), a
lock flag (`zakljucan`), a PIN, an account number, a first and a last name,
and an append-only transaction log (`transakcije`). It supports:

- deposit (`prihod`)
- withdrawal (`rashod`)
- lock (`zakljucajRacun`)
- unlock with a PIN (`otkljucajRacun`)
- listing the log (`prikaziTransakcije`)

Every operation either applies in full or changes nothing, and returns a
status message.

- `ledger.dfy`, module `Ledger`, is the value-level model. It defines:
  - the log entries (`Entry`)
  - the status messages (`Status`)
  - the account state (`AccountState`)
  - each operation as a function from the old state to an `Outcome`
  - `Run`, which performs a sequence of calls in order

  The lemmas in this module state what the operations promise.
- `account.dfy`, module `Bank`, holds the class `Account`.
  - Identity and PIN are `const` fields, so nothing can change them after
    construction.
  - Balance, lock flag and log are fields that the methods update in place.
  - Each method's `ensures` clause equates the new state and the returned
    status with the corresponding `Ledger` function applied to the old state.
    The lemmas about those functions therefore hold of the object.
  - `Walkthrough` is a client that replays the documented session: create
    with 1000 and PIN "1234", deposit 500, overdraw, lock, deposit while
    locked, then a wrong PIN and the right one. It proves the expected balance,
    flag and log from the method contracts alone.

Status constructors and the messages they stand for (`script.js:62-105`):

| constructor | message |
|---|---|
| `AccountLocked` | Račun je zaključan! |
| `AmountNotPositive` | Iznos mora biti veći od nule. |
| `InsufficientFunds` | Nedovoljno sredstava! |
| `Deposited(amount, newBalance)` | Uspešno dodat prihod: +amount RSD. Novo stanje: newBalance RSD. |
| `Withdrawn(amount, newBalance)` | Uspešno skinuto amount RSD. Novo stanje: newBalance RSD. |
| `AlreadyLocked` | Račun je već zaključan. |
| `LockedNow` | Račun je zaključan. |
| `AlreadyUnlocked` | Račun je već otključan. |
| `UnlockedNow` | Račun je uspešno otključan. |
| `WrongPin` | Neispravan PIN! Pokušaj ponovo. |

The log entries correspond to the source's messages like this:

- `Income` is `[PRIHOD]`.
- `Expense` is `[RASHOD]`.
- `NoticeLocked` and `NoticeUnlocked` are the two `[OBAVEŠTENJE]` lines.
- `FailedAttempt` is `[POKUŠAJ]`.

`Income` and `Expense` keep the amount, the description and the new balance
that the source writes into the text.

## Model

| member | source | states |
|---|---|---|
| `Bank.Account.constructor` | script.js:48-58 | stores number, names, balance and PIN; the account starts unlocked with an empty log |
| `Bank.Account.Deposit` | script.js:60-69 | new state and status are exactly those of `Ledger.Deposit` on the old state (default description "Uplata") |
| `Bank.Account.Withdraw` | script.js:71-81 | new state and status are exactly those of `Ledger.Withdraw` on the old state (default description "Isplata") |
| `Bank.Account.Lock` | script.js:83-91 | new state and status are exactly those of `Ledger.Lock` on the old state |
| `Bank.Account.Unlock` | script.js:93-108 | new state and status are exactly those of `Ledger.Unlock` on the old state |
| `Bank.Account.ListTransactions` | script.js:110-115 | changes nothing; returns just the placeholder when the log is empty, otherwise one line per log entry in log order |
| `Ledger.LockedRejectsMoney` | script.js:62 | on a locked account, a deposit or a withdrawal of any amount returns the locked status and leaves the account unchanged; this check comes before the amount check |
| `Ledger.NonPositiveRejected` | script.js:63-74 | on an unlocked account, a deposit or a withdrawal of an amount ≤ 0 returns the invalid-amount status and leaves the account unchanged |
| `Ledger.DepositEffect` | script.js:60-69 | a deposit succeeds iff the account is unlocked and the amount is positive; on success the balance rises by exactly the amount, one Income entry with the new balance is appended, nothing else changes |
| `Ledger.WithdrawEffect` | script.js:71-81 | a withdrawal succeeds iff the account is unlocked and 0 < amount ≤ balance; on success the balance drops by exactly the amount, one Expense entry with the new balance is appended, nothing else changes |
| `Ledger.InsufficientFundsRejected` | script.js:75 | on an unlocked account, withdrawing a positive amount larger than the balance returns insufficient funds and changes nothing |
| `Ledger.WithdrawKeepsNonNegative` | script.js:75-77 | a non-negative balance is still non-negative after a withdrawal |
| `Ledger.DepositThenWithdrawRestores` | script.js:65-78 | on an unlocked account with a non-negative balance, depositing and then withdrawing the same positive amount restores the balance and logs exactly the Income and Expense entries |
| `Ledger.DepositThenWithdrawNegative` | script.js:75 | with a negative balance, the withdrawal that follows a deposit is refused, so the balance is not restored |
| `Ledger.LockIdempotent` | script.js:83-91 | locking a locked account returns "already locked" and changes nothing; otherwise it sets the flag and appends one notice; locking twice equals locking once |
| `Ledger.UnlockEffect` | script.js:93-108 | an unlocked account is left unchanged with "already unlocked"; the right PIN clears the flag and appends one notice; a wrong PIN keeps the flag and appends one data-free attempt entry |
| `Ledger.StepAtomic` | script.js:48-108 | for every call: identity and PIN are unchanged; the old log is a prefix of the new one; the account is unchanged iff the call was rejected; otherwise exactly one entry is appended |
| `Ledger.StepSeparation` | script.js:60-108 | lock and unlock never move the balance; deposit and withdraw never move the lock flag |
| `Ledger.RunAppendOnly` | script.js:48-108 | after any sequence of calls, identity and PIN are unchanged, the old log is a prefix, and the log has grown by the number of calls not rejected (wrong-PIN attempts included) |
| `Ledger.RunKeepsNonNegative` | script.js:71-81 | an account that starts with a non-negative balance never drops below zero |
| `Ledger.LockedFreezesBalance` | script.js:62-105 | a locked account stays locked, with its balance unchanged, through any sequence of calls that contains no unlock with the right PIN |

## Left out

- The section navigation driven by URL fragments (`script.js:1-44`) is DOM and `history` code.
- The click handlers and the global `racun` object (`script.js:118-277`) are not modelled. They cover DOM lookups, `alert` and `parseFloat`. This includes the account-creation form's checks: all fields present, and a PIN of 4 characters that `isNaN` accepts. The constructor takes any strings, as the class itself does.
- The savings and loan calculators (`script.js:166-246`) are floating-point formulas built on `Math.pow` and `Math.log`, with `toFixed(2)` rounding for display.
- Balances and amounts are exact `real` numbers, not JavaScript doubles. As a result, NaN amounts are not modelled. With doubles, a NaN amount passes the `iznos <= 0` guard.
- Status and log messages are constructors that carry their data. The model does not format their template strings.
- `Bank.Account.ListTransactions` returns a copy of the log. The source returns the live `transakcije` array, which a caller could modify. That aliasing is not modelled.
- `Ledger.DepositThenWithdrawRestores` needs a non-negative balance before the deposit. The account can start with a negative balance, and then the withdrawal is refused. `Ledger.DepositThenWithdrawNegative` states that case.
