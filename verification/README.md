# Bank account simulation — Dafny model

This project models the core of a small C++ banking simulation (`bankSim.cpp`).
It covers the account hierarchy and the bank that holds the accounts:

- **Base account.** Construction refuses a negative opening balance. `deposit` refuses amounts that are not positive. The no-overdraft `withdraw` refuses amounts that are not positive, answers `false` when funds are short, and otherwise debits.
- **Checking account.** Withdrawals may overdraw down to −100. A flat monthly fee of 10 is charged only when the balance covers it.
- **Savings account.** The opening balance must be at least 100. Withdrawal is the base one. Monthly interest is 5%.
- **Bank.** An ordered collection of accounts. `addAccount` appends. `findAccount` returns the first account with a given number. `processMonthlyUpdates` applies each account's monthly adjustment in registration order.

Accounts are immutable values (`Accounts.Account`, with a `Kind` of `Checking` or `Savings`). Every operation returns the account as it is afterwards.

A raised `BankingException` becomes `Failure(e)`, where `e` is one of three errors:

- `InvalidAmount`
- `NegativeInitialBalance`
- `BelowMinimumBalance`

Insufficient funds is a designed outcome, not an error: the withdrawal succeeds with `done == false` and the account unchanged.

Balances are exact reals, so 5% interest is exact.

The bank is a `seq<Account>`. `findAccount` returns an `Option<nat>` position instead of a pointer. A client that changes the account through that handle writes the new value back at the same position (`Ledger.Replace`).

`Accounts.Valid` is the balance invariant: a savings balance is at least 0, and a checking balance is at least −100. `Accounts.Run` applies any sequence of deposits, withdrawals and monthly adjustments. A call that raises leaves the account as it was, because no operation changes the balance before it throws.

Modules:

- `Wrappers`: `Option` and `Result`.
- `Accounts`: the hierarchy, its constants and the lifetime invariants.
- `Ledger`: the `Bank` class.
- `Demo`: the driver's run, stated as a lemma.

## Model

| member | source | states |
|---|---|---|
| Accounts.OpenAccount | bankSim.cpp:24-33 | succeeds exactly when the opening balance is non-negative, else `NegativeInitialBalance`; the account carries the given number, holder, balance and kind |
| Accounts.OpenChecking | bankSim.cpp:80-83 | a checking account opens exactly when the balance is non-negative and starts valid, with the given identity and balance |
| Accounts.OpenSavings | bankSim.cpp:119-127 | opens exactly when the balance is at least 100; a negative balance reports `NegativeInitialBalance` (base check first), 0 to under 100 reports `BelowMinimumBalance` |
| Accounts.Deposit | bankSim.cpp:42-47 | an error exactly when the amount is not positive; otherwise number, holder and kind are kept and the balance rises by exactly the amount |
| Accounts.BaseWithdraw | bankSim.cpp:49-58 | error exactly for a non-positive amount; `true` exactly when amount ≤ balance, debiting exactly the amount and leaving the balance ≥ 0; on `false` the account is unchanged |
| Accounts.CheckingWithdraw | bankSim.cpp:85-97 | error exactly for a non-positive amount; `true` exactly when amount ≤ balance + 100, debiting exactly the amount and leaving the balance ≥ −100; on `false` the account is unchanged |
| Accounts.Withdraw | bankSim.cpp:49-97 | for either kind, granted exactly when the balance after the debit stays at or above that kind's floor; a granted withdrawal keeps the account valid |
| Accounts.ChargeMonthlyFee | bankSim.cpp:99-103 | with balance ≥ 10 the balance drops by exactly 10, otherwise the account is unchanged; a charged balance is never negative and never rises |
| Accounts.AddMonthlyInterest | bankSim.cpp:129-132 | the balance grows by exactly 5% of itself; a non-negative balance never decreases and stays non-negative |
| Accounts.MonthlyUpdate | bankSim.cpp:99-132 | the monthly adjustment keeps identity and validity; a checking account is charged exactly the fee when its balance is at least 10 and is otherwise unchanged; a savings balance grows by exactly the interest |
| Accounts.Step | bankSim.cpp:42-132 | any single call keeps number, holder and kind and preserves validity; a call with a non-positive amount changes nothing |
| Accounts.RunInOrder | bankSim.cpp:188-201 | a sequence of calls on one account takes effect in the order made: one more call acts on the account the earlier calls left |
| Accounts.RunKeepsValid | bankSim.cpp:42-132 | any sequence of calls on a valid account leaves it valid and with the same identity |
| Accounts.LifetimeFloors | bankSim.cpp:24-131 | after a successful opening, no sequence of calls takes a savings balance below 0 or a checking balance below −100 |
| Accounts.DepositThenWithdraw | bankSim.cpp:42-97 | on a valid account, depositing then withdrawing the same positive amount is granted and restores the account |
| Accounts.WithdrawThenDeposit | bankSim.cpp:42-97 | a granted withdrawal is undone exactly by depositing the same amount |
| Accounts.CheckingAllowsAtLeastBase | bankSim.cpp:49-97 | the checking override raises the same errors as the base withdrawal and grants every withdrawal the base one grants, with the same result |
| Ledger.AddAccount | bankSim.cpp:148-150 | the new account is last, every existing account keeps its position, and validity of all accounts is preserved |
| Ledger.FindFrom | bankSim.cpp:153-160 | the scan from a position returns the first matching position at or after it, or none exactly when nothing from there matches |
| Ledger.FindAccount | bankSim.cpp:153-160 | returns the lowest position whose number matches, or none exactly when no account matches |
| Ledger.Replace | bankSim.cpp:188-194 | writing back a changed account through its handle changes that position only |
| Ledger.ProcessMonthlyUpdates | bankSim.cpp:163-167 | same length and order; position i becomes that account's own monthly adjustment, keeping its number, holder and kind; validity of all accounts is preserved |
| Ledger.FindAfterAdd | bankSim.cpp:148-160 | adding an account never changes an existing lookup (a duplicate number is shadowed); a number absent before finds the new account exactly when it carries that number |
| Ledger.FindSeesOnlyNumbers | bankSim.cpp:153-160 | lookup depends only on the account numbers in order |
| Ledger.HandleSeesChanges | bankSim.cpp:153-160 | after a change through a handle, looking the number up again finds the same position holding the changed account |
| Ledger.FindAfterMonthlyUpdates | bankSim.cpp:153-167 | monthly processing leaves every lookup's answer unchanged |
| Demo.DriverRun | bankSim.cpp:184-201 | the driver's run: John's checking 500 → 700 → 650 → 640 and Jane's savings 1000 → 1050, with John found at position 0 |
| Demo.SavingsOpeningRefusals | bankSim.cpp:119-127 | a savings opening of 50 fails with `BelowMinimumBalance` and one of −50 with `NegativeInitialBalance` |

## Left out

- `displayAccountInfo` and `displayAllAccounts` (bankSim.cpp:66-70, 105-109, 134-138, 170-175) are left out. They only write formatted text to standard output.
- `main`'s try/catch and its messages on the error stream (bankSim.cpp:179-214) are left out. Only the sequence of calls the driver makes is modelled, in `Demo.DriverRun`.
- `BankingException` and its message strings are replaced by the `BankingError` datatype. The text of the messages is not modelled.
- IEEE `double` arithmetic is left out. Balances are exact reals, so rounding, NaN and infinities are not modelled.
- `unique_ptr` ownership and raw-pointer aliasing are left out. An account is named by its position in the bank, and a change through that handle is written back with `Ledger.Replace`.
- The getters (bankSim.cpp:61-63) are the datatype's fields, `number`, `holder` and `balance`.
- The default argument `initialBalance = 0.0` is not a separate case. A caller passes `0.0`, which opens a checking account and is refused for a savings account with `BelowMinimumBalance`.
- The minimum savings balance constrains only the opening, as in the code. A later withdrawal may take a savings balance anywhere down to 0.
- A checking balance may be negative: bankSim.cpp:85-97 lets a withdrawal take it down to −100, and the model follows the code.
