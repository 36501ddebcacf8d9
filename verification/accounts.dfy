/**
  The account hierarchy: a shared base (construction, deposit, no-overdraft
  withdrawal) and its two variants, Checking (overdraft allowance, flat monthly
  fee) and Savings (minimum opening balance, monthly interest).

  Accounts are immutable values; every operation returns the account as it is
  afterwards. A raised exception becomes `Failure(e)`, and a refused
  withdrawal (insufficient funds) is an ordinary outcome, `done == false`.
  Balances are exact reals.
*/
module Accounts {
  import opened Wrappers

  /** Charged to a checking account each month, when the balance covers it. */
  const MonthlyFee: real := 10.0
  /** How far below zero a checking withdrawal may take the balance. */
  const OverdraftLimit: real := 100.0
  /** Monthly interest credited to a savings account. */
  const InterestRate: real := 0.05
  /** The least opening balance of a savings account. */
  const MinimumBalance: real := 100.0

  datatype Kind = Checking | Savings

  datatype Account = Account(number: string, holder: string, balance: real, kind: Kind)

  /** The failures the program raises as exceptions. */
  datatype BankingError = InvalidAmount | NegativeInitialBalance | BelowMinimumBalance

  /** What a withdrawal answers (`done`) together with the account afterwards. */
  datatype Withdrawal = Withdrawal(done: bool, account: Account)

  /** The lowest balance an account of kind `k` may be left with by a withdrawal. */
  function Floor(k: Kind): (r: real)
    ensures r <= 0.0
  {
    match k
    case Checking => -OverdraftLimit
    case Savings => 0.0
  }

  /** The balance invariant every operation keeps. */
  predicate Valid(a: Account) {
    a.balance >= Floor(a.kind)
  }

  /** Same variant, number and holder: everything but the balance. */
  predicate SameIdentity(a: Account, b: Account) {
    a.number == b.number && a.holder == b.holder && a.kind == b.kind
  }

  // ---------------------------------------------------------------- construction

  /** The base-class constructor step: a negative opening balance is refused.
      The base class is abstract, so this is never a complete opening on its
      own; it is the first check `OpenChecking` and `OpenSavings` run. */
  function OpenAccount(kind: Kind, number: string, holder: string, initial: real): (r: Result<Account, BankingError>)
    ensures r.Success? <==> initial >= 0.0
    ensures r.Failure? ==> r.error == NegativeInitialBalance
    ensures r.Success? ==>
              && r.value.number == number && r.value.holder == holder
              && r.value.balance == initial && r.value.kind == kind
  {
    if initial < 0.0 then Failure(NegativeInitialBalance)
    else Success(Account(number, holder, initial, kind))
  }

  function OpenChecking(number: string, holder: string, initial: real): (r: Result<Account, BankingError>)
    ensures r.Success? <==> initial >= 0.0
    ensures r.Failure? ==> r.error == NegativeInitialBalance
    ensures r.Success? ==>
              && r.value.number == number && r.value.holder == holder
              && r.value.balance == initial && r.value.kind == Checking
    ensures r.Success? ==> Valid(r.value) && r.value.balance >= 0.0
  {
    OpenAccount(Checking, number, holder, initial)
  }

  /** The base check runs first, so a negative balance reports
      `NegativeInitialBalance`, not `BelowMinimumBalance`. */
  function OpenSavings(number: string, holder: string, initial: real): (r: Result<Account, BankingError>)
    ensures r.Success? <==> initial >= MinimumBalance
    ensures initial < 0.0 ==> r == Failure(NegativeInitialBalance)
    ensures 0.0 <= initial < MinimumBalance ==> r == Failure(BelowMinimumBalance)
    ensures r.Success? ==>
              && r.value.number == number && r.value.holder == holder
              && r.value.balance == initial && r.value.kind == Savings
    ensures r.Success? ==> Valid(r.value)
  {
    match OpenAccount(Savings, number, holder, initial)
    case Failure(e) => Failure(e)
    case Success(a) =>
      if initial < MinimumBalance then Failure(BelowMinimumBalance) else Success(a)
  }

  // ---------------------------------------------------------------- deposit

  function Deposit(a: Account, amount: real): (r: Result<Account, BankingError>)
    ensures r.Success? <==> amount > 0.0
    ensures r.Failure? ==> r.error == InvalidAmount
    ensures r.Success? ==> SameIdentity(a, r.value) && r.value.balance - a.balance == amount
    ensures r.Success? && Valid(a) ==> Valid(r.value) && r.value.balance > a.balance
  {
    if amount <= 0.0 then Failure(InvalidAmount)
    else Success(a.(balance := a.balance + amount))
  }

  // ---------------------------------------------------------------- withdrawal

  /** The base-class withdrawal, inherited by savings accounts: no overdraft. */
  function BaseWithdraw(a: Account, amount: real): (r: Result<Withdrawal, BankingError>)
    ensures r.Success? <==> amount > 0.0
    ensures r.Failure? ==> r.error == InvalidAmount
    ensures r.Success? ==> (r.value.done <==> amount <= a.balance)
    ensures r.Success? && !r.value.done ==> r.value.account == a
    ensures r.Success? && r.value.done ==>
              SameIdentity(a, r.value.account)
              && a.balance - r.value.account.balance == amount
              && r.value.account.balance >= 0.0
  {
    if amount <= 0.0 then Failure(InvalidAmount)
    else if amount > a.balance then Success(Withdrawal(false, a))
    else Success(Withdrawal(true, a.(balance := a.balance - amount)))
  }

  /** The checking override: the balance may go down to minus the overdraft limit. */
  function CheckingWithdraw(a: Account, amount: real): (r: Result<Withdrawal, BankingError>)
    requires a.kind == Checking
    ensures r.Success? <==> amount > 0.0
    ensures r.Failure? ==> r.error == InvalidAmount
    ensures r.Success? ==> (r.value.done <==> amount <= a.balance + OverdraftLimit)
    ensures r.Success? && !r.value.done ==> r.value.account == a
    ensures r.Success? && r.value.done ==>
              SameIdentity(a, r.value.account)
              && a.balance - r.value.account.balance == amount
              && r.value.account.balance >= -OverdraftLimit
  {
    if amount <= 0.0 then Failure(InvalidAmount)
    else if amount > a.balance + OverdraftLimit then Success(Withdrawal(false, a))
    else Success(Withdrawal(true, a.(balance := a.balance - amount)))
  }

  /** Virtual dispatch of `withdraw`: both variants succeed exactly when the
      amount keeps the balance at or above the variant's floor. */
  function Withdraw(a: Account, amount: real): (r: Result<Withdrawal, BankingError>)
    ensures r.Success? <==> amount > 0.0
    ensures r.Failure? ==> r.error == InvalidAmount
    ensures r.Success? ==> (r.value.done <==> a.balance - amount >= Floor(a.kind))
    ensures r.Success? && !r.value.done ==> r.value.account == a
    ensures r.Success? && r.value.done ==>
              SameIdentity(a, r.value.account)
              && a.balance - r.value.account.balance == amount
              && Valid(r.value.account)
  {
    match a.kind
    case Checking => CheckingWithdraw(a, amount)
    case Savings => BaseWithdraw(a, amount)
  }

  // ---------------------------------------------------------------- monthly adjustment

  /** The checking fee: charged in full when the balance covers it, else waived. */
  function ChargeMonthlyFee(a: Account): (r: Account)
    requires a.kind == Checking
    ensures SameIdentity(a, r)
    ensures a.balance >= MonthlyFee ==> a.balance - r.balance == MonthlyFee
    ensures a.balance < MonthlyFee ==> r == a
    ensures r.balance < 0.0 ==> r == a
    ensures r.balance <= a.balance
  {
    if a.balance >= MonthlyFee then a.(balance := a.balance - MonthlyFee) else a
  }

  /** Savings interest: the balance grows by `InterestRate` of itself. */
  function AddMonthlyInterest(a: Account): (r: Account)
    requires a.kind == Savings
    ensures SameIdentity(a, r)
    ensures r.balance - a.balance == a.balance * InterestRate
    ensures a.balance >= 0.0 ==> r.balance >= a.balance
    ensures r.balance >= 0.0 <==> a.balance >= 0.0
  {
    a.(balance := a.balance + a.balance * InterestRate)
  }

  /** Virtual dispatch of `applyMonthlyFee`. */
  function MonthlyUpdate(a: Account): (r: Account)
    ensures SameIdentity(a, r)
    ensures Valid(a) ==> Valid(r)
    ensures a.kind == Checking ==>
              && (a.balance >= MonthlyFee ==> a.balance - r.balance == MonthlyFee)
              && (a.balance < MonthlyFee ==> r == a)
    ensures a.kind == Savings ==> r.balance - a.balance == a.balance * InterestRate
  {
    match a.kind
    case Checking => ChargeMonthlyFee(a)
    case Savings => AddMonthlyInterest(a)
  }

  // ---------------------------------------------------------------- lifetimes

  /** One call a client can make on an account. */
  datatype Op = DepositOp(amount: real) | WithdrawOp(amount: real) | MonthlyOp

  /** The account after one call; a call that raises leaves the account as it was. */
  function Step(a: Account, op: Op): (r: Account)
    ensures SameIdentity(a, r)
    ensures Valid(a) ==> Valid(r)
    ensures op.DepositOp? || op.WithdrawOp? ==> (op.amount <= 0.0 ==> r == a)
  {
    match op
    case DepositOp(amount) =>
      (match Deposit(a, amount)
       case Success(b) => b
       case Failure(_) => a)
    case WithdrawOp(amount) =>
      (match Withdraw(a, amount)
       case Success(w) => w.account
       case Failure(_) => a)
    case MonthlyOp => MonthlyUpdate(a)
  }

  /** The account after a whole sequence of calls, in order. */
  function Run(a: Account, ops: seq<Op>): (r: Account)
    decreases |ops|
  {
    if |ops| == 0 then a else Run(Step(a, ops[0]), ops[1..])
  }

  /** Calls take effect in the order they are made: running one more call
      applies it to the account the earlier calls left. */
  lemma {:induction false} RunInOrder(a: Account, ops: seq<Op>, op: Op)
    ensures Run(a, ops + [op]) == Step(Run(a, ops), op)
    decreases |ops|
  {
    if |ops| == 0 {
      assert ops + [op] == [op];
    } else {
      assert (ops + [op])[0] == ops[0];
      assert (ops + [op])[1..] == ops[1..] + [op];
      RunInOrder(Step(a, ops[0]), ops[1..], op);
    }
  }

  lemma {:induction false} RunKeepsValid(a: Account, ops: seq<Op>)
    requires Valid(a)
    ensures Valid(Run(a, ops))
    ensures SameIdentity(a, Run(a, ops))
    decreases |ops|
  {
    if |ops| > 0 {
      RunKeepsValid(Step(a, ops[0]), ops[1..]);
    }
  }

  /** After a valid opening, no sequence of calls takes a savings balance below
      zero or a checking balance below minus the overdraft limit. */
  lemma {:induction false} LifetimeFloors(number: string, holder: string, initial: real, ops: seq<Op>)
    ensures OpenSavings(number, holder, initial).Success? ==>
              Run(OpenSavings(number, holder, initial).value, ops).balance >= 0.0
    ensures OpenChecking(number, holder, initial).Success? ==>
              Run(OpenChecking(number, holder, initial).value, ops).balance >= -OverdraftLimit
  {
    var savings := OpenSavings(number, holder, initial);
    if savings.Success? {
      RunKeepsValid(savings.value, ops);
    }
    var checking := OpenChecking(number, holder, initial);
    if checking.Success? {
      RunKeepsValid(checking.value, ops);
    }
  }

  /** Depositing and then withdrawing the same amount gives back the account;
      the withdrawal is never refused while the account is valid. */
  lemma DepositThenWithdraw(a: Account, amount: real)
    requires Valid(a) && amount > 0.0
    ensures Deposit(a, amount).Success?
    ensures Withdraw(Deposit(a, amount).value, amount) == Success(Withdrawal(true, a))
  {
    var b := Deposit(a, amount).value;
    assert Withdraw(b, amount).value.account == a;
  }

  /** A granted withdrawal is undone by depositing the same amount. */
  lemma WithdrawThenDeposit(a: Account, amount: real)
    requires Withdraw(a, amount).Success? && Withdraw(a, amount).value.done
    ensures Deposit(Withdraw(a, amount).value.account, amount) == Success(a)
  {
    var b := Withdraw(a, amount).value.account;
    assert Deposit(b, amount).value == a;
  }

  /** The checking overdraft only widens what the base withdrawal allows. */
  lemma CheckingAllowsAtLeastBase(a: Account, amount: real)
    requires a.kind == Checking
    ensures BaseWithdraw(a, amount).Success? <==> CheckingWithdraw(a, amount).Success?
    ensures BaseWithdraw(a, amount).Success? && BaseWithdraw(a, amount).value.done ==>
              CheckingWithdraw(a, amount) == BaseWithdraw(a, amount)
  {
  }
}
