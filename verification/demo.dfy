/**
  The demonstration run of the program's driver, stated as facts about the
  model: a checking account for John Doe and a savings account for Jane
  Smith are registered, John's account is looked up, credited and debited,
  and the monthly updates are applied.
*/
module Demo {
  import opened Wrappers
  import opened Accounts
  import opened Ledger

  /** The driver's sequence of calls, ending with the bank after the monthly
      updates. */
  lemma DriverRun()
    ensures OpenChecking("CH001", "John Doe", 500.0).Success?
    ensures OpenSavings("SV001", "Jane Smith", 1000.0).Success?
    ensures var john := OpenChecking("CH001", "John Doe", 500.0).value;
            var jane := OpenSavings("SV001", "Jane Smith", 1000.0).value;
            var bank := AddAccount(AddAccount([], john), jane);
            && FindAccount(bank, "CH001") == Some(0)
            && Deposit(bank[0], 200.0).Success?
            && Deposit(bank[0], 200.0).value.balance == 700.0
            && Withdraw(Deposit(bank[0], 200.0).value, 50.0).Success?
            && Withdraw(Deposit(bank[0], 200.0).value, 50.0).value.done
            && var changed := Withdraw(Deposit(bank[0], 200.0).value, 50.0).value.account;
               && changed.balance == 650.0
               && var after := ProcessMonthlyUpdates(Replace(bank, 0, changed));
                  && |after| == 2
                  && after[0].number == "CH001" && after[0].balance == 640.0
                  && after[1].number == "SV001" && after[1].balance == 1050.0
  {
    var john := OpenChecking("CH001", "John Doe", 500.0).value;
    var jane := OpenSavings("SV001", "Jane Smith", 1000.0).value;
    var bank := AddAccount(AddAccount([], john), jane);
    assert bank[0].number == "CH001";
    var deposited := Deposit(bank[0], 200.0).value;
    var changed := Withdraw(deposited, 50.0).value.account;
    var after := ProcessMonthlyUpdates(Replace(bank, 0, changed));
    assert after[0] == MonthlyUpdate(changed);
    assert after[1] == MonthlyUpdate(jane);
  }

  /** Opening a savings account with 50 is refused for the minimum, and with a
      negative amount for the sign, whatever the holder. */
  lemma SavingsOpeningRefusals(holder: string)
    ensures OpenSavings("SV002", holder, 50.0) == Failure(BelowMinimumBalance)
    ensures OpenSavings("SV002", holder, -50.0) == Failure(NegativeInitialBalance)
    ensures OpenChecking("CH002", holder, 50.0).Success?
  {
  }
}
