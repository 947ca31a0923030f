/** The sequence of calls the entry point of useTypescriptFunctions.ts makes,
    with each value it would write to the console returned instead. */
module Scenario {
  import opened Types

  /** Fetch user 1, greet them, compute an area, then deposit 50 into and
      withdraw 30 from an account opened with 100, sync it and read the status. */
  method MainTrace() returns (greeting: string, area: int, deposited: Outcome, success: bool,
                              balance: int, syncMessage: string, status: string, valid: bool)
    ensures greeting == "Hello, John Doe!"
    ensures area == 20
    ensures deposited == Done
    ensures success && balance == 120
    ensures syncMessage == "Balance synced for John Doe"
    ensures status == "active"
    ensures valid
  {
    var user := FetchedUser(1);
    greeting := GreetUser(user);
    area := CalculateArea(5, 4);
    var account := CreateAccount(user, 100);
    deposited := account.Deposit(50);
    if deposited.Failed? {
      // `main` would stop here: the thrown error goes to its catch handler.
      return;
    }
    success := account.Withdraw(30);
    balance := account.GetBalance();
    syncMessage := account.SyncWithBank();
    status := ResolvedStatus().Label();
    valid := Account.IsValidUser(user);
  }

  /** Withdrawing 50 from an account opened with 20 is refused and keeps the 20. */
  method InsufficientFundsTrace() returns (success: bool, balance: int)
    ensures !success && balance == 20
  {
    var account := CreateAccount(FetchedUser(1), 20);
    success := account.Withdraw(50);
    balance := account.GetBalance();
  }
}
