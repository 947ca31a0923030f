/** The users, statuses, helper functions and the `Account` class of test.ts.
    Every TypeScript `number` is modelled as a mathematical `int`. */
module Types {
  import opened Wrappers

  // ---------------------------------------------------------------------------
  // Data model
  // ---------------------------------------------------------------------------

  /** A user record: a numeric id, a name and an optional e-mail address. */
  datatype User = User(id: int, name: string, email: Option<string>)

  /** The three labels an account status can take. */
  datatype Status = Active | Inactive | Pending {

    /** The string literal that stands for this status in the union type. */
    function Label(): (s: string)
      ensures s == "active" || s == "inactive" || s == "pending"
    {
      match this
      case Active => "active"
      case Inactive => "inactive"
      case Pending => "pending"
    }
  }

  /** The status a string literal denotes, if it is one of the three labels. */
  function StatusOf(text: string): (r: Option<Status>)
    ensures r.Some? ==> r.value.Label() == text
  {
    if text == "active" then Some(Active)
    else if text == "inactive" then Some(Inactive)
    else if text == "pending" then Some(Pending)
    else None
  }

  /** Every status is recovered from its label, so labels are distinct. */
  lemma StatusLabelRoundTrip(s: Status)
    ensures StatusOf(s.Label()) == Some(s)
  {
  }

  // ---------------------------------------------------------------------------
  // Formatted strings
  // ---------------------------------------------------------------------------

  /** What lies between `prefix` and `suffix` in `s`, if `s` has that shape. */
  function StripAffixes(s: string, prefix: string, suffix: string): (r: Option<string>)
    ensures r.Some? ==> s == prefix + r.value + suffix
  {
    if |prefix| + |suffix| <= |s| && s[..|prefix|] == prefix && s[|s| - |suffix|..] == suffix
    then Some(s[|prefix|..|s| - |suffix|])
    else None
  }

  /** Stripping the affixes a string was built with gives back its middle. */
  lemma StripAffixesOfConcat(prefix: string, middle: string, suffix: string)
    ensures StripAffixes(prefix + middle + suffix, prefix, suffix) == Some(middle)
  {
  }

  const GreetingPrefix := "Hello, "
  const GreetingSuffix := "!"

  /** The greeting for a user: it embeds exactly the user's name. */
  function GreetUser(user: User): (r: string)
    ensures StripAffixes(r, GreetingPrefix, GreetingSuffix) == Some(user.name)
  {
    StripAffixesOfConcat(GreetingPrefix, user.name, GreetingSuffix);
    GreetingPrefix + user.name + GreetingSuffix
  }

  /** Two users get the same greeting exactly when they have the same name. */
  lemma GreetingIdentifiesName(u: User, v: User)
    ensures GreetUser(u) == GreetUser(v) <==> u.name == v.name
  {
  }

  /** The area of a width-by-height rectangle; neither side is validated. */
  function CalculateArea(width: int, height: int): (r: int)
    ensures width == 0 || height == 0 ==> r == 0
    ensures width >= 0 && height >= 0 ==> r >= 0
    ensures width == 1 ==> r == height
  {
    width * height
  }

  /** The area does not depend on which side is called the width. */
  lemma AreaCommutes(width: int, height: int)
    ensures CalculateArea(width, height) == CalculateArea(height, width)
  {
  }

  /** Widening by one adds one more height to the area. */
  lemma AreaAddsHeight(width: int, height: int)
    ensures CalculateArea(width + 1, height) == CalculateArea(width, height) + height
  {
  }

  /** Negating the width negates the area. */
  lemma AreaNegatesWithWidth(width: int, height: int)
    ensures CalculateArea(-width, height) == -CalculateArea(width, height)
  {
  }

  /** An independent definition of the area: `height` added up `times` times. */
  function RepeatedAddition(times: nat, height: int): int
  {
    if times == 0 then 0 else RepeatedAddition(times - 1, height) + height
  }

  /** The area is the height added up `width` times (for a negative width, the
      negation of that sum), so it is the product of the two sides. */
  lemma {:induction false} AreaIsRepeatedAddition(width: int, height: int)
    ensures width >= 0 ==> CalculateArea(width, height) == RepeatedAddition(width, height)
    ensures width < 0 ==> CalculateArea(width, height) == -RepeatedAddition(-width, height)
    decreases if width < 0 then -width else width, if width < 0 then 1 else 0
  {
    if width > 0 {
      AreaIsRepeatedAddition(width - 1, height);
      AreaAddsHeight(width - 1, height);
    } else if width < 0 {
      AreaIsRepeatedAddition(-width, height);
      AreaNegatesWithWidth(-width, height);
    }
  }

  /** For a non-negative height, a wider rectangle never has a smaller area. */
  lemma AreaMonotone(width: int, wider: int, height: int)
    requires width <= wider && 0 <= height
    ensures CalculateArea(width, height) <= CalculateArea(wider, height)
  {
  }

  // ---------------------------------------------------------------------------
  // Resolved values of the simulated remote calls (their delays are not modelled)
  // ---------------------------------------------------------------------------

  const FetchedName := "John Doe"

  /** The user `fetchUser(id)` resolves to: the given id, a fixed name, no e-mail. */
  function FetchedUser(id: int): (u: User)
    ensures u.id == id && u.name == FetchedName && u.email == None
  {
    User(id, FetchedName, None)
  }

  /** The status `getStatus()` resolves to, whichever call it is. */
  function ResolvedStatus(): (s: Status)
    ensures s.Label() == "active"
  {
    Active
  }

  const SyncPrefix := "Balance synced for "

  // ---------------------------------------------------------------------------
  // Account operations on plain balances
  // ---------------------------------------------------------------------------

  /** How a deposit ends: it completes, or it fails as the thrown error does. */
  datatype Outcome = Done | Failed(message: string)

  const AmountMustBePositive := "Amount must be positive"

  /** The outcome of a deposit of `amount` and the balance it leaves. */
  function DepositStep(balance: int, amount: int): (r: (Outcome, int))
    ensures r.0 == Done <==> amount > 0
    ensures r.0 != Done ==> r.0 == Failed(AmountMustBePositive) && r.1 == balance
    ensures r.0 == Done ==> r.1 - balance == amount
    ensures r.1 >= balance
  {
    if amount <= 0 then (Failed(AmountMustBePositive), balance)
    else (Done, balance + amount)
  }

  /** Whether a withdrawal of `amount` succeeds and the balance it leaves. */
  function WithdrawStep(balance: int, amount: int): (r: (bool, int))
    ensures r.0 <==> amount <= balance
    ensures r.1 == if r.0 then balance - amount else balance
    ensures r.0 ==> r.1 >= 0
  {
    if amount > balance then (false, balance)
    else (true, balance - amount)
  }

  /** No guard rejects a negative withdrawal: from a non-negative balance it
      succeeds and raises the balance. */
  lemma NegativeWithdrawalRaisesBalance(balance: int, amount: int)
    requires 0 <= balance && amount < 0
    ensures WithdrawStep(balance, amount).0
    ensures WithdrawStep(balance, amount).1 > balance
  {
  }

  /** A call a client makes on an account that changes its balance. */
  datatype Call = Deposit(amount: int) | Withdraw(amount: int)

  /** The balance after one call. */
  function BalanceAfterCall(balance: int, call: Call): int
  {
    match call
    case Deposit(amount) => DepositStep(balance, amount).1
    case Withdraw(amount) => WithdrawStep(balance, amount).1
  }

  /** The balance after a sequence of calls, made in order. A deposit that
      fails leaves the balance as it was and the sequence goes on, as for a
      caller that catches the thrown error. */
  function BalanceAfter(balance: int, calls: seq<Call>): int
    decreases |calls|
  {
    if calls == [] then balance
    else BalanceAfter(BalanceAfterCall(balance, calls[0]), calls[1..])
  }

  /** An account that starts non-negative stays non-negative whatever calls it gets. */
  lemma {:induction false} BalanceStaysNonNegative(balance: int, calls: seq<Call>)
    requires balance >= 0
    ensures BalanceAfter(balance, calls) >= 0
    decreases |calls|
  {
    if calls != [] {
      BalanceStaysNonNegative(BalanceAfterCall(balance, calls[0]), calls[1..]);
    }
  }

  /** Deposits, accepted or rejected, never decrease the balance. */
  lemma {:induction false} DepositsNeverDecrease(balance: int, calls: seq<Call>)
    requires forall i :: 0 <= i < |calls| ==> calls[i].Deposit?
    ensures BalanceAfter(balance, calls) >= balance
    decreases |calls|
  {
    if calls != [] {
      DepositsNeverDecrease(BalanceAfterCall(balance, calls[0]), calls[1..]);
    }
  }

  // ---------------------------------------------------------------------------
  // The Account class
  // ---------------------------------------------------------------------------

  /** An account of a user, whose balance is changed in place. */
  class Account {
    var user: User
    var balance: int

    /** Stores the user and the initial balance (default 0) without validating either. */
    constructor (user: User, initialBalance: int := 0)
      ensures this.user == user && balance == initialBalance
    {
      this.user := user;
      balance := initialBalance;
    }

    /** Adds a positive amount; a non-positive one fails and changes nothing. */
    method Deposit(amount: int) returns (outcome: Outcome)
      modifies this`balance
      ensures (outcome, balance) == DepositStep(old(balance), amount)
      ensures old(balance) >= 0 ==> balance >= 0
      ensures user == old(user)
    {
      if amount <= 0 {
        return Failed(AmountMustBePositive);
      }
      balance := balance + amount;
      outcome := Done;
    }

    /** Subtracts an amount that does not exceed the balance and reports whether it did. */
    method Withdraw(amount: int) returns (ok: bool)
      modifies this`balance
      ensures (ok, balance) == WithdrawStep(old(balance), amount)
      ensures old(balance) >= 0 ==> balance >= 0
      ensures user == old(user)
    {
      if amount > balance {
        return false;
      }
      balance := balance - amount;
      ok := true;
    }

    /** The current balance, read without side effects. */
    function GetBalance(): (b: int)
      reads this
      ensures b == balance
    {
      balance
    }

    /** The message `syncWithBank()` resolves to: it embeds exactly the user's name. */
    function SyncWithBank(): (msg: string)
      reads this
      ensures StripAffixes(msg, SyncPrefix, "") == Some(user.name)
    {
      StripAffixesOfConcat(SyncPrefix, user.name, "");
      assert SyncPrefix + user.name + "" == SyncPrefix + user.name;
      SyncPrefix + user.name
    }

    /** A user is valid exactly when its id is positive and its name non-empty. */
    static function IsValidUser(user: User): (valid: bool)
      ensures valid <==> user.id > 0 && user.name != ""
    {
      user.id > 0 && |user.name| > 0
    }
  }

  /** A user fetched by id is valid exactly when the id is positive. */
  lemma FetchedUserValidity(id: int)
    ensures Account.IsValidUser(FetchedUser(id)) <==> id > 0
  {
  }

  /** A new account for `user` with `initialBalance` (default 0); nothing is validated. */
  method CreateAccount(user: User, initialBalance: int := 0) returns (account: Account)
    ensures fresh(account)
    ensures account.user == user && account.balance == initialBalance
  {
    account := new Account(user, initialBalance);
  }
}
