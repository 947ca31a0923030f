# Bank account sample, modelled in Dafny

A model of a small TypeScript sample. It has a `User` record, a three-valued
`Status`, two pure helpers (`greetUser` and `calculateArea`), and an `Account`
class. `Account` holds a user and a private balance. Its `deposit` and
`withdraw` change the balance in place. It also has a read-only `getBalance`,
a simulated `syncWithBank` and a static `isValidUser`. A factory
`createAccount` builds an account. The entry point in
`useTypescriptFunctions.ts` fetches a user, opens an account with 100,
deposits 50 and withdraws 30.

Files:

- `wrappers.dfy`: module `Wrappers`, the `Option` type.
- `types.dfy`: module `Types`, everything in `test.ts`.
- `scenario.dfy`: module `Scenario`, the call sequence of the entry point.

How the model is built:

- `Account` is a Dafny class with the fields `user` and `balance`.
- `Deposit` and `Withdraw` declare `modifies this`balance`, so the frame proves that `user` never changes.
- Each of them is tied to a pure step function on plain balances (`DepositStep`, `WithdrawStep`), whose contracts give the cases the source distinguishes.
- The error that `deposit` throws for a non-positive amount becomes the outcome `Failed("Amount must be positive")`, with the balance unchanged.
- `BalanceAfter` replays any sequence of deposit and withdraw calls. The lemmas about it state the "never negative" invariant over a whole account history.
- In that replay a failed deposit leaves the balance unchanged and the remaining calls still run, as for a caller that catches the thrown error. A caller that does not catch it stops at that call, and its balance is the one reached so far.
- Every TypeScript `number` (ids, amounts, balances, sides of a rectangle) is a mathematical `int`.
- The three remote-call stand-ins are modelled by the values they resolve to: `FetchedUser`, `Account.SyncWithBank` and `ResolvedStatus`.

Some things follow the code exactly, as written:

- The constructor and `createAccount` validate nothing, so an account can start with a negative balance. For that reason non-negativity is stated as "if it holds before the call, it holds after", not as a class invariant.
- `withdraw` has no guard against a negative amount. From a non-negative balance such a withdrawal succeeds and raises the balance (`NegativeWithdrawalRaisesBalance`).

## Model

| member | source | states |
|---|---|---|
| `Types.Status.Label` | test.ts:28 | every status stands for one of the literals `active`, `inactive`, `pending` of the union type |
| `Types.StatusOf` | test.ts:28 | a string denotes a status only when it is that status's label |
| `Types.StatusLabelRoundTrip` | test.ts:28 | each of `active`, `inactive`, `pending` maps back to its own status, so the three labels are distinct |
| `Types.GreetUser` | test.ts:31-33 | the greeting is `Hello, ` and `!` around exactly the user's name |
| `Types.GreetingIdentifiesName` | test.ts:31-33 | two users get the same greeting if and only if their names are equal |
| `Types.CalculateArea` | test.ts:36-38 | the area is zero when a side is zero, non-negative for non-negative sides, and equal to the height for unit width; no validation |
| `Types.AreaCommutes` | test.ts:36-38 | swapping width and height gives the same area |
| `Types.AreaAddsHeight` | test.ts:36-38 | widening by one adds exactly one height to the area |
| `Types.AreaNegatesWithWidth` | test.ts:36-38 | negating the width negates the area |
| `Types.AreaIsRepeatedAddition` | test.ts:36-38 | for every integer width, the area equals the height added up that many times (negated for a negative width), that is, the product the source returns |
| `Types.AreaMonotone` | test.ts:36-38 | for a non-negative height, a wider rectangle has at least the area |
| `Types.FetchedUser` | test.ts:41-48 | `fetchUser(id)` resolves to a user with that id, the name `John Doe` and no e-mail |
| `Types.ResolvedStatus` | test.ts:93-96 | `getStatus()` always resolves to `active` |
| `Types.DepositStep` | test.ts:60-63 | a deposit succeeds if and only if the amount is positive; on failure the message is `Amount must be positive` and the balance is unchanged; on success it grows by exactly the amount; it never decreases |
| `Types.WithdrawStep` | test.ts:66-70 | a withdrawal succeeds if and only if the amount does not exceed the balance; on success the balance drops by exactly the amount and is then non-negative, otherwise it is unchanged |
| `Types.NegativeWithdrawalRaisesBalance` | test.ts:66-70 | a negative withdrawal from a non-negative balance succeeds and raises the balance |
| `Types.BalanceStaysNonNegative` | test.ts:52-70 | from a non-negative balance, any sequence of deposits and withdrawals leaves it non-negative |
| `Types.DepositsNeverDecrease` | test.ts:60-63 | a sequence of deposits, accepted or rejected, never lowers the balance |
| `Types.Account.constructor` | test.ts:55-57 | the account stores the user as given and the initial balance, default 0, without validation |
| `Types.Account.Deposit` | test.ts:59-63 | the outcome and new balance are those of `DepositStep` on the old balance; non-negativity is preserved; only the balance may change |
| `Types.Account.Withdraw` | test.ts:65-70 | the result and new balance are those of `WithdrawStep` on the old balance; non-negativity is preserved; only the balance may change |
| `Types.Account.GetBalance` | test.ts:72-74 | returns the current balance and changes nothing |
| `Types.Account.SyncWithBank` | test.ts:76-80 | the confirmation is `Balance synced for ` followed by exactly the user's name |
| `Types.Account.IsValidUser` | test.ts:82-84 | a user is valid if and only if its id is positive and its name is non-empty |
| `Types.FetchedUserValidity` | test.ts:82-84 | a fetched user is valid if and only if the requested id is positive |
| `Types.CreateAccount` | test.ts:88-90 | returns a new account holding the given user and initial balance, default 0, with no validation |
| `Scenario.MainTrace` | useTypescriptFunctions.ts:9-29 | the trace prints `Hello, John Doe!`, area 20, the deposit of 50 completes without an error, then a successful withdrawal, balance 120, `Balance synced for John Doe`, status `active` and a valid user |
| `Scenario.InsufficientFundsTrace` | test.ts:66-67 | withdrawing 50 from an account opened with 20 is refused, and the balance stays 20 |

## Left out

- Decorators `LogClass` and `LogMethod` (test.ts:4-18): they only write to the console and then call the original method unchanged.
- Delays and promises of `fetchUser`, `syncWithBank` and `getStatus`: only the values they resolve to are modelled. Timers and asynchronous scheduling are not.
- Console output and the `.catch(console.error)` of the entry point: the trace returns its values instead of printing them.
- Floating-point semantics of `number`: rounding, overflow to infinity and `NaN` are not modelled. For example, a `NaN` deposit passes the `amount <= 0` guard in TypeScript, and nothing like it exists over `int`.
- Object identity of the `User` record: users are values here. Several accounts may share one TypeScript user object, but nothing in the sample mutates a user, so sharing is not observable.
- Runtime values outside the declared types, such as a missing `name` that `!!user.name` would also reject, are not modelled.
- `Types.Account.IsValidUser`: `!!user.name` is modelled as a non-empty name, since a well-typed name is a string.
