# Transaction approval model

A Dafny model of the core of an association's fund-tracking API. Members
record incomes (`'entrée'`) and expenses (`'sortie'`). An income is
validated or rejected by a treasurer (`'tresorier'`). An expense needs the
approval of both the president (`'president'`) and the controller
(`'PCO'`), and a third flag records that both have approved. Each route sits
behind a role guard.

The project has these modules:

- `Common` holds identifiers, users, `Option`/`Result` and the error outcomes.
- `TransactionModel` models the transaction schema: the record, its two enums, the subtype required only for income, and the defaults. `Build` is what `new Transaction(...)` plus `save` validation does to the given fields.
- `Auth` models `authorize`, `protect` and `protectUser` as decision functions. Token verification (`verify`) and `User.findById` (`findById`) are parameters.
- `Approval` models what each approval handler does to the one record it loads: validate, reject, president/PCO approval, and the combined flag. It also states "approvals are only ever added" (`Extends`) and the lemmas about these transitions.
- `Handlers` models each mutating route as a function from the store's records to a reply and the new records. `Run` serves a sequence of requests, and `RunPreserves` proves the store invariant and monotonicity over any such sequence.
- `Store` is the class `TransactionStore` holding the records. Its methods do the read-modify-write step by step, the way the handlers do. Each is proved equal to its `Handlers` function. `ExpenseScenario` and `IncomeScenario` replay the two intended workflows: an income validated once, then refused a second validation; an expense approved by the president, then by the PCO.
- `Seqs` provides filtering and descending sort with their multiset and order contracts.
- `Queries` models the read routes: pending-treasurer, pending-expenses, the filtered listing (the query is built step by step in `BuildQuery`), the leaderboard aggregation, and the first `/entree/:userId` route.

The store keeps its documents in a sequence, and a transaction's id is its
position. Amounts are integers. Dates are integer timestamps, and only their
order matters.

### Where the code departs from the intended rules (the model follows the code)

- A treasurer's validation and rejection are meant to exclude each other. The code's validate handler checks only `validatedByTreasurers` and its reject handler only `rejectedByTreasurers`. So a record can end up both validated and rejected with no concurrency at all (`Approval.ValidateAndRejectBothSucceed`).
- Authentication is meant to fail when the token's subject no longer exists. `protect` instead sets `req.user` to null and continues (`Auth.Protect`). A later `authorize` then throws, which Express answers with 500 (`Auth.Guard`).
- Amounts are meant to be positive. No handler checks this. In the integer model, `create-expense` refuses only a zero or missing amount. (`!amount` also refuses `""`, `null`, `false` and `NaN`, which integers cannot express.)
- The subtype is meant to be irrelevant for expenses. The schema accepts one on an expense when it is in the enum.
- The leaderboard sums validated incomes even when they were also rejected (`Queries.RejectionKeepsFunds`).

## Model

| member | source | states |
|---|---|---|
| TransactionModel.ParseType | models/Transaction.js:9-13 | exactly `'entrée'` and `'sortie'` are accepted, each as its own type |
| TransactionModel.ParseSubtype | models/Transaction.js:14-17 | exactly `'cotisation'` and `'collect'` are accepted |
| TransactionModel.Build | models/Transaction.js:3-24 | validation succeeds iff amount, initiator and type are present, the enums hold and an income has a subtype; a stored record carries the given fields unchanged, the current date, approval fields at their defaults, and satisfies combined ⇔ both |
| TransactionModel.BuildRoundTrip | models/Transaction.js:3-24 | a fresh schema-valid record is rebuilt exactly from its own fields |
| Auth.Includes | middleware/auth.js:52 | the array membership test is exactly sequence membership |
| Auth.Authorize | middleware/auth.js:50-57 | continues with the user iff the user's role is in the list; otherwise Forbidden |
| Auth.Split | middleware/auth.js:13 | the parts contain no separator, join back to the input, and there is more than one part iff the separator occurs |
| Auth.SplitUnique | middleware/auth.js:13 | any separator-free cutting of a string that joins back to it is the split |
| Auth.BearerToken | middleware/auth.js:13 | a token exists iff the header has a space; it is the space-free segment right after the first space |
| Auth.Protect | middleware/auth.js:4-24 | a missing or non-`Bearer` header, a failed verification or a throwing lookup gives Unauthorized; a verified token continues with the found user, or with none when the user is absent; no other error |
| Auth.ProtectUser | middleware/auth.js:26-47 | a missing id gives Unauthorized, an unknown id NotFound, a throwing lookup Internal; a found user is attached and the request continues |
| Auth.Guard | middleware/auth.js:15-56 | `protect` then `authorize`: the handler runs iff a user was attached and has an allowed role; a null user gives Internal |
| Approval.ValidateByTreasurer | routes/transactionRoutes.js:40-47 | refused with AlreadyValidated iff a validating treasurer is recorded; otherwise records the caller and changes no other field |
| Approval.RejectByTreasurer | routes/transactionRoutes.js:65-72 | refused with AlreadyRejected iff a rejecting treasurer is recorded; otherwise records the caller and changes no other field |
| Approval.CombineFlags | routes/transactionRoutes.js:119-121 | the combined flag is raised when both flags are up and otherwise left as it was |
| Approval.ApproveExpense | routes/transactionRoutes.js:107-121 | refused iff the caller's own flag is up; raises exactly the caller's flag, leaves the other, and the combined flag follows |
| Approval.TransitionsKeepConsistent | routes/transactionRoutes.js:107-121 | every transition keeps combined ⇔ president ∧ PCO |
| Approval.TransitionsKeepSchema | routes/transactionRoutes.js:41-71 | every transition keeps a record schema-valid |
| Approval.ValidateAndRejectBothSucceed | routes/transactionRoutes.js:41-71 | on a pending income, validate then reject (or the reverse) both succeed and leave both references set |
| Approval.ApprovalsCommute | routes/transactionRoutes.js:107-121 | president and PCO approvals succeed in either order with the same result; only the second raises the combined flag |
| Approval.SecondApprovalRefused | routes/transactionRoutes.js:108-115 | a second approval by the same role is refused with AlreadyValidated |
| Handlers.CreateTransaction | routes/transactionRoutes.js:9-28 | a type outside the two names is BadRequest before anything is stored; a success appends one record carrying the body's amount, reason, `userId` as initiator, type, subtype and donateur, stamped with the current date, with all approval fields at their defaults |
| Handlers.CreateExpense | routes/transactionRoutes.js:305-327 | non-treasurers are Forbidden; a falsy amount, reason or beneficiary is BadRequest; otherwise an expense initiated by the caller with the beneficiary as `donateur` is appended |
| Handlers.UpdateRecord | routes/transactionRoutes.js:34-38 | an unknown id is NotFound; otherwise the step's answer is the reply and only that record changes |
| Handlers.ValidateTreasurer | routes/transactionRoutes.js:32-54 | Forbidden, then NotFound, then AlreadyValidated; a success changes only the one record's validating treasurer |
| Handlers.RejectTreasurer | routes/transactionRoutes.js:57-79 | Forbidden, then NotFound, then AlreadyRejected; a success changes only the one record's rejecting treasurer |
| Handlers.ValidateExpense | routes/transactionRoutes.js:99-133 | Forbidden, then NotFound, then AlreadyValidated for the caller's own flag; a success raises the caller's flag, raises the combined flag when both are up, and leaves every other field of the record (treasurer references included) as it was |
| Handlers.Handle | routes/transactionRoutes.js:9-327 | every mutating route keeps the store invariant and only adds approvals |
| Handlers.RunPreserves | routes/transactionRoutes.js:41-121 | over any sequence of requests the invariant holds and no approval field is cleared or reassigned |
| Handlers.ReachableStoresValid | models/Transaction.js:19-23 | from the empty store, every reachable record satisfies the schema and combined ⇔ both |
| Store.TransactionStore.Create | routes/transactionRoutes.js:9-28 | reply and new records are those of Handlers.CreateTransaction |
| Store.TransactionStore.CreateExpense | routes/transactionRoutes.js:305-327 | reply and new records are those of Handlers.CreateExpense |
| Store.TransactionStore.ValidateTreasurer | routes/transactionRoutes.js:32-54 | reply and new records are those of Handlers.ValidateTreasurer |
| Store.TransactionStore.RejectTreasurer | routes/transactionRoutes.js:57-79 | reply and new records are those of Handlers.RejectTreasurer |
| Store.TransactionStore.Validate | routes/transactionRoutes.js:99-133 | reply and new records are those of Handlers.ValidateExpense |
| Queries.PendingTreasurer | routes/transactionRoutes.js:289-295 | exactly the incomes with neither treasurer reference (with multiplicity), sorted by date descending |
| Queries.PendingTreasurerRoute | routes/transactionRoutes.js:286-302 | treasurers get the pending incomes; others are Forbidden |
| Queries.PendingExpenses | routes/transactionRoutes.js:85-88 | exactly the expenses whose combined flag is false |
| Queries.PendingExpensesRoute | routes/transactionRoutes.js:83-95 | presidents and PCOs get the pending expenses; others are Forbidden |
| Queries.PendingExpenseLacksApproval | routes/transactionRoutes.js:85-88 | in a valid store an expense is pending iff the president or the PCO has not approved it |
| Queries.BuildQuery | routes/transactionRoutes.js:177-208 | the built filter accepts a record iff the listing's parameters ask for it |
| Queries.Find | routes/transactionRoutes.js:211-212 | exactly the records the filter accepts, sorted by date descending |
| Queries.ListTransactions | routes/transactionRoutes.js:175-215 | `type=sortie` keeps fully approved expenses, `type=entrée` validated and unrejected incomes, another or no type adds nothing; price is exact amount equality; sorted by date descending |
| Queries.Initiators | routes/transactionRoutes.js:233-236 | each initiator of a validated income, exactly once |
| Queries.RowsFor | routes/transactionRoutes.js:239-247 | rows only for initiators that exist with role `'user'`, one for each of them, carrying the initiator's total and username |
| Queries.Leaderboard | routes/transactionRoutes.js:225-250 | rows sorted by total descending, a permutation of the grouped rows |
| Queries.LeaderboardRowsSound | routes/transactionRoutes.js:225-250 | every row is a `'user'` who initiated a validated income, with the sum of amounts of that user's validated incomes |
| Queries.LeaderboardComplete | routes/transactionRoutes.js:225-250 | every `'user'` who initiated a validated income has a row |
| Queries.LeaderboardUnique | routes/transactionRoutes.js:233-236 | no user has two rows |
| Queries.ValidationCredits | routes/transactionRoutes.js:227-235 | a treasurer's validation raises the initiator's total by the income's amount and no other total |
| Queries.RejectionKeepsFunds | routes/transactionRoutes.js:227-230 | a rejection changes no total |
| Queries.CreationKeepsFunds | routes/transactionRoutes.js:225-236 | creating a transaction changes no total |
| Queries.IncomeRecords | routes/transactionRoutes.js:150-154 | exactly the user's treasurer-validated incomes, sorted by date descending |
| Queries.UserIncome | routes/transactionRoutes.js:143-165 | an unknown user is NotFound; otherwise those incomes in order, each with its validating treasurer's username when that user exists |
| Queries.UserIncomeRoute | routes/transactionRoutes.js:139-170 | `protectUser`'s refusal is the reply; otherwise the handler's reply |

## Left out

- The user routes (login, register, change password) and the server wiring are not modelled. They are plumbing over password hashing, token signing and lookups.
- Token signing and verification, the user lookup and the store's save are not modelled as code. `verify` and `findById` are parameters, and the users collection seen by joins and `populate` is a map. A thrown `save` (a database failure) is not modelled.
- Transaction ids are store positions. The cast error that a malformed id raises in `findById` (a 500) is not modelled.
- The `populate` of `initiatedBy` on the pending-expenses and listing routes is dropped: those replies are the bare records.
- The `$regex` semantics of the listing's `reason` and `date` filters are not modelled. They are the abstract tests of `Queries.Matcher`, because they apply a regular expression to an unspecified rendering of a date.
- `parseFloat(price)` and floating-point amounts are not modelled. Amounts are integers. The listing's `price` is taken as already parsed, and absent when the parameter is empty.
- Mongoose's casting of body values (a numeric string for `amount`, a non-numeric one failing validation) is not modelled.
- `Date.now` is the `now` parameter of the creation routes.
- Concurrent requests and the approve/reject race are not modelled. Requests are served one at a time.
- The second `/entree/:userId` handler (routes/transactionRoutes.js:263-279) is not modelled, because the route registered first always wins.
- Status codes beyond the error enum, messages and logging are not modelled. A schema failure on POST `/` is `ValidationFailed`. That handler has no `catch`. Under Express 4, which this model assumes, the rejected promise goes unhandled: the client gets no reply, and on Node 15 or later the process ends. Express 5 would answer 500 instead.
- `protect` with a verified token whose claims carry no `id` is not modelled separately. `verify` returns the id directly.
- Queries.PendingTreasurer: states "sorted by date descending" and not the store's order among equal dates, which the store leaves unspecified. The same holds for Queries.Find, Queries.ListTransactions and Queries.IncomeRecords.
- Queries.PendingExpenses: states which records are returned and not their order, since the route applies no sort.
- Queries.Leaderboard: states "sorted by total descending" and not the order among equal totals, which the aggregation leaves unspecified.
