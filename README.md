# Client ledger: balances, holds and the nightly settle

A model of the account ledger behind a small payment API. Each client has a
row in the `client` table with an id (a uuid string), a name, an integer
`balance` and an integer `hold`, in kopecks, and an `is_open` flag. Requests
top up a balance, put money on hold and read a row. A reconciler settles
every hold into its balance on a timer. An older set of HTTP handlers applies
different rules to the same table. In front of those handlers, a JSON
middleware checks the request's arguments against the handler's signature.

Files and modules:

- `store.dfy` (`Store`) holds the table as a `map` from id to `Account`. It
  also holds the `Ledger` class whose `rows` field the operations update in
  place. The batch settle `SettleAll` is defined here. It is the one UPDATE
  shared by `query_unhold_all` and the reconciler's `subtract`.
- `queries.dfy` (`Queries`) models `api/app/queries.py`. Each query is a pure
  specification function returning the reply and the table as the
  transaction leaves it. A method on the `Ledger` is proved equal to that
  function. `query_subtract` rolls the table back when it raises
  `NotEnoughMoneyError`.
- `subtractor.dfy` (`Subtractor`) models the reconciler's `subtract` in
  `api/app/subtractor.py`.
- `legacy_handlers.dfy` (`LegacyHandlers`) models the `add`, `subtract` and
  `status` handlers of `api/app/main.py`. These are kept apart from the
  current queries because their rules differ:
  - The top-up is not clamped and has no open check.
  - The subtract moves the amount from the balance to the hold, and is
    refused when the balance would go negative.
- `json_middleware.dfy` (`JsonMiddleware`) models the argument check of
  `json_middleware`. It checks for missing, wrongly typed and redundant
  arguments. `CheckArguments` is the two-loop method. It is proved to
  produce the list `Errors`, which the lemmas characterise.
- `history.dfy` (`History`) models any run of current queries and settles.
  It states what such a run keeps true of the table.
- `scenarios.dfy` and `argument_scenarios.dfy` replay the repository's test
  cases on the model: the four seed accounts and the seven argument-check
  cases.

The database executes each query atomically, and concurrent requests are
serialised by the database. So the model is sequential: each method is one
transaction. A method that signals an error restores the rows it had
changed, so an error leaves the table exactly as it was. The Python
functions take a connection, not a ledger object. Accordingly the methods
are module-level and take the `Ledger` whose rows they change.

## Model

| member | source | states |
|---|---|---|
| Store.Greatest | api/app/queries.py:25 | SQL `GREATEST(a, b)` is an upper bound of both arguments and equals one of them |
| Store.SettleAll | api/app/queries.py:89-98 | settling keeps every account and its id, name and `is_open`. Every hold becomes 0 and `balance - hold` of every row is preserved, closed rows included |
| Store.SettleAllIdempotent | api/app/subtractor.py:19-20 | a second settle right after the first changes nothing |
| Store.SettledTableIsFixedPoint | api/app/subtractor.py:19-20 | settling a table whose holds are all 0 returns it unchanged |
| Store.SettleAllKeepsInvariants | api/app/queries.py:95-96 | settling keeps the primary key and the no-overdraft property, leaves every hold non-negative, and with non-negative holds never raises a balance |
| Queries.Add | api/app/queries.py:19-34 | a row comes back exactly when the id exists and is open. Its balance grows by `max(0, how_much)`, its hold, id and name are unchanged, and no other row changes. Otherwise the reply is none and the table is as before |
| Queries.Subtract | api/app/queries.py:47-64 | none exactly when the id is missing or closed. `NotEnoughMoneyError` exactly when the updated row has `balance - hold < 0`, and the table is then unchanged. On success the hold grows by `max(0, how_much)`, the balance is unchanged, `balance - hold >= 0`, and no other row changes |
| Queries.Status | api/app/queries.py:75-81 | the stored row for any existing id, open or closed, and none for an unknown id |
| Queries.QueryAdd | api/app/queries.py:10-34 | updates the ledger and replies exactly as `Add` says, and keeps rows keyed by their id |
| Queries.QuerySubtract | api/app/queries.py:37-64 | updates the ledger and replies as `Subtract` says. On an error the rows are rolled back to the state before the call |
| Queries.QueryStatus | api/app/queries.py:67-81 | replies as `Status` and changes nothing (no `modifies`). For a canonical id, a returned row carries that id |
| Queries.QueryUnholdAll | api/app/queries.py:84-98 | the new rows are `SettleAll` of the old ones |
| Queries.NonPositiveAmountIsNoOp | api/app/queries.py:25 | a zero or negative amount leaves the table unchanged and behaves like amount 0. An open account still gets its row back |
| Queries.OverHeldAccountRefusesEveryHold | api/app/queries.py:62-63 | the check is on the updated row: an open account already holding more than its balance refuses even a hold of 0, and the table is unchanged |
| Queries.ClosedAccountIsFrozen | api/app/queries.py:26-28 | add and subtract never write a closed account, whatever id and amount they are given |
| Queries.SettleChargesWhatWasHeld | api/app/queries.py:53 | after a successful hold, the next settle takes exactly `max(0, how_much)` more off the balance. After a top-up it leaves that much more |
| Subtractor.Subtract | api/app/subtractor.py:11-22 | the new rows are `SettleAll` of the old ones: the same accounts, each balance lowered by its hold, every hold 0, `is_open` kept, closed rows included |
| LegacyHandlers.Add | api/app/main.py:76-93 | a row exactly when the id exists, open or closed. The balance changes by exactly `how_much`, unclamped, and nothing else in the row or the table changes. Otherwise not-found with the table unchanged |
| LegacyHandlers.Subtract | api/app/main.py:103-123 | not-found exactly when the id is missing. Payment-required exactly when `balance < how_much`, with the table unchanged. On success the balance falls and the hold grows by `how_much`, `balance + hold` is preserved, and the balance is non-negative |
| LegacyHandlers.Status | api/app/main.py:126-137 | the stored row for an existing id, otherwise not-found |
| LegacyHandlers.HandleAdd | api/app/main.py:69-93 | updates the ledger and responds exactly as `LegacyHandlers.Add` |
| LegacyHandlers.HandleSubtract | api/app/main.py:96-123 | updates the ledger and responds as `LegacyHandlers.Subtract`. On payment-required the update is rolled back |
| LegacyHandlers.HandleStatus | api/app/main.py:126-137 | responds as `LegacyHandlers.Status` without changing the ledger |
| LegacyHandlers.NegativeSubtractLowersHold | api/app/main.py:110-111 | with no clamp, a negative amount passes the balance check and lowers the hold. From a zero hold it leaves the hold negative |
| LegacyHandlers.ClosedAccountIsWritable | api/app/main.py:84-85 | with no `is_open` filter, a closed account takes top-ups and affordable holds |
| JsonMiddleware.LookupFinds | api/app/main.py:156-159 | `arg not in json_data` exactly when no member has that key. A found value belongs to a member, and with distinct keys it is that member's |
| JsonMiddleware.CheckArguments | api/app/main.py:151-170 | the two loops build exactly the errors of `Errors`. The handler is invoked when they are empty, and otherwise the answer is the 400 description joining the messages with `"; "` |
| JsonMiddleware.AnnotationErrorsAppend | api/app/main.py:153-161 | errors about the annotations come in declaration order: the errors of a signature split in two are the errors of the halves, concatenated |
| JsonMiddleware.RedundantErrorsAppend | api/app/main.py:163-165 | redundant-argument errors come in the order the members were sent |
| JsonMiddleware.AnnotationErrorsMember | api/app/main.py:153-161 | an error comes from the first loop exactly when some annotation produces it |
| JsonMiddleware.RedundantErrorsMember | api/app/main.py:163-165 | an error comes from the second loop exactly when it is `Redundant` for a sent key that is not a parameter |
| JsonMiddleware.MissingIff | api/app/main.py:154-158 | "<arg> is required but it is missing" is reported exactly for an annotated parameter other than `request` or `return` that the JSON lacks |
| JsonMiddleware.WrongTypeIff | api/app/main.py:159-161 | a type error is reported exactly for an annotated parameter present with another type. A missing parameter never gets one |
| JsonMiddleware.RedundantIff | api/app/main.py:163-165 | "Redundant arg <key>" is reported exactly for a sent key that is not a parameter name |
| JsonMiddleware.RedundantErrorsComeLast | api/app/main.py:151-165 | once a redundant-argument error appears, every later error is one too: missing and type errors come first |
| JsonMiddleware.InvokeIff | api/app/main.py:167-168 | no errors exactly when every annotated parameter is present with its declared type and every sent key is a parameter |
| JsonMiddleware.NoAnnotationErrors | api/app/main.py:153-161 | a signature none of whose annotations fails yields no error |
| JsonMiddleware.NoRedundantErrors | api/app/main.py:163-165 | a JSON object whose keys are all parameters yields no error |
| History.ApplyKeepsAccounts | api/app/queries.py:22-28 | one query or settle keeps the set of accounts and each row under its own id |
| History.RunKeepsAccounts | api/app/queries.py:10-98 | any run of queries and settles neither creates nor drops an account |
| History.RunKeepsHoldsNonNegative | api/app/queries.py:53 | once every hold is non-negative, it stays so across any run |
| History.RunKeepsNoOverdraft | api/app/queries.py:53-63 | once no account has held more than its balance, none ever does, across any run |
| History.ClosedAccountUnchangedWithoutSettle | api/app/queries.py:26-28 | between settles, a closed account's row does not change at all |
| History.BalancesOnlyFallAtSettle | api/app/queries.py:25 | between settles, no balance goes down |
| Scenarios.Seed | api/app/tests/test_queries.py:79-113 | the four fixture accounts are keyed by id and hold non-negative amounts |
| Scenarios.StatusOnSeed | api/app/tests/test_queries.py:115-133 | status of an unknown id is none, and status of the first account is its seed row |
| Scenarios.AddOnSeed | api/app/tests/test_queries.py:135-180 | top-ups of 0 and -1000 return the row unchanged, 1000 gives 2700/300, and an unknown or closed id gets none with the table unchanged |
| Scenarios.SubtractOnSeed | api/app/tests/test_queries.py:182-240 | 2000 raises with the table unchanged, 100 gives 1700/400, 0 and -1000 change nothing, and an unknown or closed id gets none |
| Scenarios.UnholdAllOnSeed | api/app/tests/test_queries.py:242-260 | settling the seed gives balances 1400, 0, -290 and 999999, all holds 0 |
| ArgumentScenarios.HandlerAAcceptsGoodJson | api/app/tests/test_server.py:24-28 | all five arguments with their types yield no error |
| ArgumentScenarios.HandlerAReportsMissing | api/app/tests/test_server.py:29-33 | leaving out `a` yields exactly the missing-argument error for `a` |
| ArgumentScenarios.HandlerAReportsWrongType | api/app/tests/test_server.py:34-38 | `a` sent as a string yields exactly the type error int/str |
| ArgumentScenarios.HandlerAReportsRedundant | api/app/tests/test_server.py:39-43 | an extra member `f` yields exactly the redundant-argument error for `f` |
| ArgumentScenarios.HandlerBAcceptsEitherOrder | api/app/tests/test_server.py:44-53 | both member orders yield no error |
| ArgumentScenarios.HandlerBReportsSwappedTypes | api/app/tests/test_server.py:54-61 | swapped types yield the two type errors in declaration order |
| ArgumentScenarios.MissingMessage | api/app/tests/test_server.py:32 | the missing-argument error renders as the text the test expects |
| ArgumentScenarios.WrongTypeMessage | api/app/tests/test_server.py:37 | the type error renders as the text the test expects |
| ArgumentScenarios.RedundantMessage | api/app/tests/test_server.py:42 | the redundant-argument error renders as the text the test expects |
| ArgumentScenarios.SwappedMessages | api/app/tests/test_server.py:57-60 | the two swapped-type errors render as the two texts the test expects, in order |

## Left out

- Database access is not modelled: the asyncpg pool, connections, transaction objects, SQL execution and the uuid codec. A transaction is modelled only as all-or-nothing, with the rows restored on error.
- The periodic loops `periodic_subtract` and `periodic_unhold_all` are not modelled. They sleep and call the settle forever, and add nothing beyond the single settle.
- Concurrency and row locking between simultaneous requests and the reconciler are not modelled. The database serialises them, so the model runs one transaction at a time.
- The aiohttp plumbing is not modelled: routing, `create_app`, `startup`/`cleanup`, `error_middleware`'s mapping of exceptions to status codes, the `json_response` envelope, `ping` and `kill`. The legacy handlers answer with the row, 404 or 402 as values.
- The middleware's GET bypass and JSON body parsing are not modelled, and neither is the 400 answer for a body that is not JSON. The model starts from a parsed JSON object.
- JsonMiddleware.CheckArguments: Python's `isinstance` is modelled as equality of type tags. So subclassing, such as `bool` counting as `int`, is not captured. The JSON object is a sequence of members with distinct keys, in the order sent.
- The test imports a helper `_check_args` that is not in `api/app/main.py`. The model follows the loop inside `json_middleware`.
- Ids are modelled as canonical uuid strings (lower case, hyphenated) compared exactly. The `id` column is a Postgres `uuid`, so `WHERE id = $1` also matches other spellings of the same uuid, such as upper case, braces or no hyphens. The row it returns then carries the canonical id, not the spelling sent. A string that is not a uuid makes the database raise: the query functions propagate the exception, and the legacy handlers answer 500 rather than 404. None of these is captured. The `r.row.id == id` clauses of the query and handler methods hold for canonical ids only.
- Amounts are unbounded integers. The database columns' integer width and overflow are not modelled.
- api/app/views.py, api/app/settings.py, api/app/__main__.py and api/app/unholder.py's scheduling are not part of this model.
