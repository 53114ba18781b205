# Gophermart loyalty backend: the decision core in Dafny

Gophermart is a loyalty-order backend. Users register order numbers. An
external accrual authority assigns rewards to those orders. Users then spend
the accumulated balance through withdrawals. This project models the
sequential decision code of that service and proves properties of it:

- **Luhn check** (`luhn.dfy`). `LuhnAlgorith` walks an order number from right to left and doubles every second digit, as in ISO/IEC 7812-1, Annex B. It is a method with a loop, proved equal to a positional weighted sum. Lemmas cover the per-digit bound, the doubling permutation, single-digit error detection and the repository's test table.
- **Order registration** (`order_service.dfy`). The check chain is Luhn, then lookup, then user-id parse, then the duplicate/ownership test. It ends in at most one insert into an order table. The table is a `map` inside the class `Store.OrderTable`.
- **Withdrawal** (`withdraw_service.dfy`). The chain is Luhn, then the balance read, then the strict test `current < sum`. It ends in at most one record appended to the `seq` inside `Store.WithdrawalLog`.
- **Accrual authority client** (`client.dfy`). It classifies the HTTP status and the `Retry-After` header into the triple `(response, retryAfter, err)`. 429 is Too Many Requests (section 4 of RFC 6585). Only the delay-seconds form of `Retry-After` (section 10.2.3 of RFC 9110) is understood.
- **Accrual engine** (`accrual.dfy`). `processOrder` turns the triple into at most one status update. `processPendingOrders` is one reconciliation cycle, run as a sequential loop over the pending list with a cancellation point.
- **Request binding** (`models.dfy`). These are the field checks of `UserCreditials.Bind` and `WithdrawBalanceRequest.Bind`.
- **Decimal parsing** (`strconv.dfy`). This models `strconv.Atoi` for the user id and the `Retry-After` header, with `Itoa` as its proved inverse.

Storage, the HTTP exchange and JSON decoding are inputs to the model:

- a database failure during a lookup or an insert is an `Option<string>` parameter;
- the balance read is a `Result`;
- the authority's reply is an `Exchange` value, given per order number by a function parameter;
- whether an order's status update fails is also a function parameter.

Two source files declare identical binding methods: `internal/models/user.go` with
`internal/models/withdraw.go`, and the combined `internal/models/models.go`. They
are modelled once. `internal/service/order.go`/`withdraw.go` and the older
`internal/service/service.go` implement the same registration and withdrawal
rules over different storage interfaces. They are also modelled once, and
the table below cites both.

The withdrawal binding reports an empty order with the message
"login field is required" and a zero sum with "password field is required".
These messages are copied from the credential binding. The model keeps them
verbatim.

## Model

| member | source | states |
|---|---|---|
| `Strconv.Atoi` | internal/service/order.go:49-52 | a parsed value lies in the 64-bit range; success needs a non-empty input of digits, with at most one leading sign; a negative value needs a leading '-' |
| `Strconv.AtoiOfDigits` | internal/service/order.go:49-52 | a non-empty digit string whose value fits in 64 bits parses to that value, also with a leading '+', and to its negation with a leading '-'; leading zeros are accepted |
| `Strconv.AtoiOutOfRange` | internal/service/order.go:49-52 | a digit string above the 64-bit maximum fails, with or without '+'; with '-' it fails once it is below the 64-bit minimum |
| `Strconv.AtoiOfFormatInt` | internal/service/service.go:56-59 | every 64-bit integer formatted in decimal parses back to itself, so a user id written into a token is recovered |
| `Strconv.AtoiRejectsNonDigit` | internal/client/client.go:43-47 | any non-digit outside a leading sign position makes the parse fail (an HTTP-date, an empty header, a fraction) |
| `Luhn.Contribution` | pkg/utils/luhn_algorith.go:14-21 | each digit's contribution, doubled or not, lies in 0..9 |
| `Luhn.SumFrom` | pkg/utils/luhn_algorith.go:7-25 | the weighted sum of k digits is at most 9k |
| `Luhn.LuhnAlgorith` | pkg/utils/luhn_algorith.go:3-28 | the loop returns true exactly when every byte is a digit and the weighted sum is a multiple of 10; digits are doubled at odd distance from the right end |
| `Luhn.NonDigitRejects` | pkg/utils/luhn_algorith.go:10-12 | a non-digit anywhere rejects the number, whatever the other bytes are |
| `Luhn.EmptyPasses` | pkg/utils/luhn_algorith.go:4-27 | the empty string is accepted (sum 0) |
| `Luhn.ContributionInjective` | pkg/utils/luhn_algorith.go:16-21 | with the doubling fixed, distinct digits contribute distinct amounts, so the doubling map permutes 0..9 |
| `Luhn.SumFromUpdate` | pkg/utils/luhn_algorith.go:7-25 | replacing one digit changes the sum by exactly the difference of that position's contributions |
| `Luhn.SumFromUnchangedRight` | pkg/utils/luhn_algorith.go:7-25 | replacing a digit left of position k leaves the sum from k on unchanged |
| `Luhn.SingleDigitErrorDetected` | pkg/utils/luhn_algorith.go:16-27 | changing any single digit of an accepted number makes it rejected |
| `Luhn.AcceptsSample` | pkg/validator/luhn_algorith_test.go:11 | "79927398713" is accepted |
| `Luhn.AcceptsSixteenDigits` | pkg/validator/luhn_algorith_test.go:12 | "1234567812345670" is accepted |
| `Luhn.RejectsWrongCheckDigit` | pkg/validator/luhn_algorith_test.go:13 | "79927398710" is rejected |
| `Luhn.AcceptsZero` | pkg/validator/luhn_algorith_test.go:16 | "0" is accepted |
| `Luhn.AcceptsShort` | pkg/validator/luhn_algorith_test.go:17 | "059" is accepted |
| `Luhn.RejectsNonDigits` | pkg/validator/luhn_algorith_test.go:14-18 | "abcdefg" and "059a" are rejected |
| `Models.BindCredentials` | internal/models/user.go:13-21 | nil exactly when login and password are both non-empty; an empty login reports the login error first, then an empty password reports the password error |
| `Models.BindWithdrawRequest` | internal/models/withdraw.go:14-22 | nil exactly when the order is non-empty and the sum is not exactly zero; the order is checked before the sum |
| `Models.BothEmptyReportsLogin` | internal/models/models.go:14-22 | with both credential fields empty, the login error is the one reported |
| `Models.NegativeSumPassesBind` | internal/models/models.go:43-51 | only an exact zero is refused, so a negative sum passes the binding |
| `OrderService.CheckNewOrder` | internal/service/order.go:38-59 | the decision succeeds exactly when the number passes Luhn, the lookup did not fail, the user id parses and the number is new, and the row it yields is (number, NEW, 0, parsed id). Otherwise the error follows the chain: Luhn failure, then the lookup error, then the parse error, then OrderAlreadyExists for the same owner or OrderAlreadyExistsForAnotherUser |
| `OrderService.CreateNewOrderService` | internal/service/order.go:38-71 | returns the decision's error, or the insert error, or nil; the table gains exactly the new row on nil and is unchanged otherwise; rows stay keyed by their number |
| `OrderService.LuhnFailureSkipsStorage` | internal/service/service.go:46-49 | a Luhn failure gives the same result whatever the table holds and whatever the database would answer |
| `OrderService.RegistrationOnlyAdds` | internal/service/service.go:68-77 | a successful registration adds a row under a new number and leaves every existing row as it was |
| `OrderService.ResubmissionRefused` | internal/service/service.go:60-66 | after a registration, the same number is refused with OrderAlreadyExists for the same user and OrderAlreadyExistsForAnotherUser for any other |
| `OrderService.RegistersSample` | internal/service/order_test.go:42-59 | number 79927398713 from user "1" is registered as (79927398713, NEW, 0, 1) |
| `OrderService.EmptyNumberRegisters` | internal/service/service.go:45-77 | the empty number passes this Luhn test and is registered |
| `WithdrawService.CheckWithdrawal` | internal/service/withdraw.go:31-44 | the decision succeeds exactly when the order passes Luhn, the balance was read and the sum does not exceed the current balance, and its record is (userID, order, sum). Otherwise the error is the Luhn error, then the balance-read error unchanged, then ErrInvalidWithdrawSum |
| `WithdrawService.WithdrawBalanceService` | internal/service/withdraw.go:31-56 | returns the decision's error, or the create error unchanged, or nil; exactly one record is appended on nil and nothing otherwise |
| `WithdrawService.LuhnFailureSkipsBalance` | internal/service/service.go:89-97 | a Luhn failure gives the same result whatever the balance read would return |
| `WithdrawService.WholeBalanceAccepted` | internal/service/service.go:99-101 | withdrawing exactly the current balance is accepted, because the test is strict |
| `WithdrawService.ZeroSumAcceptedByService` | internal/service/withdraw.go:42-55 | a zero sum passes the service, and only the binding refuses it |
| `WithdrawService.BindingLeavesLuhnToService` | internal/service/withdraw.go:32-35 | "059a" passes the binding and is refused by the service with ErrNumberIsNotCorrect |
| `AccrualClient.OrderPathIgnoresTrailingSlash` | internal/client/client.go:27 | a trailing slash on the base URL does not change the request URL |
| `AccrualClient.OrderPathInjective` | internal/client/client.go:27 | different order numbers, the empty one included, are asked about at different URLs |
| `AccrualClient.GetOrderInfo` | internal/client/client.go:26-67 | every error comes with a nil response and retryAfter 0; a response comes with retryAfter 0 and no error; a non-zero delay only comes from a 429 whose header parses to it; a response only comes from a 200 whose body decoded to it |
| `AccrualClient.Classification` | internal/client/client.go:42-66 | the table: a failed request gives its error; 429 gives (nil, seconds, nil) or (nil, 0, parse error); 204 gives (nil, 0, nil); any status other than 200 gives (nil, 0, "failed to get order info"); 200 gives the decode error or (body, 0, nil) |
| `AccrualClient.HttpDateRetryAfterIsError` | internal/client/client.go:43-47 | a Retry-After in HTTP-date form yields (nil, 0, parse error) |
| `AccrualClient.MissingRetryAfterIsError` | internal/client/client.go:43-47 | a 429 without a Retry-After header yields (nil, 0, parse error) |
| `Accrual.Decide` | internal/app/accrual.go:97-124 | an update is made exactly when there is no error, no positive delay and a response. The update uses the order's own number and the authority's status verbatim. It carries the reward exactly when the status is PROCESSED |
| `Accrual.ApplyUpdate` | internal/app/accrual.go:124 | a status update changes only the row with that number (status, and reward when one is given) and never adds a row |
| `Accrual.ProcessOrder` | internal/app/accrual.go:93-128 | the table after one order is the decision applied, or unchanged when there is no decision or the update fails; rows stay keyed by number |
| `Accrual.DispatchedOrdersProcessed` | internal/app/accrual.go:69-86 | with a successful listing, every order before the cancellation point ends the cycle as if processed alone |
| `Accrual.Cycle` | internal/app/accrual.go:61-90 | a cycle never adds or removes rows and keeps every row filed under its own number |
| `Accrual.ProcessPendingOrders` | internal/app/accrual.go:50-91 | the loop leaves the table equal to the dispatched orders processed one after another |
| `Accrual.CycleTouchesOnlyListed` | internal/app/accrual.go:61-88 | an order not in the list is never written |
| `Accrual.CycleProcessesEachOnce` | internal/app/accrual.go:124-127 | each listed order ends the cycle as if processed alone, once; the replies for other orders and their failed updates do not affect it |
| `Accrual.FailedListingChangesNothing` | internal/app/accrual.go:51-59 | a failed listing leaves the table unchanged |
| `Accrual.CancelledOrdersUntouched` | internal/app/accrual.go:69-86 | orders at or after the cancellation point keep their rows |
| `Accrual.LedgerWriteIff` | internal/app/accrual.go:103-117 | end to end, a reply leads to a write exactly when it is a 200 whose body decoded to a non-null response; every 429 (any delay, zero or negative included), 204, other status and failure writes nothing |
| `Accrual.ProcessedVerdictIsRecorded` | internal/app/accrual.go:119-124 | a PROCESSED verdict with reward 42 sets order 111 to (PROCESSED, 42) |
| `Accrual.ThrottledOrderStaysPending` | internal/app/accrual.go:103-112 | a 429 with Retry-After 5 leaves order 111 as it was |
| `Accrual.NoContentLeavesOrder` | internal/app/accrual.go:114-117 | a 204 leaves order 111 as it was |

## Left out

- Concurrency in the accrual engine. The worker pool, the job channel, the WaitGroup and the ticker loop of `Run` (internal/app/accrual.go:36-48,61-90) are modelled as one sequential pass. Cancellation is an index: the orders before it are processed and the rest are not. In the source, a `select` with both cases ready picks either one, and an in-flight `processOrder` may still write after cancellation. Neither is modelled.
- Timing. The 5-second per-order timeout and the `time.After` back-off carry no state. An expired deadline is a `RequestFailed` exchange, and a positive delay is "no update".
- The model assumes at least one worker. With a worker count of zero or less the source starts no worker, processes nothing and leaves the dispatching goroutine blocked on the unbuffered job channel; that case is not modelled.
- The HTTP transport and JSON decoding are inputs (`Exchange`). Request building and sending errors (internal/client/client.go:27-39) are `RequestFailed`.
- `AccrualClient.OrderPath`: models `url.JoinPath` only as joining with "/" after trailing slashes are removed; an empty order number is dropped as an empty path element, giving ".../api/orders". URL parsing, percent-escaping, dot-segment cleaning and a base URL without a scheme or host are left out. A registered number passes the Luhn check, so it is a digit string or empty: escaping and dot segments do not arise for it, and the empty number is the one case handled specially.
- `Strconv.Atoi`: does not distinguish a syntax error from a range error. Both are `NumError(input)`, and the callers return either one unchanged.
- Amounts. `Balance.Current` is a float64 and the withdrawal sum is a float32 (internal/models/models.go:33-41). Both are `real` here, so rounding and the float32-to-float64 conversion are not modelled. The reward is one integer everywhere. The source declares it as int, float32 and `*int` in different files.
- Integer width. Go's `int` sum in `LuhnAlgorith` would overflow only for strings of more than 10^17 digits. The model's sum is unbounded.
- Bytes and characters. The Luhn loop reads bytes. Here a string is a sequence of characters. A non-ASCII character is a non-digit in both readings, so the result is the same.
- `order.go` and `withdraw.go` call `validator.LuhnAlgorith`, whose source is not part of this model. Both services use the `utils` implementation modelled here, which accepts the empty string. The validator package's test table expects the empty string to be rejected (pkg/validator/luhn_algorith_test.go:15). That expectation is not transferred.
- The storage layer (internal/storage). The update query behind `UpdateOrderStatus` is not part of this model. `Accrual.ApplyUpdate` assumes that a nil reward leaves the stored reward as it was. The insert stores the struct's zero reward, 0 (internal/storage/queries.go:10). The pending list and the balance are inputs. The SQL balance formula is left out.
- Pass-through services. `GetOrdersService`, `GetWithdrawalService`, `RegisterUserService`, `GetUserService` and `GetUserBalanceService` (internal/service/order.go:73-75, internal/service/withdraw.go:58-60, internal/service/service.go:37-43,80-86,115-117) return the storage call's result unchanged. Storage is not modelled, so there is nothing to state beyond identity.
- The `*http.Request` argument of both `Bind` methods is never read and is dropped.
- The order's id and upload time, and the withdrawal's id and processing time, are storage-assigned columns that no decision reads.
- The HTTP handlers, the middlewares, JWT, configuration, logging and wiring are not part of this model.
