# Verified model of the ticket-purchase protocol

This project models, in Dafny, the part of the ticketing system that moves seats, money and queued
fans: the seat table with its four conditional UPDATEs and its audit trigger, the order/payment saga
around it, the expiry sweeper, the transactional outbox, the waiting room with its admission worker,
the rate limiter, the lock, and refresh-token rotation. The main results are statements about every
run of any number of interleaved calls.

`dafny verify dfyconfig.toml` checks the whole project.

## How it is organised

- `Types`, `SeatTable`, `Ledger`: money in `int64` cents, the inventory rows, their statements, the
  audit log, and the proof that a loop of conditional UPDATEs is the atomic sale of all items.
- `Purchase`: the protocol as a state machine. One action is one statement outside a transaction, one
  statement or the commit of the confirm transaction, one gateway call, one crash, one clock tick.
  An action whose guard fails leaves the state alone, so every sequence of actions is a run.
- `Invariants`, `Guarantees`: what every action keeps, and the promises for all runs.
- `MoneyAndSeats`: the promises about order status, capture and refunds, which hold when calls on one
  order do not overlap. `Overlap` and `PaidAndCaptured`: when calls do overlap, the exact condition on a
  state under which a fulfilled order can still be refunded, can leave `paid`, or can end captured and
  not paid; and what no overlap breaks. `Counterexamples`: runs in which each of the three happens.
- `Pricing`, `Records`: what a persisted order costs and when it expires, and what units, audit lines,
  holds, orders, payments and confirmations say and whom they belong to, in every run.
- `Repositories`, `AuthorizePayment`, `ConfirmPayment`, `CreateOrder`, `InventoryService`, `Counting`: the Go methods as
  methods on mutable objects, with failures possible at each call, proved against descriptions of their
  effect. `Refinement`, `CreateRefinement` and `AuthorizePayment` prove that what the confirm method,
  the create method (with others acting between its statements), the authorize method and the bulk
  insert do is what a run of the state machine does.
- `WaitingRoom`, `Admission`, `RateLimiter`, `Locker`, `RefreshTokens`, `Outbox`: the other components,
  each with its methods and with its own runs. `OutboxOrder` and `OutboxDrains`: in which order messages
  go out and how long a row stays pending, with rows arriving at any moment, also inside a batch.

## Assumptions

- Hold tokens, lock tokens, refresh tokens and identifiers are random and never repeat; in a run, an
  action that would reuse a hold token or a lock token does nothing.
- Postgres runs at READ COMMITTED: a statement sees committed rows, a transaction holds the lock of
  every row it has updated until it ends, and another writer of that row waits. The confirm
  transaction's updates therefore become visible at its commit; its audit lines are appended there
  too, which leaves the order of the lines of each single unit as the trigger writes them.
- There is one clock and it does not go back. Its readings are parameters.
- The category table does not change while one order is being priced.
- The answers of Redis to `HoldSeat`, of the payment gateway, of the mail transport and of the user
  lookup are arbitrary. Results of queries (the GROUP BY of `CountByStatus`, the listing of expired
  holds) are parameters required to be what the query describes; the listing of expired holds is also
  given as a method that computes one.
- Scores of the Redis sorted set are integers; as floats they are exact below 2^53.

## Where the code differs from its documentation

- The comment of the rate limiter and `docs/inventory-locking.md` speak of about twice the limit at a
  window boundary. The least upper bound is 2 * limit - 1: the call that opened the older window cannot
  lie in the same interval as the end of that window and the start of the next
  (`RateLimiter.RateBound`, `RateLimiter.BoundIsReached`).
- `CreateOrder` promises that a retry with the same key returns the existing order. Two concurrent
  first calls with one key can both miss the lookup; the unique key then refuses the second insert, and
  that caller gets a conflict (`Counterexamples.RetryGetsConflict`). A call that began with the key free
  is refused for it exactly when the key is taken by the time it commits
  (`CreateRefinement.RefusedForKeyIffTaken`). There is still only one order
  (`Guarantees.KeysAreFunctional`).
- `ConfirmPayment` is meant to be safe under webhook redelivery. It is as far as seats, sales and
  notifications go. But it reads the order's status outside its transaction, so a second delivery that
  overlaps the first can refund an order that was fulfilled and take it out of `paid`
  (`Counterexamples.FulfilledOrderRefunded`), and can leave a captured payment with an expired order
  (`Counterexamples.CapturedOrderUnpaid`).
- `ProcessPending` promises oldest first. created_at is the start of the inserting transaction, and a
  confirmation that waits for a row lock commits a row older than rows already sent
  (`OutboxOrder.LateCommitOvertakes`) or already listed (`OutboxOrder.CommitDuringBatchOvertakes`); such
  rows also delay the ones that were pending (`OutboxDrains.LateCommitDelays`). What holds is
  `OutboxOrder.OldestFirstIffNonePassed`, `OutboxDrains.Drains` and `OutboxDrains.LeavesExactly`.
- `AuthorizePayment` can be retried by a client, but when its last statement fails the payment exists and
  the order is still pending; every retry then ends in a conflict
  (`AuthorizePayment.FailedUpdateBlocksRetries`).
- The total of an order is exact only below 2^63 cents. The table's CHECK refuses a negative total and
  lets a total through that has wrapped around to a small positive one
  (`CreateOrder.UnderchargedOrderExists`).

## Model

| member | source | states |
|---|---|---|
| `Guarantees.NoOversell` | internal/service/order/service.go:304-343 | in every run, no unit occurs twice in the committed sales, neither in two transactions nor inside one, and no two sold units are the same seat of an event |
| `Guarantees.SoldMeansLogged` | internal/repository/postgres/inventory.go:145-178 | in every run, a unit the table calls sold is in a committed sale, and a unit of a committed sale is sold or void and never available or held again |
| `Guarantees.TransactionIsAtomic` | internal/repository/postgres/tx.go:39-59 | under any interleaving the confirm transaction commits only if its items are distinct units all held under their stored tokens at that moment, and then is the atomic sale; it aborts only if not; abort and crash leave every table as it was |
| `Guarantees.CommitIsTheSale` | internal/service/order/service.go:304-343 | the committed table equals the result of one ConfirmSale after another on the table as it is at commit |
| `Guarantees.AbortMeansNoSale` | internal/service/order/service.go:306-312 | an abort happens only where the UPDATEs in turn could not all match, and changes no table |
| `Guarantees.RefundedStaysUnfulfilled` | internal/service/order/service.go:345-361 | after a confirm transaction aborted on an invalid hold, no continuation of the run ever commits a sale of that order |
| `Guarantees.ExactlyOnceEnqueue` | internal/service/order/service.go:304-343 | in every run the confirmation rows of an order are as many as its committed sales, and at most one |
| `Guarantees.SaleOfOrderIsUnique` | internal/service/order/service.go:304-343 | two committed sales of one order are the same sale, because they would share a unit |
| `Guarantees.LedgerRefinesTable` | migrations/000010_inventory_audit_log.up.sql:26-47 | in every run, replaying the log gives the statuses of the table; each unit's lines start with NULL to available, each names the status before it, held follows only available, sold only held, available only held, void anything but void; they end in the current status and contain at most one sale, with at most a void after it |
| `Guarantees.KeysAreFunctional` | internal/repository/postgres/order.go:52-94 | under any interleaving one order per tenant and key, one payment per order, and the payment found through an order's key is that order's |
| `Records.ConfirmationsAreAddressed` | internal/service/order/service.go:328-338 | in every run each row of the outbox names an existing order and has that order's tenant, buyer, number of items and total |
| `Records.PaymentsAreOverTheTotal` | internal/service/order/service.go:246-258 | in every run each payment is over its order's total, under its order's tenant and key |
| `Records.OrdersAreAsAsked` | internal/service/order/service.go:176-207 | in every run each order has the tenant, buyer and key of one request, and one item per wanted hold of it, in order, with its unit and token |
| `Records.UnitsAreAsCreated` | internal/repository/postgres/inventory.go:54-81 | in every run each unit has the tenant, event, category and seat its creation carried, and keeps them |
| `Records.TokensAreAsGranted` | internal/service/inventory/service.go:133-145 | in every run the unit, user and expiry on record for a token are those of the hold that was granted |
| `Records.HoldersAreKnown` | internal/repository/postgres/inventory.go:105-116 | in every run a held unit carries the token, user and expiry its hold was granted for |
| `Records.HoldsAreLogged` | migrations/000010_inventory_audit_log.up.sql:26-47 | in every run each audit line names its unit's tenant; a hold's line carries that hold's token and user, other lines neither; and each hold has exactly one line |
| `Invariants.RunOk` | internal/repository/postgres/inventory.go:105-178 | the inductive invariant (rows, issued tokens, ledger, locks, calls in flight, sales, keys, outbox) holds at the end of every run |
| `Invariants.StepKeeps` | internal/service/order/service.go:101-391 | each of the 22 actions keeps the invariant |
| `Invariants.PutKeepsRows` | migrations/000006_inventory.up.sql:45-55 | a write that keeps a row's event and seat, or passes the unique key, keeps the held-iff-token CHECK and seat uniqueness of the whole table |
| `Invariants.HoldKeeps` | internal/repository/postgres/inventory.go:105-116 | a hold keeps the invariant, in particular that a held row carries a token issued for this unit and this expiry |
| `Invariants.ReleaseKeeps` | internal/repository/postgres/inventory.go:126-137 | a release keeps the invariant |
| `Invariants.SellUnitKeeps` | internal/repository/postgres/inventory.go:145-156 | a stand-alone sale keeps the invariant, in particular that sales are disjoint |
| `Invariants.VoidKeeps` | internal/repository/postgres/inventory.go:164-178 | a withdrawal keeps the invariant |
| `Invariants.LockKeeps` | internal/service/order/service.go:305-313 | a succeeding UPDATE of the open transaction extends the distinct, locked and still valid prefix of its items by one |
| `Invariants.AbortIsJustified` | internal/service/order/service.go:306-312 | an UPDATE that fails in the open transaction means that two items name one unit or a stored token is no longer on its unit, judged by the committed table alone |
| `Invariants.CommitIsAtomic` | internal/service/order/service.go:304-343 | when all UPDATEs have gone through, all items are at that moment distinct units held under their tokens |
| `Invariants.ConfirmCommitKeeps` | internal/service/order/service.go:304-343 | the commit keeps the invariant: sales stay disjoint, the ledger agrees, one outbox row per sale, no other transaction's lock is lost |
| `MoneyAndSeats.MoneyAndSeatsAgree` | internal/service/order/service.go:229-391 | when calls on one order do not overlap, with a crash possible anywhere: a captured payment has a paid order whose units are all sold or void; paid means sold exactly once; no order is both refunded and fulfilled |
| `MoneyAndSeats.PaidIsAbsorbing` | internal/service/order/service.go:272-289 | when calls on one order do not overlap, a paid order stays paid; the exact condition for overlapping calls is `PaidAndCaptured.UnpaidPossibleIffExposed` |
| `Overlap.RefundPossibleIffExposed` | internal/service/order/service.go:272-391 | for every reachable state with a fulfilled order: some continuation refunds it if and only if its status is no longer paid or a confirmation past the status check, or an authorization about to overwrite the status, is in flight |
| `Counterexamples.FulfilledOrderRefunded` | internal/service/order/service.go:273-289 | a run in which two overlapping confirmations leave an order paid, captured and sold, a continuation that refunds it, and one after which it is no longer paid |
| `Counterexamples.CapturedOrderUnpaid` | internal/service/order/service.go:304-366 | a run in which the first delivery sells and pays the order, and a continuation in which the second refunds and closes it before the first captures the payment |
| `Counterexamples.RetryGetsConflict` | internal/service/order/service.go:106-110 | a run in which two calls of one key both begin with the key free; the first gets its order, the second ends with none |
| `PaidAndCaptured.UnpaidPossibleIffExposed` | internal/service/order/service.go:229-391 | for every reachable state with a fulfilled order: some continuation takes it out of paid if and only if its status is no longer paid or a confirmation past the status check, or an authorization about to overwrite the status, is in flight |
| `PaidAndCaptured.CapturedUnpaidPossibleIffAtRisk` | internal/service/order/service.go:229-391 | for every reachable state with a fulfilled order: some continuation ends with its payment captured and the order not paid if and only if the capture is still to come and the order is exposed, or the payment is captured and the status is already different or about to be overwritten by an authorization or by a refund that has noted the payment before |
| `PaidAndCaptured.PaidOrCapturedMeansSold` | internal/service/order/service.go:304-366 | in every run, overlapping calls included, an order that is paid or has a captured payment was sold exactly once and all its units are sold or void |
| `PaidAndCaptured.AloneIsNeverAtRisk` | internal/service/order/service.go:229-391 | without overlapping calls on one order the condition for a captured, unpaid order never arises |
| `Pricing.EveryOrderIsPriced` | internal/service/order/service.go:117-213 | in every run, reads interleaved with anything: the total of an order is the int64 sum of its item prices, exact iff the sum is below 2^63, all in one currency, and it expires with the earliest of the expiries its tokens were issued with |
| `Pricing.ReadKeepsPriced` | internal/service/order/service.go:126-174 | a row held under the wanted token adds its price and exactly the expiry that token was issued with |
| `Overlap.AloneIsNeverExposed` | internal/service/order/service.go:272-391 | without overlapping calls on one order the condition for a refund of a fulfilled order never arises |
| `SeatTable.InTurnIsAtomic` | internal/service/order/service.go:305-313 | one ConfirmSale per item, given up at the first that matches nothing, succeeds iff the items are distinct units all held under their tokens, and then gives exactly the table in which all of them are sold at once |
| `SeatTable.SellOneMore` | internal/repository/postgres/inventory.go:145-156 | extending an atomic sale by one item is one more ConfirmSale, possible iff all items together are sellable |
| `Ledger.PutKeepsLedger` | migrations/000010_inventory_audit_log.up.sql:26-47 | a write with a legal change of status keeps every unit's log lines chained and ending in its status |
| `Ledger.SellAllKeepsLedger` | migrations/000010_inventory_audit_log.up.sql:26-47 | so does the sale of all items of an order |
| `Ledger.ReplayIsTable` | migrations/000010_inventory_audit_log.up.sql:26-47 | the log alone determines the status of every unit |
| `Ledger.SaleIsFinal` | internal/repository/postgres/inventory.go:105-178 | in a unit's chain a sale follows a hold, and at most one line, a void, follows the sale |
| `Ledger.SoldAtMostOnce` | internal/repository/postgres/inventory.go:145-156 | a unit's chain contains at most one sale |
| `Repositories.Database.Write` | migrations/000010_inventory_audit_log.up.sql:26-47 | writes the row and appends one audit line, with the previous status and the tenant, token and holder of the new row, exactly on insert or on a change of status |
| `Repositories.Database.BulkCreate` | internal/repository/postgres/inventory.go:54-81 | all units are inserted iff their identifiers are new and distinct and no two rows and units of one event name the same seat, otherwise none; the rows are exactly the units asked for |
| `Repositories.BatchAddsExactlyItsUnits` | internal/repository/postgres/inventory.go:54-81 | the loop of inserts goes in iff the keys admit the batch as a whole, and then adds one available row per unit with its tenant, event, category and seat, and touches no other row |
| `Repositories.Database.Hold` | internal/repository/postgres/inventory.go:105-116 | succeeds iff the tenant has the unit available; then the row is held under the token by the user until the expiry, and the audit line says so |
| `Repositories.Database.Release` | internal/repository/postgres/inventory.go:126-137 | succeeds iff the tenant has the unit held under this token; then it is available without hold columns and one line is logged |
| `Repositories.Database.ConfirmSale` | internal/repository/postgres/inventory.go:145-156 | succeeds iff the tenant has the unit held under this token, whether or not the hold has expired; then it is sold without hold columns and one line is logged |
| `Repositories.Database.VoidUnit` | internal/repository/postgres/inventory.go:164-178 | succeeds iff the tenant has the unit, whatever its status; then it is void without hold columns |
| `Repositories.Database.SetOrderStatus` | internal/repository/postgres/order.go:145-157 | unconditional update of one order of the tenant; reports whether there is one |
| `Repositories.Database.SetPaymentStatus` | internal/repository/postgres/payment.go:97-117 | unconditional update of one payment of the tenant; reports whether there is one |
| `Repositories.Database.Rollback` | internal/repository/postgres/tx.go:39-59 | every table is as it was when the transaction began |
| `ConfirmPayment.RunTransaction` | internal/service/order/service.go:304-343 | with a failure possible at each statement: commits iff all items are distinct units held under their tokens and nothing fails; reports an invalid hold iff one is met before the failure; the tables are those of the atomic sale or those from before |
| `ConfirmPayment.SellItems` | internal/service/order/service.go:305-313 | the loop ends with all items sold as in the atomic sale, at the first item that is not sellable, or at the failing statement, each exactly when that is what it meets first |
| `ConfirmPayment.RefundAndFail` | internal/service/order/service.go:373-391 | asks the gateway for the payment's whole amount; the compensation stops at its first failing call, with exactly the writes before it |
| `ConfirmPayment.Confirm` | internal/service/order/service.go:272-367 | the whole call equals its atomic description for every input, every database and every combination of failures, and asks for a refund, of its payment's amount, iff it lost its holds |
| `ConfirmPayment.DoneMeans` | internal/service/order/service.go:272-367 | success, and success without capture, each iff its conditions on the database; then exactly the items' units are sold, the order is paid, the payment captured and the buyer's confirmation enqueued |
| `ConfirmPayment.GivingUpMeans` | internal/service/order/service.go:345-391 | each refusal iff its reason, changing nothing; after a lost hold the payment is refunded and the order expired, as far as the calls go through |
| `AuthorizePayment.Authorize` | internal/service/order/service.go:229-264 | each outcome iff its cause; the gateway is asked once, for the order's total under its key; the payment recorded is over that total and the order awaits payment |
| `AuthorizePayment.AuthorizedIsDue` | internal/service/order/service.go:229-302 | a recorded payment is one ConfirmPayment accepts for its order |
| `AuthorizePayment.FailedUpdateBlocksRetries` | internal/service/order/service.go:246-261 | after a failed status update every retry changes nothing and, unless it fails earlier, ends in a conflict |
| `AuthorizePayment.AuthorizeIsARun` | internal/service/order/service.go:229-264 | for every input and failure the method does what a run of the protocol does and leaves nothing in flight |
| `ConfirmPayment.ReplayIsNoOp` | internal/service/order/service.go:287-289 | confirming again after a sale changes nothing and reports success |
| `ConfirmPayment.RetryAfterFailure` | internal/service/order/service.go:304-343 | after an infrastructure failure before the commit the same call behaves as if it were the first |
| `ConfirmPayment.AllOrNothing` | internal/service/order/service.go:304-343 | units, log and outbox change all together with the order, only if all items were sellable, or not at all; the row added to the outbox has the order's tenant, buyer, number of items and total |
| `ConfirmPayment.RefundReplayIsStable` | internal/service/order/service.go:345-391 | replaying a confirmation that lost its holds refunds again and leaves the tables as they are |
| `Refinement.ConfirmIsARun` | internal/service/order/service.go:272-391 | for every input and every failure, what the confirm method does to a database without open transactions is what some run of the interleaved protocol does: the same tables, exactly the sale, the refund request and the failed confirmation that the outcome stands for, and no call or lock left |
| `Refinement.SellsInTurn` | internal/service/order/service.go:305-313 | if the first k items are sellable together, k UPDATEs of an undisturbed transaction go through and leave exactly their units locked |
| `Refinement.AbortAt` | internal/service/order/service.go:306-312 | the first item that is not sellable after those before it aborts the transaction without a trace in the tables |
| `Refinement.BulkCreateIsARun` | internal/repository/postgres/inventory.go:54-81 | a batch that goes in is a run of single inserts |
| `CreateRefinement.CreateIsARun` | internal/service/order/service.go:101-219 | with arbitrary actions of others between its statements, each read seeing the table and clock of its moment, an acceptable request is one start, one read per item and one commit of the protocol, which persists exactly the described order if the constraints admit it then, otherwise none |
| `CreateRefinement.RefusalEndsTheCall` | internal/service/order/service.go:126-174 | a missing unit, a lost or expired hold or another currency ends the call at that very read, with no write |
| `CreateRefinement.RefusedForKeyIffTaken` | internal/service/order/service.go:106-110 | whatever others do meanwhile, a call that began with the key free is refused for the key iff the key is taken when it commits, and then writes nothing |
| `CreateOrder.Create` | internal/service/order/service.go:101-219 | with each item read from its own table and clock, others committing before the INSERT, and a failure possible at each repository call: returns the existing order iff the key is used; persists a new one iff every item is acceptable and the constraints admit it at that moment, otherwise writes nothing; reports the first problem, and a conflict, a violated CHECK or a failed insert each iff it is that |
| `CreateOrder.PriceItems` | internal/service/order/service.go:125-183 | the loop stops at the first problem in item order, or has accumulated items, wrapped total, currency and tightest expiry of the whole request |
| `CreateOrder.CheckItem` | internal/service/order/service.go:126-165 | one round decides as fresh lookups would: the per-event cache agrees with the catalog, the running count with the items so far, and a failing read or listing is reported where it happens |
| `CreateOrder.FindCategory` | internal/service/order/service.go:149-160 | finds a category of the list with the identifier, and none iff there is none |
| `CreateOrder.TotalIsExactIffItFits` | internal/service/order/service.go:167-192 | the persisted total is the sum of the prices if and only if that sum is below 2^63 |
| `CreateOrder.UnderchargedOrderExists` | internal/domain/money.go:28-33 | an acceptable order whose total wraps around to a smaller non-negative amount |
| `CreateOrder.ExpiryIsTheMinimum` | internal/service/order/service.go:136-138 | ExpiresAt is the minimum of the holds' expiries, attained by a hold that had not expired when it was read |
| `CreateOrder.LimitsRespected` | internal/service/order/service.go:162-165 | no category occurs in a persisted order more often than its MaxPerOrder |
| `CreateOrder.AcceptedIffGood` | internal/service/order/service.go:126-174 | a request passes iff every hold is good, no category has more units in the whole order than it allows, the limit itself included, and all prices are in one currency |
| `CreateRefinement.TotalIsOfItsItems` | internal/service/order/service.go:167-192 | the persisted total is the int64 sum of the persisted items' prices |
| `CreateOrder.ItemsFollowTheRequest` | internal/service/order/service.go:176-204 | one item per wanted hold, in order, with its unit and its token, at the price of the category that its event lists under the unit's category identifier, all in the order's currency |
| `Types.AddMoney` | internal/domain/money.go:28-33 | fails iff the currencies differ; otherwise exact when the sum fits |
| `Types.WrapAdds` | internal/domain/money.go:28-33 | wrapping at every addition is wrapping once at the end |
| `InventoryService.HoldSeat` | internal/service/inventory/service.go:96-145 | for arbitrary answers of waiting room, limiter and lock: either no change, or exactly one successful hold whose token, user and expiry are on the row; each refusal iff its gate said no; the lock is released on every path that took it |
| `InventoryService.SweepExpiredHolds` | internal/service/inventory/service.go:184-203 | with arbitrary actions of others between the listing and each release, and a failure anywhere: the count returned is the number of its statements that changed the table |
| `InventoryService.SweepFreesOnlyExpiredHolds` | internal/repository/postgres/inventory.go:126-137 | a row the sweep frees carries at that moment exactly the listed token with exactly the listed expiry, which lay before the listing |
| `InventoryService.FreesIffChanges` | internal/repository/postgres/inventory.go:126-137 | a release of the sweep changes the table iff its unit is at that moment held under the listed token and not locked |
| `InventoryService.ListExpiredHolds` | internal/repository/postgres/inventory.go:184-207 | expired holds, each once, earliest expiry first, at most the limit, and none left out expired before one listed |
| `InventoryService.QuietSweepFreesAll` | internal/service/inventory/service.go:184-203 | a sweep nobody interferes with frees and counts every row it lists, and leaves no expired hold if it had room to list them all |
| `InventoryService.ListingHasTokens` | migrations/000006_inventory.up.sql:51-55 | every listed row has a token, so the loop's guard never skips a row |
| `Counting.CountByStatus` | internal/repository/postgres/inventory.go:211-246 | the folded map is the direct count of rows per category and status, with a key exactly for categories that have units |
| `Counting.TotalAvailable` | internal/service/admission/service.go:91-127 | summing over the map in any order gives the number of the event's available units |
| `Counting.FourStatuses` | migrations/000006_inventory.up.sql:18-56 | available, held, sold and void of a category add up to its units |
| `Counting.UnitsConserved` | internal/repository/postgres/inventory.go:54-81 | in every run that sum is the number of units ever created for the category |
| `WaitingRoom.Room.Join` | internal/repository/redis/waitingroom.go:49-60 | with commands of others between and after its own, and a failure possible at each: the fan is added, unless queued, under the number drawn first; the position returned is the fan's, and NotQueued iff the fan is not in the queue by then |
| `WaitingRoom.UninterruptedJoinIsQueued` | internal/repository/redis/waitingroom.go:49-60 | without commands of others in between, the fan stands in the queue afterwards |
| `WaitingRoom.UninterruptedJoinGoesLast` | internal/repository/redis/waitingroom.go:49-60 | in every run an uninterrupted join puts a new fan at the end under the next number and leaves a queued one alone |
| `WaitingRoom.Room.Position` | internal/repository/redis/waitingroom.go:65-74 | the 1-based rank, and none iff the fan is not queued |
| `WaitingRoom.Room.Admit` | internal/repository/redis/waitingroom.go:95-127 | takes exactly min(count, length) fans off the front; each of them is admitted until now + ttl and no longer, and no other fan's window changes; what is lost when the pop or the marking fails |
| `WaitingRoom.Room.Mark` | internal/repository/redis/waitingroom.go:107-124 | the pipeline opens a window for each popped fan in queue order, up to the command at which it fails |
| `WaitingRoom.Room.Status` | internal/service/inventory/service.go:229-246 | admitted iff a window is open, otherwise the rank, otherwise not queued; each error iff its call fails |
| `WaitingRoom.TickIsARun` | internal/service/admission/service.go:91-127 | a tick that nobody interferes with admits its whole quota from the front |
| `WaitingRoom.AdmitCount` | internal/service/admission/service.go:91-137 | the least of queue length, available units and cap, and zero iff one of them is not positive |
| `WaitingRoom.StepKeeps` | internal/repository/redis/waitingroom.go:49-60 | scores stay sorted and distinct and no number is used twice, however INCR, ZADD NX and ZPOPMIN of different callers interleave |
| `WaitingRoom.KeepsPlace` | internal/repository/redis/waitingroom.go:49-60 | whatever happens, a queued fan waits with the number fixed first and no other, or has been admitted with it |
| `WaitingRoom.FirstComeFirstServed` | internal/repository/redis/waitingroom.go:95-127 | while a fan waits, everybody admitted drew a smaller number; no number is admitted twice |
| `WaitingRoom.BoundedWait` | internal/service/admission/service.go:63-137 | a fan at position p, no earlier-numbered join in flight, is admitted once ceil(p / c) ticks that read the queue from now on have popped, if each of them sees at least c units and a cap of at least c, whatever ticks already in flight do |
| `Admission.Min64` | internal/service/admission/service.go:129-137 | the smallest of its arguments |
| `Admission.AdmitForEvent` | internal/service/admission/service.go:91-127 | admits exactly the quota from the front of the queue, or reports an error iff a call it makes fails |
| `Admission.VisitEvent` | internal/service/admission/service.go:76-85 | an event that fails is skipped and counts nothing |
| `Admission.AdmitForTenant` | internal/service/admission/service.go:76-85 | every event of the tenant loses exactly its quota and the count is the sum over those that succeed |
| `Admission.NextTenant` | internal/service/admission/service.go:69-75 | a tenant whose events cannot be listed is skipped and counts nothing |
| `Admission.RunOnce` | internal/service/admission/service.go:63-89 | every event of every tenant that could be listed loses exactly its quota whatever happens to the others, and the total is the number of fans that left the queues of the visits that succeed; a failing tenant list changes nothing |
| `RateLimiter.Limiter.Allow` | internal/repository/redis/ratelimit.go:36-47 | counts the call, sets the deadline on the first call of a window only, allows iff the count is within the limit, leaves other keys alone |
| `RateLimiter.RateBound` | internal/repository/redis/ratelimit.go:36-47 | for every sequence of timed commands, late or missing EXPIREs included, an interval of the window's length contains at most 2 * limit - 1 allowed calls |
| `RateLimiter.WindowAllowsLimit` | internal/repository/redis/ratelimit.go:36-47 | between two expiries of the key exactly min(calls, limit) calls are allowed |
| `RateLimiter.BoundIsReached` | internal/repository/redis/ratelimit.go:36-47 | for every limit and every window of at least two ticks, a run of calls alone reaches the bound |
| `RateLimiter.AllowIsARun` | internal/repository/redis/ratelimit.go:36-47 | a call is an INCR and, if it saw a count of one, an EXPIRE, with exactly the effect the method states |
| `Locker.Locker.Acquire` | internal/repository/redis/lock.go:49-56 | takes the key iff there is no entry or its deadline has passed, and then until now + ttl; an error is reported iff the answer is lost, whether or not the command took effect |
| `Locker.Locker.Release` | internal/repository/redis/lock.go:63-69 | deletes the key iff it still carries the caller's token; an error is reported iff the answer is lost, whether or not the command took effect |
| `Locker.MethodsAreCommands` | internal/repository/redis/lock.go:49-69 | what the methods do to the store is what the commands of a run do |
| `Locker.MutualExclusion` | internal/repository/redis/lock.go:36-69 | in every state of every run at most one unexpired holder per key |
| `Locker.LocksLapse` | internal/repository/redis/lock.go:49-56 | in every run a grant made at g with ttl > 0 and not given back is held until g + ttl and no longer, and the store agrees |
| `Locker.GrantedIffFree` | internal/repository/redis/lock.go:49-56 | in every run an attempt with a new token is granted iff nobody holds the key then, and lasts from that moment for its ttl |
| `Locker.LateReleaseIsHarmless` | internal/repository/redis/lock.go:36-42 | a release by a former holder never removes a successor's lock: the successor still holds it and the store still names it |
| `Locker.ReleaseFrees` | internal/repository/redis/lock.go:63-69 | the holder's own release frees the key at once |
| `RefreshTokens.AuthService.Login` | internal/service/auth/service.go:250-294 | adds one unrevoked token of the user that begins a new login and expires at now + ttl, or nothing iff the insert fails |
| `RefreshTokens.AuthService.Revoke` | internal/repository/postgres/user.go:162-171 | succeeds iff the token exists unrevoked; no other row changes |
| `RefreshTokens.AuthService.RefreshAccessToken` | internal/service/auth/service.go:180-209 | issues a successor for the same user, expiring at now + ttl, iff the token is live, unexpired, its user active and no call fails, using the token and no other up first; each refusal and each failure iff its reason; a failed insert leaves the token used up |
| `RefreshTokens.AuthService.Logout` | internal/service/auth/service.go:214-229 | idempotent: on success the token is revoked and nothing else has changed; fails, changing nothing, iff the lookup fails or the revocation of a live token does |
| `RefreshTokens.RefreshIsARun` | internal/service/auth/service.go:180-209 | a refresh nobody interferes with is lookup, revoke, issue; without the issue it is the call whose insert failed |
| `RefreshTokens.LogoutIsARun` | internal/service/auth/service.go:214-229 | a logout nobody interferes with is lookup, revoke |
| `RefreshTokens.RotationIsLinear` | internal/service/auth/service.go:180-209 | under any interleaving of lookups, revocations, issues, logouts and deaths each token has at most one successor, a login's tokens form one chain, and only its newest can be unrevoked |
| `RefreshTokens.OneActivePerLogin` | internal/service/auth/service.go:204-208 | while a call is about to issue a login's next token, that login has no unrevoked token and no second such call |
| `RefreshTokens.SpentStaysSpent` | internal/repository/postgres/user.go:162-179 | once a token is revoked and no call is about to exchange it, no run ever issues a successor to it |
| `Outbox.Dispatcher.ListPending` | internal/repository/postgres/notification.go:55-88 | pending rows in the order of created_at, at most the limit, and none left out is older than one of them |
| `Outbox.Dispatcher.MarkSent` | internal/repository/postgres/notification.go:90-100 | unconditional update by identifier: sent, one attempt more, nothing else; a failed update changes nothing |
| `Outbox.Dispatcher.MarkFailed` | internal/repository/postgres/notification.go:102-112 | unconditional update by identifier: failed, one attempt more, nothing else; a failed update changes nothing |
| `Outbox.Dispatcher.HandleRow` | internal/service/notification/service.go:52-66 | one row is sent and marked, or marked failed; it counts iff it was sent and marked |
| `Outbox.Dispatcher.ProcessPending` | internal/service/notification/service.go:46-69 | with rows arriving before each row it handles: exactly the listed rows are tried, in order, whatever fails; the new state is that of the run of one listing and one handling per row, and the count returned is that of the rows sent and marked |
| `Outbox.Dispatcher.Receive` | internal/repository/postgres/notification.go:28-53 | rows committed by others while a batch is open are added and leave the batch alone |
| `Outbox.CopiesAreMarksPlusLosses` | internal/service/notification/service.go:46-69 | in every run the messages of a row are one if it is marked sent, plus one for each time its mark was lost |
| `Outbox.CountsAddUp` | internal/service/notification/service.go:46-69 | in every run the counts returned add up to the rows marked sent |
| `OutboxOrder.OldestFirstIffNonePassed` | internal/repository/postgres/notification.go:55-112 | without lost marks no message goes out twice, and messages go out in the order of created_at if and only if no two of them are for rows of which the older arrived when the newer was already sent or listed; rows arrive at any moment and batches may be abandoned |
| `OutboxOrder.LateCommitOvertakes` | migrations/000014_notifications.up.sql:20 | a transaction that began first and committed late is sent after a newer row |
| `OutboxOrder.CommitDuringBatchOvertakes` | internal/service/notification/service.go:46-69 | a transaction that began first and commits while the newer row is only listed is sent after it |
| `OutboxDrains.LateCommitDelays` | migrations/000014_notifications.up.sql:20 | a late row takes the place of the one that was pending |
| `OutboxDrains.Drains` | internal/service/notification/service.go:46-69 | from any state with n rows pending, row x has left pending after ceil((n + late) / batch) ticks whose marks work, where late counts the rows enqueued meanwhile, inside batches too, that are not newer than x |
| `OutboxDrains.LeavesExactly` | internal/service/notification/service.go:46-69 | where created_at tells rows apart and every listing asks for the same number: between two ticks a waiting row has left pending if and only if at some point of the run the rows ahead of it and the older ones arrived were fewer than the places in the batches listed |

## Left out

- HTTP handlers, middleware, configuration, logging and process wiring; row-level security beyond the tenant being part of every key.
- The Stripe client, webhook signatures, bcrypt, JWTs and hashing; access tokens.
- Rendering and transport of e-mail, the event stream and the object store.
- Columns that no decision reads (provider identifiers, raw responses, timestamps, user agents) and the client secret a payment intent returns.
- CRUD of venues, categories, tenants and memberships, and of orders outside the saga; a cancelled order status, which no modelled code writes.
- A change of the category table during one call of CreateOrder. In the protocol the price of a read is free, and a refusal that depends on the category alone is a crash of the call.
- Malformed members of the sorted set, which the code never writes.
- RateLimiter.Limiter.Allow: rounding of the window to the resolution of Redis is not modelled.
- OutboxOrder.OldestFirstIffNonePassed: one dispatcher; two dispatchers listing the same rows can send them twice.
- A restart of Redis that loses keys, and Postgres deadlock detection, which shows up as a failing statement.
