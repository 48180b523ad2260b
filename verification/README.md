# Verification of the commerce backend's order protocol

A Dafny model of how this repository keeps orders, stock, coupons, payments and shipments right while many requests run
at once, with the smaller mechanisms it relies on: idempotent checkout, the hash-chained audit log, the in-memory cache,
the per-user lock, refresh-token rotation, money arithmetic and the private-address check.

`dafny verify dfyconfig.toml` checks everything.

## How it is built

**One order.** `Orders` has the order document and every conditional update the system makes to one; the life of an
order is a list of updates by any writers, each of which matched or missed.

**The protocol.** `Store` has the collections and the atomic calls made on them. `Protocol` is a step system: a state is the
database plus the requests under way (cart edit, checkout, cancel, refund request, webhook, sweep, shipment update), and any
request may make its next database call at any time, on whatever copy it read before. Calls may throw, and users may start
more requests at any point, and fill their carts again as often as they like: a cart edit leaves the cart with any lines, which
covers adding, changing and removing. A transaction is a block of steps with nothing in between, so what holds after every
step holds with and without transactions. `Conservation`, `CouponLimits`, `UserLimits`, `RefundEvents`, `Standing`, `Books`,
`Resting`, `Deliveries` and `Repeats` prove what every run keeps, and `Schedules` what is gained when sweeps and other requests
leave running checkouts alone. `Races` and `LateReturns` are concrete runs, followed state by state with `Runs`.

**The services as written.** `Database` is a class with one method per database call; `Inventory`, `Sweeper`, `Checkout`,
`Cancellation` and `Webhooks` are the services' loops over it, proved against specification functions. Checkout and webhook
run over a connection that may fail at any call, with and without a transaction. `Agreement` proves that the step system's
checkout, left alone, is the service's, and `LoneTasks` the same of its cancellation, webhook and sweep.

**Other mechanisms.** `Shipments`; `Idempotency` with `Provisos` and `IdempotencyMiddleware`, `Attempts` (the
browser's half) and `EndToEnd` (both halves); `AuditChain`, `LruCache`, `Locks`, `Tokens`, `Pricing`, `Addresses` and `Ipv6`
stand alone. `Sums`, `Text` and `Wrappers` are shared helpers.

## What the proofs found

- *Stock can be returned twice without transactions.* Checkout's undo of a reservation
  (src/services/OrderService.ts:80) does not look at the row's status. If a sweep or a cancellation released that row while
  the checkout was still running, the checkout's own undo returns the units again. `Races.ReturnedTwiceHappens` is a run of
  ten actions that takes a shelf from five units to seven. `Conservation.StockConserved` holds on every run with those units
  counted (`ReturnedTwice`), and the exact balance holds whenever no running checkout was disturbed (`touched`). Transactions
  guarantee that (`Books.TransactionsDisturbNothing`); so, without them, does a schedule anybody can check beforehand: sweeps
  start before the deadline of every running checkout, and no request names the order of one
  (`Schedules.ConservedOnSchedule`; the run above breaks it, `Schedules.RaceIsOffSchedule`).
- *A repeated delivery can move stock after its event is on record.* The second of two concurrent deliveries may have taken
  a reservation over when the first, finding nothing left to release, writes the record
  (src/services/PaymentService.ts:140-147); the second then returns the units. `LateReturns.ReturnsAfterRecord` is such a run
  of twenty-two actions. `Repeats.RepeatChangesNothing` says exactly when: a repeated delivery changes stock after the record
  iff it has taken a row over and not yet returned its units, and it never changes an order or a reservation.
- *The refund table is not the whole relation.* A provider refund moves the refund state from any value to processed
  (src/services/PaymentService.ts:130), so a refund nobody asked for goes from none to processed, which the table in
  src/services/orderStateMachine.ts:25-31 does not list. The model follows the code.
- *One key can order twice in three ways.* A request outlives two minutes and is overtaken, an outcome is never stored, or
  the record expires before the retry. `Idempotency.OneOrderPerKey` names the three as provisos; `Provisos` has one run for
  each, in which the other two are met.
- *A lapsed reservation can stay reserved.* A sweep leaves a listed row alone when its order is cancelled, failed or refunded
  (src/services/inventoryService.ts:103). After any run such a row belongs to a checkout still running, to one that was
  disturbed, or to an order being released right now (`Resting.StuckIsPassing`).
- *A stored 423 is replayed.* The client keeps its key after a 423, and the server has stored that answer, so retries get it
  back until the record expires (`Idempotency.ReplayedUnchanged`). No claim of progress is made.

## Model

| member | source | states |
|---|---|---|
| Orders.UpdateKeepsConsistent | src/repositories/PaymentRepository.ts:36-51 | any conditional update, on however stale a read, keeps the order in a reachable state, moves status and payment along their tables, and never rewrites history, items, total or a set delivery time |
| Orders.StatusesMove | src/services/paymentStateMachine.ts:4-17 | the tables written out: a status changes only by cancelling before fulfilment, by confirming on payment, or forward; a payment only from unpaid to paid or failed, or from paid to refunded |
| Orders.RunKeepsConsistent | src/services/orderStateMachine.ts:8-19 | the same for every update of every interleaved list of updates |
| Orders.ReachableTriples | src/services/OrderService.ts:225-300 | the (status, payment, refund) combinations an order can reach are exactly fifteen: nothing else occurs, and each of them does (`Orders.ClosedMeans` reads them off: confirmed or later means paid or refunded, and so on) |
| Orders.HistoryClimbs | src/services/paymentStateMachine.ts:4-17 | the recorded payment history visits strictly later states |
| Orders.EachOutcomeOnce | src/services/PaymentService.ts:119-139 | no payment outcome is written to one order twice, however many webhooks ran and however they interleaved |
| Orders.OrderDocument.ApplyPaymentTransition | src/services/paymentStateMachine.ts:19-34 | refuses edges outside the table unchanged; otherwise records the edge and confirms a pending order that is paid |
| Orders.TransitionAgrees | src/repositories/PaymentRepository.ts:36-51 | on the order it matched, the compare-and-set writes what the in-memory state machine would |
| Orders.RefusalExplains | src/services/OrderService.ts:323-335 | the answer "changed meanwhile" is given exactly when the refund request would now succeed |
| Conservation.StockConserved | src/services/inventoryService.ts:14-28 | in every state of every run, shelf plus active reservations plus half-finished requests equals opening stock plus units returned twice, and stock is never negative |
| Conservation.StepBalances | src/services/OrderService.ts:55-91 | every single step by anybody keeps that balance |
| Conservation.ShapesKept | src/services/OrderService.ts:149-159 | every step keeps each running checkout's undo list well formed: each entry rests on the one it undoes after |
| Races.ReturnedTwiceHappens | src/services/OrderService.ts:80 | a concrete run in which the unguarded undo returns units a sweep has already returned |
| Schedules.ConservedOnSchedule | src/services/inventoryService.ts:62-67 | without transactions, if every sweep starts before the deadline of each running checkout and no request under way names the order of one, no checkout is disturbed, nothing is returned twice and the balance is exact in every state |
| Schedules.BooksCloseOnSchedule | src/services/OrderService.ts:228-250 | on such a schedule, at rest, each product's stock is opening stock less the lines of the standing orders |
| Schedules.RaceIsOffSchedule | src/services/OrderService.ts:80 | the run that returns units twice breaks that condition |
| Books.ConservedUntouched | src/services/inventoryService.ts:62-67 | the balance is exact, at rest or not, in every run in which no running checkout was disturbed |
| Books.TransactionsDisturbNothing | src/infrastructure/database/transaction.ts:30-45 | if checkouts are atomic, no run disturbs one or returns anything twice |
| Books.OrdersHoldTheirLines | src/services/PaymentService.ts:107-149 | after any race, a standing order holds exactly its lines per product, all active; a cancelled, failed or refunded one holds nothing once its release is done |
| Books.BooksClose | src/services/OrderService.ts:228-250 | at rest, each product's stock is opening stock less the lines of the standing orders, so a function of the order documents alone |
| Standing.StepKeepsInv | src/services/inventoryService.ts:73-103 | the invariant behind the two rows above survives every step: links, listed releases, sweeps under way and running checkouts |
| CouponLimits.UsageLimitHolds | src/services/OrderService.ts:98-107 | in every state, a coupon's count is the number of orders that use it plus the number of running checkouts whose claim has no order yet, and never exceeds its limit |
| UserLimits.LocksKept | src/services/OrderService.ts:179-181 | every step keeps each running checkout in possession of its user's lock unless a lock of that user timed out |
| UserLimits.LockDecides | src/services/OrderService.ts:179-181 | a checkout starts exactly when its user's lock is free, and takes it; a time-out frees it |
| UserLimits.PerUserLimitHolds | src/services/OrderService.ts:136-138 | the number of a user's redemption rows of a coupon never exceeds the per-user limit, however often the user fills the cart and buys, in any run in which none of that user's locks timed out |
| UserLimits.CartIsFilled | src/services/CartService.ts:29-61 | from any state a user can set the cart to any lines, and nothing else changes |
| RefundEvents.OrdersKept | src/services/orderStateMachine.ts:8-19 | every step of the protocol keeps every order reachable and moves it along the tables or deletes it |
| RefundEvents.OrdersAlwaysConsistent | src/services/OrderService.ts:225-300 | in every state of every run, every order is in one of the fifteen combinations with a connected history and no outcome twice |
| RefundEvents.RefundAnnouncedOnce | src/services/OrderService.ts:252-274 | any order, deleted ones included, has at most one refund.requested event; once no request is between opening and announcing it and none was lost to an error, an order has one iff a cancel or request opened its refund |
| RefundEvents.AtomicRefundsAnnounced | src/infrastructure/database/transaction.ts:30-45 | if opening and announcing a refund are atomic, no announcement is lost: whenever no request is between the two, the event exists iff the refund was opened |
| Deliveries.OneRecordPerEvent | src/repositories/PaymentRepository.ts:19-26 | in every run, any two payment records differ in their signed digest, and differ in provider or event id |
| Deliveries.OutcomeIsPast | src/services/paymentStateMachine.ts:4-17 | an order that has had an outcome is either there still or cannot move to it again |
| Deliveries.LateDeliveryChangesNoOrder | src/services/PaymentService.ts:83-149 | after any run, disturbed or not, a webhook whose outcome the order already had changes no order at its next step, whatever stale copy it read (`Repeats` has reservations, stock and releases) |
| Repeats.RecordMeansSettled | src/services/PaymentService.ts:119-147 | in every state of every run, a payment record means that its order had the outcome and its reservations are settled: none of a paid order still waits, none of a failed or refunded one is active, unless that order's checkout was disturbed |
| Repeats.RepeatChangesNothing | src/services/PaymentService.ts:83-147 | once an event is on record, no step of another delivery of that outcome to that order, its release included, changes an order or a reservation; it changes stock exactly when it has taken a row over and not yet returned its units, and then returns just those (a later lookup is the next row) |
| Repeats.LaterDeliveryEnds | src/services/PaymentService.ts:83-89 | the lookup of any delivery changes nothing, and ends it exactly if some record has its digest, or its provider and event id |
| Repeats.SettlementsKept | src/services/PaymentService.ts:119-147 | the invariant behind the two rows above survives every step of every request |
| LateReturns.ReturnsAfterRecord | src/services/PaymentService.ts:140-147 | a concrete run in which a repeated delivery returns units after the event is on record |
| Database.Collections.FlipReservation | src/services/inventoryService.ts:20-25 | the status-guarded update: which row changes, to what, and when it misses |
| Database.Collections.UpdateIf | src/services/OrderService.ts:231-242 | the conditional order update: it matches exactly when the filter does and writes exactly the assignment |
| Inventory.ReleaseReservation | src/services/inventoryService.ts:14-28 | flips an active row and returns its units together, or does neither and says so |
| Inventory.ReleaseOrderExact | src/services/inventoryService.ts:30-43 | releasing an order turns exactly its active rows, returns exactly their units per product and touches nothing else |
| Inventory.ReleaseOrderReservations | src/services/inventoryService.ts:30-43 | the loop does that, and its count is the number of rows that were active |
| Sweeper.FindExpired | src/services/inventoryService.ts:53-56 | by status and deadline: the listed rows are reserved with a deadline that has come, oldest first, each once, at most the batch size; such a row is left out only if the batch is full and holds no later deadline |
| Sweeper.ReleaseExpiredReservations | src/services/inventoryService.ts:52-107 | the loop, counters and handled set compute the pass the rows below describe, over such a batch; row by row and order by order it says what each becomes: a listed row of no order expires, the rows of a listed order expire if it is gone or pending and unpaid, which is then cancelled and announced once, and are committed if it is paid or authorized; nothing else changes |
| Sweeper.SweepAmounts | src/services/inventoryService.ts:62-104 | what a whole pass amounts to, row by row and order by order, without its loop |
| Sweeper.PassClears | src/services/inventoryService.ts:69-103 | a listed row stays reserved exactly if its order is in none of the states the sweep handles; no row becomes reserved |
| Sweeper.PassCounts | src/services/inventoryService.ts:58-60 | the two counts equal the rows that stopped being active and the orders that became cancelled, and stock is conserved |
| Sweeper.PassCancels | src/services/inventoryService.ts:73-95 | an order a pass cancels was pending and unpaid, had an expired reservation, and holds nothing afterwards |
| Sweeper.PassDrains | src/services/inventoryService.ts:52-56 | if nothing is stuck, a pass of size b removes at least min(b, n) of n expired rows and leaves nothing stuck |
| Sweeper.PassesDrain | src/services/inventoryService.ts:52-107 | of n reserved rows whose deadline has come, at most n - kb are left after k passes of size b; so after ceil(n / b) passes every row still reserved has its deadline ahead |
| Resting.RestingNeverStuck | src/services/inventoryService.ts:103 | after any undisturbed run that has come to rest, no expired reservation is stuck |
| Resting.LapsesAsAWhole | src/services/OrderService.ts:53 | after any run, an uninterrupted pass cancels an order only if all of its reservations have expired |
| Resting.SweepCancelsLapsed | src/services/inventoryService.ts:73-77 | the same of the protocol's own sweeps, interleaved with anything: when one cancels an order, all of that order's reservations had expired when the sweep began |
| Resting.StuckIsPassing | src/services/inventoryService.ts:103 | in any state of any run, a reserved row that a sweep would leave alone belongs to a running checkout, to a disturbed one, or to an order being released |
| Checkout.Compensate | src/services/OrderService.ts:149-159 | the loop runs the undo list from its end to its start |
| Checkout.ExecuteCheckout | src/services/OrderService.ts:41-147 | for any cart and a failure at any call: an error leaves stock, coupon counts, orders, carts and active reservations as before, by rollback or by the undo list; success makes exactly the changes of a purchase and holds the rows for fifteen minutes. Unless a call throws, it succeeds iff the cart is not empty, every product is offered and has the units of all its lines, and the coupon exists, is active, has begun and not ended, its minimum is met, its count is below its limit and the user's redemptions below theirs; each refusal names the first of these that fails |
| Checkout.CouponChecked | src/services/couponService.ts:26-39 | the check of a coupon passes iff its six conditions hold, stated over its fields and the user's redemption rows, and otherwise names the first that does not |
| Checkout.OneMoreOnSale | src/services/OrderService.ts:55-75 | with some lines taken, the guarded decrement grants the next one exactly if its product is offered and the shelf had the units of all of them together |
| Checkout.WithOrderIsBought | src/services/OrderService.ts:109-141 | the writes of a successful checkout are one order, its linked reservations, one coupon use, one redemption and an emptied cart, and nothing else |
| Checkout.LinkUndoes | src/services/OrderService.ts:130-134 | linking the reservations, which pushes no undo entry, is undone by the entries already there |
| Checkout.RedeemUndoes | src/services/OrderService.ts:136-138 | after the redemption row is written the undo list still restores everything but that row |
| Agreement.LoneCheckoutAgrees | src/services/OrderService.ts:41-147 | the step system's checkout, left alone, ends with the purchase `Checkout.ExecuteCheckout` promises if the cart may be bought, by the same conditions, and with the shop as it was if not; if it fails after any number of calls, with the shop as it was |
| Agreement.GivesUp | src/services/OrderService.ts:149-159 | a checkout that gives up takes one step per undo entry and one to end, and leaves the shop restored |
| LoneTasks.LoneCancelAgrees | src/services/OrderService.ts:225-279 | the step system's cancellation, left alone, ends with what `Cancellation.Cancel` promises, or changes nothing if the order cannot be cancelled |
| LoneTasks.LoneRefundAgrees | src/services/OrderService.ts:286-320 | its refund request, left alone, ends with what `Cancellation.AskRefund` promises, or changes nothing if the order may not be refunded |
| LoneTasks.LoneWebhookAgrees | src/services/PaymentService.ts:83-149 | its webhook, left alone, ends as `Webhooks.ProcessWebhook` does without a failure |
| LoneTasks.LoneSweepAgrees | src/services/inventoryService.ts:62-107 | its sweep, left alone, ends as `Sweeper.ReleaseExpiredReservations` does on the same batch |
| LoneTasks.ReleaseAlone | src/services/inventoryService.ts:30-43 | a release left alone turns exactly the rows the service's loop turns |
| Checkout.PaysSumLessDiscount | src/services/OrderService.ts:83-96 | the total is the price of the cart, product by product at the prices of the moment, less the discount, between zero and that price |
| Cancellation.Cancel | src/services/OrderService.ts:225-279 | succeeds exactly on cancellable orders, opens a refund iff the payment was captured, returns exactly the order's units, announces it, and cannot succeed again |
| Cancellation.AskRefund | src/services/OrderService.ts:286-335 | succeeds iff the order exists, is paid and delivered, has no refund, and its delivery (its last change, if that was not recorded) is not before the start of the window; then opens one refund and announces it. A refusal changes nothing and names the first condition missed; a later delivery or an earlier window start never turns acceptance into refusal (`Cancellation.LaterIsNoWorse`) |
| Webhooks.ProcessWebhook | src/services/PaymentService.ts:70-151 | each answer of one delivery is given exactly in its case, by the fields of the records and of the order: a replay iff a record has its digest or its provider and event id, and so on; only an accepted one changes anything, and what is in the row below; a call that throws leaves nothing with a transaction and the completed calls without |
| Webhooks.AcceptedIsDelivered | src/services/PaymentService.ts:107-149 | an accepted delivery appends its record, moves its order's payment, status, refund and history unless it has the outcome, commits the reserved rows of a paid order or releases the active ones of a failed or refunded order with exactly their units, and touches nothing else |
| Webhooks.RedeliveryResumes | src/services/PaymentService.ts:119-147 | a delivery cut off anywhere after the order update and redelivered at any later time ends where an uninterrupted one does |
| Webhooks.CutsThenWhole | src/services/PaymentService.ts:119-147 | any number of cut-off deliveries followed by a whole one amount to a single delivery |
| Webhooks.RepeatsDoNothing | src/services/PaymentService.ts:83-89 | once an event was accepted, a later delivery with the same digest, or with the same provider and event id, can be struck from any run without changing its end |
| Webhooks.RestFound | src/services/inventoryService.ts:35-37 | after some of an order's rows are released, the query finds exactly the others |
| Shipments.RankMeansCovered | src/controllers/shipmentController.ts:34-46 | the derived rank is delivered iff every item has its seller's or an admin's shipment delivered; at least shipped iff in transit or delivered; at least processing iff existing and not failed |
| Shipments.StepMoves | src/controllers/shipmentController.ts:21-28 | under any interleaving every shipment row moves along its table and every order along its own |
| Shipments.FulfilmentOnlyClimbs | src/controllers/shipmentController.ts:73-93 | from any reachable state on: delivered rows stay delivered, progress never falls except by cancelling before anything shipped, a delivery time is set once |
| Shipments.DeliveredMeansCovered | src/controllers/shipmentController.ts:30-46 | a delivered order has a delivered shipment of its own seller or an admin for every item, now and after any further run |
| Shipments.NoProgressLost | src/controllers/shipmentController.ts:85-93 | when all updates have ended and none broke off half-way, an order that was not cancelled is as far as its shipments imply, and delivered iff every item is |
| Shipments.ProgressWasRead | src/controllers/shipmentController.ts:85-93 | over runs: whenever an order turns processing, shipped or delivered, an update that had saved its row read the rows before, at a moment when every item's shipment existed and had not failed, was in transit or delivered, or was delivered |
| Shipments.Controller.Upsert | src/controllers/shipmentController.ts:53-105 | alone, an update is refused unchanged, for the reason it names, or saves its row; then the order is delivered iff every item's shipment is, shipped or further iff it was or every item's is in transit or delivered, processing or further iff it was or every item's exists and has not failed |
| Shipments.UndisturbedIs | src/controllers/shipmentController.ts:53-94 | the step system's update, left alone, ends where `Shipments.Controller.Upsert` does, accepted or refused |
| Attempts.KeysClimb | frontend/src/app/features/checkout/idempotency.ts:14-35 | keys only move forward, and stay exactly while every event continues the same attempt |
| Attempts.SameKeySameAttempt | frontend/src/app/features/checkout/idempotency.ts:18-29 | two submits share a key iff between them every submit carries the same form, no order was placed and every failure was a lost connection, a 423, a 429 or a server error; so no key travels with two bodies |
| Attempts.CheckoutAttempt.KeyFor | frontend/src/app/features/checkout/idempotency.ts:18-23 | a changed body gets a new key, an unchanged one keeps it |
| Attempts.CheckoutAttempt.Failure | frontend/src/app/features/checkout/idempotency.ts:26-29 | status 0, 423, 429 and 500 or more keep key and body; any other takes a new key |
| Idempotency.OneOrderPerKey | src/middlewares/idempotency.ts:28-79 | any number of concurrent requests with one key place at most one order, provided none ran past the stale limit, every outcome was stored and the record has not expired; a placed order's answer is on record or about to be |
| Idempotency.ReplayedUnchanged | src/middlewares/idempotency.ts:29-36 | a stored outcome stays the same until it expires; the same body gets it back, another body is refused, and neither places an order |
| Provisos.SlowRequestOrdersTwice | src/middlewares/idempotency.ts:37-40 | the first proviso is needed: a concrete run in which an overtaken request and its successor both place an order |
| Provisos.UnsavedOutcomeOrdersTwice | src/middlewares/idempotency.ts:53-70 | the second is needed: a run in which the outcome is lost before it is stored and the retry orders again |
| Provisos.ExpiredRecordOrdersTwice | src/middlewares/idempotency.ts:28-36 | the third is needed: a run in which the record expires and the retry orders again |
| Provisos.ImproperMeans | src/middlewares/idempotency.ts:28-70 | in every run the provisos fail only when a handler is still busy with a record two minutes old, when an outcome is lost, or when a record is a day old |
| EndToEnd.NeverMismatched | src/middlewares/idempotency.ts:31-33 | if arriving bodies are a function of their keys, no request is ever refused for a changed body |
| EndToEnd.OneOrderPerAttempt | frontend/src/app/features/checkout/idempotency.ts:5-13 | end to end: whatever the form does and whatever reaches the server, late or doubled, each attempt places at most one order and no request is refused for its body |
| IdempotencyMiddleware.KeyRecords.Begin | src/middlewares/idempotency.ts:28-51 | the method does what the step system does when one request runs alone; it lets a request in exactly when the key is free or its record has been processing for two minutes, and keeps the new record for a day |
| IdempotencyMiddleware.KeyRecords.Answer | src/middlewares/idempotency.ts:53-70 | as the step system does: frees the key on a 5xx, stores anything else, and never touches a successor's record |
| IdempotencyMiddleware.RetryAfterAnswer | src/middlewares/idempotency.ts:34-36 | a retry of an answered attempt gets the first answer back |
| AuditChain.SameHeadSameLog | src/utils/auditLogger.ts:62-73 | with a collision-free digest, two valid chains with the same head hash are equal entry by entry |
| AuditChain.LogStaysChained | src/utils/auditLogger.ts:41-56 | under any interleaving of many processes the log has no gap, each process's entries are stored once and in order, and an entry is given up only after others added five rows meanwhile |
| AuditChain.RefusedIfLate | src/utils/auditLogger.ts:58-73 | an insert is refused iff somebody added a row since the attempt looked |
| AuditChain.AppendAuditEntry | src/utils/auditLogger.ts:58-74 | one attempt against interfering writers: it extends the chain, or fails exactly when somebody was in time |
| AuditChain.WriteTamperProofAudit | src/utils/auditLogger.ts:44-56 | the retry loop drops the entry iff others were in time in all five attempts, and otherwise stores it behind what they had added |
| LruCache.Cache.Get | src/utils/cache.ts:14-21 | the result is the unexpired entry, which becomes the newest; an expired one is removed |
| LruCache.Cache.Set | src/utils/cache.ts:23-31 | the eviction loop keeps exactly the newest entries within the bound |
| LruCache.Cache.Del | src/utils/cache.ts:33-37 | the loop removes exactly the entries with the prefix and keeps the order of the rest |
| LruCache.NeverAboveBound | src/utils/cache.ts:26-30 | after every history there is one entry per key and no more than the bound |
| LruCache.CachedIsLive | src/utils/cache.ts:13-37 | whatever the cache holds for a key is what a cache without eviction would hold |
| LruCache.LiveIsLatest | src/utils/cache.ts:13-37 | a cache without eviction holds an entry iff it is the latest set not deleted or read expired since |
| LruCache.HitIsLatestSet | src/utils/cache.ts:14-21 | a hit is the value of the latest set of its key, unexpired and not removed since |
| LruCache.UsedKeysHit | src/utils/cache.ts:9-11 | a live entry still hits if fewer distinct other keys than the bound were set or hit since it was last touched |
| Locks.LockTable.AcquireLock | src/infra/locks/distributedLock.ts:21-28 | refused iff an unexpired lock exists; otherwise a new token owns the key until its time limit |
| Locks.LockTable.ReleaseLock | src/infra/locks/distributedLock.ts:31-35 | frees the key iff the token still owns it |
| Locks.MutualExclusion | src/infra/locks/distributedLock.ts:30-44 | over every trace, bodies of one key overlap only if the earlier had outlived its limit when the later began, and nobody's leaving frees a lock another body owns |
| Tokens.RotationIsSafe | src/services/AuthService.ts:105-159 | over every run: at most one token names a given one as its parent, and none while that one still works; a sign-in has at most one working token; a refresh begun between sign-out and the next sign-in issues nothing at its next step |
| Tokens.ExchangedInTime | src/repositories/AuthRepository.ts:40-46 | over every run, a token is exchanged only if a refresh presented it while it worked and had not expired |
| Tokens.LoneRefresh | src/services/AuthService.ts:105-152 | alone, a refresh revokes a token that works and has not expired and, unless its session is signed out, issues its one successor; any other token changes nothing |
| Tokens.SignedOutIssuesNothing | src/services/AuthService.ts:140-143 | from any state: once a sign-out is done and until the next sign-in on that session, a refresh with any of its tokens issues none, whenever it begins and whatever runs beside it |
| Tokens.StepKept | src/repositories/AuthRepository.ts:40-54 | every step keeps the counts behind it: unspent, being exchanged and exchanged are exclusive, and at most one per sign-in is live |
| Pricing.ToCentsFaithful | src/utils/money.ts:8-12 | over the reals, conversion to cents is odd, monotone and within 1/2 + 5e-7 of a hundred times the amount |
| Pricing.CentsRoundTrip | src/utils/money.ts:14-20 | cents survive the trip through decimal units, so rounding twice changes nothing |
| Pricing.PercentGrowth | src/utils/money.ts:17 | a rounded percentage grows with the amount and, up to one hundred percent, by at most a cent per cent |
| Pricing.DiscountIsWorth | src/services/couponService.ts:8-17 | the discount is within one rounding of what the coupon is worth over the reals: a percentage of the subtotal or the fixed value, no more than a cap that is set and not zero, nor than the subtotal |
| Pricing.DearerNeverCheaper | src/services/couponService.ts:8-17 | for every coupon, percentage or fixed, capped or not, raising the subtotal never lowers the total |
| Addresses.QuadRoundTrip | src/utils/ssrf.ts:14 | a dotted quad is read back as the number of its octets |
| Addresses.MaskTestIsInterval | src/utils/ssrf.ts:15-18 | for every prefix length 0 to 32 the mask test is the interval test |
| Addresses.PrivateV4IsMembership | src/utils/ssrf.ts:19-33 | an IPv4 address is private iff it lies in one of the listed blocks |
| Addresses.PrivateV4IsListed | src/utils/ssrf.ts:19-33 | the same, octet by octet |
| Ipv6.ExpandsBack | src/utils/ssrf.ts:36-49 | every legal text of section 2.2 of RFC 4291, compressed or not, with or without a dotted quad, in any letter case, expands to its eight groups |
| Ipv6.PrivateV6IsListed | src/utils/ssrf.ts:51-64 | legal text is judged by the address it stands for: the verdict as ranges of its groups |
| Ipv6.MappedIsPrivate | src/utils/ssrf.ts:60-62 | an IPv4-mapped address (section 2.5.5.2 of RFC 4291), however written, is private iff its IPv4 address is |

## Left out

- A crash between a reservation's status flip and its stock increment (src/services/inventoryService.ts:20-26), and a release or sweep cut off between two rows in the protocol: the two calls are separate steps, but the request that made the first makes the second. `Webhooks` does cut its release between rows.
- Undo calls that fail themselves (src/services/OrderService.ts:153-156): the code only raises an alert there.
- The redemption row has no undo entry (src/services/OrderService.ts:136-138), so `Checkout.ExecuteCheckout` does not restore it without a transaction.
- A first shipment row created by two requests at once (src/controllers/shipmentController.ts:77-82): seeing no row and creating it is one step.
- Tenants, ownership filters, roles and the tenant's payment provider: one tenant, and only requests that passed those filters.
- Admin edits of stock, prices of placed orders, coupon limits and product visibility: they would move the baselines of the invariants.
- Clocks and configured lengths: the time of a call, a batch size and the start of the refund window (now less a configured number of days, src/services/OrderService.ts:288) are parameters; the reservation window has its default of fifteen minutes (src/config/env.schema.ts:91).
- Retries of a transaction by the driver: each attempt is one more atomic block.
- Signatures, password checks, JWT claims, hashing and request parsing: a webhook, body or token is what it says it is, and a digest is an injective parameter.
- Refresh tokens written before hashing or before the session claim existed (src/repositories/AuthRepository.ts:11-12).
- Binary floating point: money is exact over the reals, with the six-decimal step of `toCents` kept.
- Text that `net.isIP` refuses never reaches the functions of `Addresses` and `Ipv6`. Scoped text such as `fe80::1%eth0`, which it accepts, is not modelled; nor are host names and URL parsing.
- Agreement of cached product lists with the database: checkout changes stock without invalidating them, so there is none to prove.
- Notifications, sagas, queues, dispatch of recorded events after commit, metrics, fraud scoring, uploads, and the rest of the browser application: side records with no invariant of their own.
- Locks.MutualExclusion: the lock is one process's; with several instances the per-user guarantee of `UserLimits` has to be read as a time-out.
- Tokens.RotationIsSafe: a refresh that passed the session check before the sign-out may still issue its token after it.
