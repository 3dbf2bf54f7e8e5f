# Order saga: a Dafny model and its proofs

Four services (order, payment, inventory, delivery) run one purchase as a choreographed saga. Each service owns
its database, writes its events into an outbox table, and learns about the others only from Kafka topics that may
repeat, reorder or lose messages. Every handler is wrapped in a Redis check that drops events already seen.

The project models these services as classes whose methods follow the handlers statement by statement, puts them
together into one closed step system, and proves what that system guarantees in every reachable state: whatever is
duplicated, reordered, delayed or lost, whichever Redis key expires, and wherever a handler is cut off.

| file | content |
|---|---|
| `Basics.dfy`, `Events.dfy`, `Idempotency.dfy`, `Keys.dfy` | small shared definitions; events, topics and faults; the Redis store and its wrapper; the printed idempotency keys |
| `Orders.dfy`, `Payments.dfy`, `Stock.dfy`, `Deliveries.dfy` | the four services: domain objects, repositories, handlers and consumers |
| `Saga.dfy` | all four together as one step system, with the inductive invariant that every step keeps |
| `Steps.dfy` | what its steps are made of: the whole handlers, the order service's history, and the freedom of the world |
| `Guarantees.dfy`, `Commands.dfy`, `Money.dfy`, `Recording.dfy` | safety in every reachable state, orders and payments against the commands given, the gateway's books, and which rows have their events |
| `Lifecycle.dfy`, `Reopening.dfy`, `LateCancel.dfy` | how an order's status can move, exactly when a terminal status can be left, and a run in which COMPLETED is left |
| `Acceleration.dfy` | exactly when the Redis store changes nothing but the amount of work |
| `Workflow.dfy`, `Settlement.dfy`, `Stalled.dfy` | fault-free runs: bounded work, every order settled all or nothing, exactly when its status says so, and a run in which it does not |
| `OrderHistory.dfy`, `Interleaving.dfy`, `Overlaps.dfy` | concurrent handlers on one order row and on the product row, statement by statement, with exact conditions for conservation and atomicity and two runs that miss them |
| `OutboxWorker.dfy`, `Retry.dfy` | the publishing loop and the retry loop |

How the world enters the model. `Fault` names the statement at which an execution reports an error or the process
dies, and at most one fault ends an execution. `World` and `Redis` carry the gateway's answer and the errors of
lookups and of Redis. A fresh UUID (version 4, section 5.4 of RFC 9562) is a number that is never issued twice. A
crash between two statements is the corresponding fault; a crash of the order service between its read and its
versioned write is a step of its own (`OrderCrash`).

Premises: a failing SQL statement aborts its transaction, and a unique index rejects a second row with the same key.
`Saga` assumes that the payment service and the delivery service each have one message in work at a time. The code
only handles the messages of one claim one after another (`common/messaging/kafka.go:161`), and the payment service
reads two topics, so its claims may overlap; that such overlaps change nothing is not proved. Inventory transactions
may overlap: `Interleaving` proves from the row lock exactly which interleavings leave what the whole handlers would
have left one after another (`AtomicIff`), and that deliveries of one event, and refunds, that do not overlap are
enough (`LockMakesAtomic`). Order handlers may overlap in any number and any way.

Where the code does not do what its documents suggest, the model follows the code:

- Order and payment rows are written outside the transaction that carries their event
  (`services/order/internal/repository/order_repository.go:38`,
  `services/payment/internal/repository/payment_repository.go:38`), so an event implies its row but not conversely
  (`OrderWithoutEvent`); `RowsRecordedIff` says exactly which runs leave every row with its event.
- A refund checks for a RESERVED reservation before its transaction begins, and a reservation checks its key before
  (`services/inventory/internal/service/inventory_service.go:54-66`, `:144-153`). Overlapping refunds can restore one
  unit twice, and overlapping deliveries of one event can both reserve and fail (`Overlaps`); `ConservedIff` and
  `AtomicIff` say exactly when.
- The order service drops a stock.reserved or delivery.started that it hears before its cause and never hears it again:
  the order's tables are settled all the same, but its status stays behind (`OrderStalls`), and `EveryOrderSettles` says exactly when.
- A payment lookup that fails for any reason reads as "not processed"
  (`services/payment/internal/service/payment_service.go:58-64`). A redelivered event can then be charged a second time
  (`LookupFailureChargesTwice`). `SameAsBareIff` says exactly which runs come out the same without the Redis store, and
  `StorePreventsASecondCharge` gives a run that does not.
- A declined payment leaves no row, so a redelivered order.created may yield payment.failed and payment.completed for
  one order, and a late payment.failed can take an order out of COMPLETED (`CompletedOrderCanceled`). `OneVerdictIff`
  says exactly which runs never pay and decline one order; in those runs terminal statuses absorb
  (`TerminalStatusesAbsorb`). In general, while lookups answer, COMPLETED and FAILED can be
  left exactly when payment.failed was once recorded, and CANCELED exactly when the order holds no stock and its payment
  was announced or is missing (`CompletedReopensIff`, `FailedReopensIff`, `CanceledReopensIff`). Once a lookup may fail,
  COMPLETED and FAILED can always be left (`FailedLookupReopens`).
- A handler that fails has its message marked all the same (`common/messaging/kafka.go:176-184`): there is no retry.
- Every reservation is for one unit, whatever the order says (`services/inventory/internal/service/inventory_service.go:76`).
- The order service ignores a lost compare-and-set and goes from PENDING straight to STOCK_RESERVING, which the
  transition table allows only as a path (`PaymentProcessingIsSkipped`).
- The stock compensation never fires in the closed system: a refund is only ever issued for an order without a
  reservation (`RestoreNeverFires`). No service produces delivery.failed.
- The domain status `CANCELLED` is spelled `CANCELED` in the schema (`scripts/init-inventory-db.sql:6`), so that write
  would be rejected by the database; the model uses the domain's statuses.

## Model

| member | source | states |
|---|---|---|
| Guarantees.NoOrderRefundedAndShipped | services/inventory/internal/service/inventory_service.go:46-131 | in every reachable state no order both holds stock and was told that stock failed, and none is both refunded and shipped |
| Guarantees.CompletedMeansDone | services/order/internal/service/order_service.go:260-279 | a COMPLETED order has exactly one payment, of the order's amount and COMPLETED, exactly one RESERVED reservation and exactly one delivery |
| Guarantees.CompletedAndFailedExclude | services/order/internal/service/order_service.go:239-279 | no continuation of any run takes an order from COMPLETED to FAILED or back |
| Guarantees.AtMostOneOfEach | scripts/init-payment-db.sql:11-27 | one order.created, payment.completed, stock.reserved and delivery.started event, one payment, reservation and delivery per order at most |
| Guarantees.NoOverselling | services/inventory/internal/domain/inventory.go:17-27 | deliveries never outnumber reservations, reservations equal the stock taken and never exceed the initial stock, quantities are conserved, the version counts the reservations |
| Guarantees.FirstComeFirstServed | services/inventory/internal/service/inventory_service.go:79-105 | the orders holding stock are exactly the first min(S0, n) of the n distinct orders for which inventory committed an outcome; all others were told of the failure |
| Guarantees.RestoreNeverFires | services/inventory/internal/service/inventory_service.go:139-209 | no stock.restored event, no cancelled reservation, and every published refund finds nothing to restore |
| Guarantees.CrashConsistency | services/delivery/internal/service/delivery_service.go:68-100 | wherever handlers are cut, order and payment events have their rows, and a reservation or delivery exists if and only if exactly one matching event does |
| Recording.RowsRecordedIff | services/payment/internal/service/payment_service.go:80-218 | over any run: every order has its order.created event if and only if no valid command under an unused key was cut at the outbox insert or the commit; every payment has its payment.completed event, and payment.refunded if REFUNDED, if and only if no approved charge without a payment row and no refund of a payment not yet REFUNDED was cut there |
| Guarantees.OrderWithoutEvent | services/order/internal/service/order_service.go:109-142 | a concrete order whose event is lost because its row is written outside the transaction |
| Guarantees.ShippedWasReserved | services/delivery/internal/service/delivery_service.go:41-78 | every shipped order holds a reservation |
| Guarantees.ReservedWasPaid | services/inventory/internal/service/inventory_service.go:46-105 | every order holding stock has a payment |
| Saga.InvStep | services/order/cmd/main.go:94-101 | each possible step of the four services, Kafka and Redis keeps the global invariant and withdraws no event |
| Saga.InvRun | services/inventory/internal/service/inventory_service.go:46-209 | every run from an empty system with any product row of non-negative stock satisfies the invariant |
| Saga.CreateStep | services/order/internal/service/order_service.go:67-161 | creating an order, cut anywhere, keeps the invariant |
| Saga.PaymentStep | services/payment/internal/handler/event_handler.go:36-93 | any delivery to the payment service keeps the invariant |
| Saga.InventoryStep | services/inventory/cmd/main.go:75-106 | any delivery to the inventory service keeps the invariant |
| Saga.DeliveryStep | services/delivery/cmd/main.go:74-92 | any delivery to the delivery service keeps the invariant |
| Saga.WriteStep | services/order/internal/repository/order_repository.go:140-158 | the versioned write of any unfinished order handler keeps the invariant |
| Saga.FailedOrderHoldsNothing | services/inventory/internal/service/inventory_service.go:79-88 | once an order was told that stock failed, no unit is left, and the order holds none and is paid |
| Saga.RefundedOrderHoldsNothing | services/inventory/internal/service/inventory_service.go:144-153 | a refunded order has no RESERVED reservation |
| Saga.TargetBacked | services/order/internal/service/order_service.go:173-301 | whatever status a handler writes is backed by the event it handles, issued by the service that did the work |
| Steps.HandlingIsTwoSteps | services/order/internal/handler/event_handler.go:37-176 | the order service's consumer run whole on any message, in any state, cut anywhere, is exactly the saga's read step followed by its write step, or by its crash step where the cut comes before the write; so nothing is written or remembered then |
| Steps.SagaFollowsHistory | services/order/internal/service/order_service.go:173-301 | apart from creations, every step of the saga moves orders and unfinished handlers as the matching step of OrderHistory does, or not at all |
| Steps.AnyHandlerCanEnd | services/order/internal/repository/order_repository.go:140-158 | whichever handler started last, any unfinished one can write next; it wins if and only if it wants to write and the version is the one it read, and its event is remembered either way |
| Steps.WorldIsFree | services/order/internal/worker/outbox_worker.go:56-86 | in every state any outbox row can be published again, any key can expire, any unfinished handler can die, and each does only that |
| Commands.EveryOrderWasCommanded | services/order/internal/service/order_service.go:67-137 | in every run each order carries the amount, quantity and key of a CreateOrder that was asked for in the run, both numbers positive |
| Commands.EveryPaymentWasCommanded | services/payment/internal/service/payment_service.go:81-95 | in every run each payment is for an existing order and for exactly the amount commanded |
| Commands.KeysAreUnique | scripts/init-order-db.sql:30-36 | in every run no two orders share their idempotency key |
| Commands.TermsRun | services/order/internal/repository/order_repository.go:140-158 | no continuation removes an order, changes its amount, quantity or key, or lowers its version |
| Settlement.EveryOrderSettles | services/order/internal/service/order_service.go:173-301 | when a fair fault-free run has nothing left to do, every order is CANCELED without payment, FAILED with its one payment REFUNDED and nothing reserved or shipped, or has one payment, reservation and delivery; and in the last case it is COMPLETED if and only if the order service heard stock.reserved and delivery.started after their causes |
| Settlement.EarlyIsForever | services/order/internal/service/order_service.go:217-280 | one event heard before its cause is never made good: in no continuation at rest is the order's status CANCELED, FAILED or COMPLETED |
| Stalled.OrderStalls | services/order/internal/service/order_service.go:217-237 | a concrete fault-free run at rest: one order paid, reserved and delivered that never becomes COMPLETED |
| Settlement.RestIsReached | services/order/internal/worker/outbox_worker.go:56-86 | from any point of such a run at most as many further acts as the measure says, placing no orders, lead to a state with nothing left to do, and every order heard in time so far stays heard in time |
| Settlement.MeasureDrops | services/payment/internal/service/payment_service.go:49-227 | every publication and every handler execution takes exactly one unit off the measure; placing an order adds at most ten |
| Settlement.WorkIsBounded | services/payment/internal/service/payment_service.go:49-227 | the measure never goes below zero: at most ten publications and executions per order |
| Settlement.WorkPerOrder | services/delivery/internal/service/delivery_service.go:41-110 | every order causes at most four outbox events and six handler executions |
| Settlement.StatusMoves | services/order/internal/service/order_service.go:173-301 | a first hearing moves the order's status if and only if its cause was heard in time, except that payment.completed after stock.reservation_failed leaves FAILED; and the status goes on telling what was heard in time |
| Settlement.VerdictIsTheGateways | services/payment/internal/service/payment_service.go:73-142 | the first order.created of a fault-free run is answered by payment.completed with its amount if the gateway approves, and by payment.failed if not |
| Settlement.OutcomeIsTheStocks | services/inventory/internal/service/inventory_service.go:68-127 | the first payment.completed is answered by stock.reserved if a unit is left, and else by stock.reservation_failed with the reason that fits |
| Settlement.CleanStep | services/inventory/internal/service/inventory_service.go:46-209 | every act of a fault-free run keeps: events and executions correspond one to one, every row has its events, the status tells what the order heard in time |
| Workflow.FlowAnswered | services/payment/internal/service/payment_service.go:144-227 | a first handling answered by one new event keeps the cause-and-answer structure and the uniqueness of events |
| Workflow.NoRival | services/inventory/internal/service/inventory_service.go:79-127 | an event not yet handled by its answering service has neither an answer nor an alternative to one |
| Workflow.PerOrder | services/order/cmd/main.go:94-101 | with each subscriber handling each event once, an order has at most 4 events and 6 executions |
| Lifecycle.OneVerdictIff | services/payment/internal/service/payment_service.go:58-78 | no order is both paid and declined anywhere in a run, if and only if no step of the run approves a declined order that has no payment row, or declines a paid order because its lookup fails |
| Lifecycle.HandledOnceNeverContradicts | services/payment/internal/service/payment_service.go:73-78 | handling each order.created at most once is enough for that |
| Lifecycle.TerminalStatusesAbsorb | services/order/internal/domain/order.go:32-68 | in every run without a contradicted verdict no step leaves COMPLETED, CANCELED or FAILED, and every change is a non-empty path of the transition table (the exact conditions per status are the Reopening rows) |
| Lifecycle.AtMostThreeChanges | services/order/internal/service/order_service.go:173-301 | in the same runs an order changes its status at most three times |
| Lifecycle.ChangesAreCounted | services/order/internal/service/order_service.go:173-301 | the number so bounded is the number of steps of the run that changed the status |
| Reopening.CompletedReopensIff | services/order/internal/service/order_service.go:196-215 | while payment lookups answer, a COMPLETED order can get another status if and only if a payment.failed was once recorded for it |
| Reopening.FailedReopensIff | services/order/internal/service/order_service.go:196-215 | the same for a FAILED order |
| Reopening.CanceledReopensIff | services/order/internal/service/order_service.go:239-258 | a CANCELED order can get another status if and only if it holds no stock and either has a payment.completed event or no payment; failing lookups make no difference |
| Reopening.FailedLookupReopens | services/payment/internal/service/payment_service.go:58-78 | once a payment lookup may fail, every COMPLETED or FAILED order can be made CANCELED |
| Reopening.SellOut | services/inventory/internal/service/inventory_service.go:79-105 | from every reachable state later orders can drain the stock, leaving the earlier orders as they are |
| LateCancel.CompletedOrderCanceled | services/payment/internal/service/payment_service.go:73-78 | a concrete run: one redelivered order.created, an order COMPLETED and shipped, then CANCELED |
| Money.BooksBalanceIff | services/payment/internal/service/payment_service.go:73-95 | gateway net equals the COMPLETED payments all along a run if and only if no step moves money without its row |
| Money.ChargeBalancesIff | services/payment/internal/service/payment_service.go:49-95 | a charge keeps the books balanced, in total and per order, if and only if its row is written |
| Money.RefundBalancesIff | services/payment/internal/service/payment_service.go:144-180 | a refund keeps the books balanced if and only if its status write is not lost |
| Money.MoneyConserved | services/payment/internal/service/payment_service.go:235-258 | in such runs the gateway holds exactly the COMPLETED amounts, and each order's net is zero or its own amount |
| Money.CarefulLosesNothing | services/payment/internal/service/payment_service.go:58-95 | runs without a cut between gateway and row and without a failed lookup lose nothing |
| Money.RefundWriteIsAllowed | services/payment/internal/domain/payment.go:30-43 | the unguarded REFUNDED write only ever meets a COMPLETED payment, so it agrees with Payment.Refund |
| Money.LookupFailureChargesTwice | services/payment/internal/service/payment_service.go:58-64 | one failed lookup on a redelivered event charges the order twice for one payment |
| Acceleration.SameAsBareIff | services/payment/internal/handler/event_handler.go:53-93 | a run with duplicates and expiring keys and the same run on the bare handlers have the same rows, events and messages all along if and only if the store never shields a payment handler whose failing lookup would have let it charge or decline again |
| Acceleration.StoreIsOnlyAnAccelerator | services/inventory/cmd/main.go:84-103 | in particular, while payment lookups answer, both end the same |
| Acceleration.StorePreventsASecondCharge | services/payment/internal/handler/event_handler.go:53-72 | a concrete run in which the bare handler charges again and the stored one does not |
| Acceleration.ReplayIsNoOpIff | services/payment/internal/service/payment_service.go:55-95 | exactly when re-running the payment handler on an event that has a payment changes nothing |
| Acceleration.SoundStep | services/delivery/cmd/main.go:82-91 | for what a store remembers, the handler has nothing left to do, and this stays so in every later state |
| OrderHistory.HistoryIsSequential | services/order/internal/repository/order_repository.go:140-158 | for any interleaving of handlers the version counts the committed writes and the status is the serial run of the winners in commit order |
| OrderHistory.ForwardCommitsFollowTheTable | services/order/internal/service/order_service.go:184-185 | every commit of the three guarded handlers is a path in the transition table |
| OrderHistory.PaymentProcessingIsSkipped | services/order/internal/domain/order.go:32-54 | PENDING to STOCK_RESERVING is no single entry of the table, only a path |
| Interleaving.NoLostUpdate | services/inventory/internal/repository/inventory_repository.go:67-105 | for any interleaving of reservations and refunds, even without the row lock, the version counts the winning updates and the database is the serial run of the commits in commit order; stock is conserved if refunds do not overlap |
| Interleaving.ConservedIff | services/inventory/internal/service/inventory_service.go:144-180 | for any interleaving, refunds and missing lock included: stock is conserved, matches the RESERVED rows and is never negative all along the run, if and only if no restore commits on a reservation that is no longer RESERVED |
| Interleaving.GiveConservesIff | services/inventory/internal/service/inventory_service.go:161-180 | giving a reservation back conserves stock if and only if it is still RESERVED at the commit |
| Interleaving.ConflictBranchIsDead | services/inventory/internal/repository/inventory_repository.go:33-64 | under the row lock the compare-and-set never misses, "version conflict" is never published, and a failure is published only when no unit is left |
| Interleaving.AtomicIff | services/inventory/internal/service/inventory_service.go:54-129 | under the lock, whatever overlaps: interleaved transactions leave all along what the whole handlers would have left one after another, if and only if no reservation finishes with its key used meanwhile and no unit left, and no restore on a row that is no longer the order's RESERVED one |
| Interleaving.LockMakesAtomic | services/inventory/internal/service/inventory_service.go:68-129 | under the lock, if deliveries of one event and refunds do not overlap, interleaved transactions leave what the whole handlers would have left one after another |
| Overlaps.OverlappingEventsContradict | services/inventory/internal/service/inventory_service.go:54-66 | a concrete run: two overlapping deliveries of one event both reserve and fail |
| Overlaps.OverlappingRefundsRestoreTwice | services/inventory/internal/service/inventory_service.go:144-180 | a concrete run: two overlapping refunds restore one unit twice |
| OutboxWorker.NoEventLost | services/order/internal/worker/outbox_worker.go:56-86 | with crashes anywhere and failing publishes or marks, every SENT row was published, every message is that of an inserted row, and no row goes back to PENDING |
| OutboxWorker.PublishesInOrder | services/order/internal/repository/outbox_repository.go:93-127 | a pass without failures publishes the oldest pending rows in created_at order, and skips a row only for 100 older ones |
| OutboxWorker.SentWithin | services/order/internal/worker/outbox_worker.go:56-84 | with k < 100 older rows that always fail and g publishable rows up to this one, the row is SENT, and its event published, after ceil(g / (100 - k)) passes, whatever newer rows do (over the whole table: `StarvationBound`) |
| OutboxWorker.SentEventuallyIff | services/order/internal/repository/outbox_repository.go:93-100 | a publishable pending row is ever SENT if and only if fewer than 100 older pending rows always fail |
| OutboxWorker.PassProgress | services/order/internal/worker/outbox_worker.go:69-84 | one pass sends at least 100 - k publishable rows, or all of them |
| OutboxWorker.TickOfRow | services/order/internal/worker/outbox_worker.go:57-86 | after one tick a row has changed if and only if it was among the first 100 pending rows, was published and was marked; and it has then become SENT, nothing else |
| OutboxWorker.HundredAreSent | services/order/internal/worker/outbox_worker.go:58 | a tick without failures sends everything if at most 100 rows are pending, and else exactly the first 100 |
| OutboxWorker.StuckIff | services/order/internal/repository/outbox_repository.go:94-100 | a pass does nothing if and only if every row of its batch fails |
| OutboxWorker.Worker.Process | services/order/internal/worker/outbox_worker.go:56-86 | the loop over the batch leaves what the pass function says: failing rows skipped, published rows marked |
| OutboxWorker.Worker.FindPending | services/order/internal/repository/outbox_repository.go:93-127 | the first `limit` pending rows in insertion order |
| Retry.Do | common/retry/backoff.go:32-79 | which calls are made, the verdict, the error carried and the time of return are exactly those of the schedule, whatever the multiplication of the interval yields |
| Retry.LeftWhen | common/retry/backoff.go:43-79 | a cancellation ends a wait at once but no call: the loop is left at the cancellation or when the last call returned, whichever is later; every other end comes when a call returns or would be due |
| Retry.CallsAreBounded | common/retry/backoff.go:37-54 | at most MaxAttempts calls, none after a success |
| Retry.ElapsedIsBounded | common/retry/backoff.go:43-70 | the loop returns within MaxElapsedTime plus the longest call made plus the longest wait begun |
| Retry.ElapsedIsCapped | common/retry/backoff.go:43-76 | whatever the multiplication yields, it returns within MaxElapsedTime, the longest call made, and InitialInterval or MaxInterval |
| Retry.DefaultIsBounded | common/retry/backoff.go:21-29 | with the default configuration, doubling being exact: five calls at most, and back within five minutes, eight seconds and one call |
| Retry.DefaultSchedule | common/retry/backoff.go:21-76 | with the default configuration calls that fail at once start at 0, 1, 3, 7 and 15 seconds |
| Retry.BackoffIsExponential | common/retry/backoff.go:72-76 | with a whole coefficient c whose products are exact, the k-th wait is min(MaxInterval, InitialInterval * c^k), the first one being uncapped |
| Keys.KeyRoundTrip | services/inventory/internal/service/inventory_service.go:51 | order number and event identifier can be read back from any printed key |
| Keys.PrintedKeys | services/inventory/internal/service/inventory_service.go:51 | the printed form with its prefix, for orders of one, two and three digits and a negative one |
| Keys.KeysAreInjective | services/payment/internal/service/payment_service.go:55 | two printed keys are equal if and only if order and event are |
| Keys.KeyFitsIff | scripts/init-inventory-db.sql:31 | exactly which order numbers a 64-character key column holds next to a 36-character event identifier |
| Keys.WhichKeysFit | services/delivery/internal/service/delivery_service.go:46 | for positive int64 orders: all payment keys fit, delivery keys below 10^18, stock-reservation keys below 10^9 only |
| Payments.PaymentService.HandleOrderCreated | services/payment/internal/service/payment_service.go:49-142 | new rows, outbox, gateway books and error result for every branch and fault |
| Payments.PaymentService.HandleStockReservationFailed | services/payment/internal/service/payment_service.go:144-227 | the refund: newest payment, skip if REFUNDED, gateway before row before event, nothing changed when the gateway refuses |
| Payments.ChargeMeans | services/payment/internal/service/payment_service.go:49-142 | the gateway is asked unless the key is found; what it takes is the order's amount, before the row, before the event; success means that all three are there, or that the key was |
| Payments.RefundMeans | services/payment/internal/service/payment_service.go:144-227 | the newest payment's amount goes back, before its row turns REFUNDED, before the event; success means that all three happened, or that the row was REFUNDED |
| Payments.ChargeRemembered | services/payment/internal/handler/event_handler.go:53-72 | without a fault an approved charge is remembered and a declined one is not |
| Payments.RefundRemembered | services/payment/internal/handler/event_handler.go:74-93 | without a fault a refund is remembered if and only if the order has a payment |
| Payments.PaymentService.Create | services/payment/internal/repository/payment_repository.go:31-59 | a row is added unless its key exists |
| Payments.FindByOrder | services/payment/internal/repository/payment_repository.go:100-137 | the newest payment of the order, or none |
| Payments.Payment.Refund | services/payment/internal/domain/payment.go:35-43 | REFUNDED with its reason if COMPLETED, unchanged otherwise |
| Payments.PaymentConsumer.HandleMessage | services/payment/internal/handler/event_handler.go:36-93 | check, handle, reserve: the service runs unless the store remembers, and only success is remembered |
| Payments.PaymentConsumer.ConsumeClaim | common/messaging/kafka.go:160-188 | there is a chain of states, one per message in claim order, each reached by handling that very message, and it ends in the new state; all messages are marked, failures included |
| Stock.InventoryService.HandlePaymentCompleted | services/inventory/internal/service/inventory_service.go:46-137 | reserve one unit or publish why not; the conflict branch is shown unreachable inside one handler |
| Stock.InventoryService.HandlePaymentRefunded | services/inventory/internal/service/inventory_service.go:139-209 | restore the quantity of the order's RESERVED reservation and cancel it, or do nothing |
| Stock.InventoryService.PublishStockReservationFailed | services/inventory/internal/service/inventory_service.go:211-244 | commits the failure event alone and still reports an error |
| Stock.ReserveMeans | services/inventory/internal/service/inventory_service.go:46-137 | one unit, one row and one stock.reserved together, or a failure event alone with the reason that fits, or nothing; only a reservation, old or new, counts as success |
| Stock.RestoreMeans | services/inventory/internal/service/inventory_service.go:139-209 | the units of the first RESERVED reservation go back, its row is cancelled and the event written together, or nothing at all; success if and only if that happened |
| Stock.ReserveRemembered | services/inventory/cmd/main.go:75-90 | without a fault a reservation is remembered and a refusal is not |
| Stock.RestoreRemembered | services/inventory/cmd/main.go:91-106 | without a fault a refund is remembered unless it has something to restore and no product to restore it to |
| Stock.Tx.UpdateWithOptimisticLock | services/inventory/internal/repository/inventory_repository.go:67-105 | the row changes if and only if its version is the one read |
| Stock.FindReserved | services/inventory/internal/repository/stock_reservation_repository.go:100-132 | the first RESERVED reservation of the order, or none |
| Stock.Inventory.Reserve | services/inventory/internal/domain/inventory.go:22-27 | moves the quantity to reserved, bumps the version, conserves the sum |
| Stock.Inventory.Restore | services/inventory/internal/domain/inventory.go:30-35 | moves the quantity back, bumps the version, conserves the sum |
| Stock.InventoryConsumer.HandleMessage | services/inventory/cmd/main.go:75-106 | check, handle, reserve around the two inventory handlers |
| Deliveries.DeliveryService.HandleStockReserved | services/delivery/internal/service/delivery_service.go:41-110 | delivery row and event together, or neither |
| Deliveries.ShipMeans | services/delivery/internal/service/delivery_service.go:41-110 | row and event come together or not at all, once per key; success means that they are there |
| Deliveries.ShipRemembered | services/delivery/cmd/main.go:74-92 | without a fault every stock.reserved is remembered |
| Deliveries.DeliveryConsumer.HandleMessage | services/delivery/cmd/main.go:74-92 | check, handle, reserve around the delivery handler |
| Orders.OrderService.CreateOrder | services/order/internal/service/order_service.go:67-161 | existing or created with its status, invalid or failed: row before event, row kept when the event is lost |
| Orders.CreateMeans | services/order/internal/service/order_service.go:67-161 | when the result is existing, invalid, created or failed: created if and only if the key is free, both numbers are positive and nothing fails; existing names an order with the key and its current status |
| Orders.CreateStores | services/order/internal/service/order_service.go:97-137 | the stored row and the announced event carry the command's own amount and quantity; a failed call leaves nothing, the row alone, or both |
| Orders.OrderService.UpdateStatusWithVersion | services/order/internal/repository/order_repository.go:140-158 | status and version change if and only if the version is the one read |
| Orders.OrderService.HandlePaymentCompleted | services/order/internal/service/order_service.go:173-194 | PENDING goes to STOCK_RESERVING at the next version, anything else stays; nothing changes when the order is missing, its lookup fails or its write does |
| Orders.OrderService.HandlePaymentFailed | services/order/internal/service/order_service.go:196-215 | CANCELED at the next version, whatever was there; nothing changes when the order is missing, its lookup fails or its write does |
| Orders.OrderService.HandleStockReserved | services/order/internal/service/order_service.go:217-237 | STOCK_RESERVING goes to DELIVERY_PREPARING at the next version, anything else stays; nothing changes when the order is missing, its lookup fails or its write does |
| Orders.OrderService.HandleStockReservationFailed | services/order/internal/service/order_service.go:239-258 | FAILED at the next version, whatever was there; nothing changes when the order is missing, its lookup fails or its write does |
| Orders.OrderService.HandleDeliveryStarted | services/order/internal/service/order_service.go:260-280 | DELIVERY_PREPARING goes to COMPLETED at the next version, anything else stays; nothing changes when the order is missing, its lookup fails or its write does |
| Orders.OrderService.HandleDeliveryFailed | services/order/internal/service/order_service.go:282-301 | FAILED at the next version, whatever was there; nothing changes when the order is missing, its lookup fails or its write does |
| Orders.OrderConsumer.HandleMessage | services/order/internal/handler/event_handler.go:37-176 | check, handle, reserve around the six order handlers |
| Orders.Order.CanTransitionTo | services/order/internal/domain/order.go:32-68 | true if and only if the table lists the target |
| Orders.AllowedIff | services/order/internal/domain/order.go:32-54 | the table lets an open order be canceled, fail, or go to the very next stage, and nothing else |
| Orders.Order.TransitionTo | services/order/internal/domain/order.go:71-79 | moves if and only if the table allows it |
| Idempotency.Store.Reserve | common/idempotency/store.go:36-44 | sets the key and says whether it was new |
| Idempotency.GuardIff | services/payment/internal/handler/event_handler.go:53-93 | the handler runs unless the check finds the event; the event is remembered if and only if it was or the handler succeeded and the store took it; other events are not touched |

## Left out

- HTTP handlers, configuration, logging, process wiring and graceful shutdown.
- JSON encoding, timestamps, addresses, tracking numbers, gateway transaction numbers and cancellation reasons in stored rows: nothing in the saga depends on them. created_at is the insertion order.
- Kafka, Postgres and Redis themselves: they appear as a growing log of published messages, atomic transactions over tables with unique keys and versioned rows, and a set that may lose keys. Partition keys are ignored because any delivery order is allowed.
- Widths of integers: identifiers, amounts, quantities and durations are unbounded. The key columns are the one place where width decides something, and Keys covers it. Elsewhere order numbers are assumed to fit their key columns; one that does not makes the insert fail like any other fault.
- Saga: an outbox row may be published at any time and any number of times, which covers every behaviour of the worker, so PENDING and SENT appear in OutboxWorker only.
- Saga: handlers of the payment service on different claims, and likewise of the delivery service, are taken one after another (see the premises above); their overlaps are not modelled.
- Saga: an order handler's lookup error and its missing order are steps that change nothing; the order service's store remembers an event after a successful handler, whether or not its compare-and-set won.
- Settlement.EveryOrderSettles: assumes no faults, one publication per row, one handling per subscriber and event, and an order service that is not interrupted between read and write. Without them an order may end unsettled, for example by a lost event (OrderWithoutEvent).
- Acceleration.StoreIsOnlyAnAccelerator: requires that payment lookups answer; it is a corollary of SameAsBareIff, which has no such premise.
- OutboxWorker.SentWithin and SentEventuallyIff: the failing rows are the same in every pass and no mark is lost; with lost marks rows are published again in a later pass.
- OutboxWorker.Worker.Process: the payment worker (services/payment/cmd/main.go:157-179) and the inventory and delivery workers run the same query and loop and are not repeated. The ticker around the loop is not modelled.
- Retry.Do: the clock is exact. What the machine makes of interval times coefficient (float64 rounding, overflow of a Duration) is an arbitrary function, and the lemmas that need exact products say so. DoWithResult repeats the same loop and is not repeated here; when it gives up it returns the zero value, because the inner result shadows the outer one.
- Several products, reservation expiry and Confirm, the saga_instances table and Temporal orchestration: present in types, schema or documents, but not executed.
- Order queries, payment queries, delivery status updates, and the error-code helpers: they would add only easy members.
