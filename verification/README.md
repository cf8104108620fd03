# Order platform: a verified model

Several services keep one order, its stock, its coupons and its events consistent while requests
interleave and remote calls fail. This project models how they do it and proves what can be relied
on, and where a promise does not hold, exactly when it does.

`dafny verify dfyconfig.toml` checks the whole project.

| files | what they model |
|---|---|
| `Orders`, `OrderEntity`, `Calendar` | one order row, the operations on it, the setters that carry them out, the delivery date loop |
| `OrderSaga`, `Refinement`, `OrderTheorems`, `Requests` | all requests as interleaved steps; reduction to a serial run; status, money, events; what each request does when undisturbed |
| `StockLedger`, `CreateIdempotency` | where every unit of stock is; one order per request number |
| `OutboxRelay`, `RelayInstances` | outbox, relay instances, broker redelivery, audit collection |
| `CatalogKeys`, `CatalogCache` | cache keys and the versioned catalog cache |
| `Coupons` | rounding, thresholds, claim script, balances |
| `CouponRetry`, `CouponRetryRaces`, `AutoComplete` | the two schedulers |
| `RateLimiter`, `CallGuard` | fixed-window limiter; semaphore and thread pool |
| `CsvImport` | product import |
| `Common`, `Paging` | sums over sequences, pages of rows, batches |

Where the source updates fields or rows in a loop (`OrderEntity`, `OutboxTable`, `RetryService`,
`AutoCompleteService`, `CouponStore`, the import, the date loop) the model is a class or a method
proved against a specification function. Where requests interleave, the model is a step machine on
values: a run is any list of labels, and theorems are about every run.

## What is taken as given

- Money is whole cents; a coupon type is its percentage; times are whole seconds.
- One SQL statement, one Redis command or script, one HTTP call and one commit are atomic steps. A
  remote call works, fails without effect, or takes effect and loses its reply.
- A RuntimeException rolls the transaction back. `save` of a new order either commits or leaves no
  row. The `@Version` comparison happens at commit, which raises the version by one and writes the
  whole row.
- Outbox ids follow commit order. The database assigns them at INSERT, so with overlapping
  transactions a lower id may become visible after a higher one.
- `(user_id, request_no)` is unique in the order table, `order_no` in the retry table. Message ids are
  fresh; a commit whose message id is taken fails.
- The price seen at reservation may be any amount. Rows from before the run may be in any state but
  REFUNDING; the theorems on an order's life are about orders created in the run.
- INCR reaches Redis (its reply, and the commands after it, may be lost); the catalog version key is
  not lost.
- One retry scheduler instance. The claim script is given positive coupon types, as its only caller does.
- A request counts as let through at the time of its INCR. Windows are positive.

## What the proofs show about the code

- Two cancels (or rejects) of one order may both release its stock before the version check stops one
  of them: `StockLedger.RacingCancelsInflateStock`. `StockLedger.MishapsAreTheGuards` names the four
  kinds of step that unbalance stock, and no others do.
- A second relay instance can turn a PUBLISHED outbox row back into PENDING, because the row has no
  version: `RelayInstances.TwoInstancesUnpublish`; `RelayInstances.WhatUnpublishes` is the exact
  condition. The audit trail survives it.
- A page of events that cannot be sent holds up all later ones: `OutboxRelay.FailingPageBlocks`.
- A `scheduleRetry` that overlaps a pass writes back a stale row: it can reopen a finished task, so that
  the coupon is issued again (`CouponRetryRaces.CouponIsIssuedTwice`), or reset the count of a pending
  one, so that it is tried more often than the limit (`TriesExceedTheLimit`). `WhatReopensATask` and
  `CountsAgreeExactlyWhen` are the exact conditions.
- The product service's limiter sets the expiry only on the first request, so a death or a broken
  connection there locks the key for good, and nothing else does:
  `RateLimiter.FirstOnlyLocksExactlyWhen`. Both gateways recover, but let a request through whenever
  their connection breaks after INCR.
- Sync callers hold permits while they queue and async tasks hold threads while they wait for permits.
  Only the permit timeout keeps a circular wait from being a deadlock: `CallGuard.OnlyGivingUpUntiesIt`.
- The limiter's bound over a sliding window is 2 * max - 1, one better than twice the limit.
- Cache coherence needs only the latest write to be announced, not all of them.

## Model

| member | source | states |
|---|---|---|
| `Refinement.EveryRunIsSerial` | services/order-service/src/main/java/com/example/orders/service/OrderService.java:79-212 | In every interleaving of create, pay, cancel, approve, reject and auto-complete, with every failure, the committed orders and outbox are those of a serial replay of the commit log in which each operation's guard held on the row it changed |
| `Refinement.StepKeeps` | services/order-service/src/main/java/com/example/orders/service/OrderService.java:79-212 | Every atomic step of every request keeps the serial replay and what each open transaction knows about the row it read |
| `Refinement.CommitKeeps` | services/order-service/src/main/java/com/example/orders/entity/OrderEntity.java:81-83 | An equal version at commit means the row read is still the row stored, so a commit writes a change that was enabled on the current row; a stale one rolls back |
| `Refinement.CommitWrites` | services/order-service/src/main/java/com/example/orders/service/OrderService.java:125-212 | A commit that goes through writes that row over the row it read, which is the row in the table, and keeps user, request number, product and quantity |
| `Refinement.InsertKeeps` | services/order-service/src/main/java/com/example/orders/service/OrderService.java:98-123 | An insert adds a fresh PAYING row under an unused request number, or leaves the table alone and enters compensation |
| `Refinement.ReadyIsEnabled` | services/order-service/src/main/java/com/example/orders/service/OrderService.java:125-212 | A transaction that has made its remote calls is ready with an operation whose guard, claim and amount all fit the row it read, and the entity its setters have left is the row that operation writes |
| `Refinement.Projection` | services/order-service/src/main/java/com/example/orders/service/OrderService.java:125-212 | Any row is the row first inserted with exactly its own committed operations applied, each enabled in turn, and its outbox rows in id order are those operations' events |
| `OrderTheorems.CommittedOrder` | services/order-service/src/main/java/com/example/orders/service/OrderService.java:125-386 | For every order created here, in every reachable state: it costs the price its own reservation was answered times its quantity; the status determines the committed operations and their order, at most three; unpaid rows carry no discount or final amount; paid ones carry the coupon reply's final amount as charged and its discount (the full price and 0 when the platform is off), with origin = final + discount; a discount leaves an amount that earns a new coupon; a rejection refunded what was charged; shipTime < expectedDelivery <= completeTime; its events form one of six streams whose replay gives the status up to SHIPPING versus COMPLETED |
| `OrderTheorems.OrderCostsItsPrice` | services/order-service/src/main/java/com/example/orders/service/OrderService.java:94-112 | Every row born in a run was inserted by a create of the run for its own user, request number, product and quantity, with origin = that quantity times the price answered by the create's own reserve step |
| `OrderTheorems.EventsTellTheRow` | services/order-service/src/main/java/com/example/orders/service/OrderEventPublisher.java:36-63 | Every committed outbox row stems from an entry of the commit log, and carries the status and total of the order as that very commit left it: PAID_PENDING_APPROVAL with the amount charged, CANCELLED, SHIPPING or REJECTED by its kind |
| `OrderTheorems.RefundingInsideReject` | services/order-service/src/main/java/com/example/orders/service/OrderService.java:194-206 | The managed entity of an open transaction is in REFUNDING exactly while a reject waits for its refund |
| `OrderTheorems.RefundingIsNeverCommitted` | services/order-service/src/main/java/com/example/orders/service/OrderService.java:184-212 | Although the commit writes the managed entity, no reachable state has a committed row in REFUNDING |
| `OrderTheorems.FinalIsAbsorbing` | services/order-service/src/main/java/com/example/orders/service/OrderService.java:130-212 | A committed CANCELLED, REJECTED or COMPLETED row keeps every column whatever steps follow |
| `OrderTheorems.FinalStays` | services/order-service/src/main/java/com/example/orders/service/OrderService.java:135-137 | One-step form of the above, for any label of the machine |
| `Requests.CreateAlone` | services/order-service/src/main/java/com/example/orders/service/OrderService.java:79-112 | From any state, a create with a new request number for a product on sale and in stock leaves one PAYING order at price times quantity, the stock less by the quantity, and nothing else changed |
| `Requests.RepeatAlone` | services/order-service/src/main/java/com/example/orders/service/OrderService.java:80-84 | A create whose request number has an order is answered with that order and changes nothing |
| `Requests.CreateRefused` | services/order-service/src/main/java/com/example/orders/service/OrderService.java:86-94 | A create without a snapshot, off sale or short of stock fails and changes nothing, also when the stock is gone by the time of the reservation |
| `Requests.LoserGivesBack` | services/order-service/src/main/java/com/example/orders/service/OrderService.java:113-122 | A create that holds stock and cannot insert gives it back, and is answered with the order that won, or an error |
| `Requests.ReadAlone` | services/order-service/src/main/java/com/example/orders/service/OrderService.java:130-145 | A request on an order is taken up exactly when the order exists, is the caller's or the caller an admin, and its status allows it; otherwise it is refused and nothing changes |
| `Requests.PayAlone` | services/order-service/src/main/java/com/example/orders/service/OrderService.java:364-386 | From any state, a payment that nothing disturbs commits with the amounts of the coupon reply, no other column changed, and one ORDER_CREATED event with the new status and the amount charged |
| `Requests.CancelAlone` | services/order-service/src/main/java/com/example/orders/service/OrderService.java:130-145 | Likewise a cancel: CANCELLED, the quantity back on the shelf, one ORDER_CANCELLED event |
| `Requests.ApproveAlone` | services/order-service/src/main/java/com/example/orders/service/OrderService.java:164-182 | Likewise an approval: SHIPPING now, expected on the next workday, one ORDER_APPROVED event |
| `Requests.RejectAlone` | services/order-service/src/main/java/com/example/orders/service/OrderService.java:184-212 | Likewise a rejection: the final amount or else the total refunded, REJECTED, the quantity back on the shelf, one ORDER_REJECTED event |
| `Requests.CompleteAlone` | services/order-service/src/main/java/com/example/orders/service/OrderAutoCompleteService.java:84-105 | Likewise a completion: COMPLETED now, without an event |
| `Requests.FailureChangesNothing` | services/order-service/src/main/java/com/example/orders/service/OrderService.java:375-377 | A payment, refund or coupon claim that fails rolls back and leaves every table as it was |
| `Requests.RouteIsRun` | services/order-service/src/main/java/com/example/orders/service/OrderService.java:79-212 | The routes that the undisturbed requests take are runs of the interleaved machine |
| `Orders.FreshLife` | services/order-service/src/main/java/com/example/orders/service/OrderService.java:364-386 | Any chain of enabled operations from a fresh row tells one of the permitted stories, with the money and delivery columns each implies |
| `Orders.EveryStoryHappens` | services/order-service/src/main/java/com/example/orders/service/OrderService.java:125-212 | Conversely every such story is possible for every fresh order, with the charged amount refunded and completion from the delivery date on |
| `Orders.PaymentIsAsAnswered` | services/order-service/src/main/java/com/example/orders/service/OrderService.java:268-279 | On any row, also one from before: the amount charged and the discount stored are those of the coupon reply, the full amount and 0 when the platform is off, or the amounts already prepared |
| `Orders.StoryGoesOn` | services/order-service/src/main/java/com/example/orders/service/OrderService.java:164-182 | Each enabled operation takes a permitted story to a permitted story and lowers the rank of the status |
| `Orders.StreamsAreSix` | services/order-service/src/main/java/com/example/orders/service/OrderEventPublisher.java:20-34 | A listener can make sense of an event sequence exactly when it is one of the six streams |
| `Orders.StoryIsHeard` | services/order-service/src/main/java/com/example/orders/service/OrderEventPublisher.java:20-63 | The events of a permitted story are one of the six streams and replay to the row's status, completion being silent |
| `OrderEntities.OrderEntity.EnsurePayableAmountPrepared` | services/order-service/src/main/java/com/example/orders/service/OrderService.java:321-332 | Field by field: discount and final are the reply's own (0 and the origin when the platform is off), origin is the old origin or total, total equals final; a row with all three amounts is left as it is |
| `OrderEntities.OrderEntity.DoPay` | services/order-service/src/main/java/com/example/orders/service/OrderService.java:364-386 | Pays exactly the orders in PAYING; the charge and the stored amounts are those of the coupon reply, and the row is that of the serial pay operation; any other row is unchanged |
| `OrderEntities.OrderEntity.DoCancel` | services/order-service/src/main/java/com/example/orders/service/OrderService.java:130-145 | Succeeds exactly on PAYING, PENDING_APPROVAL and PAID_PENDING_APPROVAL rows, and changes the status to CANCELLED and nothing else |
| `OrderEntities.OrderEntity.DoApprove` | services/order-service/src/main/java/com/example/orders/service/OrderService.java:164-182 | Succeeds exactly on the two pending statuses; SHIPPING, shipped now, expected on the next workday |
| `OrderEntities.OrderEntity.DoReject` | services/order-service/src/main/java/com/example/orders/service/OrderService.java:184-212 | Refunds exactly on the two pending statuses, the final amount or else the total; REJECTED after a refund that works, REFUNDING and uncommitted after one that fails, and nothing else changed |
| `OrderEntities.OrderEntity.MarkCompletedIfDue` | services/order-service/src/main/java/com/example/orders/service/OrderAutoCompleteService.java:84-105 | Completes exactly SHIPPING rows without a completeTime that are due now, and changes status and completeTime only |
| `Calendar.NextWorkdayAtFixedTime` | services/order-service/src/main/java/com/example/orders/service/OrderService.java:259-266 | The date loop ends on the first weekday strictly after the base date, within three days, at 09:15 |
| `Calendar.NextWorkdayIsFirst` | services/order-service/src/main/java/com/example/orders/service/OrderService.java:259-266 | There is exactly one such time and it lies after the base time |
| `StockLedger.Ledger` | services/order-service/src/main/java/com/example/orders/service/OrderService.java:79-145 | In every reachable state, per product: stock + live orders + held by unfinished creates + leaked = initial stock and live orders + admin edits + released without a commit |
| `StockLedger.TotalIsConserved` | services/order-service/src/main/java/com/example/orders/service/OrderService.java:184-237 | The ledger total changes by admin edits only |
| `StockLedger.CommitSettles` | services/order-service/src/main/java/com/example/orders/service/OrderService.java:139-143 | A commit removes from live orders just what its own transaction had released |
| `StockLedger.StepBalances` | services/product-service/app/services/product_service.py:109-134 | No step of any request changes the ledger total |
| `StockLedger.NoOversell` | services/product-service/app/services/product_service.py:109-118 | Live quantity never exceeds initial stock, initial live orders and admin edits plus what was released without a commit |
| `StockLedger.StockFallsOnlyBySale` | services/product-service/app/services/product_service.py:109-120 | Apart from admin edits stock falls only by a reservation of a product on sale, by the quantity asked for |
| `StockLedger.MishapsAreTheGuards` | services/order-service/src/main/java/com/example/orders/service/OrderService.java:94-122 | In every run, per product: some create is leaked if and only if some reserve lost its reply after taking stock or some compensation did not get through, some release is left behind if and only if some release lost its reply after taking effect or some commit after a release was lost, and the quantities are those of the steps that met these guards |
| `StockLedger.UndoLeaksOnlyByFailing` | services/order-service/src/main/java/com/example/orders/service/OrderService.java:226-237 | In a reachable state a compensation leaks exactly when its call fails, since a product with stock held is still there |
| `StockLedger.SmoothRunsSettle` | services/order-service/src/main/java/com/example/orders/service/OrderService.java:112-145 | Once every request is over, both correction terms are gone if and only if no step met a guard, and then shelf and live orders account for all stock |
| `StockLedger.SettlesExactlyWhen` | services/order-service/src/main/java/com/example/orders/service/OrderService.java:112-145 | Once every request is over, shelf and live orders differ from what is due by exactly the quantities of the steps that met a guard, so they settle if and only if those cancel out |
| `StockLedger.RacingCancelsInflateStock` | services/order-service/src/main/java/com/example/orders/service/OrderService.java:130-145 | A run in which two cancels of one order both release before either commits ends with two units too many on the shelf |
| `CreateIdempotency.KeysAreUnique` | services/order-service/src/main/java/com/example/orders/service/OrderService.java:79-123 | (user, request_no) stays unique over every run |
| `CreateIdempotency.AnswersAgree` | services/order-service/src/main/java/com/example/orders/service/OrderService.java:80-84 | Any two normal answers to creates with one (user, request_no) name the same existing order |
| `CreateIdempotency.DuplicatesTakeOneOrder` | services/order-service/src/main/java/com/example/orders/service/OrderService.java:113-118 | Once the racing creates of one (user, request_no) are over, they have taken off each shelf the quantity of the one order, whatever the duplicates asked for, plus what they leaked: exactly the order's quantity if and only if none leaked |
| `CreateIdempotency.RunsKeepUnclaimed` | services/order-service/src/main/java/com/example/orders/service/OrderService.java:98-112 | Over every run the quantity under a request number and product is what its creates inserted plus what was there before |
| `CreateIdempotency.IdentityStays` | services/order-service/src/main/java/com/example/orders/service/OrderService.java:98-112 | From any reachable state on, a row keeps its user, request number, product and quantity |
| `CreateIdempotency.TakenIsOnTheCalls` | services/product-service/app/services/product_service.py:109-134 | The stock that the reserve and release steps of a key's creates have taken off a shelf is what those creates hold, have leaked or have turned into an order |
| `OutboxRelay.OutboxTable.Enqueue` | services/order-service/src/main/java/com/example/orders/service/OrderOutboxService.java:25-34 | Appends one pending row, never attempted |
| `OutboxRelay.OutboxTable.RelayPendingEvents` | services/order-service/src/main/java/com/example/orders/service/OrderOutboxRelayService.java:40-52 | The batch loop sends and marks exactly the first min(50, batch) pending rows by id; what was sent stays sent when the transaction aborts, and the table is then unchanged |
| `OutboxRelay.OutboxTable.PublishBatch` | services/order-service/src/main/java/com/example/orders/service/OrderOutboxRelayService.java:54-79 | Each managed row of the page is attempted once, in order, and becomes PUBLISHED just when its send came back |
| `OutboxRelay.PassedMeans` | services/order-service/src/main/java/com/example/orders/service/OrderOutboxRelayService.java:54-79 | After a committed pass each row of the page has one more attempt and is PUBLISHED at that time without error if its send came back, else still pending with an error; every other row is as it was |
| `OutboxRelay.Page` | services/order-service/src/main/java/com/example/orders/service/OrderOutboxRelayService.java:43-51 | The page holds the pending rows of lowest id, as many as there are up to the limit |
| `OutboxRelay.PageLimit` | services/order-service/src/main/java/com/example/orders/service/OrderOutboxRelayService.java:43-51 | The limit is the smaller of fifty and the batch size, which counts as at least one |
| `OutboxRelay.RelayDrains` | services/order-service/src/main/java/com/example/orders/service/OrderOutboxRelayService.java:40-52 | k passes in which every send works leave of n pending rows what k pages leave of n |
| `OutboxRelay.FailingPageBlocks` | services/order-service/src/main/java/com/example/orders/service/OrderOutboxRelayService.java:43-51 | The next pass takes the very same page if and only if no send of this one worked |
| `OutboxRelay.AuditTrail` | services/notification-service/app/main.py:125-157 | Across failed sends, lost replies, aborted relay commits, several relay instances and arbitrary redelivery: a PUBLISHED row was sent, every audit document tells of a committed outbox row under that event's message id, one document per message id, it is the first write that got through, and no write is forgotten |
| `OutboxRelay.EveryRunKeeps` | services/order-service/src/main/java/com/example/orders/service/OrderOutboxRelayService.java:40-79 | Every step of relays, broker and consumer keeps the invariant behind the audit trail |
| `OutboxRelay.FirstWritesAreFirst` | services/notification-service/app/main.py:125-133 | Upserts with setOnInsert keep for each id the first document written |
| `RelayInstances.PublishedIsFinal` | services/order-service/src/main/java/com/example/orders/service/OrderOutboxRelayService.java:58-61 | With one relay instance a PUBLISHED row is never touched again |
| `RelayInstances.WhatUnpublishes` | services/order-service/src/main/java/com/example/orders/service/OrderOutboxRelayService.java:40-79 | With any number of instances, the steps that return a PUBLISHED row to PENDING are exactly the commits of a relay that had read the row as pending and failed to send it |
| `RelayInstances.RelayRunIsPass` | services/order-service/src/main/java/com/example/orders/service/OrderOutboxRelayService.java:40-79 | From any state, the steps of one relay with nothing in between are the pass of the batch loop: page, sends in id order, marks, write-back |
| `RelayInstances.DeliveredIsStored` | services/notification-service/app/main.py:125-157 | A delivery that gets through leaves a document for its message id: this one, with its time, unless there was one already |
| `RelayInstances.RowsAreConsistent` | services/order-service/src/main/java/com/example/orders/service/OrderOutboxRelayService.java:54-79 | In every run, with any number of instances: publishedAt is set exactly on PUBLISHED rows, which carry no error, and a row was attempted exactly when it is published or carries an error |
| `RelayInstances.TwoInstancesUnpublish` | services/order-service/src/main/java/com/example/orders/service/OrderOutboxRelayService.java:68-70 | A run with two instances in which that happens, for any event |
| `RelayInstances.AuditReportsCommits` | services/order-service/src/main/java/com/example/orders/service/OrderEventPublisher.java:36-63 | Every audit document names an order, kind and message id of a change that the order service committed, with the status and total which that commit left |
| `Paging.FirstWhereMeans` | services/order-service/src/main/java/com/example/orders/service/OrderOutboxRelayService.java:43-51 | The first rows by id with a property: as many as there are up to the limit, in id order, leaving out only later ones |
| `Paging.BatchesDrain` | services/order-service/src/main/java/com/example/orders/service/OrderOutboxRelayService.java:48-51 | k batches of b leave max(0, n - k b) of n |
| `CatalogCache.AnswersAreFresh` | services/product-service/app/api/routes.py:84-119 | Any answer, hit or miss, is what the database gave for that very query at a moment no earlier than every write whose bump was over when the reader read the version; and not-found is answered only when the database had nothing at such a moment |
| `CatalogCache.HitsExactlyWhen` | services/product-service/app/core/cache.py:90-94 | In any reachable state a reader hits exactly when an answer to its normalised query is cached under its version, and is then answered with that payload |
| `CatalogCache.StoredIsCached` | services/product-service/app/api/routes.py:116-119 | A reader that fetched answers with what it fetched and leaves it cached for its version and query |
| `CatalogCache.FetchAsksNow` | services/product-service/app/api/routes.py:99-116 | A reader that missed asks the database as it is now |
| `CatalogCache.ReadVersionSees` | services/product-service/app/core/cache.py:63-68 | The version read is the stored one or 0, and the writers it accounts for are exactly those whose bump is over |
| `CatalogCache.CurrentEntriesAgree` | services/product-service/app/core/cache.py:63-99 | Once the latest write is announced, every entry under the current version equals the database's answer now |
| `CatalogCache.WhatOutdates` | services/product-service/app/api/routes.py:84-119 | From any reachable state in which the current entries agree with the database, a step keeps the agreement unless it is a commit that changes a cached answer or a reader that stores an answer changed since it fetched |
| `CatalogCache.EveryRunKeeps` | services/product-service/app/api/routes.py:201-232 | Every step of readers, writers and expiry keeps the invariant behind both |
| `CatalogCache.HitKeeps` | services/product-service/app/core/cache.py:90-94 | A hit answers the reader's own query and version, by key injectivity |
| `CatalogCache.UnannouncedWriteIsMissed` | services/product-service/app/api/routes.py:213-221 | Between commit and bump an entry under the current version can differ from the database |
| `CatalogKeys.KeysIdentify` | services/product-service/app/core/cache.py:75-87 | Two requests get the same key if and only if version and normalised query are the same |
| `CatalogKeys.KeyText` | services/product-service/app/core/cache.py:75-87 | The key is the text the service formats, field by field |
| `CatalogKeys.KnownEncodings` | services/product-service/app/core/cache.py:32-34 | The encodings that section 10 of RFC 4648 lists, and the two letters of the URL-safe alphabet of section 5 |
| `CatalogKeys.KnownCharacters` | services/product-service/app/core/cache.py:33-33 | UTF-8 of one, two, three and four bytes, on known characters |
| `CatalogKeys.FragmentMeans` | services/product-service/app/core/cache.py:32-34 | Keyword fragments coincide exactly when the keywords filter alike (None and empty text together), and contain no ':' |
| `CatalogKeys.Base64RoundTrip` | services/product-service/app/core/cache.py:32-34 | base64url (section 5 of RFC 4648) decodes to the bytes encoded |
| `CatalogKeys.EncodeShape` | services/product-service/app/core/cache.py:32-34 | Encoded text has a length divisible by four, is empty only for no bytes, and has no ':' |
| `CatalogKeys.Utf8Injective` | services/product-service/app/core/cache.py:33-33 | Different texts have different UTF-8 bytes |
| `CatalogKeys.JoinInjective` | services/product-service/app/core/cache.py:78-81 | Fields without ':' can be read back from their ':'-joined text |
| `CatalogKeys.DecimalInjective` | services/product-service/app/core/cache.py:79-80 | Decimal fields determine the number and contain no ':' |
| `Coupons.HalfUpRounds` | services/product-service/app/services/product_service.py:137-138 | Half-up rounding is within half a cent, ties away from zero |
| `Coupons.RoundingIsUnique` | services/product-service/app/services/product_service.py:137-138 | Only one value rounds so |
| `Coupons.HalfUpMonotone` | services/product-service/app/services/product_service.py:137-138 | Rounding is monotone |
| `Coupons.ClaimingStillEarns` | services/product-service/app/services/product_service.py:141-158 | A discount by an allowed coupon is the exact share rounded half up, lies strictly between zero and the amount, and leaves an amount that earns a new coupon (20 or 30 percent after a 30 percent one) |
| `Coupons.AnswersForCents` | services/product-service/app/services/product_service.py:213-285 | Any reply to a claim for whole cents has discount + final = that amount, and a discount other than zero lies below it and leaves an amount that earns a coupon |
| `Coupons.TiersAreLinear` | services/product-service/app/services/product_service.py:141-158 | A percentage t is allowed exactly from 30 t up and earned exactly from 30 t - 100 up, and allowed types are listed from the largest down |
| `Coupons.FirstAvailableIsFirst` | services/product-service/app/core/cache.py:19-29 | The scan answers 0 exactly when no listed type is held, else a held type with none held before it |
| `Coupons.FirstAvailableIsBest` | services/product-service/app/services/product_service.py:151-158 | No other allowed coupon the user holds would discount more than the one claimed |
| `Coupons.BalancesConserve` | services/product-service/app/core/cache.py:123-144 | In every run of issues and claims each balance is issued minus claimed, and never negative |
| `Coupons.CouponStore.IssueOne` | services/product-service/app/core/cache.py:123-131 | Raises one balance by one and answers it |
| `Coupons.CouponStore.ClaimBest` | services/product-service/app/core/cache.py:19-29 | The script's loop answers the first available type and takes one of it, or takes nothing and answers 0 |
| `Coupons.CouponStore.IssueForOrder` | services/product-service/app/services/product_service.py:161-210 | Refuses exactly over the rate limit, fails exactly when a coupon is due and Redis is down, else issues the type the rounded amount earns, or nothing below the thresholds |
| `Coupons.CouponStore.ClaimForOrder` | services/product-service/app/services/product_service.py:213-285 | Refuses exactly over the rate limit, fails exactly when a claim is due and Redis is down; else discount + final = rounded amount with the best held coupon, which is taken; a claimed coupon leaves an amount that earns another |
| `CouponRetry.RetryService.ScheduleRetry` | services/order-service/src/main/java/com/example/orders/service/CouponIssueRetryService.java:45-68 | Adds a pending task due after the delay, puts off a pending one, leaves finished ones and blank order numbers alone |
| `CouponRetry.RetryService.MarkSuccess` | services/order-service/src/main/java/com/example/orders/service/CouponIssueRetryService.java:98-105 | Marks one existing task SUCCESS and nothing else |
| `CouponRetry.RetryService.MarkFailure` | services/order-service/src/main/java/com/example/orders/service/CouponIssueRetryService.java:107-122 | Counts one failure; FAILED at max(maxRetries, 1), else pending again after the delay |
| `CouponRetry.RetryService.RetryPendingTasks` | services/order-service/src/main/java/com/example/orders/service/CouponIssueRetryService.java:70-96 | The loop issues and marks each of the first fifty due tasks by id once |
| `CouponRetry.PassSpends` | services/order-service/src/main/java/com/example/orders/service/CouponIssueRetryService.java:79-96 | A pass uses up at least one retry of every task it takes and leaves the others alone |
| `CouponRetry.ScheduledTasks` | services/order-service/src/main/java/com/example/orders/service/CouponIssueRetryService.java:53-67 | A scheduled task is pending and due exactly from the delay on; scheduling again keeps its count; finished tasks are left alone |
| `CouponRetry.MarkedTasks` | services/order-service/src/main/java/com/example/orders/service/CouponIssueRetryService.java:98-122 | A mark records success, or counts one failure: FAILED exactly when the count reaches maxRetries, else due again exactly from the delay on |
| `CouponRetry.RetriesAreSpaced` | services/order-service/src/main/java/com/example/orders/service/CouponIssueRetryService.java:107-119 | A task a pass has tried is not due again before the delay is over, whatever the platform answered |
| `CouponRetry.RetriesTerminate` | services/order-service/src/main/java/com/example/orders/service/CouponIssueRetryService.java:70-122 | With no tasks added at most n * max(maxRetries, 1) passes find anything to do, whatever the platform answers |
| `CouponRetry.RetriesDrain` | services/order-service/src/main/java/com/example/orders/service/CouponIssueRetryService.java:70-122 | Passes spaced by the delay that start when every task is due finish all n tasks within ceil(n / 50) * max(maxRetries, 1) passes, whatever the platform answers |
| `CouponRetryRaces.WhatReopensATask` | services/order-service/src/main/java/com/example/orders/service/CouponIssueRetryService.java:53-67 | In any interleaving, the steps that reopen a SUCCESS or FAILED task are exactly the write-backs of a scheduleRetry that had read it while pending |
| `CouponRetryRaces.WhatSpoilsTheCount` | services/order-service/src/main/java/com/example/orders/service/CouponIssueRetryService.java:45-122 | From a state in which a task's retryCount is its failed marks and every attempt is accounted for: a step keeps the first unless it writes back a pending copy with another count, and the second unless a pass dies with the attempt in hand, cannot save a failure, or a pending copy is written over a success |
| `CouponRetryRaces.CountsAgreeExactlyWhen` | services/order-service/src/main/java/com/example/orders/service/CouponIssueRetryService.java:45-122 | Over whole runs: both hold in every state if and only if no step met one of those guards |
| `CouponRetryRaces.RetriesAreBounded` | services/order-service/src/main/java/com/example/orders/service/CouponIssueRetryService.java:84-122 | In every run a task is issued at most max(maxRetries, 1) * (1 + steps that met a guard) times; with none, at most max(maxRetries, 1) times and retryCount is the number of failed retries |
| `CouponRetryRaces.TerminalIsAbsorbing` | services/order-service/src/main/java/com/example/orders/service/CouponIssueRetryService.java:61-63 | Over whole runs: a SUCCESS or FAILED task stays finished throughout if and only if no stale copy of it is written back, and then with the same status |
| `CouponRetryRaces.LateScheduleReopens` | services/order-service/src/main/java/com/example/orders/service/CouponIssueRetryService.java:45-68 | A run in which a late scheduleRetry turns SUCCESS back into pending |
| `CouponRetryRaces.CouponIsIssuedTwice` | services/order-service/src/main/java/com/example/orders/service/CouponIssueRetryService.java:45-96 | That run continued: the task is issued a second time after its success |
| `CouponRetryRaces.LateScheduleForgets` | services/order-service/src/main/java/com/example/orders/service/CouponIssueRetryService.java:53-67 | A run in which no task is ever finished and yet retryCount falls back to 0 after a failed retry |
| `CouponRetryRaces.TriesExceedTheLimit` | services/order-service/src/main/java/com/example/orders/service/CouponIssueRetryService.java:45-122 | That run continued to three attempts where the limit is two |
| `CouponRetryRaces.DyingPassLosesAttempt` | services/order-service/src/main/java/com/example/orders/service/CouponIssueRetryService.java:84-96 | A run in which a pass dies with an attempt that nothing records |
| `CouponRetryRaces.EveryRunKeeps` | services/order-service/src/main/java/com/example/orders/service/CouponIssueRetryService.java:70-82 | In every interleaving the tasks still ahead of a pass are pending |
| `CouponRetryRaces.PassIsTheLoop` | services/order-service/src/main/java/com/example/orders/service/CouponIssueRetryService.java:70-96 | The steps of a pass with nothing in between are the batch loop: the first fifty due tasks by id, each issued, read and marked once in order, leaving the tasks as the loop does |
| `CouponRetryRaces.ScheduleIsTheMethod` | services/order-service/src/main/java/com/example/orders/service/CouponIssueRetryService.java:45-68 | The steps of a schedule with nothing in between do what the service method does |
| `AutoComplete.AutoCompleteService.RunAutoComplete` | services/order-service/src/main/java/com/example/orders/service/OrderAutoCompleteService.java:46-56 | Skips while a pass runs, and otherwise leaves the flag down however the pass ends and the table as one pass over the page leaves it |
| `AutoComplete.AutoCompleteService.AutoCompleteDeliveredOrders` | services/order-service/src/main/java/com/example/orders/service/OrderAutoCompleteService.java:58-81 | The loop over the candidates changes exactly the rows that one pass over the page changes |
| `AutoComplete.AutoCompleteService.MarkCompletedIfDue` | services/order-service/src/main/java/com/example/orders/service/OrderAutoCompleteService.java:84-105 | Completes the row if its guard holds when read again and the save goes through |
| `AutoComplete.PageMeans` | services/order-service/src/main/java/com/example/orders/service/OrderAutoCompleteService.java:60-73 | The page is sorted by expected delivery and, where equal, id; is as full as the batch allows; and leaves out only rows that come later |
| `AutoComplete.PassedMeans` | services/order-service/src/main/java/com/example/orders/service/OrderAutoCompleteService.java:79-105 | A pass completes exactly the page's rows whose guard holds and whose save works; every other row is unchanged |
| `AutoComplete.CreatedOrdersAreTidy` | services/order-service/src/main/java/com/example/orders/service/OrderAutoCompleteService.java:93-98 | In every interleaving, orders created by this service carry a completeTime exactly when COMPLETED |
| `AutoComplete.DueExactlyWhenEnabled` | services/order-service/src/main/java/com/example/orders/service/OrderAutoCompleteService.java:62-95 | For rows whose completeTime goes with COMPLETED, the finder asks for exactly the rows that can be completed |
| `AutoComplete.PassCompletesPage` | services/order-service/src/main/java/com/example/orders/service/OrderAutoCompleteService.java:93-95 | A pass without conflicts completes its whole page if and only if no candidate already carries a completeTime |
| `AutoComplete.StrandedPageBlocks` | services/order-service/src/main/java/com/example/orders/service/OrderAutoCompleteService.java:62-73 | A page of candidates that carry one changes nothing, so it would be picked for ever |
| `AutoComplete.PassTakesOldestFirst` | services/order-service/src/main/java/com/example/orders/service/OrderAutoCompleteService.java:62-73 | A pass at a later time takes one batch off the orders due at the start, although more have become due |
| `AutoComplete.DueOrdersDrain` | services/order-service/src/main/java/com/example/orders/service/OrderAutoCompleteService.java:46-105 | With any other creates, payments, approvals, cancels and rejections in between, k conflict-free passes leave at most what k batches leave of the n orders due at the start |
| `AutoComplete.AllDueAreCompleted` | services/order-service/src/main/java/com/example/orders/service/OrderAutoCompleteService.java:46-105 | So after ceil(n / batch) such passes each of them is COMPLETED |
| `RateLimiter.SlidingBound` | gateway/app/core/proxy.py:61-85 | In any interleaving of INCR, TTL and EXPIRE of any number of callers, in each of the three forms, with late or repeated EXPIREs, deaths and broken connections, a half-open interval of one window lets through at most 2 * max - 1 requests (none if max is zero) plus those whose connection broke before the limiter had its answer |
| `RateLimiter.WhoIsBlind` | gateway/app/core/cache.py:32-60 | A caller is left without an answer, and so let through, exactly when the reply to its INCR is lost or, at the gateways, its connection breaks after it; the product service keeps the count it has |
| `RateLimiter.EveryRunKeeps` | gateway/app/core/cache.py:48-60 | Lives of the key start at least a window apart and each admits at most max |
| `RateLimiter.DeadlineIsNear` | gateway/app/core/cache.py:54-57 | In every reachable state a deadline is at most one window away |
| `RateLimiter.WindowEnds` | gateway-go/internal/cache/cache.go:75-85 | From any reachable state whose key is absent or has a deadline, once a window has passed without an EXPIRE the current life of the key is over |
| `RateLimiter.NextIsFirst` | gateway/app/core/cache.py:48-58 | A request that comes a window later with nothing in between is answered 1 |
| `RateLimiter.CountsAreExact` | gateway/app/core/cache.py:48-58 | In every run a call is answered exactly the number of INCRs of its life of the key so far, its own included |
| `RateLimiter.FirstMaxPass` | gateway/app/core/proxy.py:65-70 | A call that is neither cut off nor killed is let through exactly when at most max INCRs of its life had run: the first max of each life pass |
| `RateLimiter.WhatAbandonsTheKey` | gateway-go/internal/cache/cache.go:66-88 | In all three forms, the steps that leave a key without a deadline and without a caller are exactly those that cut off the last call in flight before its EXPIRE, or make the key unseen with nobody about |
| `RateLimiter.IdleKeyExpires` | gateway/app/core/cache.py:48-60 | Over whole runs: with no call in flight the key is absent or has a deadline, in every state, if and only if no step abandons it |
| `RateLimiter.GatewaysHeal` | gateway/app/core/cache.py:54-57 | From any state, a whole call of either gateway leaves the key with a deadline |
| `RateLimiter.FirstOnlyLocksExactlyWhen` | services/product-service/app/core/cache.py:114-120 | For every run of the product-service form: the key is without a deadline and with no call in flight if and only if some step lost an EXPIRE |
| `RateLimiter.LossIsDeath` | services/product-service/app/core/cache.py:114-120 | With connections that hold, an EXPIRE was lost if and only if some caller died in the call |
| `RateLimiter.FirstOnlyLocksOut` | services/product-service/app/core/cache.py:114-120 | From then on, whatever follows, the key keeps no deadline and every later call is answered more than the count reached |
| `RateLimiter.FirstOnlyCanLock` | services/product-service/app/core/cache.py:114-120 | One call that dies between INCR and EXPIRE leads there |
| `CallGuard.GuardIsSafe` | services/order-service/src/main/java/com/example/orders/service/ExternalCallGuard.java:40-113 | Free permits plus holders equal the total, running external calls never exceed the permits, busy threads never exceed the pool, and submitted = succeeded + failed + rejected + interrupted or turned away + unfinished |
| `CallGuard.EndsAsItRan` | services/order-service/src/main/java/com/example/orders/service/ExternalCallGuard.java:40-78 | In every run a call counts as succeeded exactly when it returned well, as failed exactly when it returned otherwise or its task was turned away, as rejected exactly when its wait timed out |
| `CallGuard.StepKeeps` | services/order-service/src/main/java/com/example/orders/service/ExternalCallGuard.java:40-78 | Every step of sync and async calls keeps those counts |
| `CallGuard.WorkRunsOut` | services/order-service/src/main/java/com/example/orders/service/ExternalCallGuard.java:40-78 | Without new calls every run is finite: each step uses up work |
| `CallGuard.NeverStuck` | services/order-service/src/main/java/com/example/orders/service/ExternalCallGuard.java:96-113 | Any state with an unfinished call has a step that is bound to come |
| `CallGuard.Drains` | services/order-service/src/main/java/com/example/orders/service/ExternalCallGuard.java:40-113 | From any state a run of steps, each bound to come in the state where it is taken, finishes every call, within the work there is |
| `CallGuard.KnotIsReached` | services/order-service/src/main/java/com/example/orders/service/ExternalCallGuard.java:58-71 | With one permit and one thread such a circular wait is reached |
| `CallGuard.OnlyGivingUpUntiesIt` | services/order-service/src/main/java/com/example/orders/service/ExternalCallGuard.java:96-108 | In any reachable state with an unfinished call, no existing call can move but by permit timeout or interrupt if and only if no permit is free, all threads are busy and every unfinished call waits for a permit or a thread |
| `CsvImport.ImportProducts` | services/product-service/app/services/product_service.py:330-418 | Rejects exactly files without data or with another header; otherwise the added products are the new valid rows in file order, every other data row number is in the error list once, and success = imported = total - failed |
| `CsvImport.EveryRowOnce` | services/product-service/app/services/product_service.py:346-403 | The errors of the two loops together name each row that is not added once and no other |
| `CsvImport.ParseMeans` | services/product-service/app/services/product_service.py:349-385 | A row is a product exactly when it has six cells, its numbers parse and every limit holds; name, code and category are its first, second and fifth cell |
| `CsvImport.NonBlankKeeps` | services/product-service/app/services/product_service.py:330-330 | Blank lines are dropped and all others kept in order |
| `CsvImport.Validate` | services/product-service/app/services/product_service.py:349-385 | First loop: unparsable rows and validated rows, both with row numbers from 2 |
| `CsvImport.AddNew` | services/product-service/app/services/product_service.py:387-403 | Second loop: rows whose code is already in the catalog go to the errors, the others are added and counted |

## Left out

- OrderInFlightLockManager: gives no exclusion the proofs could use, since its lock is freed before the surrounding transaction commits; serialisation rests on the version column.
- HTTP clients, JSON mapping, JWT, bcrypt, CORS, metrics, configuration loading: each remote call is a step with three outcomes.
- Frontend, scripts, containers and cloud files: no logic to prove.
- Gateway routing, role checks, token blacklist, user-service login: shallow branching.
- Redis outages in which INCR does not arrive (every request is let through) and loss of the catalog version key: they break the limiter bound and coherence by design.
- At most one coupon claim, charge, refund or release per order: not promised by the code under retries and races, and not claimed here; only the committed change is unique.
- Refund on cancel of a paid order: the code makes none.
- Order row columns payment_time, refund_time, cancel_time, approve_time and reject_reason: written, never read by a guard. A null total_amount in old rows is not represented.
- Order tables inside the interleaved machines are values, not objects: update in place and aliasing are shown only for the classes named above.
- Admin product edits are one step that overwrites a row; the change in stock is recorded per product.
- build_audit_record: a document is its message id, the whole event and the time consumed; the lookup of alternative field names and the fallback id for events without one are not modelled, since the publisher always sets an id.
- Null amounts in a coupon reply, which the order service reads as nothing off: the coupon service always sets both.
- CatalogCache: the list query's count and its rows are one database read.
- CallGuard: the pool may start threads up to its maximum at any time, a superset of what the executor does; the failure callback of async calls is not a step.
- AutoComplete.DueOrdersDrain: passes are uninterrupted and free of conflicts; completion against concurrent changes is covered by the order machine.
- CsvImport: decoding, CSV splitting and number parsing are parameters; two rows of one file with the same new code are both added, as the unflushed session does, and the database's own uniqueness constraint is not part of this model.
- Coupon issue and claim records (per-order keys with a time to live) and balance listings: stored and read back unchanged.
