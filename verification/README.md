# Order, payment and notification services: protocols and proofs

The repository consists of three Go services. The order service stores orders, calls the payment service and caches
rows in Redis behind a rate limiter. The payment service commits a payment and publishes an event to RabbitMQ. The
notification service consumes the events with a pool of workers and sends one e-mail for each. All three share one
Redis database. What can go wrong lies between the single commands, so every protocol is modelled here as a labelled
transition system: one label is one atomic effect on a store, on the broker or on a goroutine's program counter, and
every interleaving, every reply, every crash and every fault is a choice of label. A failed command may or may not
have taken effect.

| part | files |
|---|---|
| worker pool: states and steps, conservation and shutdown, duplicates, draining, exactly-once, runs that attain the bounds | NotificationPool, PoolConservation, PoolDedup, PoolDrain, PoolExactlyOnce, PoolWitness |
| cache-aside: states and steps, coherence and staleness | CacheAside, CacheCoherence |
| rate limiter: states and steps, invariants, bounds, who is admitted, runs that attain the bounds | RateLimit, RateBounds, RateTheorems, RateAdmissions, RateWitness |
| payments: states and steps, correspondence of calls, rows and events | Payments |
| broker topology: declarations, routing, dead-lettering | Topology |
| backoff in binary64 | Backoff |
| one Redis database for all | TtlStore, SharedRedis, SharedSteps, OneDatabase |
| everything together, and end-to-end results | Services, EndToEnd, Delivery, ServicesWitness |
| the Go code itself, as classes | NotificationConsumer, OrderHandler, RateLimiter, PaymentHandler, Publisher, RedisStores, Tables |
| replies of commands, sums over sequences, integer division | Replies, Counting, Arithmetic |

The classes follow the Go methods statement by statement. They act on the shared state only through steps of the
transition system, and before each step `Interfere` lets any number of steps of everybody else happen. A contract
says which steps a call takes (`Mine`, a script per outcome) and what is then true, for all interleavings; since the
whole trace is a run of the transition system, the theorems about runs hold for the classes.

## What the code does and its documentation does not say

- README.md:167 says of two workers that race on one event that "only one wins and the other safely skips". The mark
  follows the send, so all racing workers send. `PoolWitness.OnlyOneWinsIff` gives the exact condition: the claim
  holds if and only if there is at most one worker, or at most one broker copy of the event, or no attempt is made at
  all. `PoolDedup.DuplicateBound` is what holds instead, and `PoolWitness.DuplicateBoundAttained` shows that it is
  tight. The payment service never puts two copies of one event into the queue (`EndToEnd.OneCopy`), so with this
  publisher the failing case does not arise: duplicates then come only from expiries and lost marks
  (`EndToEnd.NotifiedAtMostOnce`), and in a run in which the process lives and every settlement succeeds there are
  none (`Delivery.EveryEventSettledOnce`).
- README.md:112 says that invalidation prevents serving stale data. The goroutine that populates the cache may run
  after the deletion. `CacheCoherence.NeverServesStaleIff` gives the exact condition, `InvalidationIsNotEnough` a run
  without any failure, and `StalenessAfterInvalidation` the bound that remains. order_handler.go:52 calls the
  invalidation atomic; it is a separate command after the update.
- README.md:152 lists a wait of 8 s after the third attempt. No wait follows the last attempt
  (`Consumer.SleepAfterAttemptIff`), so that wait takes place if and only if at least four attempts are configured;
  the default is three (`Consumer.DocumentedWaitIff`).
- redis_idempotency_store.go:54 says GET; the code issues EXISTS.
- payment_handler.go:38 says that the caller can retry when the publication fails. The caller is told "completed"
  either way. Moreover the channel is not in confirm mode (publisher.go:105-121): a publication without an error has
  been written, not taken, so an event can be lost without any error at all. An answered order has an event if and
  only if the broker took it (`EndToEnd.AnnouncedIff`, `ServicesWitness.CompletedWithoutEvent`).
- publisher.go:98 says that the mandatory flag makes the broker return an error. Returned messages arrive
  asynchronously and nobody listens; `Topology.ConstructedRoutes` shows that no event of a constructed publisher is
  ever unroutable, so the flag is not needed.
- A settlement that fails leaves its message unacknowledged. After `numWorkers` such failures the prefetch window is
  used up and the pool stands still until the process ends (`PoolDrain.StuckIffStarved`, `StarvedForever`).
- An EXPIRE that is lost, or the lost reply of an INCR that created the counter, leaves a counter that never expires:
  from then on the client gets what is left of one limit and is locked out (`RateTheorems.LostExpireLocksOut`).
- In an interval of length L the limiter admits fewer than `maxRequests * (ceil(L / W) + 1)` requests. The exact
  maximum is `maxRequests * ceil(L / W)` where ceil(L / W) > ceil((L - 1) / W), and
  `maxRequests * (ceil((L - 1) / W) + 1) - 1` otherwise (`RateTheorems.SlidingIntervalBound`); it is attained for
  every limit, every window and every L (`RateWitness.IntervalBoundAttained`).
- "payment_failed" does not mean unpaid. A payment whose reply is lost leaves the order so although it is paid and
  its confirmation is queued (`ServicesWitness.FailedButPaid`), and an order recorded as failed can still be charged
  later. It never will be if and only if it has no payment and its payment call has given up or was never sent
  (`EndToEnd.NeverPaidIff`).

## Assumptions

One notification process with at least one worker (a prefetch of 0 would mean no limit); no eviction and no manual
change of Redis keys; a window of at least 1; a time to live of 0 means no expiry, as in the Redis client library; event identifiers are fresh; ProcessPayment is called only by
CreateOrder, once per call, and the client libraries' own retries are off; unacknowledged messages return to the
queue when the process ends; a successful send is one for which the provider returned no error; amounts are integers
(cents); decoding JSON is a partial function that inverts encoding; a missing PostgreSQL store counts as a failed
record; Go's `math.Pow(2, k)` is exact for k up to 1023. Time is a logical clock; a sleep does not hold up the clock
or the other goroutines, which only adds interleavings. A closed delivery channel is drained before the workers see
it closed, as a Go channel is. A settlement may also fail while the channel stays open; with the AMQP client a failed
ack usually means that the channel is closed, so the stall of `PoolDrain.StuckIffStarved` takes unusual failures.

## Model

| member | source | states |
|---|---|---|
| `PoolConservation.MessageConservation` | notification-service/internal/consumer/notification_consumer.go:84-95 | In every reachable state each published copy is in exactly one of queue, prefetch buffer, a worker, orphaned, acked, dead-letter queue; at most numWorkers copies are unacknowledged |
| `PoolConservation.FinalIsFinal` | notification-service/internal/consumer/notification_consumer.go:176-231 | An acknowledged or dead-lettered copy is never queued, buffered or handled again, in any continuation |
| `PoolConservation.CleanShutdown` | notification-service/internal/consumer/notification_consumer.go:131-162 | The WaitGroup counter is the number of live workers in every state; when Consume has returned, done is closed and every worker has stopped outside handleDelivery |
| `PoolDedup.DuplicateBound` | notification-service/internal/consumer/notification_consumer.go:188-219 | In every run the successful sends of an event are at most min(numWorkers, copies) * (1 + expiries of its key) + sends left unmarked |
| `PoolDedup.AtMostOnce` | notification-service/internal/consumer/notification_consumer.go:171-233 | With one broker copy, however often requeued: at most 1 + expiries + sends left unmarked |
| `PoolDedup.AtMostOnceInCleanRun` | notification-service/internal/consumer/notification_consumer.go:171-233 | With one copy, no crash, no failed mark and less time than the TTL: at most one send |
| `PoolDedup.AckedImpliesSent` | notification-service/internal/consumer/notification_consumer.go:188-229 | Every acknowledged message, every Redis mark and every processed_events row belongs to an event that was sent |
| `PoolDedup.LiveKeyStopsSends` | notification-service/internal/consumer/notification_consumer.go:194-198 | While a mark is live it keeps its expiry, and the only sends of the event still possible are those of workers already past their check |
| `PoolDedup.FirstMarkFixesInterval` | notification-service/internal/repository/redis_idempotency_store.go:63-76 | The first mark fixes the expiry at its time + ttl; no racing mark extends it, and within it at most the other racers still send |
| `PoolDedup.WindowBound` | notification-service/internal/consumer/notification_consumer.go:188-219 | The workers between a negative check of an event and its mark are at most min(numWorkers, copies) |
| `PoolWitness.DuplicateBoundAttained` | notification-service/internal/consumer/notification_consumer.go:188-219 | For every pool size and number of expiries a run reaches the duplicate bound without losing a mark |
| `PoolWitness.OnlyOneWinsIff` | README.md:167 | The documented race claim holds if and only if numWorkers <= 1, or copies <= 1, or maxRetries < 1 |
| `PoolDrain.DrainBound` | notification-service/internal/consumer/notification_consumer.go:141-153 | In every run, work done plus work left is bounded by the initial work, the messages published and the faults |
| `PoolDrain.FaultFreeRunsDrain` | notification-service/internal/consumer/notification_consumer.go:141-233 | A fault-free run takes at most 7 + maxRetries steps per message, and when nothing more can be done every message is acked or dead-lettered |
| `PoolDrain.QuiescentMeansDrained` | notification-service/internal/consumer/notification_consumer.go:171-233 | With faults too: where no work is left, messages are queued only if numWorkers settlements failed |
| `PoolDrain.StuckIffStarved` | notification-service/internal/consumer/notification_consumer.go:83-86 | A serving pool with queued messages is stuck if and only if exactly numWorkers settlements have failed |
| `PoolDrain.StarvedForever` | notification-service/internal/consumer/notification_consumer.go:83-86 | From then until the process ends nothing is delivered, handled, sent or acknowledged, whatever happens |
| `PoolExactlyOnce.ExactlyOnce` | notification-service/internal/consumer/notification_consumer.go:171-233 | If the process lives and no settlement fails, an event with one copy is sent at most once, whatever else fails or expires; with no work left in a serving pool it is acked and sent exactly once, or dead-lettered and never sent |
| `Consumer.NotificationConsumer.HandleDelivery` | notification-service/internal/consumer/notification_consumer.go:171-233 | A body that cannot be parsed is dead-lettered, a failed check requeues, a duplicate is acked, the attempts decide the rest; exactly the steps of that outcome, ending with its only settlement; acked only if sent; the sleeps are the backoff schedule |
| `Consumer.NotificationConsumer.SendWithRetry` | notification-service/internal/consumer/notification_consumer.go:246-265 | Stops at the first attempt that the provider accepts and after at most maxRetries, sleeping between attempts and not after the last |
| `Consumer.NotificationConsumer.Work` | notification-service/internal/consumer/notification_consumer.go:137-154 | Every round handles one delivery to its settlement, ends the loop on done or on the closed and drained channel, or waits; it waits only in states with done open, no delivery buffered and the channel open |
| `Consumer.NotificationConsumer.Consume` | notification-service/internal/consumer/notification_consumer.go:115-163 | An error of the registration starts nothing; otherwise numWorkers workers are started before anything is waited for, then done, then the workers; on return all have stopped and the counter is zero; without a return done is open or workers are still running |
| `Consumer.NotificationConsumer.IsDuplicate` | notification-service/internal/consumer/notification_consumer.go:187-198 | Duplicate if and only if EXISTS succeeds and the event is marked at that moment; an error leads to a requeue |
| `Consumer.ScriptShape` | notification-service/internal/consumer/notification_consumer.go:171-233 | Every outcome has one settlement, last; at most maxRetries sends; nothing sent after a success; a success if and only if delivered |
| `Backoff.DelayExactIff` | notification-service/internal/consumer/notification_consumer.go:257-261 | With binary64 rounding the sleep is baseDelay * 2^(attempt-1) if and only if baseDelay has a 53-bit significand and the product fits an int64 |
| `Backoff.ScheduleTotal` | notification-service/internal/consumer/notification_consumer.go:246-265 | n backoffs sleep baseDelay * (2^n - 1) in total |
| `Consumer.SleepAfterAttemptIff` | notification-service/internal/consumer/notification_consumer.go:257-262 | In a call that exhausts its attempts, baseDelay * 2^(k-1) is slept after attempt k if and only if k < maxRetries and the number is exact; none follows the last attempt |
| `Consumer.DocumentedWaitIff` | README.md:150-152 | With a base of 2 s, 8 s are slept after attempt 3 if and only if maxRetries >= 4 |
| `Consumer.TotalSleep` | notification-service/internal/consumer/notification_consumer.go:246-265 | Success at attempt k sleeps baseDelay * (2^(k-1) - 1) in all, failure baseDelay * (2^(maxRetries-1) - 1) |
| `Backoff.RoundIsNearest` | notification-service/internal/consumer/notification_consumer.go:259 | The rounding used is to the nearest representable number (section 4.3.1 of IEEE 754-2008) |
| `CacheCoherence.CurrentOrPredecessor` | order-service/internal/handler/order_handler.go:57-84 | Every cached entry, pending populate and returned order is the current row or that row while pending |
| `CacheCoherence.UpdateSettles` | order-service/internal/handler/order_handler.go:77-78 | After its status update nobody will change the row again |
| `CacheCoherence.CoherenceIsAbsorbing` | order-service/internal/handler/order_handler.go:97-142 | Once the row is settled, no goroutine holds an old version and the cache agrees, this stays so for ever and every later GetOrder returns the current row |
| `CacheCoherence.NeverServesStaleIff` | README.md:112 | For a settled row, no later GetOrder ever returns stale data if and only if the state is coherent |
| `CacheCoherence.InvalidationIsNotEnough` | order-service/internal/handler/order_handler.go:122-135 | A failure-free run in which an order is completed and invalidated and can still be served as pending |
| `CacheCoherence.StaleFillsBounded` | order-service/internal/handler/order_handler.go:122-135 | Stale fills after the update plus old versions still held never exceed the old versions held at that moment |
| `CacheCoherence.BoundedStaleness` | order-service/internal/handler/order_handler.go:122-135 | A stale entry is the one already there, cached by an earlier stale fill, or comes from a later stale fill; in both cases that fill was less than ttl ago |
| `CacheCoherence.StalenessAfterInvalidation` | order-service/internal/handler/order_handler.go:148-155 | After a successful deletion only stale fills later than it count, at most as many as goroutines held the old row |
| `OrderService.OrderHandler.CreateOrder` | order-service/internal/handler/order_handler.go:54-90 | Insert, pay, update, invalidate, always in this order; a reply of the payment service is answered with the new identifier and its status, a failed insert or call with an error; the row has the requested data and, if the update took effect, the answered status or "payment_failed"; its cache entry is gone if the deletion took effect |
| `OrderService.OrderHandler.GetOrder` | order-service/internal/handler/order_handler.go:96-143 | A hit answers with the entry, a miss with the row read by this call, and an error only where the query failed or there is no row; what is returned is the current row or its pending predecessor, and the row itself if the state was coherent |
| `OrderService.OrderHandler.InvalidateCache` | order-service/internal/handler/order_handler.go:148-155 | If the deletion takes effect, the entry of a settled row is gone; its error changes nothing else |
| `RateTheorems.SlidingIntervalBound` | order-service/internal/middleware/rate_limiter.go:73-95 | In any interval of length L at most SharpBound INCRs of a client are admitted, fewer than maxRequests * (ceil(L / window) + 1) |
| `RateTheorems.WindowExactness` | order-service/internal/middleware/rate_limiter.go:73-95 | In every run a window with n INCRs has room for exactly its first min(n, maxRequests), and each request is admitted or rejected by its own place among them |
| `RateAdmissions.FirstAreAdmitted` | order-service/internal/middleware/rate_limiter.go:73-95 | Without restarts and INCR errors, once all its requests are decided, a window with n INCRs has admitted exactly its first min(n, maxRequests) in INCR order and rejected the others, whatever the interleaving |
| `RateAdmissions.AtMostMaxPerWindow` | order-service/internal/middleware/rate_limiter.go:86-95 | In every run, restarts of the service included, at most min(n, maxRequests) admissions happen on one window's counter |
| `RateTheorems.CountIsRank` | order-service/internal/middleware/rate_limiter.go:71-73 | The count returned is one more than the INCRs that the window had received |
| `RateTheorems.LostExpireLocksOut` | order-service/internal/middleware/rate_limiter.go:81-84 | After a lost EXPIRE every later INCR of the client stays in that window, with an ever higher count |
| `RateBounds.NoExpiryIff` | order-service/internal/middleware/rate_limiter.go:81-86 | A live counter has no expiry if and only if the EXPIRE of its window is outstanding or lost; an outstanding one belongs to the current window |
| `RateWitness.IntervalBoundAttained` | order-service/internal/middleware/rate_limiter.go:73-95 | The interval bound is reached for every limit, every window and every length of the interval |
| `RateWitness.OtherClientsDoNotMatter` | order-service/internal/middleware/rate_limiter.go:68-73 | Leaving out all steps of other clients leaves a run with the same counter, outcomes and history for this one |
| `Limiter.RateLimiter.ServeHTTP` | order-service/internal/middleware/rate_limiter.go:58-96 | The client is the X-Forwarded-For header if there is one, else the host, else the raw address; a failed INCR lets the request pass, else it passes if and only if its place in its window is within the limit, with 429 and the window as Retry-After otherwise |
| `Limiter.RateLimiter.CountRequest` | order-service/internal/middleware/rate_limiter.go:68-84 | INCR, and EXPIRE exactly on count 1; an error only if INCR failed |
| `SharedRedis.SharedRefinesSeparate` | docker-compose.yml:65 | Over every sequence of commands one string-keyed database answers like three separate stores |
| `SharedRedis.KeysApart` | order-service/internal/cache/order_cache.go:52-54 | The three families of keys are injective and pairwise disjoint |
| `SharedRedis.DecimalReadsBack` | order-service/internal/cache/order_cache.go:52-54 | The decimal print of an identifier, sign included, reads back as that identifier |
| `SharedRedis.KeyFormats` | order-service/internal/cache/order_cache.go:52-54 | The keys are "order:" and the decimal identifier, "rate:" and the client, "notif:processed:" and the event |
| `SharedRedis.DecimalInjective` | order-service/internal/cache/order_cache.go:52-54 | Signed decimal printing is injective |
| `SharedSteps.CacheStepOnShared` | order-service/internal/handler/order_handler.go:97-135 | Each step of the cache-aside protocol does to the shared database what it does to its own cache, and reads there what it would read |
| `SharedSteps.PoolStepOnShared` | notification-service/internal/consumer/notification_consumer.go:214-219 | The same for the marks of the worker pool |
| `SharedSteps.CheckOnShared` | notification-service/internal/repository/redis_idempotency_store.go:55-61 | EXISTS on the shared database decides the duplicate check as the marks alone would |
| `SharedSteps.RateStepOnShared` | order-service/internal/middleware/rate_limiter.go:73-84 | The same for the limiter's counters and the counts it sees |
| `RedisStores.RedisIdempotencyStore.IsDuplicate` | notification-service/internal/repository/redis_idempotency_store.go:55-61 | On the shared database: an error if and only if the command failed, and otherwise true if and only if this store marked the event |
| `RedisStores.RedisIdempotencyStore.MarkProcessed` | notification-service/internal/repository/redis_idempotency_store.go:66-76 | Adds the mark with its expiry if there is none; a mark already there keeps its expiry and is no error; orders and counters are untouched |
| `RedisStores.OrderCache.Get` | order-service/internal/cache/order_cache.go:58-74 | An error if the command failed, else the entry, or a miss exactly where there is none; what is found always decodes to an order |
| `RedisStores.OrderCache.Set` | order-service/internal/cache/order_cache.go:77-89 | Stores the order under its own id with a fresh expiry and touches nothing else |
| `RedisStores.OrderCache.Delete` | order-service/internal/cache/order_cache.go:93-100 | Removes that entry and touches nothing else |
| `Tables.OrderRepository.CreateOrder` | order-service/internal/repository/order_repo.go:32-42 | Adds one pending row under an identifier no insert had before, reported only on success |
| `Tables.OrderRepository.UpdateOrderStatus` | order-service/internal/repository/order_repo.go:44-50 | Records one status write for that row and keeps table and history in agreement; a missing row is no error |
| `Tables.OrderRepository.GetOrder` | order-service/internal/repository/order_repo.go:52-62 | Returns what was inserted under the identifier with the status written last; an error exactly if nothing was or the query failed |
| `Tables.LastStatusStands` | order-service/internal/repository/order_repo.go:32-50 | After any history, a row has the data of its insert, and the last status written to it, or pending if none was |
| `Tables.ProtocolUsesRepository` | order-service/internal/handler/order_handler.go:57-78 | Over every run the orders table of the cache-aside protocol is what the repository holds after the same statements |
| `Tables.IdempotencyStore.MarkProcessed` | notification-service/internal/repository/idempotency_store.go:57-63 | Adds one effective mark to the history, which the table stays in agreement with; a repeated mark leaves the table as it was and is no error |
| `Tables.IdempotencyStore.IsDuplicate` | notification-service/internal/repository/idempotency_store.go:41-54 | Without a failure, true if and only if some earlier mark of the identifier took effect; finding none is no error |
| `Tables.PoolUsesStore` | notification-service/internal/consumer/notification_consumer.go:221-226 | Over every run the processed_events table of the worker pool is what the store holds after the same marks |
| `Payments.OnePaymentPerCall` | payment-service/internal/repository/payment_repo.go:34-58 | Over all runs a call commits at most one payment |
| `Payments.OneEventPerPayment` | payment-service/internal/handler/payment_handler.go:37-51 | A payment is reported by at most one event, with its data, and by one if and only if its call answered and the broker took the event |
| `Payments.EventsFollowCommits` | payment-service/internal/handler/payment_handler.go:30-47 | Every event reports a committed payment |
| `PaymentService.PaymentHandler.CreatePayment` | payment-service/internal/repository/payment_repo.go:34-58 | Begin, insert, commit, with one rollback on every failure after begin; a row exists if and only if it succeeded or the reply of an effective commit was lost |
| `PaymentService.PaymentHandler.ProcessPayment` | payment-service/internal/handler/payment_handler.go:26-56 | Commit, then publish, then "completed" whatever became of the event; an error exactly if a statement of the transaction failed; the row, and the event if the broker took it, carry the data of the request; a payment exists if and only if "completed" was answered or the reply of an effective commit was lost |
| `Topology.NoDeclarationRefused` | payment-service/internal/messaging/publisher.go:61-91 | In whatever order the services start, stop and fail half-way, the broker refuses no declaration |
| `Topology.ConstructedRoutes` | payment-service/internal/messaging/publisher.go:61-91 | A constructed publisher reaches the main queue alone, a rejection the dead-letter queue alone, and from there nothing |
| `Topology.NoEventDropped` | payment-service/internal/messaging/publisher.go:79-91 | In every reachable state the events taken by the broker are exactly those queued, dead-lettered or acked, as multisets |
| `Messaging.Publisher.NewPublisher` | payment-service/internal/messaging/publisher.go:39-95 | The six declarations in order; the first error ends it with nothing declared after it; without error the topology is complete |
| `Messaging.Publisher.NewConsumer` | notification-service/internal/consumer/notification_consumer.go:88-95 | One declaration; without error the queue exists with its dead-letter arguments |
| `Messaging.Publisher.PublishEvent` | payment-service/internal/messaging/publisher.go:99-122 | An event that the broker takes adds one copy to the main queue and nothing elsewhere; neither an error nor its absence tells whether the broker took it |
| `EndToEnd.CompletedIsPaid` | order-service/internal/handler/order_handler.go:65-78 | An order that the table, its creator or any reader was shown as completed has a committed payment of its own amount |
| `EndToEnd.PaidAtMostOnce` | payment-service/internal/repository/payment_repo.go:34-58 | No order has two payments, and every payment belongs to an existing order with the same amount |
| `EndToEnd.SentTracesToPayment` | payment-service/internal/handler/payment_handler.go:31-56 | Every notification sent is about a committed payment of an existing order, with its amount and its customer |
| `EndToEnd.NotifiedAtMostOnce` | notification-service/internal/consumer/notification_consumer.go:171-233 | All notifications about an order are about one event, at most 1 + expiries + unmarked sends of them |
| `Delivery.EveryEventSettledOnce` | notification-service/internal/consumer/notification_consumer.go:171-233 | If the notification process lives and its settlements succeed, no event is notified twice; with no work left, every event the broker took is acked and notified exactly once, or dead-lettered and never notified, whatever else crashed or failed |
| `EndToEnd.AnnouncedIff` | payment-service/internal/handler/payment_handler.go:37-56 | An order answered as completed has an event if and only if the broker took its publication |
| `EndToEnd.NeverPaidIff` | order-service/internal/handler/order_handler.go:70-75 | An order is charged in no continuation if and only if it has no payment and its payment call was never sent, is aborting, was refused or died |
| `OneDatabase.OneDatabaseHoldsAll` | docker-compose.yml:101 | Over every run of all services and the limiter, the one database, fed with all their commands, holds exactly the cache, the counters and the marks |
| `OneDatabase.BothPartsRun` | docker-compose.yml:65 | Sharing database and clock changes no behaviour: each part of a run is a run of the services, or of the limiter, alone |
| `EndToEnd.ProtocolsKeepRunning` | order-service/internal/handler/order_handler.go:65-69 | In the whole each protocol only ever reaches states it reaches by itself, so its theorems hold there |
| `EndToEnd.JointsNeverBlock` | order-service/internal/handler/order_handler.go:57-69 | Composition blocks no step of the order service; in particular every inserted order gets a payment call of its own. An answer that was given and a publication with a fresh message are possible too, which is all the joints ask |
| `ServicesWitness.CompletedWithoutEvent` | payment-service/internal/messaging/publisher.go:105-121 | In every configuration a run without a single error answers "completed" and has no event |
| `ServicesWitness.FailedButPaid` | order-service/internal/handler/order_handler.go:70-75 | In every configuration a run records an order as failed that is paid and announced |

## Left out

- Connection set-up, dial and ping retry loops, environment parsing, logging, Docker and compose wiring: no state worth proving.
- gRPC stubs, the JSON codec and proto types: messages are datatypes, decoding is a partial function.
- SMTP, the simulated sender, TLS, random failures: the provider is an oracle, with a history of its successes.
- HTTP routes, CORS, error bodies, e-mail texts: single-branch facts.
- The internals of Redis, PostgreSQL and RabbitMQ: only the atomic commands used, row statements, and queues with prefetch, ack, nack and redelivery.
- NUMERIC(10,2) rounding and column lengths: a statement that a column refuses is one that failed.
- 32-bit overflow of the order and payment sequences: identifiers are unbounded.
- Several notification processes, key eviction, negative time to live: excluded.
- Work: the loop runs for at most `rounds` rounds, because methods must terminate; the transition system has no such bound. Which ready case select takes is an argument.
- Consume: the two waits are given up after `rounds` rounds, for the same reason.
- PublishEvent: contains no interference, as it is one command; interference comes between calls.
- Interfere: the methods of a class are not interrupted by the crash of their own process; the transition systems include it.
- Retries inside the Redis client library: a command is sent once; a retry after a lost reply would be a second command.
- Wrap: only stores the handler; what is forwarded to it is part of ServeHTTP.
- HTTP requests cancelled by their client: a cancelled context only makes a command fail, which the model allows at any time.
- Closing of connections: the notification channel closes in one step; what is unacknowledged then stays with the workers until the process ends.
