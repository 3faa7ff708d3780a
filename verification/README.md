# Concurrency labs, verified

The Go labs repair one concurrency or distributed-systems failure each: deadlocking transfers,
duplicate checkouts, lost events, runaway retries, stale or leaking caches. This project models the
repaired versions in Dafny and proves what they promise over every run.

Two forms are used side by side.

- **Step machines.** Any number of clients, workers, dispatchers or connections take steps in any
  order, and each step may meet an injected failure. `Step` is total: an action that cannot happen
  in a state leaves it unchanged, so a theorem about every sequence of actions is a theorem about
  every run.
- **Code.** Methods with the source's fields, loops and early exits, proved against the same
  functions the machines step with.

| file | what it models |
|---|---|
| `Transfers.dfy`, `TransferMachine.dfy` | ordered-lock transfers: one alone, and any number interleaved |
| `Checkout.dfy`, `CheckoutMachine.dfy`, `CheckoutSolo.dfy` | cart, staging transaction and idempotency claim: one checkout's parts, any number interleaved, and one alone from request to answer |
| `MockDb.dfy`, `MockDbLaws.dfy`, `MockDbConnections.dfy`, `MockDbHeap.dfy`, `MockDbServer.dfy` | the in-memory SQL engine: statements and what they come to, serializability of connections, the row objects underneath, and any number of connections on them |
| `OutboxPipeline.dfy`, `OutboxMarks.dfy`, `OutboxIds.dfy`, `OutboxDelivery.dfy`, `OutboxLaws.dfy`, `Commissions.dfy`, `InvoiceServices.dfy` | pay, dispatch, crash, deliver and redeliver on that engine |
| `OutboxWorkers.dfy` | SKIP LOCKED workers with backoff, and the deduplicating consumer |
| `CircuitBreaker.dfy` | the three-state breaker with calls that finish late |
| `TokenBucket.dfy`, `RedisScripts.dfy`, `RetryBudget.dfy` | limiters over arbitrary time windows |
| `LeaseLock.dfy`, `TtlMap.dfy` | the lease lock and the TTL maps |
| `ProductCache.dfy`, `DashboardCache.dfy`, `Printing.dfy` | caches over a database, and the printed keys that separate tenants |
| `OptimisticDeposit.dfy` | versioned deposits with bounded retry |
| `Wrappers.dfy` | `Option` |

`dafny verify dfyconfig.toml` checks everything.

## Where the code differs from what it says

- `mockdb.exec` holds a block that would merge committed rows into a transaction
  (labs/03-database-transaction/mockdb/mockdb.go:152-168). It looks tables up by upper-cased name
  while all tables are lower-case, so it never runs; the model leaves it out, and with it no row is
  ever shared.
- The sliding-window script uses the timestamp as the set member, so requests at one instant count
  once, and the limit can be exceeded: `RedisScripts.RepeatedTimestampsOvershoot`. Call by call,
  `RedisScripts.AdmitsByCountIff` states exactly when the promised count decides;
  `RedisScripts.AlwaysRightIff` states for which call times it always does.
- A deposit whose row count cannot be read is reported as an error although it was applied
  (labs/93-optimistic-locking/safe.go:39-42): `Deposits.LostCountHidesDeposit`. Success means
  applied exactly in the runs without that: `Deposits.SucceedsIffApplied`.
- The scoped idempotency key joins user and key with a colon, so users can collide:
  `Checkouts.UsersCollideIff` says which.
- A half-open breaker may be closed by a call admitted long before, with no probe of its own, which
  leaves `activeProbes` at -1: `Breakers.EndsUnprobedIff`, `Breakers.EpisodeEnds`.
- An outbox worker reads its clock once, before it publishes anything, and counts every backoff from
  there (labs/98-outbox-pattern/safe/concurrent_worker.go:108-121). A slow failure is therefore
  retried early, up to at once: `OutboxWorkers.ShortRetry`, `OutboxWorkers.FullBackoffIff`.
- Paying an invoice again stores a second event; nothing here claims one event per invoice. Doing so
  in the same nanosecond gives both events one id, and marking the first published hides the second:
  `OutboxIds.RepeatedPaymentLosesEvent`. `OutboxMarks.MarkSentIff` states exactly when a mark does
  no harm, `OutboxMarks.SentThroughoutIff` which runs are free of it, and `OutboxMarks.SurvivesIff`
  from which states it can no longer happen.
- A checkout looks the key up before it claims it and returns a completed response without comparing
  the request hash (labs/09-code-review/checkout_improved.go:65-69), so a different request under a
  used key succeeds with the old response: `CheckoutMachine.OtherHashSucceedsIff`.
- A new token bucket stamps its last refill with the configured clock and afterwards reads the system
  clock (labs/95-rate-limiting/token_bucket.go:58-60). The model has one clock, which is what the
  bucket sees unless a test injects another.

## Model

| member | source | states |
|---|---|---|
| `Transfers.LockOrder` | labs/08-database-isolation-level/isolation.go:40-45 | returns the two ids in ascending order |
| `Transfers.TotalUpdate` | labs/99-deadlock/safe.go:71-76 | changing one balance changes the total by the difference |
| `Transfers.SerialKeeps` | labs/99-deadlock/safe.go:34-79 | one transfer keeps the total and the accounts and overdraws none; failing it changes nothing, succeeding it moves exactly the amount from payer to payee and touches no other account |
| `Transfers.SerialOutcome` | labs/08-database-isolation-level/transfer.go:141-195 | each outcome exactly under its own condition on the job and the balances, Ok if and only if the accounts differ and exist and the payer has the amount, a positive one or one the payee's balance can bear; the audit table grows by exactly this transfer, in the lab that has one, and only on Ok |
| `Transfers.AttemptFails` | labs/08-database-isolation-level/transfer.go:141-195 | an attempt ends with the error of the first statement it gets to that the database fails |
| `Transfers.AccountStore.Transfer` | labs/08-database-isolation-level/transfer.go:141-195 | an attempt ends with the error of the first statement it gets to that fails, and otherwise as the serial transfer; the ledger is the serial one, or untouched after a failure |
| `Transfers.AccountStore.TransferWithRetry` | labs/99-deadlock/safe.go:82-109 | the result is that of the first attempt whose error is not transient, unless the context is cancelled or three tries have run out; the transfer is applied at most once, and on any error the ledger is untouched |
| `TransferMachine.StepKeepsLocks` | labs/99-deadlock/safe.go:50-56 | the lock table always says exactly which rows each transfer holds |
| `TransferMachine.StepChangesHeldRows` | labs/99-deadlock/safe.go:71-78 | a step changes only balances of rows its transfer has locked |
| `TransferMachine.OwnStepSound` | labs/99-deadlock/safe.go:34-79 | each transfer's reads, the balances it computes from them or has the database compute, and its staged writes agree with the locked rows at every program point |
| `TransferMachine.CommitIsSerial` | labs/99-deadlock/safe.go:58-78 | committing the staged writes has the effect of the whole transfer run alone at that moment |
| `TransferMachine.WritesInOrder` | labs/99-deadlock/safe.go:71-78 | one service writes in lock order; the other payer first, then payee, then the audit row; and both then commit |
| `TransferMachine.EveryRunIsSerial` | labs/99-deadlock/safe.go:34-79 | every interleaving of any transfers with any database errors gives the ledger and the outcomes of running them one at a time in completion order |
| `TransferMachine.FailuresAreFaults` | labs/99-deadlock/safe.go:82-109 | a transfer fails only if a database fault of that kind hit it in the run; without faults every transfer ends as it would alone |
| `TransferMachine.TriesAreUsedUp` | labs/99-deadlock/safe.go:82-109 | every try used up is accounted for by a transient fault, and a transfer gives up on one only when its tries are used up |
| `TransferMachine.MoneyIsConserved` | labs/99-deadlock/safe.go:44-79 | in every reachable state the total is the initial one and no account that started in credit is overdrawn |
| `TransferMachine.AccountStatement` | labs/99-deadlock/safe.go:44-79 | in every reachable state each balance is the initial one plus what successful transfers paid in less what they took out |
| `TransferMachine.WaitsUpwards` | labs/08-database-isolation-level/isolation.go:40-45 | along waits-for edges the wanted row id strictly increases |
| `TransferMachine.NoDeadlock` | labs/08-database-isolation-level/transfer.go:141-195 | no reachable state has a cycle of waiting transfers, of any length |
| `TransferMachine.SomeoneCanStep` | labs/99-deadlock/safe.go:34-79 | while a transfer is unfinished some unfinished transfer can take its next step |
| `TransferMachine.StuckMeansFinished` | labs/99-deadlock/safe.go:34-79 | a run stops moving only when every transfer has finished |
| `TransferMachine.StepUsesWork` | labs/99-deadlock/safe.go:34-79 | every effective step decreases the work left |
| `TransferMachine.EveryRunEnds` | labs/99-deadlock/safe.go:34-79 | the number of effective steps of any run is bounded by the work at the start |
| `Checkouts.DistinctProducts` | labs/09-code-review/checkout_improved.go:81-91 | lists each product of the cart once, a product the cart names first before all it names later, or fails exactly when some quantity is not positive |
| `Checkouts.PriceCart` | labs/09-code-review/checkout_improved.go:118-138 | as many items as lines, each with its line's product and quantity, that product's listed price and their product as subtotal; the total is quantity times listed price summed over the cart; fails exactly when a product is missing from the batch |
| `Checkouts.StagingExact` | labs/09-code-review/mock.go:255-274 | staging succeeds exactly for carts the stock can serve, repeated products summed, and then holds what the cart wants of each product |
| `Checkouts.StagingStops` | labs/09-code-review/checkout_improved.go:153-163 | the first line that cannot be reserved decides the outcome |
| `Checkouts.StagingError` | labs/09-code-review/mock.go:255-274 | otherwise the first line that no longer fits is reported: bad quantity, unknown product or too little stock, in that order |
| `Checkouts.TransactExact` | labs/09-code-review/mock.go:239-309 | the transaction succeeds exactly when the stock serves the cart and nothing fails, deducts exactly what the cart wants, leaves no product below zero, and otherwise reports the staging error or the failed creation |
| `Checkouts.TransactionManager.ReserveAll` | labs/09-code-review/mock.go:255-274 | the reservation loop computes the staging function |
| `Checkouts.TransactionManager.Recheck` | labs/09-code-review/mock.go:288-293 | true exactly when the stock covers every staged quantity |
| `Checkouts.TransactionManager.Adjust` | labs/09-code-review/mock.go:295-303 | the deduction and undo loops add or subtract the staged quantities, whatever the order |
| `Checkouts.TransactionManager.Commit` | labs/09-code-review/mock.go:284-309 | deducts and creates the order, or leaves stock and orders exactly as they were, also when creation fails after the deduction |
| `Checkouts.TransactionManager.WithinTransaction` | labs/09-code-review/mock.go:239-253 | the code is the all-or-nothing transaction |
| `Checkouts.ScopedKeyInjective` | labs/09-code-review/checkout_improved.go:61 | users without a colon in their id never share a scoped key |
| `Checkouts.UsersCollideIff` | labs/09-code-review/checkout_improved.go:61 | two different users can share a scoped key, with keys the service accepts, exactly when one id is the other followed by a colon |
| `Checkouts.ScopedKeysEqual` | labs/09-code-review/checkout_improved.go:61 | exactly when two requests share a scoped key: they are the same request key, or the longer user id and the other's key supply each other's rest |
| `Checkouts.UsersCollide` | labs/09-code-review/checkout_improved.go:61 | user `a` with key `b:c` and user `a:b` with key `c` share one |
| `CheckoutMachine.IdempotencyRepository.Claim` | labs/09-code-review/mock.go:374-399 | a new key is taken, a known one is answered by its state and hash, an injected failure is consumed and changes nothing |
| `CheckoutMachine.IdempotencyRepository.MarkCompleted` | labs/09-code-review/mock.go:401-413 | stores the response on an existing record, or an injected failure changes nothing |
| `CheckoutMachine.IdempotencyRepository.Release` | labs/09-code-review/mock.go:415-424 | removes the record, or an injected failure changes nothing |
| `CheckoutMachine.TransactionKeepsInv` | labs/09-code-review/checkout_improved.go:153-175 | running the transaction keeps the protocol's invariant |
| `CheckoutMachine.CompleteKeepsInv` | labs/09-code-review/checkout_improved.go:177-181 | completing, or failing to, keeps the protocol's invariant |
| `CheckoutMachine.EveryRun` | labs/09-code-review/checkout_improved.go:51-192 | claims, records, orders and clients stay consistent in every run |
| `CheckoutMachine.OneOrderPerKey` | labs/09-code-review/checkout_improved.go:51-192 | however checkouts interleave and whichever calls fail, a scoped key has at most one committed order |
| `CheckoutMachine.OneAnswerPerKey` | labs/09-code-review/checkout_improved.go:51-192 | all successful responses for a key are equal, name that order and carry the exact total of its items |
| `CheckoutMachine.EveryRunBilled` | labs/09-code-review/checkout_improved.go:118-151 | in every reachable state every order, committed or only built, bills line by line a cart delivered to a client with its key at the prices that client loaded |
| `CheckoutMachine.ResponseIsBilled` | labs/09-code-review/checkout_improved.go:118-192 | in every run the total of a successful response is what that cart costs at those prices, and the order it names holds that cart |
| `CheckoutMachine.AnswerNamesOwnOrder` | labs/09-code-review/checkout_improved.go:61-69 | a successful response names an order of the requesting user, unless the two user ids are ones that can collide |
| `CheckoutMachine.OtherHashSucceedsIff` | labs/09-code-review/checkout_improved.go:65-103 | a request whose key was taken with another hash succeeds at its next step exactly when it is at its first look-up and finds the other completed |
| `CheckoutMachine.StockIsConserved` | labs/09-code-review/mock.go:239-309 | in every run stock plus the quantities in committed orders is the initial stock, product by product, and never negative |
| `CheckoutSolo.EarlyPhase` | labs/09-code-review/checkout_improved.go:51-103 | what is answered before and at the claim, for every request, store and failure: owner, key, completed record, cart, quantities, then the claim by hash and state; a record of the same hash completed by then gives its response |
| `CheckoutSolo.LatePhase` | labs/09-code-review/checkout_improved.go:105-192 | what is answered from the claim on, and what it leaves |
| `CheckoutSolo.SoloCheckout` | labs/09-code-review/checkout_improved.go:51-192 | exactly what a checkout that nobody interrupts answers and leaves, for every request, store and injected failure: on success the order, the deduction and the completed record; on an error the books as they were and, unless the release failed, the key free to claim |
| `MockDb.Updated` | labs/03-database-transaction/mockdb/mockdb.go:474-487 | an update rewrites exactly the matching rows, in place |
| `MockDbLaws.EqualValMeans` | labs/03-database-transaction/mockdb/mockdb.go:656-661 | nil equals only nil, a text itself, a number itself and its decimal text |
| `MockDbLaws.AssignKeeps` | labs/03-database-transaction/mockdb/mockdb.go:474-487 | a column that is not assigned to keeps its value or absence |
| `MockDbLaws.AssignDecides` | labs/03-database-transaction/mockdb/mockdb.go:474-487 | the last assignment to a column decides it |
| `MockDbLaws.InsertMeans` | labs/03-database-transaction/mockdb/mockdb.go:317-322 | an insert adds its row at the end of its table and touches no other; an unknown table is an error that changes nothing |
| `MockDbLaws.InsertOnConflictMeans` | labs/03-database-transaction/mockdb/mockdb.go:399-420 | with a conflict clause the row is left out exactly when some row agrees with it in every key column |
| `MockDbLaws.CountMeans` | labs/03-database-transaction/mockdb/mockdb.go:511-520 | a count is the number of indices whose row meets every condition |
| `MockDbLaws.SelectMeans` | labs/03-database-transaction/mockdb/mockdb.go:563-580 | a select returns the wanted columns of the first rows in table order that meet every condition, all of them or as many as the limit allows |
| `MockDbLaws.UpdateMeans` | labs/03-database-transaction/mockdb/mockdb.go:474-487 | an update assigns to exactly the rows that meet its condition, in place, and counts them |
| `MockDb.RunAllKeepsTables` | labs/03-database-transaction/mockdb/mockdb.go:251-269 | no script adds or drops a table |
| `MockDbConnections.StepKeepsSerial` | labs/03-database-transaction/mockdb/mockdb.go:96-134 | every step of every connection keeps the run serial and at most one transaction open |
| `MockDbConnections.EveryRunIsSerial` | labs/03-database-transaction/mockdb/mockdb.go:96-177 | any run of any connections equals a serial one: the committed tables and every reply, even in transactions later rolled back |
| `MockDbConnections.HeldWhileOpen` | labs/03-database-transaction/mockdb/mockdb.go:96-134 | in every reachable state the mutex is held exactly while some transaction is open |
| `MockDbConnections.WaitsIff` | labs/03-database-transaction/mockdb/mockdb.go:96-177 | in every reachable state a statement gets its reply, and a begin takes effect, exactly when no other connection is in a transaction |
| `MockDbConnections.EveryAnswerIsSerial` | labs/03-database-transaction/mockdb/mockdb.go:148-205 | the reply a call gets is the one it gets when the units finished by then run one at a time, followed by its own transaction so far |
| `MockDbConnections.AnswerIsLogged` | labs/03-database-transaction/mockdb/mockdb.go:148-205 | every reply goes into the log, with its transaction or as a unit of its own |
| `MockDbHeap.CloneRows` | labs/03-database-transaction/mockdb/mockdb.go:52-59 | new row objects with the same contents |
| `MockDbHeap.CloneTables` | labs/03-database-transaction/mockdb/mockdb.go:49-63 | equal contents, and not one row object shared with the original |
| `MockDbHeap.FindConflict` | labs/03-database-transaction/mockdb/mockdb.go:404-417 | true exactly when some row equals the new one in every conflict column |
| `MockDbHeap.Append` | labs/03-database-transaction/mockdb/mockdb.go:317-322 | adds one new row object to one table |
| `MockDbHeap.UpdateRows` | labs/03-database-transaction/mockdb/mockdb.go:478-487 | assigns to the matching row objects in place and counts them |
| `MockDbHeap.UpdateTable` | labs/03-database-transaction/mockdb/mockdb.go:474-487 | no other table sees the assignments |
| `MockDbHeap.SelectRows` | labs/03-database-transaction/mockdb/mockdb.go:563-579 | stopping at the limit returns the first matching rows, projected |
| `MockDbHeap.CountRows` | labs/03-database-transaction/mockdb/mockdb.go:511-520 | counts the matching rows |
| `MockDbHeap.Apply` | labs/03-database-transaction/mockdb/mockdb.go:251-269 | a statement on row objects has exactly the effect and reply of the statement on values |
| `MockDbHeap.Engine.Exec` | labs/03-database-transaction/mockdb/mockdb.go:174-176 | an autocommitted statement changes the committed contents as the statement says |
| `MockDbHeap.Engine.Publish` | labs/03-database-transaction/mockdb/mockdb.go:116-126 | commit's loop installs the transaction's tables, all of them |
| `MockDbHeap.Connection.Begin` | labs/03-database-transaction/mockdb/mockdb.go:96-105 | takes the mutex and a clone whose rows are all new |
| `MockDbHeap.Connection.ExecInTx` | labs/03-database-transaction/mockdb/mockdb.go:171-173 | writes to the clone only: committed contents and rows are those at begin |
| `MockDbHeap.Connection.Exec` | labs/03-database-transaction/mockdb/mockdb.go:148-177 | one step of the abstract machine, inside or outside a transaction; a call that waits or writes to the clone leaves the committed tables and their row objects alone |
| `MockDbHeap.Connection.Commit` | labs/03-database-transaction/mockdb/mockdb.go:116-126 | publishes exactly the transaction's statements run on what it began with |
| `MockDbHeap.Connection.Rollback` | labs/03-database-transaction/mockdb/mockdb.go:128-134 | leaves the committed contents exactly as at begin |
| `MockDbServer.Server.constructor` | labs/03-database-transaction/mockdb/mockdb.go:71-82 | any number of connections on one engine, none in a transaction |
| `MockDbServer.Server.Open` | labs/03-database-transaction/mockdb/mockdb.go:96-105 | among any other connections, begin opens the only transaction, on row objects of its own |
| `MockDbServer.Server.Speak` | labs/03-database-transaction/mockdb/mockdb.go:171-173 | among any others, a statement in the transaction changes neither the committed contents nor their row objects |
| `MockDbServer.Server.SpeakAlone` | labs/03-database-transaction/mockdb/mockdb.go:174-176 | among any others, a statement outside a transaction runs on the committed rows |
| `MockDbServer.Server.Close` | labs/03-database-transaction/mockdb/mockdb.go:116-134 | commit publishes the transaction's work, rollback leaves the committed contents, for every connection to see |
| `MockDbServer.Server.Wait` | labs/03-database-transaction/mockdb/mockdb.go:174-176 | a statement that blocks leaves the open transaction of another connection and its row objects as they were |
| `MockDbServer.Server.Refuse` | labs/03-database-transaction/mockdb/mockdb.go:96-99 | so does a refused call |
| `MockDbServer.Server.Do` | labs/03-database-transaction/mockdb/mockdb.go:96-177 | every call on every connection is one step of the machine at that connection's index, returns what the machine answers, and keeps at most one transaction open and its rows apart from the committed ones |
| `MockDbServer.Server.DoAll` | labs/03-database-transaction/mockdb/mockdb.go:96-177 | any calls on any connections: the row objects end up holding what the finished transactions leave when run one at a time, and every reply returned is that of the serial run |
| `InvoiceServices.PayInvoiceWithOutbox` | labs/03-database-transaction/external.go:441-479 | the service's statements on the engine, after waiting for the mutex while other connections go on, come out as the all-or-nothing payment on what they left |
| `InvoiceServices.HandleEvent` | labs/03-database-transaction/external.go:617-662 | the worker's statements on the engine, after waiting likewise, come out as the all-or-nothing handling |
| `InvoiceServices.Await` | labs/03-database-transaction/mockdb/mockdb.go:100-102 | a blocked call goes on as soon as the others free the mutex, and not before |
| `OutboxPipeline.PayIsAtomic` | labs/03-database-transaction/external.go:441-479 | both the invoice and its event, or no change, the latter exactly when no invoice matches |
| `OutboxPipeline.HandleIsAtomic` | labs/03-database-transaction/external.go:617-662 | both the marker and the commission, or no change, the latter exactly when the marker exists |
| `OutboxLaws.StoredEvent` | labs/03-database-transaction/external.go:459-470 | the columns of a stored event: pending, never attempted, under an id made of invoice and instant |
| `OutboxLaws.PayMeans` | labs/03-database-transaction/external.go:441-479 | paying sets the status of exactly the invoices of that number and no other column, and appends one event; without such an invoice nothing changes |
| `OutboxLaws.HandleMeans` | labs/03-database-transaction/external.go:617-662 | handling appends one marker and one commission, unless a marker of this consumer for this event exists |
| `OutboxPipeline.MarkedRow` | labs/03-database-transaction/external.go:577-583 | marking an event published changes nothing that makes up the event |
| `OutboxPipeline.PayingPays` | labs/03-database-transaction/external.go:447-457 | an affected row means an invoice of that number is now paid |
| `OutboxPipeline.FetchedPending` | labs/03-database-transaction/external.go:545-561 | a batch holds exactly the stored events still pending |
| `OutboxPipeline.StepKeepsInv` | labs/03-database-transaction/external.go:441-662 | every step of a payer, dispatcher or consumer keeps the pipeline's invariant |
| `OutboxPipeline.EveryRun` | labs/03-database-transaction/external.go:441-662 | in every run of pay, dispatch, crash and delivery a stored event's invoice is paid, the id of a published event was accepted by the broker, and every broker event is a stored one |
| `OutboxPipeline.BrokerEventsArePaid` | labs/03-database-transaction/external.go:441-589 | every event the broker accepted has a committed paid invoice |
| `OutboxMarks.MarkSentIff` | labs/03-database-transaction/external.go:572-583 | as long as published events were sent, marking an event keeps it so if and only if every stored event with its id is already with the broker |
| `OutboxMarks.SentThroughoutIff` | labs/03-database-transaction/external.go:441-589 | a run has only sent events marked published, in every state on the way, if and only if it never marks an id under which some stored event has not been sent |
| `OutboxMarks.SurvivesIff` | labs/03-database-transaction/external.go:542-589 | that survives every continuation without further payments, crashes and redispatches included, if and only if no event that a dispatcher may yet mark shares its id with another that is pending and unsent |
| `OutboxMarks.TroubleFails` | labs/03-database-transaction/external.go:563-586 | the steps by which such a dispatcher goes wrong |
| `OutboxIds.SurvivesPaymentsIff` | labs/03-database-transaction/external.go:441-589 | with new payments allowed, it survives every continuation exactly when there is no dispatcher |
| `OutboxIds.EventIdInjective` | labs/03-database-transaction/external.go:459 | an event id determines its invoice and nanosecond |
| `OutboxIds.PublishedEventAccepted` | labs/03-database-transaction/external.go:572-583 | with distinct ids a published event is itself one the broker accepted |
| `OutboxIds.PublishedMeansSent` | labs/03-database-transaction/external.go:441-589 | in every run in which no invoice is paid twice in one nanosecond, and in every state on the way, a published event was accepted by the broker, that very event |
| `OutboxIds.SharedIdMarksUnsent` | labs/03-database-transaction/external.go:578 | marking an event marks every row with its id, also one whose event was never sent |
| `OutboxIds.RepeatedPaymentLosesEvent` | labs/03-database-transaction/external.go:441-589 | two payments of one invoice in one nanosecond, then one fetch, publish and mark, leave an event published that was never sent |
| `OutboxDelivery.InMemoryBroker.Publish` | labs/03-database-transaction/external.go:365-375 | refuses the first calls and then appends |
| `OutboxDelivery.OutboxDispatcher.FetchPending` | labs/03-database-transaction/external.go:545-561 | the query and the scan loop give the pending events |
| `OutboxDelivery.OutboxDispatcher.DispatchBatch` | labs/03-database-transaction/external.go:542-589 | the loop publishes and marks event by event, skipping failures, and counts the marked ones |
| `OutboxLaws.BatchOutcome` | labs/03-database-transaction/external.go:563-586 | every event of a batch is tried whatever happens to the others: the broker gets exactly those it accepts, in order, and a row is published afterwards exactly if it was or if an event with its id was accepted and marked |
| `OutboxLaws.DispatchedCounts` | labs/03-database-transaction/external.go:563-588 | the number reported is that of the events both accepted and marked |
| `OutboxDelivery.ScriptRuns` | labs/03-database-transaction/external.go:542-589 | what the loop computes is a run of the machine, whatever other dispatchers are doing |
| `OutboxDelivery.CleanBatchDrains` | labs/03-database-transaction/external.go:542-589 | from any reachable state a batch without failures leaves every stored event published and with the broker |
| `OutboxDelivery.NoEventIsLost` | labs/03-database-transaction/external.go:441-479 | starting from unpaid invoices, in every run each paid invoice has its event stored |
| `Commissions.ConflictIsMarker` | labs/03-database-transaction/external.go:625-639 | the insert conflicts exactly when this consumer has marked this event |
| `Commissions.HandleEffect` | labs/03-database-transaction/external.go:617-662 | handling keeps markers unique and balanced with commissions, and leaves the marker there |
| `Commissions.EveryRunCounts` | labs/03-database-transaction/external.go:617-662 | in every run as many commissions as markers for each event, no marker twice, no commission but for a delivered event and its invoice |
| `Commissions.OneCommissionPerConsumer` | labs/03-database-transaction/external.go:617-662 | the commissions of an event number exactly the consumers that marked it |
| `Commissions.CommissionsArePaidFor` | labs/03-database-transaction/external.go:641-648 | every commission is for a committed paid invoice |
| `Commissions.ExactlyOne` | labs/03-database-transaction/external.go:542-662 | after any run with one consumer, a batch without failures and one delivery of the broker's events leave exactly one commission for every event ever stored |
| `OutboxWorkers.EveryRun` | labs/98-outbox-pattern/safe/concurrent_worker.go:55-148 | in every run no event is in two open batches, published implies accepted, attempts are the committed failures and one more once published, the batches of those failures are spaced by their backoff, and each event is handled at most once |
| `OutboxWorkers.CommitKeepsRows` | labs/98-outbox-pattern/safe/concurrent_worker.go:109-147 | a committed batch keeps every row's account of its attempts and failures |
| `OutboxWorkers.SendsUnpublished` | labs/98-outbox-pattern/safe/concurrent_worker.go:67-74 | only unpublished events are ever sent |
| `OutboxWorkers.NeverResent` | labs/98-outbox-pattern/safe/concurrent_worker.go:55-148 | once a batch marking an event published has committed, no later step of any worker sends it |
| `OutboxWorkers.BackoffDoubles` | labs/98-outbox-pattern/safe/concurrent_worker.go:117-126 | the first delay is `base` and each is twice the one before |
| `OutboxWorkers.FailureDelays` | labs/98-outbox-pattern/safe/concurrent_worker.go:117-126 | a first failure makes a row due `base` after its batch clock, and each later failure twice as far from its own batch clock as the one before |
| `OutboxWorkers.SuccessMarks` | labs/98-outbox-pattern/safe/concurrent_worker.go:127-140 | a success counts as an attempt, marks the row and leaves its dates alone |
| `OutboxWorkers.ThirdFailure` | labs/98-outbox-pattern/safe/concurrent_worker.go:117-126 | a third failure with base 1 at batch clock 10 makes the row due at 14 |
| `OutboxWorkers.RetryWaits` | labs/98-outbox-pattern/safe/concurrent_worker.go:117-126 | a batch that retries after the k-th committed failure was read at least base * 2^(k-1) after the clock of the batch that failed; since the failure itself, that less the time from clock to failure |
| `OutboxWorkers.FailuresWait` | labs/98-outbox-pattern/safe/concurrent_worker.go:108-126 | the same between consecutive failures |
| `OutboxWorkers.FullBackoffIff` | labs/98-outbox-pattern/safe/concurrent_worker.go:108-126 | every time the query may return the row again lies a full backoff after its last failure if and only if that failure was known at the very clock its batch had read |
| `OutboxWorkers.ShortRetry` | labs/98-outbox-pattern/safe/concurrent_worker.go:108-126 | a run that retries 1 after a failure whose backoff is 10 |
| `OutboxWorkers.OutboxTable.ProcessBatch` | labs/98-outbox-pattern/safe/concurrent_worker.go:55-148 | queries and tries the picked events in order, a failed update or not; the table changes only if every update and the commit succeed, the broker log regardless |
| `OutboxWorkers.OutboxTable.Query` | labs/98-outbox-pattern/safe/concurrent_worker.go:67-80 | the oldest unpublished, due rows no other transaction has locked, each once, up to the batch size |
| `OutboxWorkers.OutboxTable.PublishBatch` | labs/98-outbox-pattern/safe/concurrent_worker.go:108-147 | the loop over the picked events and the commit |
| `OutboxWorkers.PicksIsSelects` | labs/98-outbox-pattern/safe/concurrent_worker.go:67-74 | what the query returns is what the machine's workers may select |
| `OutboxWorkers.PicksMeans` | labs/98-outbox-pattern/safe/concurrent_worker.go:67-74 | due, unpublished, unlocked rows, oldest first; one that is left out is no older than any picked, and only for want of room |
| `OutboxWorkers.PollOpens` | labs/98-outbox-pattern/safe/concurrent_worker.go:67-108 | an idle worker that polls locks what the query selects and tries it as of the clock it then reads |
| `OutboxWorkers.DeliverHandles` | labs/98-outbox-pattern/safe/consumer.go:33-77 | a delivered event is handled unless it was already or its transaction fails, and no other is |
| `OutboxWorkers.BatchTouchesOnlyItsRows` | labs/98-outbox-pattern/safe/concurrent_worker.go:109-140 | a batch changes no row but its own |
| `OutboxWorkers.BatchTriesEachOnce` | labs/98-outbox-pattern/safe/concurrent_worker.go:109-140 | each event of a batch is tried exactly once, from the row it read |
| `OutboxWorkers.BatchIsRun` | labs/98-outbox-pattern/safe/concurrent_worker.go:102-148 | what the loop computes, with updates failing anywhere, finished or stopped early, is a run of the machine |
| `OutboxWorkers.IdempotentConsumer.ProcessEvent` | labs/98-outbox-pattern/safe/consumer.go:33-77 | counts every delivery; the work is done exactly when the event is new and its transaction goes through |
| `Breakers.CircuitBreaker.constructor` | labs/96-circuit-breaker/breaker.go:75-93 | starts closed, with defaults for settings that are not positive |
| `Breakers.CircuitBreaker.CheckStateTransition` | labs/96-circuit-breaker/breaker.go:108-115 | an open breaker whose cooldown has passed becomes half open with no probes, else nothing changes |
| `Breakers.CircuitBreaker.State` | labs/96-circuit-breaker/breaker.go:97-103 | reports the mode after that transition |
| `Breakers.CircuitBreaker.BeforeExecution` | labs/96-circuit-breaker/breaker.go:132-152 | admits or refuses as the machine does |
| `Breakers.CircuitBreaker.AfterExecution` | labs/96-circuit-breaker/breaker.go:155-186 | records a completion as the machine does, in whatever mode it arrives |
| `Breakers.Reachable` | labs/96-circuit-breaker/breaker.go:108-186 | the invariant of every reachable breaker, late completions included |
| `Breakers.EpisodeAdmissions` | labs/96-circuit-breaker/breaker.go:132-186 | in a half-open episode `activeProbes` is exactly the number of calls it admitted, at most `MaxHalfOpenProbes` |
| `Breakers.StretchAdmissions` | labs/96-circuit-breaker/breaker.go:132-152 | any part of a half-open episode obeys the cap |
| `Breakers.Normalize` | labs/96-circuit-breaker/breaker.go:75-93 | settings that are not positive become 5 failures, 60 seconds and 1 probe, and a usable configuration stays as it is |
| `Breakers.VerdictInEpisode` | labs/96-circuit-breaker/breaker.go:132-152 | in a half-open episode an attempt is admitted if and only if the episode has admitted fewer than `MaxHalfOpenProbes` calls, and is told too many probes otherwise |
| `Breakers.VerdictOutside` | labs/96-circuit-breaker/breaker.go:132-152 | a closed breaker admits every attempt, an open one exactly those at least the reset timeout after its last trip, read from the events |
| `Breakers.CounterIsStreak` | labs/96-circuit-breaker/breaker.go:155-186 | the failure counter is the number of failures since the last success, those in half-open episodes aside |
| `Breakers.OpenSinceLastTrip` | labs/96-circuit-breaker/breaker.go:155-186 | an open breaker counts its cooldown from the last event that tripped it |
| `Breakers.NextMode` | labs/96-circuit-breaker/breaker.go:108-186 | the next mode for every event in every mode: open exactly after a trip, half open exactly by an attempt or a look after the reset timeout, closed exactly by a success while half open |
| `Breakers.NoAdmissionDuringCooldown` | labs/96-circuit-breaker/breaker.go:108-186 | after any trip no call is admitted before the reset timeout has passed |
| `Breakers.ClosedCounter` | labs/96-circuit-breaker/breaker.go:155-186 | in a closed episode the counter is its trailing run of failures and stays below the threshold |
| `Breakers.ClosedEpisodeEnds` | labs/96-circuit-breaker/breaker.go:155-186 | a closed episode ends exactly at the failure completing a run of the threshold's length |
| `Breakers.ClosesOnSuccessWhileHalfOpen` | labs/96-circuit-breaker/breaker.go:155-186 | a breaker that is not closed closes exactly by a success that finishes while half open, of whichever call |
| `Breakers.ProbesAtLeastMinusOne` | labs/96-circuit-breaker/breaker.go:132-186 | `activeProbes` never falls below -1 |
| `Breakers.EpisodeEnds` | labs/96-circuit-breaker/breaker.go:155-175 | a half-open episode ends by a completion and leaves `activeProbes` at one less than the calls it admitted: -1 exactly when it admitted none |
| `Breakers.ProbeNeededWithoutLateCalls` | labs/96-circuit-breaker/breaker.go:132-175 | an episode that begins with no call in flight is ended only by a probe of its own |
| `Breakers.ClosesWithoutProbeIff` | labs/96-circuit-breaker/breaker.go:155-175 | a half-open breaker that has admitted no probe can close at once exactly when an earlier call is still in flight |
| `Breakers.EndsUnprobedIff` | labs/96-circuit-breaker/breaker.go:97-186 | an episode can end with no probe of its own exactly when it was entered by a look at the state while a call was in flight |
| `Breakers.LateFinishUnderflowsProbes` | labs/96-circuit-breaker/breaker.go:155-186 | a run that closes the breaker with no probe admitted and `activeProbes` at -1 |
| `TokenBuckets.TokenBucket.Use` | labs/95-rate-limiting/token_bucket.go:65-88 | refills for the elapsed time up to capacity, then grants and deducts or refuses |
| `TokenBuckets.Potential` | labs/95-rate-limiting/token_bucket.go:65-88 | what a window has granted plus what is left never exceeds the window's allowance |
| `TokenBuckets.WindowBound` | labs/95-rate-limiting/token_bucket.go:48-88 | over any window the tokens granted total at most capacity + rate * (t2 - t1) |
| `TokenBuckets.LastFull` | labs/95-rate-limiting/token_bucket.go:65-88 | whatever is missing from the bucket was granted since it was last full |
| `TokenBuckets.GrantsExactlyWhatWindowsAllow` | labs/95-rate-limiting/token_bucket.go:65-88 | a request is granted if and only if every window ending now stays within its allowance |
| `RedisScripts.TokenBucketKey.Eval` | labs/95-rate-limiting/distributed.go:27-54 | the token script on a key that expires, for all parameters; a time to live that is not positive deletes the key at once |
| `RedisScripts.ExpiryIsInvisibleToOneCall` | labs/95-rate-limiting/distributed.go:34-53 | dropping the hash at its expiry gives the same next hash and decision as keeping it |
| `RedisScripts.TokenExpiryKeepsHash` | labs/95-rate-limiting/distributed.go:27-54 | over any run the hash of the expiring key is that of one that never expires |
| `RedisScripts.TokenExpiryChangesNothing` | labs/95-rate-limiting/distributed.go:27-54 | over any run, a fill time of zero included, expiry changes no decision of the token script |
| `RedisScripts.ZeroFillTime` | labs/95-rate-limiting/distributed.go:34-53 | with no fill time every call finds a full bucket and the key gone |
| `RedisScripts.TokenExpiresAfter` | labs/95-rate-limiting/distributed.go:47-53 | each call puts the expiry off to its time plus the fill time rounded up |
| `RedisScripts.ScriptRefinesBucket` | labs/95-rate-limiting/distributed.go:27-54 | with a monotone clock the script decides as the in-process bucket of rate capacity / fill time |
| `RedisScripts.SlidingWindowKey.Eval` | labs/95-rate-limiting/distributed.go:58-78 | the window script on a key that expires |
| `RedisScripts.WindowExpiryChangesNothing` | labs/95-rate-limiting/distributed.go:58-78 | over any run with a monotone clock expiry changes no decision of the window script |
| `RedisScripts.WindowExpiresAfter` | labs/95-rate-limiting/distributed.go:66-77 | only an admitted call is recorded and puts the expiry off, to its time plus the window |
| `RedisScripts.ScoresAreAdmittedTimes` | labs/95-rate-limiting/distributed.go:63-73 | the stored scores still in the window are exactly the admitted timestamps in it |
| `RedisScripts.AdmitsByDistinctTimes` | labs/95-rate-limiting/distributed.go:66-77 | admits exactly when fewer than `limit` distinct timestamps were admitted in the preceding window |
| `RedisScripts.CountsAgreeUnlessRepeated` | labs/95-rate-limiting/distributed.go:66-74 | requests and distinct timestamps count the same exactly when none repeats |
| `RedisScripts.AdmitsByCountIff` | labs/95-rate-limiting/distributed.go:66-77 | a call is admitted by the number of requests admitted in the preceding window if and only if the limit does not lie above the distinct timestamps and at or below the requests; so always without a repeat |
| `RedisScripts.RepeatOvershoots` | labs/95-rate-limiting/distributed.go:66-74 | for any timestamp used twice with a call after it, a window and a limit under which that call is admitted one too many |
| `RedisScripts.AlwaysRightIff` | labs/95-rate-limiting/distributed.go:58-78 | the call times for which every call is admitted by that number, whatever the window and the limit, are exactly those that repeat nothing, the last call aside |
| `RedisScripts.AdmitsExactly` | labs/95-rate-limiting/distributed.go:58-78 | with strictly increasing timestamps it admits exactly when fewer than `limit` requests were admitted in the preceding window |
| `RedisScripts.WindowLimitHolds` | labs/95-rate-limiting/distributed.go:58-78 | with strictly increasing timestamps no window ending at a request holds more than `limit` |
| `RedisScripts.RepeatedTimestampsOvershoot` | labs/95-rate-limiting/distributed.go:66-74 | three requests at one instant pass a limit of two |
| `RetryBudgets.RetryBudget.TryConsume` | labs/97-retry/budget.go:40-56 | replenishes when a window has passed, then grants while the budget lasts |
| `RetryBudgets.StateFromTimes` | labs/97-retry/budget.go:40-56 | the window start and the count used follow from the call times alone: windows start at creation and at each first call at least `window` after the last start |
| `RetryBudgets.GrantedIff` | labs/97-retry/budget.go:40-56 | a call is granted if and only if fewer than `budget` calls were made before it in its window, granted or not |
| `RetryBudgets.RefusalsDoNotCount` | labs/97-retry/budget.go:40-56 | leaving a refused call out changes no other decision |
| `RetryBudgets.FromHere` | labs/97-retry/budget.go:40-56 | what can still be granted before a given time is the rest of this window and one budget for each replenishment |
| `RetryBudgets.IntervalBound` | labs/97-retry/budget.go:40-56 | any interval of k windows' length holds at most (k + 1) * budget granted retries |
| `RetryBudgets.IntervalBoundIsReachedIff` | labs/97-retry/budget.go:40-56 | for every budget and number of windows the bound is attained if and only if a window has more than one instant |
| `Leases.MockRedisClient.SetIfAbsent` | labs/04-caching/mock_cache.go:196-213 | takes a key that is free or expired, with its expiry, and no other |
| `Leases.MockRedisClient.CompareAndDelete` | labs/04-caching/mock_cache.go:230-244 | deletes exactly an unexpired key holding that value |
| `Leases.MockRedisClient.WithLock` | labs/04-caching/distributed_lock.go:86-111 | the function runs exactly when the lock was taken, and the release removes it only if it is still held by this token |
| `Leases.LeaseEnds` | labs/04-caching/mock_cache.go:188-244 | a lease ends only by a release with its token or by running out |
| `Leases.AcquisitionsSeparated` | labs/04-caching/distributed_lock.go:46-79 | two acquisitions of a key are separated by a release with the first token or by more than the ttl |
| `Leases.StoredIffInForce` | labs/04-caching/mock_cache.go:188-244 | an unexpired token is stored exactly when some acquired lease is neither released nor run out, and it is that lease's |
| `Leases.AcquireSucceedsIff` | labs/04-caching/distributed_lock.go:46-65 | an acquisition succeeds if and only if its time to live is positive and no earlier lease on the key is unexpired and unreleased |
| `Leases.ReleaseSucceedsIff` | labs/04-caching/distributed_lock.go:68-79 | a release succeeds if and only if the lease in force is one with its token |
| `Leases.FreeUntilAcquired` | labs/04-caching/distributed_lock.go:46-79 | a released key stays free until it is acquired |
| `Leases.StoredTokenIsLatest` | labs/04-caching/mock_cache.go:196-213 | the stored token and expiry are those of the latest acquisition |
| `Leases.ReleaseRemovesOwnLease` | labs/04-caching/distributed_lock.go:68-79 | a release removes only the lease whose token it carries, the latest and unexpired |
| `Leases.LateReleaseIsHarmless` | labs/04-caching/distributed_lock.go:68-79 | a release with any other token or key leaves a lease in force |
| `TtlMaps.MockCache.Get` | labs/04-caching/mock_cache.go:34-55 | finds an unexpired entry, drops an expired one |
| `TtlMaps.MockCache.Set` | labs/04-caching/mock_cache.go:57-73 | stores value and expiry, or a failing backend changes nothing |
| `TtlMaps.MockCache.Delete` | labs/04-caching/mock_cache.go:75-84 | removes value and expiry, or a failing backend changes nothing |
| `TtlMaps.SetThenGet` | labs/04-caching/mock_cache.go:34-73 | a value is found up to and including its expiry and not after, or always without a time to live; other keys are found as before |
| `TtlMaps.DeleteThenGet` | labs/04-caching/mock_cache.go:34-84 | a deleted key is not found, other keys as before |
| `TtlMaps.GetThenGet` | labs/04-caching/mock_cache.go:34-55 | looking a key up changes nothing that is found later |
| `TtlMaps.JitterCovers` | labs/04-caching/stampede.go:20-26 | the times to live that can be drawn are exactly those from the base up to, not including, base plus jitter |
| `ProductCaches.CacheKeyInjective` | labs/04-caching/cache.go:36-38 | different products never share a cache key |
| `ProductCaches.ProductService.UpdateProduct` | labs/04-caching/write_through.go:64-116 | database first, then cache set, then delete if the set fails; succeeds exactly when the row exists and the database is up |
| `ProductCaches.ProductService.GetProduct` | labs/04-caching/cache_aside.go:48-113 | cache, then database, then a refill that may fail |
| `ProductCaches.UpdateKeepsInv` | labs/04-caching/write_through.go:64-116 | an update leaves an entry stale only if both set and delete failed |
| `ProductCaches.ReadKeepsInv` | labs/04-caching/write_through.go:119-187 | a read never makes an entry stale |
| `ProductCaches.UpdateWrites` | labs/04-caching/write_through.go:64-92 | an update changes exactly its own row, and only if it has an id, the row exists and the database is up; otherwise nothing at all |
| `ProductCaches.StoredUntil` | labs/04-caching/write_through.go:64-187 | what is stored is the current row, for five minutes sharp by a read-through and with the random part by anything else |
| `ProductCaches.StoredIsServed` | labs/04-caching/write_through.go:119-187 | a stored row is served for five minutes, database or no database |
| `ProductCaches.StoredIsForgotten` | labs/04-caching/write_through.go:119-187 | after five minutes and fifteen seconds the database is asked |
| `ProductCaches.JunkIsDropped` | labs/04-caching/cache_aside.go:48-113 | text that does not decode is removed, whether or not a row replaces it |
| `ProductCaches.EveryRun` | labs/04-caching/write_through.go:64-187 | in every sequential run entries are honest about a recent moment, and current unless the product is marked |
| `ProductCaches.ReadIsCurrent` | labs/04-caching/write_through.go:119-187 | a read by either service returns the current row unless the product is marked |
| `ProductCaches.MarkedIff` | labs/04-caching/write_through.go:94-113 | a product is marked if and only if some update of it failed both set and delete and since then no update reached the cache and no read refilled it |
| `ProductCaches.ReadIsStaleIff` | labs/04-caching/write_through.go:119-187 | a read serves another row than the current one if and only if it reaches a live entry that differs, which takes a mark |
| `ProductCaches.FailedUpdateServesOld` | labs/04-caching/write_through.go:94-113 | after an update that failed both ways a read that reaches a live entry serves what was cached before |
| `ProductCaches.ReadIsRecent` | labs/04-caching/write_through.go:119-187 | even then it returns a row the database held within the last 5m15s |
| `ProductCaches.StaleReadWitness` | labs/04-caching/write_through.go:64-116 | a run in which such a stale row is served |
| `Printing.DecInjective` | labs/04-caching/dashboard_key.go:79-82 | distinct integers print differently, negative ones included |
| `Printing.RecordInjective` | labs/04-caching/dashboard_key.go:79-82 | a colon-separated record can be read back field by field |
| `Dashboards.FormatDateInjective` | labs/04-caching/dashboard_key.go:79-82 | different days format differently |
| `Dashboards.BuildInjective` | labs/04-caching/dashboard_key.go:36-82 | the printed key determines version, tenant, branch and formatted date |
| `Dashboards.KeyText` | labs/04-caching/dashboard_key.go:79-82 | a key as it is printed |
| `Dashboards.DashboardCacheService.GetDashboardWithTenant` | labs/04-caching/dashboard_cache.go:33-69 | cache, then repository, then store; the repository is asked exactly once if the scope is valid and nothing live is cached, else not at all |
| `Dashboards.DashboardCacheService.InvalidateDashboard` | labs/04-caching/dashboard_cache.go:72-83 | deletes the key of that scope, or reports the failure |
| `Dashboards.GetAnswers` | labs/04-caching/dashboard_cache.go:33-69 | an error for an invalid scope, else the live cached dashboard, else what the repository returns |
| `Dashboards.FetchedIsCached` | labs/04-caching/dashboard_cache.go:33-69 | what was fetched is served for thirty seconds without asking again, and is forgotten after less than forty |
| `Dashboards.InvalidatedIsAsked` | labs/04-caching/dashboard_cache.go:72-83 | after an invalidation the repository is asked |
| `Dashboards.DoTouchesOwnKey` | labs/04-caching/dashboard_cache.go:33-83 | an operation touches no key but its own and stores only what it has just fetched |
| `Dashboards.EveryRun` | labs/04-caching/dashboard_cache.go:33-83 | every cached dashboard was fetched for the scope its key names |
| `Dashboards.ServedFromOwnScope` | labs/04-caching/dashboard_cache.go:33-69 | in every run what is served for a tenant, branch and day was fetched for exactly these |
| `Dashboards.InvalidateIsScoped` | labs/04-caching/dashboard_cache.go:72-83 | invalidating one scope removes its entry and no other scope's |
| `Deposits.StepLogsItsUpdate` | labs/93-optimistic-locking/safe.go:30-46 | a step changes a wallet only by an update whose version matched, and logs it |
| `Deposits.UpdateMeans` | labs/93-optimistic-locking/safe.go:30-46 | an update whose version still matches is applied and, if its count is read, reported; one whose version has moved on makes the call back off; a failed statement changes nothing and ends it |
| `Deposits.BackOffMeans` | labs/93-optimistic-locking/safe.go:47-57 | a conflict leads to another read until the third |
| `Deposits.UndisturbedDeposit` | labs/93-optimistic-locking/safe.go:19-57 | a read and an update with nobody in between deposit the amount |
| `Deposits.EveryRunAccounted` | labs/93-optimistic-locking/safe.go:19-57 | after any interleaving each balance is the initial one plus exactly the deposits whose update matched, the version counts them, and no call is applied twice |
| `Deposits.SucceedsIffApplied` | labs/93-optimistic-locking/safe.go:19-57 | a call succeeded if and only if it was applied, if and only if no step of the run lost the row count of its update after the update took effect |
| `Deposits.LostCountHidesDeposit` | labs/93-optimistic-locking/safe.go:39-42 | a run in which a deposit is applied and reported as an error |
| `Deposits.AttemptsBounded` | labs/93-optimistic-locking/safe.go:19-57 | a call gives up with a conflict only after its third attempt |
| `Deposits.WalletRow.Deposit` | labs/93-optimistic-locking/safe.go:19-57 | with statements failing, the wallet missing, rivals and lost counts: the amount is added, once, exactly when an attempt that is reached updates with no rival in between, reported exactly when its count was read, and a conflict exactly when every attempt met a rival |

## Left out

- HTTP handlers, JSON, metrics, tracing, logging, notifications and configuration: plumbing around the modelled operations.
- Real PostgreSQL and Redis clients: row locks held to the end of the transaction, SKIP LOCKED, ON CONFLICT DO NOTHING, atomic scripts, and rollback on a failed statement or commit are assumed.
- SQL text: statements are a datatype, so parse errors, LIMIT inside a WHERE value and unsupported statements are not modelled.
- Table objects of the in-memory engine: its tables are values in a map and only its row objects are shared memory; the source also has a pointer per table.
- Cells of the in-memory engine: floats and timestamps are carried as the text they print as.
- Floating-point rounding, 64-bit overflow and shifts beyond 62: amounts, tokens and times are exact numbers.
- Clock reads: each operation reads the clock where the source does, as a parameter; sorted-window times are non-negative.
- `singleflight` and the stampede services: the guarantee lives in a library that is not part of this model.
- Concurrent cache freshness: the database write and the cache write are separate by design, so staleness is stated for sequential runs.
- The blank check on idempotency keys recognises ASCII white space only.
- The read of stock alongside the price; request hashing and JSON are abstract.
- Panics inside a protected function: the breaker's and the lock's callers return.
- Naive and unsafe variants, the saga lab, lab 01, feature flags, API versioning, estimation and the order service: easier instances, deliberately broken, or without a decided end-to-end claim.
