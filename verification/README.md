# Flash-sale system: a verified model

A flash-sale ("seckill") backend sells a fixed number of units of one product in one activity.
Three stores hold the state: Redis (stock, buyers, pending reservations, two markers), MySQL (orders,
stock row, stock log, two outbox tables) and a message queue that delivers at least once. No
transaction spans two of them. The project models the reservation protocol that keeps them
consistent, the outbox scheduler, the read cache, the scanner, the key codec and the historical-order
seeder, and proves what each of them promises.

| File | What it models |
|---|---|
| `RedisStore.dfy` | the Lua scripts as functions, and the cache class that runs them |
| `Orders.dfy` | create, pay and cancel transactions, and the stock ledger over all runs |
| `Outbox.dfy` | outbox rows: backoff, and every interleaving of claims, sends, retries and replays |
| `Dispatch.dfy` | the repositories and jobs over the outbox: claim, drain, compensate, replay |
| `Protocol.dfy` | the interleaved protocol: processes, steps, promises, invariant |
| `ProtocolSteps.dfy`, `ProtocolInvariant.dfy` | every step keeps the invariant exactly when its promise is kept |
| `ProtocolLaws.dfy` | the laws of all reachable states and runs |
| `ProtocolStranded.dfy` | which reservations can never be resolved any more |
| `ProtocolTimeout.dfy` | which unpaid orders can still time out |
| `ProtocolFaults.dfy` | what goes wrong once a promise is broken: one run for each of E1 to E5 |
| `Handlers.dfy` | the request handler, the poll, the payment and the two consumers as code: answers and stores for every pattern of failing calls, and runs of the protocol |
| `PendingChecker.dfy`, `ProtocolScan.dfy` | the scanner's loops, and that they are runs of the protocol |
| `ProductCache.dfy` | the three-level cache over a clock and a changing row |
| `Keys.dfy` | decimal printing and parsing, key families |
| `Seeding.dfy` | the historical-order seeder |

## How the protocol is modelled

A process is a program counter with its locals; one access to one store is one step. Any number of
requests, consumers, scanners, cleaners, timeout consumers, payers and pollers interleave. Every access may
fail, or take effect and lose its reply; a process may crash anywhere; both markers may expire; messages form
sets, so they arrive late, in any order and repeatedly, and the broker stops delivering a main message at some
point until it is sent again. The *token* of an order number is history: issued by a successful pre-deduct
script, held from then on, returned by a rollback script.

`Protocol.Enabled` is what the code can do. `Protocol.Assumption` is what the environment promises:

- E1: the processing marker of an order is not released or expired while the order is committed, its
  entry is still pending and a scanner is between its database read and its mark; and it does not expire
  under a consumer still at work.
- E2: the canceled marker (24 hours) does not expire under a process that is acting on it; and once the unit
  has been returned it outlives the message: no row still to be sent, no sender, no delivery and no consumer that
  has just received it.
- E3: a request is over before its entry is old enough for the scanner, and an outbox insert that reports an
  error wrote no row.
- E4: one product per activity; the first warm-up writes the stock row, a repeated one changes nothing; order
  numbers are unique.
- E5: a database transaction is all or nothing, and when an order is cancelled the two statements whose errors
  the code ignores succeed.

E1, E2, E3, the warm-up of E4 and the second half of E5 are explicit guards, and `StepKeepsInvIff` shows that each is
exactly what is needed: the step keeps the invariant if and only if the promise is kept. `ProtocolFaults.dfy` gives
a run for each: breaking E1, E2, E3 or the warm-up of E4 oversells, and breaking E4 or E5 sells out under a held
reservation. The code does not enforce any of them.

## Where the code and its comments differ

The model follows the code.

- `order_repo.go:98` speaks of an optimistic lock; the update at 191-196 has no version condition.
- `seckill_cache.go:622-623` calls the rollback script idempotent; a second execution would add a second unit. What
  holds is that it never runs twice for one order (`RollbackAtMostOnce`).
- `consumer.go:338-341` says that a failed timeout message does no harm to the order. When the outbox insert fails as well, or
  the consumer crashes after the commit, the order can never time out: a redelivered message takes the duplicate branch,
  which sends nothing (`CanTimeOutIff`).
- `seckill_service.go:266` reports SUCCESS for any order row, also for a cancelled order.
- `consumer.go:573-574` says a failed Redis rollback may leak stock; the user stays among the buyers as well, and
  neither is ever repaired (`CancelledUnitLostIff`).
- `order_repo.go:328-331` promises an error for a system failure, but the errors of three of the four statements of
  the cancellation are dropped: a failed status update (347-356) is acknowledged as nothing to do
  (`ProcessTimeoutMessage`), a failed stock update or log insert (359-369) is committed without it.
  `CancelKeepsLedgerIff` and `RunKeepsLedgerIff` say exactly when the books still balance. On an InnoDB deadlock at one
  of these two statements the database rolls back the whole transaction, and the method still reports a cancellation
  (358-379): the unit returns to Redis while the order stays pending. The model's transactions are all or nothing, so
  this case lies outside E5.
- `admin_handler.go:71` lets the warm-up be repeated at any time; it overwrites the Redis stock with the stock row, which
  still contains every unit reserved but not yet ordered (`WarmUpAgain`, `WarmUpAgainOversells`).
- An entry dropped by the duplicate branch (`consumer.go:300`), and one dropped after a rollback that failed behind
  the canceled mark (`pending_checker.go:272-288`), by the cleanup (`pending_checker.go:160-161`) or by a consumer that
  reads the mark and discards its late message (`consumer.go:251`), can strand a unit for ever; `LostForGoodIff` says
  exactly when. While the entry is there the unit is not lost: the marker expires and a
  later scan returns it.

## Model

| member | source | states |
|---|---|---|
| RedisStore.RollbackUndoesPreDeduct | internal/repository/cache/seckill_cache.go:624-637 | a rollback after a successful pre-deduction restores Redis exactly; a refused pre-deduction changes nothing |
| RedisStore.MarksExcludeEachOther | internal/repository/cache/seckill_cache.go:498-536 | whichever of the two marking scripts wins an order, the other one loses it, and a second consumer loses too |
| RedisStore.SeckillCache.PreDeductStock | internal/repository/cache/seckill_cache.go:277-308 | the script run command by command has exactly the effect and return code of the atomic function |
| RedisStore.SeckillCache.TryMarkOrderCanceledIfPending | internal/repository/cache/seckill_cache.go:498-512 | the same for the canceled marker, with its four return codes; its expiry is the protocol step `CanceledExpires` |
| RedisStore.SeckillCache.TryMarkOrderProcessing | internal/repository/cache/seckill_cache.go:526-594 | the same for the processing marker; true only for the consumer that set it |
| RedisStore.TimedOutSaleIsUndone | internal/repository/cache/seckill_cache.go:733-743 | reserving, consuming and timing out leaves Redis exactly as before |
| Orders.OrderRepo.CreateSeckillOrderTx | internal/repository/order_repo.go:113-243 | a statement that fails and is reached ends with a system error and nothing written, and nothing else does; otherwise duplicate, out of stock or created, all four tables changed together |
| Orders.OrderRepo.CancelExpiredOrder | internal/repository/order_repo.go:332-382 | for every pattern of failing statements: a reported error, a silent no-op, or a cancellation with exactly the unchecked statements that succeeded |
| Orders.OneOrderPerActivity | internal/model/order.go:20-34 | once a user has an order in an activity, none of theirs is created there under any number; other users, and other activities, get the answer they would have got, unless they compete for the last unit |
| Orders.CreatedMeans | internal/repository/order_repo.go:122-217 | a created order is new, the buyer's, pending and at its item's price, costs its activity one unit and no other activity anything |
| Orders.OnlyTheOwnerPays | internal/repository/order_repo.go:283-314 | a payment succeeds exactly for the owner of a pending order and changes nothing but its status; a paid order is neither paid nor cancelled again, a cancelled one not paid |
| Orders.CancelledMeans | internal/repository/order_repo.go:335-379 | a cancellation changes the status of its order only, and its activity's stock and log exactly as its two unchecked statements do |
| Orders.CreateKeepsBooks | internal/repository/order_repo.go:122-243 | creating keeps the books of every activity balanced, up to the gaps they already have |
| Orders.PayKeepsBooks | internal/repository/order_repo.go:292-314 | paying changes no book |
| Orders.CancelKeepsLedgerIff | internal/repository/order_repo.go:335-379 | cancelling keeps the ledger balanced if and only if, when there is an order to cancel, neither the stock update nor the log insert fails |
| Orders.RunKeepsBooks | internal/repository/order_repo.go:113-382 | over every run with any statements failing: available + live orders + lost units = opening stock, deduct lines - return lines = live orders + lost lines, version growth = orders ever inserted, one row per user and activity |
| Orders.RunKeepsLedgerIff | internal/repository/order_repo.go:113-382 | a run keeps the ledger balanced (available + live orders = opening stock, one return line per cancelled order) if and only if no successful cancellation in it lost its stock update or log line |
| Orders.RunEvolves | internal/repository/order_repo.go:292-382 | orders are never lost and keep their owner; paid and cancelled are final |
| Orders.CancelledExactlyOnce | internal/repository/order_repo.go:332-382 | however often a timeout is repeated and races with payment, cancelling succeeds once if the order ends newly cancelled and never otherwise |
| ProtocolInvariant.StepKeepsInvIff | internal/mq/consumer.go:220-384 | each step of any process keeps the whole invariant if and only if the environment's promise for that step is kept |
| ProtocolInvariant.RunKeepsInv | internal/mq/consumer.go:220-588 | the invariant holds after every run in which the promises are kept |
| ProtocolSteps.StockIsThere | internal/repository/order_repo.go:191-209 | a held reservation without an order has a unit left in the stock row |
| ProtocolLaws.CronAndConsumersExclude | internal/mq/consumer.go:242-335 | no order is both marked canceled and created, at most one consumer per order is in the critical section, and there the order is not canceled |
| ProtocolLaws.RedisConservation | internal/repository/cache/seckill_cache.go:277-308 | Redis stock plus buyers equals the warmed-up stock in every reachable state |
| ProtocolLaws.RollbackAtMostOnce | internal/repository/cache/seckill_cache.go:624-743 | every rollback finds its user among the buyers and returns a token never returned before; a token is held or returned exactly once |
| ProtocolLaws.NoOversell | internal/repository/order_repo.go:191-209 | live orders never exceed the warmed-up stock; the stock row exceeds Redis stock by exactly the tokens without a live order |
| ProtocolLaws.NeverOutOfStock | internal/mq/consumer.go:313-319 | a consumer in its critical section never meets an empty stock row; it creates the order exactly when its user has none |
| ProtocolLaws.TokenOwnership | internal/model/order.go:20-34 | the purchased set is exactly the owners of held tokens, nobody holds two, live orders hold theirs, one row per user, also across buying again |
| ProtocolLaws.NoOrphans | internal/mq/consumer.go:294-302 | a held token has its order, or its pending entry, or was marked canceled by a scanner at some time, or its user's older order was cancelled |
| ProtocolLaws.RunGrows | internal/repository/order_repo.go:292-382 | over every run orders, final statuses, outbox rows, sent rows and accepted messages stay |
| ProtocolLaws.ReturnedNeverCreated | internal/mq/consumer.go:242-258 | an order whose unit went back on the shelf is never created, whatever messages and marker expiries follow |
| ProtocolLaws.DatabaseBooks | internal/mq/consumer.go:529-578 | the ledger balances in every reachable state; a cancelled order gave DB stock back once and Redis stock at most once |
| ProtocolLaws.ReportedHasRow | internal/service/seckill_service.go:204-236 | every request that reported success has an outbox row, and a sent row means the broker has the message |
| ProtocolLaws.PollAnswers | internal/service/seckill_service.go:247-315 | each of the three reads in every reachable state: SUCCESS if and only if the user has an order row; PROCESSING if and only if the entry asked for was read and is pending; FAILED if and only if the buyers were read and the user holds no token, PROCESSING otherwise |
| ProtocolLaws.FailedMeansNoToken | internal/service/seckill_service.go:247-315 | although a poll reads at three moments, whoever is told FAILED holds no token and no live order then |
| ProtocolLaws.SuccessIsStable | internal/service/seckill_service.go:255-275 | once a poll says SUCCESS every later poll that reads the database says SUCCESS |
| ProtocolLaws.WarmUpAgain | internal/repository/cache/seckill_cache.go:686-714 | warming up again from the stock row is harmless if and only if every held token has its live order; afterwards Redis stock plus buyers exceeds the warmed-up stock by one for each token without it |
| ProtocolStranded.LostForGoodIff | internal/cron/pending_checker.go:231-314 | a taken unit without an order can never be resolved, in any continuation and whichever markers expire, if and only if it has no pending entry, nobody is rolling it back, and its owner has an older order or no message of it can come |
| ProtocolStranded.LostIsDuplicate | internal/mq/consumer.go:294-302 | a message of a reservation whose owner has an order row always ends in the duplicate branch |
| ProtocolStranded.LostForever | internal/cron/pending_checker.go:259-288 | a lost reservation stays lost through every run |
| ProtocolStranded.CanBeResolved | internal/cron/pending_checker.go:231-291 | every other unresolved reservation has a continuation, with all promises kept, that returns its unit or creates its order |
| ProtocolStranded.CancelledUnitLostIff | internal/mq/consumer.go:553-578 | a cancelled order's unit still held in Redis can never come back, in any continuation, if and only if the consumer that cancelled it is no longer about to return it |
| ProtocolStranded.StrandingHappens | internal/cron/pending_checker.go:143-163 | lost replies of the reservation and of the marking script, then a cleanup, lose the only unit although every promise is kept |
| ProtocolTimeout.CanTimeOutIff | internal/mq/consumer.go:324-367 | an unpaid order can still be cancelled in some continuation if and only if its timeout message is with the broker or in its outbox, or the consumer that created it, or one about to cancel it, is still at work; a crash after the commit loses the timeout for ever |
| ProtocolTimeout.CanTimeOut | internal/mq/consumer.go:342-588 | then some continuation, with all promises kept, cancels it and returns its unit to both stocks |
| ProtocolTimeout.ForgottenForever | internal/mq/consumer.go:294-302 | an order nobody arranged a timeout for is never cancelled, through any redelivery, duplicate, replay or scan |
| ProtocolFaults.EarlyReleaseOversells | internal/mq/consumer.go:267-274 | a deferred marker clear after an ambiguous commit, with a scanner in between, breaks E1 and oversells |
| ProtocolFaults.AmbiguousInsertOversells | internal/service/seckill_service.go:214-221 | compensating after an insert error although the row was written breaks E3 and oversells |
| ProtocolFaults.EarlyExpiryOversells | internal/repository/cache/seckill_cache.go:507-509 | a canceled marker that expires before its late message breaks E2 and oversells |
| ProtocolFaults.LostUpdateSellsOut | internal/repository/order_repo.go:358-361 | a cancellation that loses its stock update breaks E5, and a consumer holding the next buyer's reservation finds no stock |
| ProtocolFaults.WarmUpAgainOversells | api/handler/admin_handler.go:71-76 | a repeated warm-up between a reservation and its order breaks E4: with every other promise kept Redis offers a unit that has a live order, and the next buyer's consumer finds no stock |
| Handlers.Node.DoSeckill | internal/service/seckill_service.go:149-236 | for every pattern of failing calls: which user is told not started, already queuing, sold out or queued, each if and only if the stores say so; what the stores contain afterwards (unit, buyer, entry, outbox row); a run of protocol steps, and from a reachable state to a reachable one unless the insert loses its reply; Queued implies an outbox row |
| Handlers.Node.ProcessTxMessage | internal/mq/consumer.go:220-384 | for every pattern of failing calls: when the message is acknowledged and when it is asked for again, and what happens to the order, the entry, the marker and the timeout message; an acknowledged creation whose send failed leaves an outbox row due in 30 s; a run of protocol steps, safe unless a scanner is about to mark the order; without failures it consumes the message in one change and leaves no marker |
| Handlers.Node.CreateUnderMarker | internal/mq/consumer.go:267-384 | the critical section: the same from the won marker on, the marker given back whatever the outcome |
| Handlers.Node.ProcessTimeoutMessage | internal/mq/consumer.go:509-588 | for every pattern of failing calls and of failing statements inside the cancellation: the message is asked for again if and only if the read or the cancellation reports an error; what both stores contain afterwards; acknowledged means the order is not pending unless its status update failed; safe when the unchecked statements succeed |
| Handlers.Node.QuerySeckillResult | internal/service/seckill_service.go:247-315 | for every pattern of failing reads: an error if and only if the order cannot be read, SUCCESS, PROCESSING and FAILED each if and only if the stores say so; no store changes, and it is a run of the poll steps |
| Handlers.Node.PayOrder | internal/repository/order_repo.go:292-314 | paying succeeds exactly for the owner of a pending order, changes that order's status only, and is a step of the protocol |
| Handlers.MarkerComesAndGoes | internal/mq/consumer.go:256-274 | winning the marker and clearing it around the creation leaves no trace |
| PendingChecker.Checker.CheckAndRollback | internal/cron/pending_checker.go:231-314 | drops the entry of a created order, cancels and rolls back an unmarked one, leaves the rest |
| PendingChecker.Checker.CheckOnePendingHash | internal/cron/pending_checker.go:179-225 | whatever the iteration order, exactly the expired, unordered, unmarked, non-processing entries are rolled back and the expired ordered ones dropped; with the default threshold expired means 300 s old or more |
| PendingChecker.Checker.CleanupPendingGarbage | internal/cron/pending_checker.go:119-169 | exactly the entries of created or canceled orders are dropped and counted |
| PendingChecker.CheckOneMore | internal/cron/pending_checker.go:202-224 | checking one more entry moves the set description of the pass by exactly that entry |
| PendingChecker.PassInSeconds | internal/cron/pending_checker.go:216-314 | the pass entry by entry with the threshold in seconds: younger entries are untouched, older ones go unless they have a marker and no order; which orders are canceled, which units and users are given back, nothing else |
| PendingChecker.FiveMinutes | internal/cron/pending_checker.go:27-50 | under the default threshold an entry expires with its 300th second |
| PendingChecker.ScanThenCleanup | internal/cron/pending_checker.go:94-169 | afterwards pending holds exactly the unordered, uncancelled entries that are younger than the threshold, in seconds, or processing |
| ProtocolScan.ScanThenCleanupIsReachable | internal/cron/pending_checker.go:94-314 | a whole pass and cleanup from a reachable state is itself a run of the protocol with the promises kept, and ends with the Redis data the loops compute |
| Outbox.NextDelay | internal/repository/seckill_tx_task_repo.go:123-130 | the doubling loop with its early exit equals min(first * 2^(n-1), cap) for every n >= 1, no value reaching twice the cap |
| Outbox.BackoffMonotone | internal/repository/order_timeout_task_repo.go:123-131 | delays never shrink from one retry to a later one and stay between the first delay and the cap |
| Outbox.TxRetryInFigures | internal/repository/seckill_tx_task_repo.go:116-143 | a failed main message waits 3, 6, 12, 24, 48, 96 s and then 2 min, and its row dies at the 30th failure |
| Outbox.TimeoutRetryInFigures | internal/repository/order_timeout_task_repo.go:116-143 | a failed timeout message waits 30 s, 1, 2, 4, 8, 16 min and then 30 min, and its row dies at the 20th failure |
| Outbox.RunAtLeastOnce | internal/repository/seckill_tx_task_repo.go:104-177 | through every interleaving of claims, sends, lost replies, retries, deaths, replays and crashes no row is lost, sent is absorbing and sent implies the broker accepted that message |
| Outbox.LeaseExclusive | internal/repository/seckill_tx_task_repo.go:62-95 | a claimed row is not claimed again before its lease ends unless a retry or replay rewrote it |
| Outbox.ClaimLoopsDisjoint | internal/repository/order_timeout_task_repo.go:62-95 | interleaved claim loops of any number of dispatchers win each row at most once within a lease |
| Outbox.DiesAtTheLimit | internal/repository/seckill_tx_task_repo.go:116-121 | a new row is dead after exactly `maxRetry` failed sends and pending before |
| Outbox.ReplayBuysOneAttempt | internal/repository/seckill_tx_task_repo.go:168-177 | a replay keeps the count: after any run a replayed dead row that fails once more is dead again at once |
| Dispatch.TaskRepo.ClaimPendingTasks | internal/repository/seckill_tx_task_repo.go:53-101 | the earliest due rows up to the limit are leased, each until the lease after its own update's clock reading, no other row changes, and the copies are from before the lease |
| Dispatch.ClaimInFigures | internal/repository/seckill_tx_task_repo.go:53-76 | claimed rows are pending with a due time not after now, earliest first; a due row is left out only when the limit is used up by rows that are no later |
| Dispatch.AttemptInFigures | internal/cron/tx_message_dispatcher.go:132-166 | what each outcome of an attempt makes of the row: sent, retried after the backoff, dead at the limit, or leased when the status write fails |
| Dispatch.TaskRepo.MarkRetry | internal/repository/seckill_tx_task_repo.go:116-143 | pending rows get the next delay in closed form and die at the retry limit; others stay |
| Dispatch.TaskRepo.FetchDeadTasks | internal/repository/order_timeout_task_repo.go:147-167 | the longest dead rows up to the limit, oldest first: every one untouched for at least the age given, and none of that age left out unless the limit is used up |
| Dispatch.DeadInFigures | internal/repository/seckill_tx_task_repo.go:145-166 | the selection in figures: dead, last touched at least `age` ago, longest first |
| Dispatch.DispatchOnce | internal/cron/tx_message_dispatcher.go:97-130 | the drain loop ends, attempts every initially due task exactly once and no other, and leaves none due, whichever sends and status writes fail |
| Dispatch.DueAfter | internal/cron/tx_message_dispatcher.go:132-166 | an attempt takes exactly its own task off the due set |
| Dispatch.ScanAndRetry | internal/cron/timeout_message_compensator.go:73-131 | one batch, earliest first, each attempted once, the rest untouched |
| Dispatch.ReplayOnce | internal/cron/tx_task_replayer.go:59-86 | of the longest dead rows exactly those whose update succeeds become pending, and the count is their number |
| Dispatch.ReplayedAreDue | internal/cron/dead_task_replayer.go:62-89 | replayed rows join the due set at once and nothing else does |
| ProductCache.Cache.GetRow | internal/repository/cache/product_cache.go:96-158 | the lookup and load code equals the lookup function, including failed Redis reads, undecodable values and failed write-backs, and fails only if the database read does |
| ProductCache.LookupSource | internal/repository/cache/product_cache.go:96-136 | served from the process's own live entry, else from a live and readable Redis entry, else from the database; failed if and only if all three fail |
| ProductCache.LookupStores | internal/repository/cache/product_cache.go:120-230 | what is stored and for how long: 30 to 36 s locally, 10 to 12 min in Redis, a null 1 min in both |
| ProductCache.StalenessBound | internal/repository/cache/product_cache.go:96-230 | with any processes, any row updates and any failures a served row was in the database less than 12 min 36 s before (both maximal TTLs), a null at most 2 min before |
| ProductCache.StalenessReached | internal/repository/cache/product_cache.go:138-155 | the bound for rows is attained to the nanosecond |
| ProductCache.NullStalenessReached | internal/repository/cache/product_cache.go:124-145 | the bound for nulls is attained as well |
| ProductCache.UnchangingRow | internal/repository/cache/product_cache.go:161-224 | while the row does not change every answered lookup equals a database read |
| Seeding.SeedHistoricalOrders | cmd/seed/main.go:469-551 | with a positive batch size the loops end with exactly `total` orders in dealing order and one item each; a batch size of zero or less ends the program before the first order |
| Seeding.CreateHistoricalActivities | cmd/seed/main.go:553-579 | exactly the consecutive activity ids from the base, unless the batch size is zero or less |
| Seeding.PairsAreDistinctIff | cmd/seed/main.go:505-517 | no user gets two orders in one activity if and only if no user occurs twice among those dealt to |
| Seeding.NumbersAreDistinct | cmd/seed/main.go:514 | no printed order number is used twice |
| Seeding.DealtInRounds | cmd/seed/main.go:505-517 | round q deals one order to every user in the order of the list, all of them in activity 100000 + q |
| Seeding.DealtIsCreated | cmd/seed/main.go:487-508 | every order lies in one of the ceil(total / users) created activities |
| Seeding.ActivitiesAreFilled | cmd/seed/main.go:487-508 | every created activity but the last serves every user, and the last is not empty |
| Keys.ParsePrinted | internal/cron/pending_checker.go:318-324 | parsing a printed integer gives it back for every 64-bit integer and fails outside |
| Keys.PrintParsed | internal/cron/pending_checker.go:318-324 | a parsed text prints back as itself if and only if it is spelled canonically |
| Keys.PairInjective | internal/model/e/keys.go:116-166 | a pair of ids can be read off its text, whatever the ids, for any separator outside numbers |
| Keys.Spelled | internal/model/e/keys.go:21-70 | how a key of each family is spelled |
| Keys.TextInjective | internal/model/e/keys.go:19-166 | no two Redis keys of any family have the same text, those of the product cache (product_cache.go:97, 162) and the seeder's marker (cmd/seed/main.go:66) included |
| Keys.BloomMemberInjective | internal/model/e/keys.go:147-152 | filter members of different pairs differ |
| Keys.ScanReadsPending | internal/cron/pending_checker.go:318-324 | the scanner's prefix matches pending keys and no others, and its parser returns their activity |

## Left out

- CancelExpiredOrder: a deadlock at an unchecked statement, which rolls back the statements before it, is not among its faults.
- RunKeepsInv: assumes E1 to E5; the clocks of the markers (10 minutes, 24 hours) are not modelled, each may expire at any time its promise allows.
- StepKeepsInvIff: the iff is about the inductive invariant; a broken promise may be repaired by luck before a law is violated. E4's unique order numbers and E5's atomic transactions are built into the steps.
- SuccessIsStable: SUCCESS may name an order that was cancelled later, as in the code.
- LostForGoodIff: user and product ids are taken positive, as the tables' auto-increment keys are; a scanner deletes an entry without positive ids without returning its unit.
- ClaimPendingTasks: runs in one piece; claim loops interleaved row by row are the subject of `Outbox.ClaimLoopsDisjoint`.
- DispatchBatch: the workers of a batch act on distinct rows and are run one after the other.
- StalenessBound: a load is one step, so the sharing of concurrent loads is not modelled.
- No claim that retry counts only grow: a late writer stores a count it read at claim time.
- Several activities or products at once: the protocol is per activity, and `Keys.TextInjective` shows their Redis keys apart.
- Pending values other than the JSON the current writer produces, and malformed messages, which handlers drop.
- The texts of `last_error` and their truncation, timestamps of orders, the timestamp used for latency statistics.
- DoSeckill's refusals before the script (click limit, local sold-out flag, Bloom filter, early buyer check): they only refuse; likewise its branches for a missing outbox repository and for a message that cannot be encoded.
- 64-bit overflow of ages and durations; the generator of order numbers, taken as unique.
- GORM's soft deletion and the splitting of large inserts, except that a batch size of zero or less fails; random statuses and dates of seeded orders; fatal database errors while seeding.
- HTTP, login, logging, configuration, metrics, load tests, the agent service, list queries: nothing hard to state.
